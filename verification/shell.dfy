/** The desktop shell: one pending action, a lock intent, and a stack of account pages. */
module Shell {
  import opened Base

  datatype ShellState = FirstRun | Locked | Unlocking | Saving | Unlocked | Refreshing | Error | AgentUnavailable

  datatype Action =
    | Idle
    | Initialize | RetryStatus | RefreshStatus
    | Create | Unlock | UnlockWindowsHello | EnrollWindowsHello | RemoveWindowsHello
    | Lock | SaveAccount | DeletePasskey | NextAccountPage | PreviousAccountPage

  datatype ClientError =
    | NoError | Unavailable | Busy | Cancelled | InvalidCredentials | WindowsHelloUnavailable
    | LockedError | Unexpected

  datatype VaultStatus = NoVaultYet | VaultLocked | VaultUnlocked

  datatype AccountList = AccountList(error: ClientError, accounts: seq<nat>, nextOffset: Option<nat>)

  datatype PasskeyList = PasskeyList(error: ClientError, passkeys: seq<nat>)

  datatype Outcome = Outcome(
    error: ClientError, status: VaultStatus, accounts: Option<AccountList>, passkeys: Option<PasskeyList>)

  datatype View = View(state: ShellState, resume: ShellState, pending: Action, editor: bool, intent: bool)

  datatype Lists = Lists(accounts: seq<nat>, passkeys: seq<nat>)

  datatype Pages = Pages(next: Option<nat>, requested: Option<nat>, previous: seq<nat>, current: nat)

  datatype Model = Model(view: View, lists: Lists, pages: Pages)

  const START := Model(
    View(AgentUnavailable, ShellState.Locked, Idle, false, false), Lists([], []), Pages(None, None, [], 0))

  // --------------------------------------------------------- specification

  function Show(m: Model, state: ShellState): Model { m.(view := m.view.(state := state)) }

  /** Nothing of the vault is visible in the new state. */
  function Hide(m: Model, state: ShellState): Model {
    m.(view := m.view.(state := state, editor := false), lists := Lists([], []))
  }

  function SetVaultStatus(m: Model, status: VaultStatus): Model {
    var reset := Hide(m, m.view.state).(pages := Pages(None, None, [], 0));
    if m.view.intent && status != VaultLocked then Show(reset, Error)
    else
      match status
      case NoVaultYet => Show(reset, FirstRun)
      case VaultLocked => reset.(view := reset.view.(state := ShellState.Locked, intent := false))
      case VaultUnlocked => reset.(view := reset.view.(state := Unlocked, resume := Unlocked))
  }

  function ApplyError(m: Model, error: ClientError): Model {
    match error
    case Cancelled | WindowsHelloUnavailable =>
      if m.view.resume == Unlocked then Show(m, Unlocked) else Hide(m, m.view.resume)
    case NoError => SetVaultStatus(m, VaultLocked)
    case Unavailable => Hide(m, AgentUnavailable)
    case Busy | Unexpected => Hide(m, Error)
    case InvalidCredentials | LockedError => Hide(m, ShellState.Locked)
  }

  function ApplyAccounts(m: Model, r: AccountList): Model {
    if r.error == Cancelled then
      m.(view := m.view.(state := Error, editor := false), lists := m.lists.(accounts := []))
    else if r.error != NoError then ApplyError(m, r.error)
    else m.(lists := m.lists.(accounts := r.accounts),
            pages := m.pages.(current := 0, previous := [], next := r.nextOffset))
  }

  function ApplyPasskeys(m: Model, r: PasskeyList): Model {
    if r.error == Cancelled && m.view.state == Unlocked then m.(lists := m.lists.(passkeys := []))
    else if r.error != NoError then ApplyError(m, r.error)
    else m.(lists := m.lists.(passkeys := r.passkeys))
  }

  function Apply(m: Model, o: Outcome): Model {
    if o.error != NoError then ApplyError(m, o.error)
    else
      var shown := SetVaultStatus(m, o.status);
      if shown.view.state != Unlocked then shown
      else if o.accounts.None? || o.passkeys.None? then ApplyError(shown, Unexpected)
      else
        var listed := ApplyAccounts(shown, o.accounts.value);
        if listed.view.state == Unlocked then ApplyPasskeys(listed, o.passkeys.value) else listed
  }

  function ApplyLockFailure(m: Model, error: ClientError): Model {
    Hide(m, if error == Unavailable then AgentUnavailable else Error)
  }

  /** Remembers where to return and marks the action as pending. */
  function Pend(m: Model, action: Action, state: ShellState, editor: bool): Model {
    m.(view := View(state, m.view.state, action, editor, m.view.intent))
  }

  predicate StatusAction(a: Action) { a == Initialize || a == RetryStatus || a == RefreshStatus }

  predicate PageAction(a: Action) { a == NextAccountPage || a == PreviousAccountPage }

  predicate HelloAction(a: Action) { a == UnlockWindowsHello || a == EnrollWindowsHello || a == RemoveWindowsHello }

  function BeginStatus(m: Model, action: Action): Model {
    var refreshing := action == RefreshStatus && m.view.state == Unlocked;
    if m.view.pending != Idle then m
    else
      Pend(m, action, if refreshing then Refreshing else Unlocking, refreshing && m.view.editor)
      .(lists := Lists([], []))
  }

  function BeginLockRequest(m: Model): Model {
    if m.view.pending != Idle then m
    else Pend(m, Lock, Unlocking, false).(lists := m.lists.(accounts := []))
  }

  function BeginRetry(m: Model): Model {
    if m.view.state != Error && m.view.state != AgentUnavailable then m
    else if m.view.intent then BeginLockRequest(m)
    else BeginStatus(m, RetryStatus)
  }

  function BeginLock(m: Model): Model {
    if m.view.state != Unlocked || m.view.pending != Idle then m
    else BeginLockRequest(m.(view := m.view.(intent := true)))
  }

  /** Create and Unlock: allowed from one state, without looking at the pending action. */
  function BeginFrom(m: Model, required: ShellState, action: Action): Model {
    if m.view.state != required then m else Pend(m, action, Unlocking, m.view.editor)
  }

  function BeginHello(m: Model, action: Action): Model {
    var required := if action == UnlockWindowsHello then ShellState.Locked else Unlocked;
    if m.view.state != required || m.view.pending != Idle then m else Pend(m, action, Unlocking, false)
  }

  function BeginSave(m: Model): Model {
    if m.view.state != Unlocked || !m.view.editor then m else Pend(m, SaveAccount, Saving, m.view.editor)
  }

  function BeginDelete(m: Model): Model {
    if m.view.state != Unlocked || m.view.pending != Idle then m else Pend(m, DeletePasskey, Saving, false)
  }

  /** The offset a page request asks for, if it may start. */
  function PageOffset(m: Model, action: Action): Option<nat> {
    if m.view.state != Unlocked || m.view.pending != Idle then None
    else if action == NextAccountPage then m.pages.next
    else if m.pages.previous == [] then None
    else Some(m.pages.previous[|m.pages.previous| - 1])
  }

  function BeginPage(m: Model, action: Action): Model {
    var offset := PageOffset(m, action);
    if offset.None? then m
    else
      Pend(m, action, Unlocking, false)
      .(lists := m.lists.(accounts := []), pages := m.pages.(requested := offset))
  }

  function Unpend(m: Model): Model { m.(view := m.view.(pending := Idle)) }

  /** A refresh keeps the open editor only if access, accounts and passkeys were all confirmed. */
  predicate KeepsEditor(m: Model, action: Action, o: Outcome) {
    && action == RefreshStatus && m.view.resume == Unlocked && m.view.editor
    && o.error == NoError && o.status == VaultUnlocked
    && o.accounts.Some? && o.accounts.value.error == NoError
    && o.passkeys.Some? && (o.passkeys.value.error == NoError || o.passkeys.value.error == Cancelled)
  }

  function CompleteStatus(m: Model, action: Action, o: Outcome): Model {
    if m.view.pending != action then m
    else
      var free := m.(view := m.view.(pending := Idle, editor := false));
      if o.error == Cancelled || o.error == WindowsHelloUnavailable then ApplyError(free, Unexpected)
      else
        var done := Apply(free, o);
        done.(view := done.view.(editor := KeepsEditor(m, action, o) && done.view.state == Unlocked))
  }

  function CompleteLock(m: Model, o: Outcome): Model {
    if m.view.pending != Lock then m
    else if (o.error == NoError && o.status == VaultLocked) || o.error == LockedError then
      SetVaultStatus(m.(view := m.view.(pending := Idle, intent := false)), VaultLocked)
    else ApplyLockFailure(Unpend(m), o.error)
  }

  function CompleteRetry(m: Model, o: Outcome): Model {
    if m.view.pending == Lock then CompleteLock(m, o) else CompleteStatus(m, RetryStatus, o)
  }

  function CompleteRequest(m: Model, action: Action, o: Outcome): Model {
    if m.view.pending != action then m
    else
      var free := Unpend(m);
      Apply(if action == SaveAccount && o.error == NoError then free.(view := free.view.(editor := false)) else free, o)
  }

  function CompletePage(m: Model, action: Action, r: AccountList): Model {
    if m.view.pending != action || m.pages.requested.None? then m
    else
      var free := Unpend(m).(pages := m.pages.(requested := None));
      var previous := m.pages.previous;
      if r.error != NoError then ApplyAccounts(free, r)
      else
        Show(free, Unlocked)
        .(lists := m.lists.(accounts := r.accounts),
          pages := Pages(r.nextOffset, None,
                         if action == NextAccountPage then previous + [m.pages.current]
                         else if previous == [] then [] else previous[..|previous| - 1],
                         m.pages.requested.value))
  }

  // ---------------------------------------------------------- whole runs

  datatype Call =
    | StatusCall(action: Action) | RetryCall | CreateCall | UnlockCall | HelloCall(action: Action) | LockCall
    | SaveCall | DeleteCall | PageCall(action: Action) | EditCall | CancelEditCall
    | StatusDone(action: Action, outcome: Outcome) | RetryDone(outcome: Outcome) | LockDone(outcome: Outcome)
    | RequestDone(action: Action, outcome: Outcome) | PageDone(action: Action, list: AccountList)

  function Next(m: Model, call: Call): Model {
    match call
    case StatusCall(a) => BeginStatus(m, a)
    case RetryCall => BeginRetry(m)
    case CreateCall => BeginFrom(m, FirstRun, Create)
    case UnlockCall => BeginFrom(m, ShellState.Locked, Unlock)
    case HelloCall(a) => BeginHello(m, a)
    case LockCall => BeginLock(m)
    case SaveCall => BeginSave(m)
    case DeleteCall => BeginDelete(m)
    case PageCall(a) => BeginPage(m, a)
    case EditCall => if m.view.state == Unlocked then m.(view := m.view.(editor := true)) else m
    case CancelEditCall => m.(view := m.view.(editor := false))
    case StatusDone(a, o) => CompleteStatus(m, a, o)
    case RetryDone(o) => CompleteRetry(m, o)
    case LockDone(o) => CompleteLock(m, o)
    case RequestDone(a, o) => CompleteRequest(m, a, o)
    case PageDone(a, r) => CompletePage(m, a, r)
  }

  /** A page the client accepted for an offset: the next one starts beyond it. */
  predicate Checked(r: AccountList, offset: nat) {
    r.error == NoError && r.nextOffset.Some? ==> offset < r.nextOffset.value
  }

  predicate CheckedOutcome(o: Outcome) { o.accounts.Some? ==> Checked(o.accounts.value, 0) }

  /** Calls the window can make: each with the actions of its kind and lists the client checked. */
  predicate Legal(m: Model, call: Call) {
    match call
    case StatusCall(a) => a == Initialize || a == RefreshStatus
    case HelloCall(a) => HelloAction(a)
    case PageCall(a) => PageAction(a)
    case StatusDone(a, o) => StatusAction(a) && CheckedOutcome(o)
    case RetryDone(o) => CheckedOutcome(o)
    case RequestDone(a, o) =>
      (HelloAction(a) || a == Create || a == Unlock || a == SaveAccount || a == DeletePasskey) && CheckedOutcome(o)
    case PageDone(a, r) => PageAction(a) && (m.pages.requested.Some? ==> Checked(r, m.pages.requested.value))
    case _ => true
  }

  predicate Occupied(s: ShellState) { s == Unlocking || s == Saving || s == Refreshing }

  predicate ViewOk(v: View) {
    && (v.pending != Idle <==> Occupied(v.state))
    && !Occupied(v.resume)
    && (v.intent ==> v.state != Unlocked && (v.pending != Idle && v.pending != Lock ==> v.resume != Unlocked))
    && (PageAction(v.pending) ==> v.resume == Unlocked)
    && (v.pending == Lock ==> v.state == Unlocking)
    && (v.editor ==> v.state == Unlocked || ((v.state == Saving || v.state == Refreshing) && v.resume == Unlocked))
  }

  predicate Ascending(xs: seq<nat>) { forall i, j :: 0 <= i < j < |xs| ==> xs[i] < xs[j] }

  predicate PagesOk(p: Pages, pending: Action) {
    && Ascending(p.previous) && (forall x :: x in p.previous ==> x < p.current)
    && (p.next.Some? ==> p.current < p.next.value)
    && (p.requested.Some? <==> PageAction(pending))
    && (pending == NextAccountPage ==> p.requested == p.next)
    && (pending == PreviousAccountPage ==> p.previous != [] && p.requested.value == p.previous[|p.previous| - 1])
  }

  predicate Invariant(m: Model) {
    && ViewOk(m.view) && PagesOk(m.pages, m.view.pending)
    && (m.view.intent ==> m.lists.accounts == [] && (m.view.pending != Lock ==> m.lists.passkeys == []))
  }

  /** Between a completion and the state it will show: nothing pending, a place to return to. */
  predicate Between(m: Model) {
    && m.view.pending == Idle && !Occupied(m.view.resume) && PagesOk(m.pages, Idle)
    && (m.view.intent ==> m.view.resume != Unlocked && m.lists == Lists([], []))
    && (m.view.editor ==> m.view.resume == Unlocked)
  }

  lemma ErrorKeeps(m: Model, error: ClientError)
    requires Between(m)
    ensures Invariant(ApplyError(m, error)) && ApplyError(m, error).view.pending == Idle
  {
  }

  lemma StatusShows(m: Model, status: VaultStatus)
    requires Between(m)
    ensures
      var t := SetVaultStatus(m, status);
      && Invariant(t) && t.view.pending == Idle
      && (t.view.state == Unlocked ==> Between(t) && t.view.resume == Unlocked && !t.view.intent)
  {
  }

  lemma ApplyKeeps(m: Model, o: Outcome)
    requires Between(m) && CheckedOutcome(o)
    ensures Invariant(Apply(m, o)) && Apply(m, o).view.pending == Idle
  {
    if o.error != NoError {
      ErrorKeeps(m, o.error);
      return;
    }
    StatusShows(m, o.status);
    var shown := SetVaultStatus(m, o.status);
    if shown.view.state == Unlocked {
      ErrorKeeps(shown, Unexpected);
      if o.accounts.Some? && o.passkeys.Some? {
        ErrorKeeps(shown, o.accounts.value.error);
        var listed := ApplyAccounts(shown, o.accounts.value);
        if listed.view.state == Unlocked { ErrorKeeps(listed, o.passkeys.value.error); }
      }
    }
  }

  lemma PushKeeps(xs: seq<nat>, current: nat, beyond: nat)
    requires Ascending(xs) && (forall x :: x in xs ==> x < current) && current < beyond
    ensures Ascending(xs + [current]) && (forall x :: x in xs + [current] ==> x < beyond)
  {
    var ys := xs + [current];
    forall i, j | 0 <= i < j < |ys| ensures ys[i] < ys[j] {
      assert ys[i] == xs[i] && xs[i] in xs;
    }
  }

  lemma PageKeeps(m: Model, action: Action, r: AccountList)
    requires Invariant(m) && Legal(m, PageDone(action, r))
    ensures Invariant(CompletePage(m, action, r))
  {
    if m.view.pending == action {
      var free := Unpend(m).(pages := m.pages.(requested := None));
      if r.error != NoError {
        ErrorKeeps(free, r.error);
      } else if action == NextAccountPage {
        PushKeeps(m.pages.previous, m.pages.current, m.pages.requested.value);
      } else {
        var n := |m.pages.previous| - 1;
        assert m.pages.previous[n] in m.pages.previous;
      }
    }
  }

  lemma BeginKeeps(m: Model, call: Call)
    requires Invariant(m) && Legal(m, call)
    requires !call.StatusDone? && !call.RetryDone? && !call.LockDone? && !call.RequestDone? && !call.PageDone?
    ensures Invariant(Next(m, call))
  {
  }

  lemma StatusKeeps(m: Model, action: Action, o: Outcome)
    requires Invariant(m) && StatusAction(action) && CheckedOutcome(o)
    ensures Invariant(CompleteStatus(m, action, o))
  {
    if m.view.pending == action {
      ApplyKeeps(m.(view := m.view.(pending := Idle, editor := false)), o);
    }
  }

  lemma RequestKeeps(m: Model, action: Action, o: Outcome)
    requires Invariant(m) && Legal(m, RequestDone(action, o))
    ensures Invariant(CompleteRequest(m, action, o))
  {
    if m.view.pending == action {
      var free := Unpend(m);
      ApplyKeeps(free, o);
      ApplyKeeps(free.(view := free.view.(editor := false)), o);
    }
  }

  lemma NextKeeps(m: Model, call: Call)
    requires Invariant(m) && Legal(m, call)
    ensures Invariant(Next(m, call))
  {
    match call
    case StatusDone(a, o) => StatusKeeps(m, a, o);
    case RetryDone(o) => if m.view.pending != Lock { StatusKeeps(m, RetryStatus, o); }
    case LockDone(o) =>
    case RequestDone(a, o) => RequestKeeps(m, a, o);
    case PageDone(a, r) => PageKeeps(m, a, r);
    case _ => BeginKeeps(m, call);
  }

  function Run(m: Model, calls: seq<Call>): Model
    decreases |calls|
  {
    if calls == [] then m else Run(Next(m, calls[0]), calls[1..])
  }

  predicate LegalRun(m: Model, calls: seq<Call>)
    decreases |calls|
  {
    calls == [] || (Legal(m, calls[0]) && LegalRun(Next(m, calls[0]), calls[1..]))
  }

  lemma {:induction false} RunsKeep(m: Model, calls: seq<Call>)
    requires Invariant(m) && LegalRun(m, calls)
    ensures Invariant(Run(m, calls))
    decreases |calls|
  {
    if calls != [] {
      NextKeeps(m, calls[0]);
      RunsKeep(Next(m, calls[0]), calls[1..]);
    }
  }

  // ------------------------------------------------------------- theorems

  /** In every run an action is pending exactly while the shell shows work in progress. */
  lemma PendingIffOccupied(calls: seq<Call>)
    requires LegalRun(START, calls)
    ensures
      var m := Run(START, calls);
      && (m.view.pending != Idle <==> Occupied(m.view.state))
      && (m.view.intent ==> m.view.state != Unlocked && m.lists.accounts == [])
      && Ascending(m.pages.previous) && (forall x :: x in m.pages.previous ==> x < m.pages.current)
  {
    RunsKeep(START, calls);
  }

  /** The answer says the vault is locked; LockedError does so only as the answer to a lock. */
  predicate SaysLocked(pending: Action, o: Outcome) {
    (o.error == NoError && o.status == VaultLocked) || (pending == Lock && o.error == LockedError)
  }

  /** The pending action completes with a report that the vault is locked. */
  predicate ReportsLocked(m: Model, call: Call) {
    match call
    case StatusDone(a, o) => m.view.pending == a && SaysLocked(a, o)
    case RequestDone(a, o) => m.view.pending == a && SaysLocked(a, o)
    case RetryDone(o) => (m.view.pending == Lock || m.view.pending == RetryStatus) && SaysLocked(m.view.pending, o)
    case LockDone(o) => m.view.pending == Lock && SaysLocked(Lock, o)
    case _ => false
  }

  /** A lock intent, once set, is dropped exactly by such a report. */
  lemma IntentLasts(m: Model, call: Call)
    requires Invariant(m) && Legal(m, call) && m.view.intent
    ensures !Next(m, call).view.intent <==> ReportsLocked(m, call)
    ensures ReportsLocked(m, call) ==> Next(m, call).view.state == ShellState.Locked
  {
    match call
    case PageDone(a, r) =>
    case StatusDone(a, o) =>
    case RequestDone(a, o) =>
    case _ =>
  }

  /** No call of the run is such a report. */
  predicate Unreported(m: Model, calls: seq<Call>)
    decreases |calls|
  {
    calls == [] || (!ReportsLocked(m, calls[0]) && Unreported(Next(m, calls[0]), calls[1..]))
  }

  /** The intent is set at every point of the run. */
  predicate IntentThroughout(m: Model, calls: seq<Call>)
    decreases |calls|
  {
    m.view.intent && (calls == [] || IntentThroughout(Next(m, calls[0]), calls[1..]))
  }

  /**
   * From a lock request on, the intent is set throughout exactly if no report comes, and then
   * access stays hidden, whatever else completes.
   */
  lemma {:induction false} LockIntentHolds(m: Model, calls: seq<Call>)
    requires Invariant(m) && LegalRun(m, calls) && m.view.intent
    ensures IntentThroughout(m, calls) <==> Unreported(m, calls)
    ensures Unreported(m, calls) ==>
              Run(m, calls).view.intent && Run(m, calls).view.state != Unlocked && Run(m, calls).lists.accounts == []
    decreases |calls|
  {
    if calls != [] {
      NextKeeps(m, calls[0]);
      IntentLasts(m, calls[0]);
      if Next(m, calls[0]).view.intent {
        LockIntentHolds(Next(m, calls[0]), calls[1..]);
      } else {
        assert !IntentThroughout(Next(m, calls[0]), calls[1..]);
      }
    }
  }

  /** An answer that confirms an unlocked vault with both lists. */
  predicate ConfirmsUnlocked(o: Outcome) {
    && o.error == NoError && o.status == VaultUnlocked
    && o.accounts.Some? && o.accounts.value.error == NoError
    && o.passkeys.Some? && (o.passkeys.value.error == NoError || o.passkeys.value.error == Cancelled)
  }

  /** A confirmed unlock is shown as Unlocked exactly when the intent is clear. */
  lemma UnlockShown(m: Model, action: Action, o: Outcome)
    requires m.view.pending == action && ConfirmsUnlocked(o)
    ensures
      var t := CompleteRequest(m, action, o);
      (t.view.state == Unlocked <==> !m.view.intent) && (m.view.intent ==> t.view.state == Error && t.view.intent)
    ensures
      var t := CompleteStatus(m, action, o);
      (t.view.state == Unlocked <==> !m.view.intent) && (m.view.intent ==> t.view.state == Error && t.view.intent)
  {
  }

  /** A completion that does not match the pending action changes nothing. */
  lemma StrayCompletions(m: Model, action: Action, o: Outcome, r: AccountList)
    requires Invariant(m)
    ensures StatusAction(action) && m.view.pending != action ==> CompleteStatus(m, action, o) == m
    ensures m.view.pending != action ==> CompleteRequest(m, action, o) == m && CompletePage(m, action, r) == m
    ensures m.view.pending != Lock ==> CompleteLock(m, o) == m
    ensures m.view.pending != Lock && m.view.pending != RetryStatus ==> CompleteRetry(m, o) == m
    ensures m.view.pending == Idle ==> CompleteRetry(m, o) == m && CompleteLock(m, o) == m
  {
  }

  /** Going to the next page and back returns to the same page with the same way back. */
  lemma PreviousUndoesNext(m: Model, r: AccountList, back: AccountList)
    requires Invariant(m) && m.view.state == Unlocked && m.pages.next.Some?
    requires r.error == NoError && Checked(r, m.pages.next.value) && back.error == NoError
    ensures
      var there := CompletePage(BeginPage(m, NextAccountPage), NextAccountPage, r);
      var again := CompletePage(BeginPage(there, PreviousAccountPage), PreviousAccountPage, back);
      && there.view.state == Unlocked && there.pages.current == m.pages.next.value
      && again.view.state == Unlocked
      && again.pages.current == m.pages.current && again.pages.previous == m.pages.previous
      && again.pages.next == back.nextOffset && again.lists.accounts == back.accounts
  {
  }

  lemma LostLock(m: Model, lost: Outcome)
    requires Invariant(m) && m.view.state == Unlocked && lost.error == Unexpected
    ensures Next(Next(m, LockCall), LockDone(lost)).view == View(Error, Unlocked, Idle, false, true)
  {
  }

  lemma LockedErrorKeepsIntent(m: Model, locked: Outcome)
    requires m.view.state == Error && m.view.pending == Idle && m.view.intent && locked.error == LockedError
    ensures Next(Next(m, StatusCall(RefreshStatus)), StatusDone(RefreshStatus, locked)).view
            == View(ShellState.Locked, Error, Idle, false, true)
  {
  }

  /**
   * A departure from the intent's purpose: from any unlocked shell, a lock whose answer is lost,
   * followed by a refresh refused because the vault is locked, shows Locked with the intent still
   * set; the next confirmed unlock is then shown as an error. IntentLasts says which completions
   * drop the intent: LockedError does so only while the lock itself is pending.
   */
  lemma IntentOutlivesLockedError(m: Model, lost: Outcome, locked: Outcome, open: Outcome)
    requires Invariant(m) && m.view.state == Unlocked && lost.error == Unexpected && locked.error == LockedError
    requires ConfirmsUnlocked(open)
    ensures
      var m2 := Next(Next(m, LockCall), LockDone(lost));
      var m3 := Next(Next(m2, StatusCall(RefreshStatus)), StatusDone(RefreshStatus, locked));
      var m4 := Next(Next(m3, UnlockCall), RequestDone(Unlock, open));
      && m3.view.state == ShellState.Locked && m3.view.intent
      && m4.view.state == Error && m4.view.intent
  {
    var m2 := Next(Next(m, LockCall), LockDone(lost));
    LostLock(m, lost);
    LockedErrorKeepsIntent(m2, locked);
    var m3 := Next(Next(m2, StatusCall(RefreshStatus)), StatusDone(RefreshStatus, locked));
    UnlockShown(Next(m3, UnlockCall), Unlock, open);
  }

  // --------------------------------------------------- passkeys under the intent

  predicate AnswersLock(call: Call) { call.LockDone? || call.RetryDone? }

  predicate Unanswered(calls: seq<Call>) { forall i :: 0 <= i < |calls| ==> !AnswersLock(calls[i]) }

  /** While a lock is pending only its answer changes anything, and that empties the lists. */
  lemma LockPends(m: Model, call: Call)
    requires Invariant(m) && Legal(m, call) && m.view.pending == Lock
    ensures if AnswersLock(call) then Next(m, call).lists == Lists([], []) else Next(m, call) == m
  {
  }

  /** Passkeys listed under the intent: as before, or because a lock was requested just now. */
  lemma PasskeysListed(m: Model, call: Call)
    requires Invariant(m) && Legal(m, call) && Next(m, call).view.intent && Next(m, call).lists.passkeys != []
    ensures if m.view.pending == Lock then Next(m, call) == m && !AnswersLock(call)
            else call == LockCall && m.view.state == Unlocked && Next(m, call).lists.passkeys == m.lists.passkeys
  {
    NextKeeps(m, call);
    if m.view.pending == Lock { LockPends(m, call); }
  }

  lemma {:induction false} RunLast(m: Model, calls: seq<Call>, last: Call)
    requires LegalRun(m, calls + [last])
    ensures LegalRun(m, calls) && Legal(Run(m, calls), last) && Run(m, calls + [last]) == Next(Run(m, calls), last)
    decreases |calls|
  {
    if calls != [] {
      assert (calls + [last])[1..] == calls[1..] + [last];
      RunLast(Next(m, calls[0]), calls[1..], last);
    }
  }

  /** Call `i` requested a lock of an unlocked shell that listed these passkeys; no answer since. */
  predicate LockedFrom(calls: seq<Call>, i: nat, passkeys: seq<nat>)
    requires i < |calls|
  {
    && Run(START, calls[..i]).view.state == Unlocked && calls[i] == LockCall
    && Run(START, calls[..i]).lists.passkeys == passkeys && Unanswered(calls[i + 1..])
  }

  /** The same request, one call later. */
  lemma LockedFromExtends(calls: seq<Call>, last: Call, i: nat, passkeys: seq<nat>)
    requires i < |calls|
    ensures LockedFrom(calls + [last], i, passkeys) <==> LockedFrom(calls, i, passkeys) && !AnswersLock(last)
  {
    assert (calls + [last])[..i] == calls[..i] && (calls + [last])[i + 1..] == calls[i + 1..] + [last];
    UnansweredExtends(calls[i + 1..], last);
  }

  lemma UnansweredExtends(calls: seq<Call>, last: Call)
    ensures Unanswered(calls + [last]) <==> Unanswered(calls) && !AnswersLock(last)
  {
    var more := calls + [last];
    assert more[|calls|] == last && more[..|calls|] == calls;
    if Unanswered(more) {
      forall j | 0 <= j < |calls| ensures !AnswersLock(calls[j]) { assert more[j] == calls[j]; }
    }
  }

  lemma LockJustStarted(calls: seq<Call>, last: Call, passkeys: seq<nat>)
    ensures LockedFrom(calls + [last], |calls|, passkeys) <==>
              Run(START, calls).view.state == Unlocked && last == LockCall && Run(START, calls).lists.passkeys == passkeys
  {
    assert (calls + [last])[..|calls|] == calls && (calls + [last])[|calls| + 1..] == [];
  }

  /** What the shell shows while such a lock pends. */
  lemma {:induction false} LockedShell(calls: seq<Call>, i: nat, passkeys: seq<nat>)
    requires LegalRun(START, calls) && i < |calls| && LockedFrom(calls, i, passkeys)
    ensures
      var m := Run(START, calls);
      m.view.intent && m.view.pending == Lock && m.lists == Lists([], passkeys)
    decreases |calls|
  {
    var n := |calls| - 1;
    var before, last := calls[..n], calls[n];
    assert calls == before + [last];
    RunLast(START, before, last);
    RunsKeep(START, before);
    if i == n {
      LockJustStarted(before, last, passkeys);
    } else {
      LockedFromExtends(before, last, i, passkeys);
      LockedShell(before, i, passkeys);
      LockPends(Run(START, before), last);
    }
  }

  lemma {:induction false} ListedSince(calls: seq<Call>) returns (i: nat)
    requires LegalRun(START, calls) && Run(START, calls).view.intent && Run(START, calls).lists.passkeys != []
    ensures i < |calls| && LockedFrom(calls, i, Run(START, calls).lists.passkeys)
    decreases |calls|
  {
    var n := |calls| - 1;
    var before, last := calls[..n], calls[n];
    assert calls == before + [last];
    RunLast(START, before, last);
    RunsKeep(START, before);
    PasskeysListed(Run(START, before), last);
    if Run(START, before).view.pending == Lock {
      i := ListedSince(before);
      LockedFromExtends(before, last, i, Run(START, calls).lists.passkeys);
    } else {
      i := n;
      LockJustStarted(before, last, Run(START, calls).lists.passkeys);
    }
  }

  /**
   * In every run, under the intent passkeys are listed exactly while a lock requested of an
   * unlocked shell is unanswered, and they are the ones that shell listed.
   */
  lemma LockingKeepsPasskeys(calls: seq<Call>, passkeys: seq<nat>)
    requires LegalRun(START, calls) && passkeys != []
    ensures Run(START, calls).view.intent && Run(START, calls).lists.passkeys == passkeys <==>
              exists i :: 0 <= i < |calls| && LockedFrom(calls, i, passkeys)
    ensures Run(START, calls).view.intent && Run(START, calls).view.pending != Lock ==>
              Run(START, calls).lists.passkeys == []
  {
    RunsKeep(START, calls);
    if Run(START, calls).view.intent && Run(START, calls).lists.passkeys == passkeys {
      var i := ListedSince(calls);
    }
    if i :| 0 <= i < |calls| && LockedFrom(calls, i, passkeys) { LockedShell(calls, i, passkeys); }
  }

  // ------------------------------------------------------------- the object

  class ShellViewModel {
    var view: View
    var lists: Lists
    var pages: Pages

    ghost function State(): Model
      reads this
    {
      Model(view, lists, pages)
    }

    constructor ()
      ensures State() == START
    {
      view := View(AgentUnavailable, ShellState.Locked, Idle, false, false);
      lists := Lists([], []);
      pages := Pages(None, None, [], 0);
    }

    method ShowStatus(status: VaultStatus)
      modifies this
      ensures State() == SetVaultStatus(old(State()), status)
    {
      view := view.(editor := false);
      lists := Lists([], []);
      pages := Pages(None, None, [], 0);
      if view.intent && status != VaultLocked {
        view := view.(state := Error);
        return;
      }
      match status {
        case NoVaultYet => view := view.(state := FirstRun);
        case VaultLocked =>
          view := view.(intent := false);
          view := view.(state := ShellState.Locked);
        case VaultUnlocked =>
          view := view.(state := Unlocked);
          view := view.(resume := view.state);
      }
    }

    method ShowError(error: ClientError)
      modifies this
      ensures State() == ApplyError(old(State()), error)
    {
      if error == Cancelled || error == WindowsHelloUnavailable {
        view := view.(state := view.resume);
        if view.state != Unlocked {
          view := view.(editor := false);
          lists := Lists([], []);
        }
        return;
      }
      view := view.(editor := false);
      lists := Lists([], []);
      match error {
        case NoError => ShowStatus(VaultLocked);
        case Unavailable => view := view.(state := AgentUnavailable);
        case Busy => view := view.(state := Error);
        case Unexpected => view := view.(state := Error);
        case InvalidCredentials => view := view.(state := ShellState.Locked);
        case LockedError => view := view.(state := ShellState.Locked);
      }
    }

    method ShowAccounts(r: AccountList)
      modifies this
      ensures State() == ApplyAccounts(old(State()), r)
    {
      if r.error == Cancelled {
        view := view.(editor := false, state := Error);
        lists := lists.(accounts := []);
        return;
      }
      if r.error != NoError {
        ShowError(r.error);
        return;
      }
      lists := lists.(accounts := r.accounts);
      pages := pages.(current := 0, previous := [], next := r.nextOffset);
    }

    method ShowPasskeys(r: PasskeyList)
      modifies this
      ensures State() == ApplyPasskeys(old(State()), r)
    {
      if r.error != NoError {
        if r.error == Cancelled && view.state == Unlocked {
          lists := lists.(passkeys := []);
          return;
        }
        ShowError(r.error);
        return;
      }
      lists := lists.(passkeys := r.passkeys);
    }

    method ShowOutcome(o: Outcome)
      modifies this
      ensures State() == Apply(old(State()), o)
    {
      if o.error != NoError {
        ShowError(o.error);
        return;
      }
      ShowStatus(o.status);
      if view.state != Unlocked { return; }
      if o.accounts.None? || o.passkeys.None? {
        ShowError(Unexpected);
        return;
      }
      ShowAccounts(o.accounts.value);
      if view.state == Unlocked { ShowPasskeys(o.passkeys.value); }
    }

    method StartStatus(action: Action) returns (ok: bool)
      modifies this
      ensures State() == BeginStatus(old(State()), action) && ok == (old(view).pending == Idle)
    {
      if view.pending != Idle { return false; }
      var refreshing := action == RefreshStatus && view.state == Unlocked;
      view := view.(resume := view.state, pending := action);
      if !refreshing { view := view.(editor := false); }
      lists := Lists([], []);
      view := view.(state := if refreshing then Refreshing else Unlocking);
      return true;
    }

    method StartLockRequest() returns (ok: bool)
      modifies this
      ensures State() == BeginLockRequest(old(State())) && ok == (old(view).pending == Idle)
    {
      if view.pending != Idle { return false; }
      view := view.(resume := view.state, pending := Lock, editor := false);
      lists := lists.(accounts := []);
      view := view.(state := Unlocking);
      return true;
    }

    method StartRetry() returns (ok: bool)
      modifies this
      ensures State() == BeginRetry(old(State()))
      ensures ok == ((old(view).state == Error || old(view).state == AgentUnavailable) && old(view).pending == Idle)
    {
      if view.state != Error && view.state != AgentUnavailable { return false; }
      if view.intent { ok := StartLockRequest(); } else { ok := StartStatus(RetryStatus); }
    }

    method StartLock() returns (ok: bool)
      modifies this
      ensures State() == BeginLock(old(State())) && ok == (old(view).state == Unlocked && old(view).pending == Idle)
    {
      if view.state != Unlocked || view.pending != Idle { return false; }
      view := view.(intent := true);
      ok := StartLockRequest();
    }

    /** Create and Unlock look at the state only; the invariant makes that enough. */
    method StartFrom(required: ShellState, action: Action) returns (ok: bool)
      modifies this
      ensures State() == BeginFrom(old(State()), required, action) && ok == (old(view).state == required)
    {
      if view.state != required { return false; }
      view := view.(resume := view.state, pending := action);
      view := view.(state := Unlocking);
      return true;
    }

    method StartHello(action: Action) returns (ok: bool)
      modifies this
      ensures State() == BeginHello(old(State()), action)
      ensures ok == (old(view).pending == Idle
                     && old(view).state == if action == UnlockWindowsHello then ShellState.Locked else Unlocked)
    {
      if view.state != (if action == UnlockWindowsHello then ShellState.Locked else Unlocked) { return false; }
      if view.pending != Idle { return false; }
      view := View(Unlocking, view.state, action, false, view.intent);
      return true;
    }

    method StartSave() returns (ok: bool)
      modifies this
      ensures State() == BeginSave(old(State())) && ok == (old(view).state == Unlocked && old(view).editor)
    {
      if view.state != Unlocked || !view.editor { return false; }
      view := view.(resume := view.state, pending := SaveAccount);
      view := view.(state := Saving);
      return true;
    }

    method StartDelete() returns (ok: bool)
      modifies this
      ensures State() == BeginDelete(old(State())) && ok == (old(view).state == Unlocked && old(view).pending == Idle)
    {
      if view.state != Unlocked || view.pending != Idle { return false; }
      view := View(Saving, view.state, DeletePasskey, false, view.intent);
      return true;
    }

    method StartPage(action: Action) returns (offset: Option<nat>)
      requires PageAction(action)
      modifies this
      ensures offset == PageOffset(old(State()), action)
      ensures State() == BeginPage(old(State()), action)
    {
      if action == NextAccountPage && pages.next.None? { return None; }
      if action == PreviousAccountPage && pages.previous == [] { return None; }
      if view.state != Unlocked || view.pending != Idle { return None; }
      offset := if action == NextAccountPage then pages.next else Some(pages.previous[|pages.previous| - 1]);
      view := View(Unlocking, view.state, action, false, view.intent);
      pages := pages.(requested := offset);
      lists := lists.(accounts := []);
    }

    method FinishStatus(action: Action, o: Outcome)
      modifies this
      ensures State() == CompleteStatus(old(State()), action, o)
    {
      if view.pending != action { return; }
      var keep := action == RefreshStatus && view.resume == Unlocked && view.editor
        && o.error == NoError && o.status == VaultUnlocked
        && o.accounts.Some? && o.accounts.value.error == NoError
        && o.passkeys.Some? && (o.passkeys.value.error == NoError || o.passkeys.value.error == Cancelled);
      view := view.(pending := Idle, editor := false);
      if o.error == Cancelled || o.error == WindowsHelloUnavailable {
        ShowError(Unexpected);
        return;
      }
      ShowOutcome(o);
      view := view.(editor := keep && view.state == Unlocked);
    }

    method FinishLock(o: Outcome)
      modifies this
      ensures State() == CompleteLock(old(State()), o)
    {
      if view.pending != Lock { return; }
      view := view.(pending := Idle);
      if (o.error == NoError && o.status == VaultLocked) || o.error == LockedError {
        view := view.(intent := false);
        ShowStatus(VaultLocked);
        return;
      }
      view := view.(editor := false, state := if o.error == Unavailable then AgentUnavailable else Error);
      lists := Lists([], []);
    }

    method FinishRetry(o: Outcome)
      modifies this
      ensures State() == CompleteRetry(old(State()), o)
    {
      if view.pending == Lock { FinishLock(o); } else { FinishStatus(RetryStatus, o); }
    }

    method FinishRequest(action: Action, o: Outcome)
      modifies this
      ensures State() == CompleteRequest(old(State()), action, o)
    {
      if view.pending != action { return; }
      view := view.(pending := Idle);
      if action == SaveAccount && o.error == NoError { view := view.(editor := false); }
      ShowOutcome(o);
    }

    method FinishPage(action: Action, r: AccountList)
      requires PageAction(action) && Invariant(State())
      modifies this
      ensures State() == CompletePage(old(State()), action, r)
    {
      if view.pending != action || pages.requested.None? { return; }
      var offset := pages.requested.value;
      view := view.(pending := Idle);
      pages := pages.(requested := None);
      if r.error != NoError {
        ShowAccounts(r);
        return;
      }
      var n := |pages.previous|;
      pages := pages.(previous := if action == NextAccountPage then pages.previous + [pages.current]
                                  else pages.previous[..n - 1]);
      pages := pages.(current := offset, next := r.nextOffset);
      view := view.(state := Unlocked);
      lists := lists.(accounts := r.accounts);
    }
  }
}
