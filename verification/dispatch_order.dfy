/**
 * Orderings over whole runs: what a lock, a cancellation or a disconnect rules out for
 * everything that becomes durable or is answered later.
 */
module DispatchOrder {
  import opened Base
  import opened Tables
  import Session
  import opened Dispatch
  import opened DispatchFrame

  // ------------------------------------------- what an event leaves behind

  /** The request can no longer commit, and its answer will be the cancellation. */
  ghost predicate Withdrawn(s: Agent, k: Key) {
    && k.conn in s.net.peers && k.id <= s.net.peers[k.conn].link.lastRequestId
    && (k.id in s.net.peers[k.conn].link.inFlight ==> Marked(s, k))
    && (k in s.requests && Registered(s.requests[k].phase) ==> k in s.gate.cancelled)
  }

  /** No request of the connection can commit, and none can begin. */
  ghost predicate Severed(s: Agent, c: nat) {
    && c in s.net.gone && c in s.net.peers && s.net.peers[c].link.closed
    && (forall id :: id in s.net.peers[c].link.inFlight ==> s.net.peers[c].link.inFlight[id].Cancelled?)
    && (forall k :: k in s.requests && k.conn == c && Registered(s.requests[k].phase) ==> k in s.gate.cancelled)
  }

  /** After a core failure under `permit` nothing is read under that epoch any more. */
  ghost predicate Dormant(s: Agent, permit: nat) {
    s.gate.epoch == permit && s.books.open ==> s.gate.state != Unlocked && CoreEpoch(s) != Some(permit)
  }

  ghost predicate Past(s: Agent, e: Event) {
    match e
    case Began(k, op, permit) =>
      && k in s.requests && s.requests[k].op == op && s.requests[k].epoch == permit
      && (RequiresUnlockedEpoch(op) ==> permit <= s.gate.epoch)
    case Entered(k) => k in s.requests && !s.requests[k].phase.Begun? && !s.requests[k].phase.Refused?
    case LeaseIssued(_, _, permit, _) => permit <= s.gate.epoch
    case Durable(_, permit, _, _, acked) => permit <= s.gate.epoch && (!acked ==> Dormant(s, permit))
    case Rejected(_, _, _, error) => error != RequestCancelled
    case CancelApplied(k) => Withdrawn(s, k)
    case DisconnectApplied(c) => Severed(s, c)
    case Advanced(before, _) => before < s.gate.epoch
    case AdvanceRefused(_) => s.gate.epoch == U64_MAX && s.gate.state != Unlocked
    case _ => true
  }

  lemma WithdrawnStays(s: Agent, t: Agent, k: Key)
    requires Shape(s) && Shape(t) && Grows(s, t) && Withdrawn(s, k)
    ensures Withdrawn(t, k)
  {
    assert LinkGrows(s.net.peers[k.conn], t.net.peers[k.conn]);
    if k in t.requests && Registered(t.requests[k].phase) {
      assert k !in s.requests ==> ReqNew(s.net, k, t.requests[k]);
      assert ReqKept(s, t, k);
      assert ReqOk(s.net, k, s.requests[k]);
    }
  }

  lemma SeveredStays(s: Agent, t: Agent, c: nat)
    requires Shape(s) && Shape(t) && Grows(s, t) && Severed(s, c)
    ensures Severed(t, c)
  {
    assert LinkGrows(s.net.peers[c], t.net.peers[c]);
    assert LinkOk(t.net.peers[c]);
    forall k | k in t.requests && k.conn == c && Registered(t.requests[k].phase) ensures k in t.gate.cancelled {
      assert k !in s.requests ==> ReqNew(s.net, k, t.requests[k]);
      assert ReqKept(s, t, k);
      assert ReqOk(s.net, k, s.requests[k]);
    }
  }

  // ------------------------------------------------- what a step announces

  predicate Clean(o: Outcome) { !o.committed && (o.error.None? || o.error == Some(NotFound)) }

  /** Locks, shutdowns and core failures also set every registered cancellation flag. */
  predicate Cancels(cause: Cause) { cause.ByLock? || cause.ByShutdown? || cause.ByFailure? }

  ghost predicate Announced(s: Agent, t: Agent, e: Event) {
    && Past(t, e)
    && match e
       case Began(k, op, permit) =>
         k.conn in s.net.peers && !s.net.peers[k.conn].link.closed
       case Advanced(before, cause) =>
         && before == s.gate.epoch
         && (Cancels(cause) ==> RegisteredKeys(s) <= t.gate.cancelled)
         && (!Cancels(cause) ==>
               cause.key in s.requests && Registered(s.requests[cause.key].phase) && cause.key !in s.gate.cancelled)
       case AdvanceRefused(at) => at == s.gate.epoch
       case DisconnectApplied(c) => c !in s.net.gone
       case Rejected(k, op, permit, error) =>
         && k in s.requests && s.requests[k].op == op && s.requests[k].epoch == permit
         && (s.requests[k].phase.Begun? || s.requests[k].phase.Refused?) && error != RequestCancelled
       case SecretRead(k, permit) =>
         && permit == s.gate.epoch && s.books.open && s.gate.state == Unlocked && CoreEpoch(s) == Some(permit)
       case Durable(k, permit, _, _, _) =>
         && k in s.requests && Registered(s.requests[k].phase) && k !in s.gate.cancelled
         && s.requests[k].epoch == permit == s.gate.epoch
       case Wrote(k, op, permit, o) =>
         && k in s.requests && s.requests[k].op == op && s.requests[k].epoch == permit
         && Registered(s.requests[k].phase) && k.conn in s.net.peers && k.id in s.net.peers[k.conn].link.inFlight
         && (Marked(s, k) && !o.committed ==> o.error == Some(RequestCancelled))
         && (Clean(o) && RequiresUnlockedEpoch(op) ==>
               permit == s.gate.epoch && s.gate.state == Unlocked && !s.gate.lockActive)
       case _ => true
  }

  /** At most one event, announced; Unlocked and a new session need a fresh epoch to be of use. */
  ghost predicate Turns(s: Agent, t: Agent) {
    && (t.trace != s.trace ==>
          && |t.trace| == |s.trace| + 1 && t.trace[..|s.trace|] == s.trace
          && Announced(s, t, t.trace[|s.trace|]))
    && (t.gate.state == Unlocked ==> s.gate.state == Unlocked || s.gate.epoch < t.gate.epoch)
    && (t.books.open && !s.books.open ==>
          s.gate.epoch < t.gate.epoch || (t.gate.state != Unlocked && CoreEpoch(t).None?))
    && (forall c :: c in t.net.gone && c !in s.net.gone ==>
          |t.trace| == |s.trace| + 1 && t.trace[|s.trace|] == DisconnectApplied(c))
  }

  lemma BeginTurns(s: Agent, a: LinkAction, t: Agent)
    requires a.Begin?
    requires DoBegin(s, a.conn, a.header, a.envelope, a.observed, a.context, a.selection, a.tx, a.cred, t)
    ensures Turns(s, t)
  {
    var peer := s.net.peers[a.conn];
    if Session.Begin(peer.profile, peer.link, a.header, a.envelope, a.observed).1.Admitted? {
      Session.AdmissionFacts(peer.profile, peer.link, a.header, a.envelope, a.observed);
    }
  }

  lemma CancelTurns(s: Agent, c: nat, h: FrameHeader, t: Agent)
    requires NetOk(s.net) && DoCancel(s, c, h, t)
    ensures Turns(s, t)
  {
    assert LinkOk(s.net.peers[c]);
  }

  lemma DisconnectTurns(s: Agent, c: nat, t: Agent)
    requires DoDisconnect(s, c, t)
    ensures Turns(s, t)
  {
  }

  lemma FinishTurns(s: Agent, k: Key, fits: bool, t: Agent)
    requires DoFinish(s, k, fits, t)
    ensures Turns(s, t)
  {
  }

  lemma AdmitTurns(s: Agent, k: Key, t: Agent)
    requires DoAdmit(s, k, t)
    ensures Turns(s, t)
  {
  }

  lemma LockTurns(s: Agent, k: Key, t: Agent)
    requires s.gate.epoch <= U64_MAX && DoLockGate(s, k, t)
    ensures Turns(s, t)
  {
  }

  lemma ShutdownTurns(s: Agent, t: Agent)
    requires s.gate.epoch <= U64_MAX && DoShutdown(s, t)
    ensures Turns(s, t)
  {
  }

  lemma PublishTurns(s: Agent, k: Key, bound: bool, t: Agent)
    requires DoPublish(s, k, bound, t)
    ensures Turns(s, t)
  {
    if t.trace == s.trace { return; }
  }

  lemma CreateTurns(s: Agent, k: Key, t: Agent)
    requires DoCreatePublish(s, k, t)
    ensures Turns(s, t)
  {
  }

  lemma ReadTurns(s: Agent, k: Key, found: Option<(nat, nat)>, token: nat, t: Agent)
    requires DoBrowserRead(s, k, found, token, t)
    ensures Turns(s, t)
  {
    if s.requests[k].phase.Claimed? { return; }
  }

  lemma WriteTurns(s: Agent, k: Key, t: Agent)
    requires VaultOk(s) && DoWriteSlot(s, k, t)
    ensures Turns(s, t)
  {
  }

  lemma RejectTurns(s: Agent, k: Key, t: Agent)
    requires DoReject(s, k, t)
    ensures Turns(s, t)
  {
  }

  lemma AccountTurns(s: Agent, k: Key, record: nat, acked: bool, t: Agent)
    requires MayCommit(s, k) && CommitAccount(s, k, record, acked, t)
    ensures Turns(s, t)
  {
  }

  lemma MakeTurns(s: Agent, k: Key, cred: nat, acked: bool, t: Agent)
    requires MayCommit(s, k) && CommitMake(s, k, cred, acked, t)
    ensures Turns(s, t)
  {
  }

  lemma ConfirmTurns(s: Agent, k: Key, acked: bool, t: Agent)
    requires MayCommit(s, k) && (CommitConfirm(s, k, acked, t) || CommitRollback(s, k, acked, t))
    ensures Turns(s, t)
  {
    if CommitConfirm(s, k, acked, t) { return; }
  }

  lemma CommitTurns(s: Agent, k: Key, target: nat, acked: bool, t: Agent)
    requires DoCommit(s, k, target, acked, t)
    ensures Turns(s, t)
  {
    match s.requests[k].op
    case AddAccount | UpdateAccount | DeleteAccount => AccountTurns(s, k, target, acked, t);
    case MakePasskey => MakeTurns(s, k, target, acked, t);
    case ConfirmPasskeyCreation => ConfirmTurns(s, k, acked, t);
    case RollbackPasskeyCreation => ConfirmTurns(s, k, acked, t);
    case DeletePasskey =>
    case GetPasskeyAssertion =>
  }

  lemma SweepTurns(s: Agent, slot: PendingKey, acked: bool, t: Agent)
    requires DoSweep(s, slot, acked, t) || DoSweepFailGate(s, t)
    ensures Turns(s, t)
  {
  }

  lemma LinkTurns(s: Agent, a: LinkAction, t: Agent)
    requires Shape(s) && LinkStep(s, a, t)
    ensures Turns(s, t)
  {
    match a
    case Begin(_, _, _, _, _, _, _, _) => BeginTurns(s, a, t);
    case ApplyCancel(c, h) => CancelTurns(s, c, h, t);
    case Disconnect(c) => DisconnectTurns(s, c, t);
    case Finish(k, fits) => FinishTurns(s, k, fits, t);
    case Admit(k) => AdmitTurns(s, k, t);
    case Reject(k) => RejectTurns(s, k, t);
    case _ =>
  }

  lemma LifeTurns(s: Agent, a: LifeAction, t: Agent)
    requires s.gate.epoch <= U64_MAX && LifeStep(s, a, t)
    ensures Turns(s, t)
  {
    match a
    case LockGate(k) => LockTurns(s, k, t);
    case Shutdown => ShutdownTurns(s, t);
    case Publish(k, bound) => PublishTurns(s, k, bound, t);
    case CreatePublish(k) => CreateTurns(s, k, t);
    case _ =>
  }

  lemma CoreTurns(s: Agent, a: CoreAction, t: Agent)
    requires VaultOk(s) && CoreStep(s, a, t)
    ensures Turns(s, t)
  {
    match a
    case BrowserRead(k, found, token) => ReadTurns(s, k, found, token, t);
    case WriteSlot(k) => WriteTurns(s, k, t);
    case _ =>
  }

  lemma StoreTurns(s: Agent, a: StoreAction, t: Agent)
    requires StoreStep(s, a, t)
    ensures Turns(s, t)
  {
    match a
    case Commit(k, target, acked) => CommitTurns(s, k, target, acked, t);
    case Sweep(slot, acked) => SweepTurns(s, slot, acked, t);
    case SweepFailGate => SweepTurns(s, PendingKey(0, 0), true, t);
    case _ =>
  }

  lemma StepTurns(s: Agent, a: Action, t: Agent)
    requires Shape(s) && Step(s, a, t)
    ensures Turns(s, t)
  {
    match a
    case Link(l) => LinkTurns(s, l, t);
    case Life(l) => LifeTurns(s, l, t);
    case Core(c) => CoreTurns(s, c, t);
    case Store(c) => StoreTurns(s, c, t);
  }

  // ---------------------------------------------------------- whole runs

  /** What may follow what. */
  predicate Ordered(e: Event, f: Event) {
    match e
    case Entered(k) => !(f.Rejected? && f.key == k)
    case LeaseIssued(_, _, permit, _) => f.Durable? ==> permit <= f.permit
    case Durable(_, permit, _, _, acked) => f.SecretRead? && !acked ==> permit < f.permit
    case Began(k, op, permit) =>
      && (f.Advanced? && RequiresUnlockedEpoch(op) ==> permit <= f.before)
      && ((f.Wrote? && f.key == k) ==> f.op == op && f.permit == permit)
      && (f.Durable? && f.key == k ==> f.permit == permit)
    case CancelApplied(k) =>
      && (f.Durable? ==> f.key != k)
      && (f.Wrote? && f.key == k && !f.outcome.committed ==> f.outcome.error == Some(RequestCancelled))
    case DisconnectApplied(c) =>
      && f != DisconnectApplied(c)
      && (f.Durable? || f.Began? ==> f.key.conn != c)
      && (f.Wrote? && f.key.conn == c && !f.outcome.committed ==> f.outcome.error == Some(RequestCancelled))
    case Advanced(before, _) =>
      && (f.Durable? ==> before < f.permit)
      && (f.Wrote? && RequiresUnlockedEpoch(f.op) && Clean(f.outcome) ==> before < f.permit)
    case AdvanceRefused(_) => !(f.Wrote? && RequiresUnlockedEpoch(f.op) && Clean(f.outcome))
    case _ => true
  }

  /** A request registered when the flags were set can no longer act. */
  ghost predicate Overtaken(s: Agent, e: Event, f: Event) {
    e.Entered? && f.Advanced? && Cancels(f.cause) ==>
      && e.key in s.requests && !s.requests[e.key].phase.Begun?
      && (Registered(s.requests[e.key].phase) ==> e.key in s.gate.cancelled)
  }

  ghost predicate History(s: Agent) {
    && Shape(s)
    && (forall i, j :: 0 <= i < j < |s.trace| ==> Overtaken(s, s.trace[i], s.trace[j]))
    && (forall c :: c in s.net.gone ==> Severed(s, c))
    && (forall i :: 0 <= i < |s.trace| ==> Past(s, s.trace[i]))
    && (forall i, j :: 0 <= i < j < |s.trace| ==> Ordered(s.trace[i], s.trace[j]))
  }

  lemma PastStays(s: Agent, t: Agent, e: Event)
    requires Shape(s) && Shape(t) && Grows(s, t) && Turns(s, t) && Past(s, e)
    ensures Past(t, e)
  {
    match e
    case Began(k, _, _) => assert ReqKept(s, t, k);
    case Entered(k) => assert ReqKept(s, t, k);
    case CancelApplied(k) => WithdrawnStays(s, t, k);
    case DisconnectApplied(c) => SeveredStays(s, t, c);
    case _ =>
  }

  lemma NextIsOrdered(s: Agent, t: Agent, e: Event, f: Event)
    requires Shape(s) && Past(s, e) && Announced(s, t, f)
    ensures Ordered(e, f)
  {
    match e
    case DisconnectApplied(c) =>
    case CancelApplied(k) =>
    case Durable(_, permit, _, _, acked) =>
    case _ =>
  }

  lemma StepKeepsHistory(s: Agent, a: Action, t: Agent)
    requires History(s) && Step(s, a, t)
    ensures History(t) && Grows(s, t) && Turns(s, t)
  {
    StepGrows(s, a, t);
    StepTurns(s, a, t);
    HistoryExtends(s, t);
  }

  lemma PastExtends(s: Agent, t: Agent, i: nat)
    requires History(s) && Shape(t) && Grows(s, t) && Turns(s, t) && i < |t.trace|
    ensures Past(t, t.trace[i])
  {
    if i < |s.trace| { PastStays(s, t, s.trace[i]); }
  }

  lemma OrderExtends(s: Agent, t: Agent, i: nat, j: nat)
    requires History(s) && Turns(s, t) && i < j < |t.trace|
    ensures Ordered(t.trace[i], t.trace[j])
  {
    assert t.trace[i] == s.trace[i];
    if j < |s.trace| { assert Ordered(s.trace[i], s.trace[j]); } else { NextIsOrdered(s, t, s.trace[i], t.trace[j]); }
  }

  lemma OvertakenStays(s: Agent, t: Agent, e: Event, f: Event)
    requires Grows(s, t) && Overtaken(s, e, f)
    ensures Overtaken(t, e, f)
  {
    if e.Entered? && f.Advanced? && Cancels(f.cause) { assert ReqKept(s, t, e.key); }
  }

  lemma OvertakenNow(s: Agent, t: Agent, e: Event, f: Event)
    requires Grows(s, t) && Past(s, e) && Announced(s, t, f)
    ensures Overtaken(t, e, f)
  {
    if e.Entered? { assert ReqKept(s, t, e.key); }
  }

  lemma OvertakenExtends(s: Agent, t: Agent, i: nat, j: nat)
    requires History(s) && Grows(s, t) && Turns(s, t) && i < j < |t.trace|
    ensures Overtaken(t, t.trace[i], t.trace[j])
  {
    assert t.trace[i] == s.trace[i];
    if j < |s.trace| { OvertakenStays(s, t, s.trace[i], s.trace[j]); } else { OvertakenNow(s, t, s.trace[i], t.trace[j]); }
  }

  lemma HistoryExtends(s: Agent, t: Agent)
    requires History(s) && Shape(t) && Grows(s, t) && Turns(s, t)
    ensures History(t)
  {
    forall i | 0 <= i < |t.trace| ensures Past(t, t.trace[i]) { PastExtends(s, t, i); }
    forall i, j | 0 <= i < j < |t.trace| ensures Ordered(t.trace[i], t.trace[j]) { OrderExtends(s, t, i, j); }
    forall i, j | 0 <= i < j < |t.trace| ensures Overtaken(t, t.trace[i], t.trace[j]) { OvertakenExtends(s, t, i, j); }
    forall c | c in t.net.gone ensures Severed(t, c) {
      if c in s.net.gone { SeveredStays(s, t, c); } else { PastExtends(s, t, |s.trace|); }
    }
  }

  lemma InitHistory(s: Agent)
    requires Init(s)
    ensures History(s)
  {
  }

  lemma NextKeepsHistory(states: seq<Agent>, schedule: seq<Action>, i: nat)
    requires IsRun(states, schedule) && i < |schedule| && History(states[i])
    ensures History(states[i + 1]) && Grows(states[i], states[i + 1]) && Turns(states[i], states[i + 1])
  {
    assert Follows(states, schedule, i);
    StepKeepsHistory(states[i], schedule[i], states[i + 1]);
  }

  lemma FirstHistory(states: seq<Agent>, schedule: seq<Action>)
    requires IsRun(states, schedule)
    ensures History(states[0])
  {
    InitHistory(states[0]);
  }

  lemma NextHistory(states: seq<Agent>, schedule: seq<Action>, i: nat)
    requires IsRun(states, schedule) && i < |schedule| && History(states[i])
    ensures History(states[i + 1])
  {
    NextKeepsHistory(states, schedule, i);
  }

  lemma {:induction false} RunsKeepHistory(states: seq<Agent>, schedule: seq<Action>, n: nat)
    requires IsRun(states, schedule) && n < |states|
    ensures History(states[n])
  {
    if n == 0 {
      FirstHistory(states, schedule);
    } else {
      RunsKeepHistory(states, schedule, n - 1);
      NextHistory(states, schedule, n - 1);
    }
  }

  // ------------------------------------------------------------- theorems

  /**
   * Lock cut-off. In every interleaving, once the epoch has been advanced or a lock or shutdown
   * was refused at the last epoch, no epoch-bound request begun earlier is ever answered with an
   * uncommitted success or NotFound, whatever is unlocked in between.
   */
  lemma LockCutOff(states: seq<Agent>, schedule: seq<Action>, n: nat, i: nat, j: nat, m: nat)
    requires IsRun(states, schedule) && n < |states| && i < j < m < |states[n].trace|
    requires
      var trace := states[n].trace;
      && trace[i].Began? && (trace[j].Advanced? || trace[j].AdvanceRefused?)
      && trace[m].Wrote? && trace[m].key == trace[i].key && RequiresUnlockedEpoch(trace[i].op)
    ensures !Clean(states[n].trace[m].outcome)
  {
    RunsKeepHistory(states, schedule, n);
    var trace := states[n].trace;
    assert Ordered(trace[i], trace[j]) && Ordered(trace[i], trace[m]) && Ordered(trace[j], trace[m]);
  }

  lemma EpochStep(s: Agent, t: Agent)
    requires Shape(t) && Grows(s, t) && Turns(s, t)
    ensures s.gate.epoch <= t.gate.epoch <= U64_MAX
    ensures t.gate.state == Unlocked && s.gate.state != Unlocked ==> s.gate.epoch < t.gate.epoch
  {
  }

  lemma NextEpoch(states: seq<Agent>, schedule: seq<Action>, i: nat)
    requires IsRun(states, schedule) && i < |schedule|
    ensures states[i].gate.epoch <= states[i + 1].gate.epoch <= U64_MAX
    ensures states[i + 1].gate.state == Unlocked && states[i].gate.state != Unlocked ==>
              states[i].gate.epoch < states[i + 1].gate.epoch
  {
    RunsKeepHistory(states, schedule, i);
    NextKeepsHistory(states, schedule, i);
    EpochStep(states[i], states[i + 1]);
  }

  /** Every entry into Unlocked takes an epoch above every epoch of the run so far. */
  lemma {:induction false} UnlockIsFresh(states: seq<Agent>, schedule: seq<Action>, i: nat, n: nat)
    requires IsRun(states, schedule) && i < n < |states|
    ensures states[i].gate.epoch <= states[n - 1].gate.epoch <= states[n].gate.epoch <= U64_MAX
    ensures states[n].gate.state == Unlocked && states[n - 1].gate.state != Unlocked ==>
              states[i].gate.epoch < states[n].gate.epoch
  {
    NextEpoch(states, schedule, n - 1);
    if i < n - 1 { UnlockIsFresh(states, schedule, i, n - 1); }
  }

  /**
   * Commit ordering. Whatever an account or passkey request makes durable is made durable under
   * the current epoch, before any cancellation of it, any disconnect of its connection and any
   * advance past its permit.
   */
  lemma CommitOrdering(states: seq<Agent>, schedule: seq<Action>, n: nat, i: nat, j: nat)
    requires IsRun(states, schedule) && n < |states| && i < j < |states[n].trace|
    requires states[n].trace[j].Durable?
    ensures
      var e, f := states[n].trace[i], states[n].trace[j];
      && e != CancelApplied(f.key)
      && e != DisconnectApplied(f.key.conn)
      && (e.Advanced? ==> e.before < f.permit)
      && (e.Began? && e.key == f.key ==> e.permit == f.permit)
  {
    RunsKeepHistory(states, schedule, n);
    assert Ordered(states[n].trace[i], states[n].trace[j]);
  }

  /** An unlock or creation in progress, a lock, and then that unlock or creation opening the vault. */
  predicate Usurps(e: Event, f: Event, g: Event) {
    && e.Entered? && f.Advanced? && Cancels(f.cause)
    && g.Advanced? && !Cancels(g.cause) && g.cause.key == e.key
  }

  /** No opening by a request that a lock, a shutdown or a core failure had overtaken. */
  ghost predicate NoUsurper(trace: seq<Event>) {
    forall i, j, m :: 0 <= i < j < m < |trace| ==> !Usurps(trace[i], trace[j], trace[m])
  }

  lemma NoUsurperExtends(s: Agent, t: Agent)
    requires History(s) && Turns(s, t) && NoUsurper(s.trace)
    ensures NoUsurper(t.trace)
  {
    var n := |s.trace|;
    forall i, j, m | 0 <= i < j < m < |t.trace| ensures !Usurps(t.trace[i], t.trace[j], t.trace[m]) {
      assert t.trace[i] == s.trace[i] && t.trace[j] == s.trace[j];
      if m < n {
        assert t.trace[m] == s.trace[m];
      } else {
        assert Overtaken(s, s.trace[i], s.trace[j]) && Announced(s, t, t.trace[n]);
      }
    }
  }

  lemma NextKeepsNoUsurper(states: seq<Agent>, schedule: seq<Action>, n: nat)
    requires IsRun(states, schedule) && n < |schedule| && NoUsurper(states[n].trace)
    ensures NoUsurper(states[n + 1].trace)
  {
    RunsKeepHistory(states, schedule, n);
    NextKeepsHistory(states, schedule, n);
    NoUsurperExtends(states[n], states[n + 1]);
  }

  /**
   * An unlock or a creation that was in progress when a lock, a shutdown or a core failure took
   * the gate never opens the vault.
   */
  lemma {:induction false} LockStopsUnlock(states: seq<Agent>, schedule: seq<Action>, n: nat)
    requires IsRun(states, schedule) && n < |states|
    ensures NoUsurper(states[n].trace)
  {
    if n > 0 {
      LockStopsUnlock(states, schedule, n - 1);
      NextKeepsNoUsurper(states, schedule, n - 1);
    }
  }

  // ---------------------------------------------------- answers and admission

  /** The answers a client gets: after admission, or refused without it. */
  predicate Answer(e: Event) { e.Wrote? || e.Rejected? }

  predicate IsCancelled(e: Event)
    requires Answer(e)
  {
    if e.Wrote? then e.outcome.error == Some(RequestCancelled) else e.error == RequestCancelled
  }

  /** Every registered request passed the admission gate. */
  ghost predicate AllEntered(s: Agent) {
    forall k :: k in RegisteredKeys(s) ==> Entered(k) in s.trace
  }

  /** A written answer is that of a request admitted before. */
  ghost predicate WrittenEntered(trace: seq<Event>, j: nat)
    requires j < |trace|
  {
    trace[j].Wrote? ==> exists e :: 0 <= e < j && trace[e] == Entered(trace[j].key)
  }

  ghost predicate Admissions(s: Agent) {
    AllEntered(s) && forall j :: 0 <= j < |s.trace| ==> WrittenEntered(s.trace, j)
  }

  /** What a step registers, it announces. */
  ghost predicate Registers(s: Agent, t: Agent) {
    forall k :: k in RegisteredKeys(t) && k !in RegisteredKeys(s) ==> Entered(k) in t.trace
  }

  lemma AdmitAnnounces(s: Agent, k: Key, t: Agent)
    requires DoAdmit(s, k, t)
    ensures Registers(s, t)
  {
    AdmitRegisters(s, k, t);
    assert t.trace[|s.trace|] == Entered(k);
  }

  lemma StepAnnounces(s: Agent, a: Action, t: Agent)
    requires Shape(s) && Step(s, a, t)
    ensures Registers(s, t)
  {
    match a {
      case Link(l) =>
        LinkRegisters(s, l, t);
        if l.Admit? { AdmitAnnounces(s, l.key, t); }
      case Life(l) => LifeRegisters(s, l, t);
      case Core(c) => CoreRegisters(s, c, t);
      case Store(c) => StoreRegisters(s, c, t);
    }
  }

  lemma AdmissionsExtend(s: Agent, t: Agent)
    requires Admissions(s) && Turns(s, t) && Registers(s, t)
    ensures Admissions(t)
  {
    var n := |s.trace|;
    assert forall i :: 0 <= i < n ==> t.trace[i] == s.trace[i];
    forall k | k in RegisteredKeys(t) ensures Entered(k) in t.trace {
      if k in RegisteredKeys(s) {
        var i :| 0 <= i < n && s.trace[i] == Entered(k);
        assert t.trace[i] == Entered(k);
      }
    }
    forall j | 0 <= j < |t.trace| ensures WrittenEntered(t.trace, j) {
      if j < n {
        assert WrittenEntered(s.trace, j);
      } else if t.trace[j].Wrote? {
        assert Announced(s, t, t.trace[n]) && t.trace[j].key in RegisteredKeys(s);
        var i :| 0 <= i < n && s.trace[i] == Entered(t.trace[j].key);
        assert t.trace[i] == Entered(t.trace[j].key);
      }
    }
  }

  lemma NextKeepsAdmissions(states: seq<Agent>, schedule: seq<Action>, n: nat)
    requires IsRun(states, schedule) && n < |schedule| && Admissions(states[n])
    ensures Admissions(states[n + 1])
  {
    RunsKeepHistory(states, schedule, n);
    NextKeepsHistory(states, schedule, n);
    assert Follows(states, schedule, n);
    StepAnnounces(states[n], schedule[n], states[n + 1]);
    AdmissionsExtend(states[n], states[n + 1]);
  }

  lemma {:induction false} RunsKeepAdmissions(states: seq<Agent>, schedule: seq<Action>, n: nat)
    requires IsRun(states, schedule) && n < |states|
    ensures Admissions(states[n])
  {
    if n > 0 {
      RunsKeepAdmissions(states, schedule, n - 1);
      NextKeepsAdmissions(states, schedule, n - 1);
    }
  }

  /**
   * After a cancellation of a request or a disconnect of its connection, its answer without a
   * commit point is the cancellation exactly when the request had passed admission; a request
   * refused before, or at the global limit, is answered with the refusal.
   */
  lemma CancelledAnswer(states: seq<Agent>, schedule: seq<Action>, n: nat, i: nat, j: nat)
    requires IsRun(states, schedule) && n < |states| && i < j < |states[n].trace| && Answer(states[n].trace[j])
    requires states[n].trace[j].Wrote? ==> !states[n].trace[j].outcome.committed
    requires states[n].trace[i] == CancelApplied(states[n].trace[j].key)
             || states[n].trace[i] == DisconnectApplied(states[n].trace[j].key.conn)
    ensures IsCancelled(states[n].trace[j]) <==>
              exists e :: 0 <= e < j && states[n].trace[e] == Entered(states[n].trace[j].key)
  {
    RunsKeepHistory(states, schedule, n);
    RunsKeepAdmissions(states, schedule, n);
    var trace := states[n].trace;
    assert Ordered(trace[i], trace[j]) && WrittenEntered(trace, j);
    if trace[j].Rejected? {
      assert Past(states[n], trace[j]);
      forall e | 0 <= e < j ensures trace[e] != Entered(trace[j].key) { assert Ordered(trace[e], trace[j]); }
    }
  }

  // ------------------------------------------------------ the global limit

  lemma MovesNeverRegister(s: Agent, t: Agent, k: Key)
    requires Moves(s, t, k)
    ensures RegisteredKeys(t) <= RegisteredKeys(s)
  {
  }

  lemma AdmitRegisters(s: Agent, k: Key, t: Agent)
    requires DoAdmit(s, k, t)
    ensures RegisteredKeys(t) == RegisteredKeys(s) + {k} && |RegisteredKeys(s)| < MAX_IN_FLIGHT_GLOBAL
  {
  }

  lemma AnswerRegisters(s: Agent, k: Key, fits: bool, t: Agent)
    requires DoReject(s, k, t) || DoFinish(s, k, fits, t)
    ensures RegisteredKeys(t) <= RegisteredKeys(s)
  {
    if DoReject(s, k, t) { return; }
  }

  lemma BeginRegisters(s: Agent, a: LinkAction, t: Agent)
    requires a.Begin?
    requires DoBegin(s, a.conn, a.header, a.envelope, a.observed, a.context, a.selection, a.tx, a.cred, t)
    ensures RegisteredKeys(t) <= RegisteredKeys(s)
  {
  }

  lemma LinkRegisters(s: Agent, a: LinkAction, t: Agent)
    requires LinkStep(s, a, t)
    ensures !a.Admit? ==> RegisteredKeys(t) <= RegisteredKeys(s)
    ensures a.Admit? ==> RegisteredKeys(t) == RegisteredKeys(s) + {a.key} && |RegisteredKeys(s)| < MAX_IN_FLIGHT_GLOBAL
  {
    match a
    case Begin(_, _, _, _, _, _, _, _) => BeginRegisters(s, a, t);
    case Admit(k) => AdmitRegisters(s, k, t);
    case Reject(k) => AnswerRegisters(s, k, true, t);
    case Finish(k, fits) => AnswerRegisters(s, k, fits, t);
    case _ => assert t.requests == s.requests;
  }

  lemma LifeRegisters(s: Agent, a: LifeAction, t: Agent)
    requires Shape(s) && LifeStep(s, a, t)
    ensures RegisteredKeys(t) <= RegisteredKeys(s)
  {
    LifeGrows(s, a, t);
    if !a.Shutdown? && !a.RecoverDelete? { MovesNeverRegister(s, t, a.key); }
  }

  lemma CoreRegisters(s: Agent, a: CoreAction, t: Agent)
    requires Shape(s) && CoreStep(s, a, t)
    ensures RegisteredKeys(t) <= RegisteredKeys(s)
  {
    CoreGrows(s, a, t);
    if !a.EnterCore? { MovesNeverRegister(s, t, a.key); }
  }

  lemma StoreRegisters(s: Agent, a: StoreAction, t: Agent)
    requires Shape(s) && StoreStep(s, a, t)
    ensures RegisteredKeys(t) <= RegisteredKeys(s)
  {
    StoreGrows(s, a, t);
    if !a.Sweep? && !a.SweepFailGate? { MovesNeverRegister(s, t, a.key); }
  }

  /** No key more is registered, or one more below the limit. */
  ghost predicate OneMore(a: set<Key>, b: set<Key>) {
    b <= a || exists k :: b <= a + {k} && |a| < MAX_IN_FLIGHT_GLOBAL
  }

  lemma StepRegisters(s: Agent, a: Action, t: Agent)
    requires Shape(s) && Step(s, a, t)
    ensures OneMore(RegisteredKeys(s), RegisteredKeys(t))
  {
    match a
    case Link(l) => LinkRegisters(s, l, t);
    case Life(l) => LifeRegisters(s, l, t);
    case Core(c) => CoreRegisters(s, c, t);
    case Store(c) => StoreRegisters(s, c, t);
  }

  lemma SmallerSet(a: set<Key>, b: set<Key>)
    requires a <= b
    ensures |a| <= |b|
  {
    assert b == a + (b - a);
  }

  lemma OneMoreFits(a: set<Key>, b: set<Key>)
    requires OneMore(a, b) && |a| <= MAX_IN_FLIGHT_GLOBAL
    ensures |b| <= MAX_IN_FLIGHT_GLOBAL
  {
    if b <= a {
      SmallerSet(b, a);
    } else {
      var k :| b <= a + {k} && |a| < MAX_IN_FLIGHT_GLOBAL;
      SmallerSet(b, a + {k});
    }
  }

  lemma NextKeepsLimit(states: seq<Agent>, schedule: seq<Action>, i: nat)
    requires IsRun(states, schedule) && i < |schedule| && |RegisteredKeys(states[i])| <= MAX_IN_FLIGHT_GLOBAL
    ensures |RegisteredKeys(states[i + 1])| <= MAX_IN_FLIGHT_GLOBAL
  {
    RunsKeepHistory(states, schedule, i);
    assert Follows(states, schedule, i);
    StepRegisters(states[i], schedule[i], states[i + 1]);
    OneMoreFits(RegisteredKeys(states[i]), RegisteredKeys(states[i + 1]));
  }

  lemma InitLimit(s: Agent)
    requires Init(s)
    ensures |RegisteredKeys(s)| <= MAX_IN_FLIGHT_GLOBAL
  {
    assert RegisteredKeys(s) == {};
  }

  /** At most 32 admitted dispatches are ever unanswered at once. */
  lemma {:induction false} GlobalLimit(states: seq<Agent>, schedule: seq<Action>, n: nat)
    requires IsRun(states, schedule) && n < |states|
    ensures |RegisteredKeys(states[n])| <= MAX_IN_FLIGHT_GLOBAL
  {
    if n == 0 {
      InitLimit(states[0]);
    } else {
      GlobalLimit(states, schedule, n - 1);
      NextKeepsLimit(states, schedule, n - 1);
    }
  }
}
