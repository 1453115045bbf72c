/**
 * The agent's concurrent request machine. One action is one section of the runtime that holds
 * the commit gate, the vault mutex or a single map mutex; the scheduler is any sequence of
 * actions. Every choice the environment makes (time, store failures, ciphertext, tokens) is a
 * parameter of the action. `trace`, `holder`, `gone`, `binding` and the trace indices of a lease or
 * a secret are history: no guard reads them, except that a connection is disconnected once.
 */
module Dispatch {
  import opened Base
  import opened Tables
  import Session

  datatype Key = Key(conn: nat, id: nat)

  // ------------------------------------------------------------------ state

  datatype PendingKey = PendingKey(conn: nat, tx: nat)

  datatype Pending = Pending(cred: nat, pid: nat, epoch: nat, confirmed: bool, disconnected: bool)

  datatype Binding = Binding(conn: nat, tx: nat, pid: nat, epoch: nat)

  datatype CreationState = Tentative | Confirmed

  datatype Selection = Selection(token: nat, record: nat, revision: nat)

  datatype Lease = Lease(
    context: nat, selection: Selection, epoch: nat, generation: nat, expires: nat, at: nat)

  datatype Body = Plain | Offer | Secret(record: nat, revision: nat, leaseAt: nat, readAt: nat)

  datatype Outcome = Outcome(
    error: Option<ErrorCode>, body: Body, replayed: bool, holdsLock: bool, committed: bool,
    generation: Option<nat>, deadline: Option<nat>)

  function Failure(error: ErrorCode): Outcome {
    Outcome(Some(error), Plain, false, false, false, None, None)
  }

  const SUCCESS := Outcome(None, Plain, false, false, false, None, None)

  datatype Phase =
    | Begun                                    // permit issued, not yet through the gate
    | Refused(reply: Session.BeginReply)       // no permit; the refusal is answered under the gate
    | Running
    | Claimed                                  // origin match: lease slot reserved
    | Offering(selection: Selection, generation: nat)   // origin match: read, slot not yet written
    | Holding(lease: Lease)                    // selected credential: lease consumed
    | Opening                                  // unlock in progress
    | Recovering(listed: set<nat>, at: nat)    // unlock: tentative passkeys listed at an epoch
    | Locking(found: AgentState)               // the state the lock found
    | Failing                                  // the vault core failed; its gate section is due
    | Done(outcome: Outcome)
    | Releasing                                // lock answered, lock_active still set
    | Answered
    | Dead                                     // connection-fatal error, nothing answered

  predicate Registered(p: Phase) {
    !p.Begun? && !p.Refused? && !p.Releasing? && !p.Answered? && !p.Dead?
  }

  datatype Req = Req(
    op: OperationCode, epoch: nat, deadline: nat, pid: nat, context: nat, selection: Selection,
    tx: nat, cred: nat, expected: Option<Pending>, phase: Phase)

  datatype Peer = Peer(profile: Session.Profile, link: Session.ConnectionState)

  /** Who may still disclose a credential on a connection. */
  datatype Holder = Claimer(key: Key) | Ready | Taker(key: Key) | Spent

  /** Why the epoch moved; an opening names the request that opened the vault. */
  datatype Cause = ByLock | ByShutdown | ByFailure | ByUnlock(key: Key) | ByCreate(key: Key)

  datatype Change =
    | AccountChange(record: nat)
    | PasskeyMade(cred: nat)
    | PasskeyConfirmed(cred: nat)
    | PasskeySigned(cred: nat)
    | PasskeyRemoved(cred: nat)
    | PasskeyRolledBack(cred: nat)

  datatype Event =
    | Began(key: Key, op: OperationCode, permit: nat)
    | Entered(key: Key)                              // registered for cancellation, under the gate
    | Rejected(key: Key, op: OperationCode, permit: nat, error: ErrorCode)   // answered without admission
    | CancelApplied(key: Key)
    | DisconnectApplied(conn: nat)
    | Advanced(before: nat, cause: Cause)            // the epoch moved from `before`
    | AdvanceRefused(at: nat)                        // lock or shutdown at the last epoch
    | Durable(key: Key, permit: nat, change: Change, binding: Option<Binding>, acked: bool)
    | Swept(cred: nat)                               // disconnect cleanup or unlock recovery
    | SlotClaimed(key: Key)
    | SecretRead(key: Key, permit: nat)
    | LeaseIssued(conn: nat, context: nat, epoch: nat, selection: Selection)
    | Wrote(key: Key, op: OperationCode, permit: nat, outcome: Outcome)

  /** What the commit gate serializes: epoch, state byte, lock flag, set cancellation flags. */
  datatype Gate = Gate(epoch: nat, state: AgentState, lockActive: bool, cancelled: set<Key>)

  datatype Net = Net(peers: map<nat, Peer>, gone: set<nat>)

  datatype Web = Web(leases: map<nat, Option<Lease>>, holder: map<nat, Holder>)

  /**
   * Durable accounts with their revisions, the change counter kept beside them, and whether the
   * vault core has an open session.
   */
  datatype Books = Books(accounts: map<nat, nat>, generation: nat, open: bool)

  /** Durable passkeys and the in-memory pending creations. */
  datatype Ring = Ring(
    pending: map<PendingKey, Pending>, passkeys: map<nat, CreationState>, made: set<nat>,
    binding: map<nat, Binding>)

  datatype Agent = Agent(
    gate: Gate, now: nat, vault: Option<Key>, requests: map<Key, Req>, net: Net, web: Web,
    books: Books, ring: Ring, trace: seq<Event>)

  predicate Init(s: Agent) {
    && s.gate.epoch == 1 && s.gate.state in {Locked, NoVault} && !s.gate.lockActive && s.gate.cancelled == {}
    && s.vault.None? && s.requests == map[] && s.net == Net(map[], {}) && s.web == Web(map[], map[])
    && s.books.generation == 1 && !s.books.open
    && s.ring == Ring(map[], s.ring.passkeys, s.ring.passkeys.Keys, map[])
    && s.trace == []
  }

  // ---------------------------------------------------------------- actions

  datatype LinkAction =
    | Connect(conn: nat, profile: Session.Profile)
    | Misbehave(conn: nat)                           // a protocol fault closes the link
    | Begin(conn: nat, header: FrameHeader, envelope: RequestEnvelope, observed: nat,
            context: nat, selection: Selection, tx: nat, cred: nat)
    | Admit(key: Key)
    | Reject(key: Key)                               // refused at the start or at the global limit
    | ApplyCancel(conn: nat, header: FrameHeader)
    | Disconnect(conn: nat)
    | Finish(key: Key, fits: bool)
    | Tick(to: nat)

  datatype LifeAction =
    | Conclude(key: Key, outcome: Outcome)
    | Die(key: Key)
    | LockGate(key: Key)
    | LockTail(key: Key)
    | Release(key: Key)
    | Shutdown
    | OpenGate(key: Key)
    | OpenAbort(key: Key, error: ErrorCode)
    | RecoverList(key: Key)
    | RecoverDelete(key: Key, lost: nat)
    | Publish(key: Key, bound: bool)
    | CreatePublish(key: Key)

  datatype CoreAction =
    | EnterCore(key: Key)
    | CoreFail(key: Key)
    | FailGate(key: Key)
    | CoreStale(key: Key)
    | Claim(key: Key)
    | Take(key: Key)
    | BrowserRead(key: Key, found: Option<(nat, nat)>, token: nat)
    | WriteSlot(key: Key)

  datatype StoreAction =
    | ReadExpected(key: Key)
    | Commit(key: Key, target: nat, acked: bool)
    | RollbackMissing(key: Key)
    | Sweep(slot: PendingKey, acked: bool)
    | SweepFailGate

  datatype Action = Link(link: LinkAction) | Life(life: LifeAction) | Core(core: CoreAction) | Store(store: StoreAction)

  function Emit(s: Agent, e: Event): Agent { s.(trace := s.trace + [e]) }

  function Put(s: Agent, k: Key, r: Req): Agent { s.(requests := s.requests[k := r]) }

  function At(s: Agent, k: Key, p: Phase): Agent
    requires k in s.requests
  {
    Put(s, k, s.requests[k].(phase := p))
  }

  function Fail(s: Agent, k: Key, error: ErrorCode): Agent
    requires k in s.requests
  {
    At(s, k, Done(Failure(error)))
  }

  /** The vault mutex after `k` leaves its core operation. */
  function Leave(s: Agent, k: Key): Agent {
    if s.vault == Some(k) then s.(vault := None) else s
  }

  function Relink(s: Agent, c: nat, link: Session.ConnectionState): Agent
    requires c in s.net.peers
  {
    s.(net := s.net.(peers := s.net.peers[c := s.net.peers[c].(link := link)]))
  }

  function Flag(g: Gate, keys: set<Key>): Gate { g.(cancelled := g.cancelled + keys) }

  /** `set_locked_unless_shutting_down`. */
  function SetLocked(g: Gate): Gate {
    if g.state == Updating || g.state == ShuttingDown then g else g.(state := Locked)
  }

  function RegisteredKeys(s: Agent): set<Key> {
    set k | k in s.requests && Registered(s.requests[k].phase)
  }

  /** `advance_epoch`: next epoch and every registered cancellation flag set. */
  function Advance(s: Agent, g: Gate, cause: Cause): Agent {
    Emit(s.(gate := Flag(g, RegisteredKeys(s)).(epoch := g.epoch + 1)), Advanced(g.epoch, cause))
  }

  predicate Expired(s: Agent, r: Req) { s.now >= r.deadline }

  function CoreDeadline(r: Req): nat {
    if r.phase.Holding? then Min(r.deadline, r.phase.lease.expires) else r.deadline
  }

  predicate InCore(s: Agent, k: Key) { s.vault == Some(k) && k in s.requests }

  predicate Working(p: Phase) { p.Running? || p.Claimed? || p.Holding? }

  /** The vault core without its session. */
  function Seal(s: Agent): Agent { s.(books := s.books.(open := false)) }

  predicate BrowserOp(op: OperationCode) { op == ExactOriginMatches || op == GetSelectedCredential }

  // ------------------------------------------------- connection-level steps

  predicate DoConnect(s: Agent, c: nat, p: Session.Profile, t: Agent) {
    && c !in s.net.peers
    && t == s.(net := s.net.(peers := s.net.peers[c := Peer(p, Session.FRESH)]))
  }

  /** The public answer to a request that gets no permit. */
  function Refusal(reply: Session.BeginReply): ErrorCode {
    match reply
    case Unauthorized => UnauthorizedOperation
    case StaleEpoch => VaultLocked
    case MissingIdempotencyKey => InvalidRequest
    case _ => Busy
  }

  /** The epoch is read before the connection's mutex is taken: any value up to now may be seen. */
  predicate DoBegin(s: Agent, c: nat, h: FrameHeader, e: RequestEnvelope, observed: nat, context: nat,
                    selection: Selection, tx: nat, cred: nat, t: Agent)
  {
    && c in s.net.peers && observed <= s.gate.epoch
    && var peer := s.net.peers[c];
       var (link, reply) := Session.Begin(peer.profile, peer.link, h, e, observed);
       var s1 := Relink(s, c, link);
       var k := Key(c, h.requestId);
       var r := Req(e.operation, e.unlockEpoch, s.now + Session.EffectiveTimeout(e.operation, e.timeoutMs),
                    peer.profile.processId, context, selection, tx, cred, None, Begun);
       if reply.Fatal? then t == s1
       else if reply.Admitted? then t == Emit(Put(s1, k, r), Began(k, e.operation, e.unlockEpoch))
       else t == Put(s1, k, r.(phase := Refused(reply)))
  }

  /** The connection has the request in flight and marked cancelled. */
  predicate Marked(s: Agent, k: Key) {
    && k.conn in s.net.peers
    && k.id in s.net.peers[k.conn].link.inFlight
    && s.net.peers[k.conn].link.inFlight[k.id].Cancelled?
  }

  predicate DoAdmit(s: Agent, k: Key, t: Agent) {
    && k in s.requests && s.requests[k].phase.Begun? && |RegisteredKeys(s)| < MAX_IN_FLIGHT_GLOBAL
    && t == Emit(At(s, k, Running).(gate := if Marked(s, k) then Flag(s.gate, {k}) else s.gate), Entered(k))
  }

  function Unlink(s: Agent, k: Key): Agent
    requires k.conn in s.net.peers
  {
    Relink(s, k.conn, Session.Finish(s.net.peers[k.conn].link, k.id))
  }

  /** Busy, unless the deadline has passed. */
  function BusyOrLate(s: Agent, r: Req): ErrorCode { if Expired(s, r) then DeadlineExceeded else Busy }

  /** An answer without admission; whatever became of the connection, it is the refusal. */
  predicate DoReject(s: Agent, k: Key, t: Agent) {
    && k in s.requests && k.conn in s.net.peers
    && var r := s.requests[k];
       if r.phase.Refused? then
         var error := Refusal(r.phase.reply);
         t == Emit(At(s, k, Answered), Rejected(k, r.op, r.epoch, if error == Busy then BusyOrLate(s, r) else error))
       else
         && r.phase.Begun? && |RegisteredKeys(s)| >= MAX_IN_FLIGHT_GLOBAL
         && t == Emit(Unlink(At(s, k, Answered), k), Rejected(k, r.op, r.epoch, BusyOrLate(s, r)))
  }

  predicate DoCancel(s: Agent, c: nat, h: FrameHeader, t: Agent) {
    && c in s.net.peers
    && var peer := s.net.peers[c];
       var s1 := Relink(s, c, Session.CancelRequest(peer.profile, peer.link, h));
       if Session.CancelFault(peer.profile, peer.link, h).Some? then t == s1
       else
         var k := Key(c, h.requestId);
         var hit := k in s.requests && Registered(s.requests[k].phase);
         t == Emit(s1.(gate := if hit then Flag(s.gate, {k}) else s.gate), CancelApplied(k))
  }

  function Disconnected(pending: map<PendingKey, Pending>, c: nat): map<PendingKey, Pending> {
    map x | x in pending && !(x.conn == c && pending[x].confirmed)
      :: if x.conn == c then pending[x].(disconnected := true) else pending[x]
  }

  /** The transport disconnects a connection once. */
  predicate DoDisconnect(s: Agent, c: nat, t: Agent) {
    && c in s.net.peers && c !in s.net.gone
    && var s1 := Relink(s, c, Session.Close(s.net.peers[c].link));
       t == Emit(s1.(gate := Flag(s.gate, set k | k in RegisteredKeys(s) && k.conn == c),
                     net := s1.net.(gone := s.net.gone + {c}),
                     web := s.web.(leases := s.web.leases - {c}),
                     ring := s.ring.(pending := Disconnected(s.ring.pending, c))),
                 DisconnectApplied(c))
  }

  // ------------------------------------------------------ generic endings

  /** Outcomes an operation can end with outside the sections modelled one by one. */
  predicate Plainly(op: OperationCode, o: Outcome) {
    && !o.holdsLock && o.generation.None? && o.deadline.None? && o.body.Plain?
    && (o.committed ==> op == EnrollWindowsHello || op == RemoveWindowsHello)
    && (o.error.None? && !o.replayed ==>
          op in {Status, ListAccountSummaries, GetAccount, EnrollWindowsHello, RemoveWindowsHello,
                 ListPasskeysForAssertion, ListPasskeys})
    && (o.replayed ==> RequiresIdempotencyKey(op))
  }

  predicate DoConclude(s: Agent, k: Key, o: Outcome, t: Agent) {
    && k in s.requests && Working(s.requests[k].phase) && Plainly(s.requests[k].op, o)
    && t == Leave(At(s, k, Done(o)), k)
  }

  /** A connection-fatal error: the dispatch unwinds and answers nothing. */
  predicate DoDie(s: Agent, k: Key, t: Agent) {
    && k in s.requests && !s.requests[k].phase.Answered?
    && var p := s.requests[k].phase;
       var owns := p.Locking? || p.Releasing? || (p.Done? && p.outcome.holdsLock);
       t == Leave(At(s, k, Dead), k).(gate := s.gate.(lockActive := s.gate.lockActive && !owns))
  }

  // ------------------------------------------------------- lock, shutdown

  function LockTarget(state: AgentState): AgentState {
    if state == NoVault || state == Updating || state == ShuttingDown then state else Locked
  }

  predicate DoLockGate(s: Agent, k: Key, t: Agent) {
    && k in s.requests && s.requests[k].phase.Running? && s.requests[k].op == Lock && !s.gate.lockActive
    && var g := s.gate.(state := LockTarget(s.gate.state));
       if s.gate.epoch < U64_MAX
       then t == At(Advance(s, g.(lockActive := true), ByLock), k, Locking(s.gate.state))
       else t == Emit(At(s, k, Dead).(gate := g), AdvanceRefused(g.epoch))
  }

  predicate DoLockTail(s: Agent, k: Key, t: Agent) {
    && k in s.requests && s.requests[k].phase.Locking? && s.vault.None?
    && var g := if s.gate.state == Updating || s.gate.state == ShuttingDown then s.gate
                else s.gate.(state := LockTarget(s.requests[k].phase.found));
       t == At(Seal(s), k, Done(SUCCESS.(holdsLock := true))).(gate := g)
  }

  predicate DoRelease(s: Agent, k: Key, t: Agent) {
    && k in s.requests && s.requests[k].phase.Releasing?
    && t == At(s, k, Answered).(gate := s.gate.(lockActive := false))
  }

  predicate DoShutdown(s: Agent, t: Agent) {
    var g := s.gate.(lockActive := true, state := ShuttingDown);
    if s.gate.epoch < U64_MAX then t == Advance(s, g, ByShutdown)
    else t == Emit(s.(gate := g), AdvanceRefused(g.epoch))
  }

  // --------------------------------------------------------------- unlock

  predicate DoOpenGate(s: Agent, k: Key, t: Agent) {
    && k in s.requests && s.requests[k].phase.Running?
    && (s.requests[k].op == UnlockMasterPassword || s.requests[k].op == UnlockWindowsHello)
    && !s.gate.lockActive && s.gate.state == Locked
    && t == At(s, k, Opening).(gate := s.gate.(state := Unlocking))
  }

  predicate DoOpenAbort(s: Agent, k: Key, error: ErrorCode, t: Agent) {
    && k in s.requests && (s.requests[k].phase.Opening? || s.requests[k].phase.Recovering?)
    && error != NotFound
    && t == Fail(s, k, error).(gate := SetLocked(s.gate))
  }

  /** The core opens its session and lists the passkeys an earlier creation left tentative. */
  predicate DoRecoverList(s: Agent, k: Key, t: Agent) {
    && k in s.requests && s.requests[k].phase.Opening? && s.vault.None? && s.gate.state == Unlocking
    && var listed := set c | c in s.ring.passkeys && s.ring.passkeys[c] == Tentative;
       t == At(s, k, Recovering(listed, s.gate.epoch)).(books := s.books.(open := true))
  }

  function Drop(ring: Ring, cred: nat): Ring { ring.(passkeys := ring.passkeys - {cred}) }

  predicate DoRecoverDelete(s: Agent, k: Key, c: nat, t: Agent) {
    && k in s.requests && s.requests[k].phase.Recovering? && c in s.requests[k].phase.listed
    && s.vault.None? && s.books.open && c in s.ring.passkeys && !s.gate.lockActive && s.gate.state == Unlocking
    && k !in s.gate.cancelled && !Expired(s, s.requests[k])
    && t == Emit(s.(ring := Drop(s.ring, c)), Swept(c))
  }

  predicate DoPublish(s: Agent, k: Key, bound: bool, t: Agent) {
    && k in s.requests && s.requests[k].phase.Recovering?
    && if s.gate.lockActive || k in s.gate.cancelled || s.gate.state != Unlocking
       then t == Fail(s, k, RequestCancelled).(gate := SetLocked(s.gate))
       else if Expired(s, s.requests[k]) then t == Fail(s, k, DeadlineExceeded).(gate := SetLocked(s.gate))
       else if !bound then t == Fail(s, k, OperationFailed).(gate := SetLocked(s.gate))
       else if s.gate.epoch < U64_MAX then t == Opened(s, k, ByUnlock(k))
       else t == At(s, k, Dead)
  }

  /** `advance_epoch_without_cancellation`, and the state becomes Unlocked. */
  function Opened(s: Agent, k: Key, cause: Cause): Agent
    requires k in s.requests
  {
    Emit(At(s, k, Done(SUCCESS)).(gate := s.gate.(epoch := s.gate.epoch + 1, state := Unlocked)),
         Advanced(s.gate.epoch, cause))
  }

  predicate DoCreatePublish(s: Agent, k: Key, t: Agent) {
    && k in s.requests && s.requests[k].phase.Running? && s.requests[k].op == CreateVault
    && k !in s.gate.cancelled && !Expired(s, s.requests[k]) && !s.gate.lockActive && s.gate.state == NoVault
    && if s.gate.epoch < U64_MAX then t == Opened(s, k, ByCreate(k)).(books := s.books.(open := true))
       else t == At(s, k, Dead)
  }

  // -------------------------------------------------------------- browser

  function Slot(w: Web, c: nat, lease: Option<Lease>, holder: Holder): Web {
    Web(w.leases[c := lease], w.holder[c := holder])
  }

  predicate DoClaim(s: Agent, k: Key, t: Agent) {
    && k in s.requests && s.requests[k].phase.Running? && s.requests[k].op == ExactOriginMatches
    && if k.conn in s.web.leases then t == Fail(s, k, InvalidRequest)
       else if |s.web.leases| >= MAX_CONNECTIONS then t == Fail(s, k, Busy)
       else t == Emit(At(s, k, Claimed).(web := Slot(s.web, k.conn, None, Claimer(k))), SlotClaimed(k))
  }

  predicate DoTake(s: Agent, k: Key, t: Agent) {
    && k in s.requests && s.requests[k].phase.Running? && s.requests[k].op == GetSelectedCredential
    && if k.conn !in s.web.leases || s.web.leases[k.conn].None? then t == Fail(s, k, InvalidRequest)
       else
         var lease := s.web.leases[k.conn].value;
         var r := s.requests[k];
         if lease.context != r.context || lease.selection != r.selection || lease.epoch != r.epoch
         then t == Fail(s, k, InvalidRequest).(web := Slot(s.web, k.conn, None, Ready))
         else t == At(s, k, Holding(lease)).(web := Slot(s.web, k.conn, None, Taker(k)))
  }

  /** Both `pre_secret_operation` checks, the second one under the vault mutex. */
  predicate DoEnterCore(s: Agent, k: Key, t: Agent) {
    && k in s.requests && Working(s.requests[k].phase) && s.vault.None?
    && RequiresUnlockedEpoch(s.requests[k].op)
    && !(BrowserOp(s.requests[k].op) && s.requests[k].phase.Running?)
    && Authorized(s, k)
    && t == s.(vault := Some(k))
  }

  predicate Authorized(s: Agent, k: Key)
    requires k in s.requests
  {
    && !s.gate.lockActive && s.gate.state == Unlocked && s.gate.epoch == s.requests[k].epoch
    && k !in s.gate.cancelled && s.now < CoreDeadline(s.requests[k])
  }

  predicate ReadsTruly(s: Agent, found: Option<(nat, nat)>) {
    found.Some? ==> found.value.0 in s.books.accounts && s.books.accounts[found.value.0] == found.value.1
  }

  predicate DoBrowserRead(s: Agent, k: Key, found: Option<(nat, nat)>, token: nat, t: Agent) {
    && InCore(s, k) && ReadsTruly(s, found)
    && match s.requests[k].phase
       case Claimed => ReadForMatch(s, k, found, token, t)
       case Holding(lease) => ReadForSecret(s, k, lease, found, t)
       case _ => false
  }

  predicate ReadForSecret(s: Agent, k: Key, lease: Lease, found: Option<(nat, nat)>, t: Agent)
    requires k in s.requests
  {
    var out, r := Leave(s, k), s.requests[k];
    if s.books.generation == U64_MAX || lease.generation != s.books.generation then t == Fail(out, k, Conflict)
    else if !s.books.open || !Authorized(s, k) then false
    else if found.None? then t == Fail(out, k, NotFound)
    else if found.value.0 != lease.selection.record || found.value.1 != lease.selection.revision
      then t == Fail(out, k, Conflict)
    else
      var body := Secret(found.value.0, found.value.1, lease.at, |s.trace|);
      var o := Outcome(None, body, false, false, false, Some(s.books.generation), Some(CoreDeadline(r)));
      t == Emit(At(out, k, Done(o)), SecretRead(k, r.epoch))
  }

  function OfferAt(r: Req, generation: nat): Outcome {
    Outcome(None, Offer, false, false, false, Some(generation), Some(r.deadline))
  }

  /** With a match the vault mutex is kept until the connection's slot is written. */
  predicate ReadForMatch(s: Agent, k: Key, found: Option<(nat, nat)>, token: nat, t: Agent)
    requires k in s.requests
  {
    var out, r := Leave(s, k), s.requests[k];
    if s.books.generation == U64_MAX then t == Fail(out, k, Conflict)
    else if !s.books.open || !Authorized(s, k) then false
    else if found.None? then t == At(out, k, Done(OfferAt(r, s.books.generation)))
    else t == At(s, k, Offering(Selection(token, found.value.0, found.value.1), s.books.generation))
  }

  predicate DoWriteSlot(s: Agent, k: Key, t: Agent) {
    && InCore(s, k) && s.requests[k].phase.Offering?
    && var out, r := Leave(s, k), s.requests[k];
       var Offering(selection, generation) := r.phase;
       if k.conn !in s.web.leases then t == Fail(out, k, RequestCancelled)
       else
         var lease := Lease(r.context, selection, r.epoch, generation, r.deadline, |s.trace|);
         t == Emit(At(out, k, Done(OfferAt(r, generation))).(web := Slot(s.web, k.conn, Some(lease), Ready)),
                   LeaseIssued(k.conn, r.context, r.epoch, selection))
  }

  // ------------------------------------------------------- durable commits

  function SlotOf(k: Key, r: Req): PendingKey { PendingKey(k.conn, r.tx) }

  function BindingOf(k: Key, r: Req): Binding { Binding(k.conn, r.tx, r.pid, r.epoch) }

  /** The entry names this request's credential, process and epoch, and its peer is still there. */
  predicate Owns(r: Req, x: Pending) {
    x.cred == r.cred && x.pid == r.pid && x.epoch == r.epoch && !x.disconnected
  }

  predicate DoReadExpected(s: Agent, k: Key, t: Agent) {
    && k in s.requests && s.requests[k].phase.Running? && s.vault != Some(k)
    && s.requests[k].op == RollbackPasskeyCreation && (k.id == 2 || k.id == 3)
    && var r := s.requests[k];
       var slot := SlotOf(k, r);
       if slot in s.ring.pending && Owns(r, s.ring.pending[slot])
       then t == Put(s, k, r.(expected := Some(s.ring.pending[slot])))
       else t == Fail(s, k, InvalidRequest)
  }

  /** The re-check made under the gate that the commit then keeps holding. */
  predicate MayCommit(s: Agent, k: Key) {
    && InCore(s, k) && s.books.open && s.requests[k].phase.Running?
    && s.gate.epoch == s.requests[k].epoch && !s.gate.lockActive
    && k !in s.gate.cancelled && !Expired(s, s.requests[k])
  }

  function Bumped(generation: nat): nat { Min(U64_MAX, generation + 1) }

  /**
   * After the store committed: acknowledged, `next` follows; if reading the result back failed,
   * the core closes its session before it leaves the vault, the core failure follows, and the
   * in-memory bookkeeping is skipped.
   */
  function Settle(s: Agent, k: Key, next: Phase, change: Change, bound: Option<Binding>, acked: bool): Agent
    requires k in s.requests
  {
    Emit(At(Leave(if acked then s else Seal(s), k), k, if acked then next else Failing),
         Durable(k, s.requests[k].epoch, change, bound, acked))
  }

  const COMMITTED := Done(SUCCESS.(committed := true))

  predicate CommitAccount(s: Agent, k: Key, record: nat, acked: bool, t: Agent)
    requires MayCommit(s, k)
  {
    && var op := s.requests[k].op;
       var accounts := s.books.accounts;
       && ((op == AddAccount) == (record !in accounts))
       && var next :=
            if op == AddAccount then accounts[record := 1]
            else if op == UpdateAccount && record in accounts then accounts[record := accounts[record] + 1]
            else accounts - {record};
          var generation := if acked then Bumped(s.books.generation) else s.books.generation;
          var books := s.books.(accounts := next, generation := generation);
          t == Settle(s.(books := books), k, Done(SUCCESS), AccountChange(record), None, acked)
  }

  predicate CommitMake(s: Agent, k: Key, cred: nat, acked: bool, t: Agent)
    requires MayCommit(s, k)
  {
    && cred !in s.ring.made && k.id == 1
    && var r := s.requests[k];
       var slot := SlotOf(k, r);
       var entry := Pending(cred, r.pid, r.epoch, false, false);
       var ring := Ring(if acked then s.ring.pending[slot := entry] else s.ring.pending,
                        s.ring.passkeys[cred := Tentative], s.ring.made + {cred},
                        s.ring.binding[cred := BindingOf(k, r)]);
       var next := if slot in s.ring.pending then Dead else COMMITTED;
       t == Settle(s.(ring := ring), k, next, PasskeyMade(cred), Some(BindingOf(k, r)), acked)
  }

  predicate CommitConfirm(s: Agent, k: Key, acked: bool, t: Agent)
    requires MayCommit(s, k)
  {
    && var r := s.requests[k];
       var slot := SlotOf(k, r);
       && k.id == 2 && slot in s.ring.pending && r.cred in s.ring.passkeys
       && s.ring.passkeys[r.cred] == Tentative
       && Owns(r, s.ring.pending[slot]) && !s.ring.pending[slot].confirmed
       && var entry := s.ring.pending[slot].(confirmed := true);
          var ring := s.ring.(passkeys := s.ring.passkeys[r.cred := Confirmed],
                              pending := if acked then s.ring.pending[slot := entry] else s.ring.pending);
          t == Settle(s.(ring := ring), k, COMMITTED, PasskeyConfirmed(r.cred), Some(BindingOf(k, r)), acked)
  }

  /** The entry a rollback removes is absent or the one it read. */
  predicate Exact(s: Agent, k: Key, r: Req) {
    SlotOf(k, r) in s.ring.pending ==> r.expected == Some(s.ring.pending[SlotOf(k, r)])
  }

  predicate CommitRollback(s: Agent, k: Key, acked: bool, t: Agent)
    requires MayCommit(s, k)
  {
    && var r := s.requests[k];
       && r.expected.Some? && r.cred in s.ring.passkeys
       && var pending := if acked then s.ring.pending - {SlotOf(k, r)} else s.ring.pending;
          var ring := Drop(s.ring, r.cred).(pending := pending);
          var next := if Exact(s, k, r) then COMMITTED else Dead;
          t == Settle(s.(ring := ring), k, next, PasskeyRolledBack(r.cred), Some(BindingOf(k, r)), acked)
  }

  predicate CommitRemove(s: Agent, k: Key, acked: bool, t: Agent)
    requires MayCommit(s, k)
  {
    && var cred := s.requests[k].cred;
       && cred in s.ring.passkeys
       && t == Settle(s.(ring := Drop(s.ring, cred)), k, COMMITTED, PasskeyRemoved(cred), None, acked)
  }

  predicate CommitSign(s: Agent, k: Key, acked: bool, t: Agent)
    requires MayCommit(s, k)
  {
    && var cred := s.requests[k].cred;
       && cred in s.ring.passkeys
       && t == Settle(s, k, COMMITTED, PasskeySigned(cred), None, acked)
  }

  predicate DoCommit(s: Agent, k: Key, target: nat, acked: bool, t: Agent) {
    && MayCommit(s, k)
    && match s.requests[k].op
       case AddAccount | UpdateAccount | DeleteAccount => CommitAccount(s, k, target, acked, t)
       case MakePasskey => CommitMake(s, k, target, acked, t)
       case ConfirmPasskeyCreation => CommitConfirm(s, k, acked, t)
       case RollbackPasskeyCreation => CommitRollback(s, k, acked, t)
       case DeletePasskey => CommitRemove(s, k, acked, t)
       case GetPasskeyAssertion => CommitSign(s, k, acked, t)
       case _ => false
  }

  /** A rollback whose passkey is already absent: no gate, no store change. */
  predicate DoRollbackMissing(s: Agent, k: Key, t: Agent) {
    && InCore(s, k) && s.books.open && s.requests[k].phase.Running? && s.requests[k].op == RollbackPasskeyCreation
    && var r := s.requests[k];
       && r.expected.Some? && r.cred !in s.ring.passkeys
       && var ring := s.ring.(pending := s.ring.pending - {SlotOf(k, r)});
          t == At(Leave(s, k), k, if Exact(s, k, r) then COMMITTED else Dead).(ring := ring)
  }

  predicate DoCoreFail(s: Agent, k: Key, t: Agent) {
    InCore(s, k) && Working(s.requests[k].phase) && t == Leave(At(Seal(s), k, Failing), k)
  }

  /** `account_error_after_core`. */
  predicate DoFailGate(s: Agent, k: Key, t: Agent) {
    && k in s.requests && s.requests[k].phase.Failing?
    && if s.gate.epoch < U64_MAX
       then t == Fail(Advance(s, SetLocked(s.gate), ByFailure), k, OperationFailed)
       else t == At(s, k, Dead).(gate := SetLocked(s.gate))
  }

  /** `post_secret_operation` finding its authority gone. */
  predicate DoCoreStale(s: Agent, k: Key, t: Agent) {
    && InCore(s, k) && Working(s.requests[k].phase)
    && (s.gate.lockActive || s.gate.state != Unlocked || s.gate.epoch != s.requests[k].epoch)
    && t == Leave(Fail(Seal(s), k, VaultLocked), k).(gate := SetLocked(s.gate))
  }

  predicate DoSweep(s: Agent, slot: PendingKey, acked: bool, t: Agent) {
    && slot in s.ring.pending && s.ring.pending[slot].disconnected && s.vault.None? && s.books.open
    && !s.gate.lockActive
    && var cred := s.ring.pending[slot].cred;
       var ring := Drop(s.ring, cred);
       if cred !in s.ring.passkeys then t == s.(ring := s.ring.(pending := s.ring.pending - {slot}))
       else if acked then t == Emit(s.(ring := ring.(pending := s.ring.pending - {slot})), Swept(cred))
       else t == Emit(Seal(s).(ring := ring), Swept(cred))
  }

  predicate DoSweepFailGate(s: Agent, t: Agent) {
    s.gate.epoch < U64_MAX && t == Advance(s, SetLocked(s.gate), ByFailure)
  }

  // -------------------------------------------------------------- answering

  /** `outcome_is_still_authorized`. */
  predicate StillAuthorized(s: Agent, r: Req, o: Outcome) {
    match r.op
    case Status | Lock => o.error.None?
    case CreateVault | UnlockMasterPassword | UnlockWindowsHello =>
      !s.gate.lockActive && s.gate.state == Unlocked
    case _ => !s.gate.lockActive && s.gate.state == Unlocked && s.gate.epoch == r.epoch
  }

  /** The terminal re-check of an outcome that is not a commit point. */
  function Recheck(s: Agent, k: Key, r: Req, o: Outcome): Outcome {
    if o.committed then o
    else if Marked(s, k) then Failure(RequestCancelled)
    else if !(o.error.None? || o.error == Some(NotFound)) then o
    else if k in s.gate.cancelled && r.op != Lock then Failure(RequestCancelled)
    else if Expired(s, r) then Failure(DeadlineExceeded)
    else if StillAuthorized(s, r, o) || (o.replayed && r.op == CreateVault) then o
    else Failure(VaultLocked)
  }

  function BrowserCheck(s: Agent, o: Outcome): Outcome {
    var o1 := if o.deadline.Some? && s.now >= o.deadline.value then Failure(DeadlineExceeded) else o;
    if o1.generation.Some? && (o1.generation.value == U64_MAX || o1.generation.value != s.books.generation)
    then Failure(Conflict) else o1
  }

  /** The outcome `finish_dispatch` answers with, before the size bound. */
  function Final(s: Agent, k: Key, r: Req, o: Outcome): Outcome {
    BrowserCheck(s, Recheck(s, k, r, o))
  }

  /** A failed browser answer empties the connection's slot; a disclosure spends it. */
  function AfterAnswer(w: Web, c: nat, r: Req, final: Outcome): Web {
    var drop := final.error.Some? && BrowserOp(r.op) && c in w.leases;
    Web(if drop then w.leases[c := None] else w.leases,
        if final.body.Secret? then w.holder[c := Spent] else w.holder)
  }

  /** Too large an answer is replaced by a failure; a failure always fits. */
  predicate DoFinish(s: Agent, k: Key, fits: bool, t: Agent) {
    && k in s.requests && s.requests[k].phase.Done? && k.conn in s.net.peers
    && k.id in s.net.peers[k.conn].link.inFlight
    && var r := s.requests[k];
       var o := r.phase.outcome;
       var final := Final(s, k, r, o);
       var sent := if fits || final.error.Some? then final else Failure(OperationFailed);
       var s1 := Unlink(At(s, k, if o.holdsLock then Releasing else Answered), k);
       t == Emit(s1.(web := AfterAnswer(s.web, k.conn, r, final)), Wrote(k, r.op, r.epoch, sent.(committed := o.committed)))
  }

  // ------------------------------------------------------------ steps, runs

  predicate LinkStep(s: Agent, a: LinkAction, t: Agent) {
    match a
    case Connect(c, p) => DoConnect(s, c, p, t)
    case Misbehave(c) => c in s.net.peers && t == Relink(s, c, Session.Shut(s.net.peers[c].link))
    case Begin(c, h, e, observed, context, selection, tx, cred) =>
      DoBegin(s, c, h, e, observed, context, selection, tx, cred, t)
    case Admit(k) => DoAdmit(s, k, t)
    case Reject(k) => DoReject(s, k, t)
    case ApplyCancel(c, h) => DoCancel(s, c, h, t)
    case Disconnect(c) => DoDisconnect(s, c, t)
    case Finish(k, fits) => DoFinish(s, k, fits, t)
    case Tick(to) => to >= s.now && t == s.(now := to)
  }

  predicate LifeStep(s: Agent, a: LifeAction, t: Agent) {
    match a
    case Conclude(k, o) => DoConclude(s, k, o, t)
    case Die(k) => DoDie(s, k, t)
    case LockGate(k) => DoLockGate(s, k, t)
    case LockTail(k) => DoLockTail(s, k, t)
    case Release(k) => DoRelease(s, k, t)
    case Shutdown => DoShutdown(s, t)
    case OpenGate(k) => DoOpenGate(s, k, t)
    case OpenAbort(k, error) => DoOpenAbort(s, k, error, t)
    case RecoverList(k) => DoRecoverList(s, k, t)
    case RecoverDelete(k, c) => DoRecoverDelete(s, k, c, t)
    case Publish(k, bound) => DoPublish(s, k, bound, t)
    case CreatePublish(k) => DoCreatePublish(s, k, t)
  }

  predicate CoreStep(s: Agent, a: CoreAction, t: Agent) {
    match a
    case EnterCore(k) => DoEnterCore(s, k, t)
    case CoreFail(k) => DoCoreFail(s, k, t)
    case FailGate(k) => DoFailGate(s, k, t)
    case CoreStale(k) => DoCoreStale(s, k, t)
    case Claim(k) => DoClaim(s, k, t)
    case Take(k) => DoTake(s, k, t)
    case BrowserRead(k, found, token) => DoBrowserRead(s, k, found, token, t)
    case WriteSlot(k) => DoWriteSlot(s, k, t)
  }

  predicate StoreStep(s: Agent, a: StoreAction, t: Agent) {
    match a
    case ReadExpected(k) => DoReadExpected(s, k, t)
    case Commit(k, target, acked) => DoCommit(s, k, target, acked, t)
    case RollbackMissing(k) => DoRollbackMissing(s, k, t)
    case Sweep(slot, acked) => DoSweep(s, slot, acked, t)
    case SweepFailGate => DoSweepFailGate(s, t)
  }

  predicate Step(s: Agent, a: Action, t: Agent) {
    match a
    case Link(l) => LinkStep(s, l, t)
    case Life(l) => LifeStep(s, l, t)
    case Core(c) => CoreStep(s, c, t)
    case Store(c) => StoreStep(s, c, t)
  }

  predicate Follows(states: seq<Agent>, schedule: seq<Action>, i: nat)
    requires i < |schedule| && |states| == |schedule| + 1
  {
    Step(states[i], schedule[i], states[i + 1])
  }

  /** A run: from an initial state, one enabled action after another. */
  ghost predicate IsRun(states: seq<Agent>, schedule: seq<Action>) {
    && |states| == |schedule| + 1
    && Init(states[0])
    && forall i :: 0 <= i < |schedule| ==> Follows(states, schedule, i)
  }
}
