/**
 * Runs that show where the properties stop: an account changed in the store but not acknowledged
 * before a disclosure, a passkey confirmed so and deleted by disconnect cleanup, a request refused
 * after its connection is gone, and lease slots that no connection is left to return.
 */
module DispatchWitness {
  import opened Base
  import opened Tables
  import Session
  import opened Dispatch
  import opened DispatchOrder
  import opened DispatchBrowser
  import opened DispatchSlots

  // -------------------------------------------------------------- reachability

  ghost predicate Reachable(s: Agent) {
    exists states, schedule :: IsRun(states, schedule) && states[|schedule|] == s
  }

  lemma Reach(s: Agent, a: Action, t: Agent)
    requires Reachable(s) && Step(s, a, t)
    ensures Reachable(t)
  {
    var states, schedule :| IsRun(states, schedule) && states[|schedule|] == s;
    var longer, more := states + [t], schedule + [a];
    forall i | 0 <= i < |more| ensures Follows(longer, more, i) {
      if i < |schedule| { assert Follows(states, schedule, i); }
    }
    assert IsRun(longer, more) && longer[|more|] == t;
  }

  // ---------------------------------------------------------------- ingredients

  const LIMITS := Session.Limits(MAX_PAYLOAD_BYTES, MAX_IN_FLIGHT_PER_CONNECTION)
  const DESK := Session.Profile(Desktop, CURRENT_VERSION, 100, [], 11, LIMITS)
  const PROVIDER := Session.Profile(PasskeyProvider, CURRENT_VERSION, 300, [FEATURE_PASSKEY_PROVIDER], 33, LIMITS)
  const NOTHING := Selection(0, 0, 0)
  const PICK := Selection(5, 7, 1)

  function HostAt(c: nat): Session.Profile {
    Session.Profile(NativeHost, CURRENT_VERSION, 200, [FEATURE_BROWSER_FILL], c, LIMITS)
  }

  const HOST := HostAt(22)

  function Asking(c: nat, id: nat): FrameHeader { FrameHeader(Request, CURRENT_VERSION, 0, c, id) }

  function Envelope(op: OperationCode, epoch: nat): RequestEnvelope {
    RequestEnvelope(op, epoch, 5000, if RequiresIdempotencyKey(op) then Some([1]) else None, [])
  }

  function Fresh(p: Session.Profile, op: OperationCode, epoch: nat, selection: Selection): Req {
    Req(op, epoch, 5000, p.processId, 0, selection, 0, 0, None, Begun)
  }

  /** The peer's link once the request with this identifier was admitted. */
  function Admitting(link: Session.ConnectionState, id: nat): Session.ConnectionState {
    Session.Issue(link, id).(inFlight := link.inFlight[id := Session.Active])
  }

  predicate Entitled(p: Session.Profile, op: OperationCode) {
    && p.version == CURRENT_VERSION && p.limits == LIMITS && IsAuthorizedFor(op, p.role)
    && (RequiredFeature(op).Some? ==> RequiredFeature(op).value in p.features)
  }

  lemma DeskMay(op: OperationCode)
    requires op == UnlockMasterPassword || op == UpdateAccount
    ensures Entitled(DESK, op)
  {
  }

  lemma HostMay(c: nat, op: OperationCode)
    requires op == Status || op == ExactOriginMatches || op == GetSelectedCredential
    ensures Entitled(HostAt(c), op)
  {
  }

  lemma ProviderMay(op: OperationCode)
    requires op == MakePasskey || op == ConfirmPasskeyCreation
    ensures Entitled(PROVIDER, op)
  {
  }

  predicate Room(link: Session.ConnectionState, id: nat) {
    !link.closed && link.lastRequestId + 1 == id && |link.issued| < 8 && |link.inFlight| < 4
  }

  lemma Rooms()
    ensures Room(Session.FRESH, 1) && Room(ONE, 2)
  {
  }

  predicate CanAsk(p: Session.Profile, link: Session.ConnectionState, id: nat, op: OperationCode) {
    Room(link, id) && Entitled(p, op)
  }

  lemma Asks(p: Session.Profile, link: Session.ConnectionState, id: nat, op: OperationCode, epoch: nat)
    requires CanAsk(p, link, id, op)
    ensures Session.Begin(p, link, Asking(p.connectionId, id), Envelope(op, epoch), epoch)
            == (Admitting(link, id), Session.Admitted(Session.Permit(id, op, epoch, 5000)))
  {
  }

  /** Everything but links, requests and trace is as before. */
  predicate Beside(s: Agent, t: Agent) {
    && t.gate == s.gate && t.now == s.now && t.vault == s.vault && t.web == s.web && t.books == s.books
    && t.ring == s.ring && t.net.gone == s.net.gone
  }

  /** The request of profile `p` with this identifier came in between `s` and `t`. */
  predicate CameIn(s: Agent, t: Agent, p: Session.Profile, id: nat, r: Req) {
    && p.connectionId in s.net.peers
    && t.net.peers == s.net.peers[p.connectionId := Peer(p, Admitting(s.net.peers[p.connectionId].link, id))]
    && t.requests == s.requests[Key(p.connectionId, id) := r]
  }

  predicate Awaits(s: Agent, p: Session.Profile, id: nat) {
    && s.now == 0 && p.connectionId in s.net.peers && s.net.peers[p.connectionId].profile == p
    && Room(s.net.peers[p.connectionId].link, id)
  }

  lemma Begins(s: Agent, p: Session.Profile, id: nat, op: OperationCode, selection: Selection) returns (t: Agent)
    requires Reachable(s) && Awaits(s, p, id) && Entitled(p, op)
    ensures Reachable(t) && Beside(s, t) && CameIn(s, t, p, id, Fresh(p, op, s.gate.epoch, selection))
    ensures t.trace == s.trace + [Began(Key(p.connectionId, id), op, s.gate.epoch)]
  {
    var c, epoch := p.connectionId, s.gate.epoch;
    var k, link := Key(c, id), s.net.peers[c].link;
    Asks(p, link, id, op, epoch);
    t := Emit(Put(Relink(s, c, Admitting(link, id)), k, Fresh(p, op, epoch, selection)), Began(k, op, epoch));
    assert DoBegin(s, c, Asking(c, id), Envelope(op, epoch), epoch, 0, selection, 0, 0, t);
    Reach(s, Link(Begin(c, Asking(c, id), Envelope(op, epoch), epoch, 0, selection, 0, 0)), t);
  }

  lemma Admits(s: Agent, k: Key) returns (t: Agent)
    requires Reachable(s) && k in s.requests && s.requests[k].phase.Begun? && !Marked(s, k)
    requires |RegisteredKeys(s)| < MAX_IN_FLIGHT_GLOBAL
    ensures Reachable(t) && Beside(s, t) && t.net == s.net
    ensures t.requests == s.requests[k := s.requests[k].(phase := Running)]
    ensures t.trace == s.trace + [Entered(k)]
  {
    t := Emit(At(s, k, Running), Entered(k));
    assert DoAdmit(s, k, t);
    Reach(s, Link(Admit(k)), t);
  }

  /** A request with a new key that is only begun is not registered. */
  lemma BegunUnregistered(s: Agent, t: Agent, k: Key, r: Req)
    requires t.requests == s.requests[k := r] && r.phase.Begun? && k !in s.requests
    ensures RegisteredKeys(t) == RegisteredKeys(s)
  {
  }

  lemma Starts(s: Agent, p: Session.Profile, id: nat, op: OperationCode, selection: Selection) returns (t: Agent)
    requires Reachable(s) && Awaits(s, p, id) && Entitled(p, op) && Key(p.connectionId, id) !in s.requests
    requires |RegisteredKeys(s)| < MAX_IN_FLIGHT_GLOBAL
    ensures Reachable(t) && Beside(s, t) && CameIn(s, t, p, id, Fresh(p, op, s.gate.epoch, selection).(phase := Running))
    ensures |s.trace| <= |t.trace| && t.trace[..|s.trace|] == s.trace
  {
    var k := Key(p.connectionId, id);
    var u := Begins(s, p, id, op, selection);
    BegunUnregistered(s, u, k, u.requests[k]);
    t := Admits(u, k);
  }

  lemma FewRegistered(s: Agent, n: nat)
    requires |s.requests.Keys| <= n < MAX_IN_FLIGHT_GLOBAL
    ensures |RegisteredKeys(s)| < MAX_IN_FLIGHT_GLOBAL
  {
    SmallerSet(RegisteredKeys(s), s.requests.Keys);
  }

  // ------------------------------------------------------------------- the run

  /** The unlock of `k` may go through: locked, idle, and not cancelled. */
  predicate MayUnlock(s: Agent, k: Key) {
    && k in s.requests && s.requests[k] == Fresh(DESK, UnlockMasterPassword, s.gate.epoch, NOTHING).(phase := Running)
    && s.gate.state == Locked && !s.gate.lockActive && s.gate.epoch < 5 && k !in s.gate.cancelled
    && s.now == 0 && s.vault.None?
  }

  lemma OpensGate(s: Agent, k: Key)
    requires Reachable(s) && MayUnlock(s, k)
    ensures Reachable(At(s, k, Opening).(gate := s.gate.(state := Unlocking)))
  {
    var a := At(s, k, Opening).(gate := s.gate.(state := Unlocking));
    assert DoOpenGate(s, k, a);
    Reach(s, Life(OpenGate(k)), a);
  }

  lemma Lists(s: Agent, k: Key) returns (t: Agent)
    requires Reachable(s) && k in s.requests && s.requests[k].phase.Opening? && s.vault.None?
    requires s.gate.state == Unlocking
    ensures Reachable(t) && k in t.requests && t.requests[k].phase.Recovering?
    ensures t == At(s, k, t.requests[k].phase).(books := s.books.(open := true))
  {
    var listed := set c | c in s.ring.passkeys && s.ring.passkeys[c] == Tentative;
    t := At(s, k, Recovering(listed, s.gate.epoch)).(books := s.books.(open := true));
    assert DoRecoverList(s, k, t);
    Reach(s, Life(RecoverList(k)), t);
  }

  lemma Publishes(s: Agent, k: Key)
    requires Reachable(s) && k in s.requests && s.requests[k].phase.Recovering? && s.now < s.requests[k].deadline
    requires s.gate.state == Unlocking && !s.gate.lockActive && s.gate.epoch < 5 && k !in s.gate.cancelled
    ensures Reachable(Opened(s, k, ByUnlock(k)))
  {
    assert DoPublish(s, k, true, Opened(s, k, ByUnlock(k)));
    Reach(s, Life(Publish(k, true)), Opened(s, k, ByUnlock(k)));
  }

  lemma Unlocks(s: Agent, k: Key) returns (t: Agent)
    requires Reachable(s) && MayUnlock(s, k)
    ensures Reachable(t)
    ensures t.gate == s.gate.(epoch := s.gate.epoch + 1, state := Unlocked)
    ensures t.requests == s.requests[k := s.requests[k].(phase := Done(SUCCESS))]
    ensures t.now == 0 && t.vault.None? && t.net == s.net && t.web == s.web && t.ring == s.ring
    ensures t.books == s.books.(open := true)
    ensures t.trace == s.trace + [Advanced(s.gate.epoch, ByUnlock(k))]
  {
    OpensGate(s, k);
    var b := Lists(At(s, k, Opening).(gate := s.gate.(state := Unlocking)), k);
    Publishes(b, k);
    t := Opened(b, k, ByUnlock(k));
  }

  predicate AtEpochTwo(s: Agent) { s.gate == Gate(2, Unlocked, false, {}) && s.now == 0 }

  predicate Quiet(s: Agent) { AtEpochTwo(s) && s.vault.None? && s.books == Books(map[7 := 1], 1, true) }

  function OfferOutcome(): Outcome { Outcome(None, Offer, false, false, false, Some(1), Some(5000)) }

  function PickAt(at: nat): Lease { Lease(0, PICK, 2, 1, 5000, at) }

  lemma ClaimsSlot(s: Agent, k: Key) returns (t: Agent)
    requires Reachable(s) && k in s.requests && s.requests[k].phase.Running? && s.requests[k].op == ExactOriginMatches
    requires k.conn !in s.web.leases && |s.web.leases| < MAX_CONNECTIONS
    ensures Reachable(t) && t.gate == s.gate && t.now == s.now && t.vault == s.vault && t.books == s.books
    ensures t.net == s.net && t.web.leases == s.web.leases[k.conn := None]
    ensures t.requests == s.requests[k := s.requests[k].(phase := Claimed)]
    ensures t.trace == s.trace + [SlotClaimed(k)]
  {
    t := Emit(At(s, k, Claimed).(web := Slot(s.web, k.conn, None, Claimer(k))), SlotClaimed(k));
    assert DoClaim(s, k, t);
    Reach(s, Core(Claim(k)), t);
  }

  /** With the slot claimed: into the core, read, write the slot. */
  lemma ReadsMatch(s: Agent, k: Key) returns (t: Agent)
    requires Reachable(s) && Quiet(s) && k in s.requests
    requires s.requests[k] == Fresh(HOST, ExactOriginMatches, 2, NOTHING).(phase := Claimed)
    ensures Reachable(t) && AtEpochTwo(t) && t.vault == Some(k) && t.books == s.books
    ensures t.net == s.net && t.web == s.web && t.trace == s.trace
    ensures t.requests == s.requests[k := s.requests[k].(phase := Offering(PICK, 1))]
  {
    var a := s.(vault := Some(k));
    assert DoEnterCore(s, k, a);
    Reach(s, Core(EnterCore(k)), a);
    t := At(a, k, Offering(PICK, 1));
    assert ReadForMatch(a, k, Some((7, 1)), 5, t);
    assert DoBrowserRead(a, k, Some((7, 1)), 5, t);
    Reach(a, Core(BrowserRead(k, Some((7, 1)), 5)), t);
  }

  lemma WritesSlot(s: Agent, k: Key) returns (t: Agent)
    requires Reachable(s) && AtEpochTwo(s) && s.vault == Some(k) && k in s.requests && k.conn in s.web.leases
    requires s.requests[k] == Fresh(HOST, ExactOriginMatches, 2, NOTHING).(phase := Offering(PICK, 1))
    ensures Reachable(t) && AtEpochTwo(t) && t.vault.None? && t.books == s.books && t.net == s.net
    ensures t.web.leases == s.web.leases[k.conn := Some(PickAt(|s.trace|))]
    ensures t.requests == s.requests[k := s.requests[k].(phase := Done(OfferOutcome()))]
    ensures t.trace == s.trace + [LeaseIssued(k.conn, 0, 2, PICK)]
  {
    var out := s.(vault := None);
    t := Emit(At(out, k, Done(OfferOutcome())).(web := Slot(s.web, k.conn, Some(PickAt(|s.trace|)), Ready)),
              LeaseIssued(k.conn, 0, 2, PICK));
    assert DoWriteSlot(s, k, t);
    Reach(s, Core(WriteSlot(k)), t);
  }

  lemma MakesOffer(s: Agent, k: Key) returns (t: Agent, at: nat)
    requires Reachable(s) && Quiet(s) && k in s.requests && s.web.leases == map[]
    requires s.requests[k] == Fresh(HOST, ExactOriginMatches, 2, NOTHING).(phase := Running)
    ensures Reachable(t) && Quiet(t) && t.net == s.net
    ensures t.requests == s.requests[k := s.requests[k].(phase := Done(OfferOutcome()))]
    ensures t.web.leases == map[k.conn := Some(PickAt(at))]
    ensures at < |t.trace| && t.trace[at] == LeaseIssued(k.conn, 0, 2, PICK)
  {
    var a := ClaimsSlot(s, k);
    var b := ReadsMatch(a, k);
    at := |b.trace|;
    t := WritesSlot(b, k);
    assert t.web.leases == map[k.conn := Some(PickAt(at))];
  }

  function SecretOutcome(at: nat, read: nat): Outcome {
    Outcome(None, Secret(7, 1, at, read), false, false, false, Some(1), Some(5000))
  }

  function Secretive(p: Phase): Req { Fresh(HOST, GetSelectedCredential, 2, PICK).(phase := p) }

  lemma TakesLease(s: Agent, k: Key, at: nat) returns (t: Agent)
    requires Reachable(s) && Quiet(s) && k in s.requests && s.requests[k] == Secretive(Running)
    requires s.web.leases == map[k.conn := Some(PickAt(at))]
    ensures Reachable(t) && AtEpochTwo(t) && t.vault == Some(k) && t.books == s.books
    ensures t.net == s.net && t.trace == s.trace
    ensures t.requests == s.requests[k := Secretive(Holding(PickAt(at)))]
  {
    var a := At(s, k, Holding(PickAt(at))).(web := Slot(s.web, k.conn, None, Taker(k)));
    assert DoTake(s, k, a);
    Reach(s, Core(Take(k)), a);
    t := a.(vault := Some(k));
    assert DoEnterCore(a, k, t);
    Reach(a, Core(EnterCore(k)), t);
  }

  lemma ReadsSecret(s: Agent, k: Key, at: nat) returns (t: Agent)
    requires Reachable(s) && AtEpochTwo(s) && s.vault == Some(k) && s.books == Books(map[7 := 1], 1, true)
    requires k in s.requests && s.requests[k] == Secretive(Holding(PickAt(at)))
    ensures Reachable(t) && Quiet(t) && t.net == s.net && t.trace == s.trace + [SecretRead(k, 2)]
    ensures t.requests == s.requests[k := Secretive(Done(SecretOutcome(at, |s.trace|)))]
  {
    t := Emit(At(s.(vault := None), k, Done(SecretOutcome(at, |s.trace|))), SecretRead(k, 2));
    assert ReadForSecret(s, k, PickAt(at), Some((7, 1)), t);
    assert DoBrowserRead(s, k, Some((7, 1)), 5, t);
    Reach(s, Core(BrowserRead(k, Some((7, 1)), 5)), t);
  }

  /** The store commits the update; reading the result back fails. */
  lemma ChangesUnacknowledged(s: Agent, k: Key) returns (t: Agent)
    requires Reachable(s) && Quiet(s) && k in s.requests
    requires s.requests[k] == Fresh(DESK, UpdateAccount, 2, NOTHING).(phase := Running)
    ensures Reachable(t) && AtEpochTwo(t) && t.books.generation == 1 && t.net == s.net
    ensures t.requests == s.requests[k := s.requests[k].(phase := Failing)]
    ensures t.trace == s.trace + [Durable(k, 2, AccountChange(7), None, false)]
  {
    var a := s.(vault := Some(k));
    assert DoEnterCore(s, k, a);
    Reach(s, Core(EnterCore(k)), a);
    var b := a.(books := Books(map[7 := 2], 1, true));
    t := Settle(b, k, Done(SUCCESS), AccountChange(7), None, false);
    assert map[7 := 1][7 := 2] == map[7 := 2];
    assert CommitAccount(a, k, 7, false, t);
    assert DoCommit(a, k, 7, false, t);
    Reach(a, Store(Commit(k, 7, false)), t);
  }

  lemma Answers(s: Agent, k: Key, at: nat, read: nat) returns (t: Agent)
    requires Reachable(s) && AtEpochTwo(s) && s.books.generation == 1
    requires k in s.requests && s.requests[k] == Secretive(Done(SecretOutcome(at, read)))
    requires k.conn in s.net.peers && k.id in s.net.peers[k.conn].link.inFlight && !Marked(s, k)
    ensures Reachable(t)
    ensures t.trace == s.trace + [Wrote(k, GetSelectedCredential, 2, SecretOutcome(at, read))]
  {
    var r, o := s.requests[k], SecretOutcome(at, read);
    assert Recheck(s, k, r, o) == o;
    assert BrowserCheck(s, o) == o;
    var u := Unlink(At(s, k, Answered), k);
    t := Emit(u.(web := AfterAnswer(s.web, k.conn, r, o)), Wrote(k, r.op, r.epoch, o));
    assert DoFinish(s, k, true, t);
    Reach(s, Link(Finish(k, true)), t);
  }

  const BOOT := Agent(
    Gate(1, Locked, false, {}), 0, None, map[], Net(map[], {}), Web(map[], map[]),
    Books(map[7 := 1], 1, false), Ring(map[], map[], {}, map[]), [])

  lemma Boots()
    ensures Reachable(BOOT)
  {
    var empty: seq<Action> := [];
    assert IsRun([BOOT], empty) && [BOOT][|empty|] == BOOT;
  }

  lemma Connects(s: Agent, c: nat, p: Session.Profile) returns (t: Agent)
    requires Reachable(s) && c !in s.net.peers
    ensures Reachable(t) && Beside(s, t) && t.requests == s.requests && t.trace == s.trace
    ensures t.net.peers == s.net.peers[c := Peer(p, Session.FRESH)]
  {
    t := s.(net := s.net.(peers := s.net.peers[c := Peer(p, Session.FRESH)]));
    assert DoConnect(s, c, p, t);
    Reach(s, Link(Connect(c, p)), t);
  }

  const ONE := Admitting(Session.FRESH, 1)

  predicate Has(s: Agent, p: Session.Profile, link: Session.ConnectionState) {
    p.connectionId in s.net.peers && s.net.peers[p.connectionId] == Peer(p, link)
  }

  /** Desktop, browser host and passkey provider connected. */
  lemma Gathers() returns (t: Agent)
    ensures Reachable(t) && Beside(BOOT, t) && t.requests == map[] && t.trace == []
    ensures Has(t, DESK, Session.FRESH) && Has(t, HOST, Session.FRESH) && Has(t, PROVIDER, Session.FRESH)
  {
    Boots();
    var a := Connects(BOOT, 11, DESK);
    var b := Connects(a, 22, HOST);
    t := Connects(b, 33, PROVIDER);
  }

  /** What a request that came in leaves as it was. */
  lemma OthersStay(s: Agent, t: Agent, p: Session.Profile, id: nat, r: Req)
    requires CameIn(s, t, p, id, r)
    ensures t.requests.Keys == s.requests.Keys + {Key(p.connectionId, id)}
    ensures forall c :: c in s.net.peers && c != p.connectionId ==> c in t.net.peers && t.net.peers[c] == s.net.peers[c]
  {
  }

  /** Peers other than the asking one, the keys, and the trace so far. */
  predicate AsBefore(s: Agent, t: Agent, k: Key) {
    && t.requests.Keys == s.requests.Keys + {k}
    && (forall c :: c in s.net.peers && c != k.conn ==> c in t.net.peers && t.net.peers[c] == s.net.peers[c])
    && |s.trace| <= |t.trace| && (forall i :: 0 <= i < |s.trace| ==> t.trace[i] == s.trace[i])
  }

  lemma TraceStays(a: seq<Event>, b: seq<Event>)
    requires |a| <= |b| && b[..|a|] == a
    ensures forall i :: 0 <= i < |a| ==> b[i] == a[i]
  {
  }

  /** A connected peer asks and is admitted. */
  lemma AsksNext(s: Agent, p: Session.Profile, link: Session.ConnectionState, id: nat, op: OperationCode,
                 selection: Selection) returns (t: Agent)
    requires Reachable(s) && s.now == 0 && Has(s, p, link) && Room(link, id) && Entitled(p, op)
    requires |s.requests.Keys| <= 4 && Key(p.connectionId, id) !in s.requests
    ensures Reachable(t) && Beside(s, t) && AsBefore(s, t, Key(p.connectionId, id)) && Has(t, p, Admitting(link, id))
    ensures t.requests ==
              s.requests[Key(p.connectionId, id) := Fresh(p, op, s.gate.epoch, selection).(phase := Running)]
  {
    FewRegistered(s, 4);
    t := Starts(s, p, id, op, selection);
    OthersStay(s, t, p, id, t.requests[Key(p.connectionId, id)]);
    TraceStays(s.trace, t.trace);
  }

  lemma UnlockRequested() returns (t: Agent)
    ensures Reachable(t) && Beside(BOOT, t) && t.requests.Keys == {Key(11, 1)}
    ensures t.requests[Key(11, 1)] == Fresh(DESK, UnlockMasterPassword, 1, NOTHING).(phase := Running)
    ensures Has(t, DESK, ONE) && Has(t, HOST, Session.FRESH) && Has(t, PROVIDER, Session.FRESH)
  {
    var c := Gathers();
    Rooms();
    DeskMay(UnlockMasterPassword);
    t := AsksNext(c, DESK, Session.FRESH, 1, UnlockMasterPassword, NOTHING);
  }

  /** The vault unlocked at epoch 2. */
  lemma Opens() returns (t: Agent)
    ensures Reachable(t) && Quiet(t) && t.web.leases == map[] && t.ring == BOOT.ring
    ensures t.requests.Keys == {Key(11, 1)} && t.net.gone == {}
    ensures Has(t, DESK, ONE) && Has(t, HOST, Session.FRESH) && Has(t, PROVIDER, Session.FRESH)
  {
    var d := UnlockRequested();
    t := Unlocks(d, Key(11, 1));
  }

  lemma MatchRequested() returns (t: Agent)
    ensures Reachable(t) && Quiet(t) && t.requests.Keys == {Key(11, 1), Key(22, 1)} && t.web.leases == map[]
    ensures t.requests[Key(22, 1)] == Fresh(HOST, ExactOriginMatches, 2, NOTHING).(phase := Running)
    ensures Has(t, DESK, ONE) && Has(t, HOST, ONE)
  {
    var a := Opens();
    Rooms();
    HostMay(22, ExactOriginMatches);
    t := AsksNext(a, HOST, Session.FRESH, 1, ExactOriginMatches, NOTHING);
  }

  lemma FirstOffer() returns (t: Agent, at: nat)
    ensures Reachable(t) && Quiet(t) && t.requests.Keys == {Key(11, 1), Key(22, 1)}
    ensures at < |t.trace| && t.trace[at] == LeaseIssued(22, 0, 2, PICK)
    ensures t.web.leases == map[22 := Some(PickAt(at))] && Has(t, DESK, ONE) && Has(t, HOST, ONE)
  {
    var b := MatchRequested();
    t, at := MakesOffer(b, Key(22, 1));
  }

  lemma SecretRequested() returns (t: Agent, at: nat)
    ensures Reachable(t) && Quiet(t) && t.requests.Keys == {Key(11, 1), Key(22, 1), Key(22, 2)}
    ensures at < |t.trace| && t.trace[at] == LeaseIssued(22, 0, 2, PICK)
    ensures t.requests[Key(22, 2)] == Secretive(Running)
    ensures t.web.leases == map[22 := Some(PickAt(at))]
    ensures Has(t, DESK, ONE)
    ensures Has(t, HOST, Admitting(ONE, 2))
  {
    var a, n := FirstOffer();
    at := n;
    Rooms();
    HostMay(22, GetSelectedCredential);
    t := AsksNext(a, HOST, ONE, 2, GetSelectedCredential, PICK);
  }

  /** An offer made, its secret read and waiting to be written. */
  lemma ReadiesDisclosure() returns (t: Agent, at: nat, read: nat)
    ensures Reachable(t) && Quiet(t) && t.requests.Keys == {Key(11, 1), Key(22, 1), Key(22, 2)}
    ensures at < read < |t.trace| && t.trace[at] == LeaseIssued(22, 0, 2, PICK)
    ensures t.trace[read] == SecretRead(Key(22, 2), 2)
    ensures t.requests[Key(22, 2)] == Secretive(Done(SecretOutcome(at, read)))
    ensures Has(t, DESK, ONE)
    ensures Has(t, HOST, Admitting(ONE, 2))
  {
    var a, n := SecretRequested();
    at := n;
    var b := TakesLease(a, Key(22, 2), at);
    read := |b.trace|;
    t := ReadsSecret(b, Key(22, 2), at);
  }

  /** A disclosure of an account that changed, durably but unacknowledged, after it was read. */
  ghost predicate Stale(s: Agent) {
    exists at, read, i, m ::
      && 0 <= at < read < i < m < |s.trace|
      && s.trace[at] == LeaseIssued(22, 0, 2, PICK)
      && s.trace[read] == SecretRead(Key(22, 2), 2)
      && s.trace[i] == Durable(Key(11, 2), 2, AccountChange(PICK.record), None, false)
      && Disclosure(s.trace[m]) && s.trace[m].outcome.body == Secret(PICK.record, PICK.revision, at, read)
  }

  /**
   * The counter only protects against account changes the runtime saw succeed: one whose
   * verification failed after the store committed can lie between the read of a secret and the
   * answer that discloses it.
   */
  lemma StaleDisclosureIsReachable()
    ensures exists s :: Reachable(s) && Stale(s)
  {
    var a, at, read, i := ChangedMeanwhile();
    var b := Answers(a, Key(22, 2), at, read);
    assert b.trace[at] == a.trace[at] && b.trace[read] == a.trace[read] && b.trace[i] == a.trace[i];
    assert Disclosure(b.trace[|a.trace|]);
    assert Stale(b);
  }

  lemma UpdateRequested() returns (t: Agent, at: nat, read: nat)
    ensures Reachable(t) && Quiet(t) && at < read < |t.trace| && t.trace[at] == LeaseIssued(22, 0, 2, PICK)
    ensures t.trace[read] == SecretRead(Key(22, 2), 2)
    ensures t.requests.Keys == {Key(11, 1), Key(22, 1), Key(22, 2), Key(11, 2)}
    ensures t.requests[Key(11, 2)] == Fresh(DESK, UpdateAccount, 2, NOTHING).(phase := Running)
    ensures t.requests[Key(22, 2)] == Secretive(Done(SecretOutcome(at, read)))
    ensures Has(t, HOST, Admitting(ONE, 2))
  {
    var a, n, m := ReadiesDisclosure();
    at, read := n, m;
    Rooms();
    DeskMay(UpdateAccount);
    t := AsksNext(a, DESK, ONE, 2, UpdateAccount, NOTHING);
  }

  lemma ChangedMeanwhile() returns (t: Agent, at: nat, read: nat, i: nat)
    ensures Reachable(t) && AtEpochTwo(t) && t.books.generation == 1
    ensures at < read < i < |t.trace| && t.trace[at] == LeaseIssued(22, 0, 2, PICK)
    ensures t.trace[read] == SecretRead(Key(22, 2), 2)
    ensures t.trace[i] == Durable(Key(11, 2), 2, AccountChange(PICK.record), None, false)
    ensures Key(22, 2) in t.requests && t.requests[Key(22, 2)] == Secretive(Done(SecretOutcome(at, read)))
    ensures 22 in t.net.peers && 2 in t.net.peers[22].link.inFlight && !Marked(t, Key(22, 2))
  {
    var b, n, m := UpdateRequested();
    at, read, i := n, m, |b.trace|;
    t := ChangesUnacknowledged(b, Key(11, 2));
  }

  // ------------------------------------------------------- a confirmed passkey

  const SLOT := PendingKey(33, 0)
  const ENTRY := Pending(0, 300, 2, false, false)
  const BOUND := Binding(33, 0, 300, 2)
  const LOST := Durable(Key(33, 2), 2, PasskeyConfirmed(0), Some(BOUND), false)

  /** The ring with the one passkey in this state. */
  function RingOf(state: CreationState): Ring { Ring(map[SLOT := ENTRY], map[0 := state], {0}, map[0 := BOUND]) }

  function Ask(op: OperationCode, p: Phase): Req { Fresh(PROVIDER, op, 2, NOTHING).(phase := p) }

  lemma Commits(s: Agent, k: Key, acked: bool, t: Agent)
    requires Reachable(s) && Quiet(s) && k in s.requests
    requires RequiresUnlockedEpoch(s.requests[k].op) && !BrowserOp(s.requests[k].op)
    requires s.requests[k] == Ask(s.requests[k].op, Running)
    requires DoCommit(s.(vault := Some(k)), k, 0, acked, t)
    ensures Reachable(t)
  {
    var a := s.(vault := Some(k));
    assert DoEnterCore(s, k, a);
    Reach(s, Core(EnterCore(k)), a);
    Reach(a, Store(Commit(k, 0, acked)), t);
  }

  lemma MakesPasskey(s: Agent) returns (t: Agent)
    requires Reachable(s) && Quiet(s) && s.ring == BOOT.ring
    requires Key(33, 1) in s.requests && s.requests[Key(33, 1)] == Ask(MakePasskey, Running)
    ensures Reachable(t) && Quiet(t) && t.net == s.net && t.ring == RingOf(Tentative)
    ensures t.requests == s.requests[Key(33, 1) := Ask(MakePasskey, COMMITTED)]
  {
    var k, a := Key(33, 1), s.(vault := Some(Key(33, 1)));
    t := Settle(a.(ring := RingOf(Tentative)), k, COMMITTED, PasskeyMade(0), Some(BOUND), true);
    assert CommitMake(a, k, 0, true, t);
    Commits(s, k, true, t);
  }

  /** The store confirms the passkey; reading the result back fails, so the entry stays unconfirmed. */
  lemma ConfirmsUnacknowledged(s: Agent) returns (t: Agent)
    requires Reachable(s) && Quiet(s) && Key(33, 2) in s.requests && s.ring == RingOf(Tentative)
    requires s.requests[Key(33, 2)] == Ask(ConfirmPasskeyCreation, Running)
    ensures Reachable(t) && AtEpochTwo(t) && t.vault.None? && t.net == s.net && t.ring == RingOf(Confirmed)
    ensures t.requests == s.requests[Key(33, 2) := Ask(ConfirmPasskeyCreation, Failing)]
    ensures t.trace == s.trace + [LOST]
  {
    var k, a := Key(33, 2), s.(vault := Some(Key(33, 2)));
    t := Settle(a.(ring := RingOf(Confirmed)), k, COMMITTED, PasskeyConfirmed(0), Some(BOUND), false);
    assert map[0 := Tentative][0 := Confirmed] == map[0 := Confirmed];
    assert CommitConfirm(a, k, false, t);
    Commits(s, k, false, t);
  }

  lemma Fails(s: Agent) returns (t: Agent)
    requires Reachable(s) && AtEpochTwo(s) && s.vault.None? && Key(33, 2) in s.requests
    requires s.requests[Key(33, 2)] == Ask(ConfirmPasskeyCreation, Failing)
    ensures Reachable(t) && t.gate == Gate(3, Locked, false, RegisteredKeys(s)) && t.now == 0 && t.vault.None?
    ensures t.requests.Keys == s.requests.Keys && t.net == s.net && t.ring == s.ring
    ensures |s.trace| <= |t.trace| && t.trace[..|s.trace|] == s.trace
  {
    t := Fail(Advance(s, SetLocked(s.gate), ByFailure), Key(33, 2), OperationFailed);
    assert DoFailGate(s, Key(33, 2), t);
    Reach(s, Core(FailGate(Key(33, 2))), t);
  }

  /** The connection is gone; its requests stay, flagged where registered. */
  lemma Leaves(s: Agent, c: nat) returns (t: Agent)
    requires Reachable(s) && c in s.net.peers && c !in s.net.gone
    ensures Reachable(t) && t.now == s.now && t.vault == s.vault && t.books == s.books && t.requests == s.requests
    ensures t.gate == Flag(s.gate, set j | j in RegisteredKeys(s) && j.conn == c)
    ensures t.net.gone == s.net.gone + {c} && t.net.peers.Keys == s.net.peers.Keys
    ensures forall d :: d in s.net.peers && d != c ==> t.net.peers[d] == s.net.peers[d]
    ensures c !in s.web.leases ==> t.web == s.web
    ensures t.ring == s.ring.(pending := Disconnected(s.ring.pending, c))
    ensures t.trace == s.trace + [DisconnectApplied(c)]
  {
    var b := Relink(s, c, Session.Close(s.net.peers[c].link));
    t := Emit(b.(gate := Flag(s.gate, set j | j in RegisteredKeys(s) && j.conn == c),
                 net := b.net.(gone := s.net.gone + {c}),
                 web := s.web.(leases := s.web.leases - {c}),
                 ring := s.ring.(pending := Disconnected(s.ring.pending, c))),
              DisconnectApplied(c));
    assert c !in s.web.leases ==> s.web.leases - {c} == s.web.leases;
    assert DoDisconnect(s, c, t);
    Reach(s, Link(Disconnect(c)), t);
  }

  const ORPHAN := map[SLOT := ENTRY.(disconnected := true)]

  lemma OrphanOf(pending: map<PendingKey, Pending>)
    requires pending == map[SLOT := ENTRY]
    ensures Disconnected(pending, 33) == ORPHAN
  {
  }

  /** The failure's gate section, then the provider disconnects. */
  lemma FailsAndLeaves(s: Agent) returns (t: Agent)
    requires Reachable(s) && AtEpochTwo(s) && s.vault.None? && Key(33, 2) in s.requests
    requires 33 in s.net.peers && 11 in s.net.peers && s.net.gone == {}
    requires s.requests[Key(33, 2)] == Ask(ConfirmPasskeyCreation, Failing) && s.ring.pending == map[SLOT := ENTRY]
    ensures Reachable(t) && t.gate.epoch == 3 && t.gate.state == Locked && !t.gate.lockActive
    ensures t.gate.cancelled <= s.requests.Keys && t.now == 0 && t.vault.None?
    ensures t.requests.Keys == s.requests.Keys && 11 in t.net.peers && t.net.peers[11] == s.net.peers[11]
    ensures t.ring == s.ring.(pending := ORPHAN)
    ensures |s.trace| <= |t.trace| && t.trace[..|s.trace|] == s.trace
  {
    var a := Fails(s);
    t := Leaves(a, 33);
    OrphanOf(a.ring.pending);
  }

  lemma Sweeps(s: Agent) returns (t: Agent)
    requires Reachable(s) && s.books.open && !s.gate.lockActive && s.vault.None?
    requires s.ring.pending == ORPHAN && s.ring.passkeys == map[0 := Confirmed]
    ensures Reachable(t) && t.trace == s.trace + [Swept(0)]
  {
    t := Emit(s.(ring := Drop(s.ring, 0).(pending := s.ring.pending - {SLOT})), Swept(0));
    assert DoSweep(s, SLOT, true, t);
    Reach(s, Store(Sweep(SLOT, true)), t);
  }

  lemma MadeOnce() returns (t: Agent)
    ensures Reachable(t) && Quiet(t) && t.requests.Keys == {Key(11, 1), Key(33, 1)} && t.net.gone == {}
    ensures Has(t, DESK, ONE)
    ensures Has(t, PROVIDER, ONE)
    ensures t.ring == RingOf(Tentative)
  {
    var b := Opens();
    Rooms();
    ProviderMay(MakePasskey);
    var c := AsksNext(b, PROVIDER, Session.FRESH, 1, MakePasskey, NOTHING);
    t := MakesPasskey(c);
  }

  lemma ConfirmRequested() returns (t: Agent)
    ensures Reachable(t) && Quiet(t) && t.requests.Keys == {Key(11, 1), Key(33, 1), Key(33, 2)} && t.net.gone == {}
    ensures t.requests[Key(33, 2)] == Ask(ConfirmPasskeyCreation, Running)
    ensures 33 in t.net.peers && Has(t, DESK, ONE)
    ensures t.ring == RingOf(Tentative)
  {
    var c := MadeOnce();
    Rooms();
    ProviderMay(ConfirmPasskeyCreation);
    t := AsksNext(c, PROVIDER, ONE, 2, ConfirmPasskeyCreation, NOTHING);
  }

  lemma LeftBehind() returns (t: Agent, i: nat)
    ensures Reachable(t) && t.gate.epoch == 3 && t.gate.state == Locked && !t.gate.lockActive
    ensures t.now == 0 && t.vault.None? && t.requests.Keys == {Key(11, 1), Key(33, 1), Key(33, 2)}
    ensures t.gate.cancelled <= t.requests.Keys && Has(t, DESK, ONE)
    ensures t.ring.pending == ORPHAN && t.ring.passkeys == map[0 := Confirmed]
    ensures i < |t.trace| && t.trace[i] == LOST
  {
    var d := ConfirmRequested();
    var a := ConfirmsUnacknowledged(d);
    t := FailsAndLeaves(a);
    i := |a.trace| - 1;
    assert t.trace[i] == t.trace[..|a.trace|][i];
  }

  lemma UnlocksAgain() returns (t: Agent, i: nat)
    ensures Reachable(t) && t.books.open && !t.gate.lockActive && t.vault.None?
    ensures t.ring.pending == ORPHAN && t.ring.passkeys == map[0 := Confirmed]
    ensures i < |t.trace| && t.trace[i] == LOST
  {
    var b, n := LeftBehind();
    i := n;
    Rooms();
    DeskMay(UnlockMasterPassword);
    var c := AsksNext(b, DESK, ONE, 2, UnlockMasterPassword, NOTHING);
    t := Unlocks(c, Key(11, 2));
  }

  /** A passkey confirmed in the store and then deleted by disconnect cleanup. */
  ghost predicate ConfirmedThenSwept(s: Agent) {
    exists i, j :: 0 <= i < j < |s.trace| && s.trace[i] == LOST && s.trace[j] == Swept(0)
  }

  /** The same gap for passkeys: only an acknowledged confirmation protects from the cleanup. */
  lemma UnacknowledgedConfirmationIsLost()
    ensures exists s :: Reachable(s) && ConfirmedThenSwept(s)
  {
    var a, i := UnlocksAgain();
    var b := Sweeps(a);
    assert b.trace[i] == LOST && b.trace[|a.trace|] == Swept(0);
    assert ConfirmedThenSwept(b);
  }

  // --------------------------------------------------- slots of the departed

  /** Only the connections below `n` have come. */
  ghost predicate Newcomers(s: Agent, n: nat) {
    && s.now == 0 && s.gate.epoch == 1
    && (forall c :: c in s.net.peers || c in s.net.gone || c in s.web.leases ==> c < n)
    && (forall k :: k in s.requests ==> k.conn < n)
  }

  /** One more connection comes and a request of its passes admission. */
  lemma Arrives(s: Agent, n: nat, op: OperationCode) returns (t: Agent)
    requires Reachable(s) && Newcomers(s, n) && |RegisteredKeys(s)| < MAX_IN_FLIGHT_GLOBAL
    requires op == Status || op == ExactOriginMatches
    ensures Reachable(t) && Newcomers(t, n + 1) && Beside(s, t) && n in t.net.peers
    ensures t.requests == s.requests[Key(n, 1) := Fresh(HostAt(n), op, 1, NOTHING).(phase := Running)]
  {
    var a := Connects(s, n, HostAt(n));
    assert RegisteredKeys(a) == RegisteredKeys(s);
    Rooms();
    HostMay(n, op);
    t := Starts(a, HostAt(n), 1, op, NOTHING);
  }

  lemma ArrivalRegisters(s: Agent, t: Agent, n: nat, r: Req)
    requires Newcomers(s, n) && r.phase.Running? && t.requests == s.requests[Key(n, 1) := r]
    ensures |RegisteredKeys(t)| == |RegisteredKeys(s)| + 1
  {
    assert RegisteredKeys(t) == RegisteredKeys(s) + {Key(n, 1)};
  }

  /** A running request for matches on a connection without a slot, and a slot free. */
  predicate MayLeak(s: Agent, k: Key) {
    && k in s.requests && s.requests[k].phase.Running? && s.requests[k].op == ExactOriginMatches
    && k.conn in s.net.peers && k.conn !in s.net.gone && k.conn !in s.web.leases && |s.web.leases| < MAX_CONNECTIONS
  }

  lemma ArrivalMayLeak(s: Agent, t: Agent, n: nat)
    requires Newcomers(s, n) && Beside(s, t) && n in t.net.peers && |s.web.leases| < MAX_CONNECTIONS
    requires t.requests == s.requests[Key(n, 1) := Fresh(HostAt(n), ExactOriginMatches, 1, NOTHING).(phase := Running)]
    ensures MayLeak(t, Key(n, 1)) && t.requests.Keys == s.requests.Keys + {Key(n, 1)}
  {
  }

  /** It leaves, and its worker claims the slot. */
  lemma LeavesThenClaims(s: Agent, k: Key) returns (t: Agent)
    requires Reachable(s) && MayLeak(s, k)
    ensures Reachable(t) && t.now == s.now && t.gate.epoch == s.gate.epoch && t.requests.Keys == s.requests.Keys
    ensures t.net.peers.Keys == s.net.peers.Keys && t.net.gone == s.net.gone + {k.conn}
    ensures t.web.leases.Keys == s.web.leases.Keys + {k.conn}
  {
    var c := Leaves(s, k.conn);
    t := ClaimsSlot(c, k);
  }

  /** One more connection is gone and holds a slot. */
  predicate LeakedMore(s: Agent, t: Agent, n: nat) {
    && t.web.leases.Keys == s.web.leases.Keys + {n} && t.net.gone == s.net.gone + {n}
    && t.requests.Keys == s.requests.Keys + {Key(n, 1)}
  }

  lemma LeaksOne(s: Agent, n: nat) returns (t: Agent)
    requires Reachable(s) && Newcomers(s, n) && |s.web.leases| < MAX_CONNECTIONS
    requires |RegisteredKeys(s)| < MAX_IN_FLIGHT_GLOBAL
    ensures Reachable(t) && Newcomers(t, n + 1) && LeakedMore(s, t, n)
  {
    var a := Arrives(s, n, ExactOriginMatches);
    ArrivalMayLeak(s, a, n);
    t := LeavesThenClaims(a, Key(n, 1));
    NewcomersStay(a, t, n);
  }

  lemma NewcomersStay(s: Agent, t: Agent, n: nat)
    requires Newcomers(s, n + 1) && t.now == s.now && t.gate.epoch == s.gate.epoch
    requires t.requests.Keys == s.requests.Keys && t.net.peers.Keys == s.net.peers.Keys
    requires t.net.gone == s.net.gone + {n} && t.web.leases.Keys == s.web.leases.Keys + {n}
    ensures Newcomers(t, n + 1)
  {
    assert forall c :: c in t.net.peers <==> c in s.net.peers.Keys;
    assert forall c :: c in t.web.leases <==> c in s.web.leases.Keys + {n};
    assert forall k :: k in t.requests <==> k in s.requests.Keys;
  }

  ghost predicate LeakedAll(s: Agent, n: nat) {
    Newcomers(s, n) && |Leaked(s)| == n && |s.web.leases.Keys| == n && |s.requests.Keys| == n
  }

  lemma LeakedStep(s: Agent, t: Agent, n: nat)
    requires LeakedAll(s, n) && LeakedMore(s, t, n) && Newcomers(t, n + 1)
    ensures LeakedAll(t, n + 1)
  {
    assert Leaked(t) == Leaked(s) + {n};
    assert n !in s.web.leases.Keys && Key(n, 1) !in s.requests.Keys;
  }

  lemma LeakedRoom(s: Agent, n: nat)
    requires LeakedAll(s, n) && n < MAX_CONNECTIONS
    ensures |s.web.leases| < MAX_CONNECTIONS && |RegisteredKeys(s)| < MAX_IN_FLIGHT_GLOBAL
  {
    FewRegistered(s, n);
  }

  lemma NoneLeaked()
    ensures LeakedAll(BOOT, 0)
  {
  }

  lemma {:induction false} Leaks(n: nat) returns (t: Agent)
    requires n <= MAX_CONNECTIONS
    ensures Reachable(t) && LeakedAll(t, n)
  {
    if n == 0 {
      Boots();
      NoneLeaked();
      t := BOOT;
    } else {
      var s := Leaks(n - 1);
      LeakedRoom(s, n - 1);
      t := LeaksOne(s, n - 1);
      LeakedStep(s, t, n - 1);
    }
  }

  /** Workers still running when their connections are gone can claim every slot there is. */
  lemma DeadConnectionsHoldEverySlot()
    ensures exists s :: Reachable(s) && |Leaked(s)| == MAX_CONNECTIONS
  {
    var t := Leaks(MAX_CONNECTIONS);
  }

  // ------------------------------------------------ refused after the disconnect

  lemma {:induction false} Crowds(n: nat) returns (t: Agent)
    requires n <= MAX_IN_FLIGHT_GLOBAL
    ensures Reachable(t) && Newcomers(t, n) && |RegisteredKeys(t)| == n
  {
    if n == 0 {
      Boots();
      t := BOOT;
      assert RegisteredKeys(t) == {};
    } else {
      var s := Crowds(n - 1);
      t := Arrives(s, n - 1, Status);
      ArrivalRegisters(s, t, n - 1, t.requests[Key(n - 1, 1)]);
    }
  }

  lemma Refuses(s: Agent, k: Key) returns (t: Agent)
    requires Reachable(s) && k in s.requests && k.conn in s.net.peers && s.requests[k].phase.Begun?
    requires s.now < s.requests[k].deadline && |RegisteredKeys(s)| >= MAX_IN_FLIGHT_GLOBAL
    ensures Reachable(t) && t.trace == s.trace + [Rejected(k, s.requests[k].op, s.requests[k].epoch, Busy)]
  {
    t := Emit(Unlink(At(s, k, Answered), k), Rejected(k, s.requests[k].op, s.requests[k].epoch, Busy));
    assert DoReject(s, k, t);
    Reach(s, Link(Reject(k)), t);
  }

  /** At the global limit a new connection's request begins, and the connection is gone. */
  lemma BeginsAndLeaves(s: Agent, n: nat) returns (t: Agent)
    requires Reachable(s) && Newcomers(s, n)
    ensures Reachable(t) && n in t.net.peers && t.now == 0 && RegisteredKeys(t) == RegisteredKeys(s)
    ensures Key(n, 1) in t.requests && t.requests[Key(n, 1)] == Fresh(HostAt(n), Status, 1, NOTHING)
    ensures |t.trace| > 0 && t.trace[|t.trace| - 1] == DisconnectApplied(n)
  {
    var b := Connects(s, n, HostAt(n));
    Rooms();
    HostMay(n, Status);
    var c := Begins(b, HostAt(n), 1, Status, NOTHING);
    BegunUnregistered(b, c, Key(n, 1), c.requests[Key(n, 1)]);
    t := Leaves(c, n);
    assert RegisteredKeys(t) == RegisteredKeys(c) && RegisteredKeys(b) == RegisteredKeys(s);
  }

  predicate SaysBusy(e: Event) { e.Rejected? && e.error == Busy }

  /** A request answered Busy although its connection was disconnected before. */
  ghost predicate BusyAfterDisconnect(s: Agent) {
    exists i, j :: 0 <= i < j < |s.trace| && SaysBusy(s.trace[j]) && s.trace[i] == DisconnectApplied(s.trace[j].key.conn)
  }

  /** At the global limit the refusal is the answer, and no longer the cancellation. */
  lemma RefusalOutlivesDisconnect()
    ensures exists s :: Reachable(s) && BusyAfterDisconnect(s)
  {
    var n := MAX_IN_FLIGHT_GLOBAL;
    var a := Crowds(n);
    var d := BeginsAndLeaves(a, n);
    var e := Refuses(d, Key(n, 1));
    assert e.trace[|d.trace| - 1] == DisconnectApplied(n) && SaysBusy(e.trace[|d.trace|]);
    assert BusyAfterDisconnect(e);
  }
}
