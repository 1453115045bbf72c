/** What every step of the request machine keeps: identities, links, withdrawn requests. */
module DispatchFrame {
  import opened Base
  import opened Tables
  import Session
  import opened Dispatch

  // ------------------------------------------------------------- the shape

  ghost predicate ReqOk(net: Net, k: Key, r: Req) {
    && k.conn in net.peers
    && k.id <= net.peers[k.conn].link.lastRequestId
    && (r.phase.Begun? || Registered(r.phase) ==> k.id in net.peers[k.conn].link.inFlight)
  }

  ghost predicate VaultOk(s: Agent) {
    s.vault.Some? ==>
      && s.vault.value in s.requests
      && var r := s.requests[s.vault.value];
         && (Working(r.phase) || r.phase.Offering?) && RequiresUnlockedEpoch(r.op)
         && !(BrowserOp(r.op) && r.phase.Running?) && r.epoch <= s.gate.epoch
  }

  ghost predicate LinkOk(peer: Peer) {
    Session.Invariant(peer.profile, peer.link)
  }

  ghost predicate NetOk(net: Net) {
    forall c :: c in net.peers ==> LinkOk(net.peers[c])
  }

  /** A request keeps its connection and in-flight entry until answered; one core at a time. */
  ghost predicate Shape(s: Agent) {
    && s.gate.epoch <= U64_MAX
    && VaultOk(s)
    && NetOk(s.net)
    && (forall k :: k in s.requests ==> ReqOk(s.net, k, s.requests[k]))
  }

  // ------------------------------------------------------------- monotonicity

  predicate SameRequest(r: Req, q: Req) {
    q == r.(expected := q.expected, phase := q.phase)
  }

  /** Identifiers already issued are never revived and never become active again. */
  ghost predicate LinkGrows(p: Peer, q: Peer) {
    && q.profile == p.profile
    && p.link.lastRequestId <= q.link.lastRequestId
    && (p.link.closed ==> q.link.closed && q.link.lastRequestId == p.link.lastRequestId)
    && (forall id :: id in q.link.inFlight && id <= p.link.lastRequestId ==>
          id in p.link.inFlight && (p.link.inFlight[id].Cancelled? ==> q.link.inFlight[id].Cancelled?))
  }

  ghost predicate NetGrows(m: Net, n: Net) {
    && m.gone <= n.gone
    && (forall c :: c in m.peers ==> c in n.peers && LinkGrows(m.peers[c], n.peers[c]))
  }

  /** A request is registered only by the gate section that also copies its cancellation. */
  ghost predicate ReqGrows(r: Req, q: Req, marked: bool, flagged: bool) {
    && SameRequest(r, q)
    && (q.phase.Begun? ==> r.phase.Begun?)
    && (q.phase.Refused? ==> r.phase.Refused?)
    && (q.phase.Running? ==> r.phase.Running? || r.phase.Begun?)
    && (Registered(q.phase) ==> Registered(r.phase) || (r.phase.Begun? && (marked ==> flagged)))
  }

  ghost predicate ReqKept(s: Agent, t: Agent, k: Key)
    requires k in s.requests
  {
    k in t.requests && ReqGrows(s.requests[k], t.requests[k], Marked(s, k), k in t.gate.cancelled)
  }

  ghost predicate ReqNew(net: Net, k: Key, q: Req) {
    && (q.phase.Begun? || q.phase.Refused?) && k.conn in net.peers && !net.peers[k.conn].link.closed
    && net.peers[k.conn].link.lastRequestId < k.id
  }

  /** The epoch of the request holding the vault. */
  function CoreEpoch(s: Agent): Option<nat> {
    if s.vault.Some? && s.vault.value in s.requests then Some(s.requests[s.vault.value].epoch) else None
  }

  /** The vault is entered only under the current epoch of an unlocked agent. */
  predicate CoreKept(s: Agent, t: Agent) {
    CoreEpoch(t) == CoreEpoch(s) || CoreEpoch(t).None?
    || (t.gate == s.gate && CoreEpoch(t) == Some(s.gate.epoch) && s.gate.state == Unlocked)
  }

  ghost predicate Grows(s: Agent, t: Agent) {
    && CoreKept(s, t)
    && s.gate.epoch <= t.gate.epoch && s.gate.cancelled <= t.gate.cancelled
    && NetGrows(s.net, t.net)
    && (forall k :: k in s.requests ==> ReqKept(s, t, k))
    && (forall k :: k in t.requests && k !in s.requests ==> ReqNew(s.net, k, t.requests[k]))
  }

  // ------------------------------------------------- steps inside one request

  /** Only request `k` moves, from a registered phase; links stay; the vault is left. */
  ghost predicate Moves(s: Agent, t: Agent, k: Key) {
    && k in s.requests && k in t.requests && t.requests == s.requests[k := t.requests[k]]
    && SameRequest(s.requests[k], t.requests[k]) && !t.requests[k].phase.Begun? && !t.requests[k].phase.Refused?
    && (Registered(t.requests[k].phase) ==> Registered(s.requests[k].phase))
    && (t.requests[k].phase.Running? ==> s.requests[k].phase.Running?)
    && t.net == s.net && s.gate.cancelled <= t.gate.cancelled
    && s.gate.epoch <= t.gate.epoch <= U64_MAX
    && (t.vault == Leave(s, k).vault
        || (t.vault == s.vault && t.requests[k].phase.Offering? && s.requests[k].phase.Claimed?))
  }

  lemma NetStays(net: Net)
    ensures NetGrows(net, net)
  {
  }

  lemma MovesKeep(s: Agent, t: Agent, k: Key)
    requires Shape(s) && Moves(s, t, k)
    ensures Shape(t) && Grows(s, t)
  {
    NetStays(s.net);
    forall j | j in t.requests ensures ReqOk(t.net, j, t.requests[j]) {
      assert ReqOk(s.net, j, s.requests[j]);
    }
    forall j | j in s.requests ensures ReqKept(s, t, j) { }
  }

  /** No request and no link moves. */
  ghost predicate Still(s: Agent, t: Agent) {
    && t.requests == s.requests && t.net == s.net && s.gate.cancelled <= t.gate.cancelled
    && s.gate.epoch <= t.gate.epoch <= U64_MAX && VaultOk(t) && CoreKept(s, t)
  }

  lemma StillKeeps(s: Agent, t: Agent)
    requires Shape(s) && Still(s, t)
    ensures Shape(t) && Grows(s, t)
  {
    NetStays(s.net);
    forall j | j in t.requests ensures ReqOk(t.net, j, t.requests[j]) {
      assert ReqOk(s.net, j, s.requests[j]);
    }
    forall j | j in s.requests ensures ReqKept(s, t, j) { }
  }

  lemma ConcludeMoves(s: Agent, k: Key, o: Outcome, t: Agent)
    requires s.gate.epoch <= U64_MAX && DoConclude(s, k, o, t)
    ensures Moves(s, t, k)
  {
  }

  lemma DieMoves(s: Agent, k: Key, t: Agent)
    requires s.gate.epoch <= U64_MAX && DoDie(s, k, t)
    ensures Moves(s, t, k)
  {
  }

  lemma FailMoves(s: Agent, k: Key, t: Agent)
    requires s.gate.epoch <= U64_MAX && VaultOk(s)
    requires DoCoreFail(s, k, t) || DoCoreStale(s, k, t) || DoFailGate(s, k, t)
    ensures Moves(s, t, k)
  {
    if DoCoreFail(s, k, t) { return; }
    if DoCoreStale(s, k, t) { return; }
  }

  lemma LockMoves(s: Agent, k: Key, t: Agent)
    requires s.gate.epoch <= U64_MAX && VaultOk(s)
    requires DoLockGate(s, k, t) || DoLockTail(s, k, t) || DoRelease(s, k, t)
    ensures Moves(s, t, k)
  {
    if DoLockGate(s, k, t) { return; }
    if DoLockTail(s, k, t) { return; }
  }

  lemma OpenMoves(s: Agent, k: Key, error: ErrorCode, t: Agent)
    requires s.gate.epoch <= U64_MAX && VaultOk(s)
    requires DoOpenGate(s, k, t) || DoOpenAbort(s, k, error, t) || DoRecoverList(s, k, t)
    ensures Moves(s, t, k)
  {
    if DoOpenGate(s, k, t) { return; }
    if DoOpenAbort(s, k, error, t) { return; }
  }

  lemma PublishMoves(s: Agent, k: Key, bound: bool, t: Agent)
    requires s.gate.epoch <= U64_MAX && VaultOk(s) && DoPublish(s, k, bound, t)
    ensures Moves(s, t, k)
  {
    if t.trace != s.trace { return; }
  }

  lemma CreateMoves(s: Agent, k: Key, t: Agent)
    requires s.gate.epoch <= U64_MAX && VaultOk(s) && DoCreatePublish(s, k, t)
    ensures Moves(s, t, k)
  {
  }

  lemma ClaimMoves(s: Agent, k: Key, t: Agent)
    requires s.gate.epoch <= U64_MAX && VaultOk(s) && (DoClaim(s, k, t) || DoTake(s, k, t))
    ensures Moves(s, t, k)
  {
    if DoClaim(s, k, t) { return; }
  }

  lemma ReadMoves(s: Agent, k: Key, found: Option<(nat, nat)>, token: nat, t: Agent)
    requires s.gate.epoch <= U64_MAX && DoBrowserRead(s, k, found, token, t)
    ensures Moves(s, t, k)
  {
    if s.requests[k].phase.Claimed? { return; }
  }

  lemma WriteMoves(s: Agent, k: Key, t: Agent)
    requires s.gate.epoch <= U64_MAX && DoWriteSlot(s, k, t)
    ensures Moves(s, t, k)
  {
  }

  lemma RollbackMoves(s: Agent, k: Key, t: Agent)
    requires s.gate.epoch <= U64_MAX && (DoReadExpected(s, k, t) || DoRollbackMissing(s, k, t))
    ensures Moves(s, t, k)
  {
    if DoReadExpected(s, k, t) { return; }
  }

  lemma CommitMoves(s: Agent, k: Key, target: nat, acked: bool, t: Agent)
    requires s.gate.epoch <= U64_MAX && DoCommit(s, k, target, acked, t)
    ensures Moves(s, t, k)
  {
    if s.requests[k].op == MakePasskey { return; }
    if s.requests[k].op == ConfirmPasskeyCreation { return; }
    if s.requests[k].op == RollbackPasskeyCreation { return; }
  }

  lemma LifeGrows(s: Agent, a: LifeAction, t: Agent)
    requires Shape(s) && LifeStep(s, a, t)
    ensures Shape(t) && Grows(s, t)
    ensures !a.Shutdown? && !a.RecoverDelete? ==> Moves(s, t, a.key)
  {
    match a {
      case Conclude(k, o) => ConcludeMoves(s, k, o, t);
      case Die(k) => DieMoves(s, k, t);
      case LockGate(k) => LockMoves(s, k, t);
      case LockTail(k) => LockMoves(s, k, t);
      case Release(k) => LockMoves(s, k, t);
      case OpenGate(k) => OpenMoves(s, k, Busy, t);
      case OpenAbort(k, error) => OpenMoves(s, k, error, t);
      case RecoverList(k) => OpenMoves(s, k, Busy, t);
      case Publish(k, bound) => PublishMoves(s, k, bound, t);
      case CreatePublish(k) => CreateMoves(s, k, t);
      case Shutdown =>
        assert Still(s, t);
        StillKeeps(s, t);
        return;
      case RecoverDelete(k, c) =>
        assert Still(s, t);
        StillKeeps(s, t);
        return;
    }
    MovesKeep(s, t, a.key);
  }

  lemma CoreGrows(s: Agent, a: CoreAction, t: Agent)
    requires Shape(s) && CoreStep(s, a, t)
    ensures Shape(t) && Grows(s, t)
    ensures !a.EnterCore? ==> Moves(s, t, a.key)
  {
    match a {
      case EnterCore(k) =>
        assert Still(s, t);
        StillKeeps(s, t);
        return;
      case CoreFail(k) => FailMoves(s, k, t);
      case CoreStale(k) => FailMoves(s, k, t);
      case FailGate(k) => FailMoves(s, k, t);
      case Claim(k) => ClaimMoves(s, k, t);
      case Take(k) => ClaimMoves(s, k, t);
      case BrowserRead(k, found, token) => ReadMoves(s, k, found, token, t);
      case WriteSlot(k) => WriteMoves(s, k, t);
    }
    MovesKeep(s, t, a.key);
  }

  lemma StoreGrows(s: Agent, a: StoreAction, t: Agent)
    requires Shape(s) && StoreStep(s, a, t)
    ensures Shape(t) && Grows(s, t)
    ensures !a.Sweep? && !a.SweepFailGate? ==> Moves(s, t, a.key)
  {
    match a {
      case ReadExpected(k) => RollbackMoves(s, k, t);
      case RollbackMissing(k) => RollbackMoves(s, k, t);
      case Commit(k, target, acked) => CommitMoves(s, k, target, acked, t);
      case Sweep(slot, acked) =>
        assert Still(s, t);
        StillKeeps(s, t);
        return;
      case SweepFailGate =>
        assert Still(s, t);
        StillKeeps(s, t);
        return;
    }
    MovesKeep(s, t, a.key);
  }

  // ------------------------------------------------------- steps on a link

  lemma CallGrows(p: Peer, call: Session.Call)
    requires LinkOk(p)
    ensures LinkGrows(p, p.(link := Session.After(p.profile, p.link, call)))
    ensures LinkOk(p.(link := Session.After(p.profile, p.link, call)))
  {
    Session.StepKeepsInvariant(p.profile, p.link, call);
  }

  /** One link replaced by a later state of itself, and requests that agree with it. */
  ghost predicate Linked(s: Agent, t: Agent, c: nat, link: Session.ConnectionState) {
    && c in s.net.peers && t.net.peers == s.net.peers[c := s.net.peers[c].(link := link)]
    && LinkOk(s.net.peers[c].(link := link)) && LinkGrows(s.net.peers[c], s.net.peers[c].(link := link))
    && s.net.gone <= t.net.gone && t.vault == s.vault
    && s.gate.epoch == t.gate.epoch && s.gate.cancelled <= t.gate.cancelled
  }

  lemma LinkedNet(s: Agent, t: Agent, c: nat, link: Session.ConnectionState)
    requires NetOk(s.net) && Linked(s, t, c, link)
    ensures NetOk(t.net) && NetGrows(s.net, t.net)
  {
    NetStays(s.net);
  }

  /** Links that keep every in-flight identifier keep every request in order. */
  lemma LinkedKeeps(s: Agent, t: Agent, c: nat, link: Session.ConnectionState)
    requires Shape(s) && Linked(s, t, c, link) && t.requests == s.requests
    requires s.net.peers[c].link.inFlight.Keys <= link.inFlight.Keys
    ensures Shape(t) && Grows(s, t)
  {
    LinkedNet(s, t, c, link);
    forall j | j in t.requests ensures ReqOk(t.net, j, t.requests[j]) {
      assert ReqOk(s.net, j, s.requests[j]);
    }
    forall j | j in s.requests ensures ReqKept(s, t, j) { }
  }

  lemma CancelKeeps(s: Agent, c: nat, h: FrameHeader, t: Agent)
    requires Shape(s) && DoCancel(s, c, h, t)
    ensures Shape(t) && Grows(s, t)
  {
    var peer := s.net.peers[c];
    CallGrows(peer, Session.CancelCall(h));
    LinkedKeeps(s, t, c, Session.CancelRequest(peer.profile, peer.link, h));
  }

  lemma DisconnectKeeps(s: Agent, c: nat, t: Agent)
    requires Shape(s) && DoDisconnect(s, c, t)
    ensures Shape(t) && Grows(s, t)
  {
    CallGrows(s.net.peers[c], Session.CloseCall);
    LinkedKeeps(s, t, c, Session.Close(s.net.peers[c].link));
  }

  lemma MisbehaveKeeps(s: Agent, c: nat, t: Agent)
    requires Shape(s) && c in s.net.peers && t == Relink(s, c, Session.Shut(s.net.peers[c].link))
    ensures Shape(t) && Grows(s, t)
  {
    assert LinkOk(s.net.peers[c]);
    LinkedKeeps(s, t, c, Session.Shut(s.net.peers[c].link));
  }

  lemma ConnectKeeps(s: Agent, c: nat, p: Session.Profile, t: Agent)
    requires Shape(s) && DoConnect(s, c, p, t)
    ensures Shape(t) && Grows(s, t)
  {
    forall j | j in t.requests ensures ReqOk(t.net, j, t.requests[j]) {
      assert ReqOk(s.net, j, s.requests[j]);
    }
    forall j | j in s.requests ensures ReqKept(s, t, j) { }
  }

  /** One link replaced and one request, in order by itself, entered or moved. */
  ghost predicate Relinked(s: Agent, t: Agent, k: Key, link: Session.ConnectionState) {
    && Linked(s, t, k.conn, link)
    && k in t.requests && t.requests == s.requests[k := t.requests[k]] && s.vault != Some(k)
    && (forall id :: id in s.net.peers[k.conn].link.inFlight && id != k.id ==> id in link.inFlight)
  }

  lemma RelinkedOther(s: Agent, t: Agent, k: Key, link: Session.ConnectionState, j: Key)
    requires Relinked(s, t, k, link) && j in s.requests && j != k
    requires ReqOk(s.net, j, s.requests[j])
    requires LinkGrows(s.net.peers[k.conn], t.net.peers[k.conn])
    ensures ReqOk(t.net, j, t.requests[j]) && ReqKept(s, t, j)
  {
  }

  lemma RelinkedKeeps(s: Agent, t: Agent, k: Key, link: Session.ConnectionState)
    requires Shape(s) && Relinked(s, t, k, link)
    requires ReqOk(t.net, k, t.requests[k])
    requires k in s.requests ==> ReqKept(s, t, k)
    requires k !in s.requests ==> ReqNew(s.net, k, t.requests[k])
    ensures Shape(t) && Grows(s, t)
  {
    LinkedNet(s, t, k.conn, link);
    forall j | j in t.requests ensures ReqOk(t.net, j, t.requests[j]) {
      if j != k { RelinkedOther(s, t, k, link, j); }
    }
    forall j | j in s.requests ensures ReqKept(s, t, j) {
      if j != k { RelinkedOther(s, t, k, link, j); }
    }
  }

  /** A request leaves its link and is no longer registered. */
  lemma UnlinkKeeps(s: Agent, k: Key, p: Phase, t: Agent)
    requires Shape(s) && k in s.requests && k.conn in s.net.peers && k.id in s.net.peers[k.conn].link.inFlight
    requires !p.Begun? && !p.Refused? && !p.Running? && !Registered(p) && s.vault != Some(k)
    requires t.net == Unlink(s, k).net && t.requests == At(s, k, p).requests
    requires t.gate == s.gate && t.vault == s.vault
    ensures Shape(t) && Grows(s, t)
  {
    var link := Session.Finish(s.net.peers[k.conn].link, k.id);
    CallGrows(s.net.peers[k.conn], Session.FinishCall(k.id));
    assert ReqOk(s.net, k, s.requests[k]);
    assert ReqKept(s, t, k);
    RelinkedKeeps(s, t, k, link);
  }

  lemma BeginKeeps(s: Agent, a: LinkAction, t: Agent)
    requires Shape(s) && a.Begin?
    requires DoBegin(s, a.conn, a.header, a.envelope, a.observed, a.context, a.selection, a.tx, a.cred, t)
    ensures Shape(t) && Grows(s, t)
  {
    var peer := s.net.peers[a.conn];
    var (link, reply) := Session.Begin(peer.profile, peer.link, a.header, a.envelope, a.observed);
    CallGrows(peer, Session.BeginCall(a.header, a.envelope, a.observed));
    if reply.Fatal? {
      LinkedKeeps(s, t, a.conn, link);
    } else {
      Session.IssueFacts(peer.profile, peer.link, a.header, a.envelope, a.observed);
      Enters(s, Key(a.conn, a.header.requestId), link, t);
    }
  }

  /** A request with a new identifier enters, with or without a permit. */
  lemma Enters(s: Agent, k: Key, link: Session.ConnectionState, t: Agent)
    requires Shape(s) && k.conn in s.net.peers && !s.net.peers[k.conn].link.closed
    requires s.net.peers[k.conn].link.lastRequestId < k.id == link.lastRequestId
    requires s.net.peers[k.conn].link.inFlight.Keys <= link.inFlight.Keys
    requires Linked(s, t, k.conn, link) && k in t.requests && t.requests == s.requests[k := t.requests[k]]
    requires t.requests[k].phase.Refused? || (t.requests[k].phase.Begun? && k.id in link.inFlight)
    ensures k !in s.requests && Shape(t) && Grows(s, t)
  {
    assert k in s.requests ==> ReqOk(s.net, k, s.requests[k]);
    RelinkedKeeps(s, t, k, link);
  }

  lemma AdmitKeeps(s: Agent, k: Key, t: Agent)
    requires Shape(s) && DoAdmit(s, k, t)
    ensures Shape(t) && Grows(s, t)
  {
    NetStays(s.net);
    forall j | j in t.requests ensures ReqOk(t.net, j, t.requests[j]) {
      assert ReqOk(s.net, j, s.requests[j]);
    }
    forall j | j in s.requests ensures ReqKept(s, t, j) { }
  }

  lemma RejectKeeps(s: Agent, k: Key, t: Agent)
    requires Shape(s) && DoReject(s, k, t)
    ensures Shape(t) && Grows(s, t)
  {
    assert ReqOk(s.net, k, s.requests[k]);
    if s.requests[k].phase.Begun? {
      UnlinkKeeps(s, k, Answered, t);
    } else {
      MovesKeep(s, t, k);
    }
  }

  lemma LinkStepGrows(s: Agent, a: LinkAction, t: Agent)
    requires Shape(s) && LinkStep(s, a, t)
    ensures Shape(t) && Grows(s, t)
  {
    match a {
      case Connect(c, p) => ConnectKeeps(s, c, p, t);
      case Misbehave(c) => MisbehaveKeeps(s, c, t);
      case Begin(_, _, _, _, _, _, _, _) => BeginKeeps(s, a, t);
      case Admit(k) => AdmitKeeps(s, k, t);
      case Reject(k) => RejectKeeps(s, k, t);
      case ApplyCancel(c, h) => CancelKeeps(s, c, h, t);
      case Disconnect(c) => DisconnectKeeps(s, c, t);
      case Finish(k, fits) =>
        UnlinkKeeps(s, k, if s.requests[k].phase.outcome.holdsLock then Releasing else Answered, t);
      case Tick(to) => StillKeeps(s, t);
    }
  }

  /** Every step keeps the shape, and the past of every request. */
  lemma StepGrows(s: Agent, a: Action, t: Agent)
    requires Shape(s) && Step(s, a, t)
    ensures Shape(t) && Grows(s, t)
  {
    match a
    case Link(l) => LinkStepGrows(s, l, t);
    case Life(l) => LifeGrows(s, l, t);
    case Core(c) => CoreGrows(s, c, t);
    case Store(c) => StoreGrows(s, c, t);
  }
}
