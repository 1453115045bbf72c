/** Two-phase passkey creation over whole runs. */
module DispatchPasskeys {
  import opened Base
  import opened Tables
  import Session
  import opened Dispatch
  import opened DispatchFrame
  import opened DispatchOrder

  // ------------------------------------------------------------- invariant

  ghost predicate EntryOk(ring: Ring, gone: set<nat>, epoch: nat, slot: PendingKey, x: Pending) {
    && !(x.confirmed && x.disconnected)
    && (slot.conn in gone ==> x.disconnected)
    && x.epoch <= epoch
    && x.cred in ring.binding && ring.binding[x.cred] == Binding(slot.conn, slot.tx, x.pid, x.epoch)
  }

  ghost predicate RingOk(ring: Ring, gone: set<nat>, epoch: nat) {
    && ring.passkeys.Keys <= ring.made && ring.binding.Keys <= ring.made
    && (forall slot :: slot in ring.pending ==> EntryOk(ring, gone, epoch, slot, ring.pending[slot]))
  }

  /** The first request of an entry's connection made it and is past its commit. */
  ghost predicate MadeBy(requests: map<Key, Req>, slot: PendingKey) {
    && Key(slot.conn, 1) in requests
    && !requests[Key(slot.conn, 1)].phase.Begun? && !requests[Key(slot.conn, 1)].phase.Running?
  }

  /** A rollback that read its entry is bound as the creation was. */
  ghost predicate ExpectedOk(ring: Ring, k: Key, r: Req) {
    r.expected.Some? ==> r.cred in ring.binding && ring.binding[r.cred] == BindingOf(k, r)
  }

  /** What recovery listed stays tentative: nothing listed can be confirmed any more. */
  ghost predicate ListOk(ring: Ring, g: Gate, core: Option<nat>, listed: set<nat>, at: nat) {
    && listed <= ring.made && at <= g.epoch
    && (forall c :: c in listed && c in ring.passkeys ==> ring.passkeys[c] == Tentative)
    && (forall slot :: slot in ring.pending && ring.pending[slot].cred in listed ==> ring.pending[slot].epoch <= at)
    && (at == g.epoch ==> g.state != Unlocked && core != Some(at))
  }

  ghost predicate RecoverOk(ring: Ring, g: Gate, core: Option<nat>, r: Req) {
    r.phase.Recovering? ==> ListOk(ring, g, core, r.phase.listed, r.phase.at)
  }

  /** The creation was confirmed and the confirmation acknowledged. */
  predicate ConfirmAck(e: Event, c: nat) { e.Durable? && e.change == PasskeyConfirmed(c) && e.acked }

  ghost predicate Settled(ring: Ring, c: nat) {
    && c in ring.made && (c in ring.passkeys ==> ring.passkeys[c] == Confirmed)
    && (forall slot :: slot in ring.pending && ring.pending[slot].cred == c ==> ring.pending[slot].confirmed)
  }

  ghost predicate Recorded(ring: Ring, e: Event) {
    e.Durable? ==>
      match e.change
      case PasskeyMade(c) => c in ring.binding && e.binding == Some(ring.binding[c])
      case PasskeyRolledBack(c) => c in ring.binding && e.binding == Some(ring.binding[c])
      case PasskeyConfirmed(c) =>
        && c in ring.binding && e.binding == Some(ring.binding[c])
        && (e.acked ==> Settled(ring, c))
      case _ => true
  }

  ghost predicate Creations(s: Agent) {
    && RingOk(s.ring, s.net.gone, s.gate.epoch)
    && (forall slot :: slot in s.ring.pending ==> MadeBy(s.requests, slot))
    && (forall k :: k in s.requests ==> ExpectedOk(s.ring, k, s.requests[k]))
    && (forall k :: k in s.requests ==> RecoverOk(s.ring, s.gate, CoreEpoch(s), s.requests[k]))
    && (forall i :: 0 <= i < |s.trace| ==> Recorded(s.ring, s.trace[i]))
  }

  // ---------------------------------------------- steps beside the passkeys

  /** A recovery list or a rollback binding is an old one, or in order by itself. */
  ghost predicate ReqBeside(s: Agent, t: Agent, k: Key)
    requires k in t.requests
  {
    && ((t.requests[k].expected.Some? ==>
           k in s.requests && SameRequest(s.requests[k], t.requests[k]) && s.requests[k].expected.Some?)
        || ExpectedOk(t.ring, k, t.requests[k]))
    && ((t.requests[k].phase.Recovering? ==> k in s.requests && s.requests[k].phase == t.requests[k].phase)
        || RecoverOk(t.ring, t.gate, CoreEpoch(t), t.requests[k]))
  }

  /** The step leaves passkeys and pending entries alone. */
  ghost predicate Beside(s: Agent, t: Agent) {
    && t.ring == s.ring && t.net.gone == s.net.gone
    && (forall i :: |s.trace| <= i < |t.trace| ==> Recorded(t.ring, t.trace[i]) && !t.trace[i].Swept?)
    && (forall k :: k in t.requests ==> ReqBeside(s, t, k))
    && CoreKept(s, t)
  }

  predicate Onward(r: Req, q: Req) {
    !r.phase.Begun? && !r.phase.Running? ==> !q.phase.Begun? && !q.phase.Running?
  }

  /** The monotone part of a step, apart from links and passkeys. */
  ghost predicate Smooth(s: Agent, t: Agent) {
    && s.gate.epoch <= t.gate.epoch
    && (t.gate.state == Unlocked ==> s.gate.state == Unlocked || s.gate.epoch < t.gate.epoch)
    && |s.trace| <= |t.trace| && t.trace[..|s.trace|] == s.trace
    && (forall k :: k in s.requests ==> k in t.requests && Onward(s.requests[k], t.requests[k]))
  }

  lemma StepIsSmooth(s: Agent, t: Agent)
    requires Grows(s, t) && Turns(s, t)
    ensures Smooth(s, t)
  {
    forall k | k in s.requests ensures k in t.requests && Onward(s.requests[k], t.requests[k]) {
      assert ReqKept(s, t, k);
    }
  }

  lemma ListStays(ring: Ring, g: Gate, core: Option<nat>, h: Gate, next: Option<nat>, listed: set<nat>, at: nat)
    requires ListOk(ring, g, core, listed, at)
    requires g.epoch <= h.epoch && (h.state == Unlocked ==> g.state == Unlocked || g.epoch < h.epoch)
    requires next == core || next.None? || (h == g && next == Some(g.epoch) && g.state == Unlocked)
    ensures ListOk(ring, h, next, listed, at)
  {
  }

  lemma BesideKeeps(s: Agent, t: Agent)
    requires Creations(s) && Smooth(s, t) && Beside(s, t)
    ensures Creations(t)
  {
    forall slot | slot in t.ring.pending ensures MadeBy(t.requests, slot) {
      assert MadeBy(s.requests, slot);
      assert Onward(s.requests[Key(slot.conn, 1)], t.requests[Key(slot.conn, 1)]);
    }
    forall k | k in t.requests ensures ExpectedOk(t.ring, k, t.requests[k]) {
      assert ReqBeside(s, t, k);
      if k in s.requests { assert ExpectedOk(s.ring, k, s.requests[k]); }
    }
    forall k | k in t.requests ensures RecoverOk(t.ring, t.gate, CoreEpoch(t), t.requests[k]) {
      assert ReqBeside(s, t, k);
      var p := t.requests[k].phase;
      if p.Recovering? && k in s.requests && s.requests[k].phase == p {
        assert RecoverOk(s.ring, s.gate, CoreEpoch(s), s.requests[k]);
        ListStays(s.ring, s.gate, CoreEpoch(s), t.gate, CoreEpoch(t), p.listed, p.at);
      }
    }
    forall i | 0 <= i < |t.trace| ensures Recorded(t.ring, t.trace[i]) {
      if i < |s.trace| {
        assert Recorded(s.ring, s.trace[i]);
        assert t.trace[i] == t.trace[..|s.trace|][i];
      }
    }
  }

  /** One request moves, outside recovery and without a new binding. */
  ghost predicate Glides(s: Agent, t: Agent, k: Key) {
    && k in s.requests && k in t.requests
    && t.ring == s.ring && t.requests[k].expected == s.requests[k].expected && !t.requests[k].phase.Recovering?
    && (forall i :: |s.trace| <= i < |t.trace| ==> Recorded(t.ring, t.trace[i]) && !t.trace[i].Swept?)
  }

  lemma GlidesBeside(s: Agent, t: Agent, k: Key)
    requires Moves(s, t, k) && Glides(s, t, k)
    ensures Beside(s, t)
  {
    forall j | j in t.requests ensures ReqBeside(s, t, j) { }
  }

  lemma LockGlides(s: Agent, a: LifeAction, t: Agent)
    requires LifeStep(s, a, t) && (a.Conclude? || a.Die? || a.LockGate? || a.LockTail? || a.Release?)
    ensures Glides(s, t, a.key)
  {
    if a.Conclude? { return; }
    if a.Die? { return; }
    if a.LockGate? { return; }
  }

  lemma PublishGlides(s: Agent, k: Key, bound: bool, t: Agent)
    requires DoPublish(s, k, bound, t)
    ensures Glides(s, t, k)
  {
    if t.trace != s.trace { return; }
  }

  lemma LifeGlides(s: Agent, a: LifeAction, t: Agent)
    requires LifeStep(s, a, t) && !a.Shutdown? && !a.RecoverList? && !a.RecoverDelete?
    ensures Glides(s, t, a.key)
  {
    if a.OpenGate? { return; }
    if a.OpenAbort? { return; }
    if a.CreatePublish? { return; }
    if a.Publish? {
      PublishGlides(s, a.key, a.bound, t);
      return;
    }
    LockGlides(s, a, t);
  }

  lemma ReadGlides(s: Agent, k: Key, found: Option<(nat, nat)>, token: nat, t: Agent)
    requires DoBrowserRead(s, k, found, token, t)
    ensures Glides(s, t, k)
  {
    if s.requests[k].phase.Claimed? { return; }
  }

  lemma CoreGlides(s: Agent, a: CoreAction, t: Agent)
    requires CoreStep(s, a, t) && !a.EnterCore?
    ensures Glides(s, t, a.key)
  {
    if a.BrowserRead? {
      ReadGlides(s, a.key, a.found, a.token, t);
      return;
    }
    if a.FailGate? { return; }
    if a.Claim? { return; }
    if a.Take? { return; }
    if a.WriteSlot? { return; }
  }

  lemma CommitGlides(s: Agent, k: Key, target: nat, acked: bool, t: Agent)
    requires DoCommit(s, k, target, acked, t)
    requires s.requests[k].op in {AddAccount, UpdateAccount, DeleteAccount, GetPasskeyAssertion}
    ensures Glides(s, t, k)
  {
  }

  /** No request moves, or only a new one appears. */
  lemma QuietBeside(s: Agent, t: Agent, k: Key)
    requires VaultOk(s) && t.vault == s.vault && t.ring == s.ring && t.net.gone == s.net.gone
    requires t.requests == s.requests
             || (k !in s.requests && k in t.requests && t.requests == s.requests[k := t.requests[k]]
                 && t.requests[k].expected.None? && !t.requests[k].phase.Recovering?)
    requires forall i :: |s.trace| <= i < |t.trace| ==> !t.trace[i].Durable? && !t.trace[i].Swept?
    ensures Beside(s, t)
  {
    forall j | j in t.requests ensures ReqBeside(s, t, j) { }
  }

  lemma BeginBeside(s: Agent, a: LinkAction, t: Agent)
    requires Shape(s) && a.Begin?
    requires DoBegin(s, a.conn, a.header, a.envelope, a.observed, a.context, a.selection, a.tx, a.cred, t)
    ensures Beside(s, t)
  {
    var k := Key(a.conn, a.header.requestId);
    var peer := s.net.peers[a.conn];
    if !Session.Begin(peer.profile, peer.link, a.header, a.envelope, a.observed).1.Fatal? {
      Session.IssueFacts(peer.profile, peer.link, a.header, a.envelope, a.observed);
      assert k in s.requests ==> ReqOk(s.net, k, s.requests[k]);
    }
    QuietBeside(s, t, k);
  }

  lemma AnswerBeside(s: Agent, k: Key, fits: bool, t: Agent)
    requires VaultOk(s) && (DoAdmit(s, k, t) || DoReject(s, k, t) || DoFinish(s, k, fits, t))
    ensures Beside(s, t)
  {
    forall j | j in t.requests ensures ReqBeside(s, t, j) { }
    if DoAdmit(s, k, t) { return; }
    if DoReject(s, k, t) { return; }
  }

  lemma LinkBeside(s: Agent, a: LinkAction, t: Agent)
    requires LinkStep(s, a, t) && !a.Disconnect? && Shape(s)
    ensures Beside(s, t)
  {
    match a {
      case Begin(_, _, _, _, _, _, _, _) => BeginBeside(s, a, t);
      case Finish(k, fits) => AnswerBeside(s, k, fits, t);
      case Admit(k) => AnswerBeside(s, k, true, t);
      case Reject(k) => AnswerBeside(s, k, true, t);
      case Connect(_, _) => QuietBeside(s, t, Key(0, 0));
      case Misbehave(_) => QuietBeside(s, t, Key(0, 0));
      case ApplyCancel(_, _) => QuietBeside(s, t, Key(0, 0));
      case Tick(_) => QuietBeside(s, t, Key(0, 0));
    }
  }

  // ------------------------------------------------------ the two phases

  /** A pending entry changed or removed, or a passkey dropped: bindings and lists stay good. */
  ghost predicate Shrinks(r: Ring, q: Ring) {
    && q.binding == r.binding && q.made == r.made
    && q.passkeys.Keys <= r.passkeys.Keys && (forall c :: c in q.passkeys ==> q.passkeys[c] == r.passkeys[c])
    && (forall slot :: slot in q.pending ==>
          slot in r.pending && q.pending[slot] == r.pending[slot].(disconnected := q.pending[slot].disconnected))
  }

  lemma RecordedShrinks(r: Ring, q: Ring, e: Event)
    requires Shrinks(r, q) && Recorded(r, e)
    ensures Recorded(q, e)
  {
  }

  lemma ListShrinks(r: Ring, q: Ring, g: Gate, core: Option<nat>, listed: set<nat>, at: nat)
    requires Shrinks(r, q) && ListOk(r, g, core, listed, at)
    ensures ListOk(q, g, core, listed, at)
  {
  }

  lemma ShrinksKeeps(s: Agent, q: Ring)
    requires Creations(s) && Shrinks(s.ring, q)
    requires RingOk(q, s.net.gone, s.gate.epoch)
    ensures Creations(s.(ring := q))
  {
    var t := s.(ring := q);
    forall k | k in t.requests ensures ExpectedOk(q, k, t.requests[k]) {
      assert ExpectedOk(s.ring, k, s.requests[k]);
    }
    forall k | k in t.requests ensures RecoverOk(q, t.gate, CoreEpoch(t), t.requests[k]) {
      assert RecoverOk(s.ring, s.gate, CoreEpoch(s), s.requests[k]);
      if t.requests[k].phase.Recovering? {
        ListShrinks(s.ring, q, s.gate, CoreEpoch(s), t.requests[k].phase.listed, t.requests[k].phase.at);
      }
    }
    forall i | 0 <= i < |t.trace| ensures Recorded(q, t.trace[i]) { RecordedShrinks(s.ring, q, s.trace[i]); }
  }

  /** Entries untouched or removed keep every entry good. */
  lemma RemovalRingOk(r: Ring, q: Ring, gone: set<nat>, epoch: nat)
    requires RingOk(r, gone, epoch) && Shrinks(r, q)
    requires forall slot :: slot in q.pending ==> q.pending[slot] == r.pending[slot]
    ensures RingOk(q, gone, epoch)
  {
    forall slot | slot in q.pending ensures EntryOk(q, gone, epoch, slot, q.pending[slot]) {
      assert EntryOk(r, gone, epoch, slot, r.pending[slot]);
    }
  }

  lemma DropShrinks(r: Ring, q: Ring, gone: set<nat>, epoch: nat, cred: nat, slot: PendingKey)
    requires RingOk(r, gone, epoch)
    requires q.binding == r.binding && q.made == r.made
    requires q.passkeys == r.passkeys || q.passkeys == r.passkeys - {cred}
    requires q.pending == r.pending || q.pending == r.pending - {slot}
    ensures Shrinks(r, q) && RingOk(q, gone, epoch)
  {
    RemovalRingOk(r, q, gone, epoch);
  }

  lemma SweepKeeps(s: Agent, slot: PendingKey, acked: bool, t: Agent)
    requires Creations(s) && DoSweep(s, slot, acked, t)
    ensures Creations(t)
  {
    DropShrinks(s.ring, t.ring, s.net.gone, s.gate.epoch, s.ring.pending[slot].cred, slot);
    ShrinksKeeps(s, t.ring);
    assert t.requests == s.requests && t.gate == s.gate && CoreEpoch(t) == CoreEpoch(s);
  }

  lemma RecoverDeleteKeeps(s: Agent, k: Key, c: nat, t: Agent)
    requires Creations(s) && DoRecoverDelete(s, k, c, t)
    ensures Creations(t)
  {
    DropShrinks(s.ring, t.ring, s.net.gone, s.gate.epoch, c, PendingKey(0, 0));
    ShrinksKeeps(s, t.ring);
    assert t.requests == s.requests && t.gate == s.gate && CoreEpoch(t) == CoreEpoch(s);
  }

  /** A commit that changes the ring first, then moves its request. */
  lemma RingThenMove(s: Agent, t: Agent, k: Key)
    requires Creations(s.(ring := t.ring)) && Moves(s, t, k) && Smooth(s, t)
    requires t.requests[k].expected == s.requests[k].expected && !t.requests[k].phase.Recovering?
    requires forall i :: |s.trace| <= i < |t.trace| ==> Recorded(t.ring, t.trace[i]) && !t.trace[i].Swept?
    ensures Creations(t)
  {
    var u := s.(ring := t.ring);
    assert Moves(u, t, k);
    GlidesBeside(u, t, k);
    assert Smooth(u, t);
    BesideKeeps(u, t);
  }

  lemma RemovalKeeps(s: Agent, k: Key, acked: bool, t: Agent)
    requires Creations(s) && Smooth(s, t) && Moves(s, t, k)
    requires MayCommit(s, k) && (CommitRemove(s, k, acked, t) || CommitRollback(s, k, acked, t))
    ensures Creations(t)
  {
    var r := s.requests[k];
    assert ExpectedOk(s.ring, k, r);
    DropShrinks(s.ring, t.ring, s.net.gone, s.gate.epoch, r.cred, SlotOf(k, r));
    ShrinksKeeps(s, t.ring);
    RingThenMove(s, t, k);
  }

  lemma RollbackMissingKeeps(s: Agent, k: Key, t: Agent)
    requires Creations(s) && Smooth(s, t) && Moves(s, t, k) && DoRollbackMissing(s, k, t)
    ensures Creations(t)
  {
    DropShrinks(s.ring, t.ring, s.net.gone, s.gate.epoch, 0, SlotOf(k, s.requests[k]));
    ShrinksKeeps(s, t.ring);
    RingThenMove(s, t, k);
  }

  lemma DisconnectShrinks(r: Ring, q: Ring, gone: set<nat>, epoch: nat, c: nat)
    requires RingOk(r, gone, epoch) && q == r.(pending := Disconnected(r.pending, c))
    ensures Shrinks(r, q) && RingOk(q, gone + {c}, epoch)
  {
    forall slot | slot in q.pending ensures EntryOk(q, gone + {c}, epoch, slot, q.pending[slot]) {
      assert EntryOk(r, gone, epoch, slot, r.pending[slot]);
    }
  }

  lemma DisconnectCreations(s: Agent, c: nat, t: Agent)
    requires Creations(s) && DoDisconnect(s, c, t)
    ensures Creations(t)
  {
    DisconnectShrinks(s.ring, t.ring, s.net.gone, s.gate.epoch, c);
    var q := t.ring;
    forall k | k in t.requests ensures RecoverOk(q, t.gate, CoreEpoch(t), t.requests[k]) {
      assert RecoverOk(s.ring, s.gate, CoreEpoch(s), s.requests[k]);
      if t.requests[k].phase.Recovering? {
        ListShrinks(s.ring, q, s.gate, CoreEpoch(s), t.requests[k].phase.listed, t.requests[k].phase.at);
      }
    }
    forall k | k in t.requests ensures ExpectedOk(q, k, t.requests[k]) { assert ExpectedOk(s.ring, k, s.requests[k]); }
    forall i | 0 <= i < |t.trace| ensures Recorded(q, t.trace[i]) {
      if i < |s.trace| { RecordedShrinks(s.ring, q, s.trace[i]); }
    }
  }

  lemma RecoverListKeeps(s: Agent, k: Key, t: Agent)
    requires Creations(s) && Smooth(s, t) && Moves(s, t, k) && DoRecoverList(s, k, t)
    ensures Creations(t)
  {
    var p := t.requests[k].phase;
    assert ListOk(t.ring, t.gate, CoreEpoch(t), p.listed, p.at) by {
      forall slot | slot in t.ring.pending ensures t.ring.pending[slot].epoch <= p.at {
        assert EntryOk(s.ring, s.net.gone, s.gate.epoch, slot, s.ring.pending[slot]);
      }
    }
    forall j | j in t.requests ensures ReqBeside(s, t, j) { }
    BesideKeeps(s, t);
  }

  lemma ReadExpectedKeeps(s: Agent, k: Key, t: Agent)
    requires Creations(s) && Smooth(s, t) && Moves(s, t, k) && DoReadExpected(s, k, t)
    ensures Creations(t)
  {
    var r := s.requests[k];
    var slot := SlotOf(k, r);
    if slot in s.ring.pending && Owns(r, s.ring.pending[slot]) {
      assert EntryOk(s.ring, s.net.gone, s.gate.epoch, slot, s.ring.pending[slot]);
      assert ExpectedOk(t.ring, k, t.requests[k]);
    }
    forall j | j in t.requests ensures ReqBeside(s, t, j) { }
    BesideKeeps(s, t);
  }

  // ------------------------------------------------------------- creation

  /** One fresh credential bound, tentative, and possibly entered under one new slot. */
  ghost predicate Adds(r: Ring, q: Ring, cred: nat, slot: PendingKey, x: Pending) {
    && cred !in r.made && slot !in r.pending && x.cred == cred && !x.confirmed && !x.disconnected
    && q.passkeys == r.passkeys[cred := Tentative] && q.made == r.made + {cred}
    && q.binding == r.binding[cred := Binding(slot.conn, slot.tx, x.pid, x.epoch)]
    && (q.pending == r.pending || q.pending == r.pending[slot := x])
  }

  lemma AddsRingOk(r: Ring, q: Ring, gone: set<nat>, epoch: nat, cred: nat, slot: PendingKey, x: Pending)
    requires RingOk(r, gone, epoch) && Adds(r, q, cred, slot, x) && slot.conn !in gone && x.epoch <= epoch
    ensures RingOk(q, gone, epoch)
  {
    forall y | y in q.pending ensures EntryOk(q, gone, epoch, y, q.pending[y]) {
      if y in r.pending { assert EntryOk(r, gone, epoch, y, r.pending[y]); }
    }
  }

  lemma RecordedAdds(r: Ring, q: Ring, e: Event, cred: nat, slot: PendingKey, x: Pending)
    requires Adds(r, q, cred, slot, x) && r.binding.Keys <= r.made && Recorded(r, e)
    ensures Recorded(q, e)
  {
  }

  lemma AddsKeeps(s: Agent, q: Ring, cred: nat, slot: PendingKey, x: Pending)
    requires Creations(s) && Adds(s.ring, q, cred, slot, x) && RingOk(q, s.net.gone, s.gate.epoch)
    requires MadeBy(s.requests, slot)
    ensures Creations(s.(ring := q))
  {
    var t := s.(ring := q);
    forall k | k in t.requests ensures ExpectedOk(q, k, t.requests[k]) {
      assert ExpectedOk(s.ring, k, s.requests[k]);
    }
    forall k | k in t.requests ensures RecoverOk(q, t.gate, CoreEpoch(t), t.requests[k]) {
      assert RecoverOk(s.ring, s.gate, CoreEpoch(s), s.requests[k]);
    }
    forall i | 0 <= i < |t.trace| ensures Recorded(q, t.trace[i]) {
      RecordedAdds(s.ring, q, s.trace[i], cred, slot, x);
    }
  }

  /** The slot a creation fills is free: its connection's first request is the creation itself. */
  lemma FreshSlot(s: Agent, k: Key, cred: nat, acked: bool, t: Agent)
    requires Creations(s) && MayCommit(s, k) && CommitMake(s, k, cred, acked, t)
    ensures SlotOf(k, s.requests[k]) !in s.ring.pending
  {
    assert SlotOf(k, s.requests[k]) in s.ring.pending ==> MadeBy(s.requests, SlotOf(k, s.requests[k]));
  }

  lemma MakeKeeps(s: Agent, k: Key, cred: nat, acked: bool, t: Agent)
    requires Creations(s) && Smooth(s, t) && Moves(s, t, k) && k.conn !in s.net.gone
    requires MayCommit(s, k) && CommitMake(s, k, cred, acked, t)
    ensures Creations(t)
  {
    var r := s.requests[k];
    var slot, x := SlotOf(k, r), Pending(cred, r.pid, r.epoch, false, false);
    FreshSlot(s, k, cred, acked, t);
    var u := t.(ring := s.ring, trace := s.trace);
    assert Moves(s, u, k) && Smooth(s, u);
    GlidesBeside(s, u, k);
    BesideKeeps(s, u);
    AddsRingOk(s.ring, t.ring, u.net.gone, u.gate.epoch, cred, slot, x);
    AddsKeeps(u, t.ring, cred, slot, x);
    EventKept(u.(ring := t.ring), t, t.trace[|s.trace|]);
  }

  lemma EventKept(s: Agent, t: Agent, e: Event)
    requires Creations(s) && t == Emit(s, e) && Recorded(s.ring, e)
    ensures Creations(t)
  {
    assert CoreEpoch(t) == CoreEpoch(s);
  }

  // --------------------------------------------------------- confirmation

  ghost predicate Confirms(r: Ring, q: Ring, slot: PendingKey) {
    && slot in r.pending && !r.pending[slot].disconnected
    && q.binding == r.binding && q.made == r.made
    && r.pending[slot].cred in r.passkeys && q.passkeys == r.passkeys[r.pending[slot].cred := Confirmed]
    && (q.pending == r.pending || q.pending == r.pending[slot := r.pending[slot].(confirmed := true)])
  }

  lemma ConfirmsRing(r: Ring, q: Ring, gone: set<nat>, epoch: nat, slot: PendingKey)
    requires RingOk(r, gone, epoch) && Confirms(r, q, slot)
    ensures RingOk(q, gone, epoch)
    ensures q.pending != r.pending ==> Settled(q, r.pending[slot].cred)
    ensures r.pending[slot].cred in r.binding
  {
    assert EntryOk(r, gone, epoch, slot, r.pending[slot]);
    forall y | y in q.pending ensures EntryOk(q, gone, epoch, y, q.pending[y]) {
      assert EntryOk(r, gone, epoch, y, r.pending[y]);
    }
  }

  lemma RecordedConfirms(r: Ring, q: Ring, slot: PendingKey, e: Event)
    requires Confirms(r, q, slot) && Recorded(r, e)
    ensures Recorded(q, e)
  {
  }

  lemma ConfirmsKeeps(s: Agent, q: Ring, slot: PendingKey)
    requires Creations(s) && Confirms(s.ring, q, slot)
    requires s.ring.pending[slot].epoch == s.gate.epoch && CoreEpoch(s) == Some(s.gate.epoch)
    ensures Creations(s.(ring := q))
  {
    var t := s.(ring := q);
    ConfirmsRing(s.ring, q, s.net.gone, s.gate.epoch, slot);
    forall k | k in t.requests ensures ExpectedOk(q, k, t.requests[k]) {
      assert ExpectedOk(s.ring, k, s.requests[k]);
    }
    forall k | k in t.requests ensures RecoverOk(q, t.gate, CoreEpoch(t), t.requests[k]) {
      assert RecoverOk(s.ring, s.gate, CoreEpoch(s), s.requests[k]);
    }
    forall i | 0 <= i < |t.trace| ensures Recorded(q, t.trace[i]) { RecordedConfirms(s.ring, q, slot, s.trace[i]); }
  }

  lemma ConfirmKeeps(s: Agent, k: Key, acked: bool, t: Agent)
    requires Creations(s) && Smooth(s, t) && Moves(s, t, k)
    requires MayCommit(s, k) && CommitConfirm(s, k, acked, t)
    ensures Creations(t)
  {
    var r := s.requests[k];
    var slot := SlotOf(k, r);
    ConfirmsKeeps(s, t.ring, slot);
    ConfirmsRing(s.ring, t.ring, s.net.gone, s.gate.epoch, slot);
    assert EntryOk(s.ring, s.net.gone, s.gate.epoch, slot, s.ring.pending[slot]);
    if acked { assert t.ring.pending[slot] != s.ring.pending[slot]; }
    RingThenMove(s, t, k);
  }

  // ----------------------------------------------------------- every step

  /** The event takes passkey `c` out of the store. */
  predicate Lost(e: Event, c: nat) {
    e == Swept(c) || (e.Durable? && (e.change == PasskeyRemoved(c) || e.change == PasskeyRolledBack(c)))
  }

  /** A passkey disappears only with its event, and no settled one is swept. */
  ghost predicate Careful(s: Agent, t: Agent) {
    && (forall c :: c in s.ring.passkeys && c !in t.ring.passkeys ==>
          |t.trace| == |s.trace| + 1 && Lost(t.trace[|s.trace|], c))
    && (forall i :: |s.trace| <= i < |t.trace| && t.trace[i].Swept? ==> !Settled(s.ring, t.trace[i].cred))
  }

  lemma SweepIsCareful(s: Agent, slot: PendingKey, acked: bool, t: Agent)
    requires RingOk(s.ring, s.net.gone, s.gate.epoch) && DoSweep(s, slot, acked, t)
    ensures Careful(s, t)
  {
    assert EntryOk(s.ring, s.net.gone, s.gate.epoch, slot, s.ring.pending[slot]);
  }

  lemma RecoveryIsCareful(s: Agent, k: Key, c: nat, t: Agent)
    requires Creations(s) && DoRecoverDelete(s, k, c, t)
    ensures Careful(s, t) && s.ring.passkeys[c] == Tentative
  {
    assert RecoverOk(s.ring, s.gate, CoreEpoch(s), s.requests[k]);
  }

  lemma BesideIsCareful(s: Agent, t: Agent)
    requires Creations(s) && Smooth(s, t) && Beside(s, t)
    ensures Creations(t) && Careful(s, t)
  {
    BesideKeeps(s, t);
  }

  lemma LinkCreates(s: Agent, a: LinkAction, t: Agent)
    requires Creations(s) && Shape(s) && Smooth(s, t) && LinkStep(s, a, t)
    ensures Creations(t) && Careful(s, t)
  {
    if a.Disconnect? {
      DisconnectCreations(s, a.conn, t);
    } else {
      LinkBeside(s, a, t);
      BesideIsCareful(s, t);
    }
  }

  lemma RecoverListIsCareful(s: Agent, k: Key, t: Agent)
    requires DoRecoverList(s, k, t) || DoReadExpected(s, k, t) || DoRollbackMissing(s, k, t)
    ensures Careful(s, t)
  {
    if DoRecoverList(s, k, t) { return; }
    if DoReadExpected(s, k, t) { return; }
  }

  lemma RecoverListCreates(s: Agent, k: Key, t: Agent)
    requires Creations(s) && Smooth(s, t) && Moves(s, t, k) && DoRecoverList(s, k, t)
    ensures Creations(t) && Careful(s, t)
  {
    RecoverListKeeps(s, k, t);
    RecoverListIsCareful(s, k, t);
  }

  lemma RecoverDeleteCreates(s: Agent, k: Key, c: nat, t: Agent)
    requires Creations(s) && DoRecoverDelete(s, k, c, t)
    ensures Creations(t) && Careful(s, t)
  {
    RecoverDeleteKeeps(s, k, c, t);
    RecoveryIsCareful(s, k, c, t);
  }

  lemma LifeCreates(s: Agent, a: LifeAction, t: Agent)
    requires Creations(s) && VaultOk(s) && Smooth(s, t) && LifeStep(s, a, t)
    requires !a.Shutdown? && !a.RecoverDelete? ==> Moves(s, t, a.key)
    ensures Creations(t) && Careful(s, t)
  {
    match a {
      case Shutdown =>
        QuietBeside(s, t, Key(0, 0));
        BesideIsCareful(s, t);
      case RecoverDelete(k, c) => RecoverDeleteCreates(s, k, c, t);
      case RecoverList(k) => RecoverListCreates(s, k, t);
      case _ => GlidesCreate(s, a, t);
    }
  }

  lemma GlidesCreate(s: Agent, a: LifeAction, t: Agent)
    requires Creations(s) && Smooth(s, t) && LifeStep(s, a, t)
    requires !a.Shutdown? && !a.RecoverList? && !a.RecoverDelete? && Moves(s, t, a.key)
    ensures Creations(t) && Careful(s, t)
  {
    LifeGlides(s, a, t);
    GlidesBeside(s, t, a.key);
    BesideIsCareful(s, t);
  }

  lemma CoreCreates(s: Agent, a: CoreAction, t: Agent)
    requires Creations(s) && Smooth(s, t) && CoreStep(s, a, t)
    requires !a.EnterCore? ==> Moves(s, t, a.key)
    ensures Creations(t) && Careful(s, t)
  {
    if a.EnterCore? {
      forall j | j in t.requests ensures ReqBeside(s, t, j) { }
      assert Beside(s, t);
    } else {
      CoreGlides(s, a, t);
      GlidesBeside(s, t, a.key);
    }
    BesideIsCareful(s, t);
  }

  lemma CommitIsCareful(s: Agent, k: Key, target: nat, acked: bool, t: Agent)
    requires DoCommit(s, k, target, acked, t)
    ensures Careful(s, t)
  {
    if s.requests[k].op == MakePasskey { return; }
    if s.requests[k].op == ConfirmPasskeyCreation { return; }
    if s.requests[k].op == RollbackPasskeyCreation { return; }
    if s.requests[k].op == DeletePasskey { return; }
  }

  lemma CommitCreates(s: Agent, k: Key, target: nat, acked: bool, t: Agent)
    requires Creations(s) && Smooth(s, t) && Moves(s, t, k) && DoCommit(s, k, target, acked, t)
    requires k.conn !in s.net.gone
    ensures Creations(t)
  {
    match s.requests[k].op {
      case MakePasskey => MakeKeeps(s, k, target, acked, t);
      case ConfirmPasskeyCreation => ConfirmKeeps(s, k, acked, t);
      case RollbackPasskeyCreation => RemovalKeeps(s, k, acked, t);
      case DeletePasskey => RemovalKeeps(s, k, acked, t);
      case _ =>
        CommitGlides(s, k, target, acked, t);
        GlidesBeside(s, t, k);
        BesideKeeps(s, t);
    }
  }

  lemma Unsevered(s: Agent, k: Key)
    requires MayCommit(s, k) && (k.conn in s.net.gone ==> Severed(s, k.conn))
    ensures k.conn !in s.net.gone
  {
  }

  lemma StoreCreates(s: Agent, a: StoreAction, t: Agent)
    requires Creations(s) && VaultOk(s) && Smooth(s, t) && StoreStep(s, a, t)
    requires forall c :: c in s.net.gone ==> Severed(s, c)
    requires !a.Sweep? && !a.SweepFailGate? ==> Moves(s, t, a.key)
    ensures Creations(t) && Careful(s, t)
  {
    match a {
      case ReadExpected(k) =>
        ReadExpectedKeeps(s, k, t);
        RecoverListIsCareful(s, k, t);
      case Commit(k, target, acked) =>
        Unsevered(s, k);
        CommitCreates(s, k, target, acked, t);
        CommitIsCareful(s, k, target, acked, t);
      case RollbackMissing(k) =>
        RollbackMissingKeeps(s, k, t);
        RecoverListIsCareful(s, k, t);
      case Sweep(slot, acked) =>
        SweepKeeps(s, slot, acked, t);
        SweepIsCareful(s, slot, acked, t);
      case SweepFailGate =>
        QuietBeside(s, t, Key(0, 0));
        BesideIsCareful(s, t);
    }
  }

  lemma StepCreates(s: Agent, a: Action, t: Agent)
    requires Creations(s) && Shape(s) && Smooth(s, t) && Step(s, a, t)
    requires forall c :: c in s.net.gone ==> Severed(s, c)
    ensures Creations(t) && Careful(s, t)
  {
    match a {
      case Link(l) => LinkCreates(s, l, t);
      case Life(l) =>
        LifeGrows(s, l, t);
        LifeCreates(s, l, t);
      case Core(c) =>
        CoreGrows(s, c, t);
        CoreCreates(s, c, t);
      case Store(c) =>
        StoreGrows(s, c, t);
        StoreCreates(s, c, t);
    }
  }

  // ----------------------------------------------------------- whole runs

  /** A confirmed passkey is in the store, or a later event took it out; never a sweep. */
  ghost predicate Kept(s: Agent, i: nat, c: nat)
    requires i < |s.trace|
  {
    && (forall j :: i < j < |s.trace| ==> s.trace[j] != Swept(c))
    && (c in s.ring.passkeys || exists j :: i < j < |s.trace| && Lost(s.trace[j], c))
  }

  ghost predicate Sound(s: Agent) {
    && Creations(s)
    && (forall i, c :: 0 <= i < |s.trace| && ConfirmAck(s.trace[i], c) ==> Kept(s, i, c))
  }

  lemma KeptExtends(s: Agent, t: Agent, i: nat, c: nat)
    requires i < |s.trace| && Kept(s, i, c) && Settled(s.ring, c) && Careful(s, t)
    requires |s.trace| <= |t.trace| <= |s.trace| + 1 && t.trace[..|s.trace|] == s.trace
    ensures Kept(t, i, c)
  {
    assert forall j :: 0 <= j < |s.trace| ==> t.trace[j] == s.trace[j];
    if c in s.ring.passkeys && c !in t.ring.passkeys { assert Lost(t.trace[|s.trace|], c); }
  }

  /** The passkey a confirmation event names is in the store right after it. */
  ghost predicate Lands(s: Agent, t: Agent) {
    forall i, c :: |s.trace| <= i < |t.trace| && ConfirmAck(t.trace[i], c) ==> c in t.ring.passkeys
  }

  lemma CommitLands(s: Agent, k: Key, target: nat, acked: bool, t: Agent)
    requires DoCommit(s, k, target, acked, t)
    ensures Lands(s, t)
  {
  }

  lemma LinkLands(s: Agent, a: LinkAction, t: Agent)
    requires LinkStep(s, a, t)
    ensures Lands(s, t)
  {
  }

  lemma LifeLands(s: Agent, a: LifeAction, t: Agent)
    requires LifeStep(s, a, t)
    ensures Lands(s, t)
  {
  }

  lemma CoreLands(s: Agent, a: CoreAction, t: Agent)
    requires CoreStep(s, a, t)
    ensures Lands(s, t)
  {
  }

  lemma StepLands(s: Agent, a: Action, t: Agent)
    requires Step(s, a, t)
    ensures Lands(s, t)
  {
    match a {
      case Link(l) => LinkLands(s, l, t);
      case Life(l) => LifeLands(s, l, t);
      case Core(c) => CoreLands(s, c, t);
      case Store(Commit(k, target, acked)) => CommitLands(s, k, target, acked, t);
      case Store(c) =>
    }
  }

  lemma SoundExtends(s: Agent, t: Agent)
    requires Sound(s) && Creations(t) && Careful(s, t) && Turns(s, t) && Lands(s, t)
    ensures Sound(t)
  {
    forall i, c | 0 <= i < |t.trace| && ConfirmAck(t.trace[i], c) ensures Kept(t, i, c) {
      if i < |s.trace| {
        assert t.trace[i] == s.trace[i];
        assert Kept(s, i, c) && Recorded(s.ring, s.trace[i]);
        KeptExtends(s, t, i, c);
      }
    }
  }

  lemma StepKeepsSound(s: Agent, a: Action, t: Agent)
    requires Sound(s) && History(s) && Grows(s, t) && Turns(s, t) && Step(s, a, t)
    ensures Sound(t)
  {
    StepIsSmooth(s, t);
    StepCreates(s, a, t);
    StepLands(s, a, t);
    SoundExtends(s, t);
  }

  lemma InitSound(s: Agent)
    requires Init(s)
    ensures Sound(s)
  {
  }

  lemma NextKeepsSound(states: seq<Agent>, schedule: seq<Action>, i: nat)
    requires IsRun(states, schedule) && i < |schedule| && Sound(states[i])
    ensures Sound(states[i + 1])
  {
    RunsKeepHistory(states, schedule, i);
    NextKeepsHistory(states, schedule, i);
    assert Follows(states, schedule, i);
    StepKeepsSound(states[i], schedule[i], states[i + 1]);
  }

  lemma {:induction false} RunsKeepSound(states: seq<Agent>, schedule: seq<Action>, n: nat)
    requires IsRun(states, schedule) && n < |states|
    ensures Sound(states[n])
  {
    if n == 0 {
      InitSound(states[0]);
    } else {
      RunsKeepSound(states, schedule, n - 1);
      NextKeepsSound(states, schedule, n - 1);
    }
  }

  // ------------------------------------------------------------- theorems

  /**
   * A confirmed passkey stays until DeletePasskey or a rollback from the same connection,
   * transaction, process and epoch; neither disconnect cleanup nor unlock recovery deletes it.
   */
  lemma ConfirmedPasskeySurvives(states: seq<Agent>, schedule: seq<Action>, n: nat, i: nat, c: nat)
    requires IsRun(states, schedule) && n < |states| && i < |states[n].trace|
    requires ConfirmAck(states[n].trace[i], c)
    ensures
      var s := states[n];
      && (forall j :: i < j < |s.trace| ==> s.trace[j] != Swept(c))
      && ((c in s.ring.passkeys && s.ring.passkeys[c] == Confirmed)
          || exists j :: i < j < |s.trace| && Undone(s.trace[j], c, s.trace[i].binding))
  {
    RunsKeepSound(states, schedule, n);
    var s := states[n];
    assert Kept(s, i, c) && Recorded(s.ring, s.trace[i]);
    if c !in s.ring.passkeys {
      var j :| i < j < |s.trace| && Lost(s.trace[j], c);
      assert Recorded(s.ring, s.trace[j]);
      assert Undone(s.trace[j], c, s.trace[i].binding);
    }
  }

  /** Deleted by the owner, or rolled back under the given binding. */
  predicate Undone(e: Event, c: nat, binding: Option<Binding>) {
    e.Durable? && (e.change == PasskeyRemoved(c) || (e.change == PasskeyRolledBack(c) && e.binding == binding))
  }

  /** Every rollback carries the binding under which the passkey was made. */
  lemma RollbackIsBound(states: seq<Agent>, schedule: seq<Action>, n: nat, i: nat, j: nat, c: nat)
    requires IsRun(states, schedule) && n < |states| && i < |states[n].trace| && j < |states[n].trace|
    requires states[n].trace[i].Durable? && states[n].trace[i].change == PasskeyMade(c)
    requires states[n].trace[j].Durable? && states[n].trace[j].change == PasskeyRolledBack(c)
    ensures states[n].trace[i].binding == states[n].trace[j].binding
  {
    RunsKeepSound(states, schedule, n);
    assert Recorded(states[n].ring, states[n].trace[i]) && Recorded(states[n].ring, states[n].trace[j]);
  }

  /** No entry is both confirmed and disconnected; two entries never name one credential. */
  lemma PendingEntries(states: seq<Agent>, schedule: seq<Action>, n: nat, slot: PendingKey, other: PendingKey)
    requires IsRun(states, schedule) && n < |states|
    requires slot in states[n].ring.pending && other in states[n].ring.pending
    ensures
      var x, y := states[n].ring.pending[slot], states[n].ring.pending[other];
      && !(x.confirmed && x.disconnected)
      && (slot.conn in states[n].net.gone ==> x.disconnected)
      && (x.cred == y.cred ==> slot == other)
  {
    RunsKeepSound(states, schedule, n);
    var s := states[n];
    assert EntryOk(s.ring, s.net.gone, s.gate.epoch, slot, s.ring.pending[slot]);
    assert EntryOk(s.ring, s.net.gone, s.gate.epoch, other, s.ring.pending[other]);
  }

  /** Unlock recovery deletes tentative passkeys only, whatever ran since it listed them. */
  lemma RecoveryDeletesTentative(states: seq<Agent>, schedule: seq<Action>, n: nat, k: Key, c: nat)
    requires IsRun(states, schedule) && n < |schedule| && schedule[n] == Life(RecoverDelete(k, c))
    ensures c in states[n].ring.passkeys && states[n].ring.passkeys[c] == Tentative
  {
    RunsKeepSound(states, schedule, n);
    assert Follows(states, schedule, n);
    RecoveryIsCareful(states[n], k, c, states[n + 1]);
  }

  /** The error branch of the pending-map insertion is never taken. */
  lemma CreationSlotIsFree(states: seq<Agent>, schedule: seq<Action>, n: nat, k: Key, cred: nat, acked: bool)
    requires IsRun(states, schedule) && n < |schedule| && schedule[n] == Store(Commit(k, cred, acked))
    requires k in states[n].requests && states[n].requests[k].op == MakePasskey
    ensures SlotOf(k, states[n].requests[k]) !in states[n].ring.pending
  {
    RunsKeepSound(states, schedule, n);
    assert Follows(states, schedule, n);
    FreshSlot(states[n], k, cred, acked, states[n + 1]);
  }
}
