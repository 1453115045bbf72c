/** Single-use browser leases over whole runs: one disclosure, unchanged accounts. */
module DispatchBrowser {
  import opened Base
  import opened Tables
  import Session
  import opened Dispatch
  import opened DispatchFrame
  import opened DispatchOrder

  /** An account change the runtime saw succeed. */
  predicate AccountAck(e: Event) { e.Durable? && e.change.AccountChange? && e.acked }

  function Acked(trace: seq<Event>): nat {
    if trace == [] then 0
    else Acked(trace[..|trace| - 1]) + (if AccountAck(trace[|trace| - 1]) then 1 else 0)
  }

  lemma AckedGrows(trace: seq<Event>, e: Event)
    ensures Acked(trace + [e]) == Acked(trace) + (if AccountAck(e) then 1 else 0)
  {
    assert (trace + [e])[..|trace|] == trace;
  }

  /** Equal counts at two points of a trace: no acknowledged account change in between. */
  lemma {:induction false} EqualCounts(trace: seq<Event>, at: nat, i: nat)
    requires at <= i < |trace| && Acked(trace) == Acked(trace[..at])
    ensures !AccountAck(trace[i])
  {
    var n := |trace| - 1;
    AckedMonotone(trace[..n], at);
    assert trace[..n][..at] == trace[..at];
    if i < n { EqualCounts(trace[..n], at, i); }
  }

  lemma {:induction false} AckedMonotone(trace: seq<Event>, at: nat)
    requires at <= |trace|
    ensures Acked(trace[..at]) <= Acked(trace)
  {
    if at < |trace| {
      AckedMonotone(trace[..|trace| - 1], at);
      assert trace[..|trace| - 1][..at] == trace[..at];
    } else {
      assert trace[..at] == trace;
    }
  }

  // ------------------------------------------------------------- invariant

  /** The generation is the one counted when the trace had `at` events, and not the last. */
  ghost predicate Counted(trace: seq<Event>, at: nat, generation: nat) {
    at < |trace| && generation < U64_MAX && generation == 1 + Acked(trace[..at])
  }

  ghost predicate LeaseOk(trace: seq<Event>, c: nat, l: Lease) {
    && Counted(trace, l.at, l.generation)
    && trace[l.at] == LeaseIssued(c, l.context, l.epoch, l.selection)
  }

  ghost predicate SecretOk(trace: seq<Event>, k: Key, r: Req, o: Outcome)
    requires o.body.Secret?
  {
    && o.error.None? && !o.committed && o.generation.Some? && r.op == GetSelectedCredential
    && Counted(trace, o.body.leaseAt, o.generation.value)
    && trace[o.body.leaseAt] == LeaseIssued(k.conn, r.context, r.epoch, r.selection)
    && o.body.leaseAt < o.body.readAt < |trace| && trace[o.body.readAt] == SecretRead(k, r.epoch)
    && r.selection.record == o.body.record && r.selection.revision == o.body.revision
  }

  /** Phases that carry a part of the lease protocol. */
  predicate WebPhase(p: Phase) {
    p.Claimed? || p.Offering? || p.Holding? || (p.Done? && p.outcome.body.Secret?)
  }

  ghost predicate ReqWeb(trace: seq<Event>, k: Key, r: Req) {
    match r.phase
    case Holding(l) =>
      && LeaseOk(trace, k.conn, l) && r.op == GetSelectedCredential
      && l.context == r.context && l.selection == r.selection && l.epoch == r.epoch
    case Done(o) => o.body.Secret? ==> SecretOk(trace, k, r, o)
    case _ => true
  }

  predicate Holds(web: Web, c: nat, h: Holder) { c in web.holder && web.holder[c] == h }

  /** While its connection is there, only the recorded holder carries the lease. */
  predicate ReqHolds(web: Web, k: Key, p: Phase) {
    if p.Claimed? || p.Offering? then Holds(web, k.conn, Claimer(k))
    else WebPhase(p) ==> Holds(web, k.conn, Taker(k))
  }

  ghost predicate SlotOk(trace: seq<Event>, web: Web, c: nat)
    requires c in web.leases
  {
    && c in web.holder
    && (web.leases[c].Some? ==> web.holder[c] == Ready && LeaseOk(trace, c, web.leases[c].value))
  }

  predicate Disclosure(e: Event) { e.Wrote? && e.outcome.body.Secret? }

  predicate Spoken(web: Web, gone: set<nat>, e: Event) {
    && (Disclosure(e) ==> e.key.conn in gone || Holds(web, e.key.conn, Spent))
    && (e.LeaseIssued? ==> e.conn in gone || (e.conn in web.holder && !web.holder[e.conn].Claimer?))
  }

  predicate NoLease(trace: seq<Event>, c: nat) {
    forall i :: 0 <= i < |trace| ==> !(trace[i].LeaseIssued? && trace[i].conn == c)
  }

  /** An offer not yet written keeps the vault, so the counter stands, and is the connection's first. */
  predicate OfferOk(vault: Option<Key>, generation: nat, trace: seq<Event>, k: Key, p: Phase) {
    p.Offering? ==> vault == Some(k) && p.generation == generation < U64_MAX && NoLease(trace, k.conn)
  }

  predicate NoOffering(s: Agent) {
    forall k :: k in s.requests ==> !s.requests[k].phase.Offering?
  }

  /** The vault is not taken from an offer. */
  predicate VaultStays(s: Agent, t: Agent) {
    s.vault.Some? && s.vault.value in t.requests && t.requests[s.vault.value].phase.Offering? ==> t.vault == s.vault
  }

  ghost predicate Browsing(s: Agent) {
    && s.books.generation == Min(U64_MAX, 1 + Acked(s.trace))
    && |s.web.leases| <= MAX_CONNECTIONS
    && (forall c :: c in s.web.leases ==> SlotOk(s.trace, s.web, c))
    && (forall c :: c in s.web.holder && c !in s.net.gone ==> c in s.web.leases)
    && (forall k :: k in s.requests ==> ReqWeb(s.trace, k, s.requests[k]))
    && (forall k :: k in s.requests && k.conn !in s.net.gone ==> ReqHolds(s.web, k, s.requests[k].phase))
    && (forall k :: k in s.requests ==> OfferOk(s.vault, s.books.generation, s.trace, k, s.requests[k].phase))
    && (forall i :: 0 <= i < |s.trace| ==> Spoken(s.web, s.net.gone, s.trace[i]))
  }

  // ------------------------------------------------- steps beside the leases

  lemma CountedStays(trace: seq<Event>, e: Event, at: nat, generation: nat)
    requires Counted(trace, at, generation)
    ensures Counted(trace + [e], at, generation) && (trace + [e])[at] == trace[at]
  {
    assert (trace + [e])[..at] == trace[..at];
  }

  lemma ReqWebStays(trace: seq<Event>, e: Event, k: Key, r: Req)
    requires ReqWeb(trace, k, r)
    ensures ReqWeb(trace + [e], k, r)
  {
    if r.phase.Holding? { CountedStays(trace, e, r.phase.lease.at, r.phase.lease.generation); }
    if r.phase.Done? && r.phase.outcome.body.Secret? {
      CountedStays(trace, e, r.phase.outcome.body.leaseAt, r.phase.outcome.generation.value);
    }
  }

  lemma SlotOkStays(trace: seq<Event>, e: Event, web: Web, c: nat)
    requires c in web.leases && SlotOk(trace, web, c)
    ensures SlotOk(trace + [e], web, c)
  {
    if web.leases[c].Some? { CountedStays(trace, e, web.leases[c].value.at, web.leases[c].value.generation); }
  }

  predicate Dull(e: Event) {
    !AccountAck(e) && !e.LeaseIssued? && !Disclosure(e) && !e.SlotClaimed? && !e.DisconnectApplied?
  }

  predicate DullStep(was: seq<Event>, now: seq<Event>) {
    |now| == |was| + 1 && now == was + [now[|was|]] && Dull(now[|was|])
  }

  /** The step leaves leases, counter and lease-carrying requests alone. */
  ghost predicate Aside(s: Agent, t: Agent) {
    && t.web == s.web && t.books.generation == s.books.generation && t.net.gone == s.net.gone && VaultStays(s, t)
    && (t.trace == s.trace || DullStep(s.trace, t.trace))
    && (forall k :: k in t.requests && WebPhase(t.requests[k].phase) ==> k in s.requests && s.requests[k] == t.requests[k])
  }

  lemma CountKeeps(generation: nat, trace: seq<Event>, e: Event)
    requires generation == Min(U64_MAX, 1 + Acked(trace)) && !AccountAck(e)
    ensures generation == Min(U64_MAX, 1 + Acked(trace + [e]))
  {
    AckedGrows(trace, e);
  }

  lemma EventKeeps(s: Agent, e: Event)
    requires Browsing(s) && !AccountAck(e) && Spoken(s.web, s.net.gone, e) && (e.LeaseIssued? ==> NoOffering(s))
    ensures Browsing(Emit(s, e))
  {
    var trace := s.trace + [e];
    CountKeeps(s.books.generation, s.trace, e);
    forall c | c in s.web.leases ensures SlotOk(trace, s.web, c) { SlotOkStays(s.trace, e, s.web, c); }
    forall k | k in s.requests ensures ReqWeb(trace, k, s.requests[k]) {
      ReqWebStays(s.trace, e, k, s.requests[k]);
    }
    forall k | k in s.requests ensures OfferOk(s.vault, s.books.generation, trace, k, s.requests[k].phase) {
      assert OfferOk(s.vault, s.books.generation, s.trace, k, s.requests[k].phase);
    }
    forall i | 0 <= i < |trace| ensures Spoken(s.web, s.net.gone, trace[i]) {
      if i < |s.trace| { assert Spoken(s.web, s.net.gone, s.trace[i]); }
    }
  }

  lemma AsideKeeps(s: Agent, t: Agent)
    requires Browsing(s) && Aside(s, t)
    ensures Browsing(t)
  {
    var u := t.(trace := s.trace);
    assert Browsing(u) by {
      forall k | k in u.requests ensures ReqWeb(u.trace, k, u.requests[k]) {
        if WebPhase(u.requests[k].phase) { assert ReqWeb(s.trace, k, s.requests[k]); }
      }
      forall k | k in u.requests && k.conn !in u.net.gone ensures ReqHolds(u.web, k, u.requests[k].phase) {
        if WebPhase(u.requests[k].phase) { assert ReqHolds(s.web, k, s.requests[k].phase); }
      }
      forall k | k in u.requests ensures OfferOk(u.vault, u.books.generation, u.trace, k, u.requests[k].phase) {
        if u.requests[k].phase.Offering? { assert OfferOk(s.vault, s.books.generation, s.trace, k, s.requests[k].phase); }
      }
    }
    if t.trace != s.trace {
      EventKeeps(u, t.trace[|s.trace|]);
      assert t == Emit(u, t.trace[|s.trace|]);
    }
  }

  /** One request moves outside the lease protocol. */
  lemma MoveAside(s: Agent, t: Agent, k: Key)
    requires k in t.requests && t.requests == s.requests[k := t.requests[k]] && !WebPhase(t.requests[k].phase)
    requires t.web == s.web && t.books.generation == s.books.generation && t.net == s.net
    requires t.vault == s.vault || t.vault == Leave(s, k).vault
    requires t.trace == s.trace || DullStep(s.trace, t.trace)
    ensures Aside(s, t)
  {
  }

  lemma LockGateAside(s: Agent, k: Key, t: Agent)
    requires DoLockGate(s, k, t)
    ensures Aside(s, t)
  {
    MoveAside(s, t, k);
  }

  lemma LockAside(s: Agent, a: LifeAction, t: Agent)
    requires LifeStep(s, a, t) && (a.Conclude? || a.Die? || a.LockGate? || a.LockTail? || a.Release? || a.Shutdown?)
    ensures Aside(s, t)
  {
    if a.Shutdown? { return; }
    if a.LockGate? {
      LockGateAside(s, a.key, t);
      return;
    }
    MoveAside(s, t, a.key);
  }

  lemma PublishAside(s: Agent, k: Key, bound: bool, t: Agent)
    requires DoPublish(s, k, bound, t)
    ensures Aside(s, t)
  {
    if t.trace == s.trace { return; }
  }

  lemma OpenAside(s: Agent, a: LifeAction, t: Agent)
    requires LifeStep(s, a, t) && !(a.Conclude? || a.Die? || a.LockGate? || a.LockTail? || a.Release? || a.Shutdown?)
    ensures Aside(s, t)
  {
    match a
    case Publish(k, bound) => PublishAside(s, k, bound, t);
    case _ =>
  }

  lemma BeginAside(s: Agent, a: LinkAction, t: Agent)
    requires a.Begin? && LinkStep(s, a, t)
    ensures Aside(s, t)
  {
  }

  lemma LinkAside(s: Agent, a: LinkAction, t: Agent)
    requires LinkStep(s, a, t) && !a.Disconnect? && !a.Finish?
    ensures Aside(s, t)
  {
    if a.Begin? { BeginAside(s, a, t); }
  }

  lemma CoreAside(s: Agent, a: CoreAction, t: Agent)
    requires CoreStep(s, a, t) && Bookkeeping(a)
    ensures Aside(s, t)
  {
  }

  lemma CommitAside(s: Agent, k: Key, target: nat, acked: bool, t: Agent)
    requires DoCommit(s, k, target, acked, t)
    requires acked ==> !AccountOp(s.requests[k].op)
    ensures Aside(s, t)
  {
    if AccountOp(s.requests[k].op) { return; }
    PasskeyAside(s, k, target, acked, t);
  }

  predicate AccountOp(op: OperationCode) { op.AddAccount? || op.UpdateAccount? || op.DeleteAccount? }

  lemma PasskeyAside(s: Agent, k: Key, target: nat, acked: bool, t: Agent)
    requires DoCommit(s, k, target, acked, t) && !AccountOp(s.requests[k].op)
    ensures Aside(s, t)
  {
    MoveAside(s, t, k);
  }

  lemma StoreAside(s: Agent, a: StoreAction, t: Agent)
    requires StoreStep(s, a, t) && !a.Commit?
    ensures Aside(s, t)
  {
  }

  // ------------------------------------------------------ the lease protocol

  lemma ClaimKeeps(s: Agent, k: Key, t: Agent)
    requires Browsing(s) && DoClaim(s, k, t)
    ensures Browsing(t)
  {
    if k.conn in s.web.leases || |s.web.leases| >= MAX_CONNECTIONS {
      AsideKeeps(s, t);
    } else {
      var u := t.(trace := s.trace);
      SlotAdded(s, u, k);
      EventKeeps(u, SlotClaimed(k));
    }
  }

  lemma SlotAdded(s: Agent, t: Agent, k: Key)
    requires Browsing(s) && k in s.requests && k.conn !in s.web.leases && |s.web.leases| < MAX_CONNECTIONS
    requires t == At(s, k, Claimed).(web := Slot(s.web, k.conn, None, Claimer(k)))
    ensures Browsing(t)
  {
    forall c | c in t.web.leases ensures SlotOk(t.trace, t.web, c) {
      if c != k.conn { assert SlotOk(s.trace, s.web, c); }
    }
    RequestsKeep(s, t, k);
    forall j | j in t.requests && j.conn !in t.net.gone ensures ReqHolds(t.web, j, t.requests[j].phase) {
      if j != k { assert ReqHolds(s.web, j, s.requests[j].phase); }
    }
    forall i | 0 <= i < |t.trace| ensures Spoken(t.web, t.net.gone, t.trace[i]) {
      assert Spoken(s.web, s.net.gone, s.trace[i]);
    }
  }

  /** The clauses about single requests, when one request moves. */
  lemma RequestsKeep(s: Agent, t: Agent, k: Key)
    requires Browsing(s) && k in s.requests && k in t.requests && t.requests == s.requests[k := t.requests[k]]
    requires t.books.generation == s.books.generation && t.trace == s.trace && VaultStays(s, t)
    requires ReqWeb(s.trace, k, t.requests[k])
    requires OfferOk(t.vault, s.books.generation, s.trace, k, t.requests[k].phase)
    ensures forall j :: j in t.requests ==> ReqWeb(t.trace, j, t.requests[j])
    ensures forall j :: j in t.requests ==> OfferOk(t.vault, t.books.generation, t.trace, j, t.requests[j].phase)
  {
    forall j | j in t.requests ensures ReqWeb(t.trace, j, t.requests[j]) {
      assert j != k ==> ReqWeb(s.trace, j, s.requests[j]);
    }
    forall j | j in t.requests ensures OfferOk(t.vault, t.books.generation, t.trace, j, t.requests[j].phase) {
      assert j != k ==> OfferOk(s.vault, s.books.generation, s.trace, j, s.requests[j].phase);
    }
  }

  /** The slot of `c` is emptied or filled by the one request that may touch it. */
  lemma SlotKeeps(s: Agent, t: Agent, k: Key, lease: Option<Lease>, h: Holder)
    requires Browsing(s) && k in s.requests && k.conn in s.web.leases
    requires t.web == Slot(s.web, k.conn, lease, h)
    requires t.net.gone == s.net.gone && t.books.generation == s.books.generation && t.trace == s.trace
    requires k in t.requests && t.requests == s.requests[k := t.requests[k]]
    requires k.conn !in s.net.gone ==>
               && !h.Claimer? && ReqHolds(t.web, k, t.requests[k].phase)
               && (s.web.holder[k.conn] == Ready || s.web.holder[k.conn] == Claimer(k))
    requires ReqWeb(t.trace, k, t.requests[k]) && !t.requests[k].phase.Offering? && VaultStays(s, t)
    requires lease.Some? ==> h == Ready && LeaseOk(s.trace, k.conn, lease.value)
    ensures Browsing(t)
  {
    assert t.web.leases.Keys == s.web.leases.Keys;
    assert |t.web.leases.Keys| == |s.web.leases.Keys|;
    forall c | c in t.web.leases ensures SlotOk(t.trace, t.web, c) {
      if c != k.conn { assert SlotOk(s.trace, s.web, c); }
    }
    RequestsKeep(s, t, k);
    forall j | j in t.requests && j.conn !in t.net.gone ensures ReqHolds(t.web, j, t.requests[j].phase) {
      if j != k { assert ReqHolds(s.web, j, s.requests[j].phase); }
    }
    forall i | 0 <= i < |t.trace| ensures Spoken(t.web, t.net.gone, t.trace[i]) {
      assert Spoken(s.web, s.net.gone, s.trace[i]);
    }
  }

  lemma TakeKeeps(s: Agent, k: Key, t: Agent)
    requires Browsing(s) && DoTake(s, k, t)
    ensures Browsing(t)
  {
    if k.conn !in s.web.leases || s.web.leases[k.conn].None? {
      AsideKeeps(s, t);
      return;
    }
    assert SlotOk(s.trace, s.web, k.conn);
    SlotKeeps(s, t, k, None, t.web.holder[k.conn]);
  }

  /** One request moves and no slot changes. */
  lemma MoveKeeps(s: Agent, t: Agent, k: Key)
    requires Browsing(s) && k in s.requests && k in t.requests && t.requests == s.requests[k := t.requests[k]]
    requires t.web == s.web && t.net.gone == s.net.gone && t.books.generation == s.books.generation
    requires t.trace == s.trace && VaultStays(s, t)
    requires ReqWeb(s.trace, k, t.requests[k])
    requires OfferOk(t.vault, s.books.generation, s.trace, k, t.requests[k].phase)
    requires k.conn !in s.net.gone ==> ReqHolds(s.web, k, t.requests[k].phase)
    ensures Browsing(t)
  {
    RequestsKeep(s, t, k);
    forall j | j in t.requests && j.conn !in t.net.gone ensures ReqHolds(t.web, j, t.requests[j].phase) {
      if j != k { assert ReqHolds(s.web, j, s.requests[j].phase); }
    }
  }

  lemma SecretReadKeeps(s: Agent, k: Key, found: Option<(nat, nat)>, token: nat, t: Agent)
    requires Browsing(s) && DoBrowserRead(s, k, found, token, t) && s.requests[k].phase.Holding?
    ensures Browsing(t) && News(s, t)
  {
    assert ReqWeb(s.trace, k, s.requests[k]);
    if t.trace == s.trace {
      SecretRefused(s, k, s.requests[k].phase.lease, found, t);
      AsideKeeps(s, t);
      return;
    }
    SecretTaken(s, k, t.requests[k].phase.outcome);
  }

  lemma SecretRefused(s: Agent, k: Key, lease: Lease, found: Option<(nat, nat)>, t: Agent)
    requires k in s.requests && ReadForSecret(s, k, lease, found, t) && t.trace == s.trace
    ensures Aside(s, t)
  {
    MoveAside(s, t, k);
  }

  lemma SecretTaken(s: Agent, k: Key, o: Outcome)
    requires Browsing(s) && k in s.requests && s.requests[k].phase.Holding? && o.error.None? && !o.committed
    requires
      var r := s.requests[k];
      && o.generation == Some(r.phase.lease.generation)
      && o.body == Secret(r.selection.record, r.selection.revision, r.phase.lease.at, |s.trace|)
    ensures Browsing(Emit(At(Leave(s, k), k, Done(o)), SecretRead(k, s.requests[k].epoch)))
  {
    var r := s.requests[k];
    var u := Emit(s, SecretRead(k, r.epoch));
    assert ReqWeb(s.trace, k, r);
    EventKeeps(s, SecretRead(k, r.epoch));
    SecretOkNow(s.trace, k, r, o);
    assert k.conn !in s.net.gone ==> ReqHolds(s.web, k, r.phase);
    MoveKeeps(u, At(Leave(u, k), k, Done(o)), k);
  }

  lemma SecretOkNow(trace: seq<Event>, k: Key, r: Req, o: Outcome)
    requires r.phase.Holding? && ReqWeb(trace, k, r) && o.error.None? && !o.committed
    requires o.generation == Some(r.phase.lease.generation)
    requires o.body == Secret(r.selection.record, r.selection.revision, r.phase.lease.at, |trace|)
    ensures SecretOk(trace + [SecretRead(k, r.epoch)], k, r, o)
  {
    CountedStays(trace, SecretRead(k, r.epoch), r.phase.lease.at, r.phase.lease.generation);
  }

  /** A match that reads the vault has its connection there, and none of its offers came before. */
  lemma MatchReadKeeps(s: Agent, k: Key, found: Option<(nat, nat)>, token: nat, t: Agent)
    requires Browsing(s) && DoBrowserRead(s, k, found, token, t) && s.requests[k].phase.Claimed?
    requires k.conn in s.net.gone ==> Severed(s, k.conn)
    ensures Browsing(t) && News(s, t)
  {
    assert k.conn !in s.net.gone ==> ReqHolds(s.web, k, s.requests[k].phase);
    if t.requests[k].phase.Offering? {
      forall i | 0 <= i < |s.trace| ensures !(s.trace[i].LeaseIssued? && s.trace[i].conn == k.conn) {
        assert Spoken(s.web, s.net.gone, s.trace[i]);
      }
    }
    MoveKeeps(s, t, k);
  }

  lemma WriteKeeps(s: Agent, k: Key, t: Agent)
    requires Browsing(s) && DoWriteSlot(s, k, t)
    ensures Browsing(t) && News(s, t)
  {
    assert OfferOk(s.vault, s.books.generation, s.trace, k, s.requests[k].phase);
    assert k.conn !in s.net.gone ==> ReqHolds(s.web, k, s.requests[k].phase);
    if t.trace == s.trace {
      MoveKeeps(s, t, k);
    } else {
      IssueKeeps(s, t, k, t.web.leases[k.conn].value, t.trace[|s.trace|]);
    }
  }

  lemma IssueKeeps(s: Agent, t: Agent, k: Key, lease: Lease, e: Event)
    requires Browsing(s) && k in s.requests && k.conn in s.web.leases
    requires k in t.requests && t.requests == s.requests[k := t.requests[k]] && !WebPhase(t.requests[k].phase)
    requires t.net.gone == s.net.gone && t.books == s.books && s.vault == Some(k) && t.vault.None?
    requires k.conn !in s.net.gone ==> Holds(s.web, k.conn, Claimer(k))
    requires e == LeaseIssued(k.conn, lease.context, lease.epoch, lease.selection) && t.trace == s.trace + [e]
    requires lease.at == |s.trace| && lease.generation == s.books.generation < U64_MAX
    requires t.web == Slot(s.web, k.conn, Some(lease), Ready)
    ensures Browsing(t)
  {
    var u := t.(web := Slot(s.web, k.conn, None, Ready), trace := s.trace);
    assert SlotOk(s.trace, s.web, k.conn);
    SlotKeeps(s, u, k, None, Ready);
    forall j | j in u.requests ensures !u.requests[j].phase.Offering? {
      assert OfferOk(u.vault, u.books.generation, u.trace, j, u.requests[j].phase);
    }
    EventKeeps(u, e);
    assert (s.trace + [e])[..|s.trace|] == s.trace;
    SlotKeeps(Emit(u, e), t, k, Some(lease), Ready);
  }

  lemma AckKeeps(s: Agent, k: Key, target: nat, t: Agent)
    requires Browsing(s) && MayCommit(s, k) && CommitAccount(s, k, target, true, t)
    ensures Browsing(t)
  {
    forall j | j in s.requests ensures !s.requests[j].phase.Offering? {
      assert OfferOk(s.vault, s.books.generation, s.trace, j, s.requests[j].phase);
    }
    var u := t.(books := s.books, trace := s.trace);
    MoveKeeps(s, u, k);
    BumpKeeps(u, t, t.trace[|s.trace|]);
  }

  lemma BumpKeeps(s: Agent, t: Agent, e: Event)
    requires Browsing(s) && NoOffering(s) && AccountAck(e) && t.trace == s.trace + [e]
    requires t.web == s.web && t.net == s.net && t.requests == s.requests
    requires t.books.generation == Bumped(s.books.generation)
    ensures Browsing(t)
  {
    AckedGrows(s.trace, e);
    forall c | c in t.web.leases ensures SlotOk(t.trace, t.web, c) { SlotOkStays(s.trace, e, s.web, c); }
    forall j | j in t.requests ensures ReqWeb(t.trace, j, t.requests[j]) {
      ReqWebStays(s.trace, e, j, s.requests[j]);
    }
  }

  lemma DisconnectKeeps(s: Agent, c: nat, t: Agent)
    requires Browsing(s) && DoDisconnect(s, c, t)
    ensures Browsing(t)
  {
    var u := t.(trace := s.trace);
    assert Browsing(u) by {
      assert u.web.leases.Keys == s.web.leases.Keys - {c};
      assert |u.web.leases.Keys| <= |s.web.leases.Keys|;
      forall d | d in u.web.leases ensures SlotOk(u.trace, u.web, d) { assert SlotOk(s.trace, s.web, d); }
      forall i | 0 <= i < |u.trace| ensures Spoken(u.web, u.net.gone, u.trace[i]) {
        assert Spoken(s.web, s.net.gone, s.trace[i]);
      }
    }
    EventKeeps(u, DisconnectApplied(c));
  }

  /** A disclosed secret passed the terminal re-check: its connection is still there. */
  lemma SecretFinal(s: Agent, k: Key, r: Req, o: Outcome)
    requires Final(s, k, r, o).body.Secret? && (o.body.Secret? ==> !o.committed)
    ensures Final(s, k, r, o) == o && !Marked(s, k) && o.body.Secret?
    ensures o.generation.Some? ==> o.generation.value == s.books.generation
  {
  }

  lemma FinishKeeps(s: Agent, k: Key, fits: bool, t: Agent)
    requires Browsing(s) && DoFinish(s, k, fits, t)
    requires k.conn in s.net.gone ==> Severed(s, k.conn)
    ensures Browsing(t)
  {
    var r := s.requests[k];
    var o, e := r.phase.outcome, t.trace[|s.trace|];
    assert ReqWeb(s.trace, k, r);
    var u := t.(trace := s.trace);
    if Final(s, k, r, o).body.Secret? {
      SecretFinal(s, k, r, o);
      assert ReqHolds(s.web, k, r.phase);
      SpendKeeps(s, u, k);
    } else {
      DropKeeps(s, u, k);
    }
    EventKeeps(u, e);
  }

  lemma SpendKeeps(s: Agent, t: Agent, k: Key)
    requires Browsing(s) && Holds(s.web, k.conn, Taker(k)) && k.conn !in s.net.gone
    requires k in s.requests && k in t.requests && t.requests == s.requests[k := t.requests[k]]
    requires !WebPhase(t.requests[k].phase)
    requires t.web == s.web.(holder := s.web.holder[k.conn := Spent])
    requires t.net.gone == s.net.gone && t.books == s.books && t.trace == s.trace && t.vault == s.vault
    requires !s.requests[k].phase.Offering?
    ensures Browsing(t)
  {
    forall c | c in t.web.leases ensures SlotOk(t.trace, t.web, c) { assert SlotOk(s.trace, s.web, c); }
    RequestsKeep(s, t, k);
    forall j | j in t.requests && j.conn !in t.net.gone ensures ReqHolds(t.web, j, t.requests[j].phase) {
      if j != k { assert ReqHolds(s.web, j, s.requests[j].phase); }
    }
    forall i | 0 <= i < |t.trace| ensures Spoken(t.web, t.net.gone, t.trace[i]) {
      assert Spoken(s.web, s.net.gone, s.trace[i]);
    }
  }

  lemma DropKeeps(s: Agent, t: Agent, k: Key)
    requires Browsing(s)
    requires k in s.requests && k in t.requests && t.requests == s.requests[k := t.requests[k]]
    requires !WebPhase(t.requests[k].phase)
    requires t.web == s.web || (k.conn in s.web.leases && t.web == s.web.(leases := s.web.leases[k.conn := None]))
    requires t.net.gone == s.net.gone && t.books == s.books && t.trace == s.trace && t.vault == s.vault
    requires !s.requests[k].phase.Offering?
    ensures Browsing(t)
  {
    assert t.web.leases.Keys == s.web.leases.Keys;
    assert |t.web.leases.Keys| == |s.web.leases.Keys|;
    forall c | c in t.web.leases ensures SlotOk(t.trace, t.web, c) { assert SlotOk(s.trace, s.web, c); }
    RequestsKeep(s, t, k);
    forall j | j in t.requests && j.conn !in t.net.gone ensures ReqHolds(t.web, j, t.requests[j].phase) {
      if j != k { assert ReqHolds(s.web, j, s.requests[j].phase); }
    }
    forall i | 0 <= i < |t.trace| ensures Spoken(t.web, t.net.gone, t.trace[i]) {
      assert Spoken(s.web, s.net.gone, s.trace[i]);
    }
  }

  // ---------------------------------------------------------- every step

  /** What a disclosure or a new lease finds when it happens. */
  ghost predicate Told(s: Agent, f: Event) {
    && (Disclosure(f) ==>
          && f.key in s.requests && f.permit == s.requests[f.key].epoch
          && SecretOk(s.trace, f.key, s.requests[f.key], f.outcome)
          && f.outcome.generation.value == s.books.generation
          && Holds(s.web, f.key.conn, Taker(f.key)) && f.key.conn !in s.net.gone)
    && (f.LeaseIssued? ==> NoLease(s.trace, f.conn))
  }

  ghost predicate News(s: Agent, t: Agent) {
    t.trace != s.trace ==> |t.trace| == |s.trace| + 1 && Told(s, t.trace[|s.trace|])
  }

  lemma FinishTells(s: Agent, k: Key, fits: bool, t: Agent)
    requires Browsing(s) && DoFinish(s, k, fits, t)
    requires k.conn in s.net.gone ==> Severed(s, k.conn)
    ensures News(s, t)
  {
    var r := s.requests[k];
    assert ReqWeb(s.trace, k, r);
    if Final(s, k, r, r.phase.outcome).body.Secret? {
      SecretFinal(s, k, r, r.phase.outcome);
      assert ReqHolds(s.web, k, r.phase);
    }
  }

  lemma LinkBrowses(s: Agent, a: LinkAction, t: Agent)
    requires Browsing(s) && LinkStep(s, a, t) && (forall c :: c in s.net.gone ==> Severed(s, c))
    ensures Browsing(t) && News(s, t)
  {
    match a {
      case Finish(k, fits) =>
        FinishKeeps(s, k, fits, t);
        FinishTells(s, k, fits, t);
      case Disconnect(c) => DisconnectKeeps(s, c, t);
      case _ =>
        LinkAside(s, a, t);
        AsideKeeps(s, t);
    }
  }

  lemma LifeBrowses(s: Agent, a: LifeAction, t: Agent)
    requires Browsing(s) && LifeStep(s, a, t)
    ensures Browsing(t) && News(s, t)
  {
    if a.Conclude? || a.Die? || a.LockGate? || a.LockTail? || a.Release? || a.Shutdown? {
      LockAside(s, a, t);
    } else {
      OpenAside(s, a, t);
    }
    AsideKeeps(s, t);
  }

  predicate Bookkeeping(a: CoreAction) { a.EnterCore? || a.CoreFail? || a.FailGate? || a.CoreStale? }

  lemma LeaseBrowses(s: Agent, a: CoreAction, t: Agent)
    requires Browsing(s) && CoreStep(s, a, t) && (forall c :: c in s.net.gone ==> Severed(s, c)) && !Bookkeeping(a)
    ensures Browsing(t) && News(s, t)
  {
    match a {
      case Claim(k) => ClaimKeeps(s, k, t);
      case Take(k) => TakeKeeps(s, k, t);
      case BrowserRead(k, found, token) =>
        if s.requests[k].phase.Claimed? {
          MatchReadKeeps(s, k, found, token, t);
        } else {
          SecretReadKeeps(s, k, found, token, t);
        }
      case WriteSlot(k) => WriteKeeps(s, k, t);
    }
  }

  lemma CoreBrowses(s: Agent, a: CoreAction, t: Agent)
    requires Browsing(s) && CoreStep(s, a, t) && (forall c :: c in s.net.gone ==> Severed(s, c))
    ensures Browsing(t) && News(s, t)
  {
    if Bookkeeping(a) {
      CoreAside(s, a, t);
      AsideKeeps(s, t);
    } else {
      LeaseBrowses(s, a, t);
    }
  }

  lemma CommitBrowses(s: Agent, k: Key, target: nat, acked: bool, t: Agent)
    requires Browsing(s) && DoCommit(s, k, target, acked, t)
    ensures Browsing(t) && News(s, t)
  {
    if acked && AccountOp(s.requests[k].op) {
      AckKeeps(s, k, target, t);
    } else {
      CommitAside(s, k, target, acked, t);
      AsideKeeps(s, t);
    }
  }

  lemma StoreBrowses(s: Agent, a: StoreAction, t: Agent)
    requires Browsing(s) && StoreStep(s, a, t)
    ensures Browsing(t) && News(s, t)
  {
    match a {
      case Commit(k, target, acked) => CommitBrowses(s, k, target, acked, t);
      case _ =>
        StoreAside(s, a, t);
        AsideKeeps(s, t);
    }
  }

  lemma StepBrowses(s: Agent, a: Action, t: Agent)
    requires Browsing(s) && Step(s, a, t) && (forall c :: c in s.net.gone ==> Severed(s, c))
    ensures Browsing(t) && News(s, t)
  {
    match a
    case Link(l) => LinkBrowses(s, l, t);
    case Life(l) => LifeBrowses(s, l, t);
    case Core(c) => CoreBrowses(s, c, t);
    case Store(c) => StoreBrowses(s, c, t);
  }

  // ------------------------------------------------------------ whole runs

  predicate Once(e: Event, f: Event) {
    && !(Disclosure(e) && Disclosure(f) && e.key.conn == f.key.conn)
    && !(e.LeaseIssued? && f.LeaseIssued? && e.conn == f.conn)
  }

  /** The disclosure at `m` follows one offer, for this request's own context and selection. */
  ghost predicate Warranted(s: Agent, m: nat)
    requires m < |s.trace|
  {
    Disclosure(s.trace[m]) ==>
      var f := s.trace[m];
      && f.key in s.requests
      && var r := s.requests[f.key];
         var at := f.outcome.body.leaseAt;
         var read := f.outcome.body.readAt;
         && at < read < m && r.op == GetSelectedCredential && r.epoch == f.permit
         && s.trace[read] == SecretRead(f.key, f.permit)
         && s.trace[at] == LeaseIssued(f.key.conn, r.context, f.permit, r.selection)
         && r.selection.record == f.outcome.body.record && r.selection.revision == f.outcome.body.revision
         && (forall i :: at <= i < m ==> !AccountAck(s.trace[i]))
  }

  ghost predicate Fair(s: Agent) {
    && Browsing(s)
    && (forall m :: 0 <= m < |s.trace| ==> Warranted(s, m))
    && (forall i, j :: 0 <= i < j < |s.trace| ==> Once(s.trace[i], s.trace[j]))
  }

  lemma NewWarrant(s: Agent, t: Agent)
    requires Browsing(s) && Grows(s, t) && |t.trace| == |s.trace| + 1 && t.trace[..|s.trace|] == s.trace
    requires Told(s, t.trace[|s.trace|])
    ensures Warranted(t, |s.trace|)
  {
    var m := |s.trace|;
    var f := t.trace[m];
    if Disclosure(f) {
      assert ReqKept(s, t, f.key);
      var at := f.outcome.body.leaseAt;
      assert Acked(s.trace) == Acked(s.trace[..at]);
      forall i | at <= i < m ensures !AccountAck(t.trace[i]) { EqualCounts(s.trace, at, i); }
    }
  }

  lemma OldWarrant(s: Agent, t: Agent, m: nat)
    requires m < |s.trace| <= |t.trace| && t.trace[..|s.trace|] == s.trace
    requires Grows(s, t) && Warranted(s, m)
    ensures Warranted(t, m)
  {
    if Disclosure(s.trace[m]) {
      assert ReqKept(s, t, s.trace[m].key);
      assert forall i :: 0 <= i < |s.trace| ==> t.trace[i] == s.trace[i];
    }
  }

  lemma FairExtends(s: Agent, t: Agent)
    requires Fair(s) && Browsing(t) && Grows(s, t) && Turns(s, t) && News(s, t)
    ensures Fair(t)
  {
    var n := |s.trace|;
    if t.trace == s.trace {
      forall m | 0 <= m < n ensures Warranted(t, m) { OldWarrant(s, t, m); }
      return;
    }
    forall m | 0 <= m < |t.trace| ensures Warranted(t, m) {
      if m < n { OldWarrant(s, t, m); } else { NewWarrant(s, t); }
    }
    forall i, j | 0 <= i < j < |t.trace| ensures Once(t.trace[i], t.trace[j]) {
      assert t.trace[i] == s.trace[i];
      if j < n { assert Once(s.trace[i], s.trace[j]); } else { assert Spoken(s.web, s.net.gone, s.trace[i]); }
    }
  }

  lemma StepKeepsFair(s: Agent, a: Action, t: Agent)
    requires Fair(s) && History(s) && Grows(s, t) && Turns(s, t) && Step(s, a, t)
    ensures Fair(t)
  {
    StepBrowses(s, a, t);
    FairExtends(s, t);
  }

  lemma InitFair(s: Agent)
    requires Init(s)
    ensures Fair(s)
  {
  }

  lemma NextKeepsFair(states: seq<Agent>, schedule: seq<Action>, i: nat)
    requires IsRun(states, schedule) && i < |schedule| && Fair(states[i])
    ensures Fair(states[i + 1])
  {
    RunsKeepHistory(states, schedule, i);
    NextKeepsHistory(states, schedule, i);
    assert Follows(states, schedule, i);
    StepKeepsFair(states[i], schedule[i], states[i + 1]);
  }

  lemma {:induction false} RunsKeepFair(states: seq<Agent>, schedule: seq<Action>, n: nat)
    requires IsRun(states, schedule) && n < |states|
    ensures Fair(states[n])
  {
    if n == 0 {
      InitFair(states[0]);
    } else {
      RunsKeepFair(states, schedule, n - 1);
      NextKeepsFair(states, schedule, n - 1);
    }
  }

  // -------------------------------------------------------------- theorems

  /** Event `at` offers what `f` discloses: same connection, context, epoch and selection. */
  predicate Offers(s: Agent, at: nat, f: Event)
    requires at < |s.trace| && f.Wrote? && f.key in s.requests
  {
    s.trace[at] == LeaseIssued(f.key.conn, s.requests[f.key].context, f.permit, s.requests[f.key].selection)
  }

  predicate AccountWrite(e: Event) { e.Durable? && e.change.AccountChange? }

  /** Nothing was written to an account before the secret was read at `read`, nothing acknowledged up to `to`. */
  predicate Calm(trace: seq<Event>, from: nat, read: nat, to: nat)
    requires from <= read <= to <= |trace|
  {
    && (forall i :: from <= i < read ==> !AccountWrite(trace[i]))
    && (forall i :: from <= i < to ==> !AccountAck(trace[i]))
  }

  /** An unacknowledged change after the offer would have closed the session the secret was read in. */
  lemma NoWriteBeforeRead(s: Agent, at: nat, i: nat, read: nat)
    requires History(s) && at <= i < read < |s.trace| && !AccountAck(s.trace[i])
    requires s.trace[at].LeaseIssued? && s.trace[read].SecretRead? && s.trace[at].epoch == s.trace[read].permit
    ensures !AccountWrite(s.trace[i])
  {
    if at < i { assert Ordered(s.trace[at], s.trace[i]) && Ordered(s.trace[i], s.trace[read]); }
  }

  /** Over a connection's whole life at most one credential is disclosed and one offer is made. */
  lemma SingleDisclosure(states: seq<Agent>, schedule: seq<Action>, n: nat, i: nat, j: nat)
    requires IsRun(states, schedule) && n < |states| && i < j < |states[n].trace|
    ensures
      var e, f := states[n].trace[i], states[n].trace[j];
      && !(Disclosure(e) && Disclosure(f) && e.key.conn == f.key.conn)
      && !(e.LeaseIssued? && f.LeaseIssued? && e.conn == f.conn)
    ensures |states[n].web.leases| <= MAX_CONNECTIONS
  {
    RunsKeepFair(states, schedule, n);
    assert Once(states[n].trace[i], states[n].trace[j]);
  }

  /** Some earlier offer and read answer to the disclosure at `m`, with the accounts unchanged. */
  ghost predicate Unchanged(s: Agent, m: nat)
    requires m < |s.trace| && Disclosure(s.trace[m])
  {
    var f := s.trace[m];
    && f.key in s.requests
    && s.requests[f.key].selection.record == f.outcome.body.record
    && s.requests[f.key].selection.revision == f.outcome.body.revision
    && (exists at, read :: 0 <= at < read < m && Offers(s, at, f)
          && s.trace[read] == SecretRead(f.key, f.permit) && Calm(s.trace, at, read, m))
  }

  lemma WarrantedUnchanged(s: Agent, m: nat)
    requires History(s) && m < |s.trace| && Disclosure(s.trace[m]) && Warranted(s, m)
    ensures Unchanged(s, m)
  {
    var f := s.trace[m];
    var at, read := f.outcome.body.leaseAt, f.outcome.body.readAt;
    forall i | at <= i < read ensures !AccountWrite(s.trace[i]) { NoWriteBeforeRead(s, at, i, read); }
    assert Offers(s, at, f) && Calm(s.trace, at, read, m);
  }

  /**
   * Unchanged accounts. A disclosure answers the connection's own earlier offer with equal
   * context, selection and epoch. Between the offer and the read of the secret no account write
   * became durable, and until the answer none succeeded: only a write that the store committed
   * and then failed to read back can fall between the read and the answer. The counter is exact
   * until it saturates and disclosures stop there, so this holds at saturation too.
   */
  lemma UnchangedAccounts(states: seq<Agent>, schedule: seq<Action>, n: nat, m: nat)
    requires IsRun(states, schedule) && n < |states| && m < |states[n].trace| && Disclosure(states[n].trace[m])
    ensures Unchanged(states[n], m)
  {
    RunsKeepHistory(states, schedule, n);
    RunsKeepFair(states, schedule, n);
    WarrantedUnchanged(states[n], m);
  }

  /** The change counter counts successful account changes until it saturates. */
  lemma GenerationCounts(states: seq<Agent>, schedule: seq<Action>, n: nat)
    requires IsRun(states, schedule) && n < |states|
    ensures states[n].books.generation == Min(U64_MAX, 1 + Acked(states[n].trace))
  {
    RunsKeepFair(states, schedule, n);
  }
}
