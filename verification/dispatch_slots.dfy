/** The lease slots of connections that are already gone: who holds one, for how long, what it costs. */
module DispatchSlots {
  import opened Base
  import opened Tables
  import Session
  import opened Dispatch
  import opened DispatchFrame
  import opened DispatchOrder
  import opened DispatchBrowser

  // -------------------------------------------------------- slots in a trace

  /** A Claim of one of the connection's requests took effect. */
  predicate ClaimOf(e: Event, c: nat) { e.SlotClaimed? && e.key.conn == c }

  function SlotsAfter(slots: set<nat>, e: Event): set<nat> {
    if e.SlotClaimed? then slots + {e.key.conn} else if e.DisconnectApplied? then slots - {e.conn} else slots
  }

  function GoneAfter(gone: set<nat>, e: Event): set<nat> {
    if e.DisconnectApplied? then gone + {e.conn} else gone
  }

  /** The connection claimed its slot and has not been disconnected since. */
  ghost predicate Occupies(trace: seq<Event>, c: nat) {
    exists j :: 0 <= j < |trace| && ClaimOf(trace[j], c) && Connected(trace, j, c)
  }

  predicate Connected(trace: seq<Event>, from: nat, c: nat) {
    forall i :: from < i < |trace| ==> trace[i] != DisconnectApplied(c)
  }

  /** The slots are the claims not followed by a disconnect; the departures are the disconnects. */
  ghost predicate Ledger(s: Agent) {
    && (forall c :: c in s.web.leases <==> Occupies(s.trace, c))
    && (forall c :: c in s.net.gone <==> DisconnectApplied(c) in s.trace)
  }

  // -------------------------------------------------------------- every step

  ghost predicate Accounted(s: Agent, t: Agent) {
    if t.trace == s.trace then t.web.leases.Keys == s.web.leases.Keys && t.net.gone == s.net.gone
    else
      && |t.trace| == |s.trace| + 1 && t.trace == s.trace + [t.trace[|s.trace|]]
      && t.web.leases.Keys == SlotsAfter(s.web.leases.Keys, t.trace[|s.trace|])
      && t.net.gone == GoneAfter(s.net.gone, t.trace[|s.trace|])
      && (t.trace[|s.trace|].DisconnectApplied? ==> t.trace[|s.trace|].conn !in s.net.gone)
  }

  lemma AsideAccounted(s: Agent, t: Agent)
    requires Aside(s, t)
    ensures Accounted(s, t)
  {
  }

  lemma FinishAccounted(s: Agent, k: Key, fits: bool, t: Agent)
    requires DoFinish(s, k, fits, t)
    ensures Accounted(s, t)
  {
  }

  lemma LinkAccounted(s: Agent, a: LinkAction, t: Agent)
    requires LinkStep(s, a, t)
    ensures Accounted(s, t)
  {
    if a.Finish? {
      FinishAccounted(s, a.key, a.fits, t);
    } else if !a.Disconnect? {
      LinkAside(s, a, t);
    }
  }

  lemma LifeAccounted(s: Agent, a: LifeAction, t: Agent)
    requires LifeStep(s, a, t)
    ensures Accounted(s, t)
  {
    if a.Conclude? || a.Die? || a.LockGate? || a.LockTail? || a.Release? || a.Shutdown? {
      LockAside(s, a, t);
    } else {
      OpenAside(s, a, t);
    }
    AsideAccounted(s, t);
  }

  lemma TakeAccounted(s: Agent, k: Key, t: Agent)
    requires DoTake(s, k, t)
    ensures Accounted(s, t)
  {
  }

  lemma ReadAccounted(s: Agent, k: Key, found: Option<(nat, nat)>, token: nat, t: Agent)
    requires DoBrowserRead(s, k, found, token, t)
    ensures Accounted(s, t)
  {
  }

  lemma CoreAccounted(s: Agent, a: CoreAction, t: Agent)
    requires CoreStep(s, a, t)
    ensures Accounted(s, t)
  {
    match a {
      case Claim(k) =>
      case Take(k) => TakeAccounted(s, k, t);
      case BrowserRead(k, found, token) => ReadAccounted(s, k, found, token, t);
      case WriteSlot(k) =>
      case _ =>
        CoreAside(s, a, t);
        AsideAccounted(s, t);
    }
  }

  lemma CommitAccounted(s: Agent, k: Key, target: nat, acked: bool, t: Agent)
    requires DoCommit(s, k, target, acked, t)
    ensures Accounted(s, t)
  {
    if !acked || !AccountOp(s.requests[k].op) { CommitAside(s, k, target, acked, t); }
  }

  lemma StoreAccounted(s: Agent, a: StoreAction, t: Agent)
    requires StoreStep(s, a, t)
    ensures Accounted(s, t)
  {
    if a.Commit? {
      CommitAccounted(s, a.key, a.target, a.acked, t);
    } else {
      StoreAside(s, a, t);
      AsideAccounted(s, t);
    }
  }

  lemma StepAccounted(s: Agent, a: Action, t: Agent)
    requires Step(s, a, t)
    ensures Accounted(s, t)
  {
    match a
    case Link(l) => LinkAccounted(s, l, t);
    case Life(l) => LifeAccounted(s, l, t);
    case Core(c) => CoreAccounted(s, c, t);
    case Store(c) => StoreAccounted(s, c, t);
  }

  // --------------------------------------------------------------- whole runs

  lemma OccupiesNext(trace: seq<Event>, e: Event, c: nat)
    ensures Occupies(trace + [e], c) <==> ClaimOf(e, c) || (Occupies(trace, c) && e != DisconnectApplied(c))
  {
    var next := trace + [e];
    if ClaimOf(e, c) { assert ClaimOf(next[|trace|], c) && Connected(next, |trace|, c); }
    if Occupies(trace, c) && e != DisconnectApplied(c) {
      var j :| 0 <= j < |trace| && ClaimOf(trace[j], c) && Connected(trace, j, c);
      assert ClaimOf(next[j], c) && Connected(next, j, c);
    }
    if Occupies(next, c) && !ClaimOf(e, c) {
      var j :| 0 <= j < |next| && ClaimOf(next[j], c) && Connected(next, j, c);
      assert next[|trace|] == e;
      forall i | j < i < |trace| ensures trace[i] != DisconnectApplied(c) { assert next[i] == trace[i]; }
      assert ClaimOf(trace[j], c) && Connected(trace, j, c);
    }
  }

  lemma LedgerExtends(s: Agent, t: Agent)
    requires Ledger(s) && Accounted(s, t)
    ensures Ledger(t)
  {
    if t.trace != s.trace {
      forall c ensures c in t.web.leases <==> Occupies(t.trace, c) {
        assert c in t.web.leases.Keys <==> c in t.web.leases;
        OccupiesNext(s.trace, t.trace[|s.trace|], c);
      }
    } else {
      forall c ensures c in t.web.leases <==> Occupies(t.trace, c) {
        assert c in t.web.leases.Keys <==> c in s.web.leases.Keys;
      }
    }
  }

  lemma NextAccounted(states: seq<Agent>, schedule: seq<Action>, n: nat)
    requires IsRun(states, schedule) && n < |schedule|
    ensures Accounted(states[n], states[n + 1])
  {
    assert Follows(states, schedule, n);
    StepAccounted(states[n], schedule[n], states[n + 1]);
  }

  lemma InitLedger(s: Agent)
    requires Init(s)
    ensures Ledger(s)
  {
  }

  lemma {:induction false} RunsKeepLedger(states: seq<Agent>, schedule: seq<Action>, n: nat)
    requires IsRun(states, schedule) && n < |states|
    ensures Ledger(states[n])
  {
    if n == 0 {
      InitLedger(states[0]);
    } else {
      RunsKeepLedger(states, schedule, n - 1);
      NextAccounted(states, schedule, n - 1);
      LedgerExtends(states[n - 1], states[n]);
    }
  }

  // ----------------------------------------------------------------- theorems

  /** A Claim of the connection took effect after its disconnect. */
  ghost predicate LateClaim(trace: seq<Event>, c: nat) {
    exists i, j :: 0 <= i < j < |trace| && trace[i] == DisconnectApplied(c) && ClaimOf(trace[j], c)
  }

  lemma OneDisconnect(s: Agent, i: nat, j: nat, c: nat)
    requires History(s) && i < j < |s.trace|
    ensures !(s.trace[i] == DisconnectApplied(c) && s.trace[j] == DisconnectApplied(c))
  {
    assert Ordered(s.trace[i], s.trace[j]);
  }

  lemma LateOccupier(s: Agent, c: nat)
    requires History(s) && DisconnectApplied(c) in s.trace
    ensures Occupies(s.trace, c) <==> LateClaim(s.trace, c)
  {
    var d :| 0 <= d < |s.trace| && s.trace[d] == DisconnectApplied(c);
    forall i | 0 <= i < |s.trace| && i != d ensures s.trace[i] != DisconnectApplied(c) {
      OneDisconnect(s, if i < d then i else d, if i < d then d else i, c);
    }
    if LateClaim(s.trace, c) {
      var i, j :| 0 <= i < j < |s.trace| && s.trace[i] == DisconnectApplied(c) && ClaimOf(s.trace[j], c);
      assert Connected(s.trace, j, c);
    }
    if Occupies(s.trace, c) {
      var j :| 0 <= j < |s.trace| && ClaimOf(s.trace[j], c) && Connected(s.trace, j, c);
      assert d < j;
    }
  }

  /**
   * A connection that is gone holds a lease slot exactly when a Claim of one of its requests took
   * effect after its disconnect; one that is still there, exactly when some Claim of its took effect.
   */
  lemma SlotOfTheGone(states: seq<Agent>, schedule: seq<Action>, n: nat, c: nat)
    requires IsRun(states, schedule) && n < |states|
    ensures c in states[n].net.gone ==> (c in states[n].web.leases <==> LateClaim(states[n].trace, c))
    ensures c !in states[n].net.gone ==>
              (c in states[n].web.leases <==> exists e :: e in states[n].trace && ClaimOf(e, c))
  {
    var s := states[n];
    RunsKeepLedger(states, schedule, n);
    if c in s.net.gone {
      RunsKeepHistory(states, schedule, n);
      LateOccupier(s, c);
    } else if e :| e in s.trace && ClaimOf(e, c) {
      var j :| 0 <= j < |s.trace| && s.trace[j] == e;
      assert Connected(s.trace, j, c);
    }
  }

  /** The connections that are gone and hold a slot. */
  function Leaked(s: Agent): set<nat> { s.web.leases.Keys * s.net.gone }

  lemma LeakedGrows(states: seq<Agent>, schedule: seq<Action>, n: nat)
    requires IsRun(states, schedule) && n < |schedule|
    ensures Leaked(states[n]) <= Leaked(states[n + 1])
  {
    NextAccounted(states, schedule, n);
  }

  /** Such a slot is never returned: it stays in every continuation. */
  lemma {:induction false} LeakIsPermanent(states: seq<Agent>, schedule: seq<Action>, m: nat, n: nat)
    requires IsRun(states, schedule) && m <= n < |states|
    ensures Leaked(states[m]) <= Leaked(states[n])
  {
    if m < n {
      LeakIsPermanent(states, schedule, m, n - 1);
      LeakedGrows(states, schedule, n - 1);
    }
  }

  lemma SubsetFills(a: set<nat>, b: set<nat>)
    requires a <= b && |b| <= |a|
    ensures a == b
  {
    assert b == a + (b - a);
  }

  /** With every slot leaked, no connection that is still there has one. */
  lemma AllLeaked(states: seq<Agent>, schedule: seq<Action>, m: nat, n: nat)
    requires IsRun(states, schedule) && m <= n < |states| && |Leaked(states[m])| >= MAX_CONNECTIONS
    ensures states[n].web.leases.Keys == Leaked(states[m]) && |states[n].web.leases| == MAX_CONNECTIONS
    ensures states[n].web.leases.Keys <= states[n].net.gone
  {
    LeakIsPermanent(states, schedule, m, n);
    RunsKeepFair(states, schedule, n);
    assert |states[n].web.leases.Keys| == |states[n].web.leases|;
    SubsetFills(Leaked(states[m]), states[n].web.leases.Keys);
  }

  lemma ClaimRefused(s: Agent, k: Key, t: Agent)
    requires DoClaim(s, k, t) && |s.web.leases| >= MAX_CONNECTIONS
    ensures t == Fail(s, k, if k.conn in s.web.leases then InvalidRequest else Busy)
  {
  }

  /**
   * Once as many connections as there are slots are gone and hold one, every later Claim of a
   * connection that is still there ends Busy, for the life of the agent.
   */
  lemma ExhaustedClaims(states: seq<Agent>, schedule: seq<Action>, m: nat, n: nat, k: Key)
    requires IsRun(states, schedule) && m <= n < |schedule| && |Leaked(states[m])| >= MAX_CONNECTIONS
    requires schedule[n] == Core(Claim(k))
    ensures k in states[n].requests
    ensures states[n + 1] == Fail(states[n], k, if k.conn in Leaked(states[m]) then InvalidRequest else Busy)
    ensures k.conn !in states[n].net.gone ==> states[n + 1] == Fail(states[n], k, Busy)
  {
    AllLeaked(states, schedule, m, n);
    assert Follows(states, schedule, n);
    ClaimRefused(states[n], k, states[n + 1]);
  }

  lemma NextTells(states: seq<Agent>, schedule: seq<Action>, n: nat)
    requires IsRun(states, schedule) && n < |schedule|
    ensures News(states[n], states[n + 1])
  {
    RunsKeepHistory(states, schedule, n);
    RunsKeepFair(states, schedule, n);
    assert Follows(states, schedule, n);
    StepBrowses(states[n], schedule[n], states[n + 1]);
  }

  /** No disclosure from index `start` on. */
  predicate Silent(trace: seq<Event>, start: nat) {
    forall i :: start <= i < |trace| ==> !Disclosure(trace[i])
  }

  lemma SilentExtends(s: Agent, t: Agent, start: nat)
    requires Silent(s.trace, start) && Accounted(s, t) && News(s, t)
    requires Browsing(s) && s.web.leases.Keys <= s.net.gone
    ensures Silent(t.trace, start)
  {
    if t.trace != s.trace {
      var f := t.trace[|s.trace|];
      assert Told(s, f);
      assert f.Wrote? && f.key.conn in s.web.leases ==> f.key.conn in s.web.leases.Keys;
    }
  }

  lemma NextSilent(states: seq<Agent>, schedule: seq<Action>, m: nat, n: nat, start: nat)
    requires IsRun(states, schedule) && m <= n < |schedule| && |Leaked(states[m])| >= MAX_CONNECTIONS
    requires Silent(states[n].trace, start)
    ensures Silent(states[n + 1].trace, start)
  {
    AllLeaked(states, schedule, m, n);
    RunsKeepFair(states, schedule, n);
    NextTells(states, schedule, n);
    NextAccounted(states, schedule, n);
    SilentExtends(states[n], states[n + 1], start);
  }

  /** And no credential is disclosed any more. */
  lemma {:induction false} ExhaustedIsSilent(states: seq<Agent>, schedule: seq<Action>, m: nat, n: nat)
    requires IsRun(states, schedule) && m <= n < |states| && |Leaked(states[m])| >= MAX_CONNECTIONS
    ensures Silent(states[n].trace, |states[m].trace|)
  {
    if m < n {
      ExhaustedIsSilent(states, schedule, m, n - 1);
      NextSilent(states, schedule, m, n - 1, |states[m].trace|);
    }
  }
}
