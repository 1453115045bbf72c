/** The idempotency cache: bounded, oldest outcome evicted first, one reservation per key. */
module Idempotency {
  import opened Base
  import opened Tables
  import Dispatch

  const MAX_RESULTS: nat := 1024

  datatype Entry = Entry(fingerprint: nat, error: Option<ErrorCode>, retry: RetryCategory, body: seq<byte>)

  datatype Cache = Cache(cached: map<nat, Entry>, order: seq<nat>, inFlight: set<nat>, vault: Option<nat>)

  datatype Decision = Replay(entry: Entry) | Conflicting | NoRoom | AlreadyRunning | Reserved

  /** Outcomes a retry would repeat; anything transient is left out. */
  predicate ShouldCache(error: Option<ErrorCode>, retry: RetryCategory) {
    || error.None?
    || error.value == InvalidRequest || error.value == NotFound || error.value == Conflict
    || (error.value == OperationFailed && retry == Never)
  }

  ghost predicate Distinct(xs: seq<nat>) {
    forall i, j :: 0 <= i < j < |xs| ==> xs[i] != xs[j]
  }

  ghost predicate Invariant(c: Cache) {
    && Distinct(c.order)
    && (forall k :: k in c.cached <==> k in c.order)
    && c.cached.Keys !! c.inFlight
    && |c.order| + |c.inFlight| <= MAX_RESULTS
    && (forall k :: k in c.cached ==> ShouldCache(c.cached[k].error, c.cached[k].retry))
  }

  function Keys(xs: seq<nat>): set<nat> { set x | x in xs }

  lemma {:induction false} DistinctKeys(xs: seq<nat>)
    requires Distinct(xs)
    ensures |Keys(xs)| == |xs|
  {
    if xs != [] {
      DistinctKeys(xs[1..]);
      assert Keys(xs) == {xs[0]} + Keys(xs[1..]);
      assert xs[0] !in Keys(xs[1..]);
    }
  }

  lemma OrderCounts(c: Cache)
    requires Distinct(c.order) && (forall k :: k in c.cached <==> k in c.order)
    ensures |c.cached| == |c.order|
  {
    DistinctKeys(c.order);
    assert c.cached.Keys == Keys(c.order);
  }

  // --------------------------------------------------------- specification

  /** Drops oldest outcomes until one more key fits or nothing is left to drop. */
  function Evict(c: Cache): Cache
    decreases |c.order|
  {
    if |c.cached| + |c.inFlight| < MAX_RESULTS || c.order == [] then c
    else Evict(c.(cached := c.cached - {c.order[0]}, order := c.order[1..]))
  }

  function Reserve(c: Cache, key: nat, fingerprint: nat): (Cache, Decision) {
    if key in c.cached then
      (c, if c.cached[key].fingerprint == fingerprint then Replay(c.cached[key]) else Conflicting)
    else if key in c.inFlight then (c, AlreadyRunning)
    else
      var room := Evict(c);
      if |room.cached| + |c.inFlight| >= MAX_RESULTS then (room, NoRoom)
      else (room.(inFlight := c.inFlight + {key}), Reserved)
  }

  /** The completion of a reservation; false stands for the runtime's internal error. */
  function Complete(c: Cache, key: nat, entry: Option<Entry>): (Cache, bool) {
    var released := c.(inFlight := c.inFlight - {key});
    if key !in c.inFlight then (c, false)
    else if entry.None? then (released, true)
    else if key in c.cached then (released.(cached := c.cached[key := entry.value]), false)
    else (released.(cached := c.cached[key := entry.value], order := c.order + [key]), true)
  }

  function Abandon(c: Cache, key: nat): Cache { c.(inFlight := c.inFlight - {key}) }

  function Cleared(c: Cache, vault: nat): Cache { c.(cached := map[], order := [], vault := Some(vault)) }

  /** Binding at unlock: refused while anything is in flight under another vault. */
  function Bind(c: Cache, vault: nat): (Cache, bool) {
    if c.vault == Some(vault) then (c, true)
    else if c.inFlight != {} then (c, false)
    else (Cleared(c, vault), true)
  }

  /** Binding at creation: the creation's own reservation stays in flight. */
  function Initialize(c: Cache, vault: nat): (Cache, bool) {
    if c.vault.Some? then (c, c.vault.value == vault) else (Cleared(c, vault), true)
  }

  // ------------------------------------------------------------ the object

  class IdempotencyState {
    var cached: map<nat, Entry>
    var order: seq<nat>
    var inFlight: set<nat>
    var vault: Option<nat>

    ghost function State(): Cache
      reads this
    {
      Cache(cached, order, inFlight, vault)
    }

    constructor ()
      ensures State() == Cache(map[], [], {}, None)
    {
      cached, order, inFlight, vault := map[], [], {}, None;
    }

    method ReserveOne(key: nat, fingerprint: nat) returns (d: Decision)
      modifies this
      ensures (State(), d) == Reserve(old(State()), key, fingerprint)
    {
      if key in cached {
        return if cached[key].fingerprint != fingerprint then Conflicting else Replay(cached[key]);
      }
      if key in inFlight { return AlreadyRunning; }
      var room := EvictForRoom();
      if !room { return NoRoom; }
      inFlight := inFlight + {key};
      return Reserved;
    }

    method EvictForRoom() returns (room: bool)
      modifies this`cached, this`order
      ensures State() == Evict(old(State()))
      ensures room == (|cached| + |inFlight| < MAX_RESULTS)
    {
      while |cached| + |inFlight| >= MAX_RESULTS
        invariant Evict(State()) == Evict(old(State()))
        decreases |order|
      {
        if order == [] { return false; }
        var oldest := order[0];
        order := order[1..];
        cached := cached - {oldest};
      }
      return true;
    }

    method CompleteOne(key: nat, entry: Option<Entry>) returns (ok: bool)
      modifies this
      ensures (State(), ok) == Complete(old(State()), key, entry)
    {
      if key !in inFlight { return false; }
      inFlight := inFlight - {key};
      if entry.Some? {
        var replaced := key in cached;
        cached := cached[key := entry.value];
        if replaced { return false; }
        order := order + [key];
      }
      return true;
    }

    method AbandonOne(key: nat)
      modifies this
      ensures State() == Abandon(old(State()), key)
    {
      inFlight := inFlight - {key};
    }

    method BindVault(v: nat) returns (ok: bool)
      modifies this
      ensures (State(), ok) == Bind(old(State()), v)
    {
      if vault == Some(v) { return true; }
      if inFlight != {} { return false; }
      cached, order, vault := map[], [], Some(v);
      return true;
    }

    method InitializeVault(v: nat) returns (ok: bool)
      modifies this
      ensures (State(), ok) == Initialize(old(State()), v)
    {
      if vault.Some? { return vault.value == v; }
      cached, order, vault := map[], [], Some(v);
      return true;
    }
  }

  // --------------------------------------------------------------- eviction

  lemma DropOldest(c: Cache)
    requires Invariant(c) && c.order != []
    ensures Invariant(c.(cached := c.cached - {c.order[0]}, order := c.order[1..]))
  {
    var d := c.(cached := c.cached - {c.order[0]}, order := c.order[1..]);
    forall k ensures k in d.cached <==> k in d.order {
      assert c.order == [c.order[0]] + d.order;
      if k in d.order {
        var j :| 0 <= j < |d.order| && d.order[j] == k;
        assert c.order[0] != c.order[j + 1];
      }
    }
  }

  /** Eviction drops the fewest oldest outcomes that make room, and changes nothing else. */
  lemma {:induction false} EvictFacts(c: Cache, n: nat)
    requires Invariant(c)
    requires n == if |c.order| + |c.inFlight| < MAX_RESULTS then 0
                  else Min(|c.order|, |c.order| + |c.inFlight| - (MAX_RESULTS - 1))
    ensures Invariant(Evict(c)) && Evict(c).order == c.order[n..]
    ensures Evict(c).inFlight == c.inFlight && Evict(c).vault == c.vault
    ensures forall k :: k in Evict(c).cached ==> k in c.cached && Evict(c).cached[k] == c.cached[k]
    decreases |c.order|
  {
    OrderCounts(c);
    if |c.order| + |c.inFlight| >= MAX_RESULTS && c.order != [] {
      DropOldest(c);
      EvictFacts(c.(cached := c.cached - {c.order[0]}, order := c.order[1..]), n - 1);
      assert c.order[1..][n - 1..] == c.order[n..];
    }
  }

  // ---------------------------------------------------------- whole runs

  /** A dispatch is identified by the key under which the coordinator registers it. */
  type Dispatcher = Dispatch.Key

  /** What a dispatch reserved: its idempotency key and the fingerprint of its own request. */
  datatype Hold = Hold(key: nat, fingerprint: nat)

  datatype Call =
    | EnterCall(who: Dispatcher)                   // takes one of the global permits
    | ExitCall(who: Dispatcher)
    | ReserveCall(who: Dispatcher, key: nat, fingerprint: nat)
    | CompleteCall(who: Dispatcher, error: Option<ErrorCode>, retry: RetryCategory, body: seq<byte>)
    | AbandonCall(who: Dispatcher)
    | BindCall(vault: nat)
    | InitializeCall(vault: nat)

  /**
   * The cache, every outcome cached since it was last cleared, the registered dispatches and the
   * reservation objects they own.
   */
  datatype Logged = Logged(
    cache: Cache, log: seq<(nat, Entry)>, registered: set<Dispatcher>, holds: map<Dispatcher, Hold>)

  function EntryOf(h: Hold, call: Call): Option<Entry>
    requires call.CompleteCall?
  {
    if ShouldCache(call.error, call.retry)
    then Some(Entry(h.fingerprint, call.error, call.retry, call.body)) else None
  }

  /**
   * Who may call: a dispatch enters below the global limit and leaves after its reservation is
   * gone; it reserves once; and only the owner of a reservation completes or drops it.
   */
  predicate Legal(s: Logged, call: Call) {
    match call
    case EnterCall(d) => d !in s.registered && |s.registered| < MAX_IN_FLIGHT_GLOBAL
    case ExitCall(d) => d in s.registered && d !in s.holds
    case ReserveCall(d, _, _) => d in s.registered && d !in s.holds
    case CompleteCall(d, _, _, _) => d in s.holds
    case AbandonCall(d) => d in s.holds
    case _ => true
  }

  function Next(s: Logged, call: Call): Logged
    requires Legal(s, call)
  {
    match call
    case EnterCall(d) => s.(registered := s.registered + {d})
    case ExitCall(d) => s.(registered := s.registered - {d})
    case ReserveCall(d, key, fingerprint) =>
      var (cache, decision) := Reserve(s.cache, key, fingerprint);
      s.(cache := cache, holds := if decision == Reserved then s.holds[d := Hold(key, fingerprint)] else s.holds)
    case CompleteCall(d, _, _, _) =>
      var entry := EntryOf(s.holds[d], call);
      var (cache, ok) := Complete(s.cache, s.holds[d].key, entry);
      Logged(cache, if ok && entry.Some? then s.log + [(s.holds[d].key, entry.value)] else s.log,
             s.registered, s.holds - {d})
    case AbandonCall(d) => s.(cache := Abandon(s.cache, s.holds[d].key), holds := s.holds - {d})
    case BindCall(vault) =>
      var next := Bind(s.cache, vault).0;
      s.(cache := next, log := if s.cache.vault == next.vault then s.log else [])
    case InitializeCall(vault) =>
      var next := Initialize(s.cache, vault).0;
      s.(cache := next, log := if s.cache.vault == next.vault then s.log else [])
  }

  // ------------------------------------------------------------- ownership

  /** Registered owners, one per key in flight and none without one. */
  ghost predicate Owned(inFlight: set<nat>, registered: set<Dispatcher>, holds: map<Dispatcher, Hold>) {
    && holds.Keys <= registered
    && (forall d, e :: d in holds && e in holds && holds[d].key == holds[e].key ==> d == e)
    && (forall d :: d in holds ==> holds[d].key in inFlight)
    && (forall k :: k in inFlight ==> Owner(holds, k))
  }

  ghost predicate Owner(holds: map<Dispatcher, Hold>, k: nat) {
    exists d :: d in holds && holds[d].key == k
  }

  /** There are as many keys in flight as reservations held. */
  lemma {:induction false} OneKeyEach(inFlight: set<nat>, holds: map<Dispatcher, Hold>)
    requires Owned(inFlight, holds.Keys, holds)
    ensures |inFlight| == |holds|
    decreases |holds|
  {
    if holds.Keys == {} {
      assert inFlight == {} by { assert forall k :: k in inFlight ==> Owner(holds, k); }
      assert |holds| == |holds.Keys|;
    } else {
      var d :| d in holds;
      var k, rest := holds[d].key, holds - {d};
      Released(inFlight, holds.Keys, holds, d);
      assert rest.Keys == holds.Keys - {d};
      assert |rest| == |rest.Keys| && |holds| == |holds.Keys|;
      OneKeyEach(inFlight - {k}, rest);
    }
  }

  lemma Released(inFlight: set<nat>, registered: set<Dispatcher>, holds: map<Dispatcher, Hold>, d: Dispatcher)
    requires Owned(inFlight, registered, holds) && d in holds
    ensures Owned(inFlight - {holds[d].key}, registered, holds - {d})
    ensures Owned(inFlight - {holds[d].key}, (holds - {d}).Keys, holds - {d})
  {
    forall k | k in inFlight - {holds[d].key} ensures Owner(holds - {d}, k) {
      assert Owner(holds, k);
      var e :| e in holds && holds[e].key == k;
      assert e in holds - {d};
    }
  }

  lemma Acquired(inFlight: set<nat>, registered: set<Dispatcher>, holds: map<Dispatcher, Hold>, d: Dispatcher, h: Hold)
    requires Owned(inFlight, registered, holds) && d in registered && d !in holds && h.key !in inFlight
    ensures Owned(inFlight + {h.key}, registered, holds[d := h])
  {
    forall k | k in inFlight + {h.key} ensures Owner(holds[d := h], k) {
      if k == h.key {
        assert holds[d := h][d].key == k;
      } else {
        assert Owner(holds, k);
        var e :| e in holds && holds[e].key == k;
        assert holds[d := h][e].key == k;
      }
    }
  }

  /** A registered dispatch that holds nothing leaves room below the limit. */
  lemma RoomToReserve(inFlight: set<nat>, registered: set<Dispatcher>, holds: map<Dispatcher, Hold>)
    requires Owned(inFlight, registered, holds) && |registered| <= MAX_IN_FLIGHT_GLOBAL
    ensures |inFlight| <= MAX_IN_FLIGHT_GLOBAL
    ensures holds.Keys != registered ==> |inFlight| < MAX_IN_FLIGHT_GLOBAL
  {
    OneKeyEach(inFlight, holds);
    assert |holds| == |holds.Keys|;
    assert registered == holds.Keys + (registered - holds.Keys);
    if holds.Keys != registered { assert registered - holds.Keys != {}; }
  }

  // ------------------------------------------------------ what every run keeps

  /** Outcomes guaranteed to survive: the cache's room beside the global limit. */
  const SURVIVORS: nat := MAX_RESULTS - MAX_IN_FLIGHT_GLOBAL

  ghost predicate Remembers(cached: map<nat, Entry>, logged: (nat, Entry)) {
    logged.0 in cached && cached[logged.0] == logged.1
  }

  /** The order is the tail of the log, and every outcome in that tail is cached as logged. */
  ghost predicate Tail(cached: map<nat, Entry>, order: seq<nat>, log: seq<(nat, Entry)>) {
    && |order| <= |log|
    && (forall i :: 0 <= i < |order| ==> log[|log| - |order| + i].0 == order[i])
    && (forall i :: |log| - |order| <= i < |log| ==> Remembers(cached, log[i]))
  }

  /** The cached keys, oldest first, are the newest logged ones; at least the last 992 of them. */
  ghost predicate CacheOk(c: Cache, log: seq<(nat, Entry)>) {
    Invariant(c) && Tail(c.cached, c.order, log) && Min(SURVIVORS, |log|) <= |c.order|
  }

  ghost predicate LoggedOk(s: Logged) {
    && CacheOk(s.cache, s.log)
    && Owned(s.cache.inFlight, s.registered, s.holds) && |s.registered| <= MAX_IN_FLIGHT_GLOBAL
  }

  lemma TailShrinks(cached: map<nat, Entry>, order: seq<nat>, log: seq<(nat, Entry)>, n: nat, kept: map<nat, Entry>)
    requires Tail(cached, order, log) && n <= |order|
    requires forall k :: k in order[n..] ==> k in kept && k in cached && kept[k] == cached[k]
    ensures Tail(kept, order[n..], log)
  {
    var rest := order[n..];
    forall i | 0 <= i < |rest| ensures log[|log| - |rest| + i].0 == rest[i] {
      assert log[|log| - |order| + (n + i)].0 == order[n + i];
    }
    forall i | |log| - |rest| <= i < |log| ensures Remembers(kept, log[i]) {
      assert Remembers(cached, log[i]);
      assert log[i].0 == rest[i - (|log| - |rest|)];
    }
  }

  /** Making room keeps the last 992 outcomes, and always leaves room. */
  lemma EvictKeepsTail(c: Cache, log: seq<(nat, Entry)>)
    requires Invariant(c) && |c.inFlight| < MAX_IN_FLIGHT_GLOBAL
    requires Tail(c.cached, c.order, log) && Min(SURVIVORS, |log|) <= |c.order|
    ensures Invariant(Evict(c)) && Evict(c).inFlight == c.inFlight && Evict(c).cached.Keys <= c.cached.Keys
    ensures Tail(Evict(c).cached, Evict(c).order, log) && Min(SURVIVORS, |log|) <= |Evict(c).order|
    ensures |Evict(c).cached| == |Evict(c).order| && |Evict(c).order| + |c.inFlight| < MAX_RESULTS
  {
    var count := |c.order| + |c.inFlight|;
    var n := if count < MAX_RESULTS then 0 else count - (MAX_RESULTS - 1);
    EvictFacts(c, n);
    OrderCounts(Evict(c));
    forall k | k in c.order[n..] ensures k in Evict(c).cached && k in c.cached && Evict(c).cached[k] == c.cached[k] {
      assert k in Evict(c).order;
    }
    TailShrinks(c.cached, c.order, log, n, Evict(c).cached);
  }

  lemma AdmitKeeps(c: Cache, log: seq<(nat, Entry)>, key: nat)
    requires CacheOk(c, log) && key !in c.cached && key !in c.inFlight && |c.order| + |c.inFlight| < MAX_RESULTS
    ensures CacheOk(c.(inFlight := c.inFlight + {key}), log)
  {
    assert |c.inFlight + {key}| == |c.inFlight| + 1;
  }

  /** Below the limit a reservation always finds room. */
  lemma ReserveKeepsCache(c: Cache, log: seq<(nat, Entry)>, key: nat, fingerprint: nat)
    requires CacheOk(c, log) && |c.inFlight| < MAX_IN_FLIGHT_GLOBAL
    ensures CacheOk(Reserve(c, key, fingerprint).0, log) && Reserve(c, key, fingerprint).1 != NoRoom
    ensures Reserve(c, key, fingerprint).1 == Reserved <==> key !in c.cached && key !in c.inFlight
    ensures Reserve(c, key, fingerprint).0.inFlight
            == if Reserve(c, key, fingerprint).1 == Reserved then c.inFlight + {key} else c.inFlight
  {
    if key in c.cached { return; }
    if key in c.inFlight { return; }
    EvictKeepsTail(c, log);
    AdmitKeeps(Evict(c), log, key);
  }

  lemma ReserveKeeps(s: Logged, call: Call)
    requires LoggedOk(s) && call.ReserveCall? && Legal(s, call)
    ensures LoggedOk(Next(s, call)) && Reserve(s.cache, call.key, call.fingerprint).1 != NoRoom
  {
    RoomToReserve(s.cache.inFlight, s.registered, s.holds);
    ReserveKeepsCache(s.cache, s.log, call.key, call.fingerprint);
    if Reserve(s.cache, call.key, call.fingerprint).1 == Reserved {
      Acquired(s.cache.inFlight, s.registered, s.holds, call.who, Hold(call.key, call.fingerprint));
    }
  }

  lemma TailGrows(cached: map<nat, Entry>, order: seq<nat>, log: seq<(nat, Entry)>, key: nat, e: Entry)
    requires Tail(cached, order, log) && key !in order
    ensures Tail(cached[key := e], order + [key], log + [(key, e)])
  {
    var log1, order1 := log + [(key, e)], order + [key];
    forall i | |log1| - |order1| <= i < |log1| ensures Remembers(cached[key := e], log1[i]) {
      if i < |log| {
        assert Remembers(cached, log[i]);
        assert log[i].0 == order[i - (|log| - |order|)];
      }
    }
  }

  lemma CompleteKeepsCache(c: Cache, log: seq<(nat, Entry)>, key: nat, entry: Option<Entry>)
    requires CacheOk(c, log) && key in c.inFlight
    requires entry.Some? ==> ShouldCache(entry.value.error, entry.value.retry)
    ensures Complete(c, key, entry).1 && Complete(c, key, entry).0.inFlight == c.inFlight - {key}
    ensures CacheOk(Complete(c, key, entry).0, if entry.Some? then log + [(key, entry.value)] else log)
  {
    assert |c.inFlight - {key}| == |c.inFlight| - 1;
    if entry.None? { return; }
    TailGrows(c.cached, c.order, log, key, entry.value);
  }

  lemma CompleteKeeps(s: Logged, call: Call)
    requires LoggedOk(s) && call.CompleteCall? && call.who in s.holds
    ensures LoggedOk(Next(s, call))
    ensures Complete(s.cache, s.holds[call.who].key, EntryOf(s.holds[call.who], call)).1
  {
    CompleteKeepsCache(s.cache, s.log, s.holds[call.who].key, EntryOf(s.holds[call.who], call));
    Released(s.cache.inFlight, s.registered, s.holds, call.who);
  }

  lemma AbandonKeeps(s: Logged, d: Dispatcher)
    requires LoggedOk(s) && d in s.holds
    ensures LoggedOk(Next(s, AbandonCall(d)))
  {
    var key := s.holds[d].key;
    assert |s.cache.inFlight - {key}| == |s.cache.inFlight| - 1;
    Released(s.cache.inFlight, s.registered, s.holds, d);
  }

  /** Registrations may change in any way that stays below the limit and leaves every owner in. */
  lemma ReregisterKeeps(s: Logged, now: set<Dispatcher>)
    requires LoggedOk(s) && s.holds.Keys <= now && |now| <= MAX_IN_FLIGHT_GLOBAL
    ensures LoggedOk(s.(registered := now))
  {
  }

  lemma ExitKeeps(s: Logged, d: Dispatcher)
    requires LoggedOk(s) && Legal(s, ExitCall(d))
    ensures LoggedOk(Next(s, ExitCall(d)))
  {
    assert |s.registered - {d}| == |s.registered| - 1;
    ReregisterKeeps(s, s.registered - {d});
  }

  lemma BindKeeps(s: Logged, call: Call)
    requires LoggedOk(s) && (call.BindCall? || call.InitializeCall?)
    ensures LoggedOk(Next(s, call))
  {
  }

  lemma NextKeeps(s: Logged, call: Call)
    requires LoggedOk(s) && Legal(s, call)
    ensures LoggedOk(Next(s, call))
    ensures call.ReserveCall? ==> Reserve(s.cache, call.key, call.fingerprint).1 != NoRoom
    ensures call.CompleteCall? ==> Complete(s.cache, s.holds[call.who].key, EntryOf(s.holds[call.who], call)).1
  {
    match call
    case EnterCall(d) => ReregisterKeeps(s, s.registered + {d});
    case ExitCall(d) => ExitKeeps(s, d);
    case ReserveCall(_, _, _) => ReserveKeeps(s, call);
    case CompleteCall(_, _, _, _) => CompleteKeeps(s, call);
    case AbandonCall(d) => AbandonKeeps(s, d);
    case BindCall(_) => BindKeeps(s, call);
    case InitializeCall(_) => BindKeeps(s, call);
  }

  const START := Logged(Cache(map[], [], {}, None), [], {}, map[])

  ghost predicate Follows(states: seq<Logged>, calls: seq<Call>, i: nat)
    requires i < |calls| && |states| == |calls| + 1
  {
    Legal(states[i], calls[i]) && states[i + 1] == Next(states[i], calls[i])
  }

  ghost predicate IsRun(states: seq<Logged>, calls: seq<Call>) {
    && |states| == |calls| + 1 && states[0] == START
    && (forall i :: 0 <= i < |calls| ==> Follows(states, calls, i))
  }

  lemma {:induction false} RunsKeep(states: seq<Logged>, calls: seq<Call>, n: nat)
    requires IsRun(states, calls) && n < |states|
    ensures LoggedOk(states[n])
  {
    if n > 0 {
      RunsKeep(states, calls, n - 1);
      assert Follows(states, calls, n - 1);
      NextKeeps(states[n - 1], calls[n - 1]);
    }
  }

  // ------------------------------------------------------------- theorems

  /** What every state of every run satisfies: the cache in order, and one owner per key in flight. */
  ghost predicate Sound(s: Logged) {
    && Distinct(s.cache.order) && s.cache.cached.Keys == Keys(s.cache.order)
    && s.cache.cached.Keys !! s.cache.inFlight && |s.cache.cached| + |s.cache.inFlight| <= MAX_RESULTS
    && Owned(s.cache.inFlight, s.registered, s.holds) && |s.cache.inFlight| <= MAX_IN_FLIGHT_GLOBAL
  }

  lemma OkIsSound(s: Logged)
    requires LoggedOk(s)
    ensures Sound(s)
  {
    OrderCounts(s.cache);
    RoomToReserve(s.cache.inFlight, s.registered, s.holds);
  }

  /** No reservation is refused for lack of space, and no completion meets an internal error. */
  ghost predicate Smooth(s: Logged, call: Call)
    requires Legal(s, call)
  {
    && (call.ReserveCall? ==> Reserve(s.cache, call.key, call.fingerprint).1 != NoRoom)
    && (call.CompleteCall? ==> Complete(s.cache, s.holds[call.who].key, EntryOf(s.holds[call.who], call)).1)
  }

  /**
   * In every run the cached keys are the duplicate-free insertion order, disjoint from the keys
   * in flight and at most 1024 with them; the keys in flight are the held ones, each with one
   * owner, at most 32; no reservation finds the cache full and no completion takes an internal
   * error branch.
   */
  lemma CacheInvariant(states: seq<Logged>, calls: seq<Call>, n: nat)
    requires IsRun(states, calls) && n < |calls|
    ensures Sound(states[n]) && Legal(states[n], calls[n]) && Smooth(states[n], calls[n])
  {
    RunsKeep(states, calls, n);
    assert Follows(states, calls, n);
    NextKeeps(states[n], calls[n]);
    OkIsSound(states[n]);
  }

  /**
   * Survival: of the outcomes cached since the last clearing, each one with fewer than 992 newer
   * is still there, and asking again under its key replays it or conflicts; it never re-executes.
   */
  lemma OutcomesSurvive(states: seq<Logged>, calls: seq<Call>, n: nat, i: nat, fingerprint: nat)
    requires IsRun(states, calls) && n < |states| && i < |states[n].log|
    requires |states[n].log| - (i + 1) < MAX_RESULTS - MAX_IN_FLIGHT_GLOBAL
    ensures Replays(states[n], i, fingerprint)
  {
    RunsKeep(states, calls, n);
    assert Remembers(states[n].cache.cached, states[n].log[i]);
  }

  /** The logged outcome answers a repetition of its request, and a different one conflicts. */
  ghost predicate Replays(s: Logged, i: nat, fingerprint: nat)
    requires i < |s.log|
  {
    var (key, entry) := s.log[i];
    Reserve(s.cache, key, fingerprint)
    == (s.cache, if entry.fingerprint == fingerprint then Replay(entry) else Conflicting)
  }

  /** A key that is cached or in flight is never reserved again. */
  lemma NoDoubleExecution(c: Cache, key: nat, fingerprint: nat)
    requires Invariant(c) && (key in c.cached || key in c.inFlight)
    ensures Reserve(c, key, fingerprint).0 == c && Reserve(c, key, fingerprint).1 != Reserved
    ensures key in c.inFlight ==> Reserve(c, key, fingerprint).1 == AlreadyRunning
  {
  }
}
