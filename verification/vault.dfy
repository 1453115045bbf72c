/** Vault sessions: permits across any number of agents that share one session counter. */
module Vault {
  import opened Base

  datatype Permit = Permit(session: nat, epoch: nat)

  /** One agent's session fields; the manifest is the one authenticated at unlock or last commit. */
  datatype Session = Session(open: bool, id: Option<nat>, epoch: nat, manifest: Option<nat>)

  datatype AccountError = Locked | NotFound | Conflict | Aborted | Failed

  datatype Result<T> = Ok(value: T) | Err(error: AccountError)

  function Locking(s: Session): Session {
    Session(false, None, if s.epoch < U64_MAX then s.epoch + 1 else s.epoch, None)
  }

  /** What an unlock meets: a failure on the way, or a manifest and a late cancellation. */
  datatype UnlockWorld = Refused | Authenticated(manifest: nat, cancelled: bool)

  /** Unlocking always locks first; a session takes the next identifier and the next epoch. */
  function Unlocking(counter: nat, s: Session, w: UnlockWorld): (nat, Session) {
    var locked := Locking(s);
    if w.Refused? || counter >= U64_MAX then (counter, locked)
    else if locked.epoch >= U64_MAX then (counter + 1, locked)
    else
      var live := Session(true, Some(counter), locked.epoch + 1, Some(w.manifest));
      (counter + 1, if w.cancelled then Locking(live) else live)
  }

  function Begin(s: Session): Option<Permit> {
    if s.open && s.id.Some? then Some(Permit(s.id.value, s.epoch)) else None
  }

  predicate Authorized(s: Session, p: Permit) {
    s.open && s.id == Some(p.session) && p.epoch == s.epoch
  }

  // ------------------------------------------------------------ the objects

  class SessionCounter {
    var next: nat

    constructor ()
      ensures next == 1
    {
      next := 1;
    }

    method Take() returns (id: Option<nat>)
      modifies this
      ensures old(next) < U64_MAX ==> id == Some(old(next)) && next == old(next) + 1
      ensures old(next) >= U64_MAX ==> id == None && next == old(next)
    {
      if next >= U64_MAX { return None; }
      next := next + 1;
      return Some(next - 1);
    }
  }

  class VaultAgent {
    const counter: SessionCounter
    var open: bool
    var id: Option<nat>
    var epoch: nat
    var manifest: Option<nat>

    ghost function State(): Session
      reads this
    {
      Session(open, id, epoch, manifest)
    }

    constructor (counter: SessionCounter)
      ensures this.counter == counter && State() == Session(false, None, 1, None)
    {
      this.counter := counter;
      open, id, epoch, manifest := false, None, 1, None;
    }

    method Lock()
      modifies this
      ensures State() == Locking(old(State()))
    {
      open, manifest, id := false, None, None;
      if epoch < U64_MAX { epoch := epoch + 1; }
    }

    method Unlock(w: UnlockWorld) returns (ok: bool)
      modifies this, counter
      ensures (counter.next, State()) == Unlocking(old(counter.next), old(State()), w)
      ensures ok == open
    {
      Lock();
      if w.Refused? { return false; }
      var session := counter.Take();
      if session.None? { return false; }
      if epoch >= U64_MAX { return false; }
      epoch := epoch + 1;
      open, manifest, id := true, Some(w.manifest), session;
      if w.cancelled {
        Lock();
        return false;
      }
      return true;
    }

    /** The stored manifest, if it is the authenticated one; anything else locks the vault. */
    method LoadSnapshot(stored: Option<nat>) returns (r: Result<nat>)
      modifies this
      ensures r.Ok? <==> stored.Some? && old(manifest) == stored
      ensures r.Ok? ==> State() == old(State()) && r.value == stored.value && manifest == Some(r.value)
      ensures r.Err? ==> r.error == Failed && State() == Locking(old(State()))
    {
      if stored.None? || manifest != stored {
        Lock();
        return Err(Failed);
      }
      return Ok(stored.value);
    }

    /**
     * A read: `content` is what the session makes of an authenticated manifest, and the vault may
     * be locked and unlocked again before the result is returned.
     */
    method Read<T>(stored: Option<nat>, content: nat -> Result<T>, interrupted: bool, again: UnlockWorld)
      returns (r: Result<T>)
      modifies this, counter
      ensures r.Ok? ==>
                && !interrupted && old(Begin(State())).Some? && Authorized(State(), old(Begin(State())).value)
                && State() == old(State()) && old(manifest) == stored && stored.Some? && r == content(stored.value)
      ensures interrupted && old(Begin(State())).Some? ==> r.Err?
      ensures old(Begin(State())).None? ==> r == Err(Locked) && State() == old(State()) && counter.next == old(counter.next)
    {
      if !open || id.None? { return Err(Locked); }
      var permit := Permit(id.value, epoch);
      var snapshot := LoadSnapshot(stored);
      if snapshot.Err? { return Err(snapshot.error); }
      r := content(snapshot.value);
      if r.Err? {
        if r.error == Failed { Lock(); }
        return;
      }
      if interrupted {
        Lock();
        var _ := Unlock(again);
      }
      if !(open && id == Some(permit.session) && permit.epoch == epoch) { return Err(Locked); }
    }

    /** Commits a prepared mutation: `store` is the outcome of the guarded write. */
    method PersistMutation(permit: Permit, next: nat, store: Result<nat>, session: Result<nat>)
      returns (r: Result<nat>)
      modifies this
      ensures r.Ok? <==> Authorized(old(State()), permit) && store.Ok? && session.Ok?
      ensures r.Ok? ==> State() == old(State()).(manifest := Some(next)) && r == session
      ensures !Authorized(old(State()), permit) ==> r == Err(Locked) && State() == old(State())
      ensures Authorized(old(State()), permit) && store == Err(Aborted) ==> r == Err(Aborted) && State() == old(State())
      ensures Authorized(old(State()), permit) && r.Err? && r.error != Aborted ==>
                r == Err(Failed) && State() == Locking(old(State()))
    {
      if !(open && id == Some(permit.session) && permit.epoch == epoch) { return Err(Locked); }
      if store.Err? {
        if store.error == Aborted { return Err(Aborted); }
        Lock();
        return Err(Failed);
      }
      if session.Err? {
        Lock();
        return Err(Failed);
      }
      manifest := Some(next);
      return session;
    }
  }

  // ---------------------------------------------------------- whole runs

  datatype Call =
    | LockCall(agent: nat)
    | UnlockCall(agent: nat, world: UnlockWorld)
    | BeginCall(agent: nat)
    | AdoptCall(agent: nat, manifest: nat)        // a committed mutation replaces the manifest

  /** All agents of the process; `owner`, `issued` and `current` are history. */
  datatype Agents = Agents(
    counter: nat, sessions: map<nat, Session>,
    owner: map<nat, nat>,                         // which agent took a session identifier
    issued: map<nat, set<Permit>>,                // every permit an agent ever issued
    current: map<nat, set<Permit>>)               // those issued since its latest lock or unlock

  const CLOSED := Session(false, None, 1, None)

  function SessionOf(w: Agents, a: nat): Session {
    if a in w.sessions then w.sessions[a] else CLOSED
  }

  function At(m: map<nat, set<Permit>>, a: nat): set<Permit> { if a in m then m[a] else {} }

  function Next(w: Agents, call: Call): Agents {
    var a := call.agent;
    var s := SessionOf(w, a);
    match call
    case LockCall(_) => w.(sessions := w.sessions[a := Locking(s)], current := w.current[a := {}])
    case UnlockCall(_, world) =>
      var (counter, next) := Unlocking(w.counter, s, world);
      w.(counter := counter, sessions := w.sessions[a := next], current := w.current[a := {}],
         owner := if counter == w.counter then w.owner else w.owner[w.counter := a])
    case BeginCall(_) =>
      var p := Begin(s);
      if p.None? then w
      else w.(issued := w.issued[a := At(w.issued, a) + {p.value}], current := w.current[a := At(w.current, a) + {p.value}])
    case AdoptCall(_, manifest) =>
      if s.open then w.(sessions := w.sessions[a := s.(manifest := Some(manifest))]) else w
  }

  function Run(w: Agents, calls: seq<Call>): Agents
    decreases |calls|
  {
    if calls == [] then w else Run(Next(w, calls[0]), calls[1..])
  }

  const START := Agents(1, map[], map[], map[], map[])

  /** An agent's session and permits carry identifiers it took; the current ones are authorized. */
  ghost predicate AgentOk(owner: map<nat, nat>, a: nat, s: Session, issued: set<Permit>, current: set<Permit>) {
    && (s.id.Some? ==> s.open && s.id.value in owner && owner[s.id.value] == a)
    && (forall p :: p in issued ==>
          p.session in owner && owner[p.session] == a && (s.id == Some(p.session) ==> p in current))
    && (forall p :: p in current ==> p in issued && Authorized(s, p))
  }

  ghost predicate Invariant(w: Agents) {
    && (forall i :: i in w.owner ==> i < w.counter)
    && (forall a :: AgentOk(w.owner, a, SessionOf(w, a), At(w.issued, a), At(w.current, a)))
  }

  lemma NextKeeps(w: Agents, call: Call)
    requires Invariant(w)
    ensures Invariant(Next(w, call))
  {
    var t := Next(w, call);
    forall a ensures AgentOk(t.owner, a, SessionOf(t, a), At(t.issued, a), At(t.current, a)) {
      assert AgentOk(w.owner, a, SessionOf(w, a), At(w.issued, a), At(w.current, a));
    }
  }

  lemma {:induction false} RunsKeep(w: Agents, calls: seq<Call>)
    requires Invariant(w)
    ensures Invariant(Run(w, calls))
    decreases |calls|
  {
    if calls != [] {
      NextKeeps(w, calls[0]);
      RunsKeep(Next(w, calls[0]), calls[1..]);
    }
  }

  /**
   * After any calls on any number of agents, a permit issued by `a` is authorized at `b` exactly
   * when `b` is `a` and issued it since its latest lock or unlock, saturated epochs included.
   */
  lemma PermitValidity(calls: seq<Call>, a: nat, b: nat, p: Permit)
    requires p in At(Run(START, calls).issued, a)
    ensures Authorized(SessionOf(Run(START, calls), b), p) <==> a == b && p in At(Run(START, calls).current, a)
  {
    RunsKeep(START, calls);
    var w := Run(START, calls);
    assert AgentOk(w.owner, a, SessionOf(w, a), At(w.issued, a), At(w.current, a));
    assert AgentOk(w.owner, b, SessionOf(w, b), At(w.issued, b), At(w.current, b));
  }
}
