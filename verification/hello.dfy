/**
 * Windows Hello credential replacement: the platform holds credentials, one record on disk names
 * them. Replies of the platform, the file system, the clock and the random source are inputs.
 * `points` records disk and platform after every single effect: a crash can stop at any of them.
 */
module Hello {
  import opened Base
  import opened Tables

  const MAX_CREDENTIAL_ID_BYTES: nat := 1024

  type Credential = seq<byte>

  datatype Record =
    | Enrollment(binding: nat, active: Credential, pending: Option<Credential>)
    | PendingRemoval(credential: Credential)

  predicate Sized(c: Credential) { 1 <= |c| <= MAX_CREDENTIAL_ID_BYTES }

  /** What decoding a stored record guarantees. */
  predicate WellFormed(disk: Option<Record>) {
    disk.Some? ==>
      match disk.value
      case Enrollment(_, active, pending) =>
        Sized(active) && (pending.Some? ==> Sized(pending.value) && pending.value != active)
      case PendingRemoval(c) => Sized(c)
  }

  function Pending(r: Record): Option<Credential> {
    match r
    case Enrollment(_, _, pending) => pending
    case PendingRemoval(c) => Some(c)
  }

  /** The credentials a record names, as active or as pending removal. */
  function Named(disk: Option<Record>): set<Credential> {
    match disk
    case None => {}
    case Some(Enrollment(_, active, None)) => {active}
    case Some(Enrollment(_, active, Some(p))) => {active, p}
    case Some(PendingRemoval(c)) => {c}
  }

  datatype Point = Point(disk: Option<Record>, platform: set<Credential>)

  /** The persisted active credential exists on the platform. */
  predicate Usable(p: Point) {
    p.disk.Some? && p.disk.value.Enrollment? ==> p.disk.value.active in p.platform
  }

  /** A readable record that is usable, or names the same active credential that was missing before. */
  predicate Vouched(before: Point, p: Point) {
    WellFormed(p.disk) && (Usable(p) || (!Usable(before) && before.disk.value.active == p.disk.value.active))
  }

  /** So a crash at any point, a restart and another enrollment from there keep what held before. */
  lemma CrashesCompose(a: Point, b: Point, c: Point)
    requires Vouched(a, b) && Vouched(b, c)
    ensures Vouched(a, c) && (Usable(a) ==> Usable(c))
  {
  }

  /** Every credential the agent made and the platform still has is named by the record. */
  predicate Tracked(made: set<Credential>, p: Point) {
    forall c :: c in made && c in p.platform ==> c in Named(p.disk)
  }

  datatype SaveReply = Saved | Published | NotSaved

  datatype StateRemoval = Removed | RemovalFailed(deleted: bool)

  datatype Ceremony =
    | Enrolled(credential: Credential)
    | CleanupRequired(credential: Credential)   // made, but the provider could not remove it
    | Refused(error: ErrorCode)

  datatype Outcome =
    | Success(commitPoint: bool)
    | Retryable                                 // OperationFailed, Backoff
    | Failed                                    // OperationFailed, Never
    | Aborted(error: ErrorCode)

  /** The replies one enrollment meets, in order. */
  datatype World = World(
    loads: bool, absent: StateRemoval,
    retireRemoves: bool, retireSave: SaveReply, retireAbsent: StateRemoval,
    early: Option<ErrorCode>, ceremony: Ceremony, late: Option<ErrorCode>,
    save: SaveReply, lateAfterSave: Option<ErrorCode>,
    removesOld: bool, clearSave: SaveReply,
    rollbackSave: SaveReply, removesNew: bool, cleanupSave: SaveReply)

  predicate FreshCredential(c: Credential, p: Point) { c !in p.platform && c !in Named(p.disk) }

  predicate FreshCeremony(w: World, p: Point) {
    && (w.ceremony.Enrolled? ==> FreshCredential(w.ceremony.credential, p))
    && (w.ceremony.CleanupRequired? ==> FreshCredential(w.ceremony.credential, p))
  }

  /** `set_pending_removal_credential_id`. */
  function WithPending(r: Record, c: Credential): Option<Record> {
    if r.Enrollment? && Sized(c) && c != r.active then Some(r.(pending := Some(c))) else None
  }

  /** The record that persists the cleanup of `c`, if one can be written. */
  function CleanupRecord(previous: Option<Record>, c: Credential): Option<Record> {
    if previous.Some? && previous.value.Enrollment? then WithPending(previous.value, c)
    else if Sized(c) then Some(PendingRemoval(c))
    else None
  }

  /** An earlier retirement, if any is pending, is finished by these replies. */
  predicate Retires(previous: Record, w: World) {
    match previous
    case Enrollment(_, _, pending) => pending.Some? ==> w.retireRemoves && !w.retireSave.NotSaved?
    case PendingRemoval(_) => w.retireRemoves && w.retireAbsent.Removed?
  }

  /** The removal reaches the credential: loaded, of this vault, retired, not stopped, and removed. */
  predicate Strips(disk: Option<Record>, binding: Option<nat>, w: World, removes: bool) {
    && w.loads && disk.Some? && disk.value.Enrollment? && binding == Some(disk.value.binding)
    && Retires(disk.value, w) && w.early.None? && removes
  }

  class HelloAgent {
    var platform: set<Credential>
    var disk: Option<Record>
    ghost var made: set<Credential>
    ghost var points: seq<Point>

    ghost function Now(): Point
      reads this
    {
      Point(disk, platform)
    }

    constructor ()
      ensures platform == {} && disk == None && made == {} && points == []
    {
      platform, disk, made, points := {}, None, {}, [];
    }

    method Remove(c: Credential, removes: bool) returns (ok: bool)
      modifies this
      ensures ok == removes
      ensures disk == old(disk) && made == old(made)
      ensures platform == if removes then old(platform) - {c} else old(platform)
      ensures points == old(points) + [Now()]
    {
      if removes { platform := platform - {c}; }
      points := points + [Point(disk, platform)];
      return removes;
    }

    /** True when the record was written, whatever failed afterwards. */
    method Save(record: Record, reply: SaveReply) returns (written: bool)
      modifies this
      ensures written == !reply.NotSaved?
      ensures platform == old(platform) && made == old(made)
      ensures disk == if written then Some(record) else old(disk)
      ensures points == old(points) + [Now()]
    {
      if !reply.NotSaved? { disk := Some(record); }
      points := points + [Point(disk, platform)];
      return !reply.NotSaved?;
    }

    method EnsureAbsent(reply: StateRemoval) returns (ok: bool)
      modifies this
      ensures ok == reply.Removed?
      ensures platform == old(platform) && made == old(made)
      ensures disk == if reply.Removed? || reply.deleted then None else old(disk)
      ensures points == old(points) + [Now()]
    {
      if reply.Removed? || reply.deleted { disk := None; }
      points := points + [Point(disk, platform)];
      return reply.Removed?;
    }

    method PersistCleanup(previous: Option<Record>, c: Credential, reply: SaveReply) returns (ok: bool)
      modifies this
      ensures ok == (CleanupRecord(previous, c).Some? && !reply.NotSaved?)
      ensures platform == old(platform) && made == old(made)
      ensures disk == if ok then CleanupRecord(previous, c) else old(disk)
      ensures points == old(points) + (if CleanupRecord(previous, c).Some? then [Now()] else [])
    {
      var record := CleanupRecord(previous, c);
      if record.None? { return false; }
      ok := Save(record.value, reply);
    }

    /** Removes the new credential, or at least records that it must be removed. */
    method RemoveOr(previous: Option<Record>, c: Credential, w: World, outcome: Outcome) returns (o: Outcome)
      modifies this
      ensures made == old(made)
      ensures w.removesNew ==>
                && o == outcome && disk == old(disk) && platform == old(platform) - {c}
                && points == old(points) + [Now()]
      ensures !w.removesNew ==>
                && platform == old(platform)
                && o == (if CleanupRecord(previous, c).Some? && !w.cleanupSave.NotSaved? then Retryable else Failed)
                && disk == (if o == Retryable then CleanupRecord(previous, c) else old(disk))
                && (forall i :: |old(points)| <= i < |points| ==> points[i] == old(Now()) || points[i] == Now())
      ensures |old(points)| <= |points| && points[..|old(points)|] == old(points)
    {
      var removed := Remove(c, w.removesNew);
      if removed { return outcome; }
      var persisted := PersistCleanup(previous, c, w.cleanupSave);
      return if persisted then Retryable else Failed;
    }

    /** Restores the previous record, then drops the replacement's credential. */
    method Rollback(previous: Record, c: Credential, w: World) returns (o: Outcome)
      requires previous.Enrollment? && previous.active != c
      modifies this
      ensures made == old(made)
      ensures |old(points)| <= |points| && points[..|old(points)|] == old(points)
      ensures w.rollbackSave.NotSaved? ==> o == Failed && Now() == old(Now())
      ensures !w.rollbackSave.NotSaved? && w.removesNew ==>
                o == Retryable && disk == Some(previous) && platform == old(platform) - {c}
      ensures !w.rollbackSave.NotSaved? && !w.removesNew ==>
                && platform == old(platform)
                && o == (if Sized(c) && !w.cleanupSave.NotSaved? then Retryable else Failed)
                && disk == Some(if o == Retryable then previous.(pending := Some(c)) else previous)
      ensures forall i :: |old(points)| <= i < |points| ==>
                || points[i] == old(Now()) || points[i] == Now()
                || points[i] == Point(Some(previous), old(platform))
    {
      var written := Save(previous, w.rollbackSave);
      if !written { return Failed; }
      o := RemoveOr(Some(previous), c, w, Retryable);
    }

    /** Removes a persisted pending credential and forgets it; true when nothing is pending. */
    method RetryRetirement(previous: Record, w: World) returns (ok: bool, next: Option<Record>)
      requires disk == Some(previous) && WellFormed(disk)
      modifies this
      ensures made == old(made) && WellFormed(disk)
      ensures |old(points)| <= |points| && points[..|old(points)|] == old(points)
      ensures forall i :: |old(points)| <= i < |points| ==> Vouched(old(Now()), points[i])
      ensures Vouched(old(Now()), Now())
      ensures Tracked(made, old(Now())) ==> Tracked(made, Now())
      ensures platform <= old(platform) && Named(disk) <= old(Named(disk))
      ensures Usable(old(Now())) ==> Usable(Now())
      ensures ok == Retires(previous, w)
      ensures ok ==> disk == next && (Pending(previous).Some? ==> Pending(previous).value !in platform)
      ensures ok ==> next == if previous.Enrollment? then Some(previous.(pending := None)) else None
    {
      var pending := Pending(previous);
      if pending.None? { return true, Some(previous); }
      var removed := Remove(pending.value, w.retireRemoves);
      if !removed { return false, Some(previous); }
      if previous.Enrollment? {
        next := Some(previous.(pending := None));
        ok := Save(next.value, w.retireSave);
      } else {
        next := None;
        ok := EnsureAbsent(w.retireAbsent);
      }
    }

    /** From a fresh credential to the published replacement record, or back. */
    method Install(binding: nat, previous: Option<Record>, c: Credential, w: World) returns (o: Outcome)
      requires disk == previous && WellFormed(disk)
      requires previous.Some? ==> previous.value.Enrollment? && previous.value.pending.None? && previous.value.active != c
      requires c in platform && c in made && w.ceremony == Enrolled(c)
      modifies this
      ensures WellFormed(disk) && made == old(made) && platform <= old(platform)
      ensures |old(points)| <= |points| && points[..|old(points)|] == old(points)
      ensures forall i :: |old(points)| <= i < |points| ==> Vouched(old(Now()), points[i])
      ensures Vouched(old(Now()), Now())
      ensures Tracked(old(made) - {c}, old(Now())) ==>
                Tracked(made, Now()) || (o == Failed && Orphan(w, Now()) && Tracked(made - {c}, Now()))
      ensures o == Success(true) ==>
                && disk.Some? && disk.value.Enrollment? && disk.value.active == c && disk.value.binding == binding
                && c in platform
                && disk.value.pending.None?
                && (previous.Some? ==> previous.value.active !in platform)
      ensures o != Success(false)
    {
      if w.late.Some? || !Sized(c) {
        o := RemoveOr(previous, c, w, if w.late.Some? then Aborted(w.late.value) else Failed);
        return;
      }
      var replacement := Enrollment(binding, c, if previous.Some? then Some(previous.value.active) else None);
      var written := Save(replacement, w.save);
      if !written {
        o := RemoveOr(previous, c, w, if w.lateAfterSave.Some? then Aborted(w.lateAfterSave.value) else Failed);
        return;
      }
      o := Retire(previous, replacement, w);
    }

    /** The replacement record is on disk: retire the credential it replaces, or roll back. */
    method Retire(previous: Option<Record>, replacement: Record, w: World) returns (o: Outcome)
      requires disk == Some(replacement) && WellFormed(disk) && WellFormed(previous)
      requires replacement.Enrollment? && replacement.active in platform
      requires previous.None? ==> replacement.pending.None?
      requires previous.Some? ==>
                 && previous.value.Enrollment? && previous.value.pending.None?
                 && replacement.pending == Some(previous.value.active)
      modifies this
      ensures WellFormed(disk) && made == old(made) && platform <= old(platform)
      ensures |old(points)| <= |points| && points[..|old(points)|] == old(points)
      ensures forall i :: |old(points)| <= i < |points| ==> Vouched(Point(previous, old(platform)), points[i])
      ensures Vouched(Point(previous, old(platform)), Now())
      ensures Tracked(made, old(Now())) ==>
                || Tracked(made, Now())
                || (o == Failed && !w.removesNew && w.cleanupSave.NotSaved? && disk == previous
                    && replacement.active in platform && Tracked(made - {replacement.active}, Now()))
      ensures o == Success(true) ==>
                && disk.Some? && disk.value == replacement.(pending := None) && disk.value.active in platform
                && (previous.Some? ==> previous.value.active !in platform)
      ensures o != Success(false)
    {
      if w.save.Published? {
        if previous.None? { return Retryable; }
        o := Rollback(previous.value, replacement.active, w);
        return;
      }
      if replacement.pending.Some? {
        var removed := Remove(replacement.pending.value, w.removesOld);
        if !removed {
          o := Rollback(previous.value, replacement.active, w);
          return;
        }
        var cleared := Save(replacement.(pending := None), w.clearSave);
        if !cleared { return Retryable; }
      }
      return Success(true);
    }

    /** Loads the record and finishes any earlier retirement; `stop` ends the enrollment here. */
    method Prepare(binding: nat, w: World) returns (stop: Option<Outcome>, previous: Option<Record>)
      requires WellFormed(disk)
      modifies this
      ensures WellFormed(disk) && made == old(made)
      ensures platform <= old(platform) && Named(disk) <= old(Named(disk))
      ensures |old(points)| <= |points| && points[..|old(points)|] == old(points)
      ensures forall i :: |old(points)| <= i < |points| ==> Vouched(old(Now()), points[i])
      ensures Vouched(old(Now()), Now()) && (Usable(old(Now())) ==> Usable(Now()))
      ensures Tracked(made, old(Now())) ==> Tracked(made, Now())
      ensures stop != Some(Success(true))
      ensures stop == Some(Success(false)) ==>
                && disk.Some? && disk.value.Enrollment? && disk.value.binding == binding && disk.value.pending.None?
                && disk.value.active in old(Named(disk))
      ensures stop.None? ==>
                && disk == previous && (previous.Some? ==> previous.value.Enrollment? && previous.value.pending.None?)
                && (forall c :: c in old(Named(disk)) && c in platform ==> c in Named(disk))
    {
      if !w.loads { return Some(Failed), None; }
      if disk.None? {
        var absent := EnsureAbsent(w.absent);
        if !absent { return Some(Retryable), None; }
      } else {
        var recovering := Pending(disk.value).Some?;
        var ok, next := RetryRetirement(disk.value, w);
        if !ok { return Some(Retryable), None; }
        if recovering && next.Some? && next.value.binding == binding {
          return Some(if w.early.Some? then Aborted(w.early.value) else Success(false)), None;
        }
      }
      return if w.early.Some? then Some(Aborted(w.early.value)) else None, disk;
    }

    /**
     * One enrollment. At every point the persisted active credential exists (or was already
     * missing before), and at the end every credential the agent made is named, except the new
     * one when neither its removal nor its cleanup record succeeded.
     */
    method Enroll(binding: nat, w: World) returns (o: Outcome)
      requires WellFormed(disk) && FreshCeremony(w, Now())
      modifies this
      ensures WellFormed(disk)
      ensures |old(points)| <= |points| && points[..|old(points)|] == old(points)
      ensures forall i :: |old(points)| <= i < |points| ==> Vouched(old(Now()), points[i])
      ensures Vouched(old(Now()), Now())
      ensures Tracked(old(made), old(Now())) ==>
                Tracked(made, Now()) || (o == Failed && Orphan(w, Now()) && Tracked(made - Offered(w), Now()))
      ensures o == Success(true) ==>
                && w.ceremony.Enrolled? && disk == Some(Enrollment(binding, w.ceremony.credential, None))
                && w.ceremony.credential in platform
                && (forall c :: c in old(Named(disk)) ==> c !in platform)
      ensures o == Success(false) ==>
                && disk.Some? && disk.value.Enrollment? && disk.value.binding == binding && disk.value.pending.None?
                && disk.value.active in old(Named(disk)) && made == old(made)
      ensures made <= old(made) + Offered(w)
    {
      var stop, previous := Prepare(binding, w);
      if stop.Some? { return stop.value; }
      o := Perform(binding, previous, w);
    }

    /** The ceremony and everything after it. */
    method Perform(binding: nat, previous: Option<Record>, w: World) returns (o: Outcome)
      requires disk == previous && WellFormed(disk) && FreshCeremony(w, Now())
      requires previous.Some? ==> previous.value.Enrollment? && previous.value.pending.None?
      modifies this
      ensures WellFormed(disk) && platform <= old(platform) + Offered(w) && made <= old(made) + Offered(w)
      ensures |old(points)| <= |points| && points[..|old(points)|] == old(points)
      ensures forall i :: |old(points)| <= i < |points| ==> Vouched(old(Now()), points[i])
      ensures Vouched(old(Now()), Now())
      ensures Tracked(old(made), old(Now())) ==>
                Tracked(made, Now()) || (o == Failed && Orphan(w, Now()) && Tracked(made - Offered(w), Now()))
      ensures o == Success(true) ==>
                && w.ceremony.Enrolled? && disk == Some(Enrollment(binding, w.ceremony.credential, None))
                && w.ceremony.credential in platform
                && (previous.Some? ==> previous.value.active !in platform)
      ensures o != Success(false)
    {
      if w.ceremony.Refused? { return Aborted(w.ceremony.error); }
      var c := w.ceremony.credential;
      platform, made := platform + {c}, made + {c};
      points := points + [Now()];
      if w.ceremony.CleanupRequired? {
        var persisted := PersistCleanup(previous, c, w.cleanupSave);
        return if persisted then Retryable else Failed;
      }
      o := Install(binding, previous, c, w);
    }

    /**
     * Removing the enrollment drops the credential before its record. Unlike an enrollment it
     * therefore passes a point whose record names a missing credential, exactly when the removal
     * reaches the credential; every other point is vouched for, and tracking is never lost.
     */
    method RemoveEnrollment(binding: Option<nat>, w: World, removes: bool, state: StateRemoval) returns (o: Outcome)
      requires WellFormed(disk)
      modifies this
      ensures WellFormed(disk) && made == old(made) && platform <= old(platform)
      ensures |old(points)| <= |points| && points[..|old(points)|] == old(points)
      ensures Tracked(made, old(Now())) ==> Tracked(made, Now())
      ensures o == Success(true) ==>
                && disk.None? && old(disk).Some? && old(disk).value.Enrollment?
                && (forall c :: c in old(Named(disk)) ==> c !in platform)
      ensures o == Success(true) <==> Strips(old(disk), binding, w, removes) && state.Removed?
      ensures Usable(old(Now())) ==>
                ((exists i :: |old(points)| <= i < |points| && !Usable(points[i])) <==> Strips(old(disk), binding, w, removes))
      ensures forall i :: |old(points)| <= i < |points| ==>
                || Vouched(old(Now()), points[i])
                || (Strips(old(disk), binding, w, removes) && points[i].disk == Some(old(disk).value.(pending := None))
                    && old(disk).value.active !in points[i].platform)
      ensures Usable(old(Now())) ==>
                (!Usable(Now()) <==> Strips(old(disk), binding, w, removes) && state == RemovalFailed(false))
    {
      if !w.loads { return Failed; }
      if disk.None? {
        var absent := EnsureAbsent(w.absent);
        return if absent then Success(false) else Retryable;
      }
      var ok, next := RetryRetirement(disk.value, w);
      if !ok { return Retryable; }
      if next.None? { return Success(false); }
      if binding != Some(next.value.binding) { return Failed; }
      if w.early.Some? { return Aborted(w.early.value); }
      o := Strip(next.value, removes, state);
    }

    /** The credential first, then its record. */
    method Strip(record: Record, removes: bool, state: StateRemoval) returns (o: Outcome)
      requires disk == Some(record) && record.Enrollment? && record.pending.None?
      modifies this
      ensures made == old(made) && |old(points)| <= |points| && points[..|old(points)|] == old(points)
      ensures o == (if removes && state.Removed? then Success(true) else Retryable)
      ensures platform == if removes then old(platform) - {record.active} else old(platform)
      ensures disk == if removes && (state.Removed? || state.deleted) then None else Some(record)
      ensures removes ==> exists i :: |old(points)| <= i < |points| && points[i] == Point(Some(record), platform)
      ensures forall i :: |old(points)| <= i < |points| ==>
                || (!removes && points[i] == old(Now()))
                || points[i].disk.None? || points[i] == Point(Some(record), platform)
    {
      ghost var n := |points|;
      var removed := Remove(record.active, removes);
      if !removed { return Retryable; }
      var gone := EnsureAbsent(state);
      assert points[n] == Point(Some(record), platform);
      return if gone then Success(true) else Retryable;
    }
  }

  /** The credential the ceremony made. */
  function Offered(w: World): set<Credential> {
    match w.ceremony
    case Enrolled(c) => {c}
    case CleanupRequired(c) => {c}
    case Refused(_) => {}
  }

  /** Neither the removal of the new credential nor a record of it succeeded. */
  predicate Orphan(w: World, p: Point) {
    && (w.ceremony.CleanupRequired? || (w.ceremony.Enrolled? && !w.removesNew))
    && (!Sized(w.ceremony.credential) || w.cleanupSave.NotSaved?)
    && w.ceremony.credential in p.platform && w.ceremony.credential !in Named(p.disk)
  }
}
