/** Per-connection admission: negotiation, request identifiers, in-flight permits, cancellation. */
module Session {
  import opened Base
  import opened Tables

  const MAX_REQUESTS_PER_CONNECTION: nat := 65536
  const MAX_FEATURES: nat := 16
  const ORDINARY_TIMEOUT_MS: nat := 5000
  const UNLOCK_TIMEOUT_MS: nat := 30000
  const PASSKEY_TIMEOUT_MS: nat := 120000

  datatype Limits = Limits(maximumPayload: nat, maximumInFlight: nat)

  predicate ValidLimits(limits: Limits) {
    && MIN_NEGOTIATED_PAYLOAD_BYTES <= limits.maximumPayload <= MAX_PAYLOAD_BYTES
    && 1 <= limits.maximumInFlight <= MAX_IN_FLIGHT_PER_CONNECTION
  }

  datatype ConnectionError =
    | InvalidLimit | IdentityClaimMismatch | BuildMismatch | IncompatibleVersion
    | UnsupportedFeature | InvalidRandomValue | InvalidFrame | WrongDirection
    | ConnectionClosed | RequestLimit | InvalidCancel

  // ------------------------------------------------------------ negotiation

  datatype Hello = Hello(
    minimum: Version, maximum: Version, claimedRole: ClientRole, buildId: nat, features: seq<nat>)

  predicate StrictlyIncreasing(xs: seq<nat>) {
    forall i, j :: 0 <= i < j < |xs| ==> xs[i] < xs[j]
  }

  /** The immutable part of a negotiated connection. */
  datatype Profile = Profile(
    role: ClientRole, version: Version, processId: nat, features: seq<nat>,
    connectionId: nat, limits: Limits)

  datatype Negotiated = Accepted(profile: Profile) | Refused(error: ConnectionError)

  function Negotiate(role: ClientRole, processId: nat, buildId: nat, hello: Hello,
                     supported: seq<nat>, serverNonce: nat, connectionId: nat, limits: Limits): Negotiated
  {
    var version := if Before(hello.maximum, CURRENT_VERSION) then hello.maximum else CURRENT_VERSION;
    if hello.claimedRole != role then Refused(IdentityClaimMismatch)
    else if hello.buildId != buildId then Refused(BuildMismatch)
    else if Before(version, hello.minimum) || Before(version, MINIMUM_VERSION)
            || version.major != CURRENT_VERSION.major then Refused(IncompatibleVersion)
    else if !StrictlyIncreasing(supported) then Refused(UnsupportedFeature)
    else if exists f :: f in hello.features && f !in supported then Refused(UnsupportedFeature)
    else if FEATURE_WINDOWS_HELLO in hello.features && Before(version, WINDOWS_HELLO_VERSION)
      then Refused(UnsupportedFeature)
    else if FEATURE_PASSKEY_PROVIDER in hello.features && Before(version, PASSKEY_PROVIDER_VERSION)
      then Refused(UnsupportedFeature)
    else if FEATURE_BROWSER_FILL in hello.features && Before(version, BROWSER_FILL_VERSION)
      then Refused(UnsupportedFeature)
    else if processId == 0 || serverNonce == 0 || connectionId == 0 then Refused(InvalidRandomValue)
    else if |hello.features| > MAX_FEATURES || !StrictlyIncreasing(hello.features) || !ValidLimits(limits)
      then Refused(InvalidLimit)
    else Accepted(Profile(role, version, processId, hello.features, connectionId, limits))
  }

  // ------------------------------------------------------- mutable state

  datatype RequestState = Active | Cancelled

  datatype ConnectionState = ConnectionState(
    lastRequestId: nat, issued: set<nat>, inFlight: map<nat, RequestState>, closed: bool)

  const FRESH := ConnectionState(0, {}, map[], false)

  datatype Permit = Permit(requestId: nat, operation: OperationCode, unlockEpoch: nat, timeoutMs: nat)

  datatype BeginReply =
    | Admitted(permit: Permit)
    | Fatal(error: ConnectionError)
    | Unauthorized
    | TooBusy(timeoutMs: nat)
    | StaleEpoch
    | MissingIdempotencyKey

  function EffectiveTimeout(op: OperationCode, requested: nat): nat {
    var maximum :=
      match op
      case CreateVault | UnlockMasterPassword | Lock => UNLOCK_TIMEOUT_MS
      case MakePasskey | GetPasskeyAssertion | DeletePasskey | RollbackPasskeyCreation
         | ConfirmPasskeyCreation | ListPasskeysForAssertion | EnrollWindowsHello
         | UnlockWindowsHello | RemoveWindowsHello => PASSKEY_TIMEOUT_MS
      case _ => ORDINARY_TIMEOUT_MS;
    Min(requested, maximum)
  }

  function Shut(st: ConnectionState): ConnectionState { st.(closed := true) }

  /** The first failed check of a header, if any: direction, version, connection. */
  function HeaderFault(p: Profile, st: ConnectionState, h: FrameHeader, kind: MessageKind): Option<ConnectionError> {
    if st.closed then Some(ConnectionClosed)
    else if h.kind != kind then Some(WrongDirection)
    else if h.version != p.version || h.connectionId != p.connectionId then Some(InvalidFrame)
    else None
  }

  function IdentifierFault(st: ConnectionState, id: nat): Option<ConnectionError> {
    if (st.lastRequestId == 0 && id != 1) || (st.lastRequestId != 0 && id <= st.lastRequestId)
    then Some(InvalidFrame)
    else if |st.issued| >= MAX_REQUESTS_PER_CONNECTION then Some(RequestLimit)
    else None
  }

  function RequestFault(p: Profile, st: ConnectionState, h: FrameHeader): Option<ConnectionError> {
    var fault := HeaderFault(p, st, h, Request);
    if fault.Some? then fault
    else if h.payloadLength > p.limits.maximumPayload then Some(InvalidFrame)
    else IdentifierFault(st, h.requestId)
  }

  function Issue(st: ConnectionState, id: nat): ConnectionState {
    st.(lastRequestId := id, issued := st.issued + {id})
  }

  /** The public verdict on a request whose header and identifier are in order. */
  function Verdict(p: Profile, st: ConnectionState, id: nat, e: RequestEnvelope, epoch: nat): BeginReply {
    var timeout := EffectiveTimeout(e.operation, e.timeoutMs);
    if !IsAuthorizedFor(e.operation, p.role) then Unauthorized
    else if RequiredFeature(e.operation).Some? && RequiredFeature(e.operation).value !in p.features
      then Unauthorized
    else if RequiresIdempotencyKey(e.operation) && e.idempotencyKey.None? then MissingIdempotencyKey
    else if RequiresUnlockedEpoch(e.operation) && e.unlockEpoch != epoch then StaleEpoch
    else if |st.inFlight| >= p.limits.maximumInFlight then TooBusy(timeout)
    else Admitted(Permit(id, e.operation, e.unlockEpoch, timeout))
  }

  function Begin(p: Profile, st: ConnectionState, h: FrameHeader, e: RequestEnvelope, epoch: nat)
    : (ConnectionState, BeginReply)
  {
    var fault := RequestFault(p, st, h);
    if fault.Some? then (Shut(st), Fatal(fault.value))
    else
      var st1 := Issue(st, h.requestId);
      var reply := Verdict(p, st1, h.requestId, e, epoch);
      (if reply.Admitted? then st1.(inFlight := st1.inFlight[h.requestId := Active]) else st1, reply)
  }

  function CancelFault(p: Profile, st: ConnectionState, h: FrameHeader): Option<ConnectionError> {
    var fault := HeaderFault(p, st, h, Cancel);
    if fault.Some? then fault
    else if h.requestId !in st.issued then Some(InvalidCancel)
    else None
  }

  function MarkCancelled(st: ConnectionState, id: nat): ConnectionState {
    if id in st.inFlight then st.(inFlight := st.inFlight[id := Cancelled]) else st
  }

  function CancelRequest(p: Profile, st: ConnectionState, h: FrameHeader): ConnectionState {
    if CancelFault(p, st, h).Some? then Shut(st) else MarkCancelled(st, h.requestId)
  }

  function Finish(st: ConnectionState, id: nat): ConnectionState {
    if id in st.inFlight then st.(inFlight := st.inFlight - {id}) else Shut(st)
  }

  function Close(st: ConnectionState): ConnectionState {
    st.(closed := true, inFlight := map id | id in st.inFlight :: Cancelled)
  }

  // ------------------------------------------------------------ the object

  class Connection {
    const profile: Profile
    var lastRequestId: nat
    var issued: set<nat>
    var inFlight: map<nat, RequestState>
    var closed: bool

    ghost function State(): ConnectionState
      reads this
    {
      ConnectionState(lastRequestId, issued, inFlight, closed)
    }

    constructor (profile: Profile)
      ensures this.profile == profile && State() == FRESH
    {
      this.profile := profile;
      lastRequestId, issued, inFlight, closed := 0, {}, map[], false;
    }

    method BeginRequest(h: FrameHeader, e: RequestEnvelope, epoch: nat) returns (reply: BeginReply)
      modifies this
      ensures (State(), reply) == Begin(profile, old(State()), h, e, epoch)
    {
      if closed { return Fatal(ConnectionClosed); }
      if h.kind != Request {
        closed := true;
        return Fatal(WrongDirection);
      }
      if h.version != profile.version || h.connectionId != profile.connectionId {
        closed := true;
        return Fatal(InvalidFrame);
      }
      if h.payloadLength > profile.limits.maximumPayload {
        closed := true;
        return Fatal(InvalidFrame);
      }
      if (lastRequestId == 0 && h.requestId != 1) || (lastRequestId != 0 && h.requestId <= lastRequestId) {
        closed := true;
        return Fatal(InvalidFrame);
      }
      if |issued| >= MAX_REQUESTS_PER_CONNECTION {
        closed := true;
        return Fatal(RequestLimit);
      }
      lastRequestId := h.requestId;
      issued := issued + {h.requestId};
      if !IsAuthorizedFor(e.operation, profile.role) { return Unauthorized; }
      if RequiredFeature(e.operation).Some? && RequiredFeature(e.operation).value !in profile.features {
        return Unauthorized;
      }
      if RequiresIdempotencyKey(e.operation) && e.idempotencyKey.None? { return MissingIdempotencyKey; }
      if RequiresUnlockedEpoch(e.operation) && e.unlockEpoch != epoch { return StaleEpoch; }
      var timeout := EffectiveTimeout(e.operation, e.timeoutMs);
      if |inFlight| >= profile.limits.maximumInFlight { return TooBusy(timeout); }
      inFlight := inFlight[h.requestId := Active];
      return Admitted(Permit(h.requestId, e.operation, e.unlockEpoch, timeout));
    }

    method CancelOne(h: FrameHeader) returns (error: Option<ConnectionError>)
      modifies this
      ensures error == CancelFault(profile, old(State()), h)
      ensures State() == CancelRequest(profile, old(State()), h)
    {
      if closed { return Some(ConnectionClosed); }
      if h.kind != Cancel {
        closed := true;
        return Some(WrongDirection);
      }
      if h.version != profile.version || h.connectionId != profile.connectionId {
        closed := true;
        return Some(InvalidFrame);
      }
      if h.requestId !in issued {
        closed := true;
        return Some(InvalidCancel);
      }
      if h.requestId in inFlight { inFlight := inFlight[h.requestId := Cancelled]; }
      return None;
    }

    method FinishOne(id: nat) returns (completion: Option<RequestState>)
      modifies this
      ensures completion == if id in old(inFlight) then Some(old(inFlight)[id]) else None
      ensures State() == Finish(old(State()), id)
    {
      if id !in inFlight {
        closed := true;
        return None;
      }
      completion := Some(inFlight[id]);
      inFlight := inFlight - {id};
    }

    method CloseAll()
      modifies this
      ensures State() == Close(old(State()))
    {
      closed := true;
      inFlight := map id | id in inFlight :: Cancelled;
    }
  }

  // ---------------------------------------------------------- whole runs

  datatype Call =
    | BeginCall(h: FrameHeader, e: RequestEnvelope, epoch: nat)
    | CancelCall(h: FrameHeader)
    | FinishCall(id: nat)
    | CloseCall

  function After(p: Profile, st: ConnectionState, call: Call): ConnectionState {
    match call
    case BeginCall(h, e, epoch) => Begin(p, st, h, e, epoch).0
    case CancelCall(h) => CancelRequest(p, st, h)
    case FinishCall(id) => Finish(st, id)
    case CloseCall => Close(st)
  }

  function Run(p: Profile, st: ConnectionState, calls: seq<Call>): ConnectionState
    decreases |calls|
  {
    if calls == [] then st else Run(p, After(p, st, calls[0]), calls[1..])
  }

  /** The identifiers a run issues, in order. */
  function IssuedBy(p: Profile, st: ConnectionState, calls: seq<Call>): seq<nat>
    decreases |calls|
  {
    if calls == [] then []
    else
      IssuedByCall(p, st, calls[0]) + IssuedBy(p, After(p, st, calls[0]), calls[1..])
  }

  ghost predicate Invariant(p: Profile, st: ConnectionState) {
    && st.inFlight.Keys <= st.issued
    && |st.inFlight| <= p.limits.maximumInFlight
    && |st.issued| <= MAX_REQUESTS_PER_CONNECTION
    && (forall id :: id in st.issued ==> 1 <= id <= st.lastRequestId)
  }

  lemma BeginKeepsInvariant(p: Profile, st: ConnectionState, h: FrameHeader, e: RequestEnvelope, epoch: nat)
    requires Invariant(p, st)
    ensures Invariant(p, Begin(p, st, h, e, epoch).0)
    ensures st.lastRequestId <= Begin(p, st, h, e, epoch).0.lastRequestId
    ensures st.closed ==> Begin(p, st, h, e, epoch).0.closed
    ensures st.issued <= Begin(p, st, h, e, epoch).0.issued
  {
    var st1 := Begin(p, st, h, e, epoch).0;
    if RequestFault(p, st, h).None? {
      assert h.requestId !in st.issued;
      assert st1.issued == st.issued + {h.requestId};
      assert st1.inFlight == st.inFlight || st1.inFlight.Keys == st.inFlight.Keys + {h.requestId};
    }
  }

  lemma SameKeys(p: Profile, st: ConnectionState, t: ConnectionState)
    requires Invariant(p, st) && t.issued == st.issued && t.lastRequestId == st.lastRequestId
    requires t.inFlight.Keys == st.inFlight.Keys
    ensures Invariant(p, t)
  {
    assert |t.inFlight.Keys| == |st.inFlight.Keys|;
  }

  lemma FinishKeepsInvariant(p: Profile, st: ConnectionState, id: nat)
    requires Invariant(p, st)
    ensures Invariant(p, Finish(st, id))
  {
    if id in st.inFlight {
      assert (st.inFlight - {id}).Keys == st.inFlight.Keys - {id};
      assert |(st.inFlight - {id}).Keys| == |st.inFlight.Keys| - 1;
    }
  }

  lemma StepKeepsInvariant(p: Profile, st: ConnectionState, call: Call)
    requires Invariant(p, st)
    ensures Invariant(p, After(p, st, call))
    ensures st.lastRequestId <= After(p, st, call).lastRequestId
    ensures st.closed ==> After(p, st, call).closed
    ensures st.issued <= After(p, st, call).issued
  {
    match call
    case BeginCall(h, e, epoch) => BeginKeepsInvariant(p, st, h, e, epoch);
    case CancelCall(h) => SameKeys(p, st, CancelRequest(p, st, h));
    case FinishCall(id) => FinishKeepsInvariant(p, st, id);
    case CloseCall => SameKeys(p, st, Close(st));
  }

  /** In flight implies issued, never more than the negotiated limit; closed is permanent. */
  lemma {:induction false} RunsKeepInvariant(p: Profile, st: ConnectionState, calls: seq<Call>)
    requires Invariant(p, st)
    ensures Invariant(p, Run(p, st, calls))
    ensures st.closed ==> Run(p, st, calls).closed
    ensures st.issued <= Run(p, st, calls).issued
    decreases |calls|
  {
    if calls != [] {
      StepKeepsInvariant(p, st, calls[0]);
      RunsKeepInvariant(p, After(p, st, calls[0]), calls[1..]);
    }
  }

  /** The identifiers one call issues: none, or one above every earlier identifier. */
  function IssuedByCall(p: Profile, st: ConnectionState, call: Call): seq<nat> {
    if call.BeginCall? && RequestFault(p, st, call.h).None? then [call.h.requestId] else []
  }

  lemma StepIssues(p: Profile, st: ConnectionState, call: Call)
    ensures
      var ids := IssuedByCall(p, st, call);
      var st1 := After(p, st, call);
      && |ids| <= 1
      && (forall id :: id in st1.issued <==> id in st.issued || id in ids)
      && (ids == [] ==> st1.lastRequestId == st.lastRequestId)
      && (ids != [] ==> st.lastRequestId < ids[0] == st1.lastRequestId && (st.lastRequestId == 0 ==> ids[0] == 1))
  {
  }

  lemma IncreasingAbove(xs: seq<nat>, ys: seq<nat>, bound: nat)
    requires |xs| <= 1 && StrictlyIncreasing(ys)
    requires xs != [] ==> bound < xs[0] && forall y :: y in ys ==> xs[0] < y
    requires xs == [] ==> forall y :: y in ys ==> bound < y
    ensures StrictlyIncreasing(xs + ys)
    ensures forall z :: z in xs + ys ==> bound < z
  {
    var zs := xs + ys;
    forall i, j | 0 <= i < j < |zs| ensures zs[i] < zs[j] {
      if i < |xs| { assert zs[j] in ys; } else { assert ys[i - |xs|] < ys[j - |xs|]; }
    }
  }

  /** Issued identifiers start at 1, strictly increase, and are exactly the recorded ones. */
  lemma {:induction false} IdentifiersIncrease(p: Profile, st: ConnectionState, calls: seq<Call>)
    ensures StrictlyIncreasing(IssuedBy(p, st, calls))
    ensures forall id :: id in IssuedBy(p, st, calls) ==> st.lastRequestId < id
    ensures st.lastRequestId == 0 && IssuedBy(p, st, calls) != [] ==> IssuedBy(p, st, calls)[0] == 1
    ensures forall id :: id in Run(p, st, calls).issued <==> id in st.issued || id in IssuedBy(p, st, calls)
    decreases |calls|
  {
    if calls != [] {
      var st1 := After(p, st, calls[0]);
      var ids, rest := IssuedByCall(p, st, calls[0]), IssuedBy(p, st1, calls[1..]);
      StepIssues(p, st, calls[0]);
      IdentifiersIncrease(p, st1, calls[1..]);
      IncreasingAbove(ids, rest, st.lastRequestId);
      assert IssuedBy(p, st, calls) == ids + rest;
    }
  }

  /** A cancelled request never becomes active again, and a finished one never returns. */
  lemma {:induction false} CancellationIsPermanent(p: Profile, st: ConnectionState, calls: seq<Call>, id: nat)
    requires Invariant(p, st) && id in st.issued
    requires id in st.inFlight ==> st.inFlight[id] == Cancelled
    ensures id in Run(p, st, calls).inFlight ==> Run(p, st, calls).inFlight[id] == Cancelled
    ensures id !in st.inFlight ==> id !in Run(p, st, calls).inFlight
    decreases |calls|
  {
    if calls != [] {
      StepKeepsInvariant(p, st, calls[0]);
      CancellationIsPermanent(p, After(p, st, calls[0]), calls[1..], id);
    }
  }

  /** An admitted request stays in flight until it is finished, so its first finish succeeds. */
  lemma {:induction false} FirstFinishSucceeds(p: Profile, st: ConnectionState, calls: seq<Call>, id: nat)
    requires Invariant(p, st) && id in st.inFlight
    requires FinishCall(id) !in calls
    ensures id in Run(p, st, calls).inFlight
    ensures Finish(Run(p, st, calls), id).closed == Run(p, st, calls).closed
    ensures id !in Finish(Run(p, st, calls), id).inFlight
    decreases |calls|
  {
    if calls != [] {
      StepKeepsInvariant(p, st, calls[0]);
      assert calls[0] != FinishCall(id);
      FirstFinishSucceeds(p, After(p, st, calls[0]), calls[1..], id);
    }
  }

  /** Closed admits nothing, after any further calls. */
  lemma ClosedAdmitsNothing(p: Profile, st: ConnectionState, calls: seq<Call>, h: FrameHeader,
                            e: RequestEnvelope, epoch: nat)
    requires Invariant(p, st) && st.closed
    ensures Begin(p, Run(p, st, calls), h, e, epoch).1 == Fatal(ConnectionClosed)
  {
    RunsKeepInvariant(p, st, calls);
  }

  lemma NegotiationFacts(role: ClientRole, processId: nat, buildId: nat, hello: Hello,
                         supported: seq<nat>, nonce: nat, connectionId: nat, limits: Limits)
    requires Negotiate(role, processId, buildId, hello, supported, nonce, connectionId, limits).Accepted?
    ensures
      var p := Negotiate(role, processId, buildId, hello, supported, nonce, connectionId, limits).profile;
      && p.role == role && p.features == hello.features && p.limits == limits && ValidLimits(limits)
      && !Before(p.version, MINIMUM_VERSION) && !Before(CURRENT_VERSION, p.version)
      && (forall f :: f in p.features ==> f in supported && !Before(p.version, FeatureVersion(f)))
  {
  }

  /** Without a fault the identifier is issued, whatever the verdict. */
  lemma IssueFacts(p: Profile, st: ConnectionState, h: FrameHeader, e: RequestEnvelope, epoch: nat)
    requires !Begin(p, st, h, e, epoch).1.Fatal?
    ensures
      var (st1, reply) := Begin(p, st, h, e, epoch);
      && !st.closed && st.lastRequestId < h.requestId == st1.lastRequestId
      && st1.inFlight == (if reply.Admitted? then st.inFlight[h.requestId := Active] else st.inFlight)
      && (reply.Admitted? ==> reply.permit.timeoutMs == EffectiveTimeout(e.operation, e.timeoutMs))
  {
  }

  lemma AdmissionFacts(p: Profile, st: ConnectionState, h: FrameHeader, e: RequestEnvelope, epoch: nat)
    requires Begin(p, st, h, e, epoch).1.Admitted?
    ensures
      var (st1, reply) := Begin(p, st, h, e, epoch);
      && !st.closed && h.requestId > st.lastRequestId
      && reply.permit == Permit(h.requestId, e.operation, e.unlockEpoch, reply.permit.timeoutMs)
      && IsAuthorizedFor(e.operation, p.role)
      && |st.inFlight| < p.limits.maximumInFlight
      && (RequiresUnlockedEpoch(e.operation) ==> e.unlockEpoch == epoch)
      && (RequiredFeature(e.operation).Some? ==> RequiredFeature(e.operation).value in p.features)
      && st1 == Issue(st, h.requestId).(inFlight := st.inFlight[h.requestId := Active])
  {
  }

  /**
   * On every negotiated connection and after every run, an admitted operation is one the
   * derived role may use, its feature was granted, and the selected version defines it.
   */
  lemma AdmittedIsEntitled(role: ClientRole, processId: nat, buildId: nat, hello: Hello,
                           supported: seq<nat>, nonce: nat, connectionId: nat, limits: Limits,
                           calls: seq<Call>, h: FrameHeader, e: RequestEnvelope, epoch: nat)
    requires Negotiate(role, processId, buildId, hello, supported, nonce, connectionId, limits).Accepted?
    ensures
      var p := Negotiate(role, processId, buildId, hello, supported, nonce, connectionId, limits).profile;
      var st := Run(p, FRESH, calls);
      var reply := Begin(p, st, h, e, epoch).1;
      && p.role == role
      && !Before(p.version, MINIMUM_VERSION) && !Before(CURRENT_VERSION, p.version)
      && (reply.Admitted? ==>
            && IsAuthorizedFor(reply.permit.operation, role)
            && reply.permit.requestId !in st.issued
            && |st.inFlight| < limits.maximumInFlight <= MAX_IN_FLIGHT_PER_CONNECTION
            && (RequiresUnlockedEpoch(reply.permit.operation) ==> reply.permit.unlockEpoch == epoch)
            && (RequiredFeature(reply.permit.operation).Some? ==>
                  var f := RequiredFeature(reply.permit.operation).value;
                  f in hello.features && f in supported && !Before(p.version, FeatureVersion(f))))
  {
    var p := Negotiate(role, processId, buildId, hello, supported, nonce, connectionId, limits).profile;
    NegotiationFacts(role, processId, buildId, hello, supported, nonce, connectionId, limits);
    RunsKeepInvariant(p, FRESH, calls);
    if Begin(p, Run(p, FRESH, calls), h, e, epoch).1.Admitted? {
      AdmissionFacts(p, Run(p, FRESH, calls), h, e, epoch);
    }
  }
}
