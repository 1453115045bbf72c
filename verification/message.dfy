/** Envelopes, browser answers and frame headers; and the desktop's side of the same bytes. */
module Message {
  import opened Base
  import opened Tables
  import opened Cbor
  import opened Fields
  import opened Operations
  import Session

  // --------------------------------------------------------------- request envelope

  const REQUEST_SCHEMA := [KArr(5), KInt(U16_MAX), KInt(U64_MAX), KInt(U32_MAX), KOptFixed(16), KBlob(MAX_REQUEST_BODY_BYTES)]

  function KeyField(key: Option<Bytes>): Field { if key.Some? then Blob(key.value) else Null }

  function RequestFields(e: RequestEnvelope): seq<Field> {
    [Arr(5), Int(Code(e.operation)), Int(e.unlockEpoch), Int(e.timeoutMs), KeyField(e.idempotencyKey), Blob(e.body)]
  }

  /** What the constructor admits. */
  predicate ValidRequest(e: RequestEnvelope) {
    && e.unlockEpoch <= U64_MAX && 1 <= e.timeoutMs <= U32_MAX && |e.body| <= MAX_REQUEST_BODY_BYTES
    && (e.idempotencyKey.Some? ==> |e.idempotencyKey.value| == 16 && RequiresIdempotencyKey(e.operation))
  }

  /** Decoding, strict by re-encoding; None stands for every refusal. */
  function DecodeEnvelope(bytes: Bytes): Option<RequestEnvelope> {
    if |bytes| > MAX_PAYLOAD_BYTES then None
    else
      var d := DecodeAll(REQUEST_SCHEMA, bytes);
      if d.None? || d.value.1 != [] || |d.value.0| != 6 then None
      else
        var fs := d.value.0;
        var op := FromCode(N(fs[1]));
        if op.None? then None
        else
          var key := if fs[4].Null? then None else Some(B(fs[4]));
          var e := RequestEnvelope(op.value, N(fs[2]), N(fs[3]), key, B(fs[5]));
          if ValidRequest(e) && Encode(RequestFields(e)) == bytes then Some(e) else None
  }

  lemma CodeRoundTrip(op: OperationCode)
    ensures FromCode(Code(op)) == Some(op) && Code(op) <= 36
  {
  }

  lemma RequestFits(e: RequestEnvelope)
    requires ValidRequest(e)
    ensures AllFit(RequestFields(e), REQUEST_SCHEMA) && |Encode(RequestFields(e))| <= MAX_PAYLOAD_BYTES
  {
    CodeRoundTrip(e.operation);
    EncodingIsBounded(RequestFields(e), REQUEST_SCHEMA);
    var front, back := [KArr(5), KInt(U16_MAX), KInt(U64_MAX), KInt(U32_MAX)], [KOptFixed(16), KBlob(MAX_REQUEST_BODY_BYTES)];
    assert REQUEST_SCHEMA == front + back;
    LongestAppends(front, back);
    FourKinds(KArr(5), KInt(U16_MAX), KInt(U64_MAX), KInt(U32_MAX));
    TwoKinds(KOptFixed(16), KBlob(MAX_REQUEST_BODY_BYTES));
  }

  /** Envelopes are accepted exactly as the encodings of valid envelopes, within the frame bound. */
  lemma EnvelopeCodec(bytes: Bytes, e: RequestEnvelope)
    ensures DecodeEnvelope(bytes) == Some(e) <==> ValidRequest(e) && Encode(RequestFields(e)) == bytes
  {
    if ValidRequest(e) && Encode(RequestFields(e)) == bytes {
      RequestFits(e);
      CodeRoundTrip(e.operation);
      DecodeEncoded(REQUEST_SCHEMA, RequestFields(e), []);
      assert bytes + [] == bytes;
    }
  }

  // -------------------------------------------------------------- response envelope

  datatype Answer = Answer(error: Option<ErrorCode>, retry: RetryCategory, correlation: Bytes, body: Bytes)

  function ErrorNumber(e: ErrorCode): nat {
    match e
    case InvalidRequest => 1
    case UnauthorizedOperation => 2
    case VaultLocked => 3
    case NotFound => 4
    case Conflict => 5
    case Busy => 6
    case RequestCancelled => 7
    case DeadlineExceeded => 8
    case AgentUnavailable => 9
    case Incompatible => 10
    case OperationFailed => 11
  }

  function RetryNumber(r: RetryCategory): nat {
    match r
    case Never => 1
    case Reconnect => 2
    case AfterUnlock => 3
    case Backoff => 4
  }

  predicate ValidResponse(r: Answer) {
    && |r.body| <= MAX_RESPONSE_BODY_BYTES && (r.error.Some? ==> r.body == [])
    && (r.error.None? ==> r.retry == Never) && |r.correlation| == 16 && NonZero(r.correlation)
  }

  function ResponseFields(r: Answer): seq<Field> {
    [Arr(4), Int(if r.error.None? then 0 else ErrorNumber(r.error.value)), Int(RetryNumber(r.retry)),
     Blob(r.correlation), Blob(r.body)]
  }

  /** The length computed without encoding: 20 fixed bytes and one byte string. */
  function EncodedLength(r: Answer): nat { 20 + (1 + Following(|r.body|) + |r.body|) }

  lemma ExactResponseLength(r: Answer)
    requires ValidResponse(r)
    ensures |Encode(ResponseFields(r))| == EncodedLength(r) <= MAX_PAYLOAD_BYTES
    ensures r.error.Some? ==> EncodedLength(r) == MIN_NEGOTIATED_PAYLOAD_BYTES
  {
    var number := if r.error.None? then 0 else ErrorNumber(r.error.value);
    FiveFields(Arr(4), Int(number), Int(RetryNumber(r.retry)), Blob(r.correlation), Blob(r.body));
    FieldSize(Arr(4));
    FieldSize(Int(number));
    FieldSize(Int(RetryNumber(r.retry)));
    FieldSize(Blob(r.correlation));
    FieldSize(Blob(r.body));
  }

  /** What is sent: the response, or a bodiless failure if it exceeds the negotiated payload. */
  function Bounded(limits: Session.Limits, r: Answer): Option<Answer> {
    var failure := Answer(Some(OperationFailed), Never, r.correlation, []);
    if EncodedLength(r) <= limits.maximumPayload then Some(r)
    else if EncodedLength(failure) <= limits.maximumPayload then Some(failure)
    else None
  }

  /** Under every negotiable limit something is sent, it fits, and a failure is sent unchanged. */
  lemma BoundedNeverFails(limits: Session.Limits, r: Answer)
    requires Session.ValidLimits(limits) && ValidResponse(r)
    ensures Bounded(limits, r).Some? && ValidResponse(Bounded(limits, r).value)
    ensures |Encode(ResponseFields(Bounded(limits, r).value))| <= limits.maximumPayload
    ensures r.error.Some? ==> Bounded(limits, r) == Some(r)
    ensures Bounded(limits, r).value.correlation == r.correlation
  {
    if EncodedLength(r) <= limits.maximumPayload {
      ExactResponseLength(r);
    } else {
      ExactResponseLength(Answer(Some(OperationFailed), Never, r.correlation, []));
    }
  }

  // --------------------------------------------------------------- browser answers

  const SELECTION_CAPACITY: nat := 64
  const CREDENTIAL_CAPACITY: nat := 17500

  function CredentialFields(username: Bytes, password: Bytes): seq<Field> {
    [Arr(2), Text(username), Text(password)]
  }

  const CREDENTIAL_SCHEMA := [KArr(2), KText(MAX_USERNAME_BYTES), KText(MAX_PASSWORD_BYTES)]

  /** Neither browser answer can overflow the writer it is given, whatever its constructor admits. */
  lemma BrowserAnswersFit(s: Selection, username: Bytes, password: Bytes)
    requires ValidSelection(s)
    requires BoundedText(username, MAX_USERNAME_BYTES) && BoundedText(password, MAX_PASSWORD_BYTES)
    ensures |Encode(SelectionPart(s))| <= SELECTION_CAPACITY && |Encode([Arr(0)])| <= SELECTION_CAPACITY
    ensures |Encode(CredentialFields(username, password))| <= CREDENTIAL_CAPACITY
  {
    assert AllFit(SelectionPart(s), SELECTION_SCHEMA);
    EncodingIsBounded(SelectionPart(s), SELECTION_SCHEMA);
    FourKinds(KArr(3), KFixed(16), KFixed(16), KInt(U64_MAX));
    EncodingIsBounded([Arr(0)], [KArr(0)]);
    TwoKinds(KArr(0), KArr(0));
    EncodingIsBounded(CredentialFields(username, password), CREDENTIAL_SCHEMA);
    ThreeKinds(KArr(2), KText(MAX_USERNAME_BYTES), KText(MAX_PASSWORD_BYTES));
  }

  /** The optional selection: an empty array, or the three fields. */
  function DecodeSelection(bytes: Bytes): Option<Option<Selection>> {
    if |bytes| > SELECTION_CAPACITY then None
    else if DecodeExactly([KArr(0)], bytes).Some? then Some(None)
    else
      var fs := DecodeExactly(SELECTION_SCHEMA, bytes);
      if fs.None? || |fs.value| != 4 then None
      else
        var s := SelectionFrom(fs.value);
        if ValidSelection(s) then Some(Some(s)) else None
  }

  function SelectionFields(s: Option<Selection>): seq<Field> {
    if s.None? then [Arr(0)] else SelectionPart(s.value)
  }

  lemma EmptyArray(bytes: Bytes)
    ensures DecodeExactly([KArr(0)], bytes).Some? <==> bytes == Encode([Arr(0)])
    ensures DecodeExactly([KArr(0)], bytes).Some? ==> DecodeExactly([KArr(0)], bytes).value == [Arr(0)]
    ensures Encode([Arr(0)]) == [0x80]
  {
    ExactlyTheEncodings([KArr(0)], bytes, [Arr(0)]);
    if DecodeExactly([KArr(0)], bytes).Some? {
      var fs := DecodeExactly([KArr(0)], bytes).value;
      ExactlyTheEncodings([KArr(0)], bytes, fs);
      assert fs[0] == Arr(0);
    }
    assert Encode([Arr(0)]) == EncodeField(Arr(0)) + Encode([]);
  }

  lemma SelectionRoundTrip(s: Selection)
    requires ValidSelection(s)
    ensures DecodeSelection(Encode(SelectionPart(s))) == Some(Some(s))
  {
    var bytes := Encode(SelectionPart(s));
    BrowserAnswersFit(s, [], []);
    assert AllFit(SelectionPart(s), SELECTION_SCHEMA);
    ExactlyTheEncodings(SELECTION_SCHEMA, bytes, SelectionPart(s));
    EmptyArray(bytes);
    assert bytes[0] == EncodeField(Arr(3))[0] == 0x83;
  }

  lemma SelectionIsCanonical(bytes: Bytes)
    requires DecodeSelection(bytes).Some?
    ensures Encode(SelectionFields(DecodeSelection(bytes).value)) == bytes
  {
    EmptyArray(bytes);
    if DecodeExactly([KArr(0)], bytes).None? {
      var fs := DecodeExactly(SELECTION_SCHEMA, bytes).value;
      ExactlyTheEncodings(SELECTION_SCHEMA, bytes, fs);
      assert Fits(fs[0], KArr(3)) && Fits(fs[1], KFixed(16)) && Fits(fs[2], KFixed(16)) && Fits(fs[3], KInt(U64_MAX));
      assert SelectionPart(SelectionFrom(fs)) == fs;
    }
  }

  /** The credential: exactly two texts within their bounds. */
  lemma CredentialCodec(bytes: Bytes, username: Bytes, password: Bytes)
    ensures DecodeExactly(CREDENTIAL_SCHEMA, bytes) == Some(CredentialFields(username, password)) <==>
              && BoundedText(username, MAX_USERNAME_BYTES) && BoundedText(password, MAX_PASSWORD_BYTES)
              && Encode(CredentialFields(username, password)) == bytes
  {
    var fs := CredentialFields(username, password);
    ExactlyTheEncodings(CREDENTIAL_SCHEMA, bytes, fs);
    assert AllFit(fs, CREDENTIAL_SCHEMA) <==>
             BoundedText(username, MAX_USERNAME_BYTES) && BoundedText(password, MAX_PASSWORD_BYTES) by {
      if AllFit(fs, CREDENTIAL_SCHEMA) { assert Fits(fs[1], CREDENTIAL_SCHEMA[1]) && Fits(fs[2], CREDENTIAL_SCHEMA[2]); }
    }
  }

  // ----------------------------------------------------------- other success bodies

  const MAX_PASSKEY_CREDENTIALS: nat := 64
  const MAX_USER_HANDLE_BYTES: nat := 64
  const MAX_USER_NAME_BYTES: nat := 256
  const MAX_RP_ID_BYTES: nat := 253

  const STATUS_BODY := [KArr(2), KInt(255), KInt(U64_MAX)]
  const ACCOUNT_ID_BODY := [KArr(1), KFixed(16)]
  const PASSKEY_BODY := [KArr(3), KFixed(CREDENTIAL_ID_BYTES), KBlob(MAX_USER_HANDLE_BYTES), KFixed(65)]
  const ASSERTION_BODY := [KArr(4), KFixed(CREDENTIAL_ID_BYTES), KBlob(MAX_USER_HANDLE_BYTES)] + [KFixed(37), KBlob(80)]
  const ACCOUNT_BODY := [KArr(8), KFixed(16)] + [KInt(U64_MAX), KInt(U64_MAX), KInt(U64_MAX)] + ACCOUNT_SCHEMA
  const USER_NAMES := [KText(MAX_USER_NAME_BYTES), KText(MAX_USER_NAME_BYTES)]
  const PASSKEY_ITEM := [KArr(4), KFixed(CREDENTIAL_ID_BYTES), KBlob(MAX_USER_HANDLE_BYTES)] + USER_NAMES
  const MANAGED_ITEM := [KArr(4), KFixed(CREDENTIAL_ID_BYTES), KText(MAX_RP_ID_BYTES)] + USER_NAMES

  lemma BodySizes()
    ensures LongestAll(STATUS_BODY) == 12 && LongestAll(ACCOUNT_ID_BODY) == 18 && LongestAll(PASSKEY_BODY) == 168
    ensures LongestAll(ASSERTION_BODY) == 222 && LongestAll(ACCOUNT_BODY) == 19769
    ensures LongestAll(PASSKEY_ITEM) == 619 && LongestAll(MANAGED_ITEM) == 808
  {
    ThreeKinds(KArr(2), KInt(255), KInt(U64_MAX));
    TwoKinds(KArr(1), KFixed(16));
    FourKinds(KArr(3), KFixed(CREDENTIAL_ID_BYTES), KBlob(MAX_USER_HANDLE_BYTES), KFixed(65));
    var start := [KArr(4), KFixed(CREDENTIAL_ID_BYTES), KBlob(MAX_USER_HANDLE_BYTES)];
    ThreeKinds(KArr(4), KFixed(CREDENTIAL_ID_BYTES), KBlob(MAX_USER_HANDLE_BYTES));
    TwoKinds(KFixed(37), KBlob(80));
    LongestAppends(start, [KFixed(37), KBlob(80)]);
    TwoKinds(KText(MAX_USER_NAME_BYTES), KText(MAX_USER_NAME_BYTES));
    LongestAppends(start, USER_NAMES);
    ThreeKinds(KArr(4), KFixed(CREDENTIAL_ID_BYTES), KText(MAX_RP_ID_BYTES));
    LongestAppends([KArr(4), KFixed(CREDENTIAL_ID_BYTES), KText(MAX_RP_ID_BYTES)], USER_NAMES);
    AccountBodySize();
  }

  lemma AccountBodySize()
    ensures LongestAll(ACCOUNT_BODY) == 19769
  {
    PartSizes();
    TwoKinds(KArr(8), KFixed(16));
    ThreeKinds(KInt(U64_MAX), KInt(U64_MAX), KInt(U64_MAX));
    var front, middle := [KArr(8), KFixed(16)], [KInt(U64_MAX), KInt(U64_MAX), KInt(U64_MAX)];
    LongestAppends(front, middle);
    LongestAppends(front + middle, ACCOUNT_SCHEMA);
    assert ACCOUNT_BODY == front + middle + ACCOUNT_SCHEMA;
  }

  /** A single status, identifier, passkey, assertion or account never exceeds the response body. */
  lemma SingleBodiesFit(fs: seq<Field>)
    requires AllFit(fs, STATUS_BODY) || AllFit(fs, ACCOUNT_ID_BODY) || AllFit(fs, PASSKEY_BODY)
             || AllFit(fs, ASSERTION_BODY) || AllFit(fs, ACCOUNT_BODY)
    ensures |Encode(fs)| <= MAX_RESPONSE_BODY_BYTES < MAX_PAYLOAD_BYTES
  {
    BodySizes();
    if AllFit(fs, STATUS_BODY) { EncodingIsBounded(fs, STATUS_BODY); }
    if AllFit(fs, ACCOUNT_ID_BODY) { EncodingIsBounded(fs, ACCOUNT_ID_BODY); }
    if AllFit(fs, PASSKEY_BODY) { EncodingIsBounded(fs, PASSKEY_BODY); }
    if AllFit(fs, ASSERTION_BODY) { EncodingIsBounded(fs, ASSERTION_BODY); }
    if AllFit(fs, ACCOUNT_BODY) { EncodingIsBounded(fs, ACCOUNT_BODY); }
  }

  function Concat(items: seq<seq<Field>>): seq<Field> {
    if items == [] then [] else items[0] + Concat(items[1..])
  }

  lemma {:induction false} ItemsSize(items: seq<seq<Field>>, ks: seq<Kind>, longest: nat)
    requires longest == LongestAll(ks) && forall i :: 0 <= i < |items| ==> AllFit(items[i], ks)
    ensures |Encode(Concat(items))| <= |items| * longest
  {
    if items != [] {
      var rest := items[1..];
      EncodingIsBounded(items[0], ks);
      ItemsSize(rest, ks, longest);
      EncodeAppends(items[0], Concat(rest));
      Distribute(|rest|, longest);
    }
  }

  lemma Distribute(n: nat, longest: nat)
    ensures (n + 1) * longest == longest + n * longest
  {
  }

  /** Both passkey lists are written without an estimate; 64 entries still fit. */
  lemma PasskeyListsFit(items: seq<seq<Field>>, ks: seq<Kind>)
    requires |items| <= MAX_PASSKEY_CREDENTIALS && (ks == PASSKEY_ITEM || ks == MANAGED_ITEM)
    requires forall i :: 0 <= i < |items| ==> AllFit(items[i], ks)
    ensures |Encode([Arr(|items|)] + Concat(items))| <= MAX_RESPONSE_BODY_BYTES < MAX_PAYLOAD_BYTES
  {
    BodySizes();
    ItemsSize(items, ks, LongestAll(ks));
    EncodeAppends([Arr(|items|)], Concat(items));
    EncodeOne(Arr(|items|));
    FieldSize(Arr(|items|));
    assert |items| * LongestAll(ks) <= 64 * 808;
  }

  // ------------------------------------------------------------------ frame headers

  const HEADER_BYTES: nat := 40
  const MAGIC: Bytes := [0x4C, 0x42, 0x49, 0x50]

  function KindNumber(k: MessageKind): byte {
    match k
    case ClientHello => 1
    case ServerHello => 2
    case Request => 3
    case Response => 4
    case Cancel => 5
    case Event => 6
  }

  function KindFrom(b: byte): Option<MessageKind> {
    if b == 1 then Some(ClientHello) else if b == 2 then Some(ServerHello) else if b == 3 then Some(MessageKind.Request)
    else if b == 4 then Some(Response) else if b == 5 then Some(Cancel) else if b == 6 then Some(Event) else None
  }

  /** The sentinel rules of each kind, within the widths of the fields. */
  predicate ValidHeader(h: FrameHeader) {
    && h.payloadLength <= MAX_PAYLOAD_BYTES && h.version.major <= U16_MAX && h.version.minor <= U16_MAX
    && h.connectionId < Pow256(16) && h.requestId <= U64_MAX
    && match h.kind
       case ClientHello => h.version == Version(0, 0) && h.connectionId == 0 && h.requestId == 0
       case ServerHello | Event => h.version != Version(0, 0) && h.connectionId != 0 && h.requestId == 0
       case Request | Response => h.version != Version(0, 0) && h.connectionId != 0 && h.requestId != 0
       case Cancel =>
         h.version != Version(0, 0) && h.connectionId != 0 && h.requestId != 0 && h.payloadLength == 0
  }

  function EncodeHeader(h: FrameHeader): Bytes {
    MAGIC + [1, KindNumber(h.kind), 0, 0] + BigEndian(2, h.version.major) + BigEndian(2, h.version.minor)
    + BigEndian(4, h.payloadLength) + BigEndian(16, h.connectionId) + BigEndian(8, h.requestId)
  }

  function DecodeHeader(bytes: Bytes): Option<FrameHeader> {
    if |bytes| != HEADER_BYTES then None
    else if bytes[..4] != MAGIC || bytes[4] != 1 || bytes[6] != 0 || bytes[7] != 0 then None
    else
      var kind := KindFrom(bytes[5]);
      if kind.None? then None
      else
        var h := FrameHeader(kind.value, Version(FromBigEndian(bytes[8..10]), FromBigEndian(bytes[10..12])),
                             FromBigEndian(bytes[12..16]), FromBigEndian(bytes[16..32]), FromBigEndian(bytes[32..40]));
        if ValidHeader(h) then Some(h) else None
  }

  lemma HeaderParts(h: FrameHeader)
    ensures
      var bytes := EncodeHeader(h);
      && |bytes| == HEADER_BYTES && bytes[..4] == MAGIC
      && bytes[4] == 1 && bytes[5] == KindNumber(h.kind) && bytes[6] == 0 && bytes[7] == 0
      && bytes[8..10] == BigEndian(2, h.version.major) && bytes[10..12] == BigEndian(2, h.version.minor)
      && bytes[12..16] == BigEndian(4, h.payloadLength) && bytes[16..32] == BigEndian(16, h.connectionId)
      && bytes[32..40] == BigEndian(8, h.requestId)
  {
  }

  lemma HeaderNumbers(h: FrameHeader)
    requires ValidHeader(h)
    ensures FromBigEndian(BigEndian(2, h.version.major)) == h.version.major
    ensures FromBigEndian(BigEndian(2, h.version.minor)) == h.version.minor
    ensures FromBigEndian(BigEndian(4, h.payloadLength)) == h.payloadLength
    ensures FromBigEndian(BigEndian(16, h.connectionId)) == h.connectionId
    ensures FromBigEndian(BigEndian(8, h.requestId)) == h.requestId
  {
    Powers();
    ReadsWhatIsWritten(2, h.version.major);
    ReadsWhatIsWritten(2, h.version.minor);
    ReadsWhatIsWritten(4, h.payloadLength);
    ReadsWhatIsWritten(16, h.connectionId);
    ReadsWhatIsWritten(8, h.requestId);
  }

  lemma HeaderReads(h: FrameHeader)
    requires ValidHeader(h)
    ensures
      var bytes := EncodeHeader(h);
      && |bytes| == HEADER_BYTES && bytes[..4] == MAGIC
      && bytes[4] == 1 && bytes[5] == KindNumber(h.kind) && bytes[6] == 0 && bytes[7] == 0
      && FromBigEndian(bytes[8..10]) == h.version.major && FromBigEndian(bytes[10..12]) == h.version.minor
      && FromBigEndian(bytes[12..16]) == h.payloadLength && FromBigEndian(bytes[16..32]) == h.connectionId
      && FromBigEndian(bytes[32..40]) == h.requestId
  {
    HeaderParts(h);
    HeaderNumbers(h);
  }

  /** Headers are accepted exactly as the encodings of valid headers. */
  lemma HeaderRoundTrip(h: FrameHeader)
    requires ValidHeader(h)
    ensures DecodeHeader(EncodeHeader(h)) == Some(h)
  {
    HeaderReads(h);
  }

  lemma Reassembled(bytes: Bytes)
    requires |bytes| == HEADER_BYTES
    ensures bytes == bytes[..4] + [bytes[4], bytes[5], bytes[6], bytes[7]] + bytes[8..10] + bytes[10..12]
                     + bytes[12..16] + bytes[16..32] + bytes[32..40]
  {
  }

  lemma KindRoundTrip(b: byte)
    requires KindFrom(b).Some?
    ensures KindNumber(KindFrom(b).value) == b
  {
  }

  lemma HeaderIsCanonical(bytes: Bytes)
    requires DecodeHeader(bytes).Some?
    ensures EncodeHeader(DecodeHeader(bytes).value) == bytes && ValidHeader(DecodeHeader(bytes).value)
  {
    var h := DecodeHeader(bytes).value;
    WritesWhatIsRead(bytes[8..10]);
    WritesWhatIsRead(bytes[10..12]);
    WritesWhatIsRead(bytes[12..16]);
    WritesWhatIsRead(bytes[16..32]);
    WritesWhatIsRead(bytes[32..40]);
    KindRoundTrip(bytes[5]);
    Reassembled(bytes);
    HeaderOf(h, bytes[8..10], bytes[10..12], bytes[12..16], bytes[16..32], bytes[32..40]);
  }

  lemma HeaderOf(h: FrameHeader, major: Bytes, minor: Bytes, length: Bytes, connection: Bytes, request: Bytes)
    requires BigEndian(2, h.version.major) == major && BigEndian(2, h.version.minor) == minor
    requires BigEndian(4, h.payloadLength) == length && BigEndian(16, h.connectionId) == connection
    requires BigEndian(8, h.requestId) == request
    ensures EncodeHeader(h) == MAGIC + [1, KindNumber(h.kind), 0, 0] + major + minor + length + connection + request
  {
  }
}
