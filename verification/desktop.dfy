/** The desktop client's hand-written codec against the agent's: what each sends, the other reads. */
module Desktop {
  import opened Base
  import opened Tables
  import opened Cbor
  import opened Fields
  import opened Operations
  import opened Message

  /** The operations the client knows. */
  predicate DesktopOperation(op: OperationCode) {
    op in {Status, CreateVault, UnlockMasterPassword, Lock, ListAccountSummaries, AddAccount,
           EnrollWindowsHello, RemoveWindowsHello, UnlockWindowsHello, DeletePasskey, ListPasskeys}
  }

  predicate DesktopSendsKey(op: OperationCode) {
    op in {CreateVault, AddAccount, EnrollWindowsHello, RemoveWindowsHello, DeletePasskey}
  }

  /** The envelope the client means. */
  function Meant(op: OperationCode, epoch: nat, timeout: nat, key: Bytes, body: Bytes): RequestEnvelope {
    RequestEnvelope(op, epoch, timeout, if DesktopSendsKey(op) then Some(key) else None, body)
  }

  /** One call of the writer: a head, and for strings their content. */
  method PutField(writer: CborWriter, f: Field)
    requires match f case Arr(n) => n <= U64_MAX case Int(v) => v <= U64_MAX case Null => true
                     case Blob(b) => |b| <= U64_MAX case Text(b) => |b| <= U64_MAX
    modifies writer
    ensures writer.buffer == old(writer.buffer) + EncodeField(f)
  {
    PlainField(f);
    ghost var was := writer.buffer;
    match f {
      case Arr(n) => writer.TypeValue(4, n);
      case Int(v) => writer.TypeValue(0, v);
      case Null => writer.NullValue();
      case Blob(b) =>
        writer.Bytes(2, b);
        assert writer.buffer == was + (Head(2, |b|) + b);
      case Text(b) =>
        writer.Bytes(3, b);
        assert writer.buffer == was + (Head(3, |b|) + b);
    }
  }

  method Put(writer: CborWriter, f: Field, ghost before: seq<Field>)
    requires writer.buffer == Encode(before)
    requires match f case Arr(n) => n <= U64_MAX case Int(v) => v <= U64_MAX case Null => true
                     case Blob(b) => |b| <= U64_MAX case Text(b) => |b| <= U64_MAX
    modifies writer
    ensures writer.buffer == Encode(before + [f])
  {
    Appended(before, f);
    PutField(writer, f);
  }

  /** Written field by field; refused only when it exceeds the frame's payload limit. */
  method RequestBytes(op: OperationCode, epoch: nat, timeout: nat, key: Bytes, body: Bytes)
    returns (payload: Option<Bytes>)
    requires DesktopOperation(op) && epoch <= U64_MAX && timeout <= U32_MAX && |key| == 16 && |body| <= U64_MAX
    ensures
      var bytes := Encode(RequestFields(Meant(op, epoch, timeout, key, body)));
      payload == if |bytes| <= MAX_PAYLOAD_BYTES then Some(bytes) else None
  {
    CodeRoundTrip(op);
    var writer := new CborWriter();
    Put(writer, Arr(5), []);
    Put(writer, Int(Code(op)), [] + [Arr(5)]);
    Put(writer, Int(epoch), [] + [Arr(5)] + [Int(Code(op))]);
    ghost var start := [] + [Arr(5)] + [Int(Code(op))] + [Int(epoch)];
    Put(writer, Int(timeout), start);
    var keyField := if DesktopSendsKey(op) then Blob(key) else Null;
    Put(writer, keyField, start + [Int(timeout)]);
    Put(writer, Blob(body), start + [Int(timeout)] + [keyField]);
    assert start + [Int(timeout)] + [keyField] + [Blob(body)] == RequestFields(Meant(op, epoch, timeout, key, body));
    if |writer.buffer| > MAX_PAYLOAD_BYTES { return None; }
    return Some(writer.buffer);
  }

  /** Both sides agree on which of the client's operations carry an idempotency key. */
  lemma KeysAgree(op: OperationCode)
    requires DesktopOperation(op)
    ensures DesktopSendsKey(op) <==> RequiresIdempotencyKey(op)
  {
  }

  /**
   * The agent accepts what the client writes, with identical fields, exactly when the timeout is
   * not zero and the body is within the agent's limit.
   */
  lemma AgentReadsDesktop(op: OperationCode, epoch: nat, timeout: nat, key: Bytes, body: Bytes)
    requires DesktopOperation(op) && epoch <= U64_MAX && timeout <= U32_MAX && |key| == 16
    ensures
      var e := Meant(op, epoch, timeout, key, body);
      DecodeEnvelope(Encode(RequestFields(e))) == Some(e) <==> timeout > 0 && |body| <= MAX_REQUEST_BODY_BYTES
  {
    KeysAgree(op);
    var e := Meant(op, epoch, timeout, key, body);
    EnvelopeCodec(Encode(RequestFields(e)), e);
  }

  // ------------------------------------------------------- reading the agent

  /** What the client's reader asks for next. */
  datatype Want = WArr | WInt | WBlob(maximum: nat) | WText(maximum: nat)

  predicate Suits(f: Field, w: Want) {
    match w
    case WArr => f.Arr? && f.count <= U64_MAX
    case WInt => f.Int? && f.value <= U64_MAX
    case WBlob(maximum) => f.Blob? && |f.bytes| <= maximum && |f.bytes| <= U64_MAX
    case WText(maximum) => f.Text? && |f.bytes| <= maximum && |f.bytes| <= U64_MAX
  }

  function StrictField(w: Want, bytes: Bytes): Option<Field> {
    match w
    case WArr => if StrictHead(bytes, 4).Some? then Some(Arr(StrictHead(bytes, 4).value.value)) else None
    case WInt => if StrictHead(bytes, 0).Some? then Some(Int(StrictHead(bytes, 0).value.value)) else None
    case WBlob(maximum) =>
      var b := StrictString(bytes, 2, maximum);
      if b.Some? then Some(Blob(b.value)) else None
    case WText(maximum) =>
      var b := StrictString(bytes, 3, maximum);
      if b.Some? then Some(Text(b.value)) else None
  }

  lemma StrictFieldSound(w: Want, bytes: Bytes)
    requires StrictField(w, bytes).Some?
    ensures Suits(StrictField(w, bytes).value, w) && EncodeField(StrictField(w, bytes).value) <= bytes
  {
    var f := StrictField(w, bytes).value;
    PlainField(f);
    match w
    case WArr => StrictIsShortest(bytes, 4);
    case WInt => StrictIsShortest(bytes, 0);
    case WBlob(_) =>
      StrictIsShortest(bytes, 2);
      Prefixed(bytes, Head(2, |f.bytes|), f.bytes);
    case WText(_) =>
      StrictIsShortest(bytes, 3);
      Prefixed(bytes, Head(3, |f.bytes|), f.bytes);
  }

  lemma Prefixed(bytes: Bytes, head: Bytes, content: Bytes)
    requires head <= bytes && content <= bytes[|head|..]
    ensures head + content <= bytes
  {
    assert bytes == head + bytes[|head|..];
  }

  lemma StrictFieldComplete(w: Want, f: Field, bytes: Bytes)
    requires Suits(f, w) && EncodeField(f) <= bytes
    ensures StrictField(w, bytes) == Some(f)
  {
    var rest := bytes[|EncodeField(f)|..];
    assert bytes == EncodeField(f) + rest;
    PlainField(f);
    match f
    case Arr(n) => ShortestIsStrict(bytes, 4, n);
    case Int(v) => ShortestIsStrict(bytes, 0, v);
    case Blob(b) => StringIsRead(2, b, w.maximum, rest);
    case Text(b) => StringIsRead(3, b, w.maximum, rest);
  }

  method ReadNumber(reader: CborReader, major: nat) returns (n: Option<nat>)
    requires reader.Valid() && major < 8
    modifies reader
    ensures reader.Valid() && n.Some? == StrictHead(old(reader.Rest()), major).Some?
    ensures n.Some? ==>
              && n.value == StrictHead(old(reader.Rest()), major).value.value
              && 1 + Following(n.value) <= |old(reader.Rest())|
              && reader.Rest() == old(reader.Rest())[1 + Following(n.value)..]
  {
    ghost var rest := reader.Rest();
    n := reader.TypeValue(major);
    if n.Some? { StrictIsShortest(rest, major); }
  }

  /** The reader at work: one field, and what is left of the bytes. */
  method ReadField(reader: CborReader, w: Want) returns (f: Option<Field>)
    requires reader.Valid()
    modifies reader
    ensures reader.Valid() && f == StrictField(w, old(reader.Rest()))
    ensures f.Some? ==>
              && |EncodeField(f.value)| <= |old(reader.Rest())|
              && reader.Rest() == old(reader.Rest())[|EncodeField(f.value)|..]
  {
    match w {
      case WArr =>
        var n := ReadNumber(reader, 4);
        if n.None? { return None; }
        FieldSize(Arr(n.value));
        return Some(Arr(n.value));
      case WInt =>
        var n := ReadNumber(reader, 0);
        if n.None? { return None; }
        FieldSize(Int(n.value));
        return Some(Int(n.value));
      case WBlob(maximum) =>
        var b := reader.Slice(2, maximum);
        if b.None? { return None; }
        FieldSize(Blob(b.value));
        return Some(Blob(b.value));
      case WText(maximum) =>
        var b := reader.Slice(3, maximum);
        if b.None? { return None; }
        FieldSize(Text(b.value));
        return Some(Text(b.value));
    }
  }

  predicate SuitAll(fs: seq<Field>, ws: seq<Want>) {
    |fs| == |ws| && forall i :: 0 <= i < |fs| ==> Suits(fs[i], ws[i])
  }

  /** A run of fields, and the bytes after it. */
  function StrictAll(ws: seq<Want>, bytes: Bytes): Option<(seq<Field>, Bytes)> {
    if ws == [] then Some(([], bytes))
    else
      var f := StrictField(ws[0], bytes);
      if f.None? || |EncodeField(f.value)| > |bytes| then None
      else
        var more := StrictAll(ws[1..], bytes[|EncodeField(f.value)|..]);
        if more.None? then None else Some(([f.value] + more.value.0, more.value.1))
  }

  lemma {:induction false} StrictAllComplete(ws: seq<Want>, fs: seq<Field>, rest: Bytes)
    requires SuitAll(fs, ws)
    ensures StrictAll(ws, Encode(fs) + rest) == Some((fs, rest))
  {
    if ws == [] {
      assert Encode(fs) + rest == rest;
    } else {
      var tail := Encode(fs[1..]) + rest;
      var bytes := EncodeField(fs[0]) + tail;
      assert Encode(fs) + rest == bytes;
      assert bytes[|EncodeField(fs[0])|..] == tail;
      StrictFieldComplete(ws[0], fs[0], bytes);
      StrictAllComplete(ws[1..], fs[1..], rest);
      assert [fs[0]] + fs[1..] == fs;
    }
  }

  lemma Glued(f: Field, fs: seq<Field>, tail: Bytes, rest: Bytes)
    requires Encode(fs) + rest == tail
    ensures Encode([f] + fs) + rest == EncodeField(f) + tail
  {
    assert ([f] + fs)[1..] == fs;
    assert EncodeField(f) + Encode(fs) + rest == EncodeField(f) + (Encode(fs) + rest);
  }

  lemma SuitsMore(f: Field, fs: seq<Field>, ws: seq<Want>)
    requires ws != [] && Suits(f, ws[0]) && SuitAll(fs, ws[1..])
    ensures SuitAll([f] + fs, ws)
  {
  }

  lemma {:induction false} StrictAllSound(ws: seq<Want>, bytes: Bytes)
    requires StrictAll(ws, bytes).Some?
    ensures SuitAll(StrictAll(ws, bytes).value.0, ws)
    ensures Encode(StrictAll(ws, bytes).value.0) + StrictAll(ws, bytes).value.1 == bytes
  {
    if ws == [] {
      assert Encode([]) + bytes == bytes;
    } else {
      StrictFieldSound(ws[0], bytes);
      var f := StrictField(ws[0], bytes).value;
      var tail := bytes[|EncodeField(f)|..];
      assert bytes == EncodeField(f) + tail;
      StrictAllSound(ws[1..], tail);
      var more := StrictAll(ws[1..], tail).value;
      Glued(f, more.0, tail, more.1);
      SuitsMore(f, more.0, ws);
    }
  }

  function Prepend(done: seq<Field>, more: Option<(seq<Field>, Bytes)>): Option<(seq<Field>, Bytes)> {
    if more.None? then None else Some((done + more.value.0, more.value.1))
  }

  /** The client's decoders: fields read one after the other. */
  method ReadFields(reader: CborReader, ws: seq<Want>) returns (fs: Option<seq<Field>>)
    requires reader.Valid()
    modifies reader
    ensures reader.Valid() && fs.Some? == StrictAll(ws, old(reader.Rest())).Some?
    ensures fs.Some? ==> StrictAll(ws, old(reader.Rest())) == Some((fs.value, reader.Rest()))
  {
    var done: seq<Field> := [];
    ghost var start := reader.Rest();
    assert ws[0..] == ws;
    PrependNothing(StrictAll(ws, start));
    while |done| < |ws|
      invariant reader.Valid() && |done| <= |ws|
      invariant StrictAll(ws, start) == Prepend(done, StrictAll(ws[|done|..], reader.Rest()))
    {
      ghost var here := reader.Rest();
      var f := ReadField(reader, ws[|done|]);
      ReadMore(ws[|done|..], here, done);
      assert ws[|done|..][1..] == ws[|done| + 1..];
      if f.None? { return None; }
      done := done + [f.value];
    }
    assert ws[|done|..] == [] && done + [] == done;
    return Some(done);
  }

  lemma PrependNothing(more: Option<(seq<Field>, Bytes)>)
    ensures Prepend([], more) == more
  {
    assert more.Some? ==> [] + more.value.0 == more.value.0;
  }

  lemma ReadMore(ws: seq<Want>, bytes: Bytes, done: seq<Field>)
    requires ws != []
    ensures
      var f := StrictField(ws[0], bytes);
      Prepend(done, StrictAll(ws, bytes))
      == if f.None? || |EncodeField(f.value)| > |bytes| then None
         else Prepend(done + [f.value], StrictAll(ws[1..], bytes[|EncodeField(f.value)|..]))
  {
    var f := StrictField(ws[0], bytes);
    if f.Some? && |EncodeField(f.value)| <= |bytes| {
      var more := StrictAll(ws[1..], bytes[|EncodeField(f.value)|..]);
      if more.Some? { assert done + ([f.value] + more.value.0) == done + [f.value] + more.value.0; }
    }
  }

  // ---------------------------------------------------------------- responses

  function ErrorFrom(n: nat): Option<ErrorCode> {
    match n
    case 1 => Some(InvalidRequest)
    case 2 => Some(UnauthorizedOperation)
    case 3 => Some(VaultLocked)
    case 4 => Some(NotFound)
    case 5 => Some(Conflict)
    case 6 => Some(Busy)
    case 7 => Some(RequestCancelled)
    case 8 => Some(DeadlineExceeded)
    case 9 => Some(AgentUnavailable)
    case 10 => Some(Incompatible)
    case 11 => Some(OperationFailed)
    case _ => None
  }

  function RetryFrom(n: nat): Option<RetryCategory> {
    match n
    case 1 => Some(Never)
    case 2 => Some(Reconnect)
    case 3 => Some(AfterUnlock)
    case 4 => Some(Backoff)
    case _ => None
  }

  lemma NumbersRoundTrip(n: nat)
    ensures forall e :: ErrorFrom(ErrorNumber(e)) == Some(e) && 1 <= ErrorNumber(e) <= 11
    ensures forall r :: RetryFrom(RetryNumber(r)) == Some(r) && 1 <= RetryNumber(r) <= 4
    ensures ErrorFrom(n).Some? ==> ErrorNumber(ErrorFrom(n).value) == n
    ensures ErrorFrom(n).Some? <==> 1 <= n <= 11
    ensures RetryFrom(n).Some? ==> RetryNumber(RetryFrom(n).value) == n
    ensures RetryFrom(n).Some? <==> 1 <= n <= 4
  {
  }

  const RESPONSE_WANTS := [WArr, WInt, WInt, WBlob(16), WBlob(MAX_RESPONSE_BODY_BYTES)]

  /** The client's checks on a response it has read. */
  function CheckedAnswer(fs: seq<Field>): Option<Answer>
    requires |fs| == 5
  {
    var error, retry, correlation, body := N(fs[1]), N(fs[2]), B(fs[3]), B(fs[4]);
    if fs[0] != Arr(4) || error > 11 || retry == 0 || retry > 4 || |correlation| != 16 || !NonZero(correlation)
       || (error != 0 && body != []) || (error == 0 && retry != 1) || RetryFrom(retry).None? then None
    else Some(Answer(ErrorFrom(error), RetryFrom(retry).value, correlation, body))
  }

  function DesktopResponse(payload: Bytes): Option<Answer> {
    var d := StrictAll(RESPONSE_WANTS, payload);
    if d.None? || |d.value.0| != 5 || d.value.1 != [] then None else CheckedAnswer(d.value.0)
  }

  method ReadResponse(payload: Bytes) returns (a: Option<Answer>)
    ensures a == DesktopResponse(payload)
  {
    var reader := new CborReader(payload);
    assert payload[0..] == payload;
    var fs := ReadFields(reader, RESPONSE_WANTS);
    if fs.None? { return None; }
    StrictAllSound(RESPONSE_WANTS, payload);
    if reader.offset != |reader.bytes| { return None; }
    return CheckedAnswer(fs.value);
  }

  lemma AnswerFields(fs: seq<Field>, a: Answer)
    requires SuitAll(fs, RESPONSE_WANTS)
    ensures CheckedAnswer(fs) == Some(a) <==> ValidResponse(a) && ResponseFields(a) == fs
  {
    assert Suits(fs[0], WArr) && Suits(fs[1], WInt) && Suits(fs[2], WInt) && Suits(fs[3], WBlob(16));
    assert Suits(fs[4], WBlob(MAX_RESPONSE_BODY_BYTES));
    NumbersRoundTrip(N(fs[1]));
    NumbersRoundTrip(N(fs[2]));
  }

  lemma ResponseSuits(a: Answer)
    requires ValidResponse(a)
    ensures SuitAll(ResponseFields(a), RESPONSE_WANTS)
  {
    NumbersRoundTrip(0);
  }

  lemma SuitingFieldsAreRead(fs: seq<Field>)
    requires SuitAll(fs, RESPONSE_WANTS)
    ensures DesktopResponse(Encode(fs)) == CheckedAnswer(fs)
  {
    StrictAllComplete(RESPONSE_WANTS, fs, []);
    assert Encode(fs) + [] == Encode(fs);
  }

  lemma EncodedResponseIsRead(a: Answer)
    requires ValidResponse(a)
    ensures DesktopResponse(Encode(ResponseFields(a))) == Some(a)
  {
    ResponseSuits(a);
    SuitingFieldsAreRead(ResponseFields(a));
    AnswerFields(ResponseFields(a), a);
  }

  lemma ReadResponseIsEncoded(payload: Bytes, a: Answer)
    requires DesktopResponse(payload) == Some(a)
    ensures ValidResponse(a) && Encode(ResponseFields(a)) == payload
  {
    StrictAllSound(RESPONSE_WANTS, payload);
    var fs := StrictAll(RESPONSE_WANTS, payload).value.0;
    AnswerFields(fs, a);
    assert Encode(fs) + [] == Encode(fs);
  }

  /** The client accepts exactly the responses the agent encodes, field for field. */
  lemma DesktopReadsAgent(payload: Bytes, a: Answer)
    ensures DesktopResponse(payload) == Some(a) <==> ValidResponse(a) && Encode(ResponseFields(a)) == payload
  {
    if ValidResponse(a) { EncodedResponseIsRead(a); }
    if DesktopResponse(payload) == Some(a) { ReadResponseIsEncoded(payload, a); }
  }
}
