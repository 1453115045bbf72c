/**
 * Messages as flat lists of CBOR fields. Encoding appends shortest heads and contents to a
 * bounded buffer; decoding follows a schema leniently and is made strict by re-encoding.
 */
module Fields {
  import opened Base
  import opened Cbor

  datatype Field = Arr(count: nat) | Int(value: nat) | Blob(bytes: seq<byte>) | Text(bytes: seq<byte>) | Null

  datatype Kind =
    | KArr(count: nat)            // an array of exactly this length
    | KInt(maximum: nat)          // an unsigned integer of the target width
    | KFixed(size: nat)           // a byte string of exactly this size
    | KBlob(maximum: nat)
    | KText(maximum: nat)
    | KOptFixed(size: nat)        // null or a byte string of exactly this size

  // ------------------------------------------------------------------- UTF-8

  predicate Continuation(b: byte) { 0x80 <= b < 0xC0 }

  /** The length of the well-formed UTF-8 character at the front; 0 if there is none. */
  function Utf8Width(s: seq<byte>): (n: nat)
    ensures n <= |s|
  {
    if s == [] then 0
    else if s[0] < 0x80 then 1
    else if 0xC2 <= s[0] < 0xE0 then (if |s| >= 2 && Continuation(s[1]) then 2 else 0)
    else if 0xE0 <= s[0] < 0xF0 then
      if |s| >= 3 && Continuation(s[1]) && Continuation(s[2]) && (s[0] != 0xE0 || s[1] >= 0xA0)
         && (s[0] != 0xED || s[1] < 0xA0) then 3 else 0
    else if 0xF0 <= s[0] < 0xF5 then
      if |s| >= 4 && Continuation(s[1]) && Continuation(s[2]) && Continuation(s[3])
         && (s[0] != 0xF0 || s[1] >= 0x90) && (s[0] != 0xF4 || s[1] < 0x90) then 4 else 0
    else 0
  }

  predicate IsUtf8(s: seq<byte>)
    decreases |s|
  {
    s == [] || (Utf8Width(s) > 0 && IsUtf8(s[Utf8Width(s)..]))
  }

  // ---------------------------------------------------------------- encoding

  /** The head of a field. */
  function FieldHead(f: Field): seq<byte> {
    match f
    case Arr(n) => Head(4, n)
    case Int(v) => Head(0, v)
    case Blob(b) => Head(2, |b|)
    case Text(b) => Head(3, |b|)
    case Null => [0xF6]
  }

  function Content(f: Field): seq<byte> {
    if f.Blob? || f.Text? then f.bytes else []
  }

  function EncodeField(f: Field): seq<byte> { FieldHead(f) + Content(f) }

  function Encode(fs: seq<Field>): seq<byte> {
    if fs == [] then [] else EncodeField(fs[0]) + Encode(fs[1..])
  }

  lemma {:induction false} EncodeAppends(fs: seq<Field>, gs: seq<Field>)
    ensures Encode(fs + gs) == Encode(fs) + Encode(gs)
  {
    if fs == [] {
      assert fs + gs == gs;
    } else {
      assert (fs + gs)[1..] == fs[1..] + gs;
      EncodeAppends(fs[1..], gs);
    }
  }

  lemma EncodeOne(f: Field)
    ensures Encode([f]) == EncodeField(f)
  {
    assert Encode([f]) == EncodeField(f) + Encode([]);
    assert EncodeField(f) + [] == EncodeField(f);
  }

  lemma Appended(fs: seq<Field>, f: Field)
    ensures Encode(fs + [f]) == Encode(fs) + EncodeField(f)
  {
    EncodeAppends(fs, [f]);
    EncodeOne(f);
  }

  lemma PlainField(f: Field)
    ensures !f.Blob? && !f.Text? ==> EncodeField(f) == FieldHead(f)
  {
  }

  lemma FieldSize(f: Field)
    ensures |EncodeField(f)| == match f
                                case Arr(n) => 1 + Following(n)
                                case Int(v) => 1 + Following(v)
                                case Blob(b) => 1 + Following(|b|) + |b|
                                case Text(b) => 1 + Following(|b|) + |b|
                                case Null => 1
  {
  }

  lemma ThreeFields(a: Field, b: Field, c: Field)
    ensures |Encode([a, b, c])| == |EncodeField(a)| + |EncodeField(b)| + |EncodeField(c)|
  {
    assert [a, b, c][1..] == [b, c] && [b, c][1..] == [c];
    EncodeOne(c);
  }

  lemma FiveFields(a: Field, b: Field, c: Field, d: Field, e: Field)
    ensures |Encode([a, b, c, d, e])|
            == |EncodeField(a)| + |EncodeField(b)| + |EncodeField(c)| + |EncodeField(d)| + |EncodeField(e)|
  {
    assert [a, b, c, d, e][1..] == [b, c, d, e] && [b, c, d, e][1..] == [c, d, e];
    ThreeFields(c, d, e);
  }

  /** A buffer that refuses to grow beyond the capacity it was given. */
  class SecretWriter {
    const capacity: nat
    var bytes: seq<byte>

    constructor (capacity: nat)
      ensures this.capacity == capacity && bytes == []
    {
      this.capacity := capacity;
      bytes := [];
    }

    method WriteAll(more: seq<byte>) returns (ok: bool)
      modifies this
      ensures ok == (|old(bytes)| + |more| <= capacity)
      ensures bytes == if ok then old(bytes) + more else old(bytes)
    {
      if |bytes| + |more| > capacity { return false; }
      bytes := bytes + more;
      return true;
    }
  }

  lemma PrefixGrows(fs: seq<Field>, i: nat)
    requires i < |fs|
    ensures Encode(fs[..i + 1]) == Encode(fs[..i]) + EncodeField(fs[i])
    ensures |Encode(fs[..i + 1])| <= |Encode(fs)|
  {
    EncodeAppends(fs[..i], [fs[i]]);
    EncodeAppends(fs[..i + 1], fs[i + 1..]);
    assert fs[..i] + [fs[i]] == fs[..i + 1] && fs[..i + 1] + fs[i + 1..] == fs;
    assert Encode([fs[i]]) == EncodeField(fs[i]) + Encode([]);
    assert EncodeField(fs[i]) + [] == EncodeField(fs[i]);
  }

  method WriteField(writer: SecretWriter, f: Field) returns (ok: bool)
    modifies writer
    ensures ok == (|old(writer.bytes)| + |EncodeField(f)| <= writer.capacity)
    ensures ok ==> writer.bytes == old(writer.bytes) + EncodeField(f)
  {
    ok := writer.WriteAll(FieldHead(f));
    if ok { ok := writer.WriteAll(Content(f)); }
  }

  /** Heads and contents written one by one: no write fails exactly when the whole fits. */
  method WriteFields(fs: seq<Field>, capacity: nat) returns (ok: bool, bytes: seq<byte>)
    ensures ok <==> |Encode(fs)| <= capacity
    ensures ok ==> bytes == Encode(fs)
  {
    var writer := new SecretWriter(capacity);
    var i := 0;
    while i < |fs|
      invariant 0 <= i <= |fs| && writer.bytes == Encode(fs[..i]) && |writer.bytes| <= capacity
    {
      PrefixGrows(fs, i);
      ok := WriteField(writer, fs[i]);
      if !ok { return false, []; }
      i := i + 1;
    }
    assert fs[..i] == fs;
    return true, writer.bytes;
  }

  // ---------------------------------------------------------------- decoding

  predicate Fits(f: Field, k: Kind) {
    match k
    case KArr(n) => f == Arr(n) && n <= U64_MAX
    case KInt(maximum) => f.Int? && f.value <= maximum && f.value <= U64_MAX
    case KFixed(size) => f.Blob? && |f.bytes| == size && size <= U64_MAX
    case KBlob(maximum) => f.Blob? && |f.bytes| <= maximum && |f.bytes| <= U64_MAX
    case KText(maximum) => f.Text? && |f.bytes| <= maximum && |f.bytes| <= U64_MAX && IsUtf8(f.bytes)
    case KOptFixed(size) => f == Null || (f.Blob? && |f.bytes| == size && size <= U64_MAX)
  }

  predicate AllFit(fs: seq<Field>, ks: seq<Kind>) {
    |fs| == |ks| && forall i :: 0 <= i < |fs| ==> Fits(fs[i], ks[i])
  }

  function MajorOf(k: Kind): (m: nat)
    ensures m < 8
  {
    match k
    case KArr(_) => 4
    case KInt(_) => 0
    case KFixed(_) | KBlob(_) | KOptFixed(_) => 2
    case KText(_) => 3
  }

  /** The bytes a string head announces, if they are there. */
  function TakeContent(bytes: seq<byte>, head: Read): Option<seq<byte>> {
    if head.used + head.value <= |bytes| then Some(bytes[head.used..head.used + head.value]) else None
  }

  datatype Decoded = Decoded(field: Field, used: nat)

  /** One field under its kind, the head in any width. */
  function DecodeField(k: Kind, bytes: seq<byte>): Option<Decoded> {
    if k.KOptFixed? && bytes != [] && bytes[0] == 0xF6 then Some(Decoded(Null, 1))
    else
      var head := LenientHead(bytes, MajorOf(k));
      if head.None? then None
      else if k.KArr? then
        if head.value.value == k.count then Some(Decoded(Arr(k.count), head.value.used)) else None
      else if k.KInt? then
        if head.value.value <= k.maximum then Some(Decoded(Int(head.value.value), head.value.used)) else None
      else
        var content := TakeContent(bytes, head.value);
        if content.None? then None
        else
          var field := if k.KText? then Text(content.value) else Blob(content.value);
          if Fits(field, k) then Some(Decoded(field, head.value.used + |content.value|)) else None
  }

  lemma LenientBound(bytes: seq<byte>, major: nat)
    ensures LenientHead(bytes, major).Some? ==>
              LenientHead(bytes, major).value.value <= U64_MAX && 1 <= LenientHead(bytes, major).value.used <= |bytes|
  {
    Powers();
    if LenientHead(bytes, major).Some? && LenientHead(bytes, major).value.used > 1 {
      WritesWhatIsRead(bytes[1..LenientHead(bytes, major).value.used]);
    }
  }

  lemma DecodeFieldFits(k: Kind, bytes: seq<byte>)
    requires DecodeField(k, bytes).Some?
    ensures Fits(DecodeField(k, bytes).value.field, k) && 1 <= DecodeField(k, bytes).value.used <= |bytes|
  {
    LenientBound(bytes, MajorOf(k));
  }

  lemma NumberRoundTrip(k: Kind, f: Field, rest: seq<byte>)
    requires Fits(f, k) && (k.KArr? || k.KInt?)
    ensures DecodeField(k, EncodeField(f) + rest) == Some(Decoded(f, |EncodeField(f)|))
  {
    LenientReadsHead(MajorOf(k), if k.KArr? then f.count else f.value, rest);
    assert EncodeField(f) == FieldHead(f);
  }

  lemma StringHead(major: nat, content: seq<byte>, rest: seq<byte>)
    requires (major == 2 || major == 3) && |content| <= U64_MAX
    ensures
      var head := Head(major, |content|);
      var bytes := head + content + rest;
      && bytes[0] != 0xF6
      && LenientHead(bytes, major) == Some(Read(|content|, |head|))
      && TakeContent(bytes, Read(|content|, |head|)) == Some(content)
  {
    var head := Head(major, |content|);
    LenientReadsHead(major, |content|, content + rest);
    assert head + content + rest == head + (content + rest);
  }

  lemma StringRoundTrip(k: Kind, f: Field, rest: seq<byte>)
    requires Fits(f, k) && (f.Blob? || f.Text?)
    ensures DecodeField(k, EncodeField(f) + rest) == Some(Decoded(f, |EncodeField(f)|))
  {
    StringHead(MajorOf(k), f.bytes, rest);
    assert EncodeField(f) == Head(MajorOf(k), |f.bytes|) + f.bytes;
  }

  lemma FieldRoundTrip(k: Kind, f: Field, rest: seq<byte>)
    requires Fits(f, k)
    ensures DecodeField(k, EncodeField(f) + rest) == Some(Decoded(f, |EncodeField(f)|))
  {
    if f.Arr? || f.Int? {
      NumberRoundTrip(k, f, rest);
    } else if !f.Null? {
      StringRoundTrip(k, f, rest);
    }
  }

  /** A whole schema; the remaining bytes are returned. */
  function DecodeAll(ks: seq<Kind>, bytes: seq<byte>): Option<(seq<Field>, seq<byte>)> {
    if ks == [] then Some(([], bytes))
    else
      var first := DecodeField(ks[0], bytes);
      if first.None? || first.value.used > |bytes| then None
      else
        var others := DecodeAll(ks[1..], bytes[first.value.used..]);
        if others.None? then None else Some(([first.value.field] + others.value.0, others.value.1))
  }

  lemma {:induction false} DecodeEncoded(ks: seq<Kind>, fs: seq<Field>, rest: seq<byte>)
    requires AllFit(fs, ks)
    ensures DecodeAll(ks, Encode(fs) + rest) == Some((fs, rest))
  {
    if ks == [] {
      assert Encode(fs) + rest == rest;
    } else {
      var tail := Encode(fs[1..]) + rest;
      assert Encode(fs) + rest == EncodeField(fs[0]) + tail;
      FieldRoundTrip(ks[0], fs[0], tail);
      assert (EncodeField(fs[0]) + tail)[|EncodeField(fs[0])|..] == tail;
      DecodeEncoded(ks[1..], fs[1..], rest);
      assert [fs[0]] + fs[1..] == fs;
    }
  }

  lemma {:induction false} DecodedFits(ks: seq<Kind>, bytes: seq<byte>)
    requires DecodeAll(ks, bytes).Some?
    ensures AllFit(DecodeAll(ks, bytes).value.0, ks)
  {
    if ks != [] {
      DecodeFieldFits(ks[0], bytes);
      DecodedFits(ks[1..], bytes[DecodeField(ks[0], bytes).value.used..]);
    }
  }

  /** Decoding made strict: complete, and equal to its own encoding. */
  function DecodeExactly(ks: seq<Kind>, bytes: seq<byte>): Option<seq<Field>> {
    var d := DecodeAll(ks, bytes);
    if d.Some? && d.value.1 == [] && Encode(d.value.0) == bytes then Some(d.value.0) else None
  }

  /** The strict decoder accepts exactly the encodings of the schema's values, each once. */
  lemma ExactlyTheEncodings(ks: seq<Kind>, bytes: seq<byte>, fs: seq<Field>)
    ensures DecodeExactly(ks, bytes) == Some(fs) <==> AllFit(fs, ks) && Encode(fs) == bytes
  {
    if AllFit(fs, ks) && Encode(fs) == bytes {
      DecodeEncoded(ks, fs, []);
      assert bytes + [] == bytes;
    }
    if DecodeAll(ks, bytes).Some? { DecodedFits(ks, bytes); }
  }

  // -------------------------------------------------------------------- sizes

  /** The longest encoding of a field of this kind. */
  function Longest(k: Kind): nat {
    match k
    case KArr(n) => 1 + Following(n)
    case KInt(maximum) => 1 + Following(maximum)
    case KFixed(size) => 1 + Following(size) + size
    case KOptFixed(size) => 1 + Following(size) + size
    case KBlob(maximum) => 1 + Following(maximum) + maximum
    case KText(maximum) => 1 + Following(maximum) + maximum
  }

  function LongestAll(ks: seq<Kind>): nat {
    if ks == [] then 0 else Longest(ks[0]) + LongestAll(ks[1..])
  }

  lemma {:induction false} EncodingIsBounded(fs: seq<Field>, ks: seq<Kind>)
    requires AllFit(fs, ks)
    ensures |Encode(fs)| <= LongestAll(ks)
  {
    if fs != [] {
      assert Fits(fs[0], ks[0]);
      EncodingIsBounded(fs[1..], ks[1..]);
    }
  }
}
