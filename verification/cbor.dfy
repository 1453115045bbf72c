/**
 * CBOR heads (section 3 of RFC 8949): the shortest encoding of section 4.2.1, the strict reader
 * that accepts nothing else, and the lenient reader whose results are compared by re-encoding.
 */
module Cbor {
  import opened Base

  // ------------------------------------------------------- big-endian integers

  function Pow256(width: nat): (p: nat)
    ensures p > 0
  {
    if width == 0 then 1 else 256 * Pow256(width - 1)
  }

  function BigEndian(width: nat, value: nat): (bytes: seq<byte>)
    ensures |bytes| == width
  {
    if width == 0 then [] else BigEndian(width - 1, value / 256) + [value % 256]
  }

  function FromBigEndian(bytes: seq<byte>): nat {
    if bytes == [] then 0 else FromBigEndian(bytes[..|bytes| - 1]) * 256 + bytes[|bytes| - 1]
  }

  lemma {:induction false} ReadsWhatIsWritten(width: nat, value: nat)
    requires value < Pow256(width)
    ensures FromBigEndian(BigEndian(width, value)) == value
  {
    if width > 0 {
      var bytes := BigEndian(width, value);
      ReadsWhatIsWritten(width - 1, value / 256);
      assert bytes[..width - 1] == BigEndian(width - 1, value / 256);
    }
  }

  lemma {:induction false} WritesWhatIsRead(bytes: seq<byte>)
    ensures BigEndian(|bytes|, FromBigEndian(bytes)) == bytes
    ensures FromBigEndian(bytes) < Pow256(|bytes|)
  {
    if bytes != [] {
      var rest, last := bytes[..|bytes| - 1], bytes[|bytes| - 1];
      WritesWhatIsRead(rest);
      assert (FromBigEndian(rest) * 256 + last) / 256 == FromBigEndian(rest);
      assert bytes == rest + [last];
    }
  }

  /** The most significant byte first, as the byte loops produce it. */
  lemma {:induction false} LeadingByte(width: nat, value: nat)
    requires width > 0
    ensures BigEndian(width, value) == [value / Pow256(width - 1) % 256] + BigEndian(width - 1, value)
    decreases width
  {
    if width > 1 {
      LeadingByte(width - 1, value / 256);
      DivideTwice(value, Pow256(width - 2));
      assert BigEndian(width - 1, value) == BigEndian(width - 2, value / 256) + [value % 256];
    }
  }

  lemma DivideTwice(value: nat, p: nat)
    requires p > 0
    ensures value / 256 / p == value / (256 * p)
  {
    var q := value / 256 / p;
    var r := value / 256 % p;
    assert value == 256 * (p * q + r) + value % 256;
    assert value == (256 * p) * q + (256 * r + value % 256);
    assert 256 * r + value % 256 < 256 * p;
    QuotientIs(value, 256 * p, q, 256 * r + value % 256);
  }

  lemma SmallMultiple(d: int, x: int)
    requires d > 0 && -d < d * x < d
    ensures x == 0
  {
    assert x >= 1 ==> d * x >= d;
    assert x <= -1 ==> d * x <= -d;
  }

  lemma QuotientIs(value: nat, d: nat, q: nat, r: nat)
    requires d > 0 && r < d && value == d * q + r
    ensures value / d == q
  {
    var v := value / d;
    assert value == d * v + value % d;
    assert d * (q - v) == d * q - d * v;
    SmallMultiple(d, q - v);
  }

  lemma Powers()
    ensures Pow256(1) == 0x100 && Pow256(2) == 0x1_0000 && Pow256(4) == 0x1_0000_0000
    ensures Pow256(8) == 0x1_0000_0000_0000_0000
  {
    assert Pow256(3) == 256 * Pow256(2);
    assert Pow256(4) == 256 * Pow256(3);
    assert Pow256(5) == 256 * Pow256(4);
    assert Pow256(6) == 256 * Pow256(5);
    assert Pow256(7) == 256 * Pow256(6);
  }

  // --------------------------------------------------------------------- heads

  /** How many bytes follow the initial byte in the shortest head. */
  function Following(value: nat): nat {
    if value < 24 then 0 else if value < 0x100 then 1 else if value < 0x1_0000 then 2
    else if value < 0x1_0000_0000 then 4 else 8
  }

  function Additional(value: nat): nat {
    if value < 24 then value else if value < 0x100 then 24 else if value < 0x1_0000 then 25
    else if value < 0x1_0000_0000 then 26 else 27
  }

  /** The shortest head of a value under a major type. */
  function Head(major: nat, value: nat): (bytes: seq<byte>)
    requires major < 8
    ensures |bytes| == 1 + Following(value)
  {
    [major * 32 + Additional(value)] + BigEndian(Following(value), value)
  }

  /** The number of bytes a given additional information announces; None for reserved values. */
  function Announced(additional: nat): Option<nat> {
    if additional < 24 then Some(0) else if additional == 24 then Some(1) else if additional == 25 then Some(2)
    else if additional == 26 then Some(4) else if additional == 27 then Some(8) else None
  }

  datatype Read = Read(value: nat, used: nat)

  /** A head of any width, as the lenient decoder accepts it. */
  function LenientHead(bytes: seq<byte>, major: nat): Option<Read> {
    if bytes == [] || bytes[0] / 32 != major then None
    else
      var width := Announced(bytes[0] % 32);
      if width.None? || 1 + width.value > |bytes| then None
      else if width.value == 0 then Some(Read(bytes[0] % 32, 1))
      else Some(Read(FromBigEndian(bytes[1..1 + width.value]), 1 + width.value))
  }

  /** The least value a head of this width may carry in the shortest form. */
  function Least(width: nat): nat {
    if width <= 1 then 24 else if width == 2 then 0x100 else if width == 4 then 0x1_0000 else 0x1_0000_0000
  }

  /** A head in its shortest form only. */
  function StrictHead(bytes: seq<byte>, major: nat): Option<Read> {
    var head := LenientHead(bytes, major);
    if head.Some? && (head.value.used == 1 || Least(head.value.used - 1) <= head.value.value) then head else None
  }

  lemma LenientReadsHead(major: nat, value: nat, rest: seq<byte>)
    requires major < 8 && value <= U64_MAX
    ensures LenientHead(Head(major, value) + rest, major) == Some(Read(value, |Head(major, value)|))
  {
    var bytes, n := Head(major, value) + rest, Following(value);
    Powers();
    assert bytes[0] == major * 32 + Additional(value);
    assert bytes[0] / 32 == major && bytes[0] % 32 == Additional(value);
    if n > 0 {
      assert bytes[1..1 + n] == BigEndian(n, value);
      ReadsWhatIsWritten(n, value);
    }
  }

  lemma ShortestIsStrict(bytes: seq<byte>, major: nat, value: nat)
    requires major < 8 && value <= U64_MAX && Head(major, value) <= bytes
    ensures StrictHead(bytes, major) == Some(Read(value, |Head(major, value)|))
  {
    LenientReadsHead(major, value, bytes[|Head(major, value)|..]);
    assert bytes == Head(major, value) + bytes[|Head(major, value)|..];
  }

  /** Additional information and width of a shortest head determine each other. */
  lemma ShortestWidth(additional: nat, width: nat, value: nat)
    requires Announced(additional) == Some(width) && width > 0 && Least(width) <= value < Pow256(width)
    ensures Following(value) == width && Additional(value) == additional && value <= U64_MAX
  {
    Powers();
  }

  lemma StrictIsShortest(bytes: seq<byte>, major: nat)
    requires major < 8 && StrictHead(bytes, major).Some?
    ensures
      var Read(value, used) := StrictHead(bytes, major).value;
      value <= U64_MAX && used == |Head(major, value)| && Head(major, value) <= bytes
  {
    var Read(value, used) := StrictHead(bytes, major).value;
    assert bytes[0] == major * 32 + bytes[0] % 32;
    if used > 1 {
      WritesWhatIsRead(bytes[1..used]);
      ShortestWidth(bytes[0] % 32, used - 1, value);
      assert bytes[1..used] == BigEndian(used - 1, value);
      assert bytes[..used] == [bytes[0]] + bytes[1..used];
    }
  }

  /** The strict reader accepts exactly the bytes that start with a shortest head. */
  lemma StrictReadsShortest(bytes: seq<byte>, major: nat, value: nat, used: nat)
    requires major < 8
    ensures StrictHead(bytes, major) == Some(Read(value, used)) <==>
              && value <= U64_MAX && used == |Head(major, value)| && Head(major, value) <= bytes
  {
    if value <= U64_MAX && Head(major, value) <= bytes { ShortestIsStrict(bytes, major, value); }
    if StrictHead(bytes, major).Some? { StrictIsShortest(bytes, major); }
  }

  // ------------------------------------------------- the desktop's own codec

  class CborWriter {
    var buffer: seq<byte>

    constructor ()
      ensures buffer == []
    {
      buffer := [];
    }

    method TypeValue(major: nat, value: nat)
      requires major < 8 && value <= U64_MAX
      modifies this
      ensures buffer == old(buffer) + Head(major, value)
    {
      var prefix := major * 32;
      if value < 24 {
        buffer := buffer + [prefix + value];
      } else if value <= 0xFF {
        buffer := buffer + [prefix + 24];
        Append(1, value);
      } else if value <= 0xFFFF {
        buffer := buffer + [prefix + 25];
        Append(2, value);
      } else if value <= 0xFFFF_FFFF {
        buffer := buffer + [prefix + 26];
        Append(4, value);
      } else {
        buffer := buffer + [prefix + 27];
        Append(8, value);
      }
    }

    /** The byte loop: shifts of (width - 1) * 8 down to 0. */
    method Append(width: nat, value: nat)
      modifies this
      ensures buffer == old(buffer) + BigEndian(width, value)
    {
      var left := width;
      assert buffer + BigEndian(left, value) == old(buffer) + BigEndian(width, value);
      while left > 0
        invariant 0 <= left <= width
        invariant buffer + BigEndian(left, value) == old(buffer) + BigEndian(width, value)
      {
        LeadingByte(left, value);
        left := left - 1;
        ghost var was := buffer;
        buffer := buffer + [value / Pow256(left) % 256];
        assert buffer + BigEndian(left, value) == was + ([value / Pow256(left) % 256] + BigEndian(left, value));
      }
      assert buffer + [] == buffer;
    }

    method Bytes(major: nat, value: seq<byte>)
      requires (major == 2 || major == 3) && |value| <= U64_MAX
      modifies this
      ensures buffer == old(buffer) + Head(major, |value|) + value
    {
      TypeValue(major, |value|);
      buffer := buffer + value;
    }

    method NullValue()
      modifies this
      ensures buffer == old(buffer) + [0xF6]
    {
      buffer := buffer + [0xF6];
    }
  }

  lemma TailSlice(bytes: seq<byte>, start: nat, width: nat)
    requires start + 1 + width <= |bytes|
    ensures bytes[start..][1..1 + width] == bytes[start + 1..start + 1 + width]
  {
  }

  class CborReader {
    const bytes: seq<byte>
    var offset: nat

    ghost predicate Valid()
      reads this
    {
      offset <= |bytes|
    }

    constructor (bytes: seq<byte>)
      ensures this.bytes == bytes && offset == 0 && Valid()
    {
      this.bytes := bytes;
      offset := 0;
    }

    method ReadInteger(width: nat) returns (value: Option<nat>)
      requires Valid()
      modifies this
      ensures Valid()
      ensures value.Some? <==> width <= |bytes| - old(offset)
      ensures value.Some? ==>
                offset == old(offset) + width && value.value == FromBigEndian(bytes[old(offset)..offset])
      ensures value.None? ==> offset == old(offset)
    {
      if width > |bytes| - offset { return None; }
      var total: nat := 0;
      ghost var start := offset;
      var index := 0;
      while index < width
        invariant 0 <= index <= width && offset == start + index
        invariant total == FromBigEndian(bytes[start..offset])
      {
        total := total * 256 + bytes[offset];
        offset := offset + 1;
        index := index + 1;
        assert bytes[start..offset][..index - 1] == bytes[start..offset - 1];
      }
      return Some(total);
    }

    /** What is left to read. */
    ghost function Rest(): seq<byte>
      requires Valid()
      reads this
    {
      bytes[offset..]
    }

    /** Reads one head, accepted in its shortest form only. */
    method TypeValue(major: nat) returns (value: Option<nat>)
      requires Valid() && major < 8
      modifies this
      ensures Valid()
      ensures value.Some? <==> StrictHead(old(Rest()), major).Some?
      ensures value.Some? ==>
                && value.value == StrictHead(old(Rest()), major).value.value
                && Rest() == old(Rest())[StrictHead(old(Rest()), major).value.used..]
    {
      ghost var rest, start := Rest(), offset;
      if offset >= |bytes| { return None; }
      var initial := bytes[offset];
      offset := offset + 1;
      if initial / 32 != major { return None; }
      var additional := initial % 32;
      if additional < 24 { return Some(additional); }
      var width := if additional == 24 then 1 else if additional == 25 then 2 else if additional == 26 then 4
                   else if additional == 27 then 8 else 0;
      if width == 0 { return None; }
      value := ReadInteger(width);
      if value.None? { return; }
      TailSlice(bytes, start, width);
      if value.value < Least(width) { return None; }
      assert StrictHead(rest, major) == Some(Read(value.value, 1 + width));
    }

    /** A byte or text string of at most `maximum` bytes. */
    method Slice(major: nat, maximum: nat) returns (value: Option<seq<byte>>)
      requires Valid() && (major == 2 || major == 3)
      modifies this
      ensures Valid() && value == StrictString(old(Rest()), major, maximum)
      ensures value.Some? ==>
                && 1 + Following(|value.value|) + |value.value| <= |old(Rest())|
                && Rest() == old(Rest())[1 + Following(|value.value|) + |value.value|..]
    {
      ghost var rest := Rest();
      var length := TypeValue(major);
      if length.None? { return None; }
      if length.value > maximum || length.value > |bytes| - offset { return None; }
      ghost var used := StrictHead(rest, major).value.used;
      StrictIsShortest(rest, major);
      var start := offset;
      offset := offset + length.value;
      assert rest[used..][..length.value] == bytes[start..offset];
      return Some(bytes[start..offset]);
    }

    method NextIsNull() returns (yes: bool)
      requires Valid()
      ensures yes == (Rest() != [] && Rest()[0] == 0xF6)
    {
      return offset < |bytes| && bytes[offset] == 0xF6;
    }

    method SkipNull()
      requires Valid() && Rest() != [] && Rest()[0] == 0xF6
      modifies this
      ensures Valid() && Rest() == old(Rest())[1..]
    {
      offset := offset + 1;
    }
  }

  /** The content of a string in shortest form, if it is there and not too long. */
  function StrictString(bytes: seq<byte>, major: nat, maximum: nat): Option<seq<byte>> {
    var head := StrictHead(bytes, major);
    if head.None? || head.value.value > maximum || head.value.used > |bytes|
       || head.value.value > |bytes| - head.value.used then None
    else Some(bytes[head.value.used..][..head.value.value])
  }

  /** The reader accepts exactly the heads its writer produces. */
  lemma AcceptsExactlyWrittenHeads(bytes: seq<byte>, major: nat)
    requires major < 8
    ensures StrictHead(bytes, major).Some? <==> exists v: nat :: v <= U64_MAX && Head(major, v) <= bytes
  {
    if StrictHead(bytes, major).Some? { StrictIsShortest(bytes, major); }
    forall v: nat | v <= U64_MAX && Head(major, v) <= bytes ensures StrictHead(bytes, major).Some? {
      ShortestIsStrict(bytes, major, v);
    }
  }

  lemma StringIsRead(major: nat, content: seq<byte>, maximum: nat, rest: seq<byte>)
    requires (major == 2 || major == 3) && |content| <= maximum && |content| <= U64_MAX
    ensures StrictString(Head(major, |content|) + content + rest, major, maximum) == Some(content)
    ensures (Head(major, |content|) + content + rest)[1 + Following(|content|) + |content|..] == rest
  {
    var head := Head(major, |content|);
    var bytes := head + content + rest;
    assert bytes == head + (content + rest);
    ShortestIsStrict(bytes, major, |content|);
    assert bytes[|head|..] == content + rest;
  }
}
