/** The multipart codec of cppzmq, in the format of ZeroMQ RFC 50: each part is its size followed by
    its bytes; a size below 255 takes one byte, any other takes 0xFF and four bytes in network order.
 */
module Codec {
  import opened Domain

  newtype byte = x: int | 0 <= x < 256

  type Part = seq<byte>

  const UINT8_MAX: nat := 255
  const UINT32_MAX: nat := 0xFFFF_FFFF

  // ---------- sizes in network order ----------

  function NetworkOrder(v: nat): (r: seq<byte>)
    requires v <= UINT32_MAX
    ensures |r| == 4
  {
    [(v / 0x100_0000 % 256) as byte, (v / 0x1_0000 % 256) as byte, (v / 0x100 % 256) as byte, (v % 256) as byte]
  }

  function ReadNetworkOrder(b: seq<byte>): (v: nat)
    requires |b| == 4
    ensures v <= UINT32_MAX
  {
    b[0] as int * 0x100_0000 + b[1] as int * 0x1_0000 + b[2] as int * 0x100 + b[3] as int
  }

  lemma ReadWritten(v: nat)
    requires v <= UINT32_MAX
    ensures ReadNetworkOrder(NetworkOrder(v)) == v
  {
    var a, b, c := v / 0x100_0000, v / 0x1_0000, v / 0x100;
    assert v == c * 0x100 + v % 256;
    assert c == b * 0x100 + c % 256;
    assert b == a * 0x100 + b % 256;
    assert a % 256 == a;
  }

  lemma WriteRead(b: seq<byte>)
    requires |b| == 4
    ensures NetworkOrder(ReadNetworkOrder(b)) == b
  {
    var v := ReadNetworkOrder(b);
    var b0, b1, b2, b3 := b[0] as int, b[1] as int, b[2] as int, b[3] as int;
    assert v / 0x100 == b0 * 0x1_0000 + b1 * 0x100 + b2;
    assert v / 0x1_0000 == b0 * 0x100 + b1;
    assert v / 0x100_0000 == b0;
    assert NetworkOrder(v)[0] == b[0] && NetworkOrder(v)[1] == b[1] && NetworkOrder(v)[2] == b[2] && NetworkOrder(v)[3] == b[3];
  }

  /** The bytes are the base-256 digits of v, the most significant first. */
  lemma NetworkOrderIs(v: nat, b: seq<byte>)
    requires v <= UINT32_MAX && |b| == 4
    ensures NetworkOrder(v) == b <==>
            && b[0] as int * 0x100_0000 <= v < (b[0] as int + 1) * 0x100_0000
            && (b[0] as int * 0x100 + b[1] as int) * 0x1_0000 <= v < (b[0] as int * 0x100 + b[1] as int + 1) * 0x1_0000
            && (b[0] as int * 0x1_0000 + b[1] as int * 0x100 + b[2] as int) * 0x100 <= v
            && v - (b[0] as int * 0x1_0000 + b[1] as int * 0x100 + b[2] as int) * 0x100 == b[3] as int
  {
    ReadWritten(v);
    WriteRead(b);
  }

  // ---------- the format ----------

  function Header(size: nat): (h: seq<byte>)
    requires size <= UINT32_MAX
    ensures |h| == if size < UINT8_MAX then 1 else 5
  {
    if size < UINT8_MAX then [size as byte] else [255 as byte] + NetworkOrder(size)
  }

  predicate AllFit(parts: seq<Part>) {
    forall i :: 0 <= i < |parts| ==> |parts[i]| <= UINT32_MAX
  }

  function EncodePart(part: Part): seq<byte>
    requires |part| <= UINT32_MAX
  {
    Header(|part|) + part
  }

  function Encode(parts: seq<Part>): seq<byte>
    requires AllFit(parts)
  {
    if parts == [] then [] else EncodePart(parts[0]) + Encode(parts[1..])
  }

  /** The size and the length of the header at the front of bytes, None if the header is cut off. */
  function ReadHeader(bytes: seq<byte>): (r: Option<(nat, nat)>)
    requires bytes != []
    ensures r.Some? ==> r.value.0 <= UINT32_MAX && 1 <= r.value.1 <= |bytes|
  {
    if bytes[0] as int != UINT8_MAX then Some((bytes[0] as int, 1))
    else if |bytes| - 1 < 4 then None
    else Some((ReadNetworkOrder(bytes[1..5]), 5))
  }

  /** The first part and the bytes after it; None where the source throws out_of_range. */
  function Split(bytes: seq<byte>): (r: Option<(Part, seq<byte>)>)
    requires bytes != []
    ensures r.Some? ==> |r.value.1| < |bytes|
  {
    var h := ReadHeader(bytes);
    if h.None? || |bytes| - h.value.1 < h.value.0 then None
    else Some((bytes[h.value.1..h.value.1 + h.value.0], bytes[h.value.1 + h.value.0..]))
  }

  function Decode(bytes: seq<byte>): Option<seq<Part>>
    decreases |bytes|
  {
    if bytes == [] then Some([])
    else
      var first := Split(bytes);
      if first.None? then None
      else
        var rest := Decode(first.value.1);
        if rest.None? then None else Some([first.value.0] + rest.value)
  }

  // ---------- what a message is ----------

  /** bytes are a part and more bytes: the size in one byte if it is below 255, or 0xFF and the size,
      whichever it is, in network order. */
  ghost predicate Frames(bytes: seq<byte>, part: Part, tail: seq<byte>) {
    || (|part| < UINT8_MAX && bytes == [|part| as byte] + part + tail)
    || (|part| <= UINT32_MAX && bytes == [255] + NetworkOrder(|part|) + part + tail)
  }

  /** bytes are these parts, one after the other, and nothing else. */
  ghost predicate FramesAll(bytes: seq<byte>, parts: seq<Part>)
    decreases |parts|
  {
    if parts == [] then bytes == []
    else exists tail :: Frames(bytes, parts[0], tail) && FramesAll(tail, parts[1..])
  }

  /** The size or the part announced at the front of bytes runs past the end. */
  predicate CutOff(bytes: seq<byte>)
    requires bytes != []
  {
    if bytes[0] != 255 then |bytes| < 1 + bytes[0] as int
    else |bytes| < 5 || |bytes| < 5 + ReadNetworkOrder(bytes[1..5])
  }

  lemma ShortForm(bytes: seq<byte>, part: Part, tail: seq<byte>)
    requires |part| < UINT8_MAX && bytes == [|part| as byte] + part + tail
    ensures bytes != [] && !CutOff(bytes) && Split(bytes) == Some((part, tail))
  {
    assert bytes[1..1 + |part|] == part && bytes[1 + |part|..] == tail;
  }

  lemma LongForm(bytes: seq<byte>, part: Part, tail: seq<byte>)
    requires |part| <= UINT32_MAX && bytes == [255] + NetworkOrder(|part|) + part + tail
    ensures bytes != [] && !CutOff(bytes) && Split(bytes) == Some((part, tail))
  {
    assert bytes[1..5] == NetworkOrder(|part|);
    ReadWritten(|part|);
    assert bytes[5..5 + |part|] == part && bytes[5 + |part|..] == tail;
  }

  lemma SplitFrames(bytes: seq<byte>)
    requires bytes != [] && Split(bytes).Some?
    ensures Frames(bytes, Split(bytes).value.0, Split(bytes).value.1)
  {
    var (size, length) := ReadHeader(bytes).value;
    Reassembled(bytes, length, size);
    if length == 5 {
      WriteRead(bytes[1..5]);
      assert bytes[..5] == [255] + bytes[1..5];
    } else {
      assert bytes[..1] == [bytes[0]];
    }
  }

  /** The first part of a message is read exactly if there is one, in either form of its size. */
  lemma SplitIff(bytes: seq<byte>, part: Part, tail: seq<byte>)
    ensures bytes != [] && Split(bytes) == Some((part, tail)) <==> Frames(bytes, part, tail)
  {
    if |part| < UINT8_MAX && bytes == [|part| as byte] + part + tail {
      ShortForm(bytes, part, tail);
    } else if Frames(bytes, part, tail) {
      LongForm(bytes, part, tail);
    } else if bytes != [] && Split(bytes) == Some((part, tail)) {
      SplitFrames(bytes);
    }
  }

  /** Reading the first part throws exactly if its size, or the part itself, runs past the end. */
  lemma SplitFailsIff(bytes: seq<byte>)
    requires bytes != []
    ensures Split(bytes).None? <==> CutOff(bytes)
  {
  }

  /** Decoding gives exactly the parts the bytes frame; so it throws exactly on bytes that frame none. */
  lemma {:induction false} DecodeIff(bytes: seq<byte>, parts: seq<Part>)
    ensures Decode(bytes) == Some(parts) <==> FramesAll(bytes, parts)
    decreases |bytes|
  {
    if parts != [] && bytes != [] && Split(bytes).Some? {
      var (part, tail) := Split(bytes).value;
      SplitIff(bytes, part, tail);
      DecodeIff(tail, parts[1..]);
      forall rest
        ensures Frames(bytes, parts[0], rest) ==> parts[0] == part && rest == tail
      {
        SplitIff(bytes, parts[0], rest);
      }
      if Decode(bytes) == Some(parts) {
        DecodedFirst(bytes, parts);
      }
      assert parts == [parts[0]] + parts[1..];
    } else if parts != [] {
      forall rest
        ensures !Frames(bytes, parts[0], rest)
      {
        SplitIff(bytes, parts[0], rest);
      }
    }
  }

  lemma DecodedFirst(bytes: seq<byte>, parts: seq<Part>)
    requires bytes != [] && parts != [] && Decode(bytes) == Some(parts)
    ensures Split(bytes).Some? && parts[0] == Split(bytes).value.0 && Decode(Split(bytes).value.1) == Some(parts[1..])
  {
  }

  // ---------- round trips ----------

  lemma HeaderReads(size: nat, tail: seq<byte>)
    requires size <= UINT32_MAX
    ensures ReadHeader(Header(size) + tail) == Some((size, |Header(size)|))
  {
    if size >= UINT8_MAX {
      assert (Header(size) + tail)[1..5] == NetworkOrder(size);
      ReadWritten(size);
    }
  }

  lemma SplitEncoded(part: Part, tail: seq<byte>)
    requires |part| <= UINT32_MAX
    ensures Split(EncodePart(part) + tail) == Some((part, tail))
  {
    var bytes, h := EncodePart(part) + tail, |Header(|part|)|;
    assert bytes == Header(|part|) + (part + tail);
    HeaderReads(|part|, part + tail);
    assert bytes[h..h + |part|] == part && bytes[h + |part|..] == tail;
  }

  /** Decoding undoes encoding. */
  lemma {:induction false} DecodeEncode(parts: seq<Part>)
    requires AllFit(parts)
    ensures Decode(Encode(parts)) == Some(parts)
  {
    if parts != [] {
      DecodeEncode(parts[1..]);
      SplitEncoded(parts[0], Encode(parts[1..]));
      assert [parts[0]] + parts[1..] == parts;
    }
  }

  /** Encoding is injective. */
  lemma EncodeInjective(a: seq<Part>, b: seq<Part>)
    requires AllFit(a) && AllFit(b) && Encode(a) == Encode(b)
    ensures a == b
  {
    DecodeEncode(a);
    DecodeEncode(b);
  }

  lemma HeaderIsShortest(bytes: seq<byte>)
    requires bytes != [] && ReadHeader(bytes).Some?
    ensures var (size, length) := ReadHeader(bytes).value;
            |Header(size)| <= length && (|Header(size)| == length ==> Header(size) == bytes[..length])
  {
    var (size, length) := ReadHeader(bytes).value;
    if length == 5 {
      WriteRead(bytes[1..5]);
      assert bytes[..5] == [bytes[0]] + bytes[1..5];
    } else {
      assert bytes[..1] == [bytes[0]];
    }
  }

  lemma SplitIsShortest(bytes: seq<byte>)
    requires bytes != [] && Split(bytes).Some?
    ensures var (part, tail) := Split(bytes).value;
            && |part| <= UINT32_MAX
            && |EncodePart(part)| + |tail| <= |bytes|
            && (|EncodePart(part)| + |tail| == |bytes| ==> EncodePart(part) + tail == bytes)
  {
    var (size, length) := ReadHeader(bytes).value;
    var (part, tail) := Split(bytes).value;
    HeaderIsShortest(bytes);
    Reassembled(bytes, length, size);
    assert EncodePart(part) + tail == Header(size) + part + tail;
  }

  lemma Reassembled(bytes: seq<byte>, length: nat, size: nat)
    requires length + size <= |bytes|
    ensures bytes[..length] + bytes[length..length + size] + bytes[length + size..] == bytes
  {
  }

  /** Whatever decodes, decodes to parts that can be encoded, in no more bytes; and in as many bytes
      only as those very bytes, so the five-byte form of a short size is the only slack. */
  lemma {:induction false} DecodedReencodes(bytes: seq<byte>)
    requires Decode(bytes).Some?
    ensures AllFit(Decode(bytes).value)
    ensures |Encode(Decode(bytes).value)| <= |bytes|
    ensures |Encode(Decode(bytes).value)| == |bytes| ==> Encode(Decode(bytes).value) == bytes
    decreases |bytes|
  {
    if bytes != [] {
      var (part, tail) := Split(bytes).value;
      DecodedReencodes(tail);
      SplitIsShortest(bytes);
      var parts := Decode(tail).value;
      var all := [part] + parts;
      assert Decode(bytes).value == all && all[0] == part && all[1..] == parts;
    }
  }

  /** Re-encoding what was decoded and decoding again gives the same parts. */
  lemma DecodeIsStable(bytes: seq<byte>)
    requires Decode(bytes).Some?
    ensures AllFit(Decode(bytes).value) && Decode(Encode(Decode(bytes).value)) == Decode(bytes)
  {
    DecodedReencodes(bytes);
    DecodeEncode(Decode(bytes).value);
  }

  // ---------- the buffer algorithms ----------

  lemma {:induction false} EncodeConcat(a: seq<Part>, b: seq<Part>)
    requires AllFit(a) && AllFit(b)
    ensures AllFit(a + b) && Encode(a + b) == Encode(a) + Encode(b)
  {
    if a == [] {
      assert a + b == b;
    } else {
      assert (a + b)[1..] == a[1..] + b;
      EncodeConcat(a[1..], b);
      assert EncodePart(a[0]) + (Encode(a[1..]) + Encode(b)) == EncodePart(a[0]) + Encode(a[1..]) + Encode(b);
    }
  }

  lemma EncodeNext(parts: seq<Part>, i: nat)
    requires AllFit(parts) && i < |parts|
    ensures AllFit(parts[..i]) && AllFit(parts[..i + 1])
    ensures Encode(parts[..i + 1]) == Encode(parts[..i]) + EncodePart(parts[i])
    ensures |Encode(parts[..i + 1])| <= |Encode(parts)|
  {
    assert parts[..i + 1] == parts[..i] + [parts[i]];
    assert [parts[i]][1..] == [];
    assert Encode([parts[i]]) == EncodePart(parts[i]);
    EncodeConcat(parts[..i], [parts[i]]);
    assert parts == parts[..i + 1] + parts[i + 1..];
    EncodeConcat(parts[..i + 1], parts[i + 1..]);
  }

  /** The first pass: the size of the encoding, or None if a part is too large. */
  method EncodedSize(parts: seq<Part>) returns (r: Option<nat>)
    ensures r.Some? <==> AllFit(parts)
    ensures r.Some? ==> r.value == |Encode(parts)|
  {
    var size := 0;
    for i := 0 to |parts|
      invariant AllFit(parts[..i]) && size == |Encode(parts[..i])|
    {
      if |parts[i]| > UINT32_MAX {
        assert !AllFit(parts);
        return None;
      }
      assert parts[..i + 1] == parts[..i] + [parts[i]];
      EncodeNext(parts[..i + 1], i);
      assert parts[..i + 1][..i] == parts[..i] && parts[..i + 1][..i + 1] == parts[..i + 1];
      size := size + |parts[i]| + if |parts[i]| < UINT8_MAX then 1 else 5;
    }
    assert parts[..|parts|] == parts;
    r := Some(size);
  }

  /** Copies data to buf from pos on. */
  method CopyTo(buf: array<byte>, pos: nat, data: seq<byte>)
    requires pos + |data| <= buf.Length
    modifies buf
    ensures buf[..pos + |data|] == old(buf[..pos]) + data
  {
    for j := 0 to |data|
      invariant buf[..pos + j] == old(buf[..pos]) + data[..j]
    {
      buf[pos + j] := data[j];
      assert buf[..pos + j + 1] == buf[..pos + j] + [data[j]];
      assert data[..j + 1] == data[..j] + [data[j]];
    }
    assert data[..|data|] == data;
  }

  /** Writes the size and the bytes of one part to buf from pos on. */
  method WritePart(buf: array<byte>, pos: nat, part: Part) returns (end: nat)
    requires |part| <= UINT32_MAX && pos + |EncodePart(part)| <= buf.Length
    modifies buf
    ensures end == pos + |EncodePart(part)| && buf[..end] == old(buf[..pos]) + EncodePart(part)
  {
    var header := Header(|part|);
    CopyTo(buf, pos, header);
    end := pos + |header|;
    CopyTo(buf, end, part);
    end := end + |part|;
    assert old(buf[..pos]) + header + part == old(buf[..pos]) + EncodePart(part);
  }

  /** The second pass fills a buffer of exactly the size of the first. */
  method EncodeBuffer(parts: seq<Part>) returns (r: Option<seq<byte>>)
    ensures r == if AllFit(parts) then Some(Encode(parts)) else None
  {
    var size := EncodedSize(parts);
    if size.None? {
      return None;
    }
    var buf := new byte[size.value];
    var pos := 0;
    for i := 0 to |parts|
      invariant AllFit(parts[..i]) && pos == |Encode(parts[..i])| <= buf.Length
      invariant buf[..pos] == Encode(parts[..i])
    {
      EncodeNext(parts, i);
      pos := WritePart(buf, pos, parts[i]);
    }
    assert parts[..|parts|] == parts && buf[..pos] == buf[..];
    r := Some(buf[..]);
  }

  /** The parts before the first malformed one: what has gone to the output when decoding ends or throws. */
  function Emitted(bytes: seq<byte>): seq<Part>
    decreases |bytes|
  {
    if bytes == [] || Split(bytes).None? then []
    else [Split(bytes).value.0] + Emitted(Split(bytes).value.1)
  }

  /** Decoding succeeds with the emitted parts, or throws after emitting what a prefix of the bytes
      decodes to. */
  lemma {:induction false} EmittedDecodes(bytes: seq<byte>) returns (n: nat)
    ensures n <= |bytes| && Decode(bytes[..n]) == Some(Emitted(bytes))
    ensures Decode(bytes) == if n == |bytes| then Some(Emitted(bytes)) else None
    ensures n < |bytes| ==> CutOff(bytes[n..])
    decreases |bytes|
  {
    if bytes == [] || Split(bytes).None? {
      n := 0;
      assert bytes[0..] == bytes;
    } else {
      var (size, length) := ReadHeader(bytes).value;
      var (part, tail) := Split(bytes).value;
      var m := EmittedDecodes(tail);
      n := length + size + m;
      PrefixSplits(bytes, n);
      assert bytes[length + size..n] == tail[..m];
      if m == |tail| {
        assert bytes[..n] == bytes;
      } else {
        assert bytes[n..] == tail[m..];
      }
    }
  }

  /** A prefix that holds the first part splits like the whole. */
  lemma PrefixSplits(bytes: seq<byte>, n: nat)
    requires bytes != [] && Split(bytes).Some?
    requires ReadHeader(bytes).value.1 + ReadHeader(bytes).value.0 <= n <= |bytes|
    ensures var (size, length) := ReadHeader(bytes).value;
            bytes[..n] != [] && Split(bytes[..n]) == Some((Split(bytes).value.0, bytes[length + size..n]))
  {
    var (size, length) := ReadHeader(bytes).value;
    if length == 5 {
      assert bytes[..n][1..5] == bytes[1..5];
    }
    assert bytes[..n][length..length + size] == bytes[length..length + size];
    assert bytes[..n][length + size..] == bytes[length + size..n];
  }

  /** out, followed by what the rest emits, is what the bytes emit; and both decode or neither. */
  ghost predicate Halfway(bytes: seq<byte>, rest: seq<byte>, out: seq<Part>) {
    Emitted(bytes) == out + Emitted(rest) && (Decode(bytes).Some? <==> Decode(rest).Some?)
  }

  lemma HalfwayNext(bytes: seq<byte>, rest: seq<byte>, out: seq<Part>)
    requires rest != [] && Halfway(bytes, rest, out)
    ensures Split(rest).None? ==> Decode(bytes).None? && Emitted(bytes) == out
    ensures Split(rest).Some? ==> Halfway(bytes, Split(rest).value.1, out + [Split(rest).value.0])
  {
    if Split(rest).Some? {
      var (part, tail) := Split(rest).value;
      assert out + ([part] + Emitted(tail)) == out + [part] + Emitted(tail);
    } else {
      assert out + [] == out;
    }
  }

  lemma HalfwayStarts(bytes: seq<byte>)
    ensures Halfway(bytes, bytes[0..], [])
  {
    assert bytes[0..] == bytes && [] + Emitted(bytes) == Emitted(bytes);
  }

  /** The bounds of the part whose header is at pos; None where the source throws. */
  method ReadPart(bytes: seq<byte>, pos: nat) returns (r: Option<(nat, nat)>)
    requires pos < |bytes|
    ensures r.None? <==> CutOff(bytes[pos..])
    ensures r.None? <==> Split(bytes[pos..]).None?
    ensures r.Some? ==>
              && pos < r.value.0 <= r.value.1 <= |bytes|
              && Split(bytes[pos..]) == Some((bytes[r.value.0..r.value.1], bytes[r.value.1..]))
  {
    var h := ReadHeader(bytes[pos..]);
    if h.None? {
      return None;
    }
    var (size, length) := h.value;
    var start := pos + length;
    if |bytes| - start < size {
      return None;
    }
    SliceOfSuffix(bytes, pos, length, size);
    r := Some((start, start + size));
  }

  /** The source pointer runs through the message, emitting parts; false where it throws. */
  method DecodeBuffer(bytes: seq<byte>) returns (ok: bool, out: seq<Part>)
    ensures ok <==> Decode(bytes).Some?
    ensures ok ==> Decode(bytes) == Some(out)
    ensures out == Emitted(bytes)
    ensures if ok then FramesAll(bytes, out) else forall parts :: !FramesAll(bytes, parts)
  {
    forall parts
      ensures Decode(bytes) == Some(parts) <==> FramesAll(bytes, parts)
    {
      DecodeIff(bytes, parts);
    }
    var pos := 0;
    out := [];
    HalfwayStarts(bytes);
    while pos < |bytes|
      invariant pos <= |bytes| && Halfway(bytes, bytes[pos..], out)
    {
      HalfwayNext(bytes, bytes[pos..], out);
      var bounds := ReadPart(bytes, pos);
      if bounds.None? {
        return false, out;
      }
      var (start, end) := bounds.value;
      out := out + [bytes[start..end]];
      pos := end;
    }
    assert bytes[pos..] == [] && out + [] == out;
    ghost var n := EmittedDecodes(bytes);
    ok := true;
  }

  lemma SliceOfSuffix(bytes: seq<byte>, pos: nat, length: nat, size: nat)
    requires pos + length + size <= |bytes|
    ensures bytes[pos..][length..length + size] == bytes[pos + length..pos + length + size]
    ensures bytes[pos..][length + size..] == bytes[pos + length + size..]
  {
  }
}
