/** The WebP sticker check: a chunk walker over a RIFF file and the three image headers
    (RFC 9649 sections 2.3 to 2.7, RFC 6386 section 9.1). */
module WebP {
  import opened Wrappers

  type Byte = x: int | 0 <= x < 256
  type Bytes = seq<Byte>

  const RIFF: Bytes := [0x52, 0x49, 0x46, 0x46]
  const WEBP: Bytes := [0x57, 0x45, 0x42, 0x50]
  const VP8X: Bytes := [0x56, 0x50, 0x38, 0x58]
  const VP8L: Bytes := [0x56, 0x50, 0x38, 0x4C]
  const VP8_: Bytes := [0x56, 0x50, 0x38, 0x20]

  /** Marks a key frame. */
  const START_CODE: Bytes := [0x9d, 0x01, 0x2a]

  const DIMENSION := 512
  const MAX_STATIC := 100 * 1024
  const MAX_ANIMATED := 500 * 1024

  datatype Meta = Meta(width: nat, height: nat, animated: bool)

  datatype Error = NoHeader | BadChunkSize | BadImage | NoImage | WrongSize | TooLarge

  // ----- little-endian fields ----------------------------------------------------------------

  function Pow256(k: nat): (p: nat)
    ensures p > 0
  {
    if k == 0 then 1 else 0x100 * Pow256(k - 1)
  }

  /** The number whose bytes, least significant first, are `b`. */
  function Le(b: Bytes): (n: nat)
    ensures n < Pow256(|b|)
  {
    if b == [] then 0 else (b[0] as int) + 0x100 * Le(b[1..])
  }

  function ToLe(n: nat, k: nat): (b: Bytes)
    requires n < Pow256(k)
    ensures |b| == k && Le(b) == n
  {
    if k == 0 then []
    else
      var b := [n % 0x100] + ToLe(n / 0x100, k - 1);
      assert b[1..] == ToLe(n / 0x100, k - 1);
      b
  }

  lemma {:induction false} LeIsInjective(b: Bytes)
    ensures ToLe(Le(b), |b|) == b
  {
    if b != [] {
      LeIsInjective(b[1..]);
      assert Le(b) % 0x100 == b[0] as int && Le(b) / 0x100 == Le(b[1..]);
      assert [b[0]] + b[1..] == b;
    }
  }

  function ToLe16(n: nat): (b: Bytes)
    requires n < 0x1_0000
    ensures |b| == 2 && Le(b) == n
  {
    assert Pow256(2) == 0x1_0000;
    ToLe(n, 2)
  }

  function ToLe24(n: nat): (b: Bytes)
    requires n < 0x100_0000
    ensures |b| == 3 && Le(b) == n
  {
    assert Pow256(3) == 0x100_0000;
    ToLe(n, 3)
  }

  function ToLe32(n: nat): (b: Bytes)
    requires n < 0x1_0000_0000
    ensures |b| == 4 && Le(b) == n
  {
    assert Pow256(4) == 0x1_0000_0000;
    ToLe(n, 4)
  }

  // ----- the image headers ---------------------------------------------------------------------

  function ParseVP8X(chunk: Bytes): Result<Meta, Error> {
    if |chunk| < 10 then Failure(BadImage)
    else Success(Meta(Le(chunk[4..7]) + 1, Le(chunk[7..10]) + 1, chunk[0] / 2 % 2 == 1))
  }

  function ParseVP8L(chunk: Bytes): Result<Meta, Error> {
    if |chunk| < 5 || chunk[0] != 0x2f then Failure(BadImage)
    else
      var bits := Le(chunk[1..5]);
      Success(Meta(bits % 0x4000 + 1, bits / 0x4000 % 0x4000 + 1, false))
  }

  function ParseVP8(chunk: Bytes): Result<Meta, Error> {
    if |chunk| < 10 || chunk[3..6] != START_CODE then Failure(BadImage)
    else Success(Meta(Le(chunk[6..8]) % 0x4000, Le(chunk[8..10]) % 0x4000, false))
  }

  predicate IsImage(kind: Bytes) {
    kind == VP8X || kind == VP8L || kind == VP8_
  }

  function ParseImage(kind: Bytes, chunk: Bytes): Result<Meta, Error>
    requires IsImage(kind)
  {
    if kind == VP8X then ParseVP8X(chunk) else if kind == VP8L then ParseVP8L(chunk) else ParseVP8(chunk)
  }

  /** An image header as the formats lay it out; `flags`, `scale` and the like are free. */
  datatype Image =
    | Extended(flags: Byte, reserved: Bytes, canvasWidth: nat, canvasHeight: nat)
    | Lossless(pixelWidth: nat, pixelHeight: nat, alphaAndVersion: nat)
    | Lossy(frameTag: Bytes, frameWidth: nat, horizontalScale: nat, frameHeight: nat, verticalScale: nat)

  predicate Encodable(i: Image) {
    match i
    case Extended(_, reserved, w, h) => |reserved| == 3 && 1 <= w <= 0x100_0000 && 1 <= h <= 0x100_0000
    case Lossless(w, h, rest) => 1 <= w <= 0x4000 && 1 <= h <= 0x4000 && rest < 16
    case Lossy(tag, w, ws, h, hs) => |tag| == 3 && w < 0x4000 && h < 0x4000 && ws < 4 && hs < 4
  }

  function KindOf(i: Image): (kind: Bytes)
    ensures IsImage(kind) && |kind| == 4
  {
    match i case Extended(_, _, _, _) => VP8X case Lossless(_, _, _) => VP8L case Lossy(_, _, _, _, _) => VP8_
  }

  function EncodeImage(i: Image): Bytes
    requires Encodable(i)
  {
    match i
    case Extended(flags, reserved, w, h) => [flags] + reserved + ToLe24(w - 1) + ToLe24(h - 1)
    case Lossless(w, h, rest) => [0x2f] + ToLe32(w - 1 + 0x4000 * (h - 1) + 0x1000_0000 * rest)
    case Lossy(tag, w, ws, h, hs) => tag + START_CODE + ToLe16(w + 0x4000 * ws) + ToLe16(h + 0x4000 * hs)
  }

  function MetaOf(i: Image): Meta {
    match i
    case Extended(flags, _, w, h) => Meta(w, h, flags / 2 % 2 == 1)
    case Lossless(w, h, _) => Meta(w, h, false)
    case Lossy(_, w, _, h, _) => Meta(w, h, false)
  }

  lemma ExtendedReadsBack(flags: Byte, reserved: Bytes, w: nat, h: nat, rest: Bytes)
    requires Encodable(Extended(flags, reserved, w, h))
    ensures ParseVP8X(EncodeImage(Extended(flags, reserved, w, h)) + rest) == Success(MetaOf(Extended(flags, reserved, w, h)))
  {
    var chunk := EncodeImage(Extended(flags, reserved, w, h)) + rest;
    assert chunk[4..7] == ToLe24(w - 1) && chunk[7..10] == ToLe24(h - 1);
  }

  lemma LosslessFields(packed: Bytes, rest: Bytes)
    requires |packed| == 4
    ensures ParseVP8L([0x2f] + packed + rest) ==
            Success(Meta(Le(packed) % 0x4000 + 1, Le(packed) / 0x4000 % 0x4000 + 1, false))
  {
    var chunk: Bytes := [0x2f] + packed + rest;
    assert chunk[1..5] == packed;
  }

  lemma Packed(w: nat, h: nat, bits: nat)
    requires w < 0x4000 && h < 0x4000 && bits < 16
    ensures var n := w + 0x4000 * h + 0x1000_0000 * bits;
            n < 0x1_0000_0000 && n % 0x4000 == w && n / 0x4000 % 0x4000 == h
  {
    var high := h + 0x4000 * bits;
    assert w + 0x4000 * h + 0x1000_0000 * bits == w + 0x4000 * high;
    Low14(w, high);
    Low14(h, bits);
    assert (w + 0x4000 * high) / 0x4000 == high;
  }

  lemma LosslessReadsBack(w: nat, h: nat, bits: nat, rest: Bytes)
    requires Encodable(Lossless(w, h, bits))
    ensures ParseVP8L(EncodeImage(Lossless(w, h, bits)) + rest) == Success(Meta(w, h, false))
  {
    Packed(w - 1, h - 1, bits);
    LosslessFields(ToLe32(w - 1 + 0x4000 * (h - 1) + 0x1000_0000 * bits), rest);
  }

  lemma LossyFields(tag: Bytes, a: Bytes, b: Bytes, rest: Bytes)
    requires |tag| == 3 && |a| == |b| == 2
    ensures ParseVP8(tag + START_CODE + a + b + rest) == Success(Meta(Le(a) % 0x4000, Le(b) % 0x4000, false))
  {
    var chunk := tag + START_CODE + a + b + rest;
    assert chunk == tag + START_CODE + (a + b + rest);
    SliceOf(tag, START_CODE, a + b + rest);
    assert chunk == (tag + START_CODE) + a + (b + rest);
    SliceOf(tag + START_CODE, a, b + rest);
    SliceOf(tag + START_CODE + a, b, rest);
  }

  lemma LossyReadsBack(tag: Bytes, w: nat, ws: nat, h: nat, hs: nat, rest: Bytes)
    requires Encodable(Lossy(tag, w, ws, h, hs))
    ensures ParseVP8(EncodeImage(Lossy(tag, w, ws, h, hs)) + rest) == Success(Meta(w, h, false))
  {
    var a, b := ToLe16(w + 0x4000 * ws), ToLe16(h + 0x4000 * hs);
    Low14(w, ws);
    Low14(h, hs);
    LossyFields(tag, a, b, rest);
  }

  lemma Low14(n: nat, scale: nat)
    requires n < 0x4000
    ensures (n + 0x4000 * scale) % 0x4000 == n
  {
  }

  lemma SliceOf(before: Bytes, part: Bytes, after: Bytes)
    ensures (before + part + after)[|before|..|before| + |part|] == part
  {
  }

  /** Every header of each format reads back as the dimensions it was written with. */
  lemma HeaderReadsBack(i: Image, rest: Bytes)
    requires Encodable(i)
    ensures ParseImage(KindOf(i), EncodeImage(i) + rest) == Success(MetaOf(i))
  {
    match i {
      case Extended(flags, reserved, w, h) => ExtendedReadsBack(flags, reserved, w, h, rest);
      case Lossless(w, h, bits) => LosslessReadsBack(w, h, bits, rest);
      case Lossy(tag, w, ws, h, hs) => LossyReadsBack(tag, w, ws, h, hs, rest);
    }
  }

  /** The header at the front of a chunk that was read. */
  lemma HeaderRead(kind: Bytes, chunk: Bytes) returns (i: Image, rest: Bytes)
    requires IsImage(kind) && ParseImage(kind, chunk).Success?
    ensures Encodable(i) && KindOf(i) == kind && EncodeImage(i) + rest == chunk
    ensures ParseImage(kind, chunk) == Success(MetaOf(i))
  {
    if kind == VP8X {
      i, rest := ExtendedRead(chunk);
    } else if kind == VP8L {
      i, rest := LosslessRead(chunk);
    } else {
      i, rest := LossyRead(chunk);
    }
    HeaderReadsBack(i, rest);
  }

  lemma ExtendedRead(chunk: Bytes) returns (i: Image, rest: Bytes)
    requires ParseVP8X(chunk).Success?
    ensures i.Extended? && Encodable(i) && EncodeImage(i) + rest == chunk
  {
    Fields24(chunk[4..7]);
    Fields24(chunk[7..10]);
    i, rest := Extended(chunk[0], chunk[1..4], Le(chunk[4..7]) + 1, Le(chunk[7..10]) + 1), chunk[10..];
    assert chunk == [chunk[0]] + chunk[1..4] + chunk[4..7] + chunk[7..10] + chunk[10..];
  }

  lemma Fields24(b: Bytes)
    requires |b| == 3
    ensures Le(b) < 0x100_0000 && ToLe24(Le(b)) == b
  {
    assert Pow256(3) == 0x100_0000;
    LeIsInjective(b);
  }

  lemma Fields16(b: Bytes)
    requires |b| == 2
    ensures Le(b) < 0x1_0000 && ToLe16(Le(b)) == b
  {
    assert Pow256(2) == 0x1_0000;
    LeIsInjective(b);
  }

  lemma Unpacked(bits: nat) returns (w: nat, h: nat, high: nat)
    requires bits < 0x1_0000_0000
    ensures w < 0x4000 && h < 0x4000 && high < 16 && bits == w + 0x4000 * h + 0x1000_0000 * high
  {
    var upper := bits / 0x4000;
    w, h, high := bits % 0x4000, upper % 0x4000, upper / 0x4000;
  }

  lemma LosslessOf(packed: Bytes) returns (i: Image)
    requires |packed| == 4
    ensures i.Lossless? && Encodable(i) && EncodeImage(i) == [0x2f] + packed
  {
    assert Pow256(4) == 0x1_0000_0000;
    LeIsInjective(packed);
    var w, h, high := Unpacked(Le(packed));
    i := Lossless(w + 1, h + 1, high);
  }

  lemma LosslessRead(chunk: Bytes) returns (i: Image, rest: Bytes)
    requires ParseVP8L(chunk).Success?
    ensures i.Lossless? && Encodable(i) && EncodeImage(i) + rest == chunk
  {
    i := LosslessOf(chunk[1..5]);
    rest := chunk[5..];
    assert chunk == [chunk[0]] + chunk[1..5] + chunk[5..];
  }

  lemma LossyRead(chunk: Bytes) returns (i: Image, rest: Bytes)
    requires ParseVP8(chunk).Success?
    ensures i.Lossy? && Encodable(i) && EncodeImage(i) + rest == chunk
  {
    var a, b := chunk[6..8], chunk[8..10];
    Fields16(a);
    Fields16(b);
    i, rest := Lossy(chunk[0..3], Le(a) % 0x4000, Le(a) / 0x4000, Le(b) % 0x4000, Le(b) / 0x4000), chunk[10..];
    assert EncodeImage(i) == chunk[0..3] + START_CODE + a + b;
    assert chunk == chunk[0..3] + chunk[3..6] + a + b + chunk[10..];
  }

  /** A chunk is read exactly when it starts with a header of its format, and as that header's
      dimensions. */
  lemma ReadsExactlyTheHeaders(kind: Bytes, chunk: Bytes, m: Meta)
    requires IsImage(kind)
    ensures ParseImage(kind, chunk) == Success(m)
            <==> exists i: Image, rest: Bytes ::
                   Encodable(i) && KindOf(i) == kind && EncodeImage(i) + rest == chunk && MetaOf(i) == m
    ensures ParseImage(kind, chunk).Failure? ==> ParseImage(kind, chunk) == Failure(BadImage)
  {
    if ParseImage(kind, chunk) == Success(m) {
      var i, rest := HeaderRead(kind, chunk);
    }
    forall i: Image, rest: Bytes | Encodable(i) && KindOf(i) == kind && EncodeImage(i) + rest == chunk
      ensures ParseImage(kind, chunk) == Success(MetaOf(i))
    {
      HeaderReadsBack(i, rest);
    }
  }

  // ----- the chunk walker ------------------------------------------------------------------------

  function Parse(data: Bytes): Result<Meta, Error> {
    if |data| < 12 || data[0..4] != RIFF || data[8..12] != WEBP then Failure(NoHeader) else Walk(data[12..])
  }

  /** What the walker finds in the bytes from one chunk boundary on. */
  function Walk(data: Bytes): Result<Meta, Error>
    decreases |data|
  {
    if |data| < 8 then Failure(NoImage)
    else
      var size := Le(data[4..8]);
      if 8 + size > |data| then Failure(BadChunkSize)
      else if IsImage(data[0..4]) then ParseImage(data[0..4], data[8..8 + size])
      else
        var next := 8 + size + size % 2;
        if next > |data| then Failure(NoImage) else Walk(data[next..])
  }

  /** The walk from an offset of the whole file, which may lie past its end. */
  function WalkFrom(data: Bytes, off: nat): Result<Meta, Error> {
    if off <= |data| then Walk(data[off..]) else Failure(NoImage)
  }

  /** One step of it, given the fields of the chunk at the offset. */
  lemma WalkAt(data: Bytes, off: nat, kind: Bytes, size: nat, end: nat)
    requires off + 8 <= |data| && kind == data[off..off + 4] && size == Le(data[off + 4..off + 8]) && end == off + 8 + size
    ensures end > |data| ==> WalkFrom(data, off) == Failure(BadChunkSize)
    ensures end <= |data| && IsImage(kind) ==> WalkFrom(data, off) == ParseImage(kind, data[off + 8..end])
    ensures end <= |data| && !IsImage(kind) ==> WalkFrom(data, off) == WalkFrom(data, end + size % 2)
  {
    var here := data[off..];
    assert here[0..4] == kind && here[4..8] == data[off + 4..off + 8];
    if end <= |data| {
      assert here[8..8 + size] == data[off + 8..end];
    }
    if end + size % 2 <= |data| {
      assert here[8 + size + size % 2..] == data[end + size % 2..];
    }
  }

  /** The body of the loop: an answer, or where the next chunk starts. */
  method ReadChunk(data: Bytes, off: nat) returns (answer: Option<Result<Meta, Error>>, next: nat)
    requires off + 8 <= |data|
    ensures next > off
    ensures WalkFrom(data, off) == if answer.Some? then answer.value else WalkFrom(data, next)
  {
    var kind := data[off..off + 4];
    var size := Le(data[off + 4..off + 8]);
    var start := off + 8;
    var end := start + size;
    WalkAt(data, off, kind, size, end);
    next := end + size % 2;
    if end > |data| { return Some(Failure(BadChunkSize)), next; }
    if IsImage(kind) { return Some(ParseImage(kind, data[start..end])), next; }
    return None, next;
  }

  method ParseSticker(data: Bytes) returns (r: Result<Meta, Error>)
    ensures r == Parse(data)
  {
    if |data| < 12 || data[0..4] != RIFF || data[8..12] != WEBP { return Failure(NoHeader); }
    var off := 12;
    while off + 8 <= |data|
      invariant Parse(data) == WalkFrom(data, off)
      decreases |data| - off
    {
      var answer, next := ReadChunk(data, off);
      if answer.Some? { return answer.value; }
      off := next;
    }
    return Failure(NoImage);
  }

  // ----- what the walker accepts -------------------------------------------------------------------

  /** A chunk the walker skips; `pad` follows a payload of odd length. */
  datatype Chunk = Chunk(kind: Bytes, payload: Bytes, pad: Byte)

  predicate Skipped(c: Chunk) {
    |c.kind| == 4 && !IsImage(c.kind) && |c.payload| < 0x1_0000_0000
  }

  function Padding(c: Chunk): (pad: Bytes)
    ensures |pad| == |c.payload| % 2
  {
    if |c.payload| % 2 == 1 then [c.pad] else []
  }

  /** A chunk header and whatever follows it. */
  function Head(kind: Bytes, size: nat, rest: Bytes): Bytes
    requires size < 0x1_0000_0000
  {
    kind + ToLe32(size) + rest
  }

  lemma HeadReads(kind: Bytes, size: nat, payload: Bytes, rest: Bytes)
    requires |kind| == 4 && size == |payload| < 0x1_0000_0000
    ensures var data := Head(kind, size, payload + rest);
            && |data| == 8 + size + |rest| && data[0..4] == kind && Le(data[4..8]) == size
            && data[8..8 + size] == payload && data[8 + size..] == rest
  {
    var data := Head(kind, size, payload + rest);
    assert data[4..8] == ToLe32(size);
    assert data[8..] == payload + rest;
  }

  function EncodeChunk(c: Chunk): Bytes
    requires Skipped(c)
  {
    Head(c.kind, |c.payload|, c.payload + Padding(c))
  }

  function EncodeChunks(cs: seq<Chunk>): Bytes
    requires forall c :: c in cs ==> Skipped(c)
  {
    if cs == [] then [] else EncodeChunk(cs[0]) + EncodeChunks(cs[1..])
  }

  /** A file: the RIFF header with any size field, skipped chunks, one image chunk, anything. */
  datatype File = File(sizeField: Bytes, skipped: seq<Chunk>, kind: Bytes, payload: Bytes, tail: Bytes)

  predicate WellFormed(f: File) {
    && |f.sizeField| == 4 && (forall c :: c in f.skipped ==> Skipped(c))
    && IsImage(f.kind) && |f.payload| < 0x1_0000_0000
  }

  function Body(f: File): Bytes
    requires WellFormed(f)
  {
    EncodeChunks(f.skipped) + Head(f.kind, |f.payload|, f.payload + f.tail)
  }

  function Encode(f: File): Bytes
    requires WellFormed(f)
  {
    RIFF + f.sizeField + WEBP + Body(f)
  }

  lemma WalkSkips(c: Chunk, rest: Bytes)
    requires Skipped(c)
    ensures Walk(EncodeChunk(c) + rest) == Walk(rest)
  {
    var n := |c.payload|;
    var data := Head(c.kind, n, c.payload + (Padding(c) + rest));
    assert data == EncodeChunk(c) + rest;
    HeadReads(c.kind, n, c.payload, Padding(c) + rest);
    assert data[8 + n + n % 2..] == data[8 + n..][n % 2..] == rest;
  }

  lemma WalkReadsAnImage(kind: Bytes, payload: Bytes, tail: Bytes)
    requires IsImage(kind) && |payload| < 0x1_0000_0000
    ensures Walk(Head(kind, |payload|, payload + tail)) == ParseImage(kind, payload)
  {
    HeadReads(kind, |payload|, payload, tail);
  }

  lemma BodySplits(f: File)
    requires WellFormed(f)
    ensures f.skipped == [] ==> Body(f) == Head(f.kind, |f.payload|, f.payload + f.tail)
    ensures f.skipped != [] ==>
              WellFormed(f.(skipped := f.skipped[1..])) &&
              Body(f) == EncodeChunk(f.skipped[0]) + Body(f.(skipped := f.skipped[1..]))
  {
    var image := Head(f.kind, |f.payload|, f.payload + f.tail);
    if f.skipped == [] {
      assert [] + image == image;
    } else {
      var first, others := EncodeChunk(f.skipped[0]), EncodeChunks(f.skipped[1..]);
      assert (first + others) + image == first + (others + image);
    }
  }

  lemma {:induction false} WalkFindsTheImage(f: File)
    requires WellFormed(f)
    ensures Walk(Body(f)) == ParseImage(f.kind, f.payload)
    decreases |f.skipped|
  {
    BodySplits(f);
    if f.skipped == [] {
      WalkReadsAnImage(f.kind, f.payload, f.tail);
    } else {
      var rest := f.(skipped := f.skipped[1..]);
      WalkFindsTheImage(rest);
      WalkSkips(f.skipped[0], Body(rest));
    }
  }

  /** The file the walker saw, given that it reached an image chunk. */
  lemma {:induction false} WalkSawAFile(data: Bytes, sizeField: Bytes) returns (f: File)
    requires Walk(data).Success? && |sizeField| == 4
    ensures WellFormed(f) && Body(f) == data && f.sizeField == sizeField && ParseImage(f.kind, f.payload) == Walk(data)
    decreases |data|
  {
    var kind, size := data[0..4], Le(data[4..8]);
    SplitHead(data);
    if IsImage(kind) {
      f := File(sizeField, [], kind, data[8..8 + size], data[8 + size..]);
      assert f.payload + f.tail == data[8..];
      BodySplits(f);
    } else {
      var next := 8 + size + size % 2;
      var c := SkippedChunk(data);
      var g := WalkSawAFile(data[next..], sizeField);
      f := g.(skipped := [c] + g.skipped);
      assert f.skipped[1..] == g.skipped;
      BodySplits(f);
    }
  }

  /** The chunk at the front, given that it is skipped and its padding is there. */
  lemma SkippedChunk(data: Bytes) returns (c: Chunk)
    requires |data| >= 8 && !IsImage(data[0..4])
    requires 8 + Le(data[4..8]) + Le(data[4..8]) % 2 <= |data|
    ensures Skipped(c) && EncodeChunk(c) + data[8 + Le(data[4..8]) + Le(data[4..8]) % 2..] == data
  {
    SplitHead(data);
    var size := Le(data[4..8]);
    var next := 8 + size + size % 2;
    c := Chunk(data[0..4], data[8..8 + size], if size % 2 == 1 then data[8 + size] else 0);
    SliceInThree(data, 8 + size, next);
    HeadConcat(c.kind, size, data[8..next], data[next..]);
  }

  lemma SliceInThree(data: Bytes, mid: nat, end: nat)
    requires 8 <= mid <= end <= |data| && end - mid <= 1
    ensures data[8..end] == data[8..mid] + (if end > mid then [data[mid]] else [])
    ensures data[8..end] + data[end..] == data[8..]
  {
  }

  lemma HeadConcat(kind: Bytes, size: nat, a: Bytes, b: Bytes)
    requires size < 0x1_0000_0000
    ensures Head(kind, size, a) + b == Head(kind, size, a + b)
  {
  }

  lemma SplitHead(data: Bytes)
    requires |data| >= 8
    ensures Le(data[4..8]) < 0x1_0000_0000 && Head(data[0..4], Le(data[4..8]), data[8..]) == data
  {
    assert Pow256(4) == 0x1_0000_0000;
    LeIsInjective(data[4..8]);
    assert data == data[0..4] + data[4..8] + data[8..];
  }

  /** The parser succeeds exactly on the files made of a header, skipped chunks (odd ones padded)
      and a readable image chunk, and then answers with that chunk's metadata. */
  lemma ParsesExactlyTheFiles(data: Bytes, m: Meta)
    ensures Parse(data) == Success(m)
            <==> exists f: File :: WellFormed(f) && Encode(f) == data && ParseImage(f.kind, f.payload) == Success(m)
  {
    if Parse(data) == Success(m) {
      var f := ParsedAFile(data);
    }
    forall f: File | WellFormed(f) && Encode(f) == data && ParseImage(f.kind, f.payload) == Success(m)
      ensures Parse(data) == Success(m)
    {
      ParseOfFile(f);
    }
  }

  lemma ParsedAFile(data: Bytes) returns (f: File)
    requires Parse(data).Success?
    ensures WellFormed(f) && Encode(f) == data && ParseImage(f.kind, f.payload) == Parse(data)
  {
    f := WalkSawAFile(data[12..], data[4..8]);
    SplitRiff(data);
  }

  lemma SplitRiff(data: Bytes)
    requires |data| >= 12
    ensures data[0..4] + data[4..8] + data[8..12] + data[12..] == data
  {
  }

  lemma ParseOfFile(f: File)
    requires WellFormed(f)
    ensures Parse(Encode(f)) == ParseImage(f.kind, f.payload)
  {
    var data := Encode(f);
    WalkFindsTheImage(f);
    assert data[0..4] == RIFF && data[8..12] == WEBP && data[12..] == Body(f);
  }

  /** Round trip: whatever chunks come first and whatever follows, the encoded dimensions come
      back. */
  lemma DimensionsComeBack(f: File, i: Image, rest: Bytes)
    requires Encodable(i) && WellFormed(f) && f.kind == KindOf(i) && f.payload == EncodeImage(i) + rest
    ensures Parse(Encode(f)) == Success(MetaOf(i))
  {
    ParseOfFile(f);
    HeaderReadsBack(i, rest);
  }

  // ----- the sticker limits ------------------------------------------------------------------------

  function Validate(data: Bytes): Result<Meta, Error> {
    var r := Parse(data);
    if r.Failure? then r
    else if r.value.width != DIMENSION || r.value.height != DIMENSION then Failure(WrongSize)
    else if |data| > (if r.value.animated then MAX_ANIMATED else MAX_STATIC) then Failure(TooLarge)
    else r
  }

  /** The file holds an image of these dimensions behind its header and its skipped chunks. */
  ghost predicate Shows(data: Bytes, m: Meta) {
    exists f: File, i: Image, rest: Bytes ::
      && WellFormed(f) && Encode(f) == data && Encodable(i) && f.kind == KindOf(i)
      && f.payload == EncodeImage(i) + rest && MetaOf(i) == m
  }

  lemma ParsesExactlyTheImages(data: Bytes, m: Meta)
    ensures Parse(data) == Success(m) <==> Shows(data, m)
  {
    if Parse(data) == Success(m) {
      var f := ParsedAFile(data);
      var i, rest := HeaderRead(f.kind, f.payload);
    }
    forall f: File, i: Image, rest: Bytes
      | WellFormed(f) && Encode(f) == data && Encodable(i) && f.kind == KindOf(i) && f.payload == EncodeImage(i) + rest
      ensures Parse(data) == Success(MetaOf(i))
    {
      DimensionsComeBack(f, i, rest);
    }
  }

  /** A sticker passes exactly when it is a WebP file that shows an image of 512 by 512 within the
      byte limit of its kind, and is then sent with that image's dimensions. */
  lemma StickersAccepted(data: Bytes, m: Meta)
    ensures Validate(data) == Success(m)
            <==> Shows(data, m) && m.width == m.height == 512 && |data| <= (if m.animated then 512000 else 102400)
  {
    ParsesExactlyTheImages(data, m);
  }

  /** A readable file is refused for its dimensions first and for its size only when those are
      right; a file whose first twelve bytes are not a WebP header is refused for that. */
  lemma RefusalsAreExact(data: Bytes)
    ensures Validate(data) == Failure(WrongSize) <==> exists m :: Shows(data, m) && (m.width != 512 || m.height != 512)
    ensures Validate(data) == Failure(TooLarge)
            <==> exists m :: Shows(data, m) && m.width == m.height == 512 && |data| > (if m.animated then 512000 else 102400)
    ensures Validate(data) == Failure(NoHeader) <==> !exists size, rest :: HasHeader(data, size, rest)
  {
    HeaderIsThere(data);
    ParseErrors(data);
    forall m ensures Shows(data, m) <==> Parse(data) == Success(m) { ParsesExactlyTheImages(data, m); }
    if Parse(data).Success? {
      assert Shows(data, Parse(data).value);
    }
  }

  predicate HasHeader(data: Bytes, size: Bytes, rest: Bytes) {
    |size| == 4 && data == RIFF + size + WEBP + rest
  }

  lemma HeaderIsThere(data: Bytes)
    ensures Parse(data) == Failure(NoHeader) <==> !exists size, rest :: HasHeader(data, size, rest)
  {
    if Parse(data) != Failure(NoHeader) {
      SplitRiff(data);
      assert HasHeader(data, data[4..8], data[12..]);
    } else if |data| >= 12 {
      WalkErrors(data[12..]);
    }
    forall size, rest | HasHeader(data, size, rest)
      ensures |data| >= 12 && data[0..4] == RIFF && data[8..12] == WEBP
    {
    }
  }

  lemma ParseErrors(data: Bytes)
    ensures Parse(data) !in {Failure(WrongSize), Failure(TooLarge)}
  {
    if |data| >= 12 {
      WalkErrors(data[12..]);
    }
  }

  lemma WalkErrors(data: Bytes)
    ensures Walk(data) !in {Failure(NoHeader), Failure(WrongSize), Failure(TooLarge)}
    decreases |data|
  {
  }

  /** Where the walk ends without reading an image: after whole skipped chunks, at fewer than eight
      bytes or a last odd chunk without its padding; at a chunk that claims too much; or at an image
      chunk that starts with no header of its format. */
  ghost predicate StopsAt(data: Bytes, cs: seq<Chunk>, rest: Bytes, e: Error) {
    && (forall c :: c in cs ==> Skipped(c))
    && data == EncodeChunks(cs) + rest
    && match e
       case NoImage => |rest| < 8 || (!IsImage(rest[0..4]) && Le(rest[4..8]) % 2 == 1 && |rest| == 8 + Le(rest[4..8]))
       case BadChunkSize => |rest| >= 8 && |rest| < 8 + Le(rest[4..8])
       case BadImage =>
         && |rest| >= 8 && IsImage(rest[0..4]) && |rest| >= 8 + Le(rest[4..8])
         && !exists i, more ::
              Encodable(i) && KindOf(i) == rest[0..4] && EncodeImage(i) + more == rest[8..8 + Le(rest[4..8])]
       case _ => false
  }

  lemma {:induction false} WalkStopped(data: Bytes) returns (cs: seq<Chunk>, rest: Bytes)
    requires Walk(data).Failure?
    ensures StopsAt(data, cs, rest, Walk(data).error)
    decreases |data|
  {
    cs, rest := [], data;
    assert data == EncodeChunks(cs) + rest;
    if |data| >= 8 {
      var size := Le(data[4..8]);
      var next := 8 + size + size % 2;
      if 8 + size <= |data| && IsImage(data[0..4]) {
        UnreadableImage(data[0..4], data[8..8 + size]);
      } else if next <= |data| {
        var c := SkippedChunk(data);
        var more;
        more, rest := WalkStopped(data[next..]);
        cs := [c] + more;
        ChunksSplit(c, more, rest);
      }
    }
  }

  lemma ChunksSplit(c: Chunk, more: seq<Chunk>, rest: Bytes)
    requires Skipped(c) && forall d :: d in more ==> Skipped(d)
    ensures EncodeChunks([c] + more) + rest == EncodeChunk(c) + (EncodeChunks(more) + rest)
  {
    assert ([c] + more)[1..] == more;
  }

  lemma UnreadableImage(kind: Bytes, chunk: Bytes)
    requires IsImage(kind) && ParseImage(kind, chunk).Failure?
    ensures ParseImage(kind, chunk) == Failure(BadImage)
    ensures !exists i, more :: Encodable(i) && KindOf(i) == kind && EncodeImage(i) + more == chunk
  {
    forall i, more | Encodable(i) && KindOf(i) == kind && EncodeImage(i) + more == chunk ensures false {
      HeaderReadsBack(i, more);
    }
  }

  lemma {:induction false} StopsThere(data: Bytes, cs: seq<Chunk>, rest: Bytes, e: Error)
    requires StopsAt(data, cs, rest, e)
    ensures Walk(data) == Failure(e)
    decreases |cs|
  {
    if cs == [] {
      assert data == rest;
      if e.BadImage? {
        NoHeaderNoImage(rest[0..4], rest[8..8 + Le(rest[4..8])]);
      }
    } else {
      var more := cs[1..];
      assert cs == [cs[0]] + more;
      ChunksSplit(cs[0], more, rest);
      StopsThere(EncodeChunks(more) + rest, more, rest, e);
      WalkSkips(cs[0], EncodeChunks(more) + rest);
    }
  }

  lemma NoHeaderNoImage(kind: Bytes, chunk: Bytes)
    requires IsImage(kind)
    requires !exists i, more :: Encodable(i) && KindOf(i) == kind && EncodeImage(i) + more == chunk
    ensures ParseImage(kind, chunk) == Failure(BadImage)
  {
    if ParseImage(kind, chunk).Success? {
      var i, rest := HeaderRead(kind, chunk);
    }
  }

  /** The walker's three ways to fail are exactly those. */
  lemma FailuresAreExact(data: Bytes, e: Error)
    ensures Walk(data) == Failure(e) <==> exists cs: seq<Chunk>, rest: Bytes :: StopsAt(data, cs, rest, e)
  {
    if Walk(data) == Failure(e) {
      var cs, rest := WalkStopped(data);
    }
    forall cs: seq<Chunk>, rest: Bytes | StopsAt(data, cs, rest, e)
      ensures Walk(data) == Failure(e)
    {
      StopsThere(data, cs, rest, e);
    }
  }

  /** The animation flag is the second-lowest bit of the flags byte. */
  lemma AnimationIsTheSecondBit(flags: Byte, reserved: Bytes, w: nat, h: nat)
    ensures MetaOf(Extended(flags, reserved, w, h)).animated <==> (flags as bv8) & 0x02 != 0
  {
  }

  // ----- the four-letter names ---------------------------------------------------------------------

  predicate Spells(b: Bytes, s: string) {
    |b| == |s| && forall i :: 0 <= i < |b| ==> b[i] == s[i] as int
  }

  lemma NamesAreAscii()
    ensures Spells(RIFF, "RIFF") && Spells(WEBP, "WEBP")
    ensures Spells(VP8X, "VP8X") && Spells(VP8L, "VP8L") && Spells(VP8_, "VP8 ")
    ensures START_CODE == [0x9d, 0x01, 0x2a]
  {
  }
}
