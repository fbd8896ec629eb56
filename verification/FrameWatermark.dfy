/** KFrameWatermarkCodec: 108 bits written as blocks of 3x3 pixels into the lower right corner of a
    BGRA buffer, read back by brightness, and covered again with the rows above. */
module FrameWatermark {
  import opened Wrappers

  type Byte = b: int | 0 <= b < 256

  const COLUMNS: int := 36
  const ROWS: int := 3
  const BITS: nat := 108
  const MARK_WIDTH: int := 108
  const MARK_HEIGHT: int := 9
  const CLEANUP_WIDTH: int := 112
  const CLEANUP_HEIGHT: int := 16
  const MAGIC: nat := 0x5743
  const VERSION: nat := 1
  const THRESHOLD: int := 128

  datatype Watermark = Watermark(frame: nat, input: nat, ageMs: int)

  // ---------- bits ----------

  function Pow2(n: nat): (p: nat)
    ensures p > 0
  {
    if n == 0 then 1 else 2 * Pow2(n - 1)
  }

  /** The right shift by n. */
  function Shift(v: nat, n: nat): nat {
    if n == 0 then v else Shift(v / 2, n - 1)
  }

  /** The n lowest bits, lowest first. */
  function ToBits(v: nat, n: nat): (r: seq<bool>)
    ensures |r| == n
  {
    if n == 0 then [] else [v % 2 == 1] + ToBits(v / 2, n - 1)
  }

  function FromBits(bs: seq<bool>): nat {
    if bs == [] then 0 else (if bs[0] then 1 else 0) + 2 * FromBits(bs[1..])
  }

  lemma {:induction false} BitIs(v: nat, n: nat, i: nat)
    requires i < n
    ensures ToBits(v, n)[i] == (Shift(v, i) % 2 == 1)
  {
    if i > 0 {
      BitIs(v / 2, n - 1, i - 1);
    }
  }

  lemma {:induction false} FromBitsAppend(bs: seq<bool>, b: bool)
    ensures FromBits(bs + [b]) == FromBits(bs) + (if b then Pow2(|bs|) else 0)
  {
    if bs == [] {
      assert [] + [b] == [b];
    } else {
      assert (bs + [b])[1..] == bs[1..] + [b];
      FromBitsAppend(bs[1..], b);
    }
  }

  lemma HalveMod(v: nat, m: nat)
    requires m > 0
    ensures v % (2 * m) == v % 2 + 2 * ((v / 2) % m)
  {
    var q, r := (v / 2) / m, (v / 2) % m;
    var low := v % 2 + 2 * r;
    assert v == 2 * (q * m + r) + v % 2;
    assert v == q * (2 * m) + low by {
      assert 2 * (q * m) == q * (2 * m);
    }
    assert 0 <= low < 2 * m;
    Remainder(v, 2 * m, q, low);
  }

  /** A quotient and a remainder in range are the quotient and the remainder. */
  lemma Remainder(v: int, m: int, q: int, r: int)
    requires m > 0 && v == q * m + r && 0 <= r < m
    ensures v / m == q && v % m == r
  {
    var d := v / m - q;
    assert v == (v / m) * m + v % m;
    assert d * m == r - v % m by {
      assert d * m == (v / m) * m - q * m;
    }
    if d > 0 {
      AtLeast(d, m);
    } else if d < 0 {
      AtLeast(-d, m);
    }
  }

  lemma AtLeast(d: int, m: int)
    requires d >= 1 && m >= 0
    ensures d * m >= m && -(-d * m) == d * m
  {
    assert d * m - m == (d - 1) * m;
  }

  /** Reading back n written bits gives the value modulo 2^n. */
  lemma {:induction false} BitsRoundTrip(v: nat, n: nat)
    ensures FromBits(ToBits(v, n)) == v % Pow2(n)
  {
    if n > 0 {
      BitsRoundTrip(v / 2, n - 1);
      HalveMod(v, Pow2(n - 1));
      assert ToBits(v, n)[1..] == ToBits(v / 2, n - 1);
    }
  }

  // ---------- the payload ----------

  function ByteOf(v: nat, i: nat): nat { Shift(v, 8 * i) % 256 }

  function Checksum(magic: nat, version: nat, frame: nat, input: nat, age: nat): nat {
    (0x5a + ByteOf(magic, 0) + ByteOf(magic, 1) + version
     + ByteOf(frame, 0) + ByteOf(frame, 1) + ByteOf(frame, 2) + ByteOf(frame, 3)
     + ByteOf(input, 0) + ByteOf(input, 1) + ByteOf(input, 2) + ByteOf(input, 3)
     + ByteOf(age, 0) + ByteOf(age, 1)) % 256
  }

  function Clamp(age: int): nat {
    if age < 0 then 0 else if age > 65535 then 65535 else age
  }

  const TWO32: nat := 0x1_0000_0000

  /** What a reader gets: 32 bits of both counters, and the age clamped to 16 bits. */
  function Carried(m: Watermark): Watermark {
    Watermark(m.frame % TWO32, m.input % TWO32, Clamp(m.ageMs))
  }

  function Payload(magic: nat, version: nat, frame: nat, input: nat, age: nat, sum: nat): (r: seq<bool>)
    ensures |r| == BITS
  {
    ToBits(magic, 16) + ToBits(version, 4) + ToBits(frame, 32) + ToBits(input, 32) + ToBits(age, 16) + ToBits(sum, 8)
  }

  function Encode(m: Watermark): (r: seq<bool>)
    ensures |r| == BITS
  {
    var c := Carried(m);
    Payload(MAGIC, VERSION, c.frame, c.input, Clamp(m.ageMs),
            Checksum(MAGIC, VERSION, c.frame, c.input, Clamp(m.ageMs)))
  }

  function Decode(bits: seq<bool>): Option<Watermark>
    requires |bits| == BITS
  {
    var magic, version := FromBits(bits[0..16]), FromBits(bits[16..20]);
    var frame, input := FromBits(bits[20..52]), FromBits(bits[52..84]);
    var age, sum := FromBits(bits[84..100]), FromBits(bits[100..108]);
    if magic != MAGIC || version != VERSION || sum != Checksum(magic, version, frame, input, age) then None
    else Some(Watermark(frame, input, age))
  }

  lemma PowValues()
    ensures Pow2(4) == 16 && Pow2(8) == 256 && Pow2(16) == 65536 && Pow2(32) == TWO32
  {
    assert Pow2(12) == 4096 by {
      assert Pow2(10) == 1024;
    }
    assert Pow2(20) == 1048576;
    assert Pow2(28) == 268435456;
  }

  lemma PayloadParts(magic: nat, version: nat, frame: nat, input: nat, age: nat, sum: nat)
    ensures var p := Payload(magic, version, frame, input, age, sum);
            && p[0..16] == ToBits(magic, 16) && p[16..20] == ToBits(version, 4)
            && p[20..52] == ToBits(frame, 32) && p[52..84] == ToBits(input, 32)
            && p[84..100] == ToBits(age, 16) && p[100..108] == ToBits(sum, 8)
  {
  }

  lemma PartRoundTrip(v: nat, n: nat, limit: nat)
    requires limit == Pow2(n) && v < limit
    ensures FromBits(ToBits(v, n)) == v
  {
    BitsRoundTrip(v, n);
    Remainder(v, limit, 0, v);
  }

  lemma PartsRoundTrip(magic: nat, version: nat, frame: nat, input: nat, age: nat, sum: nat)
    requires magic < 65536 && version < 16 && frame < TWO32 && input < TWO32 && age < 65536 && sum < 256
    ensures var p := Payload(magic, version, frame, input, age, sum);
            && FromBits(p[0..16]) == magic && FromBits(p[16..20]) == version
            && FromBits(p[20..52]) == frame && FromBits(p[52..84]) == input
            && FromBits(p[84..100]) == age && FromBits(p[100..108]) == sum
  {
    PayloadParts(magic, version, frame, input, age, sum);
    PowValues();
    PartRoundTrip(magic, 16, 65536);
    PartRoundTrip(version, 4, 16);
    PartRoundTrip(frame, 32, TWO32);
    PartRoundTrip(input, 32, TWO32);
    PartRoundTrip(age, 16, 65536);
    PartRoundTrip(sum, 8, 256);
  }

  /** Decoding an encoded watermark gives what it carries. */
  lemma PayloadRoundTrip(m: Watermark)
    ensures Decode(Encode(m)) == Some(Carried(m))
  {
    var c := Carried(m);
    PartsRoundTrip(MAGIC, VERSION, c.frame, c.input, Clamp(m.ageMs),
                   Checksum(MAGIC, VERSION, c.frame, c.input, Clamp(m.ageMs)));
  }

  // ---------- the corner of the buffer ----------

  predicate ValidSize(w: int, h: int, size: nat) {
    w >= MARK_WIDTH && h >= MARK_HEIGHT && size >= w * h * 4
  }

  /** A place inside a block: the block's bit, and the row and column inside the block. */
  datatype Cell = Cell(bit: nat, row: nat, column: nat)

  predicate CellOk(c: Cell) { c.bit < BITS && c.row < 3 && c.column < 3 }

  function CellX(w: int, c: Cell): int { w - MARK_WIDTH + (c.bit % COLUMNS) * 3 + c.column }

  function CellY(h: int, c: Cell): int { h - MARK_HEIGHT + (c.bit / COLUMNS) * 3 + c.row }

  /** The byte offset of a cell's pixel. */
  function Address(w: int, h: int, c: Cell): int {
    (CellY(h, c) * w + CellX(w, c)) * 4
  }

  function PixelX(w: int, k: nat): int
    requires w > 0
  {
    (k / 4) % w
  }

  function PixelY(w: int, k: nat): int
    requires w > 0
  {
    (k / 4) / w
  }

  /** Byte k belongs to the 108x9 rectangle. */
  predicate InMark(w: int, h: int, k: nat)
    requires w > 0
  {
    PixelX(w, k) >= w - MARK_WIDTH && h - MARK_HEIGHT <= PixelY(w, k) < h
  }

  function CellAt(w: int, h: int, k: nat): (c: Cell)
    requires w >= MARK_WIDTH && h >= MARK_HEIGHT && InMark(w, h, k)
    ensures CellOk(c)
  {
    var x, y := PixelX(w, k) - (w - MARK_WIDTH), PixelY(w, k) - (h - MARK_HEIGHT);
    assert 0 <= x < MARK_WIDTH && 0 <= y < MARK_HEIGHT;
    Cell((y / 3) * COLUMNS + x / 3, y % 3, x % 3)
  }

  lemma CellPlace(w: int, h: int, k: nat)
    requires w >= MARK_WIDTH && h >= MARK_HEIGHT && InMark(w, h, k)
    ensures CellX(w, CellAt(w, h, k)) == PixelX(w, k) && CellY(h, CellAt(w, h, k)) == PixelY(w, k)
  {
    var x, y := PixelX(w, k) - (w - MARK_WIDTH), PixelY(w, k) - (h - MARK_HEIGHT);
    Coordinates(w, h, k);
    BlockOf(x, y);
  }

  lemma BlockOf(x: int, y: int)
    requires 0 <= x < MARK_WIDTH && 0 <= y < MARK_HEIGHT
    ensures var bit := (y / 3) * COLUMNS + x / 3;
            && bit / COLUMNS == y / 3 && bit % COLUMNS == x / 3
            && (bit / COLUMNS) * 3 + y % 3 == y && (bit % COLUMNS) * 3 + x % 3 == x
  {
  }

  lemma PlaceCell(w: int, h: int, k: nat, c: Cell)
    requires w >= MARK_WIDTH && h >= MARK_HEIGHT && CellOk(c)
    requires PixelX(w, k) == CellX(w, c) && PixelY(w, k) == CellY(h, c)
    ensures InMark(w, h, k) && CellAt(w, h, k) == c
  {
    var row, column := c.bit / COLUMNS, c.bit % COLUMNS;
    assert 0 <= row < ROWS && 0 <= column < COLUMNS && c.bit == row * COLUMNS + column;
    var x, y := column * 3 + c.column, row * 3 + c.row;
    assert x / 3 == column && x % 3 == c.column && y / 3 == row && y % 3 == c.row;
  }

  /** The pixel's coordinates, from its offset. */
  lemma Coordinates(w: int, h: int, k: nat)
    requires w > 0
    ensures k / 4 == PixelY(w, k) * w + PixelX(w, k) && 0 <= PixelX(w, k) < w
  {
  }

  /** The four bytes at a cell's address are exactly the bytes of that cell. */
  lemma AddressIsCell(w: int, h: int, c: Cell, k: nat)
    requires w >= MARK_WIDTH && h >= MARK_HEIGHT && CellOk(c)
    ensures Address(w, h, c) <= k < Address(w, h, c) + 4
         <==> InMark(w, h, k) && CellAt(w, h, k) == c
  {
    var x, y := CellX(w, c), CellY(h, c);
    CellInRow(w, c);
    if Address(w, h, c) <= k < Address(w, h, c) + 4 {
      assert k / 4 == y * w + x;
      Remainder(k / 4, w, y, x);
      PlaceCell(w, h, k, c);
    }
    if InMark(w, h, k) && CellAt(w, h, k) == c {
      CellPlace(w, h, k);
      Coordinates(w, h, k);
      assert k / 4 == y * w + x;
    }
  }

  lemma CellInRow(w: int, c: Cell)
    requires w >= MARK_WIDTH && CellOk(c)
    ensures 0 <= CellX(w, c) < w
  {
  }

  lemma AddressInBuffer(w: int, h: int, c: Cell)
    requires w >= MARK_WIDTH && h >= MARK_HEIGHT && CellOk(c)
    ensures 0 <= Address(w, h, c) && Address(w, h, c) + 4 <= w * h * 4
  {
    CellInRow(w, c);
    var y := CellY(h, c);
    assert 0 <= y <= h - 1;
    RowFits(w, h, y);
  }

  lemma RowFits(w: int, h: int, y: int)
    requires w > 0 && 0 <= y <= h - 1
    ensures 0 <= y * w && y * w + w <= w * h
  {
    var rest := h - 1 - y;
    Nonnegative(rest, w);
    Nonnegative(y, w);
    assert h == rest + 1 + y;
    assert w * (rest + 1 + y) == rest * w + w + y * w;
  }

  lemma Nonnegative(a: int, b: int)
    requires a >= 0 && b >= 0
    ensures a * b >= 0
  {
  }

  // ---------- writing and reading ----------

  function Colour(bit: bool): Byte { if bit then 255 else 0 }

  /** The byte the mark puts at k: the block's colour, and an opaque alpha. */
  function Shade(w: int, h: int, bits: seq<bool>, k: nat): Byte
    requires w >= MARK_WIDTH && h >= MARK_HEIGHT && |bits| == BITS && InMark(w, h, k)
  {
    if k % 4 == 3 then 255 else Colour(bits[CellAt(w, h, k).bit])
  }

  /** The buffer with the mark: bytes outside the rectangle are untouched. */
  function Marked(b: seq<Byte>, w: int, h: int, bits: seq<bool>): (r: seq<Byte>)
    requires w >= MARK_WIDTH && h >= MARK_HEIGHT && |bits| == BITS
    ensures |r| == |b|
    ensures forall k :: 0 <= k < |b| ==> r[k] == if InMark(w, h, k) then Shade(w, h, bits, k) else b[k]
  {
    seq(|b|, k requires 0 <= k < |b| => if InMark(w, h, k) then Shade(w, h, bits, k) else b[k])
  }

  /** The pixel of the n-th colour sample of a block: row by row, three channels a pixel. */
  function SampleCell(bit: nat, n: nat): (c: Cell)
    requires bit < BITS && n < 27
    ensures CellOk(c) && c.bit == bit
  {
    Cell(bit, n / 9, (n / 3) % 3)
  }

  function Sample(b: seq<Byte>, w: int, h: int, bit: nat, n: nat): int
    requires ValidSize(w, h, |b|) && bit < BITS && n < 27
  {
    var c := SampleCell(bit, n);
    AddressInBuffer(w, h, c);
    b[Address(w, h, c) + n % 3]
  }

  function SampleSum(b: seq<Byte>, w: int, h: int, bit: nat, n: nat): int
    requires ValidSize(w, h, |b|) && bit < BITS && n <= 27
  {
    if n == 0 then 0 else SampleSum(b, w, h, bit, n - 1) + Sample(b, w, h, bit, n - 1)
  }

  /** `readBlock`: the mean brightness against the threshold. */
  predicate BitAt(b: seq<Byte>, w: int, h: int, bit: nat)
    requires ValidSize(w, h, |b|) && bit < BITS
  {
    SampleSum(b, w, h, bit, 27) / 27 >= THRESHOLD
  }

  function BitsIn(b: seq<Byte>, w: int, h: int): (r: seq<bool>)
    requires ValidSize(w, h, |b|)
    ensures |r| == BITS
  {
    seq(BITS, i requires 0 <= i < BITS => BitAt(b, w, h, i))
  }

  function Read(b: seq<Byte>, w: int, h: int): Option<Watermark> {
    if ValidSize(w, h, |b|) then Decode(BitsIn(b, w, h)) else None
  }

  /** Every colour byte of the mark is off by at most 127; the rest of the buffer may be anything. */
  predicate Noisy(b: seq<Byte>, original: seq<Byte>, w: int, h: int)
    requires w > 0
  {
    |b| == |original|
    && forall k :: 0 <= k < |b| && InMark(w, h, k) && k % 4 != 3 ==> -127 <= b[k] as int - original[k] as int <= 127
  }

  lemma SampleSide(b: seq<Byte>, original: seq<Byte>, w: int, h: int, bits: seq<bool>, bit: nat, n: nat)
    requires ValidSize(w, h, |b|) && |bits| == BITS && |original| == |b| && bit < BITS && n < 27
    requires Noisy(b, Marked(original, w, h, bits), w, h)
    ensures bits[bit] ==> Sample(b, w, h, bit, n) >= 128
    ensures !bits[bit] ==> Sample(b, w, h, bit, n) <= 127
  {
    var c := SampleCell(bit, n);
    AddressInBuffer(w, h, c);
    ChannelSide(b, original, w, h, bits, c, n % 3);
  }

  lemma ChannelOf(w: int, h: int, c: Cell, channel: nat)
    requires w >= MARK_WIDTH && h >= MARK_HEIGHT && CellOk(c) && channel < 4
    ensures (Address(w, h, c) + channel) % 4 == channel
  {
  }

  lemma ChannelSide(b: seq<Byte>, original: seq<Byte>, w: int, h: int, bits: seq<bool>, c: Cell, channel: nat)
    requires ValidSize(w, h, |b|) && |bits| == BITS && |original| == |b| && CellOk(c) && channel < 3
    requires Noisy(b, Marked(original, w, h, bits), w, h)
    requires 0 <= Address(w, h, c) && Address(w, h, c) + 4 <= |b|
    ensures bits[c.bit] ==> b[Address(w, h, c) + channel] >= 128
    ensures !bits[c.bit] ==> b[Address(w, h, c) + channel] <= 127
  {
    var k := Address(w, h, c) + channel;
    AddressIsCell(w, h, c, k);
    ChannelOf(w, h, c, channel);
    assert Marked(original, w, h, bits)[k] == Colour(bits[c.bit]);
  }

  lemma {:induction false} SumSide(b: seq<Byte>, original: seq<Byte>, w: int, h: int, bits: seq<bool>, bit: nat, n: nat)
    requires ValidSize(w, h, |b|) && |bits| == BITS && |original| == |b| && bit < BITS && n <= 27
    requires Noisy(b, Marked(original, w, h, bits), w, h)
    ensures bits[bit] ==> SampleSum(b, w, h, bit, n) >= 128 * n
    ensures !bits[bit] ==> SampleSum(b, w, h, bit, n) <= 127 * n
  {
    if n > 0 {
      SumSide(b, original, w, h, bits, bit, n - 1);
      SampleSide(b, original, w, h, bits, bit, n - 1);
    }
  }

  /** Robust round trip: a buffer of at least 108x9 pixels that was marked gives the watermark back,
      both counters modulo 2^32 and the age clamped, even if every colour byte of the mark is off by
      up to 127 and everything else has changed. */
  lemma RobustRoundTrip(original: seq<Byte>, b: seq<Byte>, w: int, h: int, m: Watermark)
    requires ValidSize(w, h, |original|) && Noisy(b, Marked(original, w, h, Encode(m)), w, h)
    ensures Read(b, w, h) == Some(Carried(m))
  {
    var bits := Encode(m);
    forall i | 0 <= i < BITS ensures BitsIn(b, w, h)[i] == bits[i] {
      SumSide(b, original, w, h, bits, i, 27);
    }
    assert BitsIn(b, w, h) == bits;
    PayloadRoundTrip(m);
  }

  // ---------- covering the mark ----------

  predicate CanRemove(w: int, h: int, size: nat) {
    ValidSize(w, h, size) && h >= 2 * CLEANUP_HEIGHT
  }

  function CopyWidth(w: int): int { if w < CLEANUP_WIDTH then w else CLEANUP_WIDTH }

  predicate InCleanup(w: int, h: int, k: nat)
    requires w > 0
  {
    PixelX(w, k) >= w - CopyWidth(w) && h - CLEANUP_HEIGHT <= PixelY(w, k) < h
  }

  lemma RowsAbove(w: int, h: int, k: nat)
    requires w > 0 && h >= 2 * CLEANUP_HEIGHT && InCleanup(w, h, k)
    ensures k - CLEANUP_HEIGHT * w * 4 >= 0
    ensures PixelX(w, k - CLEANUP_HEIGHT * w * 4) == PixelX(w, k)
    ensures PixelY(w, k - CLEANUP_HEIGHT * w * 4) == PixelY(w, k) - CLEANUP_HEIGHT
  {
    var x, y := PixelX(w, k), PixelY(w, k);
    Coordinates(w, h, k);
    var up := y - CLEANUP_HEIGHT;
    Nonnegative(up, w);
    assert y * w == up * w + CLEANUP_HEIGHT * w;
    var j := k - CLEANUP_HEIGHT * w * 4;
    assert j / 4 == up * w + x;
    Remainder(j / 4, w, up, x);
  }

  /** The last 16 rows, on the right, are the 16 rows above them. */
  function Covered(b: seq<Byte>, w: int, h: int): (r: seq<Byte>)
    requires CanRemove(w, h, |b|)
    ensures |r| == |b|
  {
    seq(|b|, k requires 0 <= k < |b| =>
      if InCleanup(w, h, k) then (RowsAbove(w, h, k); b[k - CLEANUP_HEIGHT * w * 4]) else b[k])
  }

  /** Removing covers every byte of the mark, whatever it was, and brings none of it back. */
  lemma RemoveForgetsMark(b: seq<Byte>, w: int, h: int, bits: seq<bool>)
    requires CanRemove(w, h, |b|) && |bits| == BITS
    ensures Covered(Marked(b, w, h, bits), w, h) == Covered(b, w, h)
  {
    var m := Marked(b, w, h, bits);
    forall k | 0 <= k < |b| ensures Covered(m, w, h)[k] == Covered(b, w, h)[k] {
      if InCleanup(w, h, k) {
        RowsAbove(w, h, k);
        assert !InMark(w, h, k - CLEANUP_HEIGHT * w * 4);
      } else {
        assert !InMark(w, h, k);
      }
    }
  }

  // ---------- the codec's loops ----------

  method SetBits(bits: array<bool>, offset: nat, value: nat, count: nat)
    requires offset + count <= bits.Length
    modifies bits
    ensures bits[..] == old(bits[..offset]) + ToBits(value, count) + old(bits[offset + count..])
  {
    for i := 0 to count
      invariant forall j :: 0 <= j < bits.Length ==>
        bits[j] == if offset <= j < offset + i then ToBits(value, count)[j - offset] else old(bits[j])
    {
      BitIs(value, count, i);
      bits[offset + i] := Shift(value, i) % 2 == 1;
    }
  }

  method ReadBits(bits: array<bool>, offset: nat, count: nat) returns (value: nat)
    requires offset + count <= bits.Length
    ensures value == FromBits(bits[offset..offset + count])
  {
    value := 0;
    for i := 0 to count
      invariant value == FromBits(bits[offset..offset + i])
    {
      assert bits[offset..offset + i + 1] == bits[offset..offset + i] + [bits[offset + i]];
      FromBitsAppend(bits[offset..offset + i], bits[offset + i]);
      if bits[offset + i] {
        value := value + Pow2(i);
      }
    }
  }

  method EncodeBits(m: Watermark) returns (bits: array<bool>)
    ensures bits[..] == Encode(m) && fresh(bits)
  {
    var frame, input, age := m.frame % TWO32, m.input % TWO32, Clamp(m.ageMs);
    var sum := Checksum(MAGIC, VERSION, frame, input, age);
    bits := new bool[BITS](_ => false);
    FillBits(bits, MAGIC, VERSION, frame, input, age, sum);
  }

  /** The six fields, each behind the one before. */
  method FillBits(bits: array<bool>, magic: nat, version: nat, frame: nat, input: nat, age: nat, sum: nat)
    requires bits.Length == BITS
    modifies bits
    ensures bits[..] == Payload(magic, version, frame, input, age, sum)
  {
    SetBits(bits, 0, magic, 16);
    ghost var done := ToBits(magic, 16);
    assert bits[..16] == done;
    done := SetField(bits, 16, version, 4, done);
    done := SetField(bits, 20, frame, 32, done);
    done := SetField(bits, 52, input, 32, done);
    done := SetField(bits, 84, age, 16, done);
    done := SetField(bits, 100, sum, 8, done);
    assert bits[..] == bits[..108];
  }

  method SetField(bits: array<bool>, offset: nat, value: nat, count: nat, ghost done: seq<bool>)
    returns (ghost next: seq<bool>)
    requires offset + count <= bits.Length && bits[..offset] == done
    modifies bits
    ensures next == done + ToBits(value, count) && bits[..offset + count] == next
  {
    SetBits(bits, offset, value, count);
    next := done + ToBits(value, count);
    assert |done| == offset;
  }

  method WritePixel(buffer: array<Byte>, a: nat, colour: Byte)
    requires a + 4 <= buffer.Length
    modifies buffer
    ensures forall k :: 0 <= k < buffer.Length ==>
      buffer[k] == if a <= k < a + 4 then (if k == a + 3 then 255 else colour) else old(buffer[k])
  {
    buffer[a] := colour;
    buffer[a + 1] := colour;
    buffer[a + 2] := colour;
    buffer[a + 3] := 255;
  }

  /** Byte k belongs to the first pixels of the block: the rows above, and the columns to the left. */
  predicate Done(w: int, h: int, bit: nat, row: nat, column: nat, k: nat)
    requires w >= MARK_WIDTH && h >= MARK_HEIGHT
  {
    InMark(w, h, k)
    && var c := CellAt(w, h, k);
       c.bit == bit && (c.row < row || (c.row == row && c.column < column))
  }

  lemma DoneStep(w: int, h: int, c: Cell, k: nat)
    requires w >= MARK_WIDTH && h >= MARK_HEIGHT && CellOk(c)
    ensures Done(w, h, c.bit, c.row, c.column + 1, k)
         <==> Done(w, h, c.bit, c.row, c.column, k) || Address(w, h, c) <= k < Address(w, h, c) + 4
    ensures Address(w, h, c) <= k < Address(w, h, c) + 4 ==> (k % 4 == 3 <==> k == Address(w, h, c) + 3)
  {
    AddressIsCell(w, h, c, k);
  }

  function BlockByte(value: bool, k: nat): Byte {
    if k % 4 == 3 then 255 else Colour(value)
  }

  method WriteRow(buffer: array<Byte>, w: int, h: int, bit: nat, row: nat, value: bool)
    requires ValidSize(w, h, buffer.Length) && bit < BITS && row < 3
    modifies buffer
    ensures forall k :: 0 <= k < buffer.Length ==>
      buffer[k] == if Done(w, h, bit, row, 3, k) && !Done(w, h, bit, row, 0, k) then BlockByte(value, k)
                   else old(buffer[k])
  {
    for column := 0 to 3
      invariant forall k :: 0 <= k < buffer.Length ==>
        buffer[k] == if Done(w, h, bit, row, column, k) && !Done(w, h, bit, row, 0, k) then BlockByte(value, k)
                     else old(buffer[k])
    {
      var c := Cell(bit, row, column);
      AddressInBuffer(w, h, c);
      ghost var before := buffer[..];
      WritePixel(buffer, Address(w, h, c), Colour(value));
      forall k | 0 <= k < buffer.Length
        ensures buffer[k] == if Done(w, h, bit, row, column + 1, k) && !Done(w, h, bit, row, 0, k)
                             then BlockByte(value, k) else old(buffer[k])
      {
        DoneStep(w, h, c, k);
        AddressIsCell(w, h, c, k);
        assert before[k] == if Done(w, h, bit, row, column, k) && !Done(w, h, bit, row, 0, k)
                            then BlockByte(value, k) else old(buffer[k]);
      }
    }
  }

  method WriteBlock(buffer: array<Byte>, w: int, h: int, bit: nat, value: bool)
    requires ValidSize(w, h, buffer.Length) && bit < BITS
    modifies buffer
    ensures forall k :: 0 <= k < buffer.Length ==>
      buffer[k] == if InMark(w, h, k) && CellAt(w, h, k).bit == bit then BlockByte(value, k) else old(buffer[k])
  {
    for row := 0 to 3
      invariant forall k :: 0 <= k < buffer.Length ==>
        buffer[k] == if Done(w, h, bit, row, 0, k) then BlockByte(value, k) else old(buffer[k])
    {
      WriteRow(buffer, w, h, bit, row, value);
      assert forall k :: 0 <= k < buffer.Length ==>
        (Done(w, h, bit, row, 3, k) <==> Done(w, h, bit, row + 1, 0, k));
    }
  }

  method WriteBgra(buffer: array<Byte>, w: int, h: int, m: Watermark) returns (ok: bool)
    modifies buffer
    ensures ok == ValidSize(w, h, buffer.Length)
    ensures buffer[..] == if ok then Marked(old(buffer[..]), w, h, Encode(m)) else old(buffer[..])
  {
    if !ValidSize(w, h, buffer.Length) {
      return false;
    }
    var bits := EncodeBits(m);
    for i := 0 to BITS
      invariant bits[..] == Encode(m)
      invariant forall k :: 0 <= k < buffer.Length ==>
        buffer[k] == if InMark(w, h, k) && CellAt(w, h, k).bit < i then Shade(w, h, Encode(m), k) else old(buffer[k])
    {
      WriteBlock(buffer, w, h, i, bits[i]);
    }
    assert buffer[..] == Marked(old(buffer[..]), w, h, Encode(m));
    ok := true;
  }

  method ReadPixel(buffer: array<Byte>, w: int, h: int, c: Cell) returns (sum: int)
    requires ValidSize(w, h, buffer.Length) && CellOk(c)
    ensures SampleSum(buffer[..], w, h, c.bit, c.row * 9 + c.column * 3) + sum
         == SampleSum(buffer[..], w, h, c.bit, c.row * 9 + c.column * 3 + 3)
  {
    PixelSamples(buffer[..], w, h, c);
    var a := Address(w, h, c);
    sum := buffer[a] as int + buffer[a + 1] as int + buffer[a + 2] as int;
  }

  method ReadBlock(buffer: array<Byte>, w: int, h: int, bit: nat) returns (value: bool)
    requires ValidSize(w, h, buffer.Length) && bit < BITS
    ensures value == BitAt(buffer[..], w, h, bit)
  {
    var sum := 0;
    for row := 0 to 3
      invariant sum == SampleSum(buffer[..], w, h, bit, row * 9)
    {
      for column := 0 to 3
        invariant sum == SampleSum(buffer[..], w, h, bit, row * 9 + column * 3)
      {
        var pixel := ReadPixel(buffer, w, h, Cell(bit, row, column));
        sum := sum + pixel;
      }
    }
    value := sum / 27 >= THRESHOLD;
  }

  lemma PixelSamples(b: seq<Byte>, w: int, h: int, c: Cell)
    requires ValidSize(w, h, |b|) && CellOk(c)
    ensures 0 <= Address(w, h, c) && Address(w, h, c) + 4 <= |b|
    ensures SampleSum(b, w, h, c.bit, c.row * 9 + c.column * 3 + 3)
         == SampleSum(b, w, h, c.bit, c.row * 9 + c.column * 3)
            + b[Address(w, h, c)] as int + b[Address(w, h, c) + 1] as int + b[Address(w, h, c) + 2] as int
  {
    var n := c.row * 9 + c.column * 3;
    SampleIs(b, w, h, c, 0);
    SampleIs(b, w, h, c, 1);
    SampleIs(b, w, h, c, 2);
    assert SampleSum(b, w, h, c.bit, n + 1) == SampleSum(b, w, h, c.bit, n) + Sample(b, w, h, c.bit, n);
    assert SampleSum(b, w, h, c.bit, n + 2) == SampleSum(b, w, h, c.bit, n + 1) + Sample(b, w, h, c.bit, n + 1);
    assert SampleSum(b, w, h, c.bit, n + 3) == SampleSum(b, w, h, c.bit, n + 2) + Sample(b, w, h, c.bit, n + 2);
  }

  lemma SampleIs(b: seq<Byte>, w: int, h: int, c: Cell, channel: nat)
    requires ValidSize(w, h, |b|) && CellOk(c) && channel < 3
    ensures 0 <= Address(w, h, c) && Address(w, h, c) + 4 <= |b|
    ensures Sample(b, w, h, c.bit, c.row * 9 + c.column * 3 + channel) == b[Address(w, h, c) + channel]
  {
    AddressInBuffer(w, h, c);
    var n := c.row * 9 + c.column * 3 + channel;
    assert n / 9 == c.row && n / 3 == c.row * 3 + c.column && n % 3 == channel;
    assert (n / 3) % 3 == c.column;
  }

  method ReadBgra(buffer: array<Byte>, w: int, h: int) returns (m: Option<Watermark>)
    ensures m == Read(buffer[..], w, h)
  {
    if !ValidSize(w, h, buffer.Length) {
      return None;
    }
    var bits := new bool[BITS](_ => false);
    for i := 0 to BITS
      invariant forall j :: 0 <= j < i ==> bits[j] == BitAt(buffer[..], w, h, j)
    {
      bits[i] := ReadBlock(buffer, w, h, i);
    }
    assert bits[..] == BitsIn(buffer[..], w, h);
    m := DecodeBits(bits);
  }

  method DecodeBits(bits: array<bool>) returns (m: Option<Watermark>)
    requires bits.Length == BITS
    ensures m == Decode(bits[..])
  {
    Slice(bits[..], bits[0..16], 0, 16);
    Slice(bits[..], bits[16..20], 16, 20);
    Slice(bits[..], bits[20..52], 20, 52);
    Slice(bits[..], bits[52..84], 52, 84);
    Slice(bits[..], bits[84..100], 84, 100);
    Slice(bits[..], bits[100..108], 100, 108);
    var magic := ReadBits(bits, 0, 16);
    var version := ReadBits(bits, 16, 4);
    var frame := ReadBits(bits, 20, 32);
    var input := ReadBits(bits, 52, 32);
    var age := ReadBits(bits, 84, 16);
    var sum := ReadBits(bits, 100, 8);
    if magic != MAGIC || version != VERSION || sum != Checksum(magic, version, frame, input, age) {
      return None;
    }
    m := Some(Watermark(frame, input, age));
  }

  lemma Slice(bits: seq<bool>, part: seq<bool>, from: nat, to: nat)
    requires from <= to <= |bits| && |part| == to - from
    requires forall i :: 0 <= i < |part| ==> part[i] == bits[from + i]
    ensures part == bits[from..to]
  {
  }

  /** One row is copied down by `memcpy`. */
  method CopyRow(buffer: array<Byte>, from: nat, to: nat, count: nat)
    requires from + count <= to && to + count <= buffer.Length
    modifies buffer
    ensures forall k :: 0 <= k < buffer.Length ==>
      buffer[k] == if to <= k < to + count then old(buffer[from + (k - to)]) else old(buffer[k])
  {
    for i := 0 to count
      invariant forall k :: 0 <= k < buffer.Length ==>
        buffer[k] == if to <= k < to + i then old(buffer[from + (k - to)]) else old(buffer[k])
    {
      buffer[to + i] := buffer[from + i];
    }
  }

  lemma RowBytes(w: int, h: int, y: int, k: nat)
    requires w > 0 && 0 <= y < h && 0 <= k
    ensures (PixelY(w, k) == y && PixelX(w, k) >= w - CopyWidth(w))
         <==> (y * w + w - CopyWidth(w)) * 4 <= k < (y * w + w) * 4
  {
    Coordinates(w, h, k);
    if (y * w + w - CopyWidth(w)) * 4 <= k < (y * w + w) * 4 {
      Remainder(k / 4, w, y, k / 4 - y * w);
    }
  }

  method RemoveBgra(buffer: array<Byte>, w: int, h: int) returns (ok: bool)
    modifies buffer
    ensures ok == CanRemove(w, h, buffer.Length)
    ensures buffer[..] == if ok then Covered(old(buffer[..]), w, h) else old(buffer[..])
  {
    if !CanRemove(w, h, buffer.Length) {
      return false;
    }
    var width := CopyWidth(w);
    for i := 0 to CLEANUP_HEIGHT
      invariant forall k :: 0 <= k < buffer.Length ==>
        buffer[k] == if InCleanup(w, h, k) && PixelY(w, k) < h - CLEANUP_HEIGHT + i
                     then Covered(old(buffer[..]), w, h)[k] else old(buffer[k])
    {
      var y := h - CLEANUP_HEIGHT + i;
      ghost var before := buffer[..];
      RowFits(w, h, y);
      RowFits(w, h, y - CLEANUP_HEIGHT);
      RowApart(w, y);
      CopyRow(buffer, ((y - CLEANUP_HEIGHT) * w + w - width) * 4, (y * w + w - width) * 4, width * 4);
      forall k | 0 <= k < buffer.Length
        ensures buffer[k] == if InCleanup(w, h, k) && PixelY(w, k) < y + 1
                             then Covered(old(buffer[..]), w, h)[k] else old(buffer[k])
      {
        RowBytes(w, h, y, k);
        if (y * w + w - width) * 4 <= k < (y * w + w) * 4 {
          RowsAbove(w, h, k);
          assert buffer[k] == before[k - CLEANUP_HEIGHT * w * 4];
        }
      }
    }
    assert buffer[..] == Covered(old(buffer[..]), w, h);
    ok := true;
  }

  lemma RowApart(w: int, y: int)
    requires w > 0
    ensures y * w == (y - CLEANUP_HEIGHT) * w + CLEANUP_HEIGHT * w && CLEANUP_HEIGHT * w >= w
  {
  }
}
