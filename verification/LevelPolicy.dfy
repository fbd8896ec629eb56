/** KH264LevelPolicy: which stream parameters a level of Table A-1 of ITU-T H.264 (section A.3.1)
    admits, and the lowest level that admits them. */
module LevelPolicy {

  datatype Limit = Limit(
    level: int,
    blocksPerSecond: int,
    frameBlocks: int,
    dpbBlocks: int,
    bitrateKbps: int,
    cpbKbits: int)

  const LIMITS: seq<Limit> := [
    Limit(10, 1485, 99, 396, 64, 175), Limit(11, 3000, 396, 900, 192, 500),
    Limit(12, 6000, 396, 2376, 384, 1000), Limit(13, 11880, 396, 2376, 768, 2000),
    Limit(20, 11880, 396, 2376, 2000, 2000), Limit(21, 19800, 792, 4752, 4000, 4000),
    Limit(22, 20250, 1620, 8100, 4000, 4000), Limit(30, 40500, 1620, 8100, 10000, 10000),
    Limit(31, 108000, 3600, 18000, 14000, 14000), Limit(32, 216000, 5120, 20480, 20000, 20000),
    Limit(40, 245760, 8192, 32768, 20000, 25000), Limit(41, 245760, 8192, 32768, 50000, 62500),
    Limit(42, 522240, 8704, 34816, 50000, 62500), Limit(50, 589824, 22080, 110400, 135000, 135000),
    Limit(51, 983040, 36864, 184320, 240000, 240000), Limit(52, 2073600, 36864, 184320, 240000, 240000)
  ]

  const INT32: int := 0x8000_0000
  const INT64: int := 0x8000_0000_0000_0000

  /** What is asked of a level. */
  datatype Stream = Stream(width: int, height: int, fps: int, bitrate: int, buffer: int, references: int)

  function FindFrom(level: int, i: nat): (r: nat)
    requires i <= |LIMITS|
    ensures i <= r <= |LIMITS|
    ensures r < |LIMITS| ==> LIMITS[r].level == level
    ensures forall k :: i <= k < r ==> LIMITS[k].level != level
    decreases |LIMITS| - i
  {
    if i == |LIMITS| || LIMITS[i].level == level then i else FindFrom(level, i + 1)
  }

  /** The row of the level, or the end of the table. */
  function Find(level: int): (r: nat)
    ensures r <= |LIMITS|
    ensures r < |LIMITS| ==> LIMITS[r].level == level
    ensures forall k :: 0 <= k < r ==> LIMITS[k].level != level
  {
    FindFrom(level, 0)
  }

  predicate IsSupported(level: int) { Find(level) < |LIMITS| }

  function MaximumBitrate(level: int): int {
    if IsSupported(level) then LIMITS[Find(level)].bitrateKbps * 1000 else 0
  }

  function Blocks(pixels: int): int { (pixels + 15) / 16 }

  predicate Sensible(x: Stream) {
    && x.width > 0 && x.height > 0 && x.fps > 0 && x.bitrate > 0 && x.buffer >= 0
    && 0 <= x.references <= 16
  }

  function Max(a: int, b: int): int { if a < b then b else a }

  predicate FitsRow(l: Limit, x: Stream) {
    var columns, rows := Blocks(x.width), Blocks(x.height);
    var blocks := columns * rows;
    && blocks <= l.frameBlocks
    && columns * columns <= 8 * l.frameBlocks
    && rows * rows <= 8 * l.frameBlocks
    && blocks * x.fps <= l.blocksPerSecond
    && blocks * Max(1, x.references) <= l.dpbBlocks
    && x.bitrate <= l.bitrateKbps * 1000
    && x.buffer <= l.cpbKbits * 1000
  }

  predicate Fits(level: int, x: Stream) {
    IsSupported(level) && Sensible(x) && FitsRow(LIMITS[Find(level)], x)
  }

  /** The search of `minimumLevel`, row by row. */
  function MinimumFrom(x: Stream, i: nat): int
    requires i <= |LIMITS|
    decreases |LIMITS| - i
  {
    if i == |LIMITS| then 0
    else if Fits(LIMITS[i].level, x) then LIMITS[i].level
    else MinimumFrom(x, i + 1)
  }

  function MinimumLevel(x: Stream): int { MinimumFrom(x, 0) }

  // ---------- the table is ordered ----------

  predicate RowBelow(a: Limit, b: Limit) {
    && a.level < b.level && a.blocksPerSecond <= b.blocksPerSecond && a.frameBlocks <= b.frameBlocks
    && a.dpbBlocks <= b.dpbBlocks && a.bitrateKbps <= b.bitrateKbps && a.cpbKbits <= b.cpbKbits
  }

  lemma NextRow(i: nat)
    requires i + 1 < |LIMITS|
    ensures RowBelow(LIMITS[i], LIMITS[i + 1])
  {
  }

  lemma {:induction false} Ordered(i: nat, j: nat)
    requires i < j < |LIMITS|
    ensures RowBelow(LIMITS[i], LIMITS[j])
  {
    NextRow(j - 1);
    if i < j - 1 {
      Ordered(i, j - 1);
    }
  }

  lemma LargerRow(a: Limit, b: Limit, x: Stream)
    requires RowBelow(a, b) && FitsRow(a, x)
    ensures FitsRow(b, x)
  {
  }

  /** Upward closed: what fits a level fits every higher level of the table. */
  lemma UpwardClosed(level: int, higher: int, x: Stream)
    requires Fits(level, x) && IsSupported(higher) && level <= higher
    ensures Fits(higher, x)
  {
    var i, j := Find(level), Find(higher);
    if i < j {
      Ordered(i, j);
      LargerRow(LIMITS[i], LIMITS[j], x);
    } else if j < i {
      Ordered(j, i);
    }
  }

  // ---------- smaller streams ----------

  lemma ProductMonotone(a: int, b: int, c: int, d: int)
    requires 0 <= a <= c && 0 <= b <= d
    ensures 0 <= a * b <= c * d
  {
    assert c * d - a * b == (c - a) * d + a * (d - b);
  }

  lemma BlocksMonotone(a: int, b: int)
    requires 0 < a <= b
    ensures 1 <= Blocks(a) <= Blocks(b)
  {
  }

  predicate NoLarger(y: Stream, x: Stream) {
    && y.width <= x.width && y.height <= x.height && y.fps <= x.fps && y.bitrate <= x.bitrate
    && y.buffer <= x.buffer && y.references <= x.references
  }

  lemma SmallerInRow(l: Limit, y: Stream, x: Stream)
    requires Sensible(y) && NoLarger(y, x) && FitsRow(l, x)
    ensures FitsRow(l, y)
  {
    BlocksMonotone(y.width, x.width);
    BlocksMonotone(y.height, x.height);
    var c, r, d, s := Blocks(y.width), Blocks(y.height), Blocks(x.width), Blocks(x.height);
    ProductMonotone(c, r, d, s);
    ProductMonotone(c, c, d, d);
    ProductMonotone(r, r, s, s);
    ProductMonotone(c * r, y.fps, d * s, x.fps);
    ProductMonotone(c * r, Max(1, y.references), d * s, Max(1, x.references));
  }

  /** Downward closed: a sensible stream that is nowhere larger fits wherever the larger one does, and
      needs no higher level. */
  lemma DownwardClosed(level: int, y: Stream, x: Stream)
    requires Fits(level, x) && Sensible(y) && NoLarger(y, x)
    ensures Fits(level, y)
    ensures 0 < MinimumLevel(y) <= MinimumLevel(x) <= level
  {
    SmallerInRow(LIMITS[Find(level)], y, x);
    MinimumExact(level, x);
    var l := MinimumLevel(x);
    MinimumFits(x, 0);
    SmallerInRow(LIMITS[Find(l)], y, x);
    MinimumExact(l, y);
  }

  // ---------- the lowest level ----------

  lemma {:induction false} MinimumFits(x: Stream, i: nat)
    requires i <= |LIMITS|
    ensures MinimumFrom(x, i) != 0 ==> Fits(MinimumFrom(x, i), x) && MinimumFrom(x, i) > 0
    decreases |LIMITS| - i
  {
    if i < |LIMITS| && !Fits(LIMITS[i].level, x) {
      MinimumFits(x, i + 1);
    } else if i < |LIMITS| {
      LevelPositive(i);
    }
  }

  lemma LevelPositive(i: nat)
    requires i < |LIMITS|
    ensures LIMITS[i].level > 0
  {
    if i > 0 {
      Ordered(0, i);
    }
  }

  lemma {:induction false} MinimumIsFirst(x: Stream, i: nat, k: nat)
    requires i <= k < |LIMITS| && Fits(LIMITS[k].level, x)
    ensures 0 < MinimumFrom(x, i) <= LIMITS[k].level
    decreases |LIMITS| - i
  {
    LevelPositive(i);
    if !Fits(LIMITS[i].level, x) {
      MinimumIsFirst(x, i + 1, k);
    } else if i < k {
      Ordered(i, k);
    }
  }

  /** A level of the table admits a stream exactly when it is no lower than the minimum level. */
  lemma MinimumExact(level: int, x: Stream)
    requires IsSupported(level)
    ensures Fits(level, x) <==> 0 < MinimumLevel(x) <= level
  {
    if Fits(level, x) {
      MinimumIsFirst(x, 0, Find(level));
    }
    if 0 < MinimumLevel(x) <= level {
      MinimumFits(x, 0);
      UpwardClosed(MinimumLevel(x), level, x);
    }
  }

  /** The bitrate alone: where a stream fits, another bitrate fits up to the level's maximum. */
  lemma BitrateExact(level: int, x: Stream, bitrate: int)
    requires Fits(level, x)
    ensures Fits(level, x.(bitrate := bitrate)) <==> 0 < bitrate <= MaximumBitrate(level)
  {
  }

  // ---------- no overflow ----------

  /** For any 32-bit size, rate and reference count, every product the check forms fits 64 bits; the
      products with the frame rate are formed only behind the size check. */
  lemma NoOverflow(l: Limit, x: Stream)
    requires l in LIMITS
    requires 0 < x.width < INT32 && 0 < x.height < INT32 && 0 < x.fps < INT32 && 0 <= x.references <= 16
    ensures var columns, rows := Blocks(x.width), Blocks(x.height);
            && 0 <= columns * rows < INT64 && columns * columns < INT64 && rows * rows < INT64
            && (columns * rows <= l.frameBlocks ==>
                  columns * rows * x.fps < INT64 && columns * rows * Max(1, x.references) < INT64)
            && l.bitrateKbps * 1000 < INT64 && l.cpbKbits * 1000 < INT64 && 8 * l.frameBlocks < INT64
  {
    var i :| 0 <= i < |LIMITS| && LIMITS[i] == l;
    if i < |LIMITS| - 1 {
      Ordered(i, |LIMITS| - 1);
    }
    var columns, rows := Blocks(x.width), Blocks(x.height);
    var most := 0x800_0000;
    ProductMonotone(columns, rows, most, most);
    ProductMonotone(columns, columns, most, most);
    ProductMonotone(rows, rows, most, most);
    if columns * rows <= l.frameBlocks {
      ProductMonotone(columns * rows, x.fps, 36864, INT32);
      ProductMonotone(columns * rows, Max(1, x.references), 36864, 16);
    }
  }
}
