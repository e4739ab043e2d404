/**
 * Value-level specification of the spectrogram control: the sizes derived from
 * the settings, the processing of one incoming spectrum (bin remap, amplitude
 * scaling), where a spectrum lands in the texture buffer, and the RGBA layout of
 * the bitmap built from that buffer. Float numerics are `real`; the
 * frequency/amplitude mappings, the interpolation and the colour map are
 * parameters (see Numerics).
 */
module SpectrogramSpec {
  import opened Bits

  /** Largest FFT size the control accepts; also the length of one data packet. */
  const MAX_FFT_SIZE: int := 4096

  datatype FrequencyScale = Linear | Log | Mel
  datatype Direction = Horizontal | Vertical

  newtype byte = b: int | 0 <= b < 256

  /** An IColor: four integer channels. */
  datatype Color = Color(r: int, g: int, b: int, a: int)

  /**
   * The float computations the control delegates to, for its current settings:
   * xNorm is CalcXNorm(., mFreqScale), yNorm is CalcYNorm, lerp is iplug::Lerp,
   * shade is contrastRange(., mColorMapContrast, mColorMapRange) followed by
   * IColorMapList::GetColor.
   */
  datatype Numerics = Numerics(
    xNorm: real -> real,
    yNorm: real -> real,
    lerp: (real, real, real) -> real,
    shade: real -> Color)

  /**
   * CalcXNorm maps normalised frequencies into [0, 1]: with mFreqLo = Nyquist/FFT size and
   * mFreqHi = Nyquist every scale maps [0, 1] onto [mFreqLo/Nyquist, 1].
   */
  ghost predicate MapsUnitInterval(f: real -> real) {
    forall x: real :: 0.0 <= x <= 1.0 ==> 0.0 <= f(x) <= 1.0
  }

  /** NumBins(): half the FFT size, rounded down. */
  function BinCount(fftSize: int): (n: int)
    requires 0 < fftSize <= MAX_FFT_SIZE
    ensures 0 <= n <= MAX_FFT_SIZE / 2
    ensures 2 * n <= fftSize <= 2 * n + 1
  {
    fftSize / 2
  }

  /** std::round: to the nearest integer, halves away from zero. */
  function RoundHalfAway(x: real): (r: int)
    ensures x >= 0.0 ==> r >= 0 && x - 0.5 < r as real <= x + 0.5
    ensures x < 0.0 ==> r <= 0 && x - 0.5 <= r as real < x + 0.5
  {
    if x >= 0.0 then (x + 0.5).Floor else -((-x + 0.5).Floor)
  }

  /**
   * NumRows(): the configured row count scaled by the sample rate relative to
   * 44.1 kHz and by 1024 relative to the FFT size, then rounded.
   */
  function RowCount(sampleRate: real, fftSize: int, numRows: int): (r: int)
    requires fftSize > 0
    ensures sampleRate >= 0.0 && numRows >= 0 ==> r >= 0
  {
    var coeff := (sampleRate / 44100.0) * (1024.0 / fftSize as real);
    assert sampleRate >= 0.0 ==> coeff >= 0.0;
    assert sampleRate >= 0.0 && numRows >= 0 ==> coeff * numRows as real >= 0.0;
    RoundHalfAway(coeff * numRows as real)
  }

  /** The texture buffer length for given settings: one row of bins per spectrogram row. */
  function TextureSize(sampleRate: real, fftSize: int, numRows: int): (n: int)
    requires 0 < fftSize <= MAX_FFT_SIZE && sampleRate >= 0.0 && numRows >= 0
    ensures n >= 0
    ensures n == RowCount(sampleRate, fftSize, numRows) * BinCount(fftSize)
  {
    var rows, bins := RowCount(sampleRate, fftSize, numRows), BinCount(fftSize);
    MulMonotone(rows, 0, bins);
    rows * bins
  }

  function Zeros(n: nat): (z: seq<real>)
    ensures |z| == n && forall k :: 0 <= k < n ==> z[k] == 0.0
  {
    seq(n, _ => 0.0)
  }

  /** static_cast<int> of a float: rounds toward zero. */
  function Truncate(x: real): (r: int)
    ensures x >= 0.0 ==> 0 <= r && r as real <= x < r as real + 1.0
    ensures x < 0.0 ==> r <= 0 && r as real - 1.0 < x <= r as real
  {
    if x >= 0.0 then x.Floor else -((-x).Floor)
  }

  /** i / m lies in [0, 1] for 0 <= i <= m. */
  lemma UnitFraction(i: real, m: real)
    requires 0.0 <= i <= m && m > 0.0
    ensures 0.0 <= i / m <= 1.0
  {
    assert i / m * m == i;
  }

  /** u * m stays in [0, m] for u in [0, 1]. */
  lemma UnitScale(u: real, m: real)
    requires 0.0 <= u <= 1.0 && m >= 0.0
    ensures 0.0 <= u * m <= m
  {
    assert m - u * m == (1.0 - u) * m;
  }

  /** The fractional bin position that bin i of the remapped spectrum reads from. */
  function MappedBin(numBins: int, i: int, xNorm: real -> real): (r: real)
    requires 1 <= i <= numBins - 1
    requires MapsUnitInterval(xNorm)
    ensures 0.0 <= r <= (numBins - 1) as real
  {
    var top := (numBins - 1) as real;
    var normalizedFreq := i as real / top;
    UnitFraction(i as real, top);
    var u := xNorm(normalizedFreq);
    assert 0.0 <= u <= 1.0;
    UnitScale(u, top);
    u * top
  }

  /** bin0: the lower of the two source bins interpolated into bin i. */
  function LowerBin(numBins: int, i: int, xNorm: real -> real): (b: nat)
    requires 1 <= i <= numBins - 1
    requires MapsUnitInterval(xNorm)
    ensures b <= numBins - 1
  {
    Truncate(MappedBin(numBins, i, xNorm))
  }

  /** `(bin0 + 1) & (numBins - 1)`: the upper source bin, which never leaves [0, numBins). */
  function NeighbourBin(bin0: nat, numBins: int): (r: nat)
    requires numBins >= 1
    ensures r < numBins
  {
    BitAnd(bin0 + 1, numBins - 1)
  }

  /** When the bin count is a power of two the mask wraps the neighbour round to bin 0. */
  lemma NeighbourBinWraps(bin0: nat, numBins: nat)
    requires IsPowerOfTwo(numBins)
    ensures NeighbourBin(bin0, numBins) == (bin0 + 1) % numBins
  {
    LowMaskIsModulo(bin0 + 1, numBins);
  }

  /** The value the remap loop stores into bin i, read from the current spectrum s. */
  function InterpolatedBin(s: seq<real>, numBins: int, i: int, num: Numerics): (v: real)
    requires 1 <= i <= numBins - 1 && numBins <= |s|
    requires MapsUnitInterval(num.xNorm)
  {
    var mapped := MappedBin(numBins, i, num.xNorm);
    var bin0 := LowerBin(numBins, i, num.xNorm);
    Lerp(num, s[bin0], s[NeighbourBin(bin0, numBins)], mapped - bin0 as real)
  }

  /** Linear interpolation from a to b at fraction t, through the host's lerp. */
  function Lerp(num: Numerics, a: real, b: real, t: real): (v: real) { num.lerp(a, b, t) }

  /**
   * The spectrum after the remap loop has run for i = hi, hi - 1, ..., 1, each
   * step reading the spectrum as the previous steps left it.
   */
  function RemapDownFrom(s: seq<real>, hi: int, numBins: int, num: Numerics): (r: seq<real>)
    requires numBins <= |s| && hi <= numBins - 1
    requires MapsUnitInterval(num.xNorm)
    ensures |r| == |s|
    decreases hi, 1
  {
    if hi <= 0 then s else RemapFromBin(s, hi, numBins, num)
  }

  /** The remap loop from bin hi on: bin hi is rewritten, then the loop goes on from hi - 1. */
  function RemapFromBin(s: seq<real>, hi: int, numBins: int, num: Numerics): (r: seq<real>)
    requires numBins <= |s| && 1 <= hi <= numBins - 1
    requires MapsUnitInterval(num.xNorm)
    ensures |r| == |s|
    decreases hi, 0
  {
    RemapDownFrom(s[hi := InterpolatedBin(s, numBins, hi, num)], hi - 1, numBins, num)
  }

  /** The descending remap never rewrites bin 0 nor any bin above where it starts. */
  lemma {:induction false} RemapKeepsOutside(s: seq<real>, hi: int, numBins: int, num: Numerics)
    requires numBins <= |s| && hi <= numBins - 1
    requires MapsUnitInterval(num.xNorm)
    ensures forall k :: 0 <= k < |s| && (k == 0 || k > hi) ==> RemapDownFrom(s, hi, numBins, num)[k] == s[k]
    decreases hi
  {
    if hi > 0 {
      var next := s[hi := InterpolatedBin(s, numBins, hi, num)];
      RemapStep(s, next, hi, numBins, num);
      RemapKeepsOutside(next, hi - 1, numBins, num);
    }
  }

  /** One step of the remap loop: bin hi is rewritten, then the loop goes on from hi - 1. */
  lemma RemapStep(before: seq<real>, after: seq<real>, hi: int, numBins: int, num: Numerics)
    requires numBins <= |before| && 1 <= hi <= numBins - 1
    requires MapsUnitInterval(num.xNorm)
    requires after == before[hi := InterpolatedBin(before, numBins, hi, num)]
    ensures RemapDownFrom(before, hi, numBins, num) == RemapDownFrom(after, hi - 1, numBins, num)
  {
  }

  /** The descending remap of s from hi is target: the loop state the remap loop keeps. */
  predicate RemapsTo(s: seq<real>, hi: int, numBins: int, num: Numerics, target: seq<real>)
    requires numBins <= |s| && hi <= numBins - 1
    requires MapsUnitInterval(num.xNorm)
  {
    RemapDownFrom(s, hi, numBins, num) == target
  }

  /** The amplitude scaling: the first numBins entries go through yNorm, the rest are untouched. */
  function ScaleAmplitudes(s: seq<real>, numBins: int, yNorm: real -> real): (r: seq<real>)
    ensures |r| == |s|
    ensures forall k :: 0 <= k < |s| ==> r[k] == (if k < numBins then yNorm(s[k]) else s[k])
  {
    seq(|s|, k requires 0 <= k < |s| => if k < numBins then yNorm(s[k]) else s[k])
  }

  /** One data packet after UpdateSpectrogram has processed it in place. */
  function Processed(s: seq<real>, numBins: int, num: Numerics): (r: seq<real>)
    requires numBins <= |s|
    requires MapsUnitInterval(num.xNorm)
    ensures |r| == |s|
    ensures |s| > 0 && numBins > 0 ==> r[0] == num.yNorm(s[0])
    ensures forall k :: numBins <= k < |s| && 0 <= k ==> r[k] == s[k]
  {
    RemapKeepsOutside(s, numBins - 1, numBins, num);
    ScaleAmplitudes(RemapDownFrom(s, numBins - 1, numBins, num), numBins, num.yNorm)
  }

  /** The ring-buffer row that the update with write index w lands in. */
  function RowOf(w: nat, rows: int): (r: nat)
    requires rows > 0
    ensures r < rows
  {
    w % rows
  }

  /** rows consecutive updates land in rows distinct rows, and the next one overwrites the first. */
  lemma RoundRobinRows(start: nat, rows: int, i: nat, j: nat)
    requires rows > 0 && i < j < rows
    ensures RowOf(start + i, rows) != RowOf(start + j, rows)
    ensures RowOf(start + rows, rows) == RowOf(start, rows)
  {
    var a, b := start + i, start + j;
    assert a == rows * (a / rows) + a % rows;
    assert b == rows * (b / rows) + b % rows;
    if a % rows == b % rows {
      assert rows * (b / rows - a / rows) == j - i;
      MultipleOutsideOpenInterval(rows, b / rows - a / rows);
    }
    ModuloUnique(start + rows, rows, start / rows + 1, start % rows);
  }

  /** Every row is reached by one of any rows consecutive updates. */
  lemma RoundRobinCovers(start: nat, rows: int, row: nat)
    requires rows > 0 && row < rows
    ensures exists w :: start <= w < start + rows && RowOf(w, rows) == row
  {
    var s := start % rows;
    var i := if row >= s then row - s else row + rows - s;
    assert start == rows * (start / rows) + s;
    if row >= s {
      ModuloUnique(start + i, rows, start / rows, row);
    } else {
      ModuloUnique(start + i, rows, start / rows + 1, row);
    }
    assert RowOf(start + i, rows) == row;
  }

  /** Whole row `row` of a buffer of rows of rowLen cells lies inside a buffer of bufLen cells. */
  predicate RowFits(bufLen: int, row: int, rowLen: int) {
    0 <= row && 0 <= rowLen && (row + 1) * rowLen <= bufLen
  }

  /** A row index below the row count fits in a buffer of rows * rowLen cells. */
  lemma RowBelowCountFits(rows: int, row: int, rowLen: nat)
    requires 0 <= row < rows
    ensures RowFits(rows * rowLen, row, rowLen)
    ensures 0 <= row * rowLen && row * rowLen + rowLen == (row + 1) * rowLen <= rows * rowLen
  {
    MulMonotone(rowLen, row + 1, rows);
  }

  /** The texture buffer after copying values into row `row`: only that row's cells change. */
  function WriteRow(buf: seq<real>, row: nat, rowLen: nat, values: seq<real>): (r: seq<real>)
    requires RowFits(|buf|, row, rowLen) && |values| == rowLen
    ensures |r| == |buf|
    ensures forall k :: 0 <= k < |buf| ==>
      r[k] == if row * rowLen <= k < (row + 1) * rowLen then values[k - row * rowLen] else buf[k]
  {
    buf[..row * rowLen] + values + buf[(row + 1) * rowLen..]
  }

  /** std::clamp(x, 0, 1). */
  function Clamp01(x: real): (r: real)
    ensures 0.0 <= r <= 1.0
    ensures 0.0 <= x <= 1.0 ==> r == x
    ensures x < 0.0 ==> r == 0.0
    ensures x > 1.0 ==> r == 1.0
  {
    if x < 0.0 then 0.0 else if x > 1.0 then 1.0 else x
  }

  /** Assigning an int to a uint8_t keeps it modulo 256. */
  function ToByte(v: int): (b: byte)
    ensures 0 <= v < 256 ==> b as int == v
  {
    (v % 256) as byte
  }

  /** Byte c of a pixel: red, green, blue, alpha in that order. */
  function Channel(color: Color, c: int): (b: byte)
    requires 0 <= c < 4
  {
    ToByte(if c == 0 then color.r else if c == 1 then color.g else if c == 2 then color.b else color.a)
  }

  /** The colour of texture cell k: the cell's value clamped to [0, 1], then looked up. */
  function CellColor(buf: seq<real>, k: int, shade: real -> Color): (color: Color)
    requires 0 <= k < |buf|
  {
    shade(Clamp01(buf[k]))
  }

  /** The RGBA bytes for a texture: byte k is channel k % 4 of the colour of cell k / 4. */
  function Rendered(buf: seq<real>, shade: real -> Color): (px: seq<byte>)
    ensures |px| == 4 * |buf|
  {
    seq(4 * |buf|, k requires 0 <= k < 4 * |buf| => Channel(CellColor(buf, k / 4, shade), k % 4))
  }

  /** Pixel (x, y) of a w-by-h bitmap occupies bytes (y * w + x) * 4 .. + 3, inside the bitmap. */
  lemma PixelLayout(buf: seq<real>, shade: real -> Color, w: nat, h: nat, x: nat, y: nat, c: nat)
    requires |buf| == w * h && x < w && y < h && c < 4
    ensures y * w + x < |buf|
    ensures (y * w + x) * 4 + c < |Rendered(buf, shade)|
    ensures Rendered(buf, shade)[(y * w + x) * 4 + c] == Channel(CellColor(buf, y * w + x, shade), c)
  {
    MulMonotone(w, y + 1, h);
    var p := y * w + x;
    assert (p * 4 + c) / 4 == p && (p * 4 + c) % 4 == c;
  }

  /** The four bytes of cell `cell` are the channels of its colour. */
  lemma CellBytes(buf: seq<real>, shade: real -> Color, cell: nat)
    requires cell < |buf|
    ensures forall k :: cell * 4 <= k < cell * 4 + 4 ==>
      Rendered(buf, shade)[k] == Channel(CellColor(buf, cell, shade), k - cell * 4)
  {
    forall k | cell * 4 <= k < cell * 4 + 4
      ensures Rendered(buf, shade)[k] == Channel(CellColor(buf, cell, shade), k - cell * 4)
    {
      assert k / 4 == cell && k % 4 == k - cell * 4;
    }
  }
}
