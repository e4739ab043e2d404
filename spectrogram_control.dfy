/**
 * ISpectrogramControl: a control that keeps the last NumRows() spectra in a
 * flat texture buffer used as a ring of rows, turns that buffer into an RGBA
 * bitmap, and takes its settings from messages sent by the plug-in and from a
 * popup menu.
 */
module Spectrogram {
  import opened Wrappers
  import opened Bits
  import opened SpectrogramSpec
  import opened SpectrogramMenu

  /** ISender<>::kUpdateMessage, the tag of a message carrying spectrum data. */
  const UPDATE_MESSAGE: int := 0
  const MSG_TAG_SAMPLE_RATE: int := 1
  const MSG_TAG_FFT_SIZE: int := 2
  const MSG_TAG_OVERLAP: int := 3
  const MSG_TAG_WINDOW_TYPE: int := 4
  const MSG_TAG_COLOR_MAP_RANGE: int := 5
  const MSG_TAG_COLOR_MAP_CONTRAST: int := 6

  /** ISenderData<1, TDataPacket>: a channel range and the data packet of its one channel. */
  datatype SenderData = SenderData(chanOffset: int, nChans: int, vals: seq<real>)

  /**
   * A message's payload as the branch for its tag reads it from the byte
   * stream: the sender data, an int (FFT size, overlap) or a double.
   */
  datatype Payload = Payload(packet: SenderData, intValue: int, realValue: real)

  /** A message the control sends to the plug-in's processing side. */
  datatype ProcessorMessage = ProcessorMessage(tag: int, value: int)

  /** Which branch of OnMsgFromDelegate a message takes. */
  datatype DelegateAction =
    | ApplySpectrum
    | SetSampleRateAction
    | SetFftSizeAction
    | SetOverlapAction
    | SetColorMapRangeAction
    | SetColorMapContrastAction
    | IgnoreMessage

  /**
   * OnMsgFromDelegate's dispatch. Spectrum data is taken only while the control
   * is enabled; each settings tag reaches only its own setter; the window-type
   * tag and unknown tags are ignored.
   */
  function ActionForMessage(disabled: bool, msgTag: int): (a: DelegateAction)
    ensures a == ApplySpectrum <==> !disabled && msgTag == UPDATE_MESSAGE
    ensures a == SetSampleRateAction <==> msgTag == MSG_TAG_SAMPLE_RATE
    ensures a == SetFftSizeAction <==> msgTag == MSG_TAG_FFT_SIZE
    ensures a == SetOverlapAction <==> msgTag == MSG_TAG_OVERLAP
    ensures a == SetColorMapRangeAction <==> msgTag == MSG_TAG_COLOR_MAP_RANGE
    ensures a == SetColorMapContrastAction <==> msgTag == MSG_TAG_COLOR_MAP_CONTRAST
    ensures a == IgnoreMessage <==>
      msgTag == MSG_TAG_WINDOW_TYPE || msgTag < UPDATE_MESSAGE || msgTag > MSG_TAG_COLOR_MAP_CONTRAST ||
      (disabled && msgTag == UPDATE_MESSAGE)
  {
    if !disabled && msgTag == UPDATE_MESSAGE then ApplySpectrum
    else if msgTag == MSG_TAG_SAMPLE_RATE then SetSampleRateAction
    else if msgTag == MSG_TAG_FFT_SIZE then SetFftSizeAction
    else if msgTag == MSG_TAG_OVERLAP then SetOverlapAction
    else if msgTag == MSG_TAG_COLOR_MAP_RANGE then SetColorMapRangeAction
    else if msgTag == MSG_TAG_COLOR_MAP_CONTRAST then SetColorMapContrastAction
    else IgnoreMessage
  }

  /**
   * How many spectra the channel loop of OnMsgFromDelegate applies: the loop
   * stops at the first channel above 0, so only channel 0 is ever applied.
   */
  function SpectraApplied(packet: SenderData): (n: nat)
    requires packet.chanOffset >= 0
    ensures n <= 1
    ensures n == 1 <==> packet.chanOffset <= 0 < packet.chanOffset + packet.nChans
  {
    if packet.chanOffset == 0 && packet.nChans > 0 then 1 else 0
  }

  /** A snapshot of everything the setters change, for stating what stays the same. */
  datatype ControlSettings = ControlSettings(
    sampleRate: real, fftSize: int, overlap: int, direction: Direction,
    freqScale: FrequencyScale, freqLo: real, freqHi: real, colorMap: string,
    colorMapRange: real, colorMapContrast: real)

  /** The in-place processing of one packet in UpdateSpectrogram: the bin remap, then the amplitude scaling. */
  method ProcessPacket(powerSpectrum: array<real>, numBins: int, num: Numerics)
    requires 0 <= numBins <= powerSpectrum.Length && MapsUnitInterval(num.xNorm)
    modifies powerSpectrum
    ensures powerSpectrum[..] == Processed(old(powerSpectrum[..]), numBins, num)
  {
    RemapBins(powerSpectrum, numBins, num);
    ScaleAmplitudeBins(powerSpectrum, numBins, num.yNorm);
  }

  /**
   * The remap loop of UpdateSpectrogram: for i from numBins - 1 down to 1, bin i
   * becomes the interpolation of the bins around the mapped position.
   */
  method RemapBins(powerSpectrum: array<real>, numBins: int, num: Numerics)
    requires numBins <= powerSpectrum.Length && MapsUnitInterval(num.xNorm)
    modifies powerSpectrum
    ensures powerSpectrum[..] == RemapDownFrom(old(powerSpectrum[..]), numBins - 1, numBins, num)
  {
    ghost var remapped := RemapDownFrom(powerSpectrum[..], numBins - 1, numBins, num);
    var i := numBins - 1;
    while i > 0
      invariant i <= numBins - 1
      invariant RemapsTo(powerSpectrum[..], i, numBins, num, remapped)
      decreases i
    {
      RemapBin(powerSpectrum, i, numBins, num, remapped);
      i := i - 1;
    }
  }

  /**
   * One pass of the remap loop: bin i is rewritten from the two bins it reads.
   * `remapped` is where the loop is heading; the pass keeps the spectrum on
   * course for it.
   */
  method RemapBin(powerSpectrum: array<real>, i: int, numBins: int, num: Numerics, ghost remapped: seq<real>)
    requires 1 <= i <= numBins - 1 && numBins <= powerSpectrum.Length
    requires MapsUnitInterval(num.xNorm)
    requires RemapsTo(powerSpectrum[..], i, numBins, num, remapped)
    modifies powerSpectrum
    ensures powerSpectrum[..] == old(powerSpectrum[..])[i := InterpolatedBin(old(powerSpectrum[..]), numBins, i, num)]
    ensures RemapsTo(powerSpectrum[..], i - 1, numBins, num, remapped)
  {
    ghost var before := powerSpectrum[..];
    var mappedBin := MappedBin(numBins, i, num.xNorm);
    var bin0 := Truncate(mappedBin);
    var v0 := powerSpectrum[bin0];
    var v1 := powerSpectrum[NeighbourBin(bin0, numBins)];
    var value := Lerp(num, v0, v1, mappedBin - bin0 as real);
    powerSpectrum[i] := value;
    RemapStep(before, powerSpectrum[..], i, numBins, num);
  }

  /** The amplitude scaling of UpdateSpectrogram: yNorm over the first numBins entries. */
  method ScaleAmplitudeBins(powerSpectrum: array<real>, numBins: int, yNorm: real -> real)
    requires 0 <= numBins <= powerSpectrum.Length
    modifies powerSpectrum
    ensures powerSpectrum[..] == ScaleAmplitudes(old(powerSpectrum[..]), numBins, yNorm)
  {
    var k := 0;
    while k < numBins
      invariant 0 <= k <= numBins
      invariant forall j :: 0 <= j < powerSpectrum.Length ==>
        powerSpectrum[j] == if j < k then yNorm(old(powerSpectrum[j])) else old(powerSpectrum[j])
    {
      powerSpectrum[k] := yNorm(powerSpectrum[k]);
      k := k + 1;
    }
  }

  /** The bitmap loop of UpdateSpectrogramBitmap: rows y = 0 .. h-1, pixels x = 0 .. w-1. */
  method RenderBitmap(buf: seq<real>, w: nat, h: nat, shade: real -> Color, px: seq<byte>) returns (out: seq<byte>)
    requires |buf| == w * h && |px| == 4 * |buf|
    ensures out == Rendered(buf, shade)
  {
    out := px;
    var y := 0;
    ghost var done := 0;
    while y < h
      invariant 0 <= y <= h && done == y * w
      invariant |out| == |px|
      invariant forall k :: 0 <= k < done * 4 ==> out[k] == Rendered(buf, shade)[k]
    {
      RowBelowCountFits(h, y, w);
      out := RenderRow(buf, w, y * w, shade, out);
      y, done := y + 1, done + w;
    }
  }

  /** One row of the bitmap loop: pixels x = 0 .. w-1 of the row whose first cell is rowStart. */
  method RenderRow(buf: seq<real>, w: nat, rowStart: nat, shade: real -> Color, px: seq<byte>) returns (out: seq<byte>)
    requires rowStart + w <= |buf| && |px| == 4 * |buf|
    ensures |out| == |px|
    ensures forall k :: 0 <= k < |px| ==>
      out[k] == if rowStart * 4 <= k < (rowStart + w) * 4 then Rendered(buf, shade)[k] else px[k]
  {
    out := px;
    var x := 0;
    while x < w
      invariant 0 <= x <= w
      invariant |out| == |px|
      invariant forall k :: 0 <= k < |px| ==>
        out[k] == if rowStart * 4 <= k < (rowStart + x) * 4 then Rendered(buf, shade)[k] else px[k]
    {
      out := PaintPixel(buf, rowStart + x, shade, out);
      x := x + 1;
    }
  }

  /** Writes the four RGBA bytes of one texture cell. */
  method PaintPixel(buf: seq<real>, cell: nat, shade: real -> Color, px: seq<byte>) returns (out: seq<byte>)
    requires cell < |buf| && |px| == 4 * |buf|
    ensures |out| == |px|
    ensures forall k :: 0 <= k < |px| ==>
      out[k] == if cell * 4 <= k < cell * 4 + 4 then Rendered(buf, shade)[k] else px[k]
  {
    var color := CellColor(buf, cell, shade);
    var idx := cell * 4;
    out := px[idx := ToByte(color.r)][idx + 1 := ToByte(color.g)]
             [idx + 2 := ToByte(color.b)][idx + 3 := ToByte(color.a)];
    forall k | 0 <= k < |px|
      ensures out[k] == if idx <= k < idx + 4 then Rendered(buf, shade)[k] else px[k]
    {
      if idx <= k < idx + 4 {
        CellBytes(buf, shade, cell);
      }
    }
  }

  /** The copy loop of UpdateSpectrogram: values go into row `row` of the texture buffer. */
  method CopyRow(buf: seq<real>, row: nat, rowLen: nat, values: seq<real>) returns (r: seq<real>)
    requires RowFits(|buf|, row, rowLen) && |values| == rowLen
    ensures r == WriteRow(buf, row, rowLen, values)
  {
    var start := row * rowLen;
    assert start + rowLen == (row + 1) * rowLen;
    r := buf;
    var j := 0;
    while j < rowLen
      invariant 0 <= j <= rowLen
      invariant |r| == |buf|
      invariant forall k :: 0 <= k < |r| ==>
        r[k] == if start <= k < start + j then values[k - start] else buf[k]
    {
      r := r[start + j := values[j]];
      j := j + 1;
    }
  }

  class SpectrogramControl {
    var sampleRate: real
    var fftSize: int
    var overlap: int
    /** mNumRows: the row count at 44.1 kHz and FFT size 1024. */
    const numRows: int
    var direction: Direction
    var freqScale: FrequencyScale
    var freqLo: real
    var freqHi: real
    var colorMap: string
    var colorMapRange: real
    var colorMapContrast: real
    /** IControl::IsDisabled(). */
    var disabled: bool
    /** mTextureBuf: NumRows() rows of NumBins() cells each. */
    var textureBuf: seq<real>
    /** mTextureBufWriteIndex: how many spectra have been written. */
    var writeIndex: nat
    /** mRawBitmap: RGBA bytes, four per texture cell. */
    var rawBitmap: seq<byte>
    /** mMenu: the popup menu last built by OnMouseDown. */
    var menu: seq<Submenu>
    /** Messages sent to the processing side with SendArbitraryMsgFromUI. */
    var sentToProcessor: seq<ProcessorMessage>

    ghost predicate SettingsValid()
      reads this
    {
      0 < fftSize <= MAX_FFT_SIZE && sampleRate >= 0.0 && numRows >= 0
    }

    function NumBins(): (n: int)
      reads this
      requires SettingsValid()
    {
      BinCount(fftSize)
    }

    function NumRows(): (n: int)
      reads this
      requires SettingsValid()
    {
      RowCount(sampleRate, fftSize, numRows)
    }

    /** The texture buffer and the bitmap have the sizes the current settings call for. */
    ghost predicate Valid()
      reads this
    {
      && SettingsValid()
      && |textureBuf| == TextureSize(sampleRate, fftSize, numRows)
      && (NumBins() > 0 && NumRows() > 0 ==> |rawBitmap| == 4 * |textureBuf|)
    }

    function Settings(): (s: ControlSettings)
      reads this
    {
      ControlSettings(sampleRate, fftSize, overlap, direction, freqScale, freqLo, freqHi,
                      colorMap, colorMapRange, colorMapContrast)
    }

    constructor (fftSize: int := 1024, overlap: int := 2, numRows: int := 128,
                 direction: Direction := Horizontal, freqScale: FrequencyScale := Mel)
      requires 0 < fftSize <= MAX_FFT_SIZE && numRows >= 0
      ensures Valid()
      ensures Settings() == ControlSettings(44100.0, fftSize, overlap, direction, freqScale,
                                            22050.0 / fftSize as real, 22050.0, "MATLAB_jet", 0.5, 0.5)
      ensures this.numRows == numRows && !disabled && writeIndex == 0
      ensures textureBuf == Zeros(NumRows() * NumBins())
      ensures menu == [] && sentToProcessor == []
    {
      sampleRate := 44100.0;
      this.fftSize := fftSize;
      this.overlap := overlap;
      this.numRows := numRows;
      this.direction := direction;
      this.freqScale := freqScale;
      colorMap := "MATLAB_jet";
      colorMapRange := 0.5;
      colorMapContrast := 0.5;
      disabled := false;
      textureBuf := [];
      writeIndex := 0;
      rawBitmap := [];
      menu := [];
      sentToProcessor := [];
      freqLo := 44100.0 * 0.5 / fftSize as real;
      freqHi := 44100.0 * 0.5;
      new;
      ResizeBuffers();
    }

    /** RezizeBuffers: the texture buffer gets NumRows() * NumBins() cells, all zero. */
    method ResizeBuffers()
      requires SettingsValid()
      modifies this`textureBuf, this`rawBitmap
      ensures Valid()
      ensures textureBuf == Zeros(NumRows() * NumBins())
      ensures NumBins() > 0 && NumRows() > 0 ==> |rawBitmap| == NumBins() * NumRows() * 4
      ensures !(NumBins() > 0 && NumRows() > 0) ==> rawBitmap == old(rawBitmap)
    {
      var textureSize := NumRows() * NumBins();
      assert textureSize == TextureSize(sampleRate, fftSize, numRows);
      // std::vector::resize keeps the leading cells and zero-fills new ones
      if textureSize <= |textureBuf| {
        textureBuf := textureBuf[..textureSize];
      } else {
        textureBuf := textureBuf + Zeros(textureSize - |textureBuf|);
      }
      ResetSpectrogramData();
      CreateBitmap();
      assert NumBins() * NumRows() * 4 == 4 * textureSize;
    }

    /** ResetSpectrogramData: every cell of the texture buffer becomes 0, its length stays. */
    method ResetSpectrogramData()
      modifies this`textureBuf
      ensures textureBuf == Zeros(|old(textureBuf)|)
    {
      var i := 0;
      while i < |textureBuf|
        invariant 0 <= i <= |textureBuf| == |old(textureBuf)|
        invariant forall k :: 0 <= k < i ==> textureBuf[k] == 0.0
      {
        textureBuf := textureBuf[i := 0.0];
        i := i + 1;
      }
    }

    /**
     * CreateBitmap: when both dimensions are positive the bitmap is resized to
     * NumBins() * NumRows() * 4 bytes, keeping its leading bytes; otherwise it is left alone.
     */
    method CreateBitmap()
      requires SettingsValid()
      modifies this`rawBitmap
      ensures NumBins() > 0 && NumRows() > 0 ==>
        |rawBitmap| == NumBins() * NumRows() * 4 &&
        forall k :: 0 <= k < |rawBitmap| && k < |old(rawBitmap)| ==> rawBitmap[k] == old(rawBitmap)[k]
      ensures !(NumBins() > 0 && NumRows() > 0) ==> rawBitmap == old(rawBitmap)
    {
      var w := NumBins();
      var h := NumRows();
      if w > 0 && h > 0 {
        var size := w * h * 4;
        // the bytes a resize adds are uninitialised; the model fills them with 0
        if size <= |rawBitmap| {
          rawBitmap := rawBitmap[..size];
        } else {
          rawBitmap := rawBitmap + seq(size - |rawBitmap|, _ => 0 as byte);
        }
      }
    }

    method SetFreqRange(freqLo: real, freqHi: real)
      modifies this`freqLo, this`freqHi
      ensures this.freqLo == freqLo && this.freqHi == freqHi
    {
      this.freqLo := freqLo;
      this.freqHi := freqHi;
    }

    /** SetFFTSize: asserts 0 < fftSize <= MAX_FFT_SIZE, then resizes and clears the buffers. */
    method SetFFTSize(fftSize: int)
      requires Valid() && 0 < fftSize <= MAX_FFT_SIZE
      modifies this`fftSize, this`textureBuf, this`rawBitmap
      ensures Valid() && Settings() == old(Settings()).(fftSize := fftSize)
      ensures NumBins() == fftSize / 2 <= MAX_FFT_SIZE / 2
      ensures textureBuf == Zeros(NumRows() * NumBins())
    {
      this.fftSize := fftSize;
      ResizeBuffers();
      ResetSpectrogramData();
    }

    /** SetOverlap: asserts overlap > 0; the buffers keep their sizes and are cleared. */
    method SetOverlap(overlap: int)
      requires Valid() && overlap > 0
      modifies this`overlap, this`textureBuf, this`rawBitmap
      ensures Valid() && Settings() == old(Settings()).(overlap := overlap)
      ensures textureBuf == Zeros(|old(textureBuf)|)
    {
      this.overlap := overlap;
      ResizeBuffers();
    }

    method SetFFTSizeAndOverlapFromControl(fftSize: int, overlap: int)
      requires Valid() && 0 < fftSize <= MAX_FFT_SIZE && overlap > 0
      modifies this`fftSize, this`overlap, this`textureBuf, this`rawBitmap
      ensures Valid() && Settings() == old(Settings()).(fftSize := fftSize, overlap := overlap)
      ensures textureBuf == Zeros(NumRows() * NumBins())
    {
      SetFFTSize(fftSize);
      SetOverlap(overlap);
      ResetSpectrogramData();
    }

    /**
     * SetSampleRate as the source has it: the frequency range follows the new
     * Nyquist frequency and the buffer is cleared, but it keeps its old length
     * although NumRows() depends on the sample rate.
     */
    method SetSampleRateAsWritten(sampleRate: real)
      requires SettingsValid() && sampleRate >= 0.0
      modifies this`sampleRate, this`freqLo, this`freqHi, this`textureBuf
      ensures SettingsValid()
      ensures Settings() == old(Settings()).(sampleRate := sampleRate,
        freqLo := sampleRate * 0.5 / fftSize as real, freqHi := sampleRate * 0.5)
      ensures textureBuf == Zeros(|old(textureBuf)|)
    {
      this.sampleRate := sampleRate;
      SetFreqRange(sampleRate * 0.5 / fftSize as real, sampleRate * 0.5);
      ResetSpectrogramData();
    }

    /** The source's SetSampleRate, corrected to resize the buffers for the new NumRows(). */
    method SetSampleRateResizing(sampleRate: real)
      requires Valid() && sampleRate >= 0.0
      modifies this`sampleRate, this`freqLo, this`freqHi, this`textureBuf, this`rawBitmap
      ensures Valid()
      ensures Settings() == old(Settings()).(sampleRate := sampleRate,
        freqLo := sampleRate * 0.5 / fftSize as real, freqHi := sampleRate * 0.5)
      ensures textureBuf == Zeros(NumRows() * NumBins())
    {
      this.sampleRate := sampleRate;
      SetFreqRange(sampleRate * 0.5 / fftSize as real, sampleRate * 0.5);
      ResizeBuffers();
    }

    method SetFreqScale(freqScale: FrequencyScale)
      modifies this`freqScale
      ensures this.freqScale == freqScale
    {
      this.freqScale := freqScale;
    }

    method SetDirection(direction: Direction)
      modifies this`direction
      ensures this.direction == direction
    {
      this.direction := direction;
    }

    method SetColorMap(colorMap: string)
      modifies this`colorMap
      ensures this.colorMap == colorMap
    {
      this.colorMap := colorMap;
    }

    method SetColorMapRange(range: real)
      modifies this`colorMapRange
      ensures colorMapRange == range
    {
      colorMapRange := range;
    }

    method SetColorMapContrast(contrast: real)
      modifies this`colorMapContrast
      ensures colorMapContrast == contrast
    {
      colorMapContrast := contrast;
    }

    /**
     * UpdateSpectrogram: processes the packet in place (bin remap, then
     * amplitude scaling) and copies its first NumBins() entries into row
     * writeIndex % NumRows() of the texture buffer, then counts the write.
     * No other cell changes.
     */
    method UpdateSpectrogram(powerSpectrum: array<real>, num: Numerics)
      requires Valid() && powerSpectrum.Length == MAX_FFT_SIZE
      requires NumRows() > 0 && MapsUnitInterval(num.xNorm)
      modifies this`textureBuf, this`writeIndex, powerSpectrum
      ensures Valid()
      ensures powerSpectrum[..] == Processed(old(powerSpectrum[..]), NumBins(), num)
      ensures writeIndex == old(writeIndex) + 1
      ensures RowFits(|textureBuf|, RowOf(old(writeIndex), NumRows()), NumBins())
      ensures textureBuf == WriteRow(old(textureBuf), RowOf(old(writeIndex), NumRows()), NumBins(),
                                     powerSpectrum[..NumBins()])
    {
      var numBins := NumBins();
      ProcessPacket(powerSpectrum, numBins, num);
      StoreSpectrum(powerSpectrum[..numBins]);
    }

    /** The copy step of UpdateSpectrogram: values go into row writeIndex % NumRows(), then the write is counted. */
    method StoreSpectrum(values: seq<real>)
      requires Valid() && NumRows() > 0 && |values| == NumBins()
      modifies this`textureBuf, this`writeIndex
      ensures Valid()
      ensures writeIndex == old(writeIndex) + 1
      ensures RowFits(|textureBuf|, RowOf(old(writeIndex), NumRows()), NumBins())
      ensures textureBuf == WriteRow(old(textureBuf), RowOf(old(writeIndex), NumRows()), NumBins(), values)
    {
      var rowIndex := writeIndex % NumRows();
      writeIndex := writeIndex + 1;
      RowBelowCountFits(NumRows(), rowIndex, NumBins());
      textureBuf := CopyRow(textureBuf, rowIndex, NumBins(), values);
    }

    /**
     * UpdateSpectrogramBitmap: for each pixel (x, y) of the NumBins() by NumRows()
     * texture, bytes (y * w + x) * 4 .. + 3 receive the RGBA colour of the clamped cell.
     */
    method UpdateSpectrogramBitmap(shade: real -> Color)
      requires Valid()
      modifies this`rawBitmap
      ensures Valid()
      ensures NumBins() > 0 && NumRows() > 0 ==> rawBitmap == Rendered(textureBuf, shade)
      ensures !(NumBins() > 0 && NumRows() > 0) ==> rawBitmap == old(rawBitmap)
    {
      var w := NumBins();
      var h := NumRows();
      if w > 0 && h > 0 {
        rawBitmap := RenderBitmap(textureBuf, w, h, shade, rawBitmap);
      }
    }

    /** OnMouseDown: rebuilds the options menu with every current setting checked. */
    method OnMouseDown(colorMapMenu: Submenu)
      modifies this`menu
      ensures menu == OptionsMenu(freqScale, direction, colorMapMenu, fftSize, overlap)
    {
      menu := OptionsMenu(freqScale, direction, colorMapMenu, fftSize, overlap);
    }

    /**
     * OnPopupMenuSelection: applies the picked setting. An FFT size or overlap
     * is first sent to the processing side, then applied to the control.
     */
    method OnPopupMenuSelection(sel: Option<Selection>)
      requires Valid() && SelectionAccepted(sel)
      modifies this`freqScale, this`direction, this`colorMap, this`fftSize, this`overlap,
               this`textureBuf, this`rawBitmap, this`sentToProcessor
      ensures Valid()
      ensures MenuActionApplied(old(Settings()), old(textureBuf), old(rawBitmap), old(sentToProcessor), MenuActionFor(sel))
    {
      ApplyMenuAction(MenuActionFor(sel));
    }

    /**
     * What a menu action leaves behind, given the settings, the buffer and the
     * messages sent before it: its own setting changes and nothing else; an FFT
     * size or overlap is also sent to the processing side and clears the buffer,
     * and only those two reach the bitmap (through RezizeBuffers).
     */
    ghost predicate MenuActionApplied(before: ControlSettings, bufferBefore: seq<real>, bitmapBefore: seq<byte>,
                                      sentBefore: seq<ProcessorMessage>, a: MenuAction)
      reads this
      requires SettingsValid()
    {
      && (a.ChooseScale? ==> Settings() == before.(freqScale := a.scale))
      && (a.ChooseDirection? ==> Settings() == before.(direction := a.direction))
      && (a.ChooseColorMap? ==> Settings() == before.(colorMap := a.name))
      && (a.ChooseFftSize? ==>
            && Settings() == before.(fftSize := a.fftSize)
            && textureBuf == Zeros(NumRows() * NumBins())
            && sentToProcessor == sentBefore + [ProcessorMessage(MSG_TAG_FFT_SIZE, a.fftSize)])
      && (a.ChooseOverlap? ==>
            && Settings() == before.(overlap := a.overlap)
            && textureBuf == Zeros(|bufferBefore|)
            && sentToProcessor == sentBefore + [ProcessorMessage(MSG_TAG_OVERLAP, a.overlap)])
      && (a.NoMenuAction? ==> Settings() == before)
      && (!a.ChooseFftSize? && !a.ChooseOverlap? ==>
            sentToProcessor == sentBefore && textureBuf == bufferBefore && rawBitmap == bitmapBefore)
    }

    /** The branches of OnPopupMenuSelection, once the picked item has been decoded. */
    method ApplyMenuAction(a: MenuAction)
      requires Valid()
      requires a.ChooseFftSize? ==> 0 < a.fftSize <= MAX_FFT_SIZE
      requires a.ChooseOverlap? ==> a.overlap > 0
      modifies this`freqScale, this`direction, this`colorMap, this`fftSize, this`overlap,
               this`textureBuf, this`rawBitmap, this`sentToProcessor
      ensures Valid()
      ensures MenuActionApplied(old(Settings()), old(textureBuf), old(rawBitmap), old(sentToProcessor), a)
    {
      match a
      case ChooseScale(scale) => SetFreqScale(scale);
      case ChooseDirection(dir) => SetDirection(dir);
      case ChooseColorMap(name) => SetColorMap(name);
      case ChooseFftSize(size) =>
        sentToProcessor := sentToProcessor + [ProcessorMessage(MSG_TAG_FFT_SIZE, size)];
        SetFFTSize(size);
      case ChooseOverlap(ov) =>
        sentToProcessor := sentToProcessor + [ProcessorMessage(MSG_TAG_OVERLAP, ov)];
        SetOverlap(ov);
      case NoMenuAction =>
    }

    /**
     * Opening the menu and picking the item it shows checked (the scale, the
     * direction, an FFT size the menu offers, or an overlap of 2 or 4) leaves
     * every setting as it was.
     */
    method ReselectChecked(which: nat, colorMapMenu: Submenu)
      requires Valid()
      requires which == 0 || which == 1 || (which == 3 && IsMenuFftSize(fftSize)) ||
               (which == 4 && (overlap == 2 || overlap == 4))
      modifies this`menu, this`freqScale, this`direction, this`colorMap, this`fftSize, this`overlap,
               this`textureBuf, this`rawBitmap, this`sentToProcessor
      ensures Valid() && Settings() == old(Settings())
    {
      OnMouseDown(colorMapMenu);
      OptionsMenuReselects(freqScale, direction, colorMapMenu, fftSize, overlap, which);
      OnPopupMenuSelection(PickChecked(menu[which]));
    }

    /**
     * The update branch of OnMsgFromDelegate: the packet is copied out of the
     * message, and the channel loop hands it to UpdateSpectrogram for channel 0
     * only, stopping at the first channel above 0.
     */
    method ApplySenderData(d: SenderData, num: Numerics)
      requires Valid() && d.chanOffset >= 0 && |d.vals| == MAX_FFT_SIZE
      requires SpectraApplied(d) == 1 ==> NumRows() > 0 && MapsUnitInterval(num.xNorm)
      modifies this`textureBuf, this`writeIndex
      ensures Valid()
      ensures SpectraApplied(d) == 1 ==>
        && writeIndex == old(writeIndex) + 1
        && RowFits(|textureBuf|, RowOf(old(writeIndex), NumRows()), NumBins())
        && textureBuf == WriteRow(old(textureBuf), RowOf(old(writeIndex), NumRows()), NumBins(),
                                  Processed(d.vals, NumBins(), num)[..NumBins()])
      ensures SpectraApplied(d) == 0 ==> writeIndex == old(writeIndex) && textureBuf == old(textureBuf)
    {
      var powerSpectrum := new real[MAX_FFT_SIZE](k requires 0 <= k < MAX_FFT_SIZE => d.vals[k]);
      assert powerSpectrum[..] == d.vals;
      var c := d.chanOffset;
      while c < d.chanOffset + d.nChans
        invariant Valid()
        invariant c == d.chanOffset || (d.chanOffset == 0 && c == 1 && SpectraApplied(d) == 1)
        invariant c == d.chanOffset ==>
          writeIndex == old(writeIndex) && textureBuf == old(textureBuf) && powerSpectrum[..] == d.vals
        invariant c != d.chanOffset ==>
          && writeIndex == old(writeIndex) + 1
          && RowFits(|textureBuf|, RowOf(old(writeIndex), NumRows()), NumBins())
          && textureBuf == WriteRow(old(textureBuf), RowOf(old(writeIndex), NumRows()), NumBins(),
                                    Processed(d.vals, NumBins(), num)[..NumBins()])
      {
        // only the left channel is processed
        if c > 0 {
          break;
        }
        UpdateSpectrogram(powerSpectrum, num);
        c := c + 1;
      }
    }

    /**
     * OnMsgFromDelegate: spectrum data (only while enabled) goes through
     * UpdateSpectrogram for channel 0 alone; the settings tags reach their
     * setters; anything else is ignored.
     */
    method OnMsgFromDelegate(msgTag: int, payload: Payload, num: Numerics)
      requires Valid()
      requires ActionForMessage(disabled, msgTag) == ApplySpectrum ==>
        payload.packet.chanOffset >= 0 && |payload.packet.vals| == MAX_FFT_SIZE &&
        (SpectraApplied(payload.packet) == 1 ==> NumRows() > 0 && MapsUnitInterval(num.xNorm))
      requires msgTag == MSG_TAG_SAMPLE_RATE ==> payload.realValue >= 0.0
      requires msgTag == MSG_TAG_FFT_SIZE ==> 0 < payload.intValue <= MAX_FFT_SIZE
      requires msgTag == MSG_TAG_OVERLAP ==> payload.intValue > 0
      modifies this`sampleRate, this`freqLo, this`freqHi, this`fftSize, this`overlap,
               this`colorMapRange, this`colorMapContrast, this`textureBuf, this`writeIndex, this`rawBitmap
      ensures Valid()
      ensures ActionForMessage(disabled, msgTag) == ApplySpectrum ==>
        && Settings() == old(Settings()) && rawBitmap == old(rawBitmap)
        && (SpectraApplied(payload.packet) == 1 ==>
              && writeIndex == old(writeIndex) + 1
              && RowFits(|textureBuf|, RowOf(old(writeIndex), NumRows()), NumBins())
              && textureBuf == WriteRow(old(textureBuf), RowOf(old(writeIndex), NumRows()), NumBins(),
                                        Processed(payload.packet.vals, NumBins(), num)[..NumBins()]))
        && (SpectraApplied(payload.packet) == 0 ==> textureBuf == old(textureBuf))
      ensures ActionForMessage(disabled, msgTag) != ApplySpectrum ==> SettingChanged(old(Settings()), old(textureBuf), old(rawBitmap), msgTag, payload)
      ensures ActionForMessage(disabled, msgTag) != ApplySpectrum || SpectraApplied(payload.packet) == 0 ==>
        writeIndex == old(writeIndex)
    {
      if ActionForMessage(disabled, msgTag) == ApplySpectrum {
        ApplySenderData(payload.packet, num);
      } else {
        ApplySettingMessage(msgTag, payload);
      }
    }

    /**
     * What a settings message leaves behind, given the settings and the buffer
     * before it: its own setting changes and nothing else; the sample rate also
     * moves the frequency range, and the FFT size, overlap and sample rate clear
     * the buffer. The bitmap is left alone except by those three, which resize it.
     */
    ghost predicate SettingChanged(before: ControlSettings, bufferBefore: seq<real>, bitmapBefore: seq<byte>,
                                   msgTag: int, payload: Payload)
      reads this
      requires SettingsValid()
    {
      && (msgTag == MSG_TAG_SAMPLE_RATE ==>
            && Settings() == before.(sampleRate := payload.realValue,
                 freqLo := payload.realValue * 0.5 / fftSize as real, freqHi := payload.realValue * 0.5)
            && textureBuf == Zeros(NumRows() * NumBins()))
      && (msgTag == MSG_TAG_FFT_SIZE ==>
            Settings() == before.(fftSize := payload.intValue) && textureBuf == Zeros(NumRows() * NumBins()))
      && (msgTag == MSG_TAG_OVERLAP ==>
            Settings() == before.(overlap := payload.intValue) && textureBuf == Zeros(|bufferBefore|))
      && (msgTag == MSG_TAG_COLOR_MAP_RANGE ==>
            Settings() == before.(colorMapRange := payload.realValue) && textureBuf == bufferBefore &&
            rawBitmap == bitmapBefore)
      && (msgTag == MSG_TAG_COLOR_MAP_CONTRAST ==>
            Settings() == before.(colorMapContrast := payload.realValue) && textureBuf == bufferBefore &&
            rawBitmap == bitmapBefore)
      && (msgTag !in {MSG_TAG_SAMPLE_RATE, MSG_TAG_FFT_SIZE, MSG_TAG_OVERLAP,
                      MSG_TAG_COLOR_MAP_RANGE, MSG_TAG_COLOR_MAP_CONTRAST} ==>
            Settings() == before && textureBuf == bufferBefore && rawBitmap == bitmapBefore)
    }

    /** The settings branches of OnMsgFromDelegate: each settings tag reaches its own setter. */
    method ApplySettingMessage(msgTag: int, payload: Payload)
      requires Valid()
      requires msgTag == MSG_TAG_SAMPLE_RATE ==> payload.realValue >= 0.0
      requires msgTag == MSG_TAG_FFT_SIZE ==> 0 < payload.intValue <= MAX_FFT_SIZE
      requires msgTag == MSG_TAG_OVERLAP ==> payload.intValue > 0
      modifies this`sampleRate, this`freqLo, this`freqHi, this`fftSize, this`overlap,
               this`colorMapRange, this`colorMapContrast, this`textureBuf, this`rawBitmap
      ensures Valid()
      ensures SettingChanged(old(Settings()), old(textureBuf), old(rawBitmap), msgTag, payload)
    {
      if msgTag == MSG_TAG_SAMPLE_RATE {
        SetSampleRateResizing(payload.realValue);
      } else if msgTag == MSG_TAG_FFT_SIZE {
        SetFFTSize(payload.intValue);
      } else if msgTag == MSG_TAG_OVERLAP {
        SetOverlap(payload.intValue);
      } else if msgTag == MSG_TAG_COLOR_MAP_RANGE {
        SetColorMapRange(payload.realValue);
      } else if msgTag == MSG_TAG_COLOR_MAP_CONTRAST {
        SetColorMapContrast(payload.realValue);
      }
    }
  }

  /**
   * At 44.1 kHz with the default FFT size 1024 and 128 rows the texture buffer
   * holds 128 rows of 512 bins. At 48 kHz NumRows() is 139: the bitmap loop then
   * covers 139 rows of a 128-row buffer, and row 128, the first row past its
   * end, no longer fits.
   */
  lemma SampleRateChangeOutgrowsBuffer()
    ensures RowCount(44100.0, 1024, 128) == 128 && TextureSize(44100.0, 1024, 128) == 65536
    ensures RowCount(48000.0, 1024, 128) == 139
    ensures 65536 < 139 * BinCount(1024)
    ensures RowOf(128, 139) == 128 && !RowFits(65536, 128, BinCount(1024))
  {
    assert (48000.0 / 44100.0) * (1024.0 / 1024 as real) * 128 as real == 6144000.0 / 44100.0;
  }

  /**
   * The scenario of the finding, on the control as written: after
   * SetSampleRate(48000) the buffer keeps 65536 cells while NumRows() is 139.
   * The next bitmap update reads NumRows() * NumBins() cells, more than the
   * buffer holds, and the 129th spectrum (write index 128) goes to row 128,
   * which lies outside it.
   */
  method SampleRateChangeAsWritten() returns (bufferLength: int, rows: int, bins: int)
    ensures bufferLength == 65536 && rows == 139 && bins == 512
    ensures bufferLength < rows * bins
    ensures RowOf(128, rows) == 128 && !RowFits(bufferLength, RowOf(128, rows), bins)
  {
    SampleRateChangeOutgrowsBuffer();
    var control := new SpectrogramControl();
    control.SetSampleRateAsWritten(48000.0);
    bufferLength, rows, bins := |control.textureBuf|, control.NumRows(), control.NumBins();
  }

  /**
   * The control as written accepts a second sample-rate change while its buffer
   * is still the wrong size: going back to 44.1 kHz makes NumRows() 128 again,
   * and the 65536 cells kept from before fit once more.
   */
  method SampleRateChangeBackAsWritten() returns (bufferLength: int, rows: int, bins: int)
    ensures bufferLength == 65536 && rows == 128 && bins == 512
    ensures bufferLength == rows * bins
  {
    SampleRateChangeOutgrowsBuffer();
    var control := new SpectrogramControl();
    control.SetSampleRateAsWritten(48000.0);
    control.SetSampleRateAsWritten(44100.0);
    bufferLength, rows, bins := |control.textureBuf|, control.NumRows(), control.NumBins();
  }

  /** The same scenario with the corrected setter, SetSampleRateResizing: every row of the new count fits. */
  method SampleRateChangeCorrected() returns (bufferLength: int, rows: int, bins: int)
    ensures bufferLength == 139 * 512 && rows == 139 && bins == 512
    ensures forall row :: 0 <= row < rows ==> RowFits(bufferLength, row, bins)
  {
    SampleRateChangeOutgrowsBuffer();
    var control := new SpectrogramControl();
    control.SetSampleRateResizing(48000.0);
    bufferLength, rows, bins := |control.textureBuf|, control.NumRows(), control.NumBins();
    forall row | 0 <= row < rows
      ensures RowFits(bufferLength, row, bins)
    {
      RowBelowCountFits(rows, row, bins);
    }
  }
}
