# Spectrogram control and Visage showcase, modelled in Dafny

This project models two pieces of iPlug2.

**`ISpectrogramControl`** is an IGraphics control that shows a spectrogram. It keeps
the last `NumRows()` spectra in a flat texture buffer of `NumRows() * NumBins()`
cells, used as a ring of rows. Each incoming spectrum is processed in place:
- the bins are remapped to the chosen frequency scale, by interpolating between a
  lower bin and its masked neighbour;
- the amplitudes are normalised.

The processed spectrum is then copied into row `writeIndex++ % NumRows()`. The
buffer is converted into an RGBA bitmap with four bytes per cell.

Settings reach the control in two ways:
- tagged messages from the plug-in (`OnMsgFromDelegate`);
- a popup menu (`OnMouseDown` builds it; `OnPopupMenuSelection` applies the choice).

FFT-size and overlap choices from the menu are also sent to the processing side.

**The Visage showcase** is the example application window. The model covers:
- the layout of the overlay body (a quarter-size border on each side);
- the three keyboard shortcuts;
- the debug overlay's visibility toggle;
- the overlay's rule for hiding itself and asking for redraws.

The animation is abstracted to its current amount and two flags: whether it is
still targeting and whether it is still animating.

Files:
- `bits.dfy`: C++ `&` on naturals, and the proof that masking with `m - 1` is `% m` for a power of two `m`.
- `decimal_text.dfy`: `std::to_string` and `atoi` on integers, and their round trip.
- `spectrogram_spec.dfy`: value-level definitions of the control:
  - sizes (`NumBins`, `NumRows`, texture size);
  - the bin remap and amplitude scaling;
  - ring-row placement;
  - the RGBA layout of the bitmap.
- `spectrogram_menu.dfy`: the submenus with their checked items, the selection dispatch, and the round trips between them.
- `spectrogram_control.dfy`: the control as a class whose methods update its fields and the packet array in place, each proved against the definitions above.
- `showcase.dfy`: the showcase and overlay frames.
- `wrappers.dfy`: `Option`.

Floats are modelled as `real`. The computations the control delegates are
parameters of type `Numerics`:
- the frequency mapping `CalcXNorm`;
- the amplitude mapping `CalcYNorm`;
- `iplug::Lerp`;
- contrast/range followed by the colour map.

The one property the model needs from them is that `CalcXNorm` maps `[0, 1]`
into `[0, 1]`. That is what keeps `bin0` inside the spectrum. `NumRows()` is
computed exactly: `std::round` (halves away from zero) of
`sampleRate / 44100 * 1024 / fftSize * numRows`.

## Model

| member | source | states |
|---|---|---|
| Bits.BitAnd | IGraphics/Controls/ISpectrogramControl.h:368 | the bitwise and of two naturals is at most each operand |
| Bits.LowMaskIsModulo | IGraphics/Controls/ISpectrogramControl.h:368 | for a power of two m, `a & (m - 1)` equals `a % m` |
| DecimalText.IntToString | IGraphics/Controls/ISpectrogramControl.h:92 | `std::to_string` of an int: a non-empty string of digits without a leading zero, after a minus sign when negative |
| DecimalText.AtoiReadsDigits | IGraphics/Controls/ISpectrogramControl.h:128 | `atoi` of a run of digits ended by a non-digit or the end reads as the value of those digits |
| DecimalText.AtoiReadsSigned | IGraphics/Controls/ISpectrogramControl.h:128 | `atoi` after a `-` or `+` reads the following digits, negated after `-`; no digits read as 0 |
| DecimalText.AtoiSkipsSpace | IGraphics/Controls/ISpectrogramControl.h:128 | `atoi` ignores leading white space (the characters `isspace` accepts) |
| DecimalText.AtoiOfDecimal | IGraphics/Controls/ISpectrogramControl.h:128 | `atoi` reads the decimal text of a natural number back as that number |
| DecimalText.AtoiOfNegatedDecimal | IGraphics/Controls/ISpectrogramControl.h:128 | `atoi` reads `-` followed by the decimal text of n as -n |
| DecimalText.AtoiOfIntToString | IGraphics/Controls/ISpectrogramControl.h:92 | `atoi(to_string(n)) == n` for every int n, so a menu text is read back as the size it was made from |
| SpectrogramSpec.BinCount | IGraphics/Controls/ISpectrogramControl.h:437 | NumBins() is half the FFT size rounded down, so at most 2048 for any accepted FFT size |
| SpectrogramSpec.RoundHalfAway | IGraphics/Controls/ISpectrogramControl.h:429 | `std::round`: within one half of its argument, with halves rounded away from zero |
| SpectrogramSpec.RowCount | IGraphics/Controls/ISpectrogramControl.h:426-431 | NumRows() is non-negative for a non-negative sample rate and row count |
| SpectrogramSpec.TextureSize | IGraphics/Controls/ISpectrogramControl.h:384 | the texture buffer size is NumRows() * NumBins(), and it is non-negative |
| SpectrogramSpec.Zeros | IGraphics/Controls/ISpectrogramControl.h:393 | a buffer of the given length whose every cell is 0 |
| SpectrogramSpec.Truncate | IGraphics/Controls/ISpectrogramControl.h:365 | `static_cast<int>` rounds toward zero: within one of its argument, on the same side of zero |
| SpectrogramSpec.MappedBin | IGraphics/Controls/ISpectrogramControl.h:361-362 | the position bin i reads from lies in [0, numBins - 1] |
| SpectrogramSpec.LowerBin | IGraphics/Controls/ISpectrogramControl.h:365 | bin0 is a valid bin index, at most numBins - 1 |
| SpectrogramSpec.NeighbourBin | IGraphics/Controls/ISpectrogramControl.h:368 | `(bin0 + 1) & (numBins - 1)` is always below numBins |
| SpectrogramSpec.NeighbourBinWraps | IGraphics/Controls/ISpectrogramControl.h:368 | for a power-of-two bin count the neighbour is `(bin0 + 1) % numBins` |
| SpectrogramSpec.RemapKeepsOutside | IGraphics/Controls/ISpectrogramControl.h:359-371 | the descending remap loop never rewrites bin 0 and leaves every bin above its start untouched |
| SpectrogramSpec.ScaleAmplitudes | IGraphics/Controls/ISpectrogramControl.h:374-375 | CalcYNorm is applied to exactly the first numBins entries; the rest are unchanged |
| SpectrogramSpec.Processed | IGraphics/Controls/ISpectrogramControl.h:358-375 | a processed packet keeps its length; bin 0 is only amplitude-scaled; entries from numBins on are untouched |
| SpectrogramSpec.RowOf | IGraphics/Controls/ISpectrogramControl.h:378 | the row written is always below NumRows() |
| SpectrogramSpec.RoundRobinRows | IGraphics/Controls/ISpectrogramControl.h:378 | NumRows() consecutive writes land in distinct rows, and the next write lands on the first of them again |
| SpectrogramSpec.RoundRobinCovers | IGraphics/Controls/ISpectrogramControl.h:378 | any NumRows() consecutive writes reach every row |
| SpectrogramSpec.RowBelowCountFits | IGraphics/Controls/ISpectrogramControl.h:378-379 | every row below NumRows() lies inside a buffer of NumRows() * NumBins() cells |
| SpectrogramSpec.WriteRow | IGraphics/Controls/ISpectrogramControl.h:379 | `copy_n` into row r changes exactly cells [r * n, (r + 1) * n), copying the values in order; the length is unchanged |
| SpectrogramSpec.Clamp01 | IGraphics/Controls/ISpectrogramControl.h:341 | `std::clamp(x, 0, 1)`: the result is in [0, 1], equals x inside, and is the nearer end outside |
| SpectrogramSpec.ToByte | IGraphics/Controls/ISpectrogramControl.h:346-349 | storing a channel value 0..255 into a `uint8_t` keeps it unchanged |
| SpectrogramSpec.Rendered | IGraphics/Controls/ISpectrogramControl.h:337-351 | the bitmap holds four bytes per texture cell |
| SpectrogramSpec.PixelLayout | IGraphics/Controls/ISpectrogramControl.h:345-349 | pixel (x, y) of a w-by-h texture occupies bytes (y * w + x) * 4 + c, inside the bitmap, holding channel c of that cell's colour |
| SpectrogramSpec.CellBytes | IGraphics/Controls/ISpectrogramControl.h:345-349 | the four bytes of a cell are the red, green, blue and alpha channels of its colour |
| SpectrogramMenu.ScaleIndex | IGraphics/Controls/ISpectrogramControl.h:87 | `int(mFreqScale)` is a valid index of the Scale submenu |
| SpectrogramMenu.ScaleFromIndex | IGraphics/Controls/ISpectrogramControl.h:113 | `EFrequencyScale(idx)` inverts `int(scale)` on the submenu's indices |
| SpectrogramMenu.IndexOfText | IGraphics/Controls/ISpectrogramControl.h:92 | `CheckItemWithText` checks the first item with that text, and none when no item has it |
| SpectrogramMenu.OptionsMenu | IGraphics/Controls/ISpectrogramControl.h:85-94 | the menu has the five submenus in order; each checked index is a valid item; the FFT-size submenu has a checked item exactly when the FFT size is one of its texts |
| SpectrogramMenu.MenuActionFor | IGraphics/Controls/ISpectrogramControl.h:105-139 | each submenu title leads to exactly its own setter; no selection or an unknown title leads to none; the direction is Horizontal exactly for index 0; FFT size and overlap read from the text pass the setters' assertions |
| SpectrogramMenu.ScaleMenuRoundTrip | IGraphics/Controls/ISpectrogramControl.h:86-115 | picking the checked Scale item asks for the current scale |
| SpectrogramMenu.DirectionMenuRoundTrip | IGraphics/Controls/ISpectrogramControl.h:88-120 | picking the checked Direction item asks for the current direction |
| SpectrogramMenu.FftSizeItemsAreDecimal | IGraphics/Controls/ISpectrogramControl.h:91 | the FFT-size texts read back as the sizes 64..4096, and each of those sizes has its text in the menu |
| SpectrogramMenu.FftSizeMenuRoundTrip | IGraphics/Controls/ISpectrogramControl.h:91-131 | an item is checked exactly when the FFT size is one the menu offers, and picking it asks for that same size |
| SpectrogramMenu.OverlapMenuRoundTrip | IGraphics/Controls/ISpectrogramControl.h:93-136 | overlap 2 checks "2" and any other overlap checks "4"; picking the checked item asks for 2 or 4 respectively |
| SpectrogramMenu.OptionsMenuReselects | IGraphics/Controls/ISpectrogramControl.h:83-139 | in a freshly built menu the Scale, Direction, offered-FFT-size and 2-or-4 Overlap submenus have a checked item, the handler accepts it, and it asks for the current value |
| SpectrogramMenu.MenuBinCountIsPowerOfTwo | IGraphics/Controls/ISpectrogramControl.h:91 | every FFT size the menu offers gives a power-of-two bin count |
| SpectrogramMenu.MenuNeighbourBinWraps | IGraphics/Controls/ISpectrogramControl.h:368 | with a menu FFT size the neighbour mask is the modulo by NumBins() |
| Spectrogram.ActionForMessage | IGraphics/Controls/ISpectrogramControl.h:184-234 | spectrum data is taken exactly when enabled with tag kUpdateMessage; each settings tag leads only to its own setter; the window-type tag and unknown tags lead to nothing |
| Spectrogram.SpectraApplied | IGraphics/Controls/ISpectrogramControl.h:193-200 | the channel loop applies at most one spectrum, and exactly one when channel 0 is in the packet's range |
| Spectrogram.RemapBins | IGraphics/Controls/ISpectrogramControl.h:359-371 | the in-place loop leaves the packet equal to the descending remap of its old contents |
| Spectrogram.RemapBin | IGraphics/Controls/ISpectrogramControl.h:361-370 | one loop pass changes only bin i, to the interpolation of bin0 and its masked neighbour read from the partly remapped packet; the passes still to come (i - 1 down to 1) then finish the same remap |
| Spectrogram.ProcessPacket | IGraphics/Controls/ISpectrogramControl.h:358-375 | the packet is left in its processed form: remapped to the frequency scale, then amplitude-scaled |
| Spectrogram.ScaleAmplitudeBins | IGraphics/Controls/ISpectrogramControl.h:374-375 | the in-place transform equals the amplitude scaling of the old packet |
| Spectrogram.RenderBitmap | IGraphics/Controls/ISpectrogramControl.h:337-351 | the nested y/x loops produce exactly the rendered bitmap of the buffer |
| Spectrogram.RenderRow | IGraphics/Controls/ISpectrogramControl.h:338-350 | the x loop of one row gives the row's bytes their rendered values and leaves every byte of other rows unchanged |
| Spectrogram.PaintPixel | IGraphics/Controls/ISpectrogramControl.h:341-349 | the four bytes of one cell get their rendered values, and no other byte changes |
| Spectrogram.CopyRow | IGraphics/Controls/ISpectrogramControl.h:379 | the copy loop's result is the buffer with the row written |
| Spectrogram.SpectrogramControl.constructor | IGraphics/Controls/ISpectrogramControl.h:51-66 | the defaults are 44.1 kHz, Mel and MATLAB_jet, with range and contrast 0.5; the frequency range is first-bin to Nyquist; the buffer is sized and zeroed; the control is enabled with write index 0 |
| Spectrogram.SpectrogramControl.ResizeBuffers | IGraphics/Controls/ISpectrogramControl.h:382-389 | the buffer gets exactly NumRows() * NumBins() cells, all zero; the bitmap is resized as CreateBitmap does |
| Spectrogram.SpectrogramControl.ResetSpectrogramData | IGraphics/Controls/ISpectrogramControl.h:391-394 | every cell becomes 0 and the length stays |
| Spectrogram.SpectrogramControl.CreateBitmap | IGraphics/Controls/ISpectrogramControl.h:305-314 | when both dimensions are positive the bitmap becomes w * h * 4 bytes, keeping its leading bytes; otherwise it is left alone |
| Spectrogram.SpectrogramControl.SetFreqRange | IGraphics/Controls/ISpectrogramControl.h:266-270 | sets both frequency bounds |
| Spectrogram.SpectrogramControl.SetFFTSize | IGraphics/Controls/ISpectrogramControl.h:243-250 | demands 0 < fftSize <= 4096; NumBins() becomes fftSize / 2 <= 2048; the buffer is resized and all zero; no other setting changes |
| Spectrogram.SpectrogramControl.SetOverlap | IGraphics/Controls/ISpectrogramControl.h:252-257 | demands overlap > 0; the buffer keeps its length and is cleared; no other setting changes |
| Spectrogram.SpectrogramControl.SetFFTSizeAndOverlapFromControl | IGraphics/Controls/ISpectrogramControl.h:236-241 | both settings change, nothing else does, and the buffer is sized for them and zero |
| Spectrogram.SpectrogramControl.SetSampleRateAsWritten | IGraphics/Controls/ISpectrogramControl.h:259-264 | the source's SetSampleRate, callable whatever the buffer's length: the frequency range follows the new Nyquist frequency and the buffer is cleared at its old length |
| Spectrogram.SpectrogramControl.SetSampleRateResizing | IGraphics/Controls/ISpectrogramControl.h:259-264 | the source's SetSampleRate corrected to resize: same settings as the source's, and the buffer is resized for the new NumRows(), so the buffer invariant holds again |
| Spectrogram.SpectrogramControl.SetFreqScale | IGraphics/Controls/ISpectrogramControl.h:272-275 | sets the frequency scale only |
| Spectrogram.SpectrogramControl.SetDirection | IGraphics/Controls/ISpectrogramControl.h:283-286 | sets the direction only |
| Spectrogram.SpectrogramControl.SetColorMap | IGraphics/Controls/ISpectrogramControl.h:288-291 | selects the named colour map only |
| Spectrogram.SpectrogramControl.SetColorMapRange | IGraphics/Controls/ISpectrogramControl.h:293-296 | sets the colour-map range only |
| Spectrogram.SpectrogramControl.SetColorMapContrast | IGraphics/Controls/ISpectrogramControl.h:298-301 | sets the colour-map contrast only |
| Spectrogram.SpectrogramControl.UpdateSpectrogram | IGraphics/Controls/ISpectrogramControl.h:354-380 | the packet becomes its processed form; the write index goes up by one; row `old writeIndex % NumRows()` fits in the buffer and receives the first NumBins() processed values; no other cell changes |
| Spectrogram.SpectrogramControl.StoreSpectrum | IGraphics/Controls/ISpectrogramControl.h:377-379 | the write index goes up by one; row `old writeIndex % NumRows()` fits in the buffer and receives the values; no other cell changes |
| Spectrogram.SpectrogramControl.UpdateSpectrogramBitmap | IGraphics/Controls/ISpectrogramControl.h:316-352 | when both dimensions are positive the bitmap equals the rendered buffer; otherwise it is untouched; the buffer invariant still holds |
| Spectrogram.SpectrogramControl.OnMouseDown | IGraphics/Controls/ISpectrogramControl.h:83-97 | the menu is rebuilt from the current scale, direction, FFT size and overlap |
| Spectrogram.SpectrogramControl.OnPopupMenuSelection | IGraphics/Controls/ISpectrogramControl.h:105-139 | each selection changes only its own setting; FFT size and overlap are first sent to the processing side, once; other selections send nothing and leave the buffer and the bitmap alone |
| Spectrogram.SpectrogramControl.ApplyMenuAction | IGraphics/Controls/ISpectrogramControl.h:113-136 | each menu action runs only its own setter; FFT size and overlap are first sent to the processing side, once, and clear the buffer; other actions send nothing and leave the buffer and the bitmap alone |
| Spectrogram.SpectrogramControl.ReselectChecked | IGraphics/Controls/ISpectrogramControl.h:83-139 | opening the menu and picking the checked scale, direction, offered FFT size, or overlap 2 or 4 leaves every setting unchanged |
| Spectrogram.SpectrogramControl.ApplySenderData | IGraphics/Controls/ISpectrogramControl.h:188-203 | the channel loop updates the texture with the processed packet exactly when channel 0 is in range, and otherwise changes nothing |
| Spectrogram.SpectrogramControl.ApplySettingMessage | IGraphics/Controls/ISpectrogramControl.h:204-233 | each settings tag runs only its own setter; any other tag changes nothing; the colour-map tags and other tags leave the bitmap unchanged; the buffer invariant holds afterwards |
| Spectrogram.SpectrogramControl.OnMsgFromDelegate | IGraphics/Controls/ISpectrogramControl.h:184-234 | per tag: spectrum data writes one row (channel 0 only, while enabled); each settings tag changes only its own setting; window type and unknown tags change nothing; only the FFT-size, overlap and sample-rate tags touch the bitmap; the buffer invariant holds afterwards |
| Spectrogram.SampleRateChangeOutgrowsBuffer | IGraphics/Controls/ISpectrogramControl.h:426-431 | at 44.1 kHz with FFT size 1024 and 128 rows the buffer has 65536 cells; at 48 kHz NumRows() is 139, 139 rows of 512 exceed 65536 cells, and write index 128 goes to row 128, which does not fit |
| Spectrogram.SampleRateChangeAsWritten | IGraphics/Controls/ISpectrogramControl.h:259-264 | a default control after the source's SetSampleRate(48000) keeps 65536 cells with 139 rows of 512: the bitmap update covers more cells than the buffer holds, and the 129th spectrum (write index 128) goes to row 128, which does not fit |
| Spectrogram.SampleRateChangeBackAsWritten | IGraphics/Controls/ISpectrogramControl.h:259-264 | the source's SetSampleRate needs no correctly sized buffer: after 48 kHz then 44.1 kHz the 65536 cells kept all along match 128 rows of 512 again |
| Spectrogram.SampleRateChangeCorrected | IGraphics/Controls/ISpectrogramControl.h:259-264 | with the corrected setter `SetSampleRateResizing` every one of the 139 rows fits |
| VisageShowcase.Quarter | Examples/IPlugVisage/showcase.cpp:93-94 | C++ `/ 4` on int rounds toward zero |
| VisageShowcase.BodyBounds | Examples/IPlugVisage/showcase.cpp:92-97 | the borders on both sides are equal and together with the body make up the frame; for non-negative sizes each border is a quarter of the size rounded down |
| VisageShowcase.BodyInsideFrame | Examples/IPlugVisage/showcase.cpp:92-97 | for non-negative sizes the body lies inside the frame and is at least half of each dimension |
| VisageShowcase.ShortcutFor | Examples/IPlugVisage/showcase.cpp:164-183 | modifier+Shift+D toggles debug, modifier+Z undoes, modifier+Y redoes; every other key, including modifier+D without Shift, is not handled |
| VisageShowcase.UndoRedoIgnoreShift | Examples/IPlugVisage/showcase.cpp:173-180 | Shift does not change the outcome for any key other than D |
| VisageShowcase.Overlay.Draw | Examples/IPlugVisage/showcase.cpp:73-90 | the overlay hides exactly when the animation is not targeting and its amount is 0, and is otherwise left as it was; it asks for a redraw exactly while animating; the amount goes to the on-animate callback; the body drawn depends only on the overlay's size |
| VisageShowcase.Showcase.constructor | Examples/IPlugVisage/showcase.cpp:103-138 | the overlay is added hidden and the debug overlay starts hidden |
| VisageShowcase.Showcase.Resized | Examples/IPlugVisage/showcase.cpp:142-152 | the debug overlay, the examples and the overlay all get bounds (0, 0, width, height) |
| VisageShowcase.Showcase.ToggleDebug | Examples/IPlugVisage/showcase.cpp:160-162 | the debug overlay's visibility is negated |
| VisageShowcase.Showcase.ShowOverlay | Examples/IPlugVisage/showcase.cpp:112 | the examples' show-overlay callback makes the overlay visible |
| VisageShowcase.Showcase.KeyPress | Examples/IPlugVisage/showcase.cpp:164-183 | the key is reported handled exactly when it is a shortcut; it toggles debug or calls undo or redo once, as the shortcut says; an unhandled key changes nothing |
| VisageShowcase.DebugShortcutTwice | Examples/IPlugVisage/showcase.cpp:160-172 | pressing the debug shortcut twice is handled both times and restores the debug overlay's visibility |

## Left out

- Floating point: `CalcXNorm` with `HzToMel`/`MelToHz`, `CalcYNorm` with `SetDBRange`, `iplug::Lerp`, and `contrastRange` are parameters, not computed (`Numerics`). Float rounding and `float`/`double` conversions are not modelled. `NumRows()` is computed in exact reals.
- `Spectrogram.SpectrogramControl.OnMsgFromDelegate` adds requirements that the C++ code only meets by accident or via debug assertions:
  - the packet's channel offset is non-negative and the packet holds 4096 values;
  - NumRows() > 0 when a spectrum is applied (the source takes `% 0` otherwise);
  - the frequency mapping keeps [0, 1] inside [0, 1];
  - a received sample rate is non-negative.
- `Spectrogram.SpectrogramControl.UpdateSpectrogram` requires NumRows() > 0, because `% NumRows()` has no meaning otherwise. It also requires that the frequency mapping keeps [0, 1] inside [0, 1]. With other settings the C++ code reads bins at or above NumBins(): stale values still inside the 4096-value packet while `CalcXNorm < 4096 / (NumBins() - 1)` (about 8 at the default FFT size 1024, about 2 at 4096), and outside the packet beyond that.
- `Spectrogram.SpectrogramControl.constructor` requires a row count of at least 0 and 0 < fftSize <= 4096; the C++ constructor takes any FFT size. It does not model `SetDBRange(-90, 0)`, which only feeds the amplitude mapping.
- `Spectrogram.SpectrogramControl.OnMsgFromDelegate` handles `kMsgTagSampleRate` with the corrected setter `SetSampleRateResizing` (see Findings), which resizes the buffer. The C++ branch keeps the old buffer length, so the model's promise of a resized buffer and of the buffer invariant after that message is stronger than the source; the as-written behaviour is `SetSampleRateAsWritten`.
- The `Numerics` passed to the control are not derived from its settings (frequency scale and range, colour map, range, contrast); those settings are stored by the setters and read by nothing in the model. `MapsUnitInterval` is required of the mapping passed in rather than derived from freqLo = Nyquist / FFT size and freqHi = Nyquist, and `SetFreqRange` can set a range under which the C++ `CalcXNorm` leaves [0, 1].
- `Spectrogram.SpectrogramControl.ApplySettingMessage` handles `kMsgTagSampleRate` with the corrected setter `SetSampleRateResizing`, like `OnMsgFromDelegate`; the C++ branch keeps the old buffer length, so the promise of a resized buffer and of the buffer invariant after that tag is stronger than the source.
- `UPDATE_MESSAGE` is 0, the value of `ISender<>::kUpdateMessage`; the sender header that defines it is not part of this model.
- `mTextureBufWriteIndex` is a natural number. The wrap-around of the C++ `int` after 2^31 updates is not modelled.
- The bytes a bitmap resize adds are uninitialised in C++. The model fills them with 0.
- `atoi` is modelled on unbounded integers. Overflow of out-of-range text is not modelled; every menu text is in range.
- NanoVG texture handling is not modelled, because it consists of foreign graphics calls: `Draw`, `FreeTexture`, `nvgCreateImageRGBA`, `nvgUpdateImage`, and the rotated bitmap drawing.
- Cursor handling is not modelled, because it is float text formatting: `OnMouseOver`, `DrawCursorValues`.
- `SetDirty`, `IsDirty`, `OnResize` and `OnRescale` are not modelled separately. The last two only call `RezizeBuffers`, which is modelled as `ResizeBuffers`.
- Foreign calls are not modelled:
  - `IByteStream` decoding: the payload arrives already decoded;
  - `SendArbitraryMsgFromUI`: recorded as a list of sent messages;
  - `IColorMapList` (`SetColorMap` records the name, and `GetColor` is part of the colour parameter);
  - the colour-map submenu: passed in as built;
  - `CreatePopupMenu`.
- Showcase widget wiring is not modelled:
  - the post effects, blur and shader uniforms;
  - the palette and theme values, and the rounding value;
  - the drawing calls;
  - `DebugInfo`;
  - the screenshot callback;
  - the `visage::Animation` internals;
  - what `undo()`/`redo()` do, which is only counted.

## Findings

| source | as written | input that shows it | evidently intended | confidence | as-written member | corrected member |
|---|---|---|---|---|---|---|
| IGraphics/Controls/ISpectrogramControl.h:259-264 | `SetSampleRate` stores the new rate, which changes `NumRows()`, but does not resize the texture buffer | default control (FFT size 1024, 128 rows) at 44.1 kHz, then `SetSampleRate(48000)`: the buffer (and the bitmap, 262144 bytes) stays sized for 128 rows of 512 = 65536 cells while `NumRows()` is 139. The next `Draw` runs `UpdateSpectrogramBitmap`, which reads 139 * 512 = 71168 cells from the buffer and writes 284672 bytes into the bitmap, past both ends; and the 129th spectrum (write index 128) is copied by `UpdateSpectrogram` into row 128, cells 65536..66047, past the end | resize the buffers when the sample rate changes, as `SetFFTSize` and `SetOverlap` do | high; not executed | Spectrogram.SampleRateChangeAsWritten | Spectrogram.SpectrogramControl.SetSampleRateResizing |
