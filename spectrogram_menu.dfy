/**
 * The spectrogram's right-click menu: the submenus OnMouseDown builds with the
 * current setting checked, and the setting OnPopupMenuSelection derives from
 * the item the user picks. Picking the checked item asks for the setting the
 * control already has.
 */
module SpectrogramMenu {
  import opened Wrappers
  import opened Bits
  import opened DecimalText
  import opened SpectrogramSpec

  /** A submenu: its title, its item texts and the item shown checked, if any. */
  datatype Submenu = Submenu(title: string, items: seq<string>, checked: Option<nat>)

  /** What the popup reports: the title of the submenu picked from, the item's index and its text. */
  datatype Selection = Selection(rootTitle: string, chosenIdx: int, chosenText: string)

  /** The setter a selection leads to. */
  datatype MenuAction =
    | ChooseScale(scale: FrequencyScale)
    | ChooseDirection(direction: Direction)
    | ChooseColorMap(name: string)
    | ChooseFftSize(fftSize: int)
    | ChooseOverlap(overlap: int)
    | NoMenuAction

  const SCALE_ITEMS: seq<string> := ["Linear", "Log", "Mel"]
  const DIRECTION_ITEMS: seq<string> := ["Horizontal", "Vertical"]
  const FFT_SIZE_ITEMS: seq<string> := ["64", "128", "256", "512", "1024", "2048", "4096"]
  const OVERLAP_ITEMS: seq<string> := ["2", "4"]

  /** The FFT sizes the menu offers, in the order of its items. */
  const MENU_FFT_SIZES: seq<int> := [64, 128, 256, 512, 1024, 2048, 4096]

  predicate IsMenuFftSize(n: int) {
    n in MENU_FFT_SIZES
  }

  /** int(mFreqScale): the enumerator's position in its declaration. */
  function ScaleIndex(s: FrequencyScale): (i: nat)
    ensures i < |SCALE_ITEMS|
  {
    match s
    case Linear => 0
    case Log => 1
    case Mel => 2
  }

  /** EFrequencyScale(idx), for the three indices the Scale submenu offers. */
  function ScaleFromIndex(i: int): (s: FrequencyScale)
    requires 0 <= i < |SCALE_ITEMS|
    ensures ScaleIndex(s) == i
  {
    if i == 0 then Linear else if i == 1 then Log else Mel
  }

  /** Index of the first item whose text is `text` (IPopupMenu::CheckItemWithText's search). */
  function IndexOfText(items: seq<string>, text: string): (k: Option<nat>)
    ensures k.Some? ==> k.value < |items| && items[k.value] == text
    ensures k.Some? ==> forall j :: 0 <= j < k.value ==> items[j] != text
    ensures k.None? ==> text !in items
  {
    if items == [] then None
    else if items[0] == text then Some(0)
    else match IndexOfText(items[1..], text)
      case None => None
      case Some(j) => Some(j + 1)
  }

  function ScaleMenu(scale: FrequencyScale): (m: Submenu)
    ensures m.title == "Scale" && m.checked.Some? && m.checked.value < |m.items|
  {
    Submenu("Scale", SCALE_ITEMS, Some(ScaleIndex(scale)))
  }

  function DirectionMenu(direction: Direction): (m: Submenu)
    ensures m.title == "Direction" && m.checked.Some? && m.checked.value < |m.items|
  {
    Submenu("Direction", DIRECTION_ITEMS, Some(if direction == Horizontal then 0 else 1))
  }

  function FftSizeMenu(fftSize: int): (m: Submenu)
    ensures m.title == "FFTSize" && (m.checked.Some? ==> m.checked.value < |m.items|)
    ensures m.checked.Some? <==> IntToString(fftSize) in FFT_SIZE_ITEMS
  {
    Submenu("FFTSize", FFT_SIZE_ITEMS, IndexOfText(FFT_SIZE_ITEMS, IntToString(fftSize)))
  }

  function OverlapMenu(overlap: int): (m: Submenu)
    ensures m.title == "Overlap" && m.checked.Some? && m.checked.value < |m.items|
  {
    Submenu("Overlap", OVERLAP_ITEMS, Some(if overlap == 2 then 0 else 1))
  }

  /**
   * The menu OnMouseDown builds, in order. The colour-map submenu comes from the
   * colour-map list and is passed in as built there.
   */
  function OptionsMenu(scale: FrequencyScale, direction: Direction, colorMapMenu: Submenu,
                       fftSize: int, overlap: int): (m: seq<Submenu>)
    ensures |m| == 5
    ensures forall i :: 0 <= i < 5 && i != 2 ==> m[i].checked.Some? ==> m[i].checked.value < |m[i].items|
    ensures m[0].title == "Scale" && m[1].title == "Direction" && m[3].title == "FFTSize" && m[4].title == "Overlap"
    ensures m[2] == colorMapMenu
    ensures m[3].checked.Some? <==> IntToString(fftSize) in FFT_SIZE_ITEMS
  {
    [ScaleMenu(scale), DirectionMenu(direction), colorMapMenu, FftSizeMenu(fftSize), OverlapMenu(overlap)]
  }

  /**
   * What the source requires of a selection it acts on: a Scale index names an
   * enumerator, and the FFT size and overlap read from the item text pass the
   * setters' assertions.
   */
  predicate SelectionAccepted(sel: Option<Selection>) {
    sel.Some? ==>
      (sel.value.rootTitle == "Scale" ==> 0 <= sel.value.chosenIdx < |SCALE_ITEMS|) &&
      (sel.value.rootTitle == "FFTSize" ==> 0 < Atoi(sel.value.chosenText) <= MAX_FFT_SIZE) &&
      (sel.value.rootTitle == "Overlap" ==> Atoi(sel.value.chosenText) > 0)
  }

  /** OnPopupMenuSelection's decision: which setter the picked item leads to, with which value. */
  function MenuActionFor(sel: Option<Selection>): (a: MenuAction)
    requires SelectionAccepted(sel)
    ensures sel.None? ==> a == NoMenuAction
    ensures a.ChooseScale? <==> sel.Some? && sel.value.rootTitle == "Scale"
    ensures a.ChooseDirection? <==> sel.Some? && sel.value.rootTitle == "Direction"
    ensures a.ChooseColorMap? <==> sel.Some? && sel.value.rootTitle == "ColorMap"
    ensures a.ChooseFftSize? <==> sel.Some? && sel.value.rootTitle == "FFTSize"
    ensures a.ChooseOverlap? <==> sel.Some? && sel.value.rootTitle == "Overlap"
    ensures a.ChooseScale? ==> ScaleIndex(a.scale) == sel.value.chosenIdx
    ensures a.ChooseDirection? ==> (a.direction == Horizontal <==> sel.value.chosenIdx == 0)
    ensures a.ChooseFftSize? ==> 0 < a.fftSize <= MAX_FFT_SIZE
    ensures a.ChooseOverlap? ==> a.overlap > 0
  {
    match sel
    case None => NoMenuAction
    case Some(Selection(title, idx, text)) =>
      if title == "Scale" then ChooseScale(ScaleFromIndex(idx))
      else if title == "Direction" then ChooseDirection(if idx == 0 then Horizontal else Vertical)
      else if title == "ColorMap" then ChooseColorMap(text)
      else if title == "FFTSize" then ChooseFftSize(Atoi(text))
      else if title == "Overlap" then ChooseOverlap(Atoi(text))
      else NoMenuAction
  }

  /** Picking the item a submenu shows checked, as the popup reports it. */
  function PickChecked(m: Submenu): (sel: Option<Selection>)
    requires m.checked.Some? && m.checked.value < |m.items|
  {
    Some(Selection(m.title, m.checked.value, m.items[m.checked.value]))
  }

  /** The checked scale item leads back to the current scale. */
  lemma ScaleMenuRoundTrip(scale: FrequencyScale)
    ensures SelectionAccepted(PickChecked(ScaleMenu(scale)))
    ensures MenuActionFor(PickChecked(ScaleMenu(scale))) == ChooseScale(scale)
  {
    var a := MenuActionFor(PickChecked(ScaleMenu(scale)));
    assert ScaleIndex(a.scale) == ScaleIndex(scale);
  }

  /** The checked direction item leads back to the current direction. */
  lemma DirectionMenuRoundTrip(direction: Direction)
    ensures SelectionAccepted(PickChecked(DirectionMenu(direction)))
    ensures MenuActionFor(PickChecked(DirectionMenu(direction))) == ChooseDirection(direction)
  {
  }

  /** The decimal texts of the FFT sizes below 1000 that the menu offers. */
  lemma ShortFftSizeTexts()
    ensures IntToString(64) == "64" && IntToString(128) == "128"
    ensures IntToString(256) == "256" && IntToString(512) == "512"
  {
    assert IntToString(128) == "128";
    assert IntToString(256) == "256";
  }

  /** The decimal texts of the FFT sizes above 1000 that the menu offers. */
  lemma LongFftSizeTexts()
    ensures IntToString(1024) == "1024" && IntToString(2048) == "2048" && IntToString(4096) == "4096"
  {
    assert Decimal(102) == "102";
    assert IntToString(1024) == "1024";
    assert Decimal(204) == "204";
    assert IntToString(2048) == "2048";
    assert Decimal(409) == "409";
  }

  /** Where a size the menu offers sits in its list. */
  lemma MenuFftSizePosition(n: int) returns (k: nat)
    requires IsMenuFftSize(n)
    ensures k < |MENU_FFT_SIZES| && MENU_FFT_SIZES[k] == n
    ensures 0 < n <= MAX_FFT_SIZE
  {
    if n == 64 {
      k := 0;
    } else if n == 128 {
      k := 1;
    } else if n == 256 {
      k := 2;
    } else if n == 512 {
      k := 3;
    } else if n == 1024 {
      k := 4;
    } else if n == 2048 {
      k := 5;
    } else {
      k := 6;
    }
  }

  /** The menu's FFT-size texts are the decimal texts of the menu's FFT sizes, in order. */
  lemma FftSizeItemsAreDecimal()
    ensures forall k :: 0 <= k < |FFT_SIZE_ITEMS| ==> IsMenuFftSize(Atoi(FFT_SIZE_ITEMS[k]))
    ensures forall n :: IsMenuFftSize(n) ==> IntToString(n) in FFT_SIZE_ITEMS
  {
    ShortFftSizeTexts();
    LongFftSizeTexts();
    forall k | 0 <= k < |FFT_SIZE_ITEMS|
      ensures IsMenuFftSize(Atoi(FFT_SIZE_ITEMS[k]))
      ensures IntToString(MENU_FFT_SIZES[k]) in FFT_SIZE_ITEMS
    {
      AtoiOfIntToString(MENU_FFT_SIZES[k]);
    }
    forall n | IsMenuFftSize(n)
      ensures IntToString(n) in FFT_SIZE_ITEMS
    {
      var k := MenuFftSizePosition(n);
    }
  }

  /**
   * For an FFT size the menu offers, exactly one item is checked, and picking
   * it asks for that same size. For any other size no item is checked.
   */
  lemma FftSizeMenuRoundTrip(fftSize: int)
    ensures FftSizeMenu(fftSize).checked.Some? <==> IsMenuFftSize(fftSize)
    ensures IsMenuFftSize(fftSize) ==>
      SelectionAccepted(PickChecked(FftSizeMenu(fftSize))) &&
      MenuActionFor(PickChecked(FftSizeMenu(fftSize))) == ChooseFftSize(fftSize)
  {
    FftSizeItemsAreDecimal();
    var m := FftSizeMenu(fftSize);
    if m.checked.Some? {
      var text := FFT_SIZE_ITEMS[m.checked.value];
      assert text == IntToString(fftSize);
      AtoiOfIntToString(fftSize);
      assert IsMenuFftSize(Atoi(text));
      var _ := MenuFftSizePosition(fftSize);
    }
  }

  /**
   * For overlap 2 or 4 the checked item leads back to the current overlap. Any
   * other overlap shows "4" checked, and picking it changes the overlap to 4.
   */
  lemma OverlapMenuRoundTrip(overlap: int)
    ensures SelectionAccepted(PickChecked(OverlapMenu(overlap)))
    ensures MenuActionFor(PickChecked(OverlapMenu(overlap))) ==
      ChooseOverlap(if overlap == 2 then 2 else 4)
  {
    assert OVERLAP_ITEMS[0] == IntToString(2) && OVERLAP_ITEMS[1] == IntToString(4);
    AtoiOfIntToString(2);
    AtoiOfIntToString(4);
  }

  /**
   * In the menu OnMouseDown builds, picking the checked item of the Scale,
   * Direction, FFT-size (for a size the menu offers) or Overlap (for 2 or 4)
   * submenu asks for the setting the menu was built from.
   */
  lemma OptionsMenuReselects(scale: FrequencyScale, direction: Direction, colorMapMenu: Submenu,
                             fftSize: int, overlap: int, which: nat)
    requires which == 0 || which == 1 || (which == 3 && IsMenuFftSize(fftSize)) ||
             (which == 4 && (overlap == 2 || overlap == 4))
    ensures var m := OptionsMenu(scale, direction, colorMapMenu, fftSize, overlap)[which];
      && m.checked.Some? && m.checked.value < |m.items|
      && SelectionAccepted(PickChecked(m))
      && MenuActionFor(PickChecked(m)) ==
           if which == 0 then ChooseScale(scale)
           else if which == 1 then ChooseDirection(direction)
           else if which == 3 then ChooseFftSize(fftSize)
           else ChooseOverlap(overlap)
  {
    if which == 0 {
      ScaleMenuRoundTrip(scale);
    } else if which == 1 {
      DirectionMenuRoundTrip(direction);
    } else if which == 3 {
      FftSizeMenuRoundTrip(fftSize);
    } else {
      OverlapMenuRoundTrip(overlap);
    }
  }

  /** Every FFT size the menu offers has a power-of-two bin count, so the neighbour mask is a modulo. */
  lemma MenuBinCountIsPowerOfTwo(fftSize: int)
    requires IsMenuFftSize(fftSize)
    ensures IsPowerOfTwo(BinCount(fftSize))
  {
    assert IsPowerOfTwo(1) && IsPowerOfTwo(2) && IsPowerOfTwo(4) && IsPowerOfTwo(8);
    assert IsPowerOfTwo(16) && IsPowerOfTwo(32) && IsPowerOfTwo(64) && IsPowerOfTwo(128);
    assert IsPowerOfTwo(256) && IsPowerOfTwo(512) && IsPowerOfTwo(1024) && IsPowerOfTwo(2048);
  }

  /** With a menu FFT size, `(bin0 + 1) & (numBins - 1)` is `(bin0 + 1) % numBins`. */
  lemma MenuNeighbourBinWraps(fftSize: int, bin0: nat)
    requires IsMenuFftSize(fftSize)
    ensures NeighbourBin(bin0, BinCount(fftSize)) == (bin0 + 1) % BinCount(fftSize)
  {
    MenuBinCountIsPowerOfTwo(fftSize);
    NeighbourBinWraps(bin0, BinCount(fftSize));
  }
}
