/**
 * The Visage showcase window: the layout of its overlay body, the shortcut
 * keys it handles, the debug overlay's visibility, and the overlay's
 * auto-hide and redraw rule. The overlay animation is abstracted to the three
 * things the rule reads from it: the current amount, whether it is still
 * heading for a target, and whether it is still animating.
 */
module VisageShowcase {

  /** A rectangle: left, top, width, height, in integer pixels. */
  datatype Bounds = Bounds(x: int, y: int, width: int, height: int)

  /** C++ `a / 4` on int: the quotient rounded toward zero. */
  function Quarter(a: int): (q: int)
    ensures a >= 0 ==> 0 <= 4 * q <= a < 4 * q + 4
    ensures a < 0 ==> a <= 4 * q <= 0 && 4 * q - 4 < a
  {
    if a >= 0 then a / 4 else -((-a) / 4)
  }

  /**
   * Overlay::getBodyBounds: a border of a quarter of each dimension (rounded
   * toward zero) on every side; the body takes what is left.
   */
  function BodyBounds(width: int, height: int): (b: Bounds)
    ensures b.x + b.width + b.x == width && b.y + b.height + b.y == height
    ensures width >= 0 ==> 0 <= 4 * b.x <= width < 4 * b.x + 4
    ensures height >= 0 ==> 0 <= 4 * b.y <= height < 4 * b.y + 4
  {
    var xBorder := Quarter(width);
    var yBorder := Quarter(height);
    Bounds(xBorder, yBorder, width - 2 * xBorder, height - 2 * yBorder)
  }

  /** The body of a frame with non-negative sizes lies inside the frame, centred. */
  lemma BodyInsideFrame(width: int, height: int)
    requires width >= 0 && height >= 0
    ensures var b := BodyBounds(width, height);
      && 0 <= b.x && b.x + b.width <= width && b.width >= width / 2
      && 0 <= b.y && b.y + b.height <= height && b.height >= height / 2
  {
  }

  /** The keys the showcase reacts to; every other key code is OtherKey. */
  datatype KeyCode = KeyD | KeyZ | KeyY | OtherKey

  /** A key event: its code and the state of the main modifier (Cmd or Ctrl) and Shift. */
  datatype KeyEvent = KeyEvent(code: KeyCode, mainModifier: bool, shiftDown: bool)

  datatype Shortcut = ToggleDebugShortcut | UndoShortcut | RedoShortcut | NoShortcut

  /**
   * Showcase::keyPress's decision: main modifier + Shift + D toggles the debug
   * overlay; main modifier + Z undoes and main modifier + Y redoes, whatever
   * Shift is; nothing else is handled.
   */
  function ShortcutFor(key: KeyEvent): (s: Shortcut)
    ensures s == ToggleDebugShortcut <==> key.code == KeyD && key.mainModifier && key.shiftDown
    ensures s == UndoShortcut <==> key.code == KeyZ && key.mainModifier
    ensures s == RedoShortcut <==> key.code == KeyY && key.mainModifier
    ensures s == NoShortcut <==> !key.mainModifier || key.code == OtherKey || (key.code == KeyD && !key.shiftDown)
  {
    if !key.mainModifier then NoShortcut
    else match key.code
      case KeyD => if key.shiftDown then ToggleDebugShortcut else NoShortcut
      case KeyZ => UndoShortcut
      case KeyY => RedoShortcut
      case OtherKey => NoShortcut
  }

  /** Z and Y shortcuts do not look at Shift. */
  lemma UndoRedoIgnoreShift(key: KeyEvent)
    requires key.code != KeyD
    ensures ShortcutFor(key) == ShortcutFor(key.(shiftDown := !key.shiftDown))
  {
  }

  /** The overlay drawn over the examples while it fades in or out. */
  class Overlay {
    var visible: bool
    var bounds: Bounds
    /** How many times the overlay has asked to be redrawn. */
    var redrawRequests: nat
    /** The amounts passed to the on-animate callback, in order. */
    var animated: seq<real>

    constructor ()
      ensures visible && bounds == Bounds(0, 0, 0, 0) && redrawRequests == 0 && animated == []
    {
      visible := true;
      bounds := Bounds(0, 0, 0, 0);
      redrawRequests := 0;
      animated := [];
    }

    method SetVisible(visible: bool)
      modifies this`visible
      ensures this.visible == visible
    {
      this.visible := visible;
    }

    method SetBounds(bounds: Bounds)
      modifies this`bounds
      ensures this.bounds == bounds
    {
      this.bounds := bounds;
    }

    /**
     * Overlay::draw, with `amount` the value the animation update returned and
     * `targeting`/`animating` its state after the update. The overlay hides
     * itself once the animation has settled at 0, passes the amount to the
     * on-animate callback, and asks for another frame while animating. The
     * body it draws depends only on its own size.
     */
    method Draw(amount: real, targeting: bool, animating: bool) returns (body: Bounds)
      modifies this`visible, this`redrawRequests, this`animated
      ensures visible == (old(visible) && (targeting || amount != 0.0))
      ensures redrawRequests == old(redrawRequests) + (if animating then 1 else 0)
      ensures animated == old(animated) + [amount]
      ensures body == BodyBounds(bounds.width, bounds.height)
    {
      if !targeting && amount == 0.0 {
        SetVisible(false);
      }
      body := BodyBounds(bounds.width, bounds.height);
      animated := animated + [amount];
      if animating {
        redrawRequests := redrawRequests + 1;
      }
    }
  }

  /** The showcase frame: the examples, the overlay above them and the debug overlay on top. */
  class Showcase {
    const overlay: Overlay
    /** The frame's size, as the toolkit's width() and height() report it; the model never changes it. */
    var width: int
    var height: int
    var examplesBounds: Bounds
    var debugBounds: Bounds
    var debugVisible: bool
    /** Calls to the frame's undo() and redo(), which the model does not follow further. */
    var undoCalls: nat
    var redoCalls: nat

    /** Showcase::Showcase: the overlay is added hidden and the debug overlay starts hidden. */
    constructor ()
      ensures !debugVisible && !overlay.visible && fresh(overlay)
      ensures undoCalls == 0 && redoCalls == 0
    {
      width, height := 0, 0;
      examplesBounds, debugBounds := Bounds(0, 0, 0, 0), Bounds(0, 0, 0, 0);
      debugVisible := false;
      undoCalls, redoCalls := 0, 0;
      var o := new Overlay();
      o.SetVisible(false);
      overlay := o;
    }

    /** Showcase::resized: the debug overlay, the examples and the overlay all cover the whole frame. */
    method Resized()
      modifies this`debugBounds, this`examplesBounds, overlay`bounds
      ensures debugBounds == Bounds(0, 0, width, height)
      ensures examplesBounds == debugBounds && overlay.bounds == debugBounds
    {
      var mainWidth := width;
      debugBounds := Bounds(0, 0, mainWidth, height);
      examplesBounds := Bounds(0, 0, mainWidth, height);
      overlay.SetBounds(examplesBounds);
    }

    /** Showcase::toggleDebug: the debug overlay's visibility flips. */
    method ToggleDebug()
      modifies this`debugVisible
      ensures debugVisible == !old(debugVisible)
    {
      debugVisible := !debugVisible;
    }

    /** The examples' show-overlay callback. */
    method ShowOverlay()
      modifies overlay`visible
      ensures overlay.visible
    {
      overlay.SetVisible(true);
    }

    /**
     * Showcase::keyPress: performs the key's shortcut, if it has one, and
     * reports whether the key was handled. An unhandled key changes nothing.
     */
    method KeyPress(key: KeyEvent) returns (handled: bool)
      modifies this`debugVisible, this`undoCalls, this`redoCalls
      ensures handled <==> ShortcutFor(key) != NoShortcut
      ensures debugVisible == (old(debugVisible) != (ShortcutFor(key) == ToggleDebugShortcut))
      ensures undoCalls == old(undoCalls) + (if ShortcutFor(key) == UndoShortcut then 1 else 0)
      ensures redoCalls == old(redoCalls) + (if ShortcutFor(key) == RedoShortcut then 1 else 0)
    {
      var modifier := key.mainModifier;
      if key.code == KeyD && modifier && key.shiftDown {
        ToggleDebug();
        return true;
      } else if key.code == KeyZ && modifier {
        undoCalls := undoCalls + 1;
        return true;
      } else if key.code == KeyY && modifier {
        redoCalls := redoCalls + 1;
        return true;
      }
      return false;
    }
  }

  /** Pressing the debug shortcut twice leaves the debug overlay as it was. */
  method DebugShortcutTwice(frame: Showcase) returns (first: bool, second: bool)
    modifies frame`debugVisible, frame`undoCalls, frame`redoCalls
    ensures first && second && frame.debugVisible == old(frame.debugVisible)
  {
    var key := KeyEvent(KeyD, true, true);
    first := frame.KeyPress(key);
    second := frame.KeyPress(key);
  }
}
