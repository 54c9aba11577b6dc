/**
 * The pieces of the Android framework that the status-bar plugin reads and writes,
 * reduced to plain state: the window's layout flags, the decor view's system-UI
 * visibility word, the status-bar colour, whether the status bar has a light
 * appearance, and the display-cutout mode; the visible frame of a view; the layout height of a view.
 *
 * A 32-bit flags word is the set of positions of its one bits: `|` is union,
 * `& ~m` is difference and `(w & m) == 0` is disjointness. Bit constants are
 * distinct single bits chosen for the model, except the two literals the plugin
 * itself writes (0x04000000 is bit 26, 0x80000000 is bit 31) and
 * SYSTEM_UI_FLAG_VISIBLE, which is the empty mask.
 */
module Android {

  /** Java `int`. */
  const INT_MIN: int := -0x8000_0000
  const INT_MAX: int := 0x7FFF_FFFF
  const TWO_32: int := 0x1_0000_0000
  type Int32 = x: int | INT_MIN <= x <= INT_MAX

  /** The `int` that Java's two's-complement arithmetic yields for the exact value `x`. */
  function Wrap32(x: int): (r: Int32)
    ensures INT_MIN <= x <= INT_MAX ==> r == x
    ensures (x - r) % TWO_32 == 0
  {
    var k := (x - INT_MIN) % TWO_32;
    assert x - (k + INT_MIN) == ((x - INT_MIN) / TWO_32) * TWO_32;
    k + INT_MIN
  }

  // Build.VERSION_CODES
  const KITKAT: int := 19
  const LOLLIPOP: int := 21
  const M: int := 23
  const O: int := 26
  const P: int := 28

  /** A bit position of a Java `int`, and a flags word as the set of its one bits. */
  type Bit = i: int | 0 <= i < 32
  type Word = set<Bit>

  // WindowManager.LayoutParams flags: bits of the window flags word
  const FLAG_FULLSCREEN: Word := {0}
  const FLAG_FORCE_NOT_FULLSCREEN: Word := {1}
  /** 0x04000000 */
  const FLAG_TRANSLUCENT_STATUS: Word := {26}
  /** 0x80000000 */
  const FLAG_DRAWS_SYSTEM_BAR_BACKGROUNDS: Word := {31}

  // View system-UI flags: bits of the decor view's visibility word
  const SYSTEM_UI_FLAG_VISIBLE: Word := {}
  const SYSTEM_UI_FLAG_FULLSCREEN: Word := {2}
  const SYSTEM_UI_FLAG_LAYOUT_STABLE: Word := {8}
  const SYSTEM_UI_FLAG_LAYOUT_FULLSCREEN: Word := {10}
  const SYSTEM_UI_FLAG_LIGHT_STATUS_BAR: Word := {13}

  /** Color.TRANSPARENT */
  const TRANSPARENT: Int32 := 0

  /** The window's layoutInDisplayCutoutMode, as far as the plugin sets it. */
  datatype CutoutMode = CutoutDefault | CutoutShortEdges

  /** The parts of a window the plugin reads and writes, as one value. */
  datatype WindowState = WindowState(
    flags: Word,
    uiVis: Word,
    statusBarColor: Int32,
    lightStatusBars: bool,
    cutoutMode: CutoutMode)

  /**
   * An activity's window with its decor view. `sdk` is Build.VERSION.SDK_INT, fixed
   * for the life of the process.
   */
  class Window {
    const sdk: int
    var flags: Word
    var uiVis: Word
    var statusBarColor: Int32
    var lightStatusBars: bool
    var cutoutMode: CutoutMode

    function Snapshot(): (s: WindowState)
      reads this
    {
      WindowState(flags, uiVis, statusBarColor, lightStatusBars, cutoutMode)
    }

    /** The window is in state `s`. */
    predicate Is(s: WindowState)
      reads this
    {
      Snapshot() == s
    }

    constructor (sdk: int, initial: WindowState)
      ensures this.sdk == sdk && Is(initial)
    {
      this.sdk := sdk;
      flags := initial.flags;
      uiVis := initial.uiVis;
      statusBarColor := initial.statusBarColor;
      lightStatusBars := initial.lightStatusBars;
      cutoutMode := initial.cutoutMode;
    }

    /** Window.addFlags */
    method AddFlags(mask: Word)
      modifies this
      ensures flags == old(flags) + mask && uiVis == old(uiVis) && statusBarColor == old(statusBarColor)
        && lightStatusBars == old(lightStatusBars) && cutoutMode == old(cutoutMode)
    {
      flags := flags + mask;
    }

    /** Window.clearFlags */
    method ClearFlags(mask: Word)
      modifies this
      ensures flags == old(flags) - mask && uiVis == old(uiVis) && statusBarColor == old(statusBarColor)
        && lightStatusBars == old(lightStatusBars) && cutoutMode == old(cutoutMode)
    {
      flags := flags - mask;
    }

    /** View.setSystemUiVisibility on the decor view */
    method SetSystemUiVisibility(visibility: Word)
      modifies this
      ensures flags == old(flags) && uiVis == visibility && statusBarColor == old(statusBarColor)
        && lightStatusBars == old(lightStatusBars) && cutoutMode == old(cutoutMode)
    {
      uiVis := visibility;
    }

    /** Window.setStatusBarColor */
    method SetStatusBarColor(color: Int32)
      modifies this
      ensures flags == old(flags) && uiVis == old(uiVis) && statusBarColor == color
        && lightStatusBars == old(lightStatusBars) && cutoutMode == old(cutoutMode)
    {
      statusBarColor := color;
    }

    /** WindowInsetsControllerCompat.setAppearanceLightStatusBars on this window */
    method SetAppearanceLightStatusBars(light: bool)
      modifies this
      ensures flags == old(flags) && uiVis == old(uiVis) && statusBarColor == old(statusBarColor)
        && lightStatusBars == light && cutoutMode == old(cutoutMode)
    {
      lightStatusBars := light;
    }

    /** Assigning LAYOUT_IN_DISPLAY_CUTOUT_MODE_SHORT_EDGES to the window attributes */
    method SetCutoutModeShortEdges()
      modifies this
      ensures flags == old(flags) && uiVis == old(uiVis) && statusBarColor == old(statusBarColor)
        && lightStatusBars == old(lightStatusBars) && cutoutMode == CutoutShortEdges
    {
      cutoutMode := CutoutShortEdges;
    }
  }

  /** The vertical extent of a view's visible display frame (android.graphics.Rect). */
  datatype Rect = Rect(top: Int32, bottom: Int32)

  /** A view whose layout parameters carry a height, and the layouts requested of it. */
  class View {
    var height: Int32
    var layoutRequests: nat

    constructor (height: Int32)
      ensures this.height == height && layoutRequests == 0
    {
      this.height := height;
      layoutRequests := 0;
    }

    /**
     * Writing `params.height` and handing the parameters back with setLayoutParams.
     * `layoutRequests` counts explicit requestLayout calls only, so the layout request
     * that setLayoutParams makes on its own is not counted here.
     */
    method SetLayoutHeight(h: Int32)
      modifies this
      ensures height == h && layoutRequests == old(layoutRequests)
    {
      height := h;
    }

    /** View.requestLayout */
    method RequestLayout()
      modifies this
      ensures height == old(height) && layoutRequests == old(layoutRequests) + 1
    {
      layoutRequests := layoutRequests + 1;
    }
  }

  /** The android.R.id.content view group; `firstChild` is getChildAt(0), possibly absent. */
  class ContentView {
    const firstChild: View?

    constructor (firstChild: View?)
      ensures this.firstChild == firstChild
    {
      this.firstChild := firstChild;
    }
  }

  /** An activity, reduced to its window. */
  class Activity {
    const window: Window

    constructor (window: Window)
      ensures this.window == window
    {
      this.window := window;
    }
  }
}
