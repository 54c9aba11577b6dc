/**
 * The status-bar plugin: a command handler that the hybrid-app shell calls with an
 * action name, and that shows, hides, overlays, colours and styles the status bar by
 * changing bits of the window flags word and of the decor view's system-UI
 * visibility word.
 *
 * The effect of each command on the window is a function from one WindowState to the
 * next; the plugin's methods change the Window object exactly as those functions say.
 */
module StatusBarPlugin {
  import opened Wrappers
  import opened Android
  import opened ActivityAssist

  // ---------------------------------------------------------------------------
  // Bit-level vocabulary

  /** `w2` is `w` with every bit of `mask` set and every other bit as it was. */
  predicate SetsExactly(w: Word, w2: Word, mask: Word)
  {
    mask <= w2 && w2 - mask == w - mask
  }

  /** `w2` is `w` with every bit of `mask` clear and every other bit as it was. */
  predicate ClearsExactly(w: Word, w2: Word, mask: Word)
  {
    w2 * mask == {} && w2 - mask == w - mask
  }

  /** The system-UI flags that hide the status bar. */
  const HIDE_UI_FLAGS: Word := SYSTEM_UI_FLAG_LAYOUT_FULLSCREEN + SYSTEM_UI_FLAG_FULLSCREEN

  /** The window flags that overlays the web view with on KitKat. */
  const KITKAT_OVERLAY_FLAGS: Word := FLAG_FULLSCREEN + FLAG_TRANSLUCENT_STATUS

  /** The window flags a background colour change clears and sets. */
  const BACKGROUND_FLAGS: Word := FLAG_TRANSLUCENT_STATUS + FLAG_DRAWS_SYSTEM_BAR_BACKGROUNDS

  /** The reading of `_ready`: the status bar is visible iff FLAG_FULLSCREEN is clear. */
  predicate StatusBarVisible(flags: Word)
  {
    flags * FLAG_FULLSCREEN == {}
  }

  // ---------------------------------------------------------------------------
  // Style names

  /** Java's toLowerCase on one character, for the ASCII letters. */
  function LowerChar(c: char): char
  {
    if 'A' <= c <= 'Z' then (c as int + 32) as char else c
  }

  /** The upper-case partner of a lower-case ASCII letter; other characters are their own. */
  function UpperChar(c: char): char
  {
    if 'a' <= c <= 'z' then (c as int - 32) as char else c
  }

  /**
   * String.toLowerCase, character by character: the result has no upper-case letter,
   * and `s` spells it with some of its letters in upper case.
   */
  function ToLower(s: string): (lower: string)
    ensures IsLower(lower)
    ensures SpellsIgnoringCase(s, lower)
  {
    seq(|s|, i requires 0 <= i < |s| => LowerChar(s[i]))
  }

  /** `t` has no upper-case ASCII letter. */
  predicate IsLower(t: string)
  {
    forall c :: c in t ==> !('A' <= c <= 'Z')
  }

  /** `s` spells the lower-case word `t` with any of its letters in upper case. */
  predicate SpellsIgnoringCase(s: string, t: string)
  {
    |s| == |t| && forall i :: 0 <= i < |s| ==> s[i] == t[i] || s[i] == UpperChar(t[i])
  }

  lemma LowerCharMatches(x: char, y: char)
    requires !('A' <= y <= 'Z')
    ensures LowerChar(x) == y <==> x == y || x == UpperChar(y)
  {
  }

  /** Lower-casing `s` gives the lower-case word `t` exactly when `s` spells `t` in any case. */
  lemma {:induction false} ToLowerEqualsIff(s: string, t: string)
    requires IsLower(t)
    ensures ToLower(s) == t <==> SpellsIgnoringCase(s, t)
  {
    if |s| == |t| {
      forall i | 0 <= i < |s|
        ensures ToLower(s)[i] == t[i] <==> s[i] == t[i] || s[i] == UpperChar(t[i])
      {
        assert t[i] in t;
        LowerCharMatches(s[i], t[i]);
      }
      if SpellsIgnoringCase(s, t) {
        assert forall i :: 0 <= i < |s| ==> ToLower(s)[i] == t[i];
      }
    }
  }

  const DARK_CONTENT_STYLES: seq<string> := ["default", "darkcontent"]
  const LIGHT_CONTENT_STYLES: seq<string> := ["lightcontent", "blacktranslucent", "blackopaque"]

  datatype StyleClass = DarkContent | LightContent | InvalidStyle

  /**
   * The list a style name belongs to after lower-casing: dark content (dark icons on a
   * light bar), light content, or neither.
   */
  function Classify(style: string): (c: StyleClass)
    ensures c == DarkContent <==> exists d :: d in DARK_CONTENT_STYLES && SpellsIgnoringCase(style, d)
    ensures c == LightContent <==> exists d :: d in LIGHT_CONTENT_STYLES && SpellsIgnoringCase(style, d)
    ensures c == InvalidStyle <==>
      forall d :: d in DARK_CONTENT_STYLES + LIGHT_CONTENT_STYLES ==> !SpellsIgnoringCase(style, d)
  {
    InListIgnoringCase(style, DARK_CONTENT_STYLES);
    InListIgnoringCase(style, LIGHT_CONTENT_STYLES);
    var lower := ToLower(style);
    if lower in DARK_CONTENT_STYLES then DarkContent
    else if lower in LIGHT_CONTENT_STYLES then LightContent
    else InvalidStyle
  }

  /** The lower-cased `style` is in `words` exactly when `style` spells one of them in any case. */
  lemma {:induction false} InListIgnoringCase(style: string, words: seq<string>)
    requires forall d :: d in words ==> IsLower(d)
    ensures ToLower(style) in words <==> exists d :: d in words && SpellsIgnoringCase(style, d)
  {
    forall d | d in words
      ensures ToLower(style) == d <==> SpellsIgnoringCase(style, d)
    {
      ToLowerEqualsIff(style, d);
    }
  }

  // ---------------------------------------------------------------------------
  // The effect of each command on the window

  /** `show`: clears FLAG_FULLSCREEN and, from KitKat on, both hiding system-UI flags. */
  function Shown(s: WindowState, sdk: int): (t: WindowState)
    ensures ClearsExactly(s.flags, t.flags, FLAG_FULLSCREEN)
    ensures sdk >= KITKAT ==> ClearsExactly(s.uiVis, t.uiVis, HIDE_UI_FLAGS)
    ensures sdk < KITKAT ==> t.uiVis == s.uiVis
    ensures t.(flags := s.flags, uiVis := s.uiVis) == s
  {
    var uiOptions := if sdk >= KITKAT
      then s.uiVis - SYSTEM_UI_FLAG_LAYOUT_FULLSCREEN - SYSTEM_UI_FLAG_FULLSCREEN
      else s.uiVis;
    s.(flags := s.flags - FLAG_FULLSCREEN, uiVis := uiOptions)
  }

  /** `hide`: sets FLAG_FULLSCREEN and, from KitKat on, both hiding system-UI flags. */
  function Hidden(s: WindowState, sdk: int): (t: WindowState)
    ensures SetsExactly(s.flags, t.flags, FLAG_FULLSCREEN)
    ensures sdk >= KITKAT ==> SetsExactly(s.uiVis, t.uiVis, HIDE_UI_FLAGS)
    ensures sdk < KITKAT ==> t.uiVis == s.uiVis
    ensures t.(flags := s.flags, uiVis := s.uiVis) == s
  {
    var uiOptions := if sdk >= KITKAT
      then s.uiVis + SYSTEM_UI_FLAG_LAYOUT_FULLSCREEN + SYSTEM_UI_FLAG_FULLSCREEN
      else s.uiVis;
    s.(flags := s.flags + FLAG_FULLSCREEN, uiVis := uiOptions)
  }

  /**
   * setStatusBarTransparent: from Lollipop on, REPLACES the visibility word (layout
   * stable plus either layout-full-screen or nothing else) and, when transparent,
   * makes the bar colour transparent.
   */
  function Transparent(s: WindowState, sdk: int, transparent: bool): (t: WindowState)
    ensures sdk < LOLLIPOP ==> t == s
    ensures sdk >= LOLLIPOP && transparent ==>
      t.uiVis == SYSTEM_UI_FLAG_LAYOUT_STABLE + SYSTEM_UI_FLAG_LAYOUT_FULLSCREEN && t.statusBarColor == TRANSPARENT
    ensures sdk >= LOLLIPOP && !transparent ==>
      t.uiVis == SYSTEM_UI_FLAG_LAYOUT_STABLE + SYSTEM_UI_FLAG_VISIBLE && t.statusBarColor == s.statusBarColor
    ensures t.(uiVis := s.uiVis, statusBarColor := s.statusBarColor) == s
  {
    if sdk < LOLLIPOP then s
    else if transparent then
      s.(uiVis := SYSTEM_UI_FLAG_LAYOUT_STABLE + SYSTEM_UI_FLAG_LAYOUT_FULLSCREEN, statusBarColor := TRANSPARENT)
    else
      s.(uiVis := SYSTEM_UI_FLAG_LAYOUT_STABLE + SYSTEM_UI_FLAG_VISIBLE)
  }

  /**
   * setStatusBarStyle: from Marshmallow on, a non-null, non-empty style of the dark
   * (light) content list turns the light-status-bar appearance on (off): below Oreo
   * by setting (clearing) SYSTEM_UI_FLAG_LIGHT_STATUS_BAR alone, from Oreo on through
   * the insets controller. Any other style, or an older SDK, changes nothing.
   */
  function Styled(s: WindowState, sdk: int, style: Option<string>): (t: WindowState)
    ensures sdk < M || style.None? || style.value == [] ==> t == s
    ensures style.Some? && Classify(style.value) == InvalidStyle ==> t == s
    ensures sdk >= M && style.Some? && Classify(style.value) == DarkContent ==>
      (sdk < O ==> SetsExactly(s.uiVis, t.uiVis, SYSTEM_UI_FLAG_LIGHT_STATUS_BAR) && t.lightStatusBars == s.lightStatusBars)
      && (sdk >= O ==> t.uiVis == s.uiVis && t.lightStatusBars)
    ensures sdk >= M && style.Some? && Classify(style.value) == LightContent ==>
      (sdk < O ==> ClearsExactly(s.uiVis, t.uiVis, SYSTEM_UI_FLAG_LIGHT_STATUS_BAR) && t.lightStatusBars == s.lightStatusBars)
      && (sdk >= O ==> t.uiVis == s.uiVis && !t.lightStatusBars)
    ensures t.(uiVis := s.uiVis, lightStatusBars := s.lightStatusBars) == s
  {
    if sdk < M || style.None? || style.value == [] then s
    else
      match Classify(style.value)
      case DarkContent =>
        var s1 := if sdk < O then s.(uiVis := s.uiVis + SYSTEM_UI_FLAG_LIGHT_STATUS_BAR) else s;
        if sdk >= O then s1.(lightStatusBars := true) else s1
      case LightContent =>
        var s1 := if sdk < O then s.(uiVis := s.uiVis - SYSTEM_UI_FLAG_LIGHT_STATUS_BAR) else s;
        if sdk >= O then s1.(lightStatusBars := false) else s1
      case InvalidStyle => s
  }

  /**
   * setStatusBarBackgroundColor: from Lollipop on, for a non-null, non-empty colour
   * string, clears the translucent-status flag, sets the draws-system-bar-backgrounds
   * flag, and takes the parsed colour when the string parses.
   */
  function BackgroundColored(s: WindowState, sdk: int, colorPref: Option<string>, parseColor: string -> Option<Int32>): (t: WindowState)
    ensures sdk < LOLLIPOP || colorPref.None? || colorPref.value == [] ==> t == s
    ensures sdk >= LOLLIPOP && colorPref.Some? && colorPref.value != [] ==>
      && t.flags * FLAG_TRANSLUCENT_STATUS == {}
      && FLAG_DRAWS_SYSTEM_BAR_BACKGROUNDS <= t.flags
      && t.flags - BACKGROUND_FLAGS == s.flags - BACKGROUND_FLAGS
      && (parseColor(colorPref.value).Some? ==> t.statusBarColor == parseColor(colorPref.value).value)
      && (parseColor(colorPref.value).None? ==> t.statusBarColor == s.statusBarColor)
    ensures t.(flags := s.flags, statusBarColor := s.statusBarColor) == s
  {
    if sdk < LOLLIPOP || colorPref.None? || colorPref.value == [] then s
    else
      var s1 := s.(flags := s.flags - FLAG_TRANSLUCENT_STATUS + FLAG_DRAWS_SYSTEM_BAR_BACKGROUNDS);
      match parseColor(colorPref.value)
      case Some(color) => s1.(statusBarColor := color)
      case None => s1
  }

  /**
   * The window part of overlaysWebView once `overlay` is decided: transparent bar from
   * Lollipop on; on KitKat both KITKAT_OVERLAY_FLAGS set or both cleared; else nothing.
   */
  function Overlaid(s: WindowState, sdk: int, overlay: bool): (t: WindowState)
    ensures sdk >= LOLLIPOP ==> t == Transparent(s, sdk, overlay)
    ensures sdk == KITKAT && overlay ==> SetsExactly(s.flags, t.flags, KITKAT_OVERLAY_FLAGS)
    ensures sdk == KITKAT && !overlay ==> ClearsExactly(s.flags, t.flags, KITKAT_OVERLAY_FLAGS)
    ensures sdk == KITKAT ==> t.(flags := s.flags) == s
    ensures sdk < LOLLIPOP && sdk != KITKAT ==> t == s
  {
    if sdk >= LOLLIPOP then Transparent(s, sdk, overlay)
    else if sdk == KITKAT then
      if overlay then s.(flags := s.flags + FLAG_FULLSCREEN + FLAG_TRANSLUCENT_STATUS)
      else s.(flags := s.flags - FLAG_FULLSCREEN - FLAG_TRANSLUCENT_STATUS)
    else s
  }

  // ---------------------------------------------------------------------------
  // Start-up

  /** The configuration preferences read at start-up; None is an absent preference. */
  datatype Preferences = Preferences(
    overlaysWebView: Option<bool>,
    isOutSystemsNow: Option<bool>,
    backgroundColor: Option<string>,
    style: Option<string>)

  const DEFAULT_BACKGROUND_COLOR: string := "#000000"
  const DEFAULT_STYLE: string := "lightcontent"

  /** The branch initialize takes: overlay the web view, or colour and style the bar. */
  function OverlayAtStartup(prefs: Preferences, sdk: int): (overlay: bool)
    ensures overlay <==> prefs.isOutSystemsNow == Some(true) || (prefs.overlaysWebView == Some(true) && sdk >= KITKAT)
  {
    prefs.isOutSystemsNow.GetOr(false) || (prefs.overlaysWebView.GetOr(false) && sdk >= KITKAT)
  }

  /**
   * The part of the start-up runnable that runs in every case: clear
   * FLAG_FORCE_NOT_FULLSCREEN and, from Pie on, let the content use the cutout area.
   */
  function Prepared(s: WindowState, sdk: int): (t: WindowState)
    ensures ClearsExactly(s.flags, t.flags, FLAG_FORCE_NOT_FULLSCREEN)
    ensures t.cutoutMode == if sdk >= P then CutoutShortEdges else s.cutoutMode
    ensures t.(flags := s.flags, cutoutMode := s.cutoutMode) == s
  {
    var s1 := s.(flags := s.flags - FLAG_FORCE_NOT_FULLSCREEN);
    if sdk >= P then s1.(cutoutMode := CutoutShortEdges) else s1
  }

  /**
   * The window part of the start-up overlay branch: a transparent bar from Lollipop
   * on, the translucent-status flag on KitKat, nothing before.
   */
  function OverlaidAtStartup(s: WindowState, sdk: int, overlay: bool): (t: WindowState)
    ensures sdk >= LOLLIPOP ==> t == Transparent(s, sdk, overlay)
    ensures sdk == KITKAT ==> SetsExactly(s.flags, t.flags, FLAG_TRANSLUCENT_STATUS) && t.(flags := s.flags) == s
    ensures sdk < LOLLIPOP && sdk != KITKAT ==> t == s
  {
    if sdk >= LOLLIPOP then Transparent(s, sdk, overlay)
    else if sdk == KITKAT then s.(flags := s.flags + FLAG_TRANSLUCENT_STATUS)
    else s
  }

  /** The window after initialize's posted runnable has run. */
  function Initialized(s: WindowState, sdk: int, prefs: Preferences, parseColor: string -> Option<Int32>): (t: WindowState)
    ensures t.flags * FLAG_FORCE_NOT_FULLSCREEN == {}
    ensures t.cutoutMode == if sdk >= P then CutoutShortEdges else s.cutoutMode
    ensures OverlayAtStartup(prefs, sdk) ==> t.statusBarColor == s.statusBarColor || t.statusBarColor == TRANSPARENT
    ensures OverlayAtStartup(prefs, sdk) ==> t.lightStatusBars == s.lightStatusBars
    ensures !OverlayAtStartup(prefs, sdk) ==> t.uiVis - SYSTEM_UI_FLAG_LIGHT_STATUS_BAR == s.uiVis - SYSTEM_UI_FLAG_LIGHT_STATUS_BAR
  {
    var s1 := Prepared(s, sdk);
    if OverlayAtStartup(prefs, sdk) then OverlaidAtStartup(s1, sdk, prefs.overlaysWebView.GetOr(false))
    else
      var s2 := BackgroundColored(s1, sdk, Some(prefs.backgroundColor.GetOr(DEFAULT_BACKGROUND_COLOR)), parseColor);
      Styled(s2, sdk, Some(prefs.style.GetOr(DEFAULT_STYLE)))
  }

  // ---------------------------------------------------------------------------
  // The command interface

  const ACTIONS: set<string> := {
    "_ready", "isStatusBarOverlayingWebview", "show", "hide", "backgroundColorByHexString",
    "getStatusBarHeight", "overlaysWebView", "styleDefault", "styleLightContent",
    "styleDarkContent", "styleBlackTranslucent", "styleBlackOpaque" }

  /** The style name each style action applies. */
  function ActionStyle(action: string): (style: Option<string>)
    ensures style.Some? <==>
      action in {"styleDefault", "styleLightContent", "styleDarkContent", "styleBlackTranslucent", "styleBlackOpaque"}
    ensures style.Some? ==> action in ACTIONS
    ensures action == "styleDefault" ==> style == Some("default")
    ensures action == "styleLightContent" ==> style == Some("lightcontent")
    ensures action == "styleDarkContent" ==> style == Some("darkcontent")
    ensures action == "styleBlackTranslucent" ==> style == Some("blacktranslucent")
    ensures action == "styleBlackOpaque" ==> style == Some("blackopaque")
  {
    if action == "styleDefault" then Some("default")
    else if action == "styleLightContent" then Some("lightcontent")
    else if action == "styleDarkContent" then Some("darkcontent")
    else if action == "styleBlackTranslucent" then Some("blacktranslucent")
    else if action == "styleBlackOpaque" then Some("blackopaque")
    else None
  }

  datatype Status = OK | ERROR
  datatype ResultValue = NoValue | BoolValue(b: bool) | IntValue(n: Int32)
  datatype PluginResult = PluginResult(status: Status, value: ResultValue)

  /**
   * The arguments as the actions read them: the first argument as a string and as a
   * boolean; None where reading it would fail.
   */
  datatype Args = Args(string0: Option<string>, boolean0: Option<bool>)

  /** The listener registrations an assistant call makes for `content`, when not yet applied. */
  function Registered(content: ContentView?): (r: seq<View>)
    ensures |r| <= 1
    ensures r != [] <==> content != null && content.firstChild != null
    ensures r != [] ==> r == [content.firstChild]
  {
    if content == null || content.firstChild == null then [] else [content.firstChild]
  }

  class StatusBar {
    var doOverlay: bool
    const activity: Activity
    /** The assistant class's static instance field. */
    const slot: InstanceSlot
    /** Color.parseColor; None where it throws. */
    const parseColor: string -> Option<Int32>

    /** After initialize: the assistant exists, keeps its invariant and assists this activity. */
    ghost predicate Valid()
      reads this, slot, slot.instance
    {
      slot.instance != null && slot.instance.Valid() && slot.instance.activity == activity
    }

    constructor (activity: Activity, slot: InstanceSlot, parseColor: string -> Option<Int32>)
      ensures this.activity == activity && this.slot == slot && this.parseColor == parseColor
      ensures !doOverlay
    {
      this.activity := activity;
      this.slot := slot;
      this.parseColor := parseColor;
      doOverlay := false;
    }

    /** The runnable `show` posts. */
    method Show()
      modifies activity.window
      ensures activity.window.Is(Shown(old(activity.window.Snapshot()), activity.window.sdk))
    {
      var window := activity.window;
      if window.sdk >= KITKAT {
        var uiOptions := window.uiVis;
        uiOptions := uiOptions - SYSTEM_UI_FLAG_LAYOUT_FULLSCREEN;
        uiOptions := uiOptions - SYSTEM_UI_FLAG_FULLSCREEN;
        window.SetSystemUiVisibility(uiOptions);
      }
      window.ClearFlags(FLAG_FULLSCREEN);
    }

    /** The runnable `hide` posts. */
    method Hide()
      modifies activity.window
      ensures activity.window.Is(Hidden(old(activity.window.Snapshot()), activity.window.sdk))
    {
      var window := activity.window;
      if window.sdk >= KITKAT {
        var uiOptions := window.uiVis + SYSTEM_UI_FLAG_LAYOUT_FULLSCREEN + SYSTEM_UI_FLAG_FULLSCREEN;
        window.SetSystemUiVisibility(uiOptions);
      }
      window.AddFlags(FLAG_FULLSCREEN);
    }

    /** setStatusBarBackgroundColor; None is a null colour string. */
    method SetStatusBarBackgroundColor(colorPref: Option<string>)
      modifies activity.window
      ensures activity.window.Is(BackgroundColored(old(activity.window.Snapshot()), activity.window.sdk, colorPref, parseColor))
    {
      var window := activity.window;
      if window.sdk >= 21 {
        if colorPref.Some? && colorPref.value != [] {
          window.ClearFlags(FLAG_TRANSLUCENT_STATUS);
          window.AddFlags(FLAG_DRAWS_SYSTEM_BAR_BACKGROUNDS);
          match parseColor(colorPref.value) {
            case Some(color) =>
              window.SetStatusBarColor(color);
            case None =>
          }
        }
      }
    }

    /** setStatusBarTransparent */
    method SetStatusBarTransparent(transparent: bool)
      modifies activity.window
      ensures activity.window.Is(Transparent(old(activity.window.Snapshot()), activity.window.sdk, transparent))
    {
      var window := activity.window;
      if window.sdk >= 21 {
        if transparent {
          window.SetSystemUiVisibility(SYSTEM_UI_FLAG_LAYOUT_STABLE + SYSTEM_UI_FLAG_LAYOUT_FULLSCREEN);
          window.SetStatusBarColor(TRANSPARENT);
        } else {
          window.SetSystemUiVisibility(SYSTEM_UI_FLAG_LAYOUT_STABLE + SYSTEM_UI_FLAG_VISIBLE);
        }
      }
    }

    /** setStatusBarStyle; None is a null style. */
    method SetStatusBarStyle(style: Option<string>)
      modifies activity.window
      ensures activity.window.Is(Styled(old(activity.window.Snapshot()), activity.window.sdk, style))
    {
      var window := activity.window;
      if window.sdk >= M {
        if style.Some? && style.value != [] {
          var uiOptions := window.uiVis;
          var lower := ToLower(style.value);
          if lower in DARK_CONTENT_STYLES {
            if window.sdk < O {
              window.SetSystemUiVisibility(uiOptions + SYSTEM_UI_FLAG_LIGHT_STATUS_BAR);
            }
            if window.sdk >= O {
              window.SetAppearanceLightStatusBars(true);
            }
            return;
          }
          if lower in LIGHT_CONTENT_STYLES {
            if window.sdk < O {
              window.SetSystemUiVisibility(uiOptions - SYSTEM_UI_FLAG_LIGHT_STATUS_BAR);
            }
            if window.sdk >= O {
              window.SetAppearanceLightStatusBars(false);
            }
            return;
          }
        }
      }
    }

    /**
     * The runnable overlaysWebView posts: take the boolean argument when it reads,
     * apply the overlay to the window, and attach the resize listener when overlaying.
     */
    method OverlaysWebView(overlay: Option<bool>, content: ContentView?)
      requires Valid()
      modifies this`doOverlay, activity.window, slot, slot.instance
      ensures Valid() && slot.instance == old(slot.instance)
      ensures doOverlay == overlay.GetOr(old(doOverlay))
      ensures activity.window.Is(Overlaid(old(activity.window.Snapshot()), activity.window.sdk, doOverlay))
      ensures slot.instance.listeners
        == if doOverlay && !old(slot.instance.layoutListenerApplied) then Registered(content) else old(slot.instance.listeners)
      ensures slot.instance.usableHeightPrevious == old(slot.instance.usableHeightPrevious)
    {
      var window := activity.window;
      match overlay {
        case Some(b) =>
          doOverlay := b;
        case None =>
      }
      if window.sdk >= LOLLIPOP {
        SetStatusBarTransparent(doOverlay);
      } else if window.sdk == KITKAT {
        if doOverlay {
          window.AddFlags(FLAG_FULLSCREEN);
          window.AddFlags(FLAG_TRANSLUCENT_STATUS);
        } else {
          window.ClearFlags(FLAG_FULLSCREEN);
          window.ClearFlags(FLAG_TRANSLUCENT_STATUS);
        }
      }
      if doOverlay {
        AttachResizeListener(content);
      }
    }

    /** ActivityAssistant.getInstance().applyGlobalLayoutListener(), with the content view found then. */
    method AttachResizeListener(content: ContentView?)
      requires Valid()
      modifies slot, slot.instance
      ensures Valid() && slot.instance == old(slot.instance)
      ensures slot.instance.usableHeightPrevious == old(slot.instance.usableHeightPrevious)
      ensures slot.instance.listeners
        == if old(slot.instance.layoutListenerApplied) then old(slot.instance.listeners) else Registered(content)
    {
      var assistant := slot.GetInstance();
      assistant.ApplyGlobalLayoutListener(content);
    }

    /**
     * initialize: make the assistant assist this activity, then run the start-up
     * runnable it posts.
     */
    method Initialize(prefs: Preferences, content: ContentView?)
      requires slot.instance != null ==> slot.instance.Valid()
      modifies this`doOverlay, activity.window, slot, slot.instance
      ensures Valid()
      ensures old(slot.instance) != null ==> slot.instance == old(slot.instance)
      ensures doOverlay == prefs.overlaysWebView.GetOr(false)
      ensures activity.window.Is(Initialized(old(activity.window.Snapshot()), activity.window.sdk, prefs, parseColor))
      ensures old(slot.instance) == null ==> slot.instance.usableHeightPrevious == 0
      ensures old(slot.instance) != null ==> slot.instance.usableHeightPrevious == old(slot.instance.usableHeightPrevious)
      ensures slot.instance.listeners
        == if !OverlayAtStartup(prefs, activity.window.sdk) then (if old(slot.instance) == null then [] else old(slot.instance.listeners))
           else if old(slot.instance) == null || !old(slot.instance.layoutListenerApplied) then Registered(content)
           else old(slot.instance.listeners)
    {
      var assistant := slot.GetInstance();
      assistant.AssistActivity(activity);
      StartUp(prefs, content);
    }

    /**
     * The runnable initialize posts: read the overlay preference, clear
     * FLAG_FORCE_NOT_FULLSCREEN, allow the display cutout from Pie on, and either
     * overlay the web view (and attach the resize listener) or apply the configured
     * background colour and style.
     */
    method StartUp(prefs: Preferences, content: ContentView?)
      requires Valid()
      modifies this`doOverlay, activity.window, slot, slot.instance
      ensures Valid() && slot.instance == old(slot.instance)
      ensures doOverlay == prefs.overlaysWebView.GetOr(false)
      ensures activity.window.Is(Initialized(old(activity.window.Snapshot()), activity.window.sdk, prefs, parseColor))
      ensures slot.instance.usableHeightPrevious == old(slot.instance.usableHeightPrevious)
      ensures slot.instance.listeners
        == if OverlayAtStartup(prefs, activity.window.sdk) && !old(slot.instance.layoutListenerApplied)
           then Registered(content) else old(slot.instance.listeners)
    {
      doOverlay := prefs.overlaysWebView.GetOr(false);
      var window := activity.window;
      ghost var s0 := window.Snapshot();
      window.ClearFlags(FLAG_FORCE_NOT_FULLSCREEN);
      if window.sdk >= P {
        window.SetCutoutModeShortEdges();
      }
      assert window.Is(Prepared(s0, window.sdk));
      var isOutSystemsNow := prefs.isOutSystemsNow.GetOr(false);
      if isOutSystemsNow || (doOverlay && window.sdk >= KITKAT) {
        if window.sdk >= LOLLIPOP {
          SetStatusBarTransparent(doOverlay);
        } else if window.sdk == KITKAT {
          window.AddFlags(FLAG_TRANSLUCENT_STATUS);
        }
        AttachResizeListener(content);
      } else {
        SetStatusBarBackgroundColor(Some(prefs.backgroundColor.GetOr(DEFAULT_BACKGROUND_COLOR)));
        SetStatusBarStyle(Some(prefs.style.GetOr(DEFAULT_STYLE)));
      }
    }

    /**
     * execute: dispatches on the action name and answers whether the action was
     * valid, together with the result it sends back, if any. Posted runnables run at
     * once; `statusBarHeight` is what getStatusBarHeight reports and `content` is the
     * content view the resize listener would be attached to.
     */
    method Execute(action: string, args: Args, statusBarHeight: Int32, content: ContentView?)
      returns (valid: bool, sent: Option<PluginResult>)
      requires Valid()
      modifies this`doOverlay, activity.window, slot, slot.instance
      ensures Valid() && slot.instance == old(slot.instance)
      ensures valid == if action == "overlaysWebView" && activity.window.sdk < KITKAT then !old(doOverlay) else action in ACTIONS
      ensures action !in ACTIONS ==> sent == None && activity.window.Is(old(activity.window.Snapshot()))
      ensures action != "overlaysWebView" || activity.window.sdk < KITKAT ==>
        doOverlay == old(doOverlay) && unchanged(slot.instance)
      ensures action == "_ready" ==>
        sent == Some(PluginResult(OK, BoolValue(StatusBarVisible(old(activity.window.flags)))))
        && activity.window.Is(old(activity.window.Snapshot()))
      ensures action == "isStatusBarOverlayingWebview" ==>
        sent == Some(PluginResult(OK, BoolValue(old(doOverlay) && StatusBarVisible(old(activity.window.flags)))))
        && activity.window.Is(old(activity.window.Snapshot()))
      ensures action == "show" ==>
        sent == Some(PluginResult(OK, NoValue))
        && activity.window.Is(Shown(old(activity.window.Snapshot()), activity.window.sdk))
      ensures action == "hide" ==>
        sent == Some(PluginResult(OK, NoValue))
        && activity.window.Is(Hidden(old(activity.window.Snapshot()), activity.window.sdk))
      ensures action == "backgroundColorByHexString" ==>
        sent == None
        && activity.window.Is(if args.string0.None? then old(activity.window.Snapshot())
           else BackgroundColored(old(activity.window.Snapshot()), activity.window.sdk, args.string0, parseColor))
      ensures action == "getStatusBarHeight" ==>
        sent == Some(PluginResult(OK, IntValue(statusBarHeight)))
        && activity.window.Is(old(activity.window.Snapshot()))
      ensures action == "overlaysWebView" && activity.window.sdk >= KITKAT ==>
        sent == None
        && doOverlay == args.boolean0.GetOr(old(doOverlay))
        && activity.window.Is(Overlaid(old(activity.window.Snapshot()), activity.window.sdk, doOverlay))
        && slot.instance.usableHeightPrevious == old(slot.instance.usableHeightPrevious)
        && slot.instance.listeners
           == if doOverlay && !old(slot.instance.layoutListenerApplied) then Registered(content) else old(slot.instance.listeners)
      ensures action == "overlaysWebView" && activity.window.sdk < KITKAT ==>
        sent == Some(PluginResult(ERROR, BoolValue(old(doOverlay))))
        && activity.window.Is(old(activity.window.Snapshot()))
      ensures ActionStyle(action).Some? ==>
        sent == None
        && activity.window.Is(Styled(old(activity.window.Snapshot()), activity.window.sdk, ActionStyle(action)))
    {
      var window := activity.window;
      if action == "_ready" {
        var statusBarVisible := window.flags * FLAG_FULLSCREEN == {};
        return true, Some(PluginResult(OK, BoolValue(statusBarVisible)));
      }
      if action == "isStatusBarOverlayingWebview" {
        var statusBarVisible := window.flags * FLAG_FULLSCREEN == {};
        return true, Some(PluginResult(OK, BoolValue(doOverlay && statusBarVisible)));
      }
      if action == "show" {
        Show();
        return true, Some(PluginResult(OK, NoValue));
      }
      if action == "hide" {
        Hide();
        return true, Some(PluginResult(OK, NoValue));
      }
      if action == "backgroundColorByHexString" {
        match args.string0 {
          case Some(colorPref) =>
            SetStatusBarBackgroundColor(Some(colorPref));
          case None =>
        }
        return true, None;
      }
      if action == "getStatusBarHeight" {
        return true, Some(PluginResult(OK, IntValue(statusBarHeight)));
      }
      if action == "overlaysWebView" {
        if window.sdk >= KITKAT {
          OverlaysWebView(args.boolean0, content);
          return true, None;
        } else {
          return doOverlay == false, Some(PluginResult(ERROR, BoolValue(doOverlay)));
        }
      }
      if action == "styleDefault" {
        SetStatusBarStyle(Some("default"));
        return true, None;
      }
      if action == "styleLightContent" {
        SetStatusBarStyle(Some("lightcontent"));
        return true, None;
      }
      if action == "styleDarkContent" {
        SetStatusBarStyle(Some("darkcontent"));
        return true, None;
      }
      if action == "styleBlackTranslucent" {
        SetStatusBarStyle(Some("blacktranslucent"));
        return true, None;
      }
      if action == "styleBlackOpaque" {
        SetStatusBarStyle(Some("blackopaque"));
        return true, None;
      }
      return false, None;
    }
  }
}
