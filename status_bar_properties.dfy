/**
 * Properties of the status-bar commands that relate several calls: what a hide
 * followed by a show leaves behind, what the ready reading reports after each,
 * which commands are idempotent, and what the plugin does at start-up with no
 * preferences configured.
 */
module StatusBarProperties {
  import opened Wrappers
  import opened Android
  import opened StatusBarPlugin

  // ---------------------------------------------------------------------------
  // Words

  /** Setting the bits of `m` and then clearing them gives back `w` exactly when they were clear. */
  lemma {:induction false} ClearAfterSetRestoresIff(w: Word, w1: Word, w2: Word, m: Word)
    requires SetsExactly(w, w1, m) && ClearsExactly(w1, w2, m)
    ensures w2 == w - m
    ensures w2 == w <==> w * m == {}
  {
    assert w2 == w - m by {
      forall b | b in w2 ensures b in w - m {
        assert b !in m by { assert b !in w2 * m; }
        assert b in w2 - m;
      }
      forall b | b in w - m ensures b in w2 {
        assert b in w1 - m;
      }
    }
    if w * m == {} {
      forall b | b in w ensures b in w - m {
        assert b !in w * m;
      }
    }
  }

  // ---------------------------------------------------------------------------
  // show and hide

  /** After hide the ready reading is false; after show it is true. */
  lemma ReadyAfterShowAndHide(s: WindowState, sdk: int)
    ensures !StatusBarVisible(Hidden(s, sdk).flags)
    ensures StatusBarVisible(Shown(s, sdk).flags)
  {
    assert 0 in Hidden(s, sdk).flags * FLAG_FULLSCREEN;
  }

  /** A show after a hide has the effect of the show alone. */
  lemma ShowAfterHide(s: WindowState, sdk: int)
    ensures Shown(Hidden(s, sdk), sdk) == Shown(s, sdk)
  {
  }

  /**
   * A show after a hide restores the window it started from exactly when the bits
   * they touch were all clear before the hide.
   */
  lemma {:induction false} ShowAfterHideRestoresIff(s: WindowState, sdk: int)
    ensures Shown(Hidden(s, sdk), sdk) == s <==>
      s.flags * FLAG_FULLSCREEN == {} && (sdk >= KITKAT ==> s.uiVis * HIDE_UI_FLAGS == {})
  {
    var h := Hidden(s, sdk);
    ClearAfterSetRestoresIff(s.flags, h.flags, Shown(h, sdk).flags, FLAG_FULLSCREEN);
    if sdk >= KITKAT {
      ClearAfterSetRestoresIff(s.uiVis, h.uiVis, Shown(h, sdk).uiVis, HIDE_UI_FLAGS);
    }
  }

  /** Hiding twice is hiding once; showing twice is showing once. */
  lemma ShowAndHideIdempotent(s: WindowState, sdk: int)
    ensures Hidden(Hidden(s, sdk), sdk) == Hidden(s, sdk)
    ensures Shown(Shown(s, sdk), sdk) == Shown(s, sdk)
  {
  }

  // ---------------------------------------------------------------------------
  // setStatusBarTransparent and overlaysWebView

  /**
   * From Lollipop on, the visibility word after setStatusBarTransparent does not
   * depend on the word before: it is replaced, not combined.
   */
  lemma TransparentReplacesVisibility(s1: WindowState, s2: WindowState, sdk: int, transparent: bool)
    requires sdk >= LOLLIPOP
    ensures Transparent(s1, sdk, transparent).uiVis == Transparent(s2, sdk, transparent).uiVis
    ensures SYSTEM_UI_FLAG_FULLSCREEN * Transparent(s1, sdk, transparent).uiVis == {}
  {
  }

  /** Applying the same overlay twice is applying it once. */
  lemma OverlaidIdempotent(s: WindowState, sdk: int, overlay: bool)
    ensures Overlaid(Overlaid(s, sdk, overlay), sdk, overlay) == Overlaid(s, sdk, overlay)
  {
  }

  // ---------------------------------------------------------------------------
  // Styles and colours

  /** The style each style action applies, and the list it falls in. */
  lemma {:induction false} ActionStyleClasses(action: string)
    ensures action in {"styleDefault", "styleDarkContent"} ==>
      ActionStyle(action).Some? && Classify(ActionStyle(action).value) == DarkContent
    ensures action in {"styleLightContent", "styleBlackTranslucent", "styleBlackOpaque"} ==>
      ActionStyle(action).Some? && Classify(ActionStyle(action).value) == LightContent
  {
    DarkStyleNames();
    LightStyleNames();
  }

  /** The style names of the dark-content list are classified as dark content. */
  lemma DarkStyleNames()
    ensures Classify("default") == DarkContent && Classify("darkcontent") == DarkContent
  {
    ClassifyLowerWord("default");
    ClassifyLowerWord("darkcontent");
  }

  /** The style names of the light-content list are classified as light content. */
  lemma LightStyleNames()
    ensures Classify("lightcontent") == LightContent && Classify("blacktranslucent") == LightContent
    ensures Classify("blackopaque") == LightContent
  {
    ClassifyLowerWord("lightcontent");
    ClassifyLowerWord("blacktranslucent");
    ClassifyLowerWord("blackopaque");
  }

  /** A word already in lower case is classified by the list it is literally in. */
  lemma {:induction false} ClassifyLowerWord(t: string)
    requires IsLower(t)
    ensures Classify(t) == if t in DARK_CONTENT_STYLES then DarkContent
      else if t in LIGHT_CONTENT_STYLES then LightContent else InvalidStyle
  {
    ToLowerOfLower(t);
  }

  /** Lower-casing changes no word that is already in lower case. */
  lemma {:induction false} ToLowerOfLower(t: string)
    requires IsLower(t)
    ensures ToLower(t) == t
  {
    ToLowerEqualsIff(t, t);
  }

  /** Re-applying a style changes nothing more. */
  lemma StyledIdempotent(s: WindowState, sdk: int, style: Option<string>)
    ensures Styled(Styled(s, sdk, style), sdk, style) == Styled(s, sdk, style)
  {
  }

  /** Re-applying a background colour changes nothing more. */
  lemma BackgroundColoredIdempotent(s: WindowState, sdk: int, colorPref: Option<string>,
                                                      parseColor: string -> Option<Int32>)
    ensures BackgroundColored(BackgroundColored(s, sdk, colorPref, parseColor), sdk, colorPref, parseColor) == BackgroundColored(s, sdk, colorPref, parseColor)
  {
  }

  // ---------------------------------------------------------------------------
  // Start-up

  /**
   * With no preference configured, from Oreo on, start-up draws the bar background
   * in the parsed default colour, turns the light appearance off so that the bar
   * has light icons (the "lightcontent" style), and leaves the visibility word alone.
   */
  lemma {:induction false} DefaultStartUp(s: WindowState, sdk: int, parseColor: string -> Option<Int32>)
    requires sdk >= O
    ensures var t := Initialized(s, sdk, Preferences(None, None, None, None), parseColor);
      && !t.lightStatusBars
      && t.uiVis == s.uiVis
      && FLAG_DRAWS_SYSTEM_BAR_BACKGROUNDS <= t.flags
      && t.flags * (FLAG_TRANSLUCENT_STATUS + FLAG_FORCE_NOT_FULLSCREEN) == {}
      && t.cutoutMode == (if sdk >= P then CutoutShortEdges else s.cutoutMode)
      && t.statusBarColor == parseColor(DEFAULT_BACKGROUND_COLOR).GetOr(s.statusBarColor)
  {
    ClassifyLowerWord(DEFAULT_STYLE);
  }
}
