/**
 * The keyboard/layout resize helper: a singleton that, once a global-layout listener
 * is attached to the child of the activity's content view, resizes that child to the
 * usable height of the visible display frame whenever that height changes.
 */
module ActivityAssist {
  import opened Wrappers
  import opened Android

  /**
   * The View system-UI flags that computeUsableHeight masks the WINDOW flags word
   * with (not the decor view's visibility word).
   */
  const VIEW_LAYOUT_FLAGS_ON_WINDOW: Word := SYSTEM_UI_FLAG_LAYOUT_STABLE + SYSTEM_UI_FLAG_LAYOUT_FULLSCREEN

  /** Every window flag the usable height depends on. */
  const HEIGHT_FLAGS: Word := FLAG_FULLSCREEN + FLAG_TRANSLUCENT_STATUS + VIEW_LAYOUT_FLAGS_ON_WINDOW

  /**
   * computeUsableHeight: the visible frame's bottom edge when the status bar is
   * drawn over the content (full screen, translucent status bar, or one of the
   * layout flags set in the window word), else the frame's height.
   */
  function UsableHeight(r: Rect, flags: Word): (h: Int32)
    ensures flags * HEIGHT_FLAGS != {} ==> h == r.bottom
    ensures flags * HEIGHT_FLAGS == {} ==> h == Wrap32(r.bottom - r.top)
    ensures flags * HEIGHT_FLAGS == {} && 0 <= r.top <= r.bottom ==> h == r.bottom - r.top
    ensures 0 <= r.top <= r.bottom ==> 0 <= h <= r.bottom
  {
    var fullScreen := flags * FLAG_FULLSCREEN != {};
    var translucentStatusBar := flags * FLAG_TRANSLUCENT_STATUS != {}
      || flags * VIEW_LAYOUT_FLAGS_ON_WINDOW != {};
    if translucentStatusBar || fullScreen then r.bottom else Wrap32(r.bottom - r.top)
  }

  /** Flags outside HEIGHT_FLAGS never change the usable height. */
  lemma UsableHeightIgnoresOtherFlags(r: Rect, f: Word, g: Word)
    requires f * HEIGHT_FLAGS == g * HEIGHT_FLAGS
    ensures UsableHeight(r, f) == UsableHeight(r, g)
  {
  }

  /** What possiblyResizeChildOfContent records, and the height it writes, if any. */
  datatype ResizeStep = ResizeStep(previous: Int32, newHeight: Option<Int32>)

  /**
   * possiblyResizeChildOfContent as a value: given the previously recorded height and
   * the freshly computed one, the height to record and the height to write.
   */
  function Resize(previous: Int32, usable: Int32): (step: ResizeStep)
    ensures step.previous == usable
    ensures step.newHeight.Some? <==> usable != previous
    ensures step.newHeight.Some? ==> step.newHeight.value == usable
  {
    if usable != previous then ResizeStep(usable, Some(usable)) else ResizeStep(previous, None)
  }

  /** A second resize with the same usable height writes nothing. */
  lemma ResizeIdempotent(previous: Int32, usable: Int32)
    ensures Resize(Resize(previous, usable).previous, usable) == ResizeStep(usable, None)
  {
  }

  class ActivityAssistant {
    var activity: Activity?
    var usableHeightPrevious: Int32
    var layoutListenerApplied: bool
    /** The views a global-layout listener has been registered on, in order. */
    var listeners: seq<View>

    /** At most one listener is ever registered, and exactly one once applied. */
    ghost predicate Valid()
      reads this
    {
      |listeners| <= 1 && (layoutListenerApplied <==> |listeners| == 1)
    }

    constructor ()
      ensures Valid()
      ensures activity == null && usableHeightPrevious == 0
      ensures !layoutListenerApplied && listeners == []
    {
      activity := null;
      usableHeightPrevious := 0;
      layoutListenerApplied := false;
      listeners := [];
    }

    method AssistActivity(activity: Activity)
      modifies this`activity
      ensures this.activity == activity
    {
      this.activity := activity;
    }

    /**
     * Records the usable height computed from `frame` (the child's visible display
     * frame) and the activity's window flags; when it differs from the recorded one,
     * writes it as the child's layout height and requests a layout.
     */
    method PossiblyResizeChildOfContent(childOfContent: View, frame: Rect)
      requires activity != null
      modifies this`usableHeightPrevious, childOfContent
      ensures var step := Resize(old(usableHeightPrevious), UsableHeight(frame, activity.window.flags));
        && usableHeightPrevious == step.previous
        && (step.newHeight.None? ==>
              childOfContent.height == old(childOfContent.height)
              && childOfContent.layoutRequests == old(childOfContent.layoutRequests))
        && (step.newHeight.Some? ==>
              childOfContent.height == step.newHeight.value
              && childOfContent.layoutRequests == old(childOfContent.layoutRequests) + 1)
    {
      var usableHeightNow := UsableHeight(frame, activity.window.flags);
      if usableHeightNow != usableHeightPrevious {
        childOfContent.SetLayoutHeight(usableHeightNow);
        childOfContent.RequestLayout();
        usableHeightPrevious := usableHeightNow;
      }
    }

    /** The registered listener firing: resize the view it was registered on. */
    method OnGlobalLayout(frame: Rect)
      requires Valid() && layoutListenerApplied && activity != null
      modifies this`usableHeightPrevious, listeners[0]
      ensures var step := Resize(old(usableHeightPrevious), UsableHeight(frame, activity.window.flags));
        && usableHeightPrevious == step.previous
        && listeners[0].height == (if step.newHeight.Some? then step.newHeight.value else old(listeners[0].height))
        && listeners[0].layoutRequests == old(listeners[0].layoutRequests) + (if step.newHeight.Some? then 1 else 0)
    {
      PossiblyResizeChildOfContent(listeners[0], frame);
    }

    /**
     * Registers the resize listener on the content view's first child, once. The
     * posted runnable is run at once; `content` is what findViewById returns then.
     * While the content view or its child is absent nothing is registered and a
     * later call tries again.
     */
    method ApplyGlobalLayoutListener(content: ContentView?)
      requires Valid()
      requires layoutListenerApplied || activity != null
      modifies this`layoutListenerApplied, this`listeners
      ensures Valid()
      ensures old(layoutListenerApplied) ==> layoutListenerApplied && listeners == old(listeners)
      ensures !old(layoutListenerApplied) && content != null && content.firstChild != null ==>
        layoutListenerApplied && listeners == [content.firstChild]
      ensures !old(layoutListenerApplied) && (content == null || content.firstChild == null) ==>
        !layoutListenerApplied && listeners == []
    {
      if layoutListenerApplied {
        return;
      }
      if content == null {
        return;
      }
      var childOfContent := content.firstChild;
      if childOfContent == null {
        return;
      }
      layoutListenerApplied := true;
      listeners := listeners + [childOfContent];
    }
  }

  /** The static `_instance` field of the assistant class. */
  class InstanceSlot {
    var instance: ActivityAssistant?

    constructor ()
      ensures instance == null
    {
      instance := null;
    }

    /** getInstance: creates the assistant on the first call, then always returns that one. */
    method GetInstance() returns (a: ActivityAssistant)
      modifies this
      ensures instance == a
      ensures old(instance) != null ==> a == old(instance)
      ensures old(instance) == null ==>
        fresh(a) && a.Valid() && a.activity == null && a.usableHeightPrevious == 0
        && !a.layoutListenerApplied && a.listeners == []
    {
      if instance == null {
        instance := new ActivityAssistant();
      }
      a := instance;
    }
  }
}
