# Cordova status-bar plugin (Android side), modelled in Dafny

The plugin is a command handler. The hybrid-app shell calls `execute` with an
action name, and the plugin shows, hides, overlays, colours and styles the
Android status bar. It does this by changing bits of two words:

- the window's layout-flags word;
- the decor view's system-UI visibility word.

It can also write the status-bar colour and the light-status-bar appearance.
A companion singleton, the activity assistant, works around a keyboard/layout
bug. Once a global-layout listener is attached to the first child of the
activity's content view, it resizes that child to the usable height of its
visible display frame whenever that height changes.

The model has five modules:

- `Wrappers` (`wrappers.dfy`): the `Option` type, used for missing arguments and
  absent preferences.
- `Android` (`android.dfy`): the framework pieces the plugin touches, reduced to
  state.
  - A `Window` class holds the flags word, the visibility word, the status-bar
    colour, the light-status-bar flag and the display-cutout mode, with a fixed
    `sdk` level. Its methods change exactly one of these.
  - `View` holds a layout height and a count of layout requests.
  - `ContentView` has an optional first child, and `Activity` owns a window.
  - A 32-bit flags word is a `Word`, the set of positions of its one bits, in
    0..31. Java's `|` is union, `& ~m` is set difference and `(w & m) == 0`
    means the two sets are disjoint.
  - The two literals the plugin writes keep their real positions:
    0x04000000 (FLAG_TRANSLUCENT_STATUS) is bit 26 and 0x80000000
    (FLAG_DRAWS_SYSTEM_BAR_BACKGROUNDS) is bit 31.
  - Every other flag is a distinct symbolic single bit, and
    SYSTEM_UI_FLAG_VISIBLE is the empty word.
- `ActivityAssist` (`activity_assistant.dfy`): the assistant.
  - `UsableHeight` is a pure function for computeUsableHeight. `Resize` is the
    value-level account of possiblyResizeChildOfContent.
  - The `ActivityAssistant` class carries the fields the source mutates and
    keeps the invariant "at most one listener, exactly one once applied".
    `InstanceSlot` stands for the static `_instance` field.
- `StatusBarPlugin` (`status_bar.dfy`): the plugin.
  - Each command's effect on the window is a pure function from one
    `WindowState` to the next: `Shown`, `Hidden`, `Transparent`, `Styled`,
    `BackgroundColored`, `Overlaid`, `Prepared`, `OverlaidAtStartup` and
    `Initialized`.
  - The `StatusBar` class's methods change the `Window` object exactly as those
    functions say.
  - Style names are classified case-insensitively by `Classify`, whose contract
    relates it to an independent "spells this word in any case" predicate.
- `StatusBarProperties` (`status_bar_properties.dfy`): lemmas that relate several
  commands, covering show/hide interplay, idempotence, replacement of the
  visibility word, the classes of the style actions, and the default start-up.

The window-flags test at src/android/ActivityAssistant.java:52 uses the View
constants SYSTEM_UI_FLAG_LAYOUT_STABLE and SYSTEM_UI_FLAG_LAYOUT_FULLSCREEN. The
model keeps this literally, as the mask `VIEW_LAYOUT_FLAGS_ON_WINDOW`, which is
intersected with the window word.

## Model

| member | source | states |
|---|---|---|
| `StatusBarPlugin.Shown` | src/android/StatusBar.java:148-158 | show clears exactly FLAG_FULLSCREEN in the window word and, from KitKat on, exactly the two hiding bits in the visibility word; every other bit and field is unchanged |
| `StatusBarPlugin.Hidden` | src/android/StatusBar.java:173-183 | hide sets exactly FLAG_FULLSCREEN and, from KitKat on, exactly the two hiding bits; every other bit and field is unchanged |
| `StatusBarPlugin.StatusBar.Show` | src/android/StatusBar.java:142-165 | the window afterwards is `Shown` of the window before |
| `StatusBarPlugin.StatusBar.Hide` | src/android/StatusBar.java:167-190 | the window afterwards is `Hidden` of the window before |
| `StatusBarPlugin.Transparent` | src/android/StatusBar.java:343-358 | from Lollipop on, the visibility word becomes exactly LAYOUT_STABLE+LAYOUT_FULLSCREEN with a transparent colour, or exactly LAYOUT_STABLE+VISIBLE with the colour kept; below Lollipop nothing changes; flags, appearance and cutout are never touched |
| `StatusBarPlugin.StatusBar.SetStatusBarTransparent` | src/android/StatusBar.java:343-358 | the window afterwards is `Transparent` of the window before |
| `StatusBarPlugin.Styled` | src/android/StatusBar.java:360-402 | from M on, a non-empty dark-content style turns the light appearance on: below O by setting LIGHT_STATUS_BAR alone, from O on via the appearance flag. A light-content style turns it off in the same way. A null, empty or invalid style, or an SDK below M, changes nothing, and only the visibility word and the appearance flag can change |
| `StatusBarPlugin.StatusBar.SetStatusBarStyle` | src/android/StatusBar.java:360-402 | the window afterwards is `Styled` of the window before |
| `StatusBarPlugin.ToLower` | src/android/StatusBar.java:377 | the lower-cased string has no upper-case letter, and the original spells it with some of its letters in upper case |
| `StatusBarPlugin.ToLowerEqualsIff` | src/android/StatusBar.java:377 | lower-casing a string gives a lower-case word exactly when the string spells that word with any letters in upper case |
| `StatusBarPlugin.InListIgnoringCase` | src/android/StatusBar.java:377-388 | the lower-cased style is in a list of lower-case words exactly when the style spells one of them in any case |
| `StatusBarPlugin.Classify` | src/android/StatusBar.java:366-388 | a style is dark content (light content) exactly when it spells a word of the dark (light) list in any case, and invalid exactly when it spells no word of either list |
| `StatusBarPlugin.BackgroundColored` | src/android/StatusBar.java:305-323 | from SDK 21 on, a non-null, non-empty colour string clears bit 0x04000000, sets bit 0x80000000, keeps every other flag, and takes the parsed colour when parsing succeeds and keeps the old colour when it fails. Otherwise nothing changes |
| `StatusBarPlugin.StatusBar.SetStatusBarBackgroundColor` | src/android/StatusBar.java:305-323 | the window afterwards is `BackgroundColored` of the window before |
| `StatusBarPlugin.Overlaid` | src/android/StatusBar.java:223-236 | from Lollipop on, it acts as `Transparent`; on KitKat (19) it sets or clears exactly FLAG_FULLSCREEN and FLAG_TRANSLUCENT_STATUS; on every other SDK below Lollipop, KitKat-watch (20) included, nothing changes |
| `StatusBarPlugin.StatusBar.OverlaysWebView` | src/android/StatusBar.java:214-242 | doOverlay takes the boolean argument when it reads and keeps its old value when it does not; the window becomes `Overlaid`; the listener is attached only when overlaying and not yet applied; the recorded height is unchanged |
| `StatusBarPlugin.StatusBar.AttachResizeListener` | src/android/StatusBar.java:238-240 | the singleton is unchanged in identity and keeps its invariant; listeners are unchanged once applied, otherwise they are exactly those the content view allows |
| `StatusBarPlugin.OverlayAtStartup` | src/android/StatusBar.java:66-88 | the branch condition of line 88 with absent preferences read as false; `StatusBar.StartUp` ensures that the condition the runnable computes from the preferences it reads equals this one |
| `StatusBarPlugin.Prepared` | src/android/StatusBar.java:71-84 | start-up clears exactly FLAG_FORCE_NOT_FULLSCREEN and, from Pie on, sets the short-edges cutout mode; nothing else changes |
| `StatusBarPlugin.OverlaidAtStartup` | src/android/StatusBar.java:90-98 | the start-up overlay branch acts as `Transparent` from Lollipop on, sets exactly FLAG_TRANSLUCENT_STATUS on KitKat (19), and does nothing on any other SDK below Lollipop, KitKat-watch (20) included |
| `StatusBarPlugin.Initialized` | src/android/StatusBar.java:64-113 | after start-up FLAG_FORCE_NOT_FULLSCREEN is clear and the cutout mode is short-edges from Pie on; the overlay branch leaves the appearance alone and the colour either kept or transparent; the colour branch changes at most LIGHT_STATUS_BAR in the visibility word |
| `StatusBarPlugin.StatusBar.Initialize` | src/android/StatusBar.java:57-114 | afterwards the singleton exists, keeps its invariant and assists this activity; doOverlay is the preference (default false); the window is `Initialized`; listeners are attached exactly in the overlay branch when not yet applied |
| `StatusBarPlugin.StatusBar.StartUp` | src/android/StatusBar.java:64-113 | the posted start-up runnable: the same window and listener effects as `Initialize`, with the singleton already in place |
| `StatusBarPlugin.ActionStyle` | src/android/StatusBar.java:251-299 | the table of style actions: exactly the five style actions map to a style name, styleDefault to "default", styleLightContent to "lightcontent", styleDarkContent to "darkcontent", styleBlackTranslucent to "blacktranslucent" and styleBlackOpaque to "blackopaque"; `StatusBarProperties.ActionStyleClasses` proves which class each name falls in |
| `StatusBarPlugin.Registered` | src/android/ActivityAssistant.java:73-83 | the registration an assistant call makes: the first child, exactly when the content view and its first child are both present. `ActivityAssistant.ApplyGlobalLayoutListener` states the same effect on the assistant's own state, and `StatusBar.AttachResizeListener` connects the two |
| `StatusBarPlugin.StatusBar.Execute` | src/android/StatusBar.java:125-302 | the return value is true exactly for the twelve known actions, except overlaysWebView below KitKat, which returns `doOverlay == false` and sends an ERROR result carrying doOverlay. `_ready` reports FLAG_FULLSCREEN clear, and isStatusBarOverlayingWebview reports doOverlay and FLAG_FULLSCREEN clear; both change nothing. Every other action has the window effect of its command; unknown actions change nothing and send nothing |
| `StatusBarProperties.ClearAfterSetRestoresIff` | src/android/StatusBar.java:150-183 | setting the bits of a mask and then clearing them gives `w` minus the mask, which equals `w` exactly when those bits were clear |
| `StatusBarProperties.ReadyAfterShowAndHide` | src/android/StatusBar.java:130-133 | the `_ready` reading `StatusBarVisible` (FLAG_FULLSCREEN clear, as at lines 131 and 137) is false after hide and true after show; `StatusBar.Execute` ensures that `_ready` and isStatusBarOverlayingWebview report exactly this reading |
| `StatusBarProperties.ShowAfterHide` | src/android/StatusBar.java:148-183 | a show after a hide has the effect of the show alone |
| `StatusBarProperties.ShowAfterHideRestoresIff` | src/android/StatusBar.java:148-183 | a show after a hide restores the starting window exactly when FLAG_FULLSCREEN and, from KitKat on, both hiding bits were clear before |
| `StatusBarProperties.ShowAndHideIdempotent` | src/android/StatusBar.java:148-183 | hiding twice equals hiding once, and showing twice equals showing once |
| `StatusBarProperties.TransparentReplacesVisibility` | src/android/StatusBar.java:347-355 | from Lollipop on, the visibility word after setStatusBarTransparent does not depend on the word before, and SYSTEM_UI_FLAG_FULLSCREEN is always clear afterwards |
| `StatusBarProperties.OverlaidIdempotent` | src/android/StatusBar.java:223-236 | applying the same overlay twice equals applying it once |
| `StatusBarProperties.ActionStyleClasses` | src/android/StatusBar.java:251-299 | styleDefault and styleDarkContent apply a dark-content style; styleLightContent, styleBlackTranslucent and styleBlackOpaque apply a light-content style |
| `StatusBarProperties.DarkStyleNames` | src/android/StatusBar.java:366-369 | "default" and "darkcontent" are classified as dark content |
| `StatusBarProperties.LightStyleNames` | src/android/StatusBar.java:371-375 | "lightcontent", "blacktranslucent" and "blackopaque" are classified as light content |
| `StatusBarProperties.ClassifyLowerWord` | src/android/StatusBar.java:377-388 | a word already in lower case is classified by the list it literally belongs to |
| `StatusBarProperties.ToLowerOfLower` | src/android/StatusBar.java:377 | lower-casing leaves a lower-case word unchanged |
| `StatusBarProperties.StyledIdempotent` | src/android/StatusBar.java:360-402 | re-applying a style changes nothing more |
| `StatusBarProperties.BackgroundColoredIdempotent` | src/android/StatusBar.java:305-323 | re-applying a background colour changes nothing more |
| `StatusBarProperties.DefaultStartUp` | src/android/StatusBar.java:102-111 | with no preferences set, from O on, start-up draws the bar background in the parsed "#000000", clears translucent-status and force-not-fullscreen, gives the bar the "lightcontent" appearance (light appearance off), and leaves the visibility word unchanged |
| `Android.Wrap32` | src/android/ActivityAssistant.java:54 | Java int subtraction: the result is the exact difference when it fits, and always agrees with it modulo 2^32 |
| `ActivityAssist.UsableHeight` | src/android/ActivityAssistant.java:46-61 | the frame's bottom when FLAG_FULLSCREEN, FLAG_TRANSLUCENT_STATUS, or any bit of the mask LAYOUT_STABLE+LAYOUT_FULLSCREEN is set in the window word; otherwise `bottom - top` in int arithmetic, which for a frame with `0 <= top <= bottom` is the exact height and lies between 0 and bottom |
| `ActivityAssist.UsableHeightIgnoresOtherFlags` | src/android/ActivityAssistant.java:50-52 | window flags outside those four bits never change the usable height |
| `ActivityAssist.Resize` | src/android/ActivityAssistant.java:35-44 | the recorded height becomes the freshly computed one, and a new height is written exactly when it differs from the recorded one |
| `ActivityAssist.ResizeIdempotent` | src/android/ActivityAssistant.java:35-44 | a second resize with the same computed height writes nothing |
| `ActivityAssist.ActivityAssistant.PossiblyResizeChildOfContent` | src/android/ActivityAssistant.java:35-44 | the recorded height becomes the computed usable height. When it equals the old record, the child's height and layout requests are untouched. Otherwise the child gets the new height and exactly one more explicit layout request (the call at line 41) |
| `ActivityAssist.ActivityAssistant.OnGlobalLayout` | src/android/ActivityAssistant.java:84-88 | the registered listener resizes exactly the view it was registered on, as `PossiblyResizeChildOfContent` does |
| `ActivityAssist.ActivityAssistant.ApplyGlobalLayoutListener` | src/android/ActivityAssistant.java:63-91 | keeps the invariant that at most one listener exists, and exactly one once applied. Once applied, a call changes nothing. With the content view and its child present, it registers exactly one listener on that child. With either absent, it stays unapplied with no listener, so a later call retries |
| `ActivityAssist.ActivityAssistant.AssistActivity` | src/android/ActivityAssistant.java:31-33 | records the activity; no other field changes |
| `ActivityAssist.InstanceSlot.GetInstance` | src/android/ActivityAssistant.java:19-24 | the first call creates a fresh assistant with zeroed state and stores it; every later call returns that same object |

## Left out

- UI-thread scheduling (`runOnUiThread`, `View.post`): each posted runnable runs
  immediately and in order. Therefore two applyGlobalLayoutListener calls made
  before the first posted runnable has run, which could register two listeners
  on Android, are not modelled.
- The reflective `setStatusBarColor` call and `Color.parseColor` are one oracle,
  `parseColor`, a constant of the plugin that may fail (`None`, the caught
  IllegalArgumentException). The path where the method is missing (the generic
  `catch (Exception)`) is not modelled; the method is taken to exist.
- `WindowInsetsControllerCompat` is modelled only as writing the light-status-bar
  flag.
- `getStatusBarHeight` (resource lookup and float division by the display
  density) is an input to `Execute`.
- `onConfigurationChanged` only pushes a callback on a static channel and is not
  modelled.
- Logging, including the deprecation warning for the blacktranslucent and
  blackopaque styles at start-up, is not modelled. `CallbackContext` is reduced
  to the returned `sent` result and `CordovaArgs` to the `Args` datatype, whose
  `None` is an argument that fails to read. Preferences are
  `Option` values, with `None` for absent.
- Real Android bit values, beyond the two literals 0x04000000 and 0x80000000, are
  symbolic distinct single bits. On a real device the computeUsableHeight quirk
  mask overlaps real window flags; the model cannot show that overlap.
- `View.SetLayoutHeight` stands for writing `params.height` and calling
  setLayoutParams. On Android setLayoutParams also requests a layout; the
  model's `layoutRequests` counts only explicit requestLayout calls.
- `toLowerCase` is modelled for ASCII letters only; locale-sensitive and
  non-ASCII case mappings are not.
- The cutout-mode assignment at src/android/StatusBar.java:76-78 appears again
  at lines 82-84. The model makes it once, because the second assignment writes
  the same value again.
- The assistant's methods require an assisted activity. The plugin always calls
  assistActivity first, and the null-dereference exception Java would throw otherwise
  is not modelled. Likewise `Execute` requires the state `initialize` leaves
  behind, because the host always initializes a plugin before executing it.
- `StatusBarPlugin.Initialized`: its own contract names only the facts common to
  both branches (flags, cutout, what each branch leaves alone). The full effect is
  stated through `Prepared`, `OverlaidAtStartup`, `BackgroundColored` and
  `Styled`, and connected to the plugin by `StatusBar.StartUp`.
