# SystemUI view logic: a Dafny model

This project models the decision rules and small state machines inside five
Android SystemUI views of the TeamSourcery framework. The Android framework
is abstracted away.

- **DateView** (`DateWidget`). This is the expanded status-bar date. Its
  edge-triggered `setUpdates` rule holds the time broadcast receiver exactly
  while the view is attached, its window is visible, and the view and every
  View ancestor are VISIBLE. It reads the clock colour, where the stored
  `Integer.MIN_VALUE` sentinel means "use the default colour". It also
  changes colour on touch.
- **ExtensibleKeyButtonView** (`KeyButtons`). `setActions` maps a
  configurable click action to a key code, a view id and listeners, and
  decides whether long press is supported.
- **ExpandedDesktopToggle and PWToggle** (`Toggles`). These are two
  settings-backed quick-settings tiles with identical code over different
  keys. One class parameterised by `ToggleKind` models both. It covers the
  observer lifecycle (`init`/`cleanup`), the write-through (`doEnable` and
  `doDisable` write 1 and 0) and the read-back (on iff the stored int is
  exactly 1, with a missing key read as 0).
- **NotificationPanelView** (`NotificationPanel`). It chooses a wallpaper
  by orientation and file existence, and reloads it only when the
  orientation changes. It also runs the `mOkToFlip` gesture state machine,
  including the min/max loop over pointer y-coordinates.

`Settings` models the settings store as a `map<string, int>`, plus the set
of registered content observers, each with its own identity.

Framework constants have their Android values:

- visibility: VISIBLE 0
- MotionEvent actions: DOWN 0, UP 1, CANCEL 3, POINTER_DOWN 5
- key codes: HOME 3, BACK 4, POWER 26, MENU 82, SEARCH 84
- orientation: PORTRAIT 1
- `Integer.MIN_VALUE` is -2^31

The string values of the settings keys and of the `SourceryTarget` action
names are not part of this model's sources. Distinct stand-in strings are
used for them, and only their distinctness matters.

Two points where the code does less than one might expect:

- One might expect a toggle to hold at most one observer registration. In
  the code, `init` overwrites `mObserver` without unregistering an
  observer it already holds. `Toggles.InitTwiceLeaksFirstObserver` shows
  the first observer left registered.
- Flipping a cached boolean on tap and refreshing the view on `init` would
  happen in the `StatefulToggle` and `BaseToggle` superclasses, which are
  not part of this model. The toggles' own `init` only registers the
  observer.

## Model

| member | source | states |
|---|---|---|
| DateWidget.IsVisible | packages/SystemUI/src/com/android/systemui/statusbar/policy/DateView.java:141-154 | The walk up the parent chain returns true iff the view and every View ancestor are VISIBLE; it stops false at the first one that is not. |
| DateWidget.ClockColor | packages/SystemUI/src/com/android/systemui/statusbar/policy/DateView.java:196-204 | The clock colour is the stored one. It is the default when the key is absent or holds Integer.MIN_VALUE, so the sentinel never becomes the colour unless the default is the sentinel. |
| DateWidget.NetRegistrationsTrackUpdating | packages/SystemUI/src/com/android/systemui/statusbar/policy/DateView.java:174-190 | Over any run of setUpdates calls, registrations minus unregistrations equal the final mUpdating minus the initial one. |
| DateWidget.RegistrationsStayBelowTwo | packages/SystemUI/src/com/android/systemui/statusbar/policy/DateView.java:176-189 | Starting unregistered, every prefix of a run of setUpdates calls leaves 0 or 1 receiver registrations. |
| DateWidget.DateView.constructor | packages/SystemUI/src/com/android/systemui/statusbar/policy/DateView.java:60-91 | A new view is detached, not updating and holds no receiver; mExpandedClockColor starts as the white resource id. |
| DateWidget.DateView.SetUpdates | packages/SystemUI/src/com/android/systemui/statusbar/policy/DateView.java:174-190 | Afterwards mUpdating == attached && windowVisible && isVisible(). The receiver is registered (with the three time actions) and the clock refreshed only on false→true, unregistered only on true→false; an unchanged condition changes nothing. The change to the registration count is NetRegistrations of the old and new mUpdating. |
| DateWidget.DateView.UpdateDateColor | packages/SystemUI/src/com/android/systemui/statusbar/policy/DateView.java:192-205 | mExpandedClockColor becomes ClockColor of the current settings. |
| DateWidget.DateView.UpdateClock | packages/SystemUI/src/com/android/systemui/statusbar/policy/DateView.java:129-139 | Refreshes the colour, shows the date of the given time, and sets the text colour to the clock colour. |
| DateWidget.DateView.OnAttachedToWindow | packages/SystemUI/src/com/android/systemui/statusbar/policy/DateView.java:93-101 | Marks the view attached and registers one new clock-colour observer (never unregistered later). It refreshes the clock; mUpdating becomes windowVisible && isVisible(). |
| DateWidget.DateView.OnDetachedFromWindow | packages/SystemUI/src/com/android/systemui/statusbar/policy/DateView.java:103-108 | Afterwards mUpdating is false and no receiver is held; a held one is unregistered exactly once. |
| DateWidget.DateView.OnWindowVisibilityChanged | packages/SystemUI/src/com/android/systemui/statusbar/policy/DateView.java:110-115 | mWindowVisible becomes visibility == VISIBLE, and updates are re-evaluated with it. The clock is refreshed only if updating turns on; otherwise colour and text stay as they were. |
| DateWidget.DateView.OnVisibilityChanged | packages/SystemUI/src/com/android/systemui/statusbar/policy/DateView.java:117-121 | After a visibility change in the chain, updates are re-evaluated; hiding any view of the chain stops updates and releases the receiver. The clock is refreshed only if updating turns on; otherwise colour and text stay as they were. |
| DateWidget.DateView.OnReceive | packages/SystemUI/src/com/android/systemui/statusbar/policy/DateView.java:68-78 | The clock is refreshed for TIME_TICK, TIME_CHANGED and TIMEZONE_CHANGED, and nothing changes for any other action. |
| DateWidget.DateView.OnSettingsChange | packages/SystemUI/src/com/android/systemui/statusbar/policy/DateView.java:168-171 | A change to the clock colour setting refreshes the clock. |
| DateWidget.DateView.OnClick | packages/SystemUI/src/com/android/systemui/statusbar/policy/DateView.java:207-210 | A click (its listener exists only when mClockDateOpens) shows the configured clock colour again. |
| DateWidget.DateView.OnTouch | packages/SystemUI/src/com/android/systemui/statusbar/policy/DateView.java:236-248 | Runs only with mClockDateOpens, when the listener is installed. Never consumes the event. DOWN shows the highlight colour; UP and CANCEL re-read and show the configured colour; other actions change nothing. |
| KeyButtons.KeyCode | packages/SystemUI/src/com/android/systemui/statusbar/policy/ExtensibleKeyButtonView.java:32-44 | Every key action (HOME, BACK, MENU, POWER, SEARCH) maps to a non-zero key code. |
| KeyButtons.AfterSetActions | packages/SystemUI/src/com/android/systemui/statusbar/policy/ExtensibleKeyButtonView.java:28-59 | Both actions are always stored, and a null click action changes nothing else. HOME, BACK and MENU set their code and id; POWER and SEARCH set only the code. Any other action installs the click listener, keeps the old code and ends with id recent_apps. Long press is supported iff Longpress != null && (Longpress != ACTION_NULL \|\| getCode() != 0). |
| KeyButtons.SetActionsIdempotent | packages/SystemUI/src/com/android/systemui/statusbar/policy/ExtensibleKeyButtonView.java:28-59 | Calling setActions again with the same arguments changes nothing. |
| KeyButtons.KeyActionLongPress | packages/SystemUI/src/com/android/systemui/statusbar/policy/ExtensibleKeyButtonView.java:50-57 | For a key action, long press is supported exactly when a long-press action is given, even ACTION_NULL. |
| KeyButtons.StaleCodeDecidesLongPress | packages/SystemUI/src/com/android/systemui/statusbar/policy/ExtensibleKeyButtonView.java:45-57 | A non-key action keeps the code of an earlier HOME call, so it gets long press with ACTION_NULL. On a button with code 0, the same call does not. |
| KeyButtons.ExtensibleKeyButtonView.constructor | packages/SystemUI/src/com/android/systemui/statusbar/policy/ExtensibleKeyButtonView.java:19-22 | The new button is setActions applied to the state taken from the layout attributes. |
| KeyButtons.ExtensibleKeyButtonView.SetActions | packages/SystemUI/src/com/android/systemui/statusbar/policy/ExtensibleKeyButtonView.java:28-59 | The if/else chain leaves the button in exactly the state AfterSetActions describes. |
| KeyButtons.ExtensibleKeyButtonView.OnClick | packages/SystemUI/src/com/android/systemui/statusbar/policy/ExtensibleKeyButtonView.java:61-66 | A click launches the current mClickAction. |
| KeyButtons.ExtensibleKeyButtonView.OnLongClick | packages/SystemUI/src/com/android/systemui/statusbar/policy/ExtensibleKeyButtonView.java:68-73 | A long click launches the current mLongpress and returns the launcher's result. |
| Toggles.IsEnabled | packages/SystemUI/src/com/android/systemui/statusbar/toggles/ExpandedDesktopToggle.java:50-51 | A tile is on iff its key is stored with the value exactly 1. A missing key reads as 0 (off), and values such as 2 are off. PWToggle.java has the same lines. |
| Toggles.LookFor | packages/SystemUI/src/com/android/systemui/statusbar/toggles/ExpandedDesktopToggle.java:53-55 | The icon and label are the "on" resources iff enabled and the "off" resources iff not. PWToggle.java has the same lines. |
| Toggles.WritesAreIndependent | packages/SystemUI/src/com/android/systemui/statusbar/toggles/PWToggle.java:37-46 | Writing one tile's key never changes what the other tile reads. |
| Toggles.WriteThenReadBack | packages/SystemUI/src/com/android/systemui/statusbar/toggles/PWToggle.java:37-55 | After doEnable the read-back is on with the "on" icon and label; after doDisable it is off, whatever was stored before. |
| Toggles.SettingsToggle.constructor | packages/SystemUI/src/com/android/systemui/statusbar/toggles/ExpandedDesktopToggle.java:18 | A new tile holds no observer. |
| Toggles.SettingsToggle.Init | packages/SystemUI/src/com/android/systemui/statusbar/toggles/ExpandedDesktopToggle.java:20-25 | Afterwards the tile holds one new observer, registered on its key (EXPANDED_DESKTOP_STATE or EXPANDED_VIEW_WIDGET); no setting changes. |
| Toggles.SettingsToggle.Cleanup | packages/SystemUI/src/com/android/systemui/statusbar/toggles/ExpandedDesktopToggle.java:27-34 | The held observer is unregistered and the field is cleared. Without a held observer nothing is unregistered, so a second cleanup is a no-op. |
| Toggles.SettingsToggle.DoEnable | packages/SystemUI/src/com/android/systemui/statusbar/toggles/ExpandedDesktopToggle.java:36-40 | Stores 1 under the tile's key and changes no other key; the tile then reads as on. |
| Toggles.SettingsToggle.DoDisable | packages/SystemUI/src/com/android/systemui/statusbar/toggles/ExpandedDesktopToggle.java:42-46 | Stores 0 under the tile's key and changes no other key; the tile then reads as off. |
| Toggles.SettingsToggle.UpdateView | packages/SystemUI/src/com/android/systemui/statusbar/toggles/ExpandedDesktopToggle.java:48-57 | The enabled state passed on is IsEnabled of the stored settings, with the matching icon and label. |
| Toggles.SettingsToggle.OnChange | packages/SystemUI/src/com/android/systemui/statusbar/toggles/ExpandedDesktopToggle.java:71-74 | A change notification schedules one view update and writes no setting. |
| Toggles.CleanupTwice | packages/SystemUI/src/com/android/systemui/statusbar/toggles/PWToggle.java:21-46 | A client run of init, enable, update and cleanup twice: the observer registered by init is removed exactly once, so the resolver's observers end as they began, and the setting stays 1 with the "on" look. |
| Toggles.InitTwiceLeaksFirstObserver | packages/SystemUI/src/com/android/systemui/statusbar/toggles/PWToggle.java:20-25 | Two inits without cleanup leave an observer, registered by the first init, on the key that the tile no longer holds. |
| NotificationPanel.WallpaperFor | packages/SystemUI/src/com/android/systemui/statusbar/phone/NotificationPanelView.java:71-89 | Portrait shows the portrait image iff it exists. Any other orientation shows the landscape image iff it exists. Otherwise the default panel background is shown. |
| NotificationPanel.PointerSpan | packages/SystemUI/src/com/android/systemui/statusbar/phone/NotificationPanelView.java:164-170 | miny is at most every pointer's y and maxy at least every pointer's y, and each is some pointer's y. |
| NotificationPanel.SpanBelowIffPointersWithin | packages/SystemUI/src/com/android/systemui/statusbar/phone/NotificationPanelView.java:163-174 | maxy - miny < mHandleBarHeight holds iff every two pointers are less than the handle height apart. |
| NotificationPanel.NotificationPanelView.constructor | packages/SystemUI/src/com/android/systemui/statusbar/phone/NotificationPanelView.java:44-58 | A new panel has orientation 0 (not yet recorded), flip disarmed, and nothing loaded or requested. |
| NotificationPanel.NotificationPanelView.SetNotificationWallpaper | packages/SystemUI/src/com/android/systemui/statusbar/phone/NotificationPanelView.java:67-90 | Records the orientation in mScreenOrientation and sets the wallpaper WallpaperFor chooses. |
| NotificationPanel.NotificationPanelView.OnAttachedToWindow | packages/SystemUI/src/com/android/systemui/statusbar/phone/NotificationPanelView.java:60-65 | Attaching loads the wallpaper for the current orientation. |
| NotificationPanel.NotificationPanelView.OnConfigurationChanged | packages/SystemUI/src/com/android/systemui/statusbar/phone/NotificationPanelView.java:92-98 | The wallpaper is reloaded only when the new configuration's orientation differs from the recorded one; the reload records and uses the orientation read again from the resources. The same orientation again changes nothing. |
| NotificationPanel.NotificationPanelView.OnTouchEvent | packages/SystemUI/src/com/android/systemui/statusbar/phone/NotificationPanelView.java:150-187 | The gesture logic runs only with SETTINGS_DRAG_SHORTCUT and flip settings. DOWN arms iff expanded height is 0. A flip happens only when armed and asked for. It switches to settings below the handle height and flips otherwise, then disarms, so at most one flip per gesture. Every event goes to the handle view. |

## Left out

- Rendering, layout and drawables are not modelled. This covers `draw`, `onLayout`, `setBackground` and `Drawable.createFromPath`. The wallpaper is a `Background` value.
- The wallpaper alpha conversion `(int)(wallpaperAlpha * 255)` is left out: it is floating point that only feeds rendering.
- `fling` is left out: it only tags a gesture recorder.
- Date text formatting is not modelled. The text is the time it was formatted from, and the time is a parameter.
- `DateView.onClick` is modelled only for its colour refresh. The status-bar collapse, the keyguard dismissal with its swallowed exception, and the calendar intent are foreign service calls.
- The `CLOCK_DATE_OPENS` setting read in the DateView constructor is the parameter `clockDateOpens`. So are the listener installation and `setClickable(false)` that depend on it.
- File existence, the current orientation, the status bar's `mHasFlipSettings` and `skipToSettingsPanel()`, and `getExpandedHeight`/`getMeasuredHeight` are parameters. So are the handle view's answer to `dispatchTouchEvent` and the result of `SourceryTarget.launchAction`.
- The orientation that `setNotificationWallpaper` reads from the resources is a parameter of `OnConfigurationChanged`, separate from the new configuration's orientation. The model does not assume they are equal, although Android normally updates the resources first.
- Touch coordinates and heights are `real`. Float rounding and NaN are not modelled.
- The superclasses `StatefulToggle`, `BaseToggle`, `KeyButtonView` and `PanelView` are not part of this model. `super.init`, `super.cleanup`, `super.updateView`, `scheduleViewUpdate` (a counter) and `setEnabledState`, `setIcon`, `setLabel` (recorded values) have no behaviour here.
- `KeyButtonView`'s code is a field that `setCode` sets and `getCode` returns. Its initial code and long-press flag come from layout attributes and are constructor parameters.
- `setSourceryTarget` and a null `mSourceryTarget` are not modelled. The listeners only report which action they launch.
- The Android view id side effects of `setOnLongClickListener` (it also makes the view long-clickable) are not modelled.
- Handler and thread delivery of `onChange` and of broadcasts is not modelled. Each callback is one atomic step.
- `policy/src/com/android/internal/policy/impl/ApplicationWallpaper.java` is not part of this model: it is file I/O, bitmap decoding and memory management.
- `JBControlToggle.java` and `JBToolToggle.java` are not part of this model: they only set a fixed icon and label and launch a fixed activity.
- DateView's clock-colour observer is registered anew on every attach and never unregistered. The model does that and claims no bound on it.
- `unregisterReceiver` throwing for a receiver that is not registered cannot happen in the model. The invariant keeps the receiver registered whenever `mUpdating` is true.
