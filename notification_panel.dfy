/**
 * NotificationPanelView: the pull-down notification panel. It chooses a
 * wallpaper by screen orientation, reloads it when the orientation changes,
 * and recognises the gestures that flip the panel over to quick settings.
 */
module NotificationPanel {

  /** Configuration orientations. */
  const OrientationUndefined: int := 0
  const OrientationPortrait: int := 1

  /** MotionEvent masked actions. */
  const ActionDown: int := 0
  const ActionPointerDown: int := 5

  const PortraitImagePath: string := "/data/data/com.teamsourcery.sourcerytools/files/notification_wallpaper.jpg"
  const LandscapeImagePath: string := "/data/data/com.teamsourcery.sourcerytools/files/notification_wallpaper_land.jpg"

  /** The panel background: a wallpaper image loaded from a path, or the notification_panel_bg drawable. */
  datatype Background = Image(path: string) | PanelBg

  /** Which of the two wallpaper files exist. */
  datatype WallpaperFiles = WallpaperFiles(portraitExists: bool, landscapeExists: bool)

  /**
   * setNotificationWallpaper's choice: portrait uses the portrait image, any
   * other orientation the landscape image, each only if its file exists,
   * else the default background.
   */
  function WallpaperFor(orientation: int, files: WallpaperFiles): (b: Background)
    ensures b == Image(PortraitImagePath) <==> orientation == OrientationPortrait && files.portraitExists
    ensures b == Image(LandscapeImagePath) <==> orientation != OrientationPortrait && files.landscapeExists
    ensures b == PanelBg <==>
              (if orientation == OrientationPortrait then !files.portraitExists else !files.landscapeExists)
  {
    if orientation == OrientationPortrait then
      (if files.portraitExists then Image(PortraitImagePath) else PanelBg)
    else
      (if files.landscapeExists then Image(LandscapeImagePath) else PanelBg)
  }

  /** Every two pointers lie less than h apart vertically. */
  predicate PointersWithin(ys: seq<real>, h: real)
  {
    forall i, j :: 0 <= i < |ys| && 0 <= j < |ys| ==> ys[i] - ys[j] < h
  }

  /** The min/max loop of onTouchEvent over all pointer y-coordinates. */
  method PointerSpan(ys: seq<real>) returns (miny: real, maxy: real)
    requires |ys| > 0
    ensures miny in ys && maxy in ys
    ensures forall k :: 0 <= k < |ys| ==> miny <= ys[k] <= maxy
  {
    miny := ys[0];
    maxy := miny;
    for i := 1 to |ys|
      invariant miny in ys[..i] && maxy in ys[..i]
      invariant forall k :: 0 <= k < i ==> miny <= ys[k] <= maxy
    {
      var y := ys[i];
      if y < miny {
        miny := y;
      }
      if y > maxy {
        maxy := y;
      }
    }
    assert ys[..|ys|] == ys;
  }

  /** The span test maxy - miny < h holds exactly when every two pointers are less than h apart. */
  lemma SpanBelowIffPointersWithin(ys: seq<real>, miny: real, maxy: real, h: real)
    requires miny in ys && maxy in ys
    requires forall k :: 0 <= k < |ys| ==> miny <= ys[k] <= maxy
    ensures maxy - miny < h <==> PointersWithin(ys, h)
  {
  }

  /** The requests onTouchEvent sends to the status bar. */
  datatype StatusBarRequest = SwitchToSettings | FlipToSettings

  /** The touch event: its masked action and the y-coordinate of every pointer, pointer 0 first. */
  datatype MotionEvent = MotionEvent(actionMasked: int, ys: seq<real>)

  /** What onTouchEvent asks of the status bar: whether it has flip settings and whether to skip to them. */
  datatype StatusBar = StatusBar(hasFlipSettings: bool, skipToSettingsPanel: bool)

  class NotificationPanelView {
    /** PhoneStatusBar.SETTINGS_DRAG_SHORTCUT. */
    const settingsDragShortcut: bool
    /** mHandleBarHeight. */
    const handleBarHeight: real

    var screenOrientation: int
    var background: Background
    /** How many times the wallpaper was chosen and set. */
    var wallpaperLoads: nat
    var okToFlip: bool
    /** Everything sent to the status bar, in order. */
    var requests: seq<StatusBarRequest>
    /** Every event handed on to the handle view, in order. */
    var forwarded: seq<MotionEvent>

    constructor (settingsDragShortcut: bool, handleBarHeight: real)
      ensures this.settingsDragShortcut == settingsDragShortcut && this.handleBarHeight == handleBarHeight
      ensures screenOrientation == OrientationUndefined && !okToFlip
      ensures wallpaperLoads == 0 && requests == [] && forwarded == []
    {
      this.settingsDragShortcut := settingsDragShortcut;
      this.handleBarHeight := handleBarHeight;
      screenOrientation := OrientationUndefined;
      background := PanelBg;
      wallpaperLoads := 0;
      okToFlip := false;
      requests := [];
      forwarded := [];
    }

    /** setNotificationWallpaper: records the orientation and sets the wallpaper chosen for it. */
    method SetNotificationWallpaper(orientation: int, files: WallpaperFiles)
      modifies this`screenOrientation, this`background, this`wallpaperLoads
      ensures screenOrientation == orientation
      ensures background == WallpaperFor(orientation, files)
      ensures wallpaperLoads == old(wallpaperLoads) + 1
    {
      screenOrientation := orientation;
      var isPortrait := screenOrientation == OrientationPortrait;
      if isPortrait {
        if files.portraitExists {
          background := Image(PortraitImagePath);
        } else {
          background := PanelBg;
        }
      } else {
        if files.landscapeExists {
          background := Image(LandscapeImagePath);
        } else {
          background := PanelBg;
        }
      }
      wallpaperLoads := wallpaperLoads + 1;
    }

    /** onAttachedToWindow: loads the wallpaper for the current orientation. */
    method OnAttachedToWindow(orientation: int, files: WallpaperFiles)
      modifies this`screenOrientation, this`background, this`wallpaperLoads
      ensures screenOrientation == orientation
      ensures background == WallpaperFor(orientation, files)
      ensures wallpaperLoads == old(wallpaperLoads) + 1
    {
      SetNotificationWallpaper(orientation, files);
    }

    /**
     * onConfigurationChanged: compares the new configuration's orientation
     * with the recorded one and, only when they differ, reloads the wallpaper.
     * The reload reads the orientation again from the context's resources
     * (resourcesOrientation), which Android has normally already updated to
     * newOrientation.
     */
    method OnConfigurationChanged(newOrientation: int, resourcesOrientation: int, files: WallpaperFiles)
      modifies this`screenOrientation, this`background, this`wallpaperLoads
      ensures newOrientation == old(screenOrientation) ==>
                screenOrientation == old(screenOrientation) &&
                background == old(background) && wallpaperLoads == old(wallpaperLoads)
      ensures newOrientation != old(screenOrientation) ==>
                screenOrientation == resourcesOrientation &&
                background == WallpaperFor(resourcesOrientation, files) &&
                wallpaperLoads == old(wallpaperLoads) + 1
    {
      if newOrientation != screenOrientation {
        SetNotificationWallpaper(resourcesOrientation, files);
      }
    }

    /**
     * onTouchEvent: with the drag shortcut and flip settings available, DOWN
     * arms the flip when the panel is closed and asks for it when the status
     * bar skips to settings; a second finger asks for it when all fingers lie
     * within the handle height. An armed, requested flip switches to settings
     * on a panel shorter than the handle and flips to them otherwise, then
     * disarms. Every event is handed on to the handle view, whose answer is
     * returned (the parameter handleResult).
     */
    method OnTouchEvent(event: MotionEvent, bar: StatusBar, expandedHeight: real, measuredHeight: int,
                        handleResult: bool) returns (handled: bool)
      requires |event.ys| > 0
      modifies this`okToFlip, this`requests, this`forwarded
      ensures handled == handleResult
      ensures forwarded == old(forwarded) + [event]
      ensures !(settingsDragShortcut && bar.hasFlipSettings) ==>
                okToFlip == old(okToFlip) && requests == old(requests)
      ensures settingsDragShortcut && bar.hasFlipSettings ==>
                var armed := if event.actionMasked == ActionDown then expandedHeight == 0.0 else old(okToFlip);
                var asked :=
                  if event.actionMasked == ActionDown then bar.skipToSettingsPanel
                  else event.actionMasked == ActionPointerDown && armed &&
                       PointersWithin(event.ys, handleBarHeight);
                var flip := armed && asked;
                okToFlip == (armed && !flip) &&
                requests == old(requests) +
                  (if !flip then []
                   else if (measuredHeight as real) < handleBarHeight then [SwitchToSettings]
                   else [FlipToSettings])
      // once disarmed, only a new DOWN can flip: at most one flip per gesture
      ensures !old(okToFlip) && event.actionMasked != ActionDown ==> requests == old(requests) && !okToFlip
      ensures |requests| <= |old(requests)| + 1
    {
      if settingsDragShortcut && bar.hasFlipSettings {
        var shouldFlip := false;
        if event.actionMasked == ActionDown {
          okToFlip := expandedHeight == 0.0;
          if bar.skipToSettingsPanel {
            shouldFlip := true;
          }
        } else if event.actionMasked == ActionPointerDown {
          if okToFlip {
            var miny, maxy := PointerSpan(event.ys);
            SpanBelowIffPointersWithin(event.ys, miny, maxy, handleBarHeight);
            if maxy - miny < handleBarHeight {
              shouldFlip := true;
            }
          }
        }
        if okToFlip && shouldFlip {
          if (measuredHeight as real) < handleBarHeight {
            requests := requests + [SwitchToSettings];
          } else {
            requests := requests + [FlipToSettings];
          }
          okToFlip := false;
        }
      }
      forwarded := forwarded + [event];
      handled := handleResult;
    }
  }
}
