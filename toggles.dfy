/**
 * The settings-backed quick-settings tiles ExpandedDesktopToggle and PWToggle.
 * Both classes are the same code over a different settings key and different
 * resources, so one class parameterised by ToggleKind models them both.
 */
module Toggles {
  import opened Optional
  import opened Settings

  datatype ToggleKind = ExpandedDesktop | PowerWidget

  /** The drawable and string resources the tiles show. */
  datatype Res =
    | IcExpandedDesktopOn | IcExpandedDesktopOff
    | IcPwToggleOn | IcPwToggleOff
    | QuickSettingsExpandedDesktop | QuickSettingsExpandedDesktopOff
    | QuickSettingsPwToggleOn | QuickSettingsPwToggleOff

  const ExpandedDesktopState: string := "expanded_desktop_state"
  const ExpandedViewWidget: string := "expanded_view_widget"

  /** The settings key a tile of this kind reads, writes and observes. */
  function Key(kind: ToggleKind): string
  {
    match kind
    case ExpandedDesktop => ExpandedDesktopState
    case PowerWidget => ExpandedViewWidget
  }

  function OnIcon(kind: ToggleKind): Res
  {
    if kind == ExpandedDesktop then IcExpandedDesktopOn else IcPwToggleOn
  }

  function OffIcon(kind: ToggleKind): Res
  {
    if kind == ExpandedDesktop then IcExpandedDesktopOff else IcPwToggleOff
  }

  function OnLabel(kind: ToggleKind): Res
  {
    if kind == ExpandedDesktop then QuickSettingsExpandedDesktop else QuickSettingsPwToggleOn
  }

  function OffLabel(kind: ToggleKind): Res
  {
    if kind == ExpandedDesktop then QuickSettingsExpandedDesktopOff else QuickSettingsPwToggleOff
  }

  /** The read-back rule of updateView: the tile is on only for a stored 1; a missing key reads as 0. */
  function IsEnabled(values: map<string, int>, kind: ToggleKind): (on: bool)
    ensures on <==> Key(kind) in values && values[Key(kind)] == 1
    ensures Key(kind) !in values ==> !on
  {
    GetInt(values, Key(kind), 0) == 1
  }

  /** What a tile shows: its icon and its label. */
  datatype Look = Look(icon: Res, text: Res)

  /** The icon and label updateView chooses: the "on" pair exactly when enabled, the "off" pair otherwise. */
  function LookFor(kind: ToggleKind, enabled: bool): (l: Look)
    ensures l.icon == OnIcon(kind) <==> enabled
    ensures l.text == OnLabel(kind) <==> enabled
    ensures l.icon == OffIcon(kind) <==> !enabled
    ensures l.text == OffLabel(kind) <==> !enabled
  {
    if enabled then Look(OnIcon(kind), OnLabel(kind)) else Look(OffIcon(kind), OffLabel(kind))
  }

  class SettingsToggle {
    const kind: ToggleKind
    const resolver: ContentResolver
    /** mObserver: the observer this tile holds, or null. */
    var observer: Option<Observer>
    /** The last argument passed to setEnabledState. */
    var enabledState: bool
    var look: Look
    /** How many view updates onChange has asked the base class to schedule. */
    var scheduledUpdates: nat

    /** A held observer is registered with the resolver and watches this tile's key. */
    ghost predicate Valid()
      reads this, resolver
    {
      resolver.Valid() &&
      (observer.Some? ==> observer.value in resolver.observers && observer.value.key == Key(kind))
    }

    constructor (kind: ToggleKind, resolver: ContentResolver)
      requires resolver.Valid()
      ensures Valid()
      ensures this.kind == kind && this.resolver == resolver
      ensures observer == None && scheduledUpdates == 0
    {
      this.kind := kind;
      this.resolver := resolver;
      observer := None;
      enabledState := false;
      look := LookFor(kind, false);
      scheduledUpdates := 0;
    }

    /** init: creates a new observer, holds it and registers it on the tile's key. */
    method Init()
      requires Valid()
      modifies this, resolver
      ensures Valid()
      ensures observer.Some? && observer.value.key == Key(kind)
      ensures observer.value !in old(resolver.observers)
      ensures resolver.observers == old(resolver.observers) + {observer.value}
      ensures resolver.values == old(resolver.values)
      ensures enabledState == old(enabledState) && look == old(look)
      ensures scheduledUpdates == old(scheduledUpdates)
    {
      var o := resolver.RegisterContentObserver(Key(kind));
      observer := Some(o);
    }

    /** cleanup: unregisters the held observer and drops it; without one it does nothing. */
    method Cleanup()
      requires Valid()
      modifies this, resolver
      ensures Valid()
      ensures observer == None
      ensures old(observer).Some? ==> resolver.observers == old(resolver.observers) - {old(observer).value}
      ensures old(observer).None? ==> resolver.observers == old(resolver.observers)
      ensures resolver.values == old(resolver.values)
      ensures enabledState == old(enabledState) && look == old(look)
      ensures scheduledUpdates == old(scheduledUpdates)
    {
      if observer.Some? {
        resolver.UnregisterContentObserver(observer.value);
        observer := None;
      }
    }

    /** doEnable: writes 1 under the tile's key, nothing else. */
    method DoEnable()
      requires Valid()
      modifies resolver
      ensures Valid()
      ensures resolver.values == old(resolver.values)[Key(kind) := 1]
      ensures resolver.observers == old(resolver.observers)
      ensures IsEnabled(resolver.values, kind)
    {
      resolver.PutInt(Key(kind), 1);
    }

    /** doDisable: writes 0 under the tile's key, nothing else. */
    method DoDisable()
      requires Valid()
      modifies resolver
      ensures Valid()
      ensures resolver.values == old(resolver.values)[Key(kind) := 0]
      ensures resolver.observers == old(resolver.observers)
      ensures !IsEnabled(resolver.values, kind)
    {
      resolver.PutInt(Key(kind), 0);
    }

    /** updateView: reads the setting back and shows the matching state, icon and label. */
    method UpdateView()
      requires Valid()
      modifies this
      ensures Valid()
      ensures enabledState == IsEnabled(resolver.values, kind)
      ensures look == LookFor(kind, enabledState)
      ensures observer == old(observer) && scheduledUpdates == old(scheduledUpdates)
    {
      var enabled := GetInt(resolver.values, Key(kind), 0) == 1;
      enabledState := enabled;
      look := Look(if enabled then OnIcon(kind) else OffIcon(kind),
                   if enabled then OnLabel(kind) else OffLabel(kind));
    }

    /** SettingsObserver.onChange: only schedules a view update; the setting is not written. */
    method OnChange(selfChange: bool)
      requires Valid()
      modifies this
      ensures Valid()
      ensures scheduledUpdates == old(scheduledUpdates) + 1
      ensures observer == old(observer) && enabledState == old(enabledState) && look == old(look)
    {
      scheduledUpdates := scheduledUpdates + 1;
    }
  }

  /** The two tiles watch different keys, so writing one tile's setting never changes what the other reads. */
  lemma WritesAreIndependent(values: map<string, int>, kind: ToggleKind, other: ToggleKind, v: int)
    requires kind != other
    ensures IsEnabled(values[Key(kind) := v], other) == IsEnabled(values, other)
  {
  }

  /** Writing 1 then reading back shows the tile on; writing 0 shows it off, whatever was stored before. */
  lemma WriteThenReadBack(values: map<string, int>, kind: ToggleKind)
    ensures IsEnabled(values[Key(kind) := 1], kind)
    ensures !IsEnabled(values[Key(kind) := 0], kind)
    ensures LookFor(kind, IsEnabled(values[Key(kind) := 1], kind)) == Look(OnIcon(kind), OnLabel(kind))
  {
  }

  /** A client run: cleanup twice unregisters once; enable, read back, cleanup leave the setting at 1. */
  method CleanupTwice(t: SettingsToggle)
    requires t.Valid()
    modifies t, t.resolver
    ensures t.observer == None
    ensures t.resolver.observers == old(t.resolver.observers)
    ensures t.resolver.values == old(t.resolver.values)[Key(t.kind) := 1]
    ensures t.enabledState && t.look == Look(OnIcon(t.kind), OnLabel(t.kind))
  {
    t.Init();
    var o := t.observer.value;
    t.DoEnable();
    t.UpdateView();
    t.Cleanup();
    assert o !in t.resolver.observers;
    var before := t.resolver.observers;
    t.Cleanup();
    assert t.resolver.observers == before;
  }

  /**
   * init does not look at an observer it already holds: a second init without
   * cleanup overwrites the field, and the first observer stays registered
   * with no tile left to unregister it.
   */
  method InitTwiceLeaksFirstObserver(t: SettingsToggle)
    requires t.Valid() && t.observer.None?
    modifies t, t.resolver
    ensures t.observer.Some?
    ensures exists o :: o !in old(t.resolver.observers) && o in t.resolver.observers &&
                        o.key == Key(t.kind) && t.observer != Some(o)
  {
    t.Init();
    var first := t.observer.value;
    t.Init();
    assert first in t.resolver.observers && t.observer != Some(first);
  }
}
