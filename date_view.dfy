/**
 * The expanded status-bar date widget (DateView): it refreshes its text and
 * colour on time broadcasts, and it holds the broadcast receiver only while
 * it is attached, its window is visible and it and all its View ancestors are
 * VISIBLE.
 */
module DateWidget {
  import opened Settings

  /** View visibility values. */
  const Visible: int := 0

  /** MotionEvent actions. */
  const ActionDown: int := 0
  const ActionUp: int := 1
  const ActionCancel: int := 3

  /** Integer.MIN_VALUE: a stored clock colour equal to it means "reset to the default colour". */
  const MinInt: int := -0x8000_0000

  const StatusbarExpandedClockColor: string := "statusbar_expanded_clock_color"

  /** Intent actions the time receiver is registered for. */
  const ActionTimeTick: string := "android.intent.action.TIME_TICK"
  const ActionTimeChanged: string := "android.intent.action.TIME_SET"
  const ActionTimezoneChanged: string := "android.intent.action.TIMEZONE_CHANGED"
  const TimeActions: set<string> := {ActionTimeTick, ActionTimeChanged, ActionTimezoneChanged}

  /**
   * The visibility chain: index 0 is the date view itself, each following
   * entry the visibility of the next parent that is a View; the chain ends at
   * the first parent that is not a View.
   */
  predicate AllVisible(chain: seq<int>)
  {
    forall k :: 0 <= k < |chain| ==> chain[k] == Visible
  }

  /** isVisible: walks up the chain, false at the first entry that is not VISIBLE, true past the last. */
  method IsVisible(chain: seq<int>) returns (visible: bool)
    requires |chain| > 0
    ensures visible <==> AllVisible(chain)
  {
    var i := 0;
    while true
      invariant 0 <= i < |chain|
      invariant forall k :: 0 <= k < i ==> chain[k] == Visible
      decreases |chain| - i
    {
      if chain[i] != Visible {
        return false;
      }
      if i + 1 < |chain| {
        i := i + 1;
      } else {
        return true;
      }
    }
  }

  /**
   * updateDateColor's choice: the stored colour, or the default colour when
   * nothing is stored or the stored value is the reset sentinel.
   */
  function ClockColor(values: map<string, int>, defaultColor: int): (c: int)
    ensures StatusbarExpandedClockColor in values && values[StatusbarExpandedClockColor] != MinInt
            ==> c == values[StatusbarExpandedClockColor]
    ensures StatusbarExpandedClockColor !in values ==> c == defaultColor
    ensures StatusbarExpandedClockColor in values && values[StatusbarExpandedClockColor] == MinInt
            ==> c == defaultColor
    ensures defaultColor != MinInt ==> c != MinInt
  {
    var stored := GetInt(values, StatusbarExpandedClockColor, defaultColor);
    if stored == MinInt then defaultColor else stored
  }

  /** The broadcast receiver refreshes the clock exactly for the three time actions. */
  predicate RefreshesOn(action: string)
  {
    action == ActionTimeTick || action == ActionTimeChanged || action == ActionTimezoneChanged
  }

  /**
   * The receiver registrations minus unregistrations that setUpdates performs
   * when it evaluates the update condition to conds[0], conds[1], ... in turn,
   * starting with mUpdating == updating. DateView.SetUpdates is the one-step
   * case: its change to the registration count is NetRegistrations of the old
   * mUpdating and the new one.
   */
  function NetRegistrations(updating: bool, conds: seq<bool>): int
    decreases |conds|
  {
    if conds == [] then 0
    else
      (if conds[0] && !updating then 1 else if !conds[0] && updating then -1 else 0)
      + NetRegistrations(conds[0], conds[1..])
  }

  /** mUpdating after setUpdates has seen conds in turn. */
  function FinalUpdating(updating: bool, conds: seq<bool>): bool
  {
    if conds == [] then updating else conds[|conds| - 1]
  }

  /**
   * Over any run of setUpdates calls the receiver is registered once for
   * every time it is held at the end: registrations never pile up and every
   * unregistration matches an earlier registration.
   */
  lemma {:induction false} NetRegistrationsTrackUpdating(updating: bool, conds: seq<bool>)
    ensures NetRegistrations(updating, conds)
            == (if FinalUpdating(updating, conds) then 1 else 0) - (if updating then 1 else 0)
    decreases |conds|
  {
    if conds != [] {
      NetRegistrationsTrackUpdating(conds[0], conds[1..]);
      assert FinalUpdating(conds[0], conds[1..]) == FinalUpdating(updating, conds);
    }
  }

  /** Starting unregistered, every prefix of a run leaves 0 or 1 registrations. */
  lemma RegistrationsStayBelowTwo(conds: seq<bool>, n: nat)
    requires n <= |conds|
    ensures 0 <= NetRegistrations(false, conds[..n]) <= 1
  {
    NetRegistrationsTrackUpdating(false, conds[..n]);
  }

  class DateView {
    const resolver: ContentResolver
    /** The colour white resolves to: the default clock colour. */
    const defaultColor: int
    /** The colour holo_blue_light resolves to: the colour shown while pressed. */
    const highlightColor: int
    /** mClockDateOpens: whether click and touch listeners were installed; onClick and onTouch run only then. */
    const clockDateOpens: bool

    var attachedToWindow: bool
    var windowVisible: bool
    var updating: bool
    /** Visibility of this view and of its View ancestors, innermost first. */
    var chain: seq<int>
    /** mExpandedClockColor. */
    var clockColor: int
    /** The colour last passed to setTextColor. */
    var textColor: int
    /** The time the date text was last formatted from. */
    var shownTime: int
    /** Registrations of the time receiver held with the context. */
    var receiverRegistrations: nat
    /** The actions of the filter the receiver was last registered with. */
    var receiverFilter: set<string>

    /** The receiver is held exactly while mUpdating is true, and mUpdating is the update condition. */
    ghost predicate Valid()
      reads this, resolver
    {
      resolver.Valid() &&
      |chain| > 0 &&
      receiverRegistrations == (if updating then 1 else 0) &&
      (updating ==> receiverFilter == TimeActions) &&
      updating == ShouldUpdate()
    }

    /** The update condition of setUpdates. */
    ghost predicate ShouldUpdate()
      reads this
    {
      attachedToWindow && windowVisible && AllVisible(chain)
    }

    constructor (resolver: ContentResolver, defaultColor: int, highlightColor: int,
                 clockDateOpens: bool, whiteRes: int, chain: seq<int>)
      requires resolver.Valid() && |chain| > 0
      ensures Valid()
      ensures this.resolver == resolver && this.chain == chain
      ensures this.defaultColor == defaultColor && this.highlightColor == highlightColor
      ensures this.clockDateOpens == clockDateOpens
      ensures !attachedToWindow && !windowVisible && !updating && receiverRegistrations == 0
      ensures clockColor == whiteRes
    {
      this.resolver := resolver;
      this.defaultColor := defaultColor;
      this.highlightColor := highlightColor;
      this.clockDateOpens := clockDateOpens;
      this.chain := chain;
      attachedToWindow, windowVisible, updating := false, false, false;
      clockColor := whiteRes;
      textColor := defaultColor;
      shownTime := 0;
      receiverRegistrations := 0;
      receiverFilter := {};
    }

    /** updateDateColor: reads the configured clock colour, resetting the sentinel to the default. */
    method UpdateDateColor()
      modifies this`clockColor
      ensures clockColor == ClockColor(resolver.values, defaultColor)
    {
      clockColor := GetInt(resolver.values, StatusbarExpandedClockColor, defaultColor);
      if clockColor == MinInt {
        clockColor := defaultColor;
      }
    }

    /** updateClock: refreshes the colour, formats the date of now and shows it in that colour. */
    method UpdateClock(now: int)
      modifies this`clockColor, this`shownTime, this`textColor
      ensures clockColor == ClockColor(resolver.values, defaultColor)
      ensures textColor == clockColor && shownTime == now
    {
      UpdateDateColor();
      shownTime := now;
      textColor := clockColor;
    }

    /**
     * setUpdates: re-evaluates the update condition and registers the
     * receiver only when it turns true, unregisters it only when it turns
     * false, and does nothing when it is unchanged.
     */
    method SetUpdates(now: int)
      requires resolver.Valid() && |chain| > 0
      requires receiverRegistrations == (if updating then 1 else 0)
      requires updating ==> receiverFilter == TimeActions
      modifies this`updating, this`receiverRegistrations, this`receiverFilter,
               this`clockColor, this`shownTime, this`textColor
      ensures Valid()
      ensures updating == ShouldUpdate()
      ensures receiverRegistrations == old(receiverRegistrations) + NetRegistrations(old(updating), [updating])
      ensures old(updating) == updating ==>
                receiverRegistrations == old(receiverRegistrations) &&
                receiverFilter == old(receiverFilter) &&
                clockColor == old(clockColor) && textColor == old(textColor) &&
                shownTime == old(shownTime)
      ensures !old(updating) && updating ==>
                receiverRegistrations == old(receiverRegistrations) + 1 &&
                clockColor == ClockColor(resolver.values, defaultColor) &&
                textColor == clockColor && shownTime == now
      ensures old(updating) && !updating ==>
                receiverRegistrations == old(receiverRegistrations) - 1 &&
                clockColor == old(clockColor) && textColor == old(textColor) &&
                shownTime == old(shownTime)
    {
      var visible := IsVisible(chain);
      var update := attachedToWindow && windowVisible && visible;
      if update != updating {
        updating := update;
        if update {
          receiverFilter := TimeActions;
          receiverRegistrations := receiverRegistrations + 1;
          UpdateClock(now);
        } else {
          receiverRegistrations := receiverRegistrations - 1;
        }
      }
    }

    /**
     * onAttachedToWindow: marks the view attached, registers a new clock-colour
     * observer (never unregistered later), refreshes the clock and re-evaluates updates.
     */
    method OnAttachedToWindow(now: int)
      requires Valid()
      modifies this, resolver
      ensures Valid()
      ensures attachedToWindow && updating == (windowVisible && AllVisible(chain))
      ensures windowVisible == old(windowVisible) && chain == old(chain)
      ensures exists o :: o !in old(resolver.observers) && o.key == StatusbarExpandedClockColor &&
                          resolver.observers == old(resolver.observers) + {o}
      ensures resolver.values == old(resolver.values)
      ensures clockColor == ClockColor(resolver.values, defaultColor) && textColor == clockColor
      ensures shownTime == now
    {
      attachedToWindow := true;
      var o := resolver.RegisterContentObserver(StatusbarExpandedClockColor);
      UpdateClock(now);
      SetUpdates(now);
    }

    /** onDetachedFromWindow: marks the view detached; updating stops and a held receiver is released. */
    method OnDetachedFromWindow(now: int)
      requires Valid()
      modifies this
      ensures Valid()
      ensures !attachedToWindow && !updating && receiverRegistrations == 0
      ensures old(updating) ==> receiverRegistrations == old(receiverRegistrations) - 1
      ensures windowVisible == old(windowVisible) && chain == old(chain)
      ensures clockColor == old(clockColor) && textColor == old(textColor) && shownTime == old(shownTime)
    {
      attachedToWindow := false;
      SetUpdates(now);
    }

    /** onWindowVisibilityChanged: records whether the window is VISIBLE, then re-evaluates updates. */
    method OnWindowVisibilityChanged(visibility: int, now: int)
      requires Valid()
      modifies this
      ensures Valid()
      ensures windowVisible == (visibility == Visible)
      ensures attachedToWindow == old(attachedToWindow) && chain == old(chain)
      ensures updating == (attachedToWindow && windowVisible && AllVisible(chain))
      ensures old(updating) == updating ==>
                clockColor == old(clockColor) && textColor == old(textColor) && shownTime == old(shownTime)
      ensures !old(updating) && updating ==>
                clockColor == ClockColor(resolver.values, defaultColor) && textColor == clockColor && shownTime == now
      ensures old(updating) && !updating ==>
                clockColor == old(clockColor) && textColor == old(textColor) && shownTime == old(shownTime)
    {
      windowVisible := visibility == Visible;
      SetUpdates(now);
    }

    /**
     * onVisibilityChanged: the framework has changed the visibility of this
     * view or of the ancestor at position k of the chain; updates are re-evaluated.
     */
    method OnVisibilityChanged(k: nat, visibility: int, now: int)
      requires Valid() && k < |chain|
      modifies this
      ensures Valid()
      ensures chain == old(chain)[k := visibility]
      ensures attachedToWindow == old(attachedToWindow) && windowVisible == old(windowVisible)
      ensures visibility != Visible ==> !updating && receiverRegistrations == 0
      ensures updating == (attachedToWindow && windowVisible && AllVisible(chain))
      ensures old(updating) == updating ==>
                clockColor == old(clockColor) && textColor == old(textColor) && shownTime == old(shownTime)
      ensures !old(updating) && updating ==>
                clockColor == ClockColor(resolver.values, defaultColor) && textColor == clockColor && shownTime == now
      ensures old(updating) && !updating ==>
                clockColor == old(clockColor) && textColor == old(textColor) && shownTime == old(shownTime)
    {
      chain := chain[k := visibility];
      assert chain[k] == visibility;
      SetUpdates(now);
    }

    /** The receiver's onReceive: refreshes the clock for the three time actions, ignores any other. */
    method OnReceive(action: string, now: int)
      modifies this`clockColor, this`shownTime, this`textColor
      ensures RefreshesOn(action) ==>
                clockColor == ClockColor(resolver.values, defaultColor) &&
                textColor == clockColor && shownTime == now
      ensures !RefreshesOn(action) ==>
                clockColor == old(clockColor) && textColor == old(textColor) && shownTime == old(shownTime)
    {
      if action == ActionTimeTick || action == ActionTimeChanged || action == ActionTimezoneChanged {
        UpdateClock(now);
      }
    }

    /** The clock-colour observer's onChange: refreshes the clock. */
    method OnSettingsChange(selfChange: bool, now: int)
      modifies this`clockColor, this`shownTime, this`textColor
      ensures clockColor == ClockColor(resolver.values, defaultColor)
      ensures textColor == clockColor && shownTime == now
    {
      UpdateClock(now);
    }

    /** onClick, colour part: shows the configured clock colour again. */
    method OnClick()
      requires clockDateOpens
      modifies this`clockColor, this`textColor
      ensures clockColor == ClockColor(resolver.values, defaultColor) && textColor == clockColor
    {
      UpdateDateColor();
      textColor := clockColor;
    }

    /**
     * onTouch: DOWN shows the highlight colour, UP and CANCEL the configured
     * colour, other actions change nothing; the event is never consumed.
     */
    method OnTouch(action: int) returns (consumed: bool)
      requires clockDateOpens
      modifies this`clockColor, this`textColor
      ensures !consumed
      ensures action == ActionDown ==> textColor == highlightColor && clockColor == old(clockColor)
      ensures action == ActionUp || action == ActionCancel ==>
                clockColor == ClockColor(resolver.values, defaultColor) && textColor == clockColor
      ensures action != ActionDown && action != ActionUp && action != ActionCancel ==>
                textColor == old(textColor) && clockColor == old(clockColor)
    {
      var a := action;
      if a == ActionDown {
        textColor := highlightColor;
      } else if a == ActionCancel || a == ActionUp {
        UpdateDateColor();
        textColor := clockColor;
      }
      consumed := false;
    }
  }
}
