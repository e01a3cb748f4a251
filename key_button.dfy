/**
 * ExtensibleKeyButtonView: a navigation-bar button whose click action and
 * long-press action are configurable strings. Key actions become key codes
 * sent by the base key button; any other action is launched through a click
 * listener.
 */
module KeyButtons {
  import opened Optional

  /** SourceryTarget action names. */
  const ActionHome: string := "**home**"
  const ActionBack: string := "**back**"
  const ActionMenu: string := "**menu**"
  const ActionPower: string := "**power**"
  const ActionSearch: string := "**search**"
  const ActionRecents: string := "**recents**"
  const ActionNull: string := "**null**"

  /** KeyEvent key codes. */
  const KeycodeHome: int := 3
  const KeycodeBack: int := 4
  const KeycodePower: int := 26
  const KeycodeMenu: int := 82
  const KeycodeSearch: int := 84

  /** The view id: the one inflated from the layout, or one that setActions assigned. */
  datatype ViewId = Inflated | Home | Back | Menu | RecentApps

  /** The fields setActions reads and writes. */
  datatype ButtonState = ButtonState(
    clickAction: Option<string>,
    longpress: Option<string>,
    code: int,
    id: ViewId,
    supportsLongPress: bool,
    clickListener: bool,
    longClickListener: bool)

  /** The actions that setActions turns into a key code. */
  predicate IsKeyAction(action: string)
  {
    action in {ActionHome, ActionBack, ActionMenu, ActionPower, ActionSearch}
  }

  /** The key code of a key action. */
  function KeyCode(action: string): (code: int)
    requires IsKeyAction(action)
    ensures code != 0
  {
    if action == ActionHome then KeycodeHome
    else if action == ActionBack then KeycodeBack
    else if action == ActionMenu then KeycodeMenu
    else if action == ActionPower then KeycodePower
    else KeycodeSearch
  }

  /** The long-press rule: a long-press action is given and it is a real action or the button sends a key. */
  predicate LongPressAllowed(longpress: Option<string>, code: int)
  {
    longpress.Some? && (longpress.value != ActionNull || code != 0)
  }

  /** The state after setActions(clickAction, longpress). */
  function AfterSetActions(s: ButtonState, clickAction: Option<string>, longpress: Option<string>): (t: ButtonState)
    // both arguments are stored, always
    ensures t.clickAction == clickAction && t.longpress == longpress
    // a null click action changes nothing else
    ensures clickAction.None? ==> t == s.(clickAction := clickAction, longpress := longpress)
    // HOME, BACK and MENU set their key code and id
    ensures clickAction == Some(ActionHome) ==> t.code == KeycodeHome && t.id == Home
    ensures clickAction == Some(ActionBack) ==> t.code == KeycodeBack && t.id == Back
    ensures clickAction == Some(ActionMenu) ==> t.code == KeycodeMenu && t.id == Menu
    // POWER and SEARCH set their key code only
    ensures clickAction == Some(ActionPower) ==> t.code == KeycodePower && t.id == s.id
    ensures clickAction == Some(ActionSearch) ==> t.code == KeycodeSearch && t.id == s.id
    // key actions install no click listener
    ensures clickAction.Some? && IsKeyAction(clickAction.value) ==> t.clickListener == s.clickListener
    // every other action: click listener, stale key code, id recent_apps
    ensures clickAction.Some? && !IsKeyAction(clickAction.value) ==>
              t.clickListener && t.code == s.code && t.id == RecentApps
    // with a click action, long press is supported exactly under the rule, judged on the new code
    ensures clickAction.Some? ==> (t.supportsLongPress <==> LongPressAllowed(longpress, t.code))
    ensures clickAction.Some? ==>
              t.longClickListener == (s.longClickListener || LongPressAllowed(longpress, t.code))
  {
    match clickAction
    case None => s.(clickAction := clickAction, longpress := longpress)
    case Some(c) =>
      var code := if IsKeyAction(c) then KeyCode(c) else s.code;
      var id :=
        if c == ActionHome then Home
        else if c == ActionBack then Back
        else if c == ActionMenu then Menu
        else if c == ActionPower || c == ActionSearch then s.id
        else RecentApps;
      var allowed := LongPressAllowed(longpress, code);
      ButtonState(clickAction, longpress, code, id, allowed,
                  s.clickListener || !IsKeyAction(c), s.longClickListener || allowed)
  }

  /** setActions with the same arguments a second time changes nothing. */
  lemma SetActionsIdempotent(s: ButtonState, clickAction: Option<string>, longpress: Option<string>)
    ensures AfterSetActions(AfterSetActions(s, clickAction, longpress), clickAction, longpress)
            == AfterSetActions(s, clickAction, longpress)
  {
  }

  /** A key action always ends up with long press exactly when a long-press action is given. */
  lemma KeyActionLongPress(s: ButtonState, action: string, longpress: Option<string>)
    requires IsKeyAction(action)
    ensures AfterSetActions(s, Some(action), longpress).supportsLongPress <==> longpress.Some?
  {
  }

  /**
   * For an action that is not a key, getCode() still returns what an earlier
   * call set: after HOME, an app action with ACTION_NULL long press keeps
   * code KEYCODE_HOME and so gets long press, while the same call on a
   * button that never had a code does not.
   */
  lemma StaleCodeDecidesLongPress(s: ButtonState, app: string)
    requires !IsKeyAction(app) && app != ActionNull
    ensures var t := AfterSetActions(AfterSetActions(s, Some(ActionHome), None), Some(app), Some(ActionNull));
            t.code == KeycodeHome && t.supportsLongPress && t.id == RecentApps
    ensures s.code == 0 ==> !AfterSetActions(s, Some(app), Some(ActionNull)).supportsLongPress
  {
  }

  class ExtensibleKeyButtonView {
    var clickAction: Option<string>
    var longpress: Option<string>
    /** mCode of the key button base class: the key code it sends, 0 for none. */
    var code: int
    var id: ViewId
    var supportsLongPress: bool
    /** Whether mClickListener / mLongPressListener are installed. */
    var clickListener: bool
    var longClickListener: bool

    ghost function State(): ButtonState
      reads this
    {
      ButtonState(clickAction, longpress, code, id, supportsLongPress, clickListener, longClickListener)
    }

    /**
     * The constructor: the base class takes the code and long-press flag from
     * the layout attributes, then setActions is applied.
     */
    constructor (attrCode: int, attrSupportsLongPress: bool, clickAction: Option<string>, longpress: Option<string>)
      ensures State() == AfterSetActions(
                ButtonState(None, None, attrCode, Inflated, attrSupportsLongPress, false, false),
                clickAction, longpress)
    {
      this.clickAction := None;
      this.longpress := None;
      code := attrCode;
      id := Inflated;
      supportsLongPress := attrSupportsLongPress;
      clickListener := false;
      longClickListener := false;
      new;
      SetActions(clickAction, longpress);
    }

    /** setActions: stores both actions and maps the click action to a key code, id and listeners. */
    method SetActions(action: Option<string>, longAction: Option<string>)
      modifies this
      ensures State() == AfterSetActions(old(State()), action, longAction)
    {
      clickAction := action;
      longpress := longAction;
      if action.Some? {
        var c := action.value;
        if c == ActionHome {
          code := KeycodeHome;
          id := Home;
        } else if c == ActionBack {
          code := KeycodeBack;
          id := Back;
        } else if c == ActionMenu {
          code := KeycodeMenu;
          id := Menu;
        } else if c == ActionPower {
          code := KeycodePower;
        } else if c == ActionSearch {
          code := KeycodeSearch;
        } else {
          clickListener := true;
          if c == ActionRecents {
            id := RecentApps;
          }
          id := RecentApps;
        }
        supportsLongPress := false;
        if longAction.Some? {
          if longAction.value != ActionNull || code != 0 {
            supportsLongPress := true;
            longClickListener := true;
          }
        }
      }
    }

    /** The click listener: launches the current click action. */
    method OnClick() returns (launched: Option<string>)
      requires clickListener
      ensures launched == clickAction
    {
      launched := clickAction;
    }

    /**
     * The long-click listener: launches the current long-press action and
     * reports the launcher's result (the parameter targetResult) as handled.
     */
    method OnLongClick(targetResult: bool) returns (launched: Option<string>, handled: bool)
      requires longClickListener
      ensures launched == longpress && handled == targetResult
    {
      launched := longpress;
      handled := targetResult;
    }
  }
}
