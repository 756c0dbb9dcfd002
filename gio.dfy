/**
 * Value-level models of the GLib/Gio collaborators the core reads:
 * variants and their types, icons, menu models, action groups and the
 * icon theme. None of them is part of the program itself; they are the
 * inputs the program walks.
 */
module Gio {
  import opened Wrappers

  /** A `GLib.VariantType`, identified by its type string. */
  datatype VariantType = VariantType(typeString: string)

  const STRING_TYPE: VariantType := VariantType("s")
  const BOOL_TYPE: VariantType := VariantType("b")
  const INT32_TYPE: VariantType := VariantType("i")
  const ICON_TYPE: VariantType := VariantType("(sv)")

  /** A `Gio.Icon`. */
  datatype Icon =
    | ThemedIcon(names: seq<string>)
    | FileIcon(uri: string)

  /** A `GLib.Variant` of the kinds that occur in this program; `IconValue` is a serialized icon. */
  datatype Value =
    | Str(s: string)
    | Bool(b: bool)
    | Int32(i: int)
    | IconValue(icon: Icon)

  function TypeOf(v: Value): (t: VariantType)
    ensures t == STRING_TYPE <==> v.Str?
    ensures t == BOOL_TYPE <==> v.Bool?
  {
    match v
    case Str(_) => STRING_TYPE
    case Bool(_) => BOOL_TYPE
    case Int32(_) => INT32_TYPE
    case IconValue(_) => ICON_TYPE
  }

  /** `Gio.Icon.deserialize`: only serialized icons give an icon back. */
  function Deserialize(v: Value): Option<Icon> {
    if v.IconValue? then Some(v.icon) else None
  }

  // Standard menu attribute names (Gio.MENU_ATTRIBUTE_*).
  const LABEL: string := "label"
  const ACTION: string := "action"
  const TARGET: string := "target"
  const ICON: string := "icon"

  type ModelId = nat

  /**
   * A `Gio.MenuModel`: an instance identity and its positions, in order.
   * Each position has its attributes and its section and submenu links.
   */
  datatype MenuModel = MenuModel(id: ModelId, items: seq<MenuPosition>)

  datatype MenuPosition = MenuPosition(
    attrs: map<string, Value>,
    section: Option<MenuModel>,
    submenu: Option<MenuModel>)

  /** One action of a `Gio.ActionGroup`: its enabled flag and its state (None for a stateless action). */
  datatype Action = Action(enabled: bool, state: Option<Value>)

  /** A `Gio.ActionGroup` as the projector queries it. */
  datatype ActionGroup = ActionGroup(actions: map<string, Action>) {

    /** `get_action_enabled`; an unknown action reads as disabled. */
    function Enabled(name: string): bool {
      name in actions && actions[name].enabled
    }

    /** `get_action_state`; None for a stateless or unknown action. */
    function State(name: string): Option<Value> {
      if name in actions then actions[name].state else None
    }

    /** `get_action_state_type`: the type of the state, None when there is no state. */
    function StateType(name: string): (t: Option<VariantType>)
      ensures t.Some? <==> State(name).Some?
    {
      match State(name)
      case None => None
      case Some(v) => Some(TypeOf(v))
    }

    /** The group after `name`'s enabled flag became `enabled`. */
    function WithEnabled(name: string, enabled: bool): (g: ActionGroup)
      ensures g.Enabled(name) == enabled && g.State(name) == State(name)
      ensures forall a :: a != name ==> g.Enabled(a) == Enabled(a) && g.State(a) == State(a)
    {
      if name in actions then ActionGroup(actions[name := actions[name].(enabled := enabled)])
      else ActionGroup(actions[name := Action(enabled, None)])
    }

    /** The group after `name`'s state became `value`. */
    function WithState(name: string, value: Value): (g: ActionGroup)
      ensures g.State(name) == Some(value) && g.Enabled(name) == Enabled(name)
      ensures forall a :: a != name ==> g.Enabled(a) == Enabled(a) && g.State(a) == State(a)
    {
      if name in actions then ActionGroup(actions[name := actions[name].(state := Some(value))])
      else ActionGroup(actions[name := Action(false, Some(value))])
    }
  }

  /**
   * The icon theme of the display, as an oracle: the name lists it can
   * render, each with the icon name its lookup resolves to.
   */
  datatype IconTheme = IconTheme(resolved: map<seq<string>, string>) {
    predicate HasIcon(names: seq<string>) {
      names in resolved
    }

    function LookupName(names: seq<string>): string
      requires HasIcon(names)
    {
      resolved[names]
    }
  }
}
