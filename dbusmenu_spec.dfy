/**
 * What `_DBusMenuProxy` (driveicon/trayicon.py) builds, as pure functions:
 * the dbusmenu tree that a traversal of a menu model yields, given the
 * action group's current state and the icon theme. The imperative
 * projector in module DBusMenu is proved to build exactly these trees.
 */
module DBusMenuSpec {
  import opened Wrappers
  import opened Gio
  import opened VariantTypeEq

  // dbusmenu property names.
  const TYPE: string := "type"
  const LABEL_PROP: string := "label"
  const ENABLED: string := "enabled"
  const ICON_NAME: string := "icon-name"
  const TOGGLE_TYPE: string := "toggle-type"
  const TOGGLE_STATE: string := "toggle-state"
  const CHILDREN_DISPLAY: string := "children-display"

  // dbusmenu property values.
  const SEPARATOR: string := "separator"
  const RADIO: string := "radio"
  const CHECKMARK: string := "checkmark"
  const SUBMENU: string := "submenu"
  const ON: int := 1
  const OFF: int := 0

  /** A dbusmenu property value. */
  datatype Prop = PStr(s: string) | PBool(b: bool) | PInt(i: int)

  /** What activating a node does: `activate_action(action, target)` on the action group. */
  datatype Activation = Activation(action: string, target: Option<Value>)

  /** A dbusmenu node: its properties, its activation binding and its children, in order. */
  datatype Tree = Tree(props: map<string, Prop>, activation: Option<Activation>, children: seq<Tree>)

  /** The `ValueError` raised for an icon that is not a themed icon. */
  datatype ProjectionError = UnsupportedIcon(icon: Value)

  /** The attributes of one menu position that the projector reads. */
  datatype ItemAttributes = ItemAttributes(
    labelText: Option<string>,
    iconName: Option<string>,
    action: Option<string>,
    target: Option<Value>)

  function Separator(): Tree {
    Tree(map[TYPE := PStr(SEPARATOR)], None, [])
  }

  predicate IsSeparator(t: Tree) {
    TYPE in t.props && t.props[TYPE] == PStr(SEPARATOR)
  }

  /** The names of a themed icon serialized in `v`, None for any other icon or value. */
  function ThemedNames(v: Value): Option<seq<string>> {
    match Deserialize(v)
    case Some(ThemedIcon(names)) => Some(names)
    case _ => None
  }

  function LabelOf(attrs: map<string, Value>): Option<string> {
    if LABEL in attrs && attrs[LABEL].Str? then Some(attrs[LABEL].s) else None
  }

  function ActionOf(attrs: map<string, Value>): Option<string> {
    if ACTION in attrs && attrs[ACTION].Str? then Some(attrs[ACTION].s) else None
  }

  function TargetOf(attrs: map<string, Value>): Option<Value> {
    if TARGET in attrs then Some(attrs[TARGET]) else None
  }

  /** The icon name a themed icon resolves to; None when there is no icon or the theme lacks it. */
  function IconNameOf(attrs: map<string, Value>, theme: IconTheme): Option<string> {
    if ICON !in attrs then None
    else match ThemedNames(attrs[ICON])
      case Some(names) => if theme.HasIcon(names) then Some(theme.LookupName(names)) else None
      case None => None
  }

  /** The attribute loop of `__build_dbus_menu_item`: fails only on an icon that is not themed. */
  function ReadAttributes(attrs: map<string, Value>, theme: IconTheme): (r: Result<ItemAttributes, ProjectionError>)
    ensures r.Err? <==> ICON in attrs && ThemedNames(attrs[ICON]).None?
    ensures r.Ok? ==> (r.value.iconName.Some? <==> ICON in attrs && theme.HasIcon(ThemedNames(attrs[ICON]).value))
    ensures r.Ok? && r.value.iconName.Some? ==> r.value.iconName.value == theme.LookupName(ThemedNames(attrs[ICON]).value)
    ensures r.Ok? ==> (r.value.labelText.Some? <==> LABEL in attrs && attrs[LABEL].Str?)
    ensures r.Ok? && r.value.labelText.Some? ==> r.value.labelText.value == attrs[LABEL].s
    ensures r.Ok? ==> (r.value.action.Some? <==> ACTION in attrs && attrs[ACTION].Str?)
    ensures r.Ok? && r.value.action.Some? ==> r.value.action.value == attrs[ACTION].s
    ensures r.Ok? ==> (r.value.target.Some? <==> TARGET in attrs) && (r.value.target.Some? ==> r.value.target.value == attrs[TARGET])
  {
    if ICON in attrs && ThemedNames(attrs[ICON]).None? then Err(UnsupportedIcon(attrs[ICON]))
    else Ok(ItemAttributes(LabelOf(attrs), IconNameOf(attrs, theme), ActionOf(attrs), TargetOf(attrs)))
  }

  /** The properties the attribute loop sets: label and icon name. */
  function AttributeProps(a: ItemAttributes): (props: map<string, Prop>)
    ensures LABEL_PROP in props <==> a.labelText.Some?
    ensures ICON_NAME in props <==> a.iconName.Some?
    ensures props.Keys <= {LABEL_PROP, ICON_NAME}
    ensures a.labelText.Some? ==> props[LABEL_PROP] == PStr(a.labelText.value)
    ensures a.iconName.Some? ==> props[ICON_NAME] == PStr(a.iconName.value)
  {
    var withLabel := if a.labelText.Some? then map[LABEL_PROP := PStr(a.labelText.value)] else map[];
    if a.iconName.Some? then withLabel[ICON_NAME := PStr(a.iconName.value)] else withLabel
  }

  /** `toggle-state` for an expected value and the action's current state. */
  function ToggleState(expected: Option<Value>, current: Option<Value>): int {
    if expected == current then ON else OFF
  }

  /** The value a toggle node is `on` for: the target of a radio item, `true` for a checkmark. */
  function ExpectedOf(props: map<string, Prop>, activation: Activation): Option<Value> {
    if TOGGLE_TYPE in props && props[TOGGLE_TYPE] == PStr(RADIO) then activation.target else Some(Bool(true))
  }

  /** Whether an action's state type makes its items toggles (string or boolean state). */
  predicate IsToggleAction(group: ActionGroup, action: string) {
    VariantTypeEqual(group.StateType(action), Some(STRING_TYPE))
    || VariantTypeEqual(group.StateType(action), Some(BOOL_TYPE))
  }

  /** The properties an action binding adds: `enabled`, and for a toggle action `toggle-type` and `toggle-state`. */
  function BindingProps(props: map<string, Prop>, action: string, target: Option<Value>, group: ActionGroup): map<string, Prop> {
    var withEnabled := props[ENABLED := PBool(group.Enabled(action))];
    if IsToggleAction(group, action) then
      var isString := VariantTypeEqual(group.StateType(action), Some(STRING_TYPE));
      var expected := if isString then target else Some(Bool(true));
      withEnabled[TOGGLE_TYPE := PStr(if isString then RADIO else CHECKMARK)]
                 [TOGGLE_STATE := PInt(ToggleState(expected, group.State(action)))]
    else withEnabled
  }

  /** The properties of a section header: its label and icon, disabled. */
  function HeaderProps(a: ItemAttributes): map<string, Prop> {
    AttributeProps(a)[ENABLED := PBool(false)]
  }

  /** The properties of an item before its submenu is projected: its label and icon, and its binding when it names an action. */
  function ItemProps(a: ItemAttributes, group: ActionGroup): map<string, Prop> {
    if a.action.Some? then BindingProps(AttributeProps(a), a.action.value, a.target, group) else AttributeProps(a)
  }

  /** The activation an item forwards: its action with its target, if it names an action. */
  function ItemActivation(a: ItemAttributes): Option<Activation> {
    if a.action.Some? then Some(Activation(a.action.value, a.target)) else None
  }

  /** `children-display` is set exactly when a submenu yields children. */
  function WithChildrenDisplay(props: map<string, Prop>, children: nat): map<string, Prop> {
    if children > 0 then props[CHILDREN_DISPLAY := PStr(SUBMENU)] else props
  }

  /**
   * `__build_dbus_menu_item` for position `i` of `m`: a section header
   * (disabled, never bound) or an item with its binding and, for a
   * submenu link, its projected children.
   */
  function ProjectItem(m: MenuModel, i: nat, isHeader: bool, group: ActionGroup, theme: IconTheme): Result<Tree, ProjectionError>
    requires i < |m.items|
    decreases m, 0, 0
  {
    var pos := m.items[i];
    match ReadAttributes(pos.attrs, theme)
    case Err(e) => Err(e)
    case Ok(a) =>
      if isHeader then Ok(Tree(HeaderProps(a), None, []))
      else if pos.submenu.None? then Ok(Tree(ItemProps(a, group), ItemActivation(a), []))
      else match ProjectItems(pos.submenu.value, group, theme)
        case Err(e) => Err(e)
        case Ok(children) => Ok(Tree(WithChildrenDisplay(ItemProps(a, group), |children|), ItemActivation(a), children))
  }

  /**
   * What one turn of the loop of `__build_dbus_menu_items` yields for
   * position `i`: `at_first_item` holds exactly at position 0 and
   * `at_section_end` exactly after a section position.
   */
  function Step(m: MenuModel, i: nat, group: ActionGroup, theme: IconTheme): Result<seq<Tree>, ProjectionError>
    requires i < |m.items|
    decreases m, 1, 0
  {
    var pos := m.items[i];
    if pos.section.Some? then
      match SectionHead(m, i, group, theme)
      case Err(e) => Err(e)
      case Ok(head) =>
        match ProjectItems(pos.section.value, group, theme)
        case Err(e) => Err(e)
        case Ok(inner) => Ok(head + inner)
    else
      var lead := if i > 0 && m.items[i - 1].section.Some? then [Separator()] else [];
      match ProjectItem(m, i, false, group, theme)
      case Err(e) => Err(e)
      case Ok(t) => Ok(lead + [t])
  }

  /** What a section position yields before its contents: a separator unless it comes first, then a header if it has a label. */
  function SectionHead(m: MenuModel, i: nat, group: ActionGroup, theme: IconTheme): Result<seq<Tree>, ProjectionError>
    requires i < |m.items|
    decreases m, 0, 1
  {
    var lead := if i > 0 then [Separator()] else [];
    if LABEL !in m.items[i].attrs then Ok(lead)
    else match ProjectItem(m, i, true, group, theme)
      case Err(e) => Err(e)
      case Ok(header) => Ok(lead + [header])
  }

  /** The nodes yielded for the first `n` positions of `m`. */
  function ProjectUpTo(m: MenuModel, n: nat, group: ActionGroup, theme: IconTheme): Result<seq<Tree>, ProjectionError>
    requires n <= |m.items|
    decreases m, 2, n
  {
    if n == 0 then Ok([])
    else match ProjectUpTo(m, n - 1, group, theme)
      case Err(e) => Err(e)
      case Ok(before) =>
        match Step(m, n - 1, group, theme)
        case Err(e) => Err(e)
        case Ok(more) => Ok(before + more)
  }

  /** The nodes `__build_dbus_menu_items(m)` yields. */
  function ProjectItems(m: MenuModel, group: ActionGroup, theme: IconTheme): Result<seq<Tree>, ProjectionError>
    decreases m, 3, 0
  {
    ProjectUpTo(m, |m.items|, group, theme)
  }

  /** The model a position's traversal follows: its section if it has one, else its submenu. */
  function Followed(pos: MenuPosition): Option<MenuModel> {
    if pos.section.Some? then pos.section else pos.submenu
  }

  /** The ids of the models among the first `n` positions' followed links, and below them. */
  function LinkedIds(m: MenuModel, n: nat): set<ModelId>
    requires n <= |m.items|
    decreases m, 0, n
  {
    if n == 0 then {}
    else
      var pos := m.items[n - 1];
      LinkedIds(m, n - 1) + if pos.section.Some? then ReachableIds(pos.section.value)
                            else if pos.submenu.Some? then ReachableIds(pos.submenu.value)
                            else {}
  }

  /** The ids of every model a traversal from `m` visits: the models it subscribes to. */
  function ReachableIds(m: MenuModel): set<ModelId>
    decreases m, 1, 0
  {
    {m.id} + LinkedIds(m, |m.items|)
  }

  /** One more position appends its step to the nodes yielded so far. */
  lemma ProjectUpToNext(m: MenuModel, i: nat, group: ActionGroup, theme: IconTheme)
    requires i < |m.items| && ProjectUpTo(m, i, group, theme).Ok? && Step(m, i, group, theme).Ok?
    ensures ProjectUpTo(m, i + 1, group, theme) == Ok(ProjectUpTo(m, i, group, theme).value + Step(m, i, group, theme).value)
    ensures LinkedIds(m, i + 1) == LinkedIds(m, i) + if m.items[i].section.Some? then ReachableIds(m.items[i].section.value)
                                                    else if m.items[i].submenu.Some? then ReachableIds(m.items[i].submenu.value)
                                                    else {}
  {
  }

  /** Once a prefix of the positions fails, every longer prefix fails. */
  lemma {:induction false} ErrPersists(m: MenuModel, i: nat, n: nat, group: ActionGroup, theme: IconTheme)
    requires i <= n <= |m.items|
    requires ProjectUpTo(m, i, group, theme).Err?
    ensures ProjectUpTo(m, n, group, theme).Err?
    decreases n - i
  {
    if i < n {
      assert ProjectUpTo(m, i + 1, group, theme).Err?;
      ErrPersists(m, i + 1, n, group, theme);
    }
  }

  /** A position whose nodes cannot be built makes the whole menu fail. */
  lemma StepErrPersists(m: MenuModel, i: nat, group: ActionGroup, theme: IconTheme)
    requires i < |m.items| && Step(m, i, group, theme).Err?
    ensures ProjectItems(m, group, theme).Err?
  {
    assert ProjectUpTo(m, i + 1, group, theme).Err?;
    ErrPersists(m, i + 1, |m.items|, group, theme);
  }

  // What the projection promises, position by position.

  /**
   * An item's properties: `enabled` exactly when it names an action, with
   * the action's flag; `radio` for a string state, on iff the target is the
   * state; `checkmark` for a boolean state, on iff the state is true; no
   * toggle properties for any other state type or none.
   */
  lemma ItemBinding(a: ItemAttributes, group: ActionGroup)
    ensures a.action.None? ==> ItemProps(a, group).Keys <= {LABEL_PROP, ICON_NAME}
    ensures a.action.Some? ==> ENABLED in ItemProps(a, group) && ItemProps(a, group)[ENABLED] == PBool(group.Enabled(a.action.value))
    ensures a.action.Some? && group.StateType(a.action.value) == Some(STRING_TYPE) ==>
      && ItemProps(a, group)[TOGGLE_TYPE] == PStr(RADIO)
      && ItemProps(a, group)[TOGGLE_STATE] == PInt(if a.target == group.State(a.action.value) then ON else OFF)
    ensures a.action.Some? && group.StateType(a.action.value) == Some(BOOL_TYPE) ==>
      && ItemProps(a, group)[TOGGLE_TYPE] == PStr(CHECKMARK)
      && ItemProps(a, group)[TOGGLE_STATE] == PInt(if group.State(a.action.value) == Some(Bool(true)) then ON else OFF)
    ensures a.action.Some? && group.StateType(a.action.value) != Some(STRING_TYPE) && group.StateType(a.action.value) != Some(BOOL_TYPE) ==>
      TOGGLE_TYPE !in ItemProps(a, group) && TOGGLE_STATE !in ItemProps(a, group)
    ensures TYPE !in ItemProps(a, group) && CHILDREN_DISPLAY !in ItemProps(a, group)
  {
  }

  /** A section header is disabled, has no children and is bound to no action. */
  lemma HeaderUnbound(m: MenuModel, i: nat, group: ActionGroup, theme: IconTheme)
    requires i < |m.items| && ProjectItem(m, i, true, group, theme).Ok?
    ensures ProjectItem(m, i, true, group, theme).value.activation.None?
    ensures ProjectItem(m, i, true, group, theme).value.children == []
    ensures ProjectItem(m, i, true, group, theme).value.props[ENABLED] == PBool(false)
    ensures !IsSeparator(ProjectItem(m, i, true, group, theme).value)
  {
  }

  /**
   * An item node forwards its action with its target, is never a
   * separator, has the submenu's nodes as its children in order, and shows
   * `children-display` exactly when it has children.
   */
  lemma ItemNode(m: MenuModel, i: nat, group: ActionGroup, theme: IconTheme)
    requires i < |m.items| && ProjectItem(m, i, false, group, theme).Ok?
    ensures var t := ProjectItem(m, i, false, group, theme).value;
      && !IsSeparator(t)
      && (ActionOf(m.items[i].attrs).Some? <==> t.activation.Some?)
      && (t.activation.Some? ==> t.activation.value == Activation(ActionOf(m.items[i].attrs).value, TargetOf(m.items[i].attrs)))
      && (m.items[i].submenu.None? ==> t.children == [])
      && (m.items[i].submenu.Some? ==> ProjectItems(m.items[i].submenu.value, group, theme) == Ok(t.children))
      && (CHILDREN_DISPLAY in t.props <==> |t.children| > 0)
  {
    var a := ReadAttributes(m.items[i].attrs, theme).value;
    ItemBinding(a, group);
  }

  /**
   * A section position yields no node of its own: a separator unless it is
   * the first position, a header if it has a label, then the section's
   * nodes inline at the same level.
   */
  lemma SectionStep(m: MenuModel, i: nat, group: ActionGroup, theme: IconTheme)
    requires i < |m.items| && m.items[i].section.Some? && Step(m, i, group, theme).Ok?
    ensures SectionHead(m, i, group, theme).Ok? && ProjectItems(m.items[i].section.value, group, theme).Ok?
    ensures Step(m, i, group, theme).value ==
      SectionHead(m, i, group, theme).value + ProjectItems(m.items[i].section.value, group, theme).value
    ensures |SectionHead(m, i, group, theme).value| == (if i > 0 then 1 else 0) + (if LABEL in m.items[i].attrs then 1 else 0)
    ensures i > 0 ==> SectionHead(m, i, group, theme).value[0] == Separator()
    ensures LABEL in m.items[i].attrs ==>
      var head := SectionHead(m, i, group, theme).value;
      !IsSeparator(head[|head| - 1]) && head[|head| - 1].activation.None?
  {
    if LABEL in m.items[i].attrs {
      HeaderUnbound(m, i, group, theme);
    }
  }

  /**
   * Any other position yields its item node, preceded by one separator
   * exactly when the position before it is a section.
   */
  lemma PlainStep(m: MenuModel, i: nat, group: ActionGroup, theme: IconTheme)
    requires i < |m.items| && m.items[i].section.None? && Step(m, i, group, theme).Ok?
    ensures ProjectItem(m, i, false, group, theme).Ok?
    ensures var r := Step(m, i, group, theme).value;
      && |r| == (if i > 0 && m.items[i - 1].section.Some? then 2 else 1)
      && (IsSeparator(r[0]) <==> i > 0 && m.items[i - 1].section.Some?)
      && r[|r| - 1] == ProjectItem(m, i, false, group, theme).value
  {
    ItemNode(m, i, group, theme);
  }
}
