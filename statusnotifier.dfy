/**
 * The StatusNotifierItem side of driveicon/trayicon.py: the property values
 * `_TrayIconProxy` exports for a tray icon, and `TrayIcon`, whose setters
 * store a new value and then emit the matching `New*` signal so that hosts
 * re-read the property.
 */
module StatusNotifier {
  import opened Wrappers
  import opened Gio
  import DBusMenuSpec
  import DBusMenu

  /** `SNICategory`. */
  datatype Category = ApplicationStatus | Communications | SystemServices | Hardware {
    /** The string the item exports. */
    function Name(): string {
      match this
      case ApplicationStatus => "ApplicationStatus"
      case Communications => "Communications"
      case SystemServices => "SystemServices"
      case Hardware => "Hardware"
    }
  }

  /** `SNIStatus`. */
  datatype Status = Passive | Active | NeedsAttention {
    function Name(): string {
      match this
      case Passive => "Passive"
      case Active => "Active"
      case NeedsAttention => "NeedsAttention"
    }
  }

  /** One entry of an icon-pixmap property: width, height and ARGB32 data. */
  datatype Pixmap = Pixmap(width: int, height: int, data: seq<bv8>)

  /** The `IndexError` of reading the first name of a themed icon that has none. */
  datatype ExportError = NoIconName

  /**
   * `_TrayIconProxy.__icon_name`: the first theme name of a themed icon, the
   * empty string for any other icon or no icon at all.
   */
  function IconName(icon: Option<Icon>): (r: Result<string, ExportError>)
    ensures r.Err? <==> icon.Some? && icon.value.ThemedIcon? && icon.value.names == []
    ensures icon.Some? && icon.value.ThemedIcon? && |icon.value.names| > 0 ==> r == Ok(icon.value.names[0])
    ensures !(icon.Some? && icon.value.ThemedIcon?) ==> r == Ok("")
  {
    match icon
    case Some(ThemedIcon(names)) => if |names| > 0 then Ok(names[0]) else Err(NoIconName)
    case _ => Ok("")
  }

  /** `_TrayIconProxy.__icon_pixmap`: no pixmaps are exported, hosts use the icon name. */
  function IconPixmap(icon: Option<Icon>): seq<Pixmap> {
    []
  }

  /** The tooltip a tray icon holds: an optional icon, a title and a description. */
  datatype ToolTipSpec = ToolTipSpec(icon: Option<Icon>, title: string, description: string)

  /** The exported `(sa(iiay)ss)` tooltip. */
  datatype ToolTipValue = ToolTipValue(iconName: string, iconPixmap: seq<Pixmap>, title: string, description: string)

  /** `_TrayIconProxy.ToolTip`: all-empty without a tooltip, otherwise the tooltip with its icon exported by name. */
  function ToolTip(tooltip: Option<ToolTipSpec>): (r: Result<ToolTipValue, ExportError>)
    ensures tooltip.None? ==> r == Ok(ToolTipValue("", [], "", ""))
    ensures tooltip.Some? ==> (r.Ok? <==> IconName(tooltip.value.icon).Ok?)
    ensures tooltip.Some? && r.Ok? ==>
      r.value == ToolTipValue(IconName(tooltip.value.icon).value, [], tooltip.value.title, tooltip.value.description)
  {
    match tooltip
    case None => Ok(ToolTipValue("", [], "", ""))
    case Some(ToolTipSpec(icon, title, description)) =>
      match IconName(icon)
      case Err(e) => Err(e)
      case Ok(name) => Ok(ToolTipValue(name, IconPixmap(icon), title, description))
  }

  /** What `TrayIcon` holds, as the exported properties read it. */
  datatype ItemState = ItemState(
    category: Category,
    id: string,
    title: string,
    status: Status,
    windowId: nat,
    icon: Icon,
    overlayIcon: Option<Icon>,
    attentionIcon: Option<Icon>,
    tooltip: Option<ToolTipSpec>,
    itemIsMenu: bool)

  /** The org.kde.StatusNotifierItem properties of one item. */
  datatype Properties = Properties(
    category: string,
    id: string,
    title: string,
    status: string,
    windowId: nat,
    iconName: string,
    iconPixmap: seq<Pixmap>,
    overlayIconName: string,
    overlayIconPixmap: seq<Pixmap>,
    attentionIconName: string,
    attentionIconPixmap: seq<Pixmap>,
    attentionMovieName: string,
    toolTip: ToolTipValue,
    itemIsMenu: bool,
    menu: string)

  /** The property getters of `_TrayIconProxy`, read together; `menu` is the object path the menu is served at. */
  function Export(s: ItemState, menu: string): (r: Result<Properties, ExportError>)
    ensures r.Ok? <==> (IconName(Some(s.icon)).Ok? && IconName(s.overlayIcon).Ok? &&
      IconName(s.attentionIcon).Ok? && ToolTip(s.tooltip).Ok?)
    ensures r.Ok? ==>
      && r.value.category == s.category.Name() && r.value.status == s.status.Name()
      && r.value.id == s.id && r.value.title == s.title && r.value.windowId == s.windowId
      && r.value.iconName == IconName(Some(s.icon)).value
      && r.value.overlayIconName == IconName(s.overlayIcon).value
      && r.value.attentionIconName == IconName(s.attentionIcon).value
      && r.value.iconPixmap == [] && r.value.overlayIconPixmap == [] && r.value.attentionIconPixmap == []
      && r.value.attentionMovieName == ""
      && r.value.toolTip == ToolTip(s.tooltip).value
      && r.value.itemIsMenu == s.itemIsMenu && r.value.menu == menu
  {
    var iconName := IconName(Some(s.icon));
    var overlayName := IconName(s.overlayIcon);
    var attentionName := IconName(s.attentionIcon);
    var toolTip := ToolTip(s.tooltip);
    if iconName.Err? || overlayName.Err? || attentionName.Err? || toolTip.Err? then Err(NoIconName)
    else Ok(Properties(
      s.category.Name(), s.id, s.title, s.status.Name(), s.windowId,
      iconName.value, IconPixmap(Some(s.icon)),
      overlayName.value, IconPixmap(s.overlayIcon),
      attentionName.value, IconPixmap(s.attentionIcon),
      "", toolTip.value, s.itemIsMenu, menu))
  }

  /** The signals of `_TrayIconProxy`; `NewStatus` carries the new status name. */
  datatype Signal = NewTitle | NewIcon | NewAttentionIcon | NewOverlayIcon | NewToolTip | NewStatus(status: string)

  /** A signal sent on the bus, with the item's state at the moment it was sent. */
  datatype Emission = Emission(signal: Signal, state: ItemState)

  /** A method a host called on the item, re-emitted as a GObject signal of the tray icon. */
  datatype HostEvent =
    | ContextMenu(x: int, y: int)
    | Activate(x: int, y: int)
    | SecondaryActivate(x: int, y: int)
    | Scroll(delta: int, orientation: string)

  /** The object path the menu is served at unless the caller names another. */
  const DEFAULT_OBJECT_PATH: string := "/SNIMenu"

  /** A `TrayIcon`: its state, the menu served beside it, and the signals it has sent. */
  class TrayIcon {
    const category: Category
    const id: string
    var title: string
    var status: Status
    const windowId: nat
    var icon: Icon
    var overlayIcon: Option<Icon>
    var attentionIcon: Option<Icon>
    var tooltip: Option<ToolTipSpec>
    const itemIsMenu: bool
    const objectPath: string
    const menu: DBusMenu.DBusMenuProxy
    /** The `New*` signals sent on the bus, oldest first. */
    var emitted: seq<Emission>
    /** The GObject signals raised by host calls, oldest first. */
    var events: seq<HostEvent>

    function State(): ItemState
      reads this
    {
      ItemState(category, id, title, status, windowId, icon, overlayIcon, attentionIcon, tooltip, itemIsMenu)
    }

    /**
     * `TrayIcon.__init__` once its menu is served: stores every field, nothing
     * sent yet. The arguments are keyword-only, with the source's defaults.
     */
    constructor (
      nameonly category: Category := ApplicationStatus,
      nameonly id: string,
      nameonly title: string,
      nameonly status: Status := Active,
      nameonly windowId: nat := 0,
      nameonly icon: Icon,
      nameonly overlayIcon: Option<Icon> := None,
      nameonly attentionIcon: Option<Icon> := None,
      nameonly tooltip: Option<ToolTipSpec> := None,
      nameonly itemIsMenu: bool := false,
      nameonly objectPath: string := DEFAULT_OBJECT_PATH,
      nameonly menu: DBusMenu.DBusMenuProxy)
      ensures State() == ItemState(category, id, title, status, windowId, icon, overlayIcon, attentionIcon, tooltip, itemIsMenu)
      ensures this.objectPath == objectPath && this.menu == menu
      ensures emitted == [] && events == []
    {
      this.category := category;
      this.id := id;
      this.title := title;
      this.status := status;
      this.windowId := windowId;
      this.icon := icon;
      this.overlayIcon := overlayIcon;
      this.attentionIcon := attentionIcon;
      this.tooltip := tooltip;
      this.itemIsMenu := itemIsMenu;
      this.objectPath := objectPath;
      this.menu := menu;
      emitted := [];
      events := [];
    }

    /** The properties a host reads now; the menu path is the object path. */
    function Exported(): Result<Properties, ExportError>
      reads this
    {
      Export(State(), objectPath)
    }

    /** The `title` setter: stores the title, then sends `NewTitle`. */
    method SetTitle(title: string)
      modifies this`title, this`emitted
      ensures State() == old(State()).(title := title)
      ensures emitted == old(emitted) + [Emission(NewTitle, State())]
    {
      this.title := title;
      emitted := emitted + [Emission(NewTitle, State())];
    }

    /** The `status` setter: stores the status, then sends `NewStatus` with its name. */
    method SetStatus(status: Status)
      modifies this`status, this`emitted
      ensures State() == old(State()).(status := status)
      ensures emitted == old(emitted) + [Emission(NewStatus(status.Name()), State())]
    {
      this.status := status;
      emitted := emitted + [Emission(NewStatus(status.Name()), State())];
    }

    /** The `icon` setter: stores the icon, then sends `NewIcon`. */
    method SetIcon(icon: Icon)
      modifies this`icon, this`emitted
      ensures State() == old(State()).(icon := icon)
      ensures emitted == old(emitted) + [Emission(NewIcon, State())]
    {
      this.icon := icon;
      emitted := emitted + [Emission(NewIcon, State())];
    }

    /** The `overlay_icon` setter: stores the overlay icon, then sends `NewOverlayIcon`. */
    method SetOverlayIcon(overlayIcon: Option<Icon>)
      modifies this`overlayIcon, this`emitted
      ensures State() == old(State()).(overlayIcon := overlayIcon)
      ensures emitted == old(emitted) + [Emission(NewOverlayIcon, State())]
    {
      this.overlayIcon := overlayIcon;
      emitted := emitted + [Emission(NewOverlayIcon, State())];
    }

    /** The `attention_icon` setter: stores the attention icon, then sends `NewAttentionIcon`. */
    method SetAttentionIcon(attentionIcon: Option<Icon>)
      modifies this`attentionIcon, this`emitted
      ensures State() == old(State()).(attentionIcon := attentionIcon)
      ensures emitted == old(emitted) + [Emission(NewAttentionIcon, State())]
    {
      this.attentionIcon := attentionIcon;
      emitted := emitted + [Emission(NewAttentionIcon, State())];
    }

    /** The `tooltip` setter: stores the tooltip, then sends `NewToolTip`. */
    method SetToolTip(tooltip: Option<ToolTipSpec>)
      modifies this`tooltip, this`emitted
      ensures State() == old(State()).(tooltip := tooltip)
      ensures emitted == old(emitted) + [Emission(NewToolTip, State())]
    {
      this.tooltip := tooltip;
      emitted := emitted + [Emission(NewToolTip, State())];
    }

    /** `_TrayIconProxy.ContextMenu`, `Activate`, `SecondaryActivate` and `Scroll`: the call is re-emitted locally. */
    method HostCall(event: HostEvent)
      modifies this`events
      ensures events == old(events) + [event]
    {
      events := events + [event];
    }
  }

  /**
   * The status as hosts see it after `SetStatus(st)`: the name that `NewStatus`
   * carries, and it differs from the name read before exactly when the status changed.
   */
  lemma StatusSetterVisible(before: ItemState, st: Status, menu: string)
    requires Export(before, menu).Ok?
    ensures Export(before.(status := st), menu).Ok?
    ensures Export(before.(status := st), menu).value == Export(before, menu).value.(status := st.Name())
    ensures Export(before.(status := st), menu).value.status == Export(before, menu).value.status <==> st == before.status
  {
  }

  /** The item's title as hosts see it after `SetTitle(t)`, whatever it was before. */
  lemma TitleSetterVisible(before: ItemState, t: string, menu: string)
    requires Export(before, menu).Ok?
    ensures Export(before.(title := t), menu).Ok?
    ensures Export(before.(title := t), menu).value == Export(before, menu).value.(title := t)
  {
  }

  /** Setting a tooltip whose icon has a name, or none, keeps the properties readable, and hosts read that tooltip. */
  lemma ToolTipSetterVisible(before: ItemState, tooltip: ToolTipSpec, menu: string)
    requires Export(before, menu).Ok?
    requires tooltip.icon.None? || !tooltip.icon.value.ThemedIcon? || tooltip.icon.value.names != []
    ensures Export(before.(tooltip := Some(tooltip)), menu).Ok?
    ensures Export(before.(tooltip := Some(tooltip)), menu).value.toolTip.title == tooltip.title
    ensures Export(before.(tooltip := Some(tooltip)), menu).value.toolTip.description == tooltip.description
  {
  }

  /**
   * `TrayIcon(...)`: serves the menu model at `objectPath` and then the item.
   * Construction fails exactly when the menu cannot be projected.
   */
  method Create(
    nameonly category: Category := ApplicationStatus,
    nameonly id: string,
    nameonly title: string,
    nameonly status: Status := Active,
    nameonly windowId: nat := 0,
    nameonly icon: Icon,
    nameonly overlayIcon: Option<Icon> := None,
    nameonly attentionIcon: Option<Icon> := None,
    nameonly tooltip: Option<ToolTipSpec> := None,
    nameonly itemIsMenu: bool := false,
    nameonly actions: ActionGroup,
    nameonly menuModel: MenuModel,
    nameonly objectPath: string := DEFAULT_OBJECT_PATH,
    nameonly theme: IconTheme)
    returns (r: Result<TrayIcon, DBusMenuSpec.ProjectionError>)
    ensures r.Ok? <==> DBusMenuSpec.ProjectItems(menuModel, actions, theme).Ok?
    ensures r.Ok? ==> fresh(r.value) && r.value.emitted == [] && r.value.events == []
    ensures r.Ok? ==> r.value.State() == ItemState(category, id, title, status, windowId, icon, overlayIcon, attentionIcon, tooltip, itemIsMenu)
    ensures r.Ok? ==> r.value.objectPath == objectPath
    ensures r.Ok? ==> r.value.menu.Valid() && r.value.menu.rootMenu == menuModel && r.value.menu.registry == actions
    ensures r.Ok? ==> (DBusMenu.TreeAt(r.value.menu.nodes, DBusMenu.ROOT) ==
      DBusMenuSpec.Tree(map[], None, DBusMenuSpec.ProjectItems(menuModel, actions, theme).value))
  {
    var menu := DBusMenu.Open(menuModel, actions, theme);
    if menu.Err? {
      return Err(menu.error);
    }
    var item := new TrayIcon(category := category, id := id, title := title, status := status,
      windowId := windowId, icon := icon, overlayIcon := overlayIcon, attentionIcon := attentionIcon,
      tooltip := tooltip, itemIsMenu := itemIsMenu, objectPath := objectPath, menu := menu.value);
    return Ok(item);
  }
}
