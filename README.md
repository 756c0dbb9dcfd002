# driveicon core in Dafny

A verified model of the core of driveicon. driveicon is a tray icon that lists drives, volumes and mounts in a menu. It serves the icon over the StatusNotifierItem D-Bus protocol and the menu over the `com.canonical.dbusmenu` protocol.

The model has these modules:

- **`DBusMenuSpec`** (dbusmenu_spec.dfy): the pure reference.
  - It gives the dbusmenu tree that `_DBusMenuProxy` builds from a `Gio.MenuModel`, given the action group and the icon theme.
  - Separators are placed by the `at_first_item` / `at_section_end` flags. Note that `at_first_item` is cleared after every position, including a section that yields nothing.
  - Sections are inlined. Their headers are disabled and unbound.
  - Items bind `enabled` and the `radio`/`checkmark` toggles, and a submenu sets `children-display` only when it has children.
  - An icon that is not a themed icon is the `ValueError` that aborts the traversal.
- **`DBusMenu`** (dbusmenu.dfy): `_DBusMenuProxy` as a class.
  - Nodes live in an arena (node 0 is the root, and every child is created after its parent).
  - The class keeps the two reverse indexes from action names to nodes and the list of subscribed models.
  - `Rebuild` and the traversal methods are proved to build exactly the `DBusMenuSpec` tree. Afterwards every indexed node is in that tree, and each model is subscribed once.
  - The enabled and state handlers patch exactly the indexed nodes. They keep the indexes complete and sound, and keep every node in step with the changes that the two signals report.
- **`StatusNotifier`** (statusnotifier.dfy): the `_TrayIconProxy` property export (icon names, empty pixmaps, tooltip) and `TrayIcon`. `TrayIcon`'s setters store the value and then append their `New*` signal to an emission log.
- **`MountMenu`** (mountmenu.dfy): `MountMenu.__rebuild_menu`.
  - The `Gio.Menu` objects it creates live in an arena of item lists (menu 0 is exported), and `__action_items` is a map.
  - The rebuilt menu is proved to read as a reference layout: drives, then the volumes no drive listed, then the mounts no volume listed.
  - Every action target is proved to be the decimal id of an object in the table, so the handlers' lookups succeed.
- **`AsyncWrap`** (async.dfy): the `*_async` / `*_finish` pairing rules, the keyword defaults and the one-shot future that `Wrapper` resolves.
- **`VariantTypeEq`** (varianttype.dfy): the null-aware `VariantType` equality.
- **`Gio`** and **`Wrappers`**: value models of the GLib/Gio inputs (variants, icons, menu models, action groups, the icon theme), plus `Option`/`Result`.

Source paths below are relative to the repository root.

## Model

| member | source | states |
|---|---|---|
| VariantTypeEq.VariantTypeEqual | driveicon/wrappers/varianttype.py:3-6 | None equals only None. A type never equals None. Two types are equal iff their type strings agree, so the result is exactly equality of the optional types. |
| VariantTypeEq.VariantTypeEqualSymmetric | driveicon/wrappers/varianttype.py:3-6 | The comparison does not depend on the order of its operands. |
| DBusMenuSpec.ReadAttributes | driveicon/trayicon.py:243-266 | The attribute loop fails exactly when the `icon` attribute does not deserialize to a themed icon. Otherwise it reads the string label, the string action and the target as given. It reads an icon name iff the theme has the icon's names, and that name is the theme's lookup. |
| DBusMenuSpec.AttributeProps | driveicon/trayicon.py:249-264 | `label` is set to the item's label text iff it has one. `icon-name` is set to the looked-up name iff the theme resolved the icon. Nothing else is set. |
| DBusMenuSpec.ItemBinding | driveicon/trayicon.py:272-290 | An item without an action gets only label and icon. An item with an action gets `enabled` = the action's flag. A string state gives `radio`, on iff the target equals the state; a boolean state gives `checkmark`, on iff the state is true; any other state type or none gives no toggle properties. |
| DBusMenuSpec.HeaderUnbound | driveicon/trayicon.py:268-270 | A section header is disabled, childless, bound to no action and not a separator. |
| DBusMenuSpec.ItemNode | driveicon/trayicon.py:292-298 | An item node forwards its action and target, is never a separator, has exactly the submenu's nodes as its children, and has `children-display` iff it has children. |
| DBusMenuSpec.SectionStep | driveicon/trayicon.py:210-217 | A section position yields a separator iff it is not position 0, then a header iff it has a label, then the section's nodes inline with no wrapper node. |
| DBusMenuSpec.PlainStep | driveicon/trayicon.py:218-226 | Any other position yields its item, preceded by exactly one separator iff the previous position is a section. |
| DBusMenuSpec.ProjectUpToNext | driveicon/trayicon.py:209-228 | Each position appends its step's nodes to those yielded before, and adds the models it links to the subscribed ids. |
| DBusMenuSpec.ErrPersists | driveicon/trayicon.py:209-228 | Once a prefix of the positions fails, every longer prefix fails. |
| DBusMenuSpec.StepErrPersists | driveicon/trayicon.py:209-228 | A position whose nodes cannot be built makes the whole menu fail. |
| DBusMenu.IterateAttributes | driveicon/trayicon.py:243-266 | The imperative attribute loop, visiting attributes in any order, returns exactly `ReadAttributes`. |
| DBusMenu.BindItem | driveicon/trayicon.py:272-290 | The node built for an item has the item's properties and activation. It shows the registry's current state, and its expected value is the one `ItemBinding` describes. |
| DBusMenu.PushConsistent | driveicon/trayicon.py:273-290 | Creating a node and appending it to the indexes under its action keeps both indexes sound and complete and the tree in step with the registry. |
| DBusMenu.SetChildrenConsistent | driveicon/trayicon.py:292-298 | Attaching children and `children-display` to a node keeps the arena and indexes consistent. |
| DBusMenu.RootReachesAll | driveicon/trayicon.py:302-312 | When every node hangs below the root, every node and every node either index lists is in the root's tree. |
| DBusMenu.EnabledListPatched | driveicon/trayicon.py:314-316 | Setting `enabled` on exactly the nodes the enabled index lists under a name equals setting it on every node bound to that name. |
| DBusMenu.StateListPatched | driveicon/trayicon.py:318-323 | Toggling exactly the nodes the state index lists under a name equals toggling every toggle node bound to that name. |
| DBusMenu.PatchEnabledConsistent | driveicon/trayicon.py:314-316 | After the enabled patch, the tree is in step with the registry in which that action's flag changed. |
| DBusMenu.PatchStateConsistent | driveicon/trayicon.py:318-323 | After the state patch, the tree is in step with the registry in which that action's state changed. |
| DBusMenu.PatchesKeepShape | driveicon/trayicon.py:314-323 | Neither patch changes any node's children or activation, and nodes not bound to the name are untouched. |
| DBusMenu.DBusMenuProxy.Init | driveicon/trayicon.py:181-187 | A fresh proxy has only an empty root node, empty indexes and no subscriptions. |
| DBusMenu.DBusMenuProxy.AddNode | driveicon/trayicon.py:275-290 | A new node is appended to the arena and to the enabled index under its action, and a toggle node also to the state index with its expected value. Consistency is kept. |
| DBusMenu.DBusMenuProxy.SetChildren | driveicon/trayicon.py:292-298 | The node's subtree becomes its properties over the forest of its children. |
| DBusMenu.DBusMenuProxy.BuildItem | driveicon/trayicon.py:230-300 | Fails iff `ProjectItem` fails. Otherwise the new node's subtree is `ProjectItem`'s tree, and exactly the submenu's reachable models are subscribed. |
| DBusMenu.DBusMenuProxy.BuildItems | driveicon/trayicon.py:198-228 | Fails iff `ProjectItems` fails. Otherwise the yielded nodes' forest is `ProjectItems`' value, they hang from nothing older, and the models reachable from the menu are subscribed. |
| DBusMenu.DBusMenuProxy.BuildStep | driveicon/trayicon.py:209-228 | One loop turn with the flags as the loop keeps them yields exactly `Step`. |
| DBusMenu.DBusMenuProxy.BuildSection | driveicon/trayicon.py:210-217 | A section turn yields exactly `Step`: the head, then the inlined section. |
| DBusMenu.DBusMenuProxy.BuildSectionHead | driveicon/trayicon.py:211-214 | The separator and header of a section are exactly `SectionHead`, and subscribe nothing. |
| DBusMenu.DBusMenuProxy.BuildPlain | driveicon/trayicon.py:218-226 | A plain turn yields exactly `Step`: a separator after a section, then the item. |
| DBusMenu.DBusMenuProxy.BuildSeparator | driveicon/trayicon.py:325-329 | A new node whose tree is a separator. Neither index changes. |
| DBusMenu.DBusMenuProxy.Subscribe | driveicon/trayicon.py:202-207 | A model is connected once: the subscribed set gains its id, and the subscription list stays duplicate-free. |
| DBusMenu.DBusMenuProxy.Rebuild | driveicon/trayicon.py:302-312 | Indexes and subscriptions start empty and the root is refilled. It fails iff the projection fails. Otherwise the root's tree is the projection against the current group, every node and every indexed node is in it, and the subscriptions are exactly the reachable models, each once. |
| DBusMenu.DBusMenuProxy.OnItemsChanged | driveicon/trayicon.py:203-206 | A changed model rebuilds the whole tree from the root menu's new content. |
| DBusMenu.DBusMenuProxy.OnActionEnabledChanged | driveicon/trayicon.py:314-316 | The arena becomes `PatchEnabled`, and an unknown name changes nothing. The tree stays consistent with the updated group. |
| DBusMenu.DBusMenuProxy.OnActionStateChanged | driveicon/trayicon.py:318-323 | The arena becomes `PatchState`: each toggle node of the name is on iff the new value is its expected value. An unknown name changes nothing. |
| DBusMenu.DBusMenuProxy.ActivateItem | driveicon/trayicon.py:240-241 | Activating a node calls `activate_action` with its action and target exactly when it is an indexed (bound) node. |
| DBusMenu.Open | driveicon/trayicon.py:181-196 | Construction fails iff the projection fails. Otherwise the root's tree is the projection and the subscriptions are the models reachable from the root. |
| StatusNotifier.IconName | driveicon/trayicon.py:168-173 | A themed icon with names exports its first name. Any other icon, or none, exports `''`. A themed icon with no names is the `IndexError`. |
| StatusNotifier.ToolTip | driveicon/trayicon.py:117-122 | No tooltip exports `('', [], '', '')`. Otherwise the icon's name, no pixmaps, the title and the description. It fails iff the icon name does. |
| StatusNotifier.Export | driveicon/trayicon.py:69-130 | Every property getter: category and status names, id, title, window id, the three icon names, pixmaps always empty, empty movie name, tooltip, item-is-menu, and the object path as the menu. |
| StatusNotifier.TrayIcon.constructor | driveicon/trayicon.py:337-366 | Stores every field, and nothing is emitted yet. The arguments are keyword-only, with the source's defaults: category ApplicationStatus, status Active, window id 0, no overlay icon, no attention icon, no tooltip, not item-is-menu, object path "/SNIMenu". |
| StatusNotifier.TrayIcon.SetTitle | driveicon/trayicon.py:389-392 | Stores the title, then emits `NewTitle` with the new title already in place. No other state changes. |
| StatusNotifier.TrayIcon.SetStatus | driveicon/trayicon.py:398-401 | Stores the status, then emits `NewStatus` carrying its name. |
| StatusNotifier.TrayIcon.SetIcon | driveicon/trayicon.py:411-414 | Stores the icon, then emits `NewIcon`. |
| StatusNotifier.TrayIcon.SetOverlayIcon | driveicon/trayicon.py:420-423 | Stores the overlay icon, then emits `NewOverlayIcon`. |
| StatusNotifier.TrayIcon.SetAttentionIcon | driveicon/trayicon.py:429-432 | Stores the attention icon, then emits `NewAttentionIcon`. |
| StatusNotifier.TrayIcon.SetToolTip | driveicon/trayicon.py:438-441 | Stores the tooltip, then emits `NewToolTip`. |
| StatusNotifier.TrayIcon.HostCall | driveicon/trayicon.py:132-142 | A host's `ContextMenu`/`Activate`/`SecondaryActivate`/`Scroll` call is re-emitted as one event. |
| StatusNotifier.StatusSetterVisible | driveicon/trayicon.py:398-401 | After a status change, hosts read the same properties with the new status name. The exported name differs from the one before exactly when the status changed. |
| StatusNotifier.TitleSetterVisible | driveicon/trayicon.py:389-392 | After a title change, hosts read the same properties with the new title. |
| StatusNotifier.ToolTipSetterVisible | driveicon/trayicon.py:438-441 | Setting a tooltip whose icon has a name keeps the properties readable, and hosts read its title and description. |
| StatusNotifier.Create | driveicon/trayicon.py:337-371 | A tray icon is created iff its menu can be projected. It holds the given state, the given object path and a menu proxy showing the projection. Arguments are keyword-only with the same defaults as the constructor, so an omitted argument gives the source's starting state. |
| MountMenu.DecimalRoundTrip | driveicon/mountmenu.py:157-158 | `int()` of the decimal string of an id gives the id back. |
| MountMenu.DecimalInjective | driveicon/mountmenu.py:82-92 | Distinct ids print as distinct targets. |
| MountMenu.DetailedNameRoundTrip | driveicon/mountmenu.py:19-20 | `verb::target` with a colon-free verb parses back into the verb and the target. |
| MountMenu.ItemIcon | driveicon/mountmenu.py:22-28 | No icon gives none. A list of names gives a themed icon of those names. An icon is kept as is. |
| MountMenu.ItemAttrs | driveicon/mountmenu.py:8-30 | Label iff given. Action and target iff a detailed action is given, parsed from it. Icon iff given, as `ItemIcon`. No other attribute. |
| MountMenu.CreateItem | driveicon/mountmenu.py:8-30 | The setter sequence builds exactly `ItemAttrs` with the given submenu and section links. |
| MountMenu.ActionItemCreated | driveicon/mountmenu.py:82-92 | `eject_item` and its siblings carry the label, the verb as the action, the decimal id as the target, and the themed icon. |
| MountMenu.DeviceItemCreated | driveicon/mountmenu.py:94-101 | `menu_item` carries only the object's name and icon. |
| MountMenu.Resolve | driveicon/mountmenu.py:157-173 | A handler's lookup raises `ValueError` iff the target is not a decimal number, raises `KeyError` iff the number is not filed, and otherwise returns the filed object. |
| MountMenu.MountItemsOrder | driveicon/mountmenu.py:103-111 | Eject first iff top-level and ejectable, then Open always, then Unmount iff unmountable. |
| MountMenu.SectionNeverEjects | driveicon/mountmenu.py:119-125 | No item of a volume section runs `eject`. |
| MountMenu.VolumesEntriesShape | driveicon/mountmenu.py:113-125 | A drive's volumes read as one labelled section each, in order: the mount's items when mounted, else Mount when mountable, else nothing. |
| MountMenu.DriveEntriesShape | driveicon/mountmenu.py:130-139 | A drive's submenu is Eject iff the drive is ejectable, followed by its volumes' sections. |
| MountMenu.VolumesSeenGrows | driveicon/mountmenu.py:141-147 | The volumes loop keeps what was filed and files every listed volume. |
| MountMenu.VolumesTopSkipsSeen | driveicon/mountmenu.py:141-143 | Volumes already filed (through a drive) get no top-level entry. |
| MountMenu.VolumesTopCount | driveicon/mountmenu.py:141-147 | At most one top-level entry per volume, and exactly one when none was filed before. |
| MountMenu.MountsSeenGrows | driveicon/mountmenu.py:149-155 | The mounts loop files exactly the earlier ids plus every listed mount. |
| MountMenu.MountsTopSkipsSeen | driveicon/mountmenu.py:149-151 | Mounts already filed (through a volume) are not repeated at top level. |
| MountMenu.ListedRegistered | driveicon/mountmenu.py:127-155 | After a rebuild every drive, its volumes and their mounts, every volume and every mount are filed. |
| MountMenu.MountMenusModel | driveicon/mountmenu.py:103-111 | `add_mount_items` appends the mount's items as leaves, in order. |
| MountMenu.VolumeMenusModel | driveicon/mountmenu.py:113-125 | `add_volume_items` appends Eject when top-level and ejectable, then the volume's labelled section. |
| MountMenu.VolumesMenusModel | driveicon/mountmenu.py:138-139 | The inner volumes loop appends one section per volume. |
| MountMenu.DriveMenusModel | driveicon/mountmenu.py:130-139 | A drive adds one top-level submenu entry over its Eject and its volumes' sections. |
| MountMenu.TopVolumeMenusModel | driveicon/mountmenu.py:145-147 | An unfiled volume adds one top-level entry over its own items. |
| MountMenu.TopMountMenusModel | driveicon/mountmenu.py:153-155 | An unfiled mount adds one top-level entry over its items. |
| MountMenu.DrivesMenusModel | driveicon/mountmenu.py:127-139 | After the emptying, the drives loop leaves one entry per drive. |
| MountMenu.TopVolumesMenusModel | driveicon/mountmenu.py:141-147 | The volumes loop appends the entries of the volumes not filed yet. |
| MountMenu.TopMountsMenusModel | driveicon/mountmenu.py:149-155 | The mounts loop appends the entries of the mounts not filed yet. |
| MountMenu.RebuiltMenusModel | driveicon/mountmenu.py:127-155 | The exported menu a rebuild leaves reads as the layout: drives, then unlisted volumes, then unlisted mounts. |
| MountMenu.DrivesTableKeys | driveicon/mountmenu.py:130-139 | The drives loop files exactly the drives, their volumes and their mounts, each under its own id. |
| MountMenu.TopVolumesTableKeys | driveicon/mountmenu.py:141-147 | The volumes loop files a volume and its mount only when the volume was not filed. |
| MountMenu.TopMountsTableKeys | driveicon/mountmenu.py:149-155 | The mounts loop files a mount only when it was not filed. |
| MountMenu.RebuiltTableKeys | driveicon/mountmenu.py:127-155 | After a rebuild the table holds exactly the listed objects, each under its own id. |
| MountMenu.RebuiltTargets | driveicon/mountmenu.py:103-155 | Every action target in the rebuilt menus names an object filed in the rebuilt table. |
| MountMenu.TargetResolves | driveicon/mountmenu.py:157-173 | With every target filed, a handler's lookup raises neither error and finds the object with that id. |
| MountMenu.MountMenu.AddMountItems | driveicon/mountmenu.py:103-111 | Files the mount, then appends its items to the menu. |
| MountMenu.MountMenu.AddVolumeItems | driveicon/mountmenu.py:113-125 | Files the volume, appends Eject when top-level, the section item over a new menu, then fills the section. |
| MountMenu.MountMenu.FillSection | driveicon/mountmenu.py:122-125 | The section gets the mount's items, or Mount, or nothing. |
| MountMenu.MountMenu.AddDrive | driveicon/mountmenu.py:131-139 | Files the drive and appends its submenu with Eject and the volumes. |
| MountMenu.MountMenu.AddVolumes | driveicon/mountmenu.py:138-139 | The inner loop over a drive's volumes. |
| MountMenu.MountMenu.AddDrives | driveicon/mountmenu.py:130-139 | The drives loop. |
| MountMenu.MountMenu.AddTopVolumes | driveicon/mountmenu.py:141-147 | The volumes loop, skipping filed volumes. |
| MountMenu.MountMenu.AddTopMounts | driveicon/mountmenu.py:149-155 | The mounts loop, skipping filed mounts. |
| MountMenu.MountMenu.Rebuild | driveicon/mountmenu.py:127-155 | Empties the menu and the table first. Afterwards the menu reads as the layout, the table holds exactly the listed objects under their ids, and every target resolves. |
| MountMenu.MountMenu.constructor | driveicon/mountmenu.py:34-71 | The menu is built once from what the monitor lists. |
| MountMenu.MountMenu.Activate | driveicon/mountmenu.py:157-173 | A handler fails exactly as `Resolve` does. Otherwise it starts its operation on the filed object. |
| AsyncWrap.AsyncSuffixFinds | driveicon/wrappers/_async.py:8-13 | The finder yields `(name, prefix+'_finish', prefix+'_asyncio')` exactly for the names ending in `_async` whose finish method exists. |
| AsyncWrap.FinishSuffixFinds | driveicon/wrappers/_async.py:16-20 | The finder yields `(base, name, base+'_asyncio')` exactly for the names ending in `_finish` whose base exists. |
| AsyncWrap.CollectMembers | driveicon/wrappers/_async.py:9-13 | A triple is yielded iff some listed name yields it. |
| AsyncWrap.ExtraParams | driveicon/wrappers/_async.py:62-66 | Files and file enumerators default `io_priority` to `PRIORITY_DEFAULT`. Drives, volumes and mounts get no defaults. |
| AsyncWrap.Merge | driveicon/wrappers/_async.py:40 | Every key of either map, with the call's value winning. |
| AsyncWrap.BeginKeywords | driveicon/wrappers/_async.py:38-43 | The begin method gets the merged keywords plus `cancellable=None` and the callback bound to the call's future. A duplicate of either is the `TypeError`. |
| AsyncWrap.FinishCallback | driveicon/wrappers/_async.py:47-52 | A pending future is resolved with the return value or rejected with the exception. A resolved future is left unchanged and the callback fails. |
| AsyncWrap.Wrapper.constructor | driveicon/wrappers/_async.py:23-34 | A missing `default_params` becomes `{}`. |
| AsyncWrap.Wrapper.Call | driveicon/wrappers/_async.py:36-45 | Each call returns a fresh pending future and records one begin call whose callback is bound to that future. Call futures stay pairwise distinct. |
| AsyncWrap.Wrapper.Complete | driveicon/wrappers/_async.py:47-52 | Completing a call resolves that call's own future and no other. |
| AsyncWrap.WrapAsync | driveicon/wrappers/_async.py:58-75 | Installs exactly the pairs the finders yield for each class, each with that class's extra parameters. |

## Left out

- D-Bus publishing, the dbusmenu server object and the watcher registration are left out as IPC plumbing. The GObject signal machinery (`connect`, `disconnect`, `emit`) is modelled only as a list of subscribed models and an emission log.
- The icon theme is an oracle: a map from name lists to resolved names. Size, scale and lookup flags are not modelled.
- Python object identity (`id(obj)`, `Dbusmenu.Menuitem` identity, `Gio.Menu` identity) becomes explicit ids and arena indexes.
  - In DBusMenu, `take_children` becomes a reset of the arena to a fresh root. Old nodes are unreachable.
  - In MountMenu, `remove_all` becomes a reset to the single exported menu. Old submenus are dropped.
- DBusMenu.DBusMenuProxy.Rebuild: when the traversal fails on an icon that is not themed, only `Valid()` is stated. The partially built tree and indexes Python leaves behind are not described.
- DBusMenu.DBusMenuProxy.OnItemsChanged: the handler is modelled as receiving the root menu's new content. Nested models' new content reaches it as part of the root's value. Re-entrant signals during a rebuild are not modelled.
- DBusMenu.DBusMenuProxy.OnActionEnabledChanged: the action group changes only through the `action-enabled-changed` and `action-state-changed` signals, plus a rebuild. The source connects no other group signal, so after `action-added` or `action-removed` its bound nodes keep stale `enabled` and toggle values. The model does not express that event, and its consistency holds only for the changes the two signals report.
- DBusMenuSpec.ProjectItems: menu models are finite trees. On a cyclic menu graph (a section or submenu linking back to an enclosing model), the source recurses until `RecursionError`; such graphs are not modelled.
- DBusMenuSpec.ReadAttributes: a non-string `label` or `action` attribute is read as absent. Python's `get_string()` on such a value is a GLib precondition failure.
- StatusNotifier.Export: one failing icon name fails the whole export. In Python only the failing property getter raises.
- StatusNotifier.TrayIcon.HostCall: the GObject signals are appended to an event list. Their handlers are not modelled.
- MountMenu.ParseDecimal: accepts only non-empty strings of ASCII digits. Python's `int()` also accepts signs, surrounding whitespace and underscores. Every target the menu creates is plain digits.
- MountMenu.ParseDetailedName: models `g_action_parse_detailed_name` only for the `action` and `action::string` forms the program uses.
- MountMenu.MountMenu.Activate: the mount, unmount, eject and `show_uri` calls are not modelled, only the lookup and which operation starts on which object. Neither is the `Gtk.MountOperation` they use.
- MountMenu.MountMenu.constructor: the monitor's signal connections and the creation of the four `SimpleAction`s are left out. The actions hold no logic beyond their handlers.
- AsyncWrap: the asyncio event loop is left out. A future is a one-shot state, and a cancelled future reads as not pending. `hasattr` is membership in the list `dir(cls)` returns.
- AsyncWrap: the `setattr`/`partialmethod` installation and `_wrap_variant_type` are reflection. `WrapAsync` returns the list of installations instead.
- driveicon/wrappers/bitset.py, driveicon/wrappers/menuattributeiter.py, driveicon/main.py, driveicon/__main__.py and driveicon/wrappers/__init__.py are not part of this model: they are iterator adaptors and application wiring.
