/**
 * driveicon/mountmenu.py: the drive menu. Every rebuild empties the top-level
 * `Gio.Menu` and the table of objects that action targets name, then lists the
 * connected drives, the volumes no drive listed and the mounts no volume
 * listed, each as a submenu of Eject, Open, Mount and Unmount items whose
 * target is the object's id in decimal. Activating an item looks the id up
 * in the table.
 *
 * Python's `id(obj)` becomes an `ObjectId` carried by each device record.
 * The `Gio.Menu` objects a rebuild creates live in an arena: menu 0 is the
 * exported menu, and every link of an item points to a menu created later.
 */
module MountMenu {
  import opened Wrappers
  import opened Gio

  // ---------------------------------------------------------------------------
  // Decimal ids: f'{id(obj)}' and int(...)

  predicate IsDigit(c: char) {
    '0' <= c <= '9'
  }

  predicate AllDigits(s: string) {
    forall i :: 0 <= i < |s| ==> IsDigit(s[i])
  }

  function DigitChar(d: nat): (c: char)
    requires d < 10
    ensures IsDigit(c) && c as int - '0' as int == d
  {
    ('0' as int + d) as char
  }

  /** The decimal digits of `n`, most significant first. */
  function DecimalString(n: nat): string
    decreases n
  {
    if n < 10 then [DigitChar(n)] else DecimalString(n / 10) + [DigitChar(n % 10)]
  }

  /** `n` prints as a nonempty string of digits. */
  lemma {:induction false} DecimalDigits(n: nat)
    ensures |DecimalString(n)| > 0 && AllDigits(DecimalString(n))
    decreases n
  {
    if n >= 10 {
      DecimalDigits(n / 10);
      var s := DecimalString(n);
      assert forall i :: 0 <= i < |s| - 1 ==> s[i] == DecimalString(n / 10)[i];
    }
  }

  /** The number a string of digits denotes. */
  function DigitsValue(s: string): nat
    requires AllDigits(s)
    decreases |s|
  {
    if s == [] then 0 else DigitsValue(s[..|s| - 1]) * 10 + (s[|s| - 1] as int - '0' as int)
  }

  /** `int(s)` on strings of decimal digits; any other string is its `ValueError`, None here. */
  function ParseDecimal(s: string): Option<nat> {
    if |s| > 0 && AllDigits(s) then Some(DigitsValue(s)) else None
  }

  /** An id printed into a target parses back to the same id. */
  lemma {:induction false} DecimalRoundTrip(n: nat)
    ensures ParseDecimal(DecimalString(n)) == Some(n)
    decreases n
  {
    var s := DecimalString(n);
    DecimalDigits(n);
    if n < 10 {
      assert s[..0] == [];
    } else {
      var init := DecimalString(n / 10);
      DecimalRoundTrip(n / 10);
      assert s[..|s| - 1] == init;
      assert DigitsValue(s) == DigitsValue(init) * 10 + n % 10;
    }
  }

  /** Distinct ids give distinct targets. */
  lemma DecimalInjective(m: nat, n: nat)
    ensures DecimalString(m) == DecimalString(n) <==> m == n
  {
    DecimalRoundTrip(m);
    DecimalRoundTrip(n);
  }

  // ---------------------------------------------------------------------------
  // Detailed action names: 'verb::target'

  /** The first "::" in `s` at or after `from`. */
  function FindSeparator(s: string, from: nat): (r: Option<nat>)
    ensures r.Some? ==> from <= r.value && r.value + 1 < |s| && s[r.value] == ':' && s[r.value + 1] == ':'
    ensures r.Some? ==> forall i :: from <= i < r.value ==> !(s[i] == ':' && s[i + 1] == ':')
    ensures r.None? ==> forall i :: from <= i && i + 1 < |s| ==> !(s[i] == ':' && s[i + 1] == ':')
    decreases |s| - from
  {
    if from + 1 >= |s| then None
    else if s[from] == ':' && s[from + 1] == ':' then Some(from)
    else FindSeparator(s, from + 1)
  }

  /** `g_action_parse_detailed_name` on `action` and `action::target`: the action name and the string target. */
  function ParseDetailedName(s: string): (string, Option<string>) {
    match FindSeparator(s, 0)
    case None => (s, None)
    case Some(i) => (s[..i], Some(s[i + 2..]))
  }

  predicate NoColon(s: string) {
    forall i :: 0 <= i < |s| ==> s[i] != ':'
  }

  /** A name without ':' joined to a target by "::" parses back into the two. */
  lemma DetailedNameRoundTrip(action: string, target: string)
    requires NoColon(action)
    ensures ParseDetailedName(action + "::" + target) == (action, Some(target))
  {
    var s := action + "::" + target;
    assert s[|action|] == ':' && s[|action| + 1] == ':';
    var found := FindSeparator(s, 0);
    if found.None? {
      assert false;
    } else if found.value < |action| {
      assert false;
    }
    assert s[..|action|] == action && s[|action| + 2..] == target;
  }

  // ---------------------------------------------------------------------------
  // Menu items: _create_item

  /** The icon argument of `_create_item`: none, a list of theme names, or an icon. */
  datatype IconArg = NoIcon | IconNames(names: seq<string>) | GivenIcon(icon: Icon)

  /** The icon an item gets: none, a themed icon made of the names, or the given icon. */
  function ItemIcon(icon: IconArg): (r: Option<Icon>)
    ensures icon.NoIcon? <==> r.None?
    ensures icon.IconNames? ==> r == Some(ThemedIcon(icon.names))
    ensures icon.GivenIcon? ==> r == Some(icon.icon)
  {
    match icon
    case NoIcon => None
    case IconNames(names) => Some(ThemedIcon(names))
    case GivenIcon(i) => Some(i)
  }

  /** The attributes `_create_item` gives an item. */
  function ItemAttrs(text: Option<string>, detailedAction: Option<string>, icon: IconArg): (attrs: map<string, Value>)
    ensures attrs.Keys <= {LABEL, ACTION, TARGET, ICON}
    ensures LABEL in attrs <==> text.Some?
    ensures text.Some? ==> attrs[LABEL] == Str(text.value)
    ensures ACTION in attrs <==> detailedAction.Some?
    ensures detailedAction.Some? ==> attrs[ACTION] == Str(ParseDetailedName(detailedAction.value).0)
    ensures TARGET in attrs <==> detailedAction.Some? && ParseDetailedName(detailedAction.value).1.Some?
    ensures TARGET in attrs ==> attrs[TARGET] == Str(ParseDetailedName(detailedAction.value).1.value)
    ensures ICON in attrs <==> !icon.NoIcon?
    ensures ICON in attrs ==> attrs[ICON] == IconValue(ItemIcon(icon).value)
  {
    var labelled: map<string, Value> := if text.Some? then map[LABEL := Str(text.value)] else map[];
    var withAction :=
      if detailedAction.None? then labelled
      else
        var (action, target) := ParseDetailedName(detailedAction.value);
        var named := labelled[ACTION := Str(action)];
        if target.Some? then named[TARGET := Str(target.value)] else named;
    match ItemIcon(icon)
    case None => withAction
    case Some(i) => withAction[ICON := IconValue(i)]
  }

  /** A menu in the arena. */
  type MenuRef = nat

  /** A `Gio.MenuItem`: its attributes and its submenu and section links. */
  datatype MenuItem = MenuItem(attrs: map<string, Value>, submenu: Option<MenuRef>, section: Option<MenuRef>)

  /** `_create_item`: a fresh item given its label, links, detailed action (when given) and icon, in that order. */
  method CreateItem(text: Option<string>, detailedAction: Option<string>, icon: IconArg,
                    submenu: Option<MenuRef>, section: Option<MenuRef>)
    returns (item: MenuItem)
    ensures item == MenuItem(ItemAttrs(text, detailedAction, icon), submenu, section)
  {
    var attrs: map<string, Value> := map[];
    if text.Some? {
      attrs := attrs[LABEL := Str(text.value)];
    }
    if detailedAction.Some? {
      var (action, target) := ParseDetailedName(detailedAction.value);
      attrs := attrs[ACTION := Str(action)];
      if target.Some? {
        attrs := attrs[TARGET := Str(target.value)];
      }
    }
    match icon {
      case NoIcon =>
      case IconNames(names) =>
        attrs := attrs[ICON := IconValue(ThemedIcon(names))];
      case GivenIcon(i) =>
        attrs := attrs[ICON := IconValue(i)];
    }
    item := MenuItem(attrs, submenu, section);
  }

  // ---------------------------------------------------------------------------
  // Devices

  /** Python's `id(obj)`: the identity of a drive, volume or mount object. */
  type ObjectId = nat

  datatype Mount = Mount(id: ObjectId, name: string, icon: Icon, canEject: bool, canUnmount: bool)

  datatype Volume = Volume(id: ObjectId, name: string, icon: Icon, canEject: bool, canMount: bool, mount: Option<Mount>)

  datatype Drive = Drive(id: ObjectId, name: string, icon: Icon, canEject: bool, volumes: seq<Volume>)

  /** What the volume monitor lists when the menu is rebuilt. */
  datatype VolumeMonitor = VolumeMonitor(drives: seq<Drive>, volumes: seq<Volume>, mounts: seq<Mount>)

  /** A value of the `__action_items` table. */
  datatype Device = DriveDevice(drive: Drive) | VolumeDevice(volume: Volume) | MountDevice(mount: Mount) {
    function Id(): ObjectId {
      match this
      case DriveDevice(d) => d.id
      case VolumeDevice(v) => v.id
      case MountDevice(m) => m.id
    }
  }

  // ---------------------------------------------------------------------------
  // The items of the nested helpers of __rebuild_menu

  const EJECT_LABEL: string := "Eject"
  const OPEN_LABEL: string := "Open"
  const MOUNT_LABEL: string := "Mount"
  const UNMOUNT_LABEL: string := "Unmount"

  const EJECT_VERB: string := "eject"
  const OPEN_VERB: string := "open"
  const MOUNT_VERB: string := "mount"
  const UNMOUNT_VERB: string := "unmount"

  const EJECT_ICONS: seq<string> := ["media-eject"]
  const OPEN_ICONS: seq<string> := ["document-open-folder", "document-open"]
  const MOUNT_ICONS: seq<string> := ["media-mount"]
  const UNMOUNT_ICONS: seq<string> := ["media-eject"]

  /** `f'{verb}::{id(obj)}'`. */
  function DeviceAction(verb: string, id: ObjectId): string {
    verb + "::" + DecimalString(id)
  }

  /** The attributes of an item that runs `verb` on the object `id`. */
  function ActionAttrs(text: string, verb: string, icons: seq<string>, id: ObjectId): map<string, Value> {
    map[LABEL := Str(text), ACTION := Str(verb), TARGET := Str(DecimalString(id)), ICON := IconValue(ThemedIcon(icons))]
  }

  /** An item that runs `verb` on the object `id`, unlinked. */
  function ActionItem(text: string, verb: string, icons: seq<string>, id: ObjectId): MenuItem {
    MenuItem(ActionAttrs(text, verb, icons, id), None, None)
  }

  function EjectItem(id: ObjectId): MenuItem {
    ActionItem(EJECT_LABEL, EJECT_VERB, EJECT_ICONS, id)
  }

  function OpenItem(id: ObjectId): MenuItem {
    ActionItem(OPEN_LABEL, OPEN_VERB, OPEN_ICONS, id)
  }

  function MountItem(id: ObjectId): MenuItem {
    ActionItem(MOUNT_LABEL, MOUNT_VERB, MOUNT_ICONS, id)
  }

  function UnmountItem(id: ObjectId): MenuItem {
    ActionItem(UNMOUNT_LABEL, UNMOUNT_VERB, UNMOUNT_ICONS, id)
  }

  /** The attributes of `menu_item(obj, ...)`: the object's name and icon, no action. */
  function DeviceAttrs(name: string, icon: Icon): map<string, Value> {
    map[LABEL := Str(name), ICON := IconValue(icon)]
  }

  /**
   * `_create_item(text, f'{verb}::{id}', icons)` carries the label, the verb as
   * the action, the id in decimal as the target and the themed icon.
   */
  lemma ActionItemCreated(text: string, verb: string, icons: seq<string>, id: ObjectId)
    requires NoColon(verb)
    ensures ItemAttrs(Some(text), Some(DeviceAction(verb, id)), IconNames(icons)) == ActionAttrs(text, verb, icons, id)
  {
    DetailedNameRoundTrip(verb, DecimalString(id));
  }

  /** `_create_item(obj.get_name(), icon=obj.get_icon(), ...)` carries the name and the icon only. */
  lemma DeviceItemCreated(name: string, icon: Icon)
    ensures ItemAttrs(Some(name), None, GivenIcon(icon)) == DeviceAttrs(name, icon)
  {
  }

  /** The Eject item, when `canEject`. */
  function EjectItems(canEject: bool, id: ObjectId): (r: seq<MenuItem>)
    ensures Unlinked(r)
  {
    if canEject then [EjectItem(id)] else []
  }

  /** The items `add_mount_items` appends: Eject when top-level and ejectable, Open, and Unmount when unmountable. */
  function MountItems(m: Mount, toplevel: bool): seq<MenuItem> {
    EjectItems(toplevel && m.canEject, m.id) + [OpenItem(m.id)] +
    (if m.canUnmount then [UnmountItem(m.id)] else [])
  }

  /** The section of a volume: its mount's items when mounted, else Mount when mountable, else nothing. */
  function SectionItems(v: Volume): seq<MenuItem> {
    match v.mount
    case Some(m) => MountItems(m, false)
    case None => if v.canMount then [MountItem(v.id)] else []
  }

  /** The items `add_volume_items` appends to its menu, its section being menu `section`. */
  function VolumeItems(v: Volume, toplevel: bool, section: MenuRef): seq<MenuItem> {
    EjectItems(toplevel && v.canEject, v.id) +
    [MenuItem(DeviceAttrs(v.name, v.icon), None, Some(section))]
  }

  // ---------------------------------------------------------------------------
  // The menus as a tree, without menu identities

  /** A menu entry as a client reads it: attributes, and the entries of its section and submenu. */
  datatype Entry = Entry(attrs: map<string, Value>, section: Option<seq<Entry>>, submenu: Option<seq<Entry>>)

  function Leaf(item: MenuItem): Entry {
    Entry(item.attrs, None, None)
  }

  function Leaves(items: seq<MenuItem>): seq<Entry>
    decreases |items|
  {
    if items == [] then [] else Leaves(items[..|items| - 1]) + [Leaf(items[|items| - 1])]
  }

  predicate LinkAbove(link: Option<MenuRef>, k: nat, n: nat) {
    link.Some? ==> k < link.value < n
  }

  /** Every link of `items`, held by menu `k` of an arena of `n` menus, points to a later menu. */
  predicate LinksAbove(items: seq<MenuItem>, k: nat, n: nat) {
    forall i :: 0 <= i < |items| ==> LinkAbove(items[i].submenu, k, n) && LinkAbove(items[i].section, k, n)
  }

  predicate LinksForward(menus: seq<seq<MenuItem>>) {
    forall k :: 0 <= k < |menus| ==> LinksAbove(menus[k], k, |menus|)
  }

  predicate Unlinked(items: seq<MenuItem>) {
    forall i :: 0 <= i < |items| ==> items[i].submenu.None? && items[i].section.None?
  }

  /** The entries of menu `k`, links followed. */
  function ModelAt(menus: seq<seq<MenuItem>>, k: nat): seq<Entry>
    requires LinksForward(menus) && k < |menus|
    decreases |menus| - k, 2
  {
    EntriesOf(menus, k, menus[k])
  }

  function EntriesOf(menus: seq<seq<MenuItem>>, k: nat, items: seq<MenuItem>): seq<Entry>
    requires LinksForward(menus) && k < |menus| && LinksAbove(items, k, |menus|)
    decreases |menus| - k, 1, |items|
  {
    if items == [] then []
    else EntriesOf(menus, k, items[..|items| - 1]) + [EntryOf(menus, k, items[|items| - 1])]
  }

  function EntryOf(menus: seq<seq<MenuItem>>, k: nat, item: MenuItem): Entry
    requires LinksForward(menus) && k < |menus|
    requires LinkAbove(item.submenu, k, |menus|) && LinkAbove(item.section, k, |menus|)
    decreases |menus| - k, 0
  {
    Entry(item.attrs,
      if item.section.Some? then Some(ModelAt(menus, item.section.value)) else None,
      if item.submenu.Some? then Some(ModelAt(menus, item.submenu.value)) else None)
  }

  lemma {:induction false} EntriesConcat(menus: seq<seq<MenuItem>>, k: nat, xs: seq<MenuItem>, ys: seq<MenuItem>)
    requires LinksForward(menus) && k < |menus|
    requires LinksAbove(xs, k, |menus|) && LinksAbove(ys, k, |menus|)
    ensures LinksAbove(xs + ys, k, |menus|)
    ensures EntriesOf(menus, k, xs + ys) == EntriesOf(menus, k, xs) + EntriesOf(menus, k, ys)
    decreases |ys|
  {
    assert forall i :: 0 <= i < |xs + ys| ==> (xs + ys)[i] == if i < |xs| then xs[i] else ys[i - |xs|];
    if ys == [] {
      assert xs + ys == xs;
    } else {
      var init := ys[..|ys| - 1];
      EntriesConcat(menus, k, xs, init);
      assert (xs + ys)[..|xs + ys| - 1] == xs + init;
    }
  }

  /** Items without links read as leaves. */
  lemma {:induction false} UnlinkedEntries(menus: seq<seq<MenuItem>>, k: nat, items: seq<MenuItem>)
    requires LinksForward(menus) && k < |menus| && Unlinked(items)
    ensures LinksAbove(items, k, |menus|) && EntriesOf(menus, k, items) == Leaves(items)
    decreases |items|
  {
    if items != [] {
      UnlinkedEntries(menus, k, items[..|items| - 1]);
    }
  }

  /**
   * Items of menu `k` read the same in a later arena `c` that leaves every
   * menu after `k` of the earlier arena `a` as it was.
   */
  lemma {:induction false} EntriesKeep(a: seq<seq<MenuItem>>, c: seq<seq<MenuItem>>, k: nat, items: seq<MenuItem>)
    requires LinksForward(a) && LinksForward(c) && k < |a| <= |c|
    requires LinksAbove(items, k, |a|)
    requires forall j :: k < j < |a| ==> c[j] == a[j]
    ensures LinksAbove(items, k, |c|) && EntriesOf(c, k, items) == EntriesOf(a, k, items)
    decreases |a| - k, |items|
  {
    if items != [] {
      var init := items[..|items| - 1];
      var last := items[|items| - 1];
      EntriesKeep(a, c, k, init);
      if last.section.Some? {
        var t := last.section.value;
        EntriesKeep(a, c, t, a[t]);
        assert ModelAt(c, t) == ModelAt(a, t) by {
          assert c[t] == a[t];
        }
      }
      if last.submenu.Some? {
        var t := last.submenu.value;
        EntriesKeep(a, c, t, a[t]);
        assert ModelAt(c, t) == ModelAt(a, t) by {
          assert c[t] == a[t];
        }
      }
      assert EntryOf(c, k, last) == EntryOf(a, k, last);
    }
  }

  /** Appending `items` to menu `k` appends their entries to what menu `k` reads as. */
  lemma ModelAtAppended(a: seq<seq<MenuItem>>, c: seq<seq<MenuItem>>, k: nat, items: seq<MenuItem>)
    requires LinksForward(a) && LinksForward(c) && k < |a| <= |c|
    requires c[k] == a[k] + items
    requires forall j :: k < j < |a| ==> c[j] == a[j]
    ensures LinksAbove(items, k, |c|)
    ensures ModelAt(c, k) == ModelAt(a, k) + EntriesOf(c, k, items)
  {
    assert forall i :: 0 <= i < |items| ==> items[i] == c[k][|a[k]| + i];
    EntriesKeep(a, c, k, a[k]);
    EntriesConcat(c, k, a[k], items);
  }

  /** One item reads as one entry. */
  lemma EntriesSingle(menus: seq<seq<MenuItem>>, k: nat, item: MenuItem)
    requires LinksForward(menus) && k < |menus|
    requires LinkAbove(item.submenu, k, |menus|) && LinkAbove(item.section, k, |menus|)
    ensures LinksAbove([item], k, |menus|)
    ensures EntriesOf(menus, k, [item]) == [EntryOf(menus, k, item)]
  {
    assert [item][..0] == [];
  }

  /**
   * Appending to menu 0 an item whose submenu is the next menu created adds
   * one entry over whatever that submenu holds in the end.
   */
  lemma SubmenuAppended(a: seq<seq<MenuItem>>, c: seq<seq<MenuItem>>, item: MenuItem, entries: seq<Entry>)
    requires LinksForward(a) && LinksForward(c) && 0 < |a| < |c|
    requires c[0] == a[0] + [item] && forall j :: 0 < j < |a| ==> c[j] == a[j]
    requires item.submenu == Some(|a|) && item.section.None?
    requires ModelAt(c, |a|) == entries
    ensures ModelAt(c, 0) == ModelAt(a, 0) + [Entry(item.attrs, None, Some(entries))]
  {
    ModelAtAppended(a, c, 0, [item]);
    EntriesSingle(c, 0, item);
  }

  // ---------------------------------------------------------------------------
  // The layout a rebuild produces

  /** The entries of the section of a volume. */
  function SectionEntries(v: Volume): seq<Entry> {
    Leaves(SectionItems(v))
  }

  /** What `add_volume_items` adds to a menu: Eject when top-level and ejectable, then the volume's labelled section. */
  function VolumeEntries(v: Volume, toplevel: bool): seq<Entry> {
    Leaves(EjectItems(toplevel && v.canEject, v.id)) +
    [Entry(DeviceAttrs(v.name, v.icon), Some(SectionEntries(v)), None)]
  }

  /** The entries of the first `n` volumes of a drive. */
  function VolumesEntries(vs: seq<Volume>, n: nat): seq<Entry>
    requires n <= |vs|
  {
    if n == 0 then [] else VolumesEntries(vs, n - 1) + VolumeEntries(vs[n - 1], false)
  }

  /** A drive's submenu: Eject when ejectable, then a section per volume. */
  function DriveEntries(d: Drive): seq<Entry> {
    Leaves(EjectItems(d.canEject, d.id)) + VolumesEntries(d.volumes, |d.volumes|)
  }

  /** A top-level entry: the object's name and icon over a submenu. */
  function SubmenuEntry(name: string, icon: Icon, entries: seq<Entry>): Entry {
    Entry(DeviceAttrs(name, icon), None, Some(entries))
  }

  function DriveEntry(d: Drive): Entry {
    SubmenuEntry(d.name, d.icon, DriveEntries(d))
  }

  function VolumeTopEntry(v: Volume): Entry {
    SubmenuEntry(v.name, v.icon, VolumeEntries(v, true))
  }

  function MountTopEntry(m: Mount): Entry {
    SubmenuEntry(m.name, m.icon, Leaves(MountItems(m, true)))
  }

  /** The ids `add_volume_items` registers: the volume's and its mount's. */
  function VolumeIds(v: Volume): set<ObjectId> {
    {v.id} + if v.mount.Some? then {v.mount.value.id} else {}
  }

  function VolumesIds(vs: seq<Volume>, n: nat): set<ObjectId>
    requires n <= |vs|
  {
    if n == 0 then {} else VolumesIds(vs, n - 1) + VolumeIds(vs[n - 1])
  }

  /** The ids a drive's entry registers. */
  function DriveIds(d: Drive): set<ObjectId> {
    {d.id} + VolumesIds(d.volumes, |d.volumes|)
  }

  /** The top-level entries of the first `n` drives. */
  function DrivesTop(ds: seq<Drive>, n: nat): seq<Entry>
    requires n <= |ds|
  {
    if n == 0 then [] else DrivesTop(ds, n - 1) + [DriveEntry(ds[n - 1])]
  }

  function DrivesSeen(ds: seq<Drive>, n: nat): set<ObjectId>
    requires n <= |ds|
  {
    if n == 0 then {} else DrivesSeen(ds, n - 1) + DriveIds(ds[n - 1])
  }

  /** The ids registered once the first `n` volumes are listed, `seen` having been registered before. */
  function VolumesSeen(vs: seq<Volume>, n: nat, seen: set<ObjectId>): set<ObjectId>
    requires n <= |vs|
  {
    if n == 0 then seen
    else
      var before := VolumesSeen(vs, n - 1, seen);
      if vs[n - 1].id in before then before else before + VolumeIds(vs[n - 1])
  }

  /** The top-level entries of the first `n` volumes: those not registered already. */
  function VolumesTop(vs: seq<Volume>, n: nat, seen: set<ObjectId>): seq<Entry>
    requires n <= |vs|
  {
    if n == 0 then []
    else
      var listed := if vs[n - 1].id in VolumesSeen(vs, n - 1, seen) then [] else [VolumeTopEntry(vs[n - 1])];
      VolumesTop(vs, n - 1, seen) + listed
  }

  function MountsSeen(ms: seq<Mount>, n: nat, seen: set<ObjectId>): set<ObjectId>
    requires n <= |ms|
  {
    if n == 0 then seen else MountsSeen(ms, n - 1, seen) + {ms[n - 1].id}
  }

  /** The top-level entries of the first `n` mounts: those not registered already. */
  function MountsTop(ms: seq<Mount>, n: nat, seen: set<ObjectId>): seq<Entry>
    requires n <= |ms|
  {
    if n == 0 then []
    else
      var listed := if ms[n - 1].id in MountsSeen(ms, n - 1, seen) then [] else [MountTopEntry(ms[n - 1])];
      MountsTop(ms, n - 1, seen) + listed
  }

  function AfterDrives(mon: VolumeMonitor): set<ObjectId> {
    DrivesSeen(mon.drives, |mon.drives|)
  }

  function AfterVolumes(mon: VolumeMonitor): set<ObjectId> {
    VolumesSeen(mon.volumes, |mon.volumes|, AfterDrives(mon))
  }

  /** The top-level menu after a rebuild: drives, then unlisted volumes, then unlisted mounts. */
  function Layout(mon: VolumeMonitor): seq<Entry> {
    DrivesTop(mon.drives, |mon.drives|) +
    VolumesTop(mon.volumes, |mon.volumes|, AfterDrives(mon)) +
    MountsTop(mon.mounts, |mon.mounts|, AfterVolumes(mon))
  }

  /** The ids in the table after a rebuild. */
  function Registered(mon: VolumeMonitor): set<ObjectId> {
    MountsSeen(mon.mounts, |mon.mounts|, AfterVolumes(mon))
  }

  // ---------------------------------------------------------------------------
  // The object table and the targets

  /** The errors of `__action_items[int(id.get_string())]`. */
  datatype LookupError = ValueError | KeyError

  /** The object an action target names. */
  function Resolve(table: map<ObjectId, Device>, target: string): (r: Result<Device, LookupError>)
    ensures r == Err(ValueError) <==> ParseDecimal(target).None?
    ensures r == Err(KeyError) <==> ParseDecimal(target).Some? && ParseDecimal(target).value !in table
    ensures r.Ok? ==> r.value == table[ParseDecimal(target).value]
  {
    match ParseDecimal(target)
    case None => Err(ValueError)
    case Some(id) => if id in table then Ok(table[id]) else Err(KeyError)
  }

  /** Every object is filed under its own id. */
  ghost predicate TableKeyed(table: map<ObjectId, Device>) {
    forall id :: id in table ==> table[id].Id() == id
  }

  /** The target of `attrs`, if any, is the decimal form of one of `ids`. */
  predicate TargetIn(ids: set<ObjectId>, attrs: map<string, Value>) {
    TARGET in attrs ==>
      attrs[TARGET].Str? && ParseDecimal(attrs[TARGET].s).Some? && ParseDecimal(attrs[TARGET].s).value in ids
  }

  /** Every target of `items` names one of `ids`. */
  predicate ItemsTargetIn(ids: set<ObjectId>, items: seq<MenuItem>) {
    forall i :: 0 <= i < |items| ==> TargetIn(ids, items[i].attrs)
  }

  /** Every target of every menu of the arena names one of `ids`. */
  ghost predicate TargetsIn(menus: seq<seq<MenuItem>>, ids: set<ObjectId>) {
    forall k :: 0 <= k < |menus| ==> ItemsTargetIn(ids, menus[k])
  }

  /** A target that names a filed object resolves to that object: the handlers raise neither error. */
  lemma TargetResolves(menus: seq<seq<MenuItem>>, table: map<ObjectId, Device>, k: nat, i: nat)
    requires TargetsIn(menus, table.Keys) && TableKeyed(table)
    requires k < |menus| && i < |menus[k]| && TARGET in menus[k][i].attrs
    ensures menus[k][i].attrs[TARGET].Str?
    ensures Resolve(table, menus[k][i].attrs[TARGET].s).Ok?
    ensures Resolve(table, menus[k][i].attrs[TARGET].s).value.Id() == ParseDecimal(menus[k][i].attrs[TARGET].s).value
  {
    assert ItemsTargetIn(table.Keys, menus[k]);
    assert TargetIn(table.Keys, menus[k][i].attrs);
  }

  /** The target of an action item for `id` is the decimal form of `id`. */
  lemma ActionTargetIn(ids: set<ObjectId>, text: string, verb: string, icons: seq<string>, id: ObjectId)
    requires id in ids
    ensures TargetIn(ids, ActionAttrs(text, verb, icons, id))
  {
    DecimalRoundTrip(id);
  }

  // ---------------------------------------------------------------------------
  // The menus each step of a rebuild leaves

  /** `add_mount_items(menu k, m, toplevel)`. */
  function MountMenus(a: seq<seq<MenuItem>>, k: MenuRef, m: Mount, toplevel: bool): (c: seq<seq<MenuItem>>)
    requires k < |a|
    ensures |c| == |a|
  {
    a[k := a[k] + MountItems(m, toplevel)]
  }

  /** `add_volume_items(menu k, v, toplevel)`: the section it creates is the next menu of the arena. */
  function VolumeMenus(a: seq<seq<MenuItem>>, k: MenuRef, v: Volume, toplevel: bool): (c: seq<seq<MenuItem>>)
    requires k < |a|
    ensures |c| == |a| + 1
  {
    a[k := a[k] + VolumeItems(v, toplevel, |a|)] + [SectionItems(v)]
  }

  /** The inner loop of the drives loop over the first `n` volumes of a drive, added to menu `k`. */
  function VolumesMenus(a: seq<seq<MenuItem>>, k: MenuRef, vs: seq<Volume>, n: nat): (c: seq<seq<MenuItem>>)
    requires k < |a| && n <= |vs|
    ensures |c| == |a| + n
  {
    if n == 0 then a else VolumeMenus(VolumesMenus(a, k, vs, n - 1), k, vs[n - 1], false)
  }

  /** `menu_item(obj, submenu)` over menu `s`. */
  function SubmenuItem(name: string, icon: Icon, s: MenuRef): MenuItem {
    MenuItem(DeviceAttrs(name, icon), Some(s), None)
  }

  /** A new submenu holding `items`, with its top-level item appended to menu 0. */
  function WithSubmenu(a: seq<seq<MenuItem>>, name: string, icon: Icon, items: seq<MenuItem>): (c: seq<seq<MenuItem>>)
    requires |a| > 0
    ensures |c| == |a| + 1
  {
    a[0 := a[0] + [SubmenuItem(name, icon, |a|)]] + [items]
  }

  /** The body of the loop over the connected drives. */
  function DriveMenus(a: seq<seq<MenuItem>>, d: Drive): (c: seq<seq<MenuItem>>)
    requires |a| > 0
    ensures |c| > |a|
  {
    var eject := EjectItems(d.canEject, d.id);
    VolumesMenus(WithSubmenu(a, d.name, d.icon, eject), |a|, d.volumes, |d.volumes|)
  }

  /** The body of the loop over the volumes, for a volume not registered yet. */
  function TopVolumeMenus(a: seq<seq<MenuItem>>, v: Volume): (c: seq<seq<MenuItem>>)
    requires |a| > 0
    ensures |c| > |a|
  {
    VolumeMenus(WithSubmenu(a, v.name, v.icon, []), |a|, v, true)
  }

  /** The body of the loop over the mounts, for a mount not registered yet. */
  function TopMountMenus(a: seq<seq<MenuItem>>, m: Mount): (c: seq<seq<MenuItem>>)
    requires |a| > 0
    ensures |c| > |a|
  {
    MountMenus(WithSubmenu(a, m.name, m.icon, []), |a|, m, true)
  }

  /** The emptied menu, then the first `n` drives. */
  function DrivesMenus(ds: seq<Drive>, n: nat): (c: seq<seq<MenuItem>>)
    requires n <= |ds|
    ensures |c| > 0
  {
    if n == 0 then [[]] else DriveMenus(DrivesMenus(ds, n - 1), ds[n - 1])
  }

  /** The first `n` volumes after arena `a`, each skipped when registered already. */
  function TopVolumesMenus(a: seq<seq<MenuItem>>, vs: seq<Volume>, n: nat, seen: set<ObjectId>): (c: seq<seq<MenuItem>>)
    requires |a| > 0 && n <= |vs|
    ensures |c| > 0
  {
    if n == 0 then a
    else
      var before := TopVolumesMenus(a, vs, n - 1, seen);
      if vs[n - 1].id in VolumesSeen(vs, n - 1, seen) then before else TopVolumeMenus(before, vs[n - 1])
  }

  /** The first `n` mounts after arena `a`, each skipped when registered already. */
  function TopMountsMenus(a: seq<seq<MenuItem>>, ms: seq<Mount>, n: nat, seen: set<ObjectId>): (c: seq<seq<MenuItem>>)
    requires |a| > 0 && n <= |ms|
    ensures |c| > 0
  {
    if n == 0 then a
    else
      var before := TopMountsMenus(a, ms, n - 1, seen);
      if ms[n - 1].id in MountsSeen(ms, n - 1, seen) then before else TopMountMenus(before, ms[n - 1])
  }

  /** The menus `__rebuild_menu` leaves, whatever they held before. */
  function RebuiltMenus(mon: VolumeMonitor): seq<seq<MenuItem>> {
    var drives := DrivesMenus(mon.drives, |mon.drives|);
    var volumes := TopVolumesMenus(drives, mon.volumes, |mon.volumes|, AfterDrives(mon));
    TopMountsMenus(volumes, mon.mounts, |mon.mounts|, AfterVolumes(mon))
  }

  // ---------------------------------------------------------------------------
  // The table each step of a rebuild leaves

  /** `add_mount_items` files the mount. */
  function MountTable(t: map<ObjectId, Device>, m: Mount): (r: map<ObjectId, Device>)
  {
    t[m.id := MountDevice(m)]
  }

  /** The tail of `add_volume_items` files the volume's mount, when mounted. */
  function SectionTable(t: map<ObjectId, Device>, v: Volume): (r: map<ObjectId, Device>)
  {
    match v.mount
    case Some(m) => MountTable(t, m)
    case None => t
  }

  /** `add_volume_items` files the volume, then its mount. */
  function VolumeTable(t: map<ObjectId, Device>, v: Volume): (r: map<ObjectId, Device>)
  {
    SectionTable(t[v.id := VolumeDevice(v)], v)
  }

  function VolumesTable(t: map<ObjectId, Device>, vs: seq<Volume>, n: nat): (r: map<ObjectId, Device>)
    requires n <= |vs|
  {
    if n == 0 then t else VolumeTable(VolumesTable(t, vs, n - 1), vs[n - 1])
  }

  /** The drives loop files the drive, then its volumes and their mounts. */
  function DriveTable(t: map<ObjectId, Device>, d: Drive): (r: map<ObjectId, Device>)
  {
    VolumesTable(t[d.id := DriveDevice(d)], d.volumes, |d.volumes|)
  }

  /** The emptied table, then the first `n` drives. */
  function DrivesTable(ds: seq<Drive>, n: nat): (r: map<ObjectId, Device>)
    requires n <= |ds|
  {
    if n == 0 then map[] else DriveTable(DrivesTable(ds, n - 1), ds[n - 1])
  }

  /** The first `n` volumes after table `t`, each skipped when filed already. */
  function TopVolumesTable(t: map<ObjectId, Device>, vs: seq<Volume>, n: nat): (r: map<ObjectId, Device>)
    requires n <= |vs|
  {
    if n == 0 then t
    else
      var before := TopVolumesTable(t, vs, n - 1);
      if vs[n - 1].id in before then before else VolumeTable(before, vs[n - 1])
  }

  /** The first `n` mounts after table `t`, each skipped when filed already. */
  function TopMountsTable(t: map<ObjectId, Device>, ms: seq<Mount>, n: nat): (r: map<ObjectId, Device>)
    requires n <= |ms|
  {
    if n == 0 then t
    else
      var before := TopMountsTable(t, ms, n - 1);
      if ms[n - 1].id in before then before else MountTable(before, ms[n - 1])
  }

  /** The table `__rebuild_menu` leaves: exactly the listed objects, each under its own id. */
  function RebuiltTable(mon: VolumeMonitor): map<ObjectId, Device>
  {
    var drives := DrivesTable(mon.drives, |mon.drives|);
    TopMountsTable(TopVolumesTable(drives, mon.volumes, |mon.volumes|), mon.mounts, |mon.mounts|)
  }

  /** A volume files itself and its mount, when mounted. */
  lemma VolumeTableKeys(t: map<ObjectId, Device>, v: Volume)
    ensures VolumeTable(t, v).Keys == t.Keys + VolumeIds(v)
    ensures TableKeyed(t) ==> TableKeyed(VolumeTable(t, v))
  {
  }

  /** The volumes of a drive file each volume and its mount under their ids. */
  lemma {:induction false} VolumesTableKeys(t: map<ObjectId, Device>, vs: seq<Volume>, n: nat)
    requires n <= |vs|
    ensures VolumesTable(t, vs, n).Keys == t.Keys + VolumesIds(vs, n)
    ensures TableKeyed(t) ==> TableKeyed(VolumesTable(t, vs, n))
  {
    if n > 0 {
      VolumesTableKeys(t, vs, n - 1);
      VolumeTableKeys(VolumesTable(t, vs, n - 1), vs[n - 1]);
    }
  }

  /** A drive files itself, its volumes and their mounts. */
  lemma DriveTableKeys(t: map<ObjectId, Device>, d: Drive)
    ensures DriveTable(t, d).Keys == t.Keys + DriveIds(d)
    ensures TableKeyed(t) ==> TableKeyed(DriveTable(t, d))
  {
    VolumesTableKeys(t[d.id := DriveDevice(d)], d.volumes, |d.volumes|);
  }

  /** The drives loop files exactly what the drives list, each under its own id. */
  lemma {:induction false} DrivesTableKeys(ds: seq<Drive>, n: nat)
    requires n <= |ds|
    ensures DrivesTable(ds, n).Keys == DrivesSeen(ds, n)
    ensures TableKeyed(DrivesTable(ds, n))
  {
    if n > 0 {
      DrivesTableKeys(ds, n - 1);
      DriveTableKeys(DrivesTable(ds, n - 1), ds[n - 1]);
    }
  }

  /** The volumes loop files a volume and its mount only when the volume was not filed. */
  lemma {:induction false} TopVolumesTableKeys(t: map<ObjectId, Device>, vs: seq<Volume>, n: nat)
    requires n <= |vs|
    ensures TopVolumesTable(t, vs, n).Keys == VolumesSeen(vs, n, t.Keys)
    ensures TableKeyed(t) ==> TableKeyed(TopVolumesTable(t, vs, n))
  {
    if n > 0 {
      TopVolumesTableKeys(t, vs, n - 1);
      var before := TopVolumesTable(t, vs, n - 1);
      if vs[n - 1].id !in before {
        VolumeTableKeys(before, vs[n - 1]);
        assert VolumesSeen(vs, n, t.Keys) == before.Keys + VolumeIds(vs[n - 1]);
      } else {
        assert TopVolumesTable(t, vs, n) == before;
      }
    }
  }

  /** The mounts loop files a mount only when it was not filed. */
  lemma {:induction false} TopMountsTableKeys(t: map<ObjectId, Device>, ms: seq<Mount>, n: nat)
    requires n <= |ms|
    ensures TopMountsTable(t, ms, n).Keys == MountsSeen(ms, n, t.Keys)
    ensures TableKeyed(t) ==> TableKeyed(TopMountsTable(t, ms, n))
  {
    if n > 0 {
      TopMountsTableKeys(t, ms, n - 1);
    }
  }

  /** After a rebuild the table holds exactly the listed objects, each under its own id. */
  lemma RebuiltTableKeys(mon: VolumeMonitor)
    ensures RebuiltTable(mon).Keys == Registered(mon)
    ensures TableKeyed(RebuiltTable(mon))
  {
    var drives := DrivesTable(mon.drives, |mon.drives|);
    DrivesTableKeys(mon.drives, |mon.drives|);
    TopVolumesTableKeys(drives, mon.volumes, |mon.volumes|);
    TopMountsTableKeys(TopVolumesTable(drives, mon.volumes, |mon.volumes|), mon.mounts, |mon.mounts|);
  }

  // ---------------------------------------------------------------------------
  // Each step, read as a client reads the menu

  /** Appending items without links to menu `k` appends their leaves. */
  lemma LeavesAppended(a: seq<seq<MenuItem>>, k: nat, items: seq<MenuItem>)
    requires LinksForward(a) && k < |a| && Unlinked(items)
    ensures LinksForward(a[k := a[k] + items])
    ensures ModelAt(a[k := a[k] + items], k) == ModelAt(a, k) + Leaves(items)
  {
    var c := a[k := a[k] + items];
    UnlinkedEntries(a, k, items);
    EntriesConcat(a, k, a[k], items);
    assert LinksForward(c) by {
      forall j | 0 <= j < |c|
        ensures LinksAbove(c[j], j, |c|)
      {
        if j != k {
          assert c[j] == a[j];
        }
      }
    }
    ModelAtAppended(a, c, k, items);
    UnlinkedEntries(c, k, items);
  }

  /** The items `add_mount_items` appends are leaves, in the order Eject, Open, Unmount. */
  lemma MountMenusModel(a: seq<seq<MenuItem>>, k: MenuRef, m: Mount, toplevel: bool)
    requires LinksForward(a) && k < |a|
    ensures LinksForward(MountMenus(a, k, m, toplevel))
    ensures MountMenus(a, k, m, toplevel)[..k] == a[..k]
    ensures ModelAt(MountMenus(a, k, m, toplevel), k) == ModelAt(a, k) + Leaves(MountItems(m, toplevel))
  {
    LeavesAppended(a, k, MountItems(m, toplevel));
  }

  /** Appending to menu `k` items that link no lower and a new menu of leaves keeps links forward. */
  lemma SectionLinks(a: seq<seq<MenuItem>>, k: nat, items: seq<MenuItem>, sec: seq<MenuItem>)
    requires LinksForward(a) && k < |a| && Unlinked(sec)
    requires LinksAbove(items, k, |a| + 1)
    ensures LinksForward(a[k := a[k] + items] + [sec])
  {
    var c := a[k := a[k] + items] + [sec];
    forall j | 0 <= j < |c|
      ensures LinksAbove(c[j], j, |c|)
    {
      if j == |a| {
        assert c[j] == sec;
      } else if j != k {
        assert c[j] == a[j];
      } else {
        assert forall i :: 0 <= i < |c[k]| ==> c[k][i] == if i < |a[k]| then a[k][i] else items[i - |a[k]|];
      }
    }
  }

  /** Appending `items` to menu `k` and a new menu of leaves after the arena. */
  lemma SectionAppended(a: seq<seq<MenuItem>>, c: seq<seq<MenuItem>>, k: nat, items: seq<MenuItem>, sec: seq<MenuItem>)
    requires LinksForward(a) && k < |a| && Unlinked(sec)
    requires LinksAbove(items, k, |a| + 1)
    requires c == a[k := a[k] + items] + [sec]
    ensures LinksForward(c) && c[..k] == a[..k]
    ensures ModelAt(c, |a|) == Leaves(sec)
    ensures ModelAt(c, k) == ModelAt(a, k) + EntriesOf(c, k, items)
  {
    SectionLinks(a, k, items, sec);
    ModelAtAppended(a, c, k, items);
    UnlinkedEntries(c, |a|, sec);
  }

  /** The items of a volume whose section reads as its section entries read as the volume's entries. */
  lemma VolumeItemsEntries(c: seq<seq<MenuItem>>, k: nat, v: Volume, toplevel: bool, s: MenuRef)
    requires LinksForward(c) && k < s < |c|
    requires ModelAt(c, s) == SectionEntries(v)
    ensures LinksAbove(VolumeItems(v, toplevel, s), k, |c|)
    ensures EntriesOf(c, k, VolumeItems(v, toplevel, s)) == VolumeEntries(v, toplevel)
  {
    var eject := EjectItems(toplevel && v.canEject, v.id);
    var item := MenuItem(DeviceAttrs(v.name, v.icon), None, Some(s));
    UnlinkedEntries(c, k, eject);
    EntriesSingle(c, k, item);
    EntriesConcat(c, k, eject, [item]);
  }

  /** `add_volume_items` adds Eject when top-level and ejectable, then the volume's labelled section. */
  lemma VolumeMenusModel(a: seq<seq<MenuItem>>, k: MenuRef, v: Volume, toplevel: bool)
    requires LinksForward(a) && k < |a|
    ensures LinksForward(VolumeMenus(a, k, v, toplevel))
    ensures VolumeMenus(a, k, v, toplevel)[..k] == a[..k]
    ensures ModelAt(VolumeMenus(a, k, v, toplevel), k) == ModelAt(a, k) + VolumeEntries(v, toplevel)
  {
    var c := VolumeMenus(a, k, v, toplevel);
    SectionAppended(a, c, k, VolumeItems(v, toplevel, |a|), SectionItems(v));
    VolumeItemsEntries(c, k, v, toplevel, |a|);
  }

  /** The volumes of a drive read as one section each, in order. */
  lemma {:induction false} VolumesMenusModel(a: seq<seq<MenuItem>>, k: MenuRef, vs: seq<Volume>, n: nat)
    requires LinksForward(a) && k < |a| && n <= |vs|
    ensures LinksForward(VolumesMenus(a, k, vs, n))
    ensures VolumesMenus(a, k, vs, n)[..k] == a[..k]
    ensures ModelAt(VolumesMenus(a, k, vs, n), k) == ModelAt(a, k) + VolumesEntries(vs, n)
  {
    if n > 0 {
      var c := VolumesMenus(a, k, vs, n - 1);
      VolumesMenusModel(a, k, vs, n - 1);
      VolumeMenusModel(c, k, vs[n - 1], false);
      assert ModelAt(a, k) + VolumesEntries(vs, n - 1) + VolumeEntries(vs[n - 1], false) ==
        ModelAt(a, k) + VolumesEntries(vs, n);
    }
  }

  /** A new submenu of unlinked items reads as their leaves. */
  lemma WithSubmenuModel(a: seq<seq<MenuItem>>, name: string, icon: Icon, items: seq<MenuItem>)
    requires LinksForward(a) && |a| > 0 && Unlinked(items)
    ensures LinksForward(WithSubmenu(a, name, icon, items))
    ensures ModelAt(WithSubmenu(a, name, icon, items), |a|) == Leaves(items)
  {
    var c := WithSubmenu(a, name, icon, items);
    assert LinksForward(c) by {
      forall j | 0 <= j < |c|
        ensures LinksAbove(c[j], j, |c|)
      {
        if 0 < j < |a| {
          assert c[j] == a[j];
        } else if j == 0 {
          assert forall i :: 0 <= i < |c[0]| ==> c[0][i] == if i < |a[0]| then a[0][i] else SubmenuItem(name, icon, |a|);
        }
      }
    }
    UnlinkedEntries(c, |a|, items);
  }

  /**
   * An arena `c` that keeps the menus before the new submenu as `WithSubmenu`
   * left them adds one top-level entry over what the submenu holds in the end.
   */
  lemma SubmenuFilled(a: seq<seq<MenuItem>>, c: seq<seq<MenuItem>>, name: string, icon: Icon, items: seq<MenuItem>, entries: seq<Entry>)
    requires LinksForward(a) && |a| > 0
    requires LinksForward(c) && |c| > |a| && c[..|a|] == WithSubmenu(a, name, icon, items)[..|a|]
    requires ModelAt(c, |a|) == entries
    ensures ModelAt(c, 0) == ModelAt(a, 0) + [SubmenuEntry(name, icon, entries)]
  {
    var b := WithSubmenu(a, name, icon, items);
    assert forall j :: 0 <= j < |a| ==> c[j] == b[j] by {
      forall j | 0 <= j < |a|
        ensures c[j] == b[j]
      {
        assert c[..|a|][j] == b[..|a|][j];
      }
    }
    SubmenuAppended(a, c, SubmenuItem(name, icon, |a|), entries);
  }

  /** A new submenu over `first`, followed by the sections of the volumes `vs`. */
  lemma SubmenuVolumes(a: seq<seq<MenuItem>>, c: seq<seq<MenuItem>>, name: string, icon: Icon, first: seq<MenuItem>, vs: seq<Volume>)
    requires LinksForward(a) && |a| > 0 && Unlinked(first)
    requires c == VolumesMenus(WithSubmenu(a, name, icon, first), |a|, vs, |vs|)
    ensures LinksForward(c)
    ensures ModelAt(c, 0) == ModelAt(a, 0) + [SubmenuEntry(name, icon, Leaves(first) + VolumesEntries(vs, |vs|))]
  {
    var b := WithSubmenu(a, name, icon, first);
    WithSubmenuModel(a, name, icon, first);
    VolumesMenusModel(b, |a|, vs, |vs|);
    SubmenuFilled(a, c, name, icon, first, Leaves(first) + VolumesEntries(vs, |vs|));
  }

  /** A connected drive adds one top-level entry over Eject, when ejectable, and its volumes' sections. */
  lemma DriveMenusModel(a: seq<seq<MenuItem>>, d: Drive)
    requires LinksForward(a) && |a| > 0
    ensures LinksForward(DriveMenus(a, d))
    ensures ModelAt(DriveMenus(a, d), 0) == ModelAt(a, 0) + [DriveEntry(d)]
  {
    var eject := EjectItems(d.canEject, d.id);
    SubmenuVolumes(a, DriveMenus(a, d), d.name, d.icon, eject, d.volumes);
  }

  /** A volume listed at top level adds one entry over its own items. */
  lemma TopVolumeMenusModel(a: seq<seq<MenuItem>>, v: Volume)
    requires LinksForward(a) && |a| > 0
    ensures LinksForward(TopVolumeMenus(a, v))
    ensures ModelAt(TopVolumeMenus(a, v), 0) == ModelAt(a, 0) + [VolumeTopEntry(v)]
  {
    var b := WithSubmenu(a, v.name, v.icon, []);
    WithSubmenuModel(a, v.name, v.icon, []);
    VolumeMenusModel(b, |a|, v, true);
    SubmenuFilled(a, TopVolumeMenus(a, v), v.name, v.icon, [], VolumeEntries(v, true));
  }

  /** A mount listed at top level adds one entry over its items. */
  lemma TopMountMenusModel(a: seq<seq<MenuItem>>, m: Mount)
    requires LinksForward(a) && |a| > 0
    ensures LinksForward(TopMountMenus(a, m))
    ensures ModelAt(TopMountMenus(a, m), 0) == ModelAt(a, 0) + [MountTopEntry(m)]
  {
    var b := WithSubmenu(a, m.name, m.icon, []);
    WithSubmenuModel(a, m.name, m.icon, []);
    MountMenusModel(b, |a|, m, true);
    SubmenuFilled(a, TopMountMenus(a, m), m.name, m.icon, [], Leaves(MountItems(m, true)));
  }

  lemma {:induction false} DrivesMenusModel(ds: seq<Drive>, n: nat)
    requires n <= |ds|
    ensures LinksForward(DrivesMenus(ds, n))
    ensures ModelAt(DrivesMenus(ds, n), 0) == DrivesTop(ds, n)
  {
    if n > 0 {
      DrivesMenusModel(ds, n - 1);
      DriveMenusModel(DrivesMenus(ds, n - 1), ds[n - 1]);
    }
  }

  lemma {:induction false} TopVolumesMenusModel(a: seq<seq<MenuItem>>, vs: seq<Volume>, n: nat, seen: set<ObjectId>)
    requires LinksForward(a) && |a| > 0 && n <= |vs|
    ensures LinksForward(TopVolumesMenus(a, vs, n, seen))
    ensures ModelAt(TopVolumesMenus(a, vs, n, seen), 0) == ModelAt(a, 0) + VolumesTop(vs, n, seen)
  {
    if n > 0 {
      var before := TopVolumesMenus(a, vs, n - 1, seen);
      TopVolumesMenusModel(a, vs, n - 1, seen);
      if vs[n - 1].id !in VolumesSeen(vs, n - 1, seen) {
        TopVolumeMenusModel(before, vs[n - 1]);
        assert ModelAt(a, 0) + VolumesTop(vs, n - 1, seen) + [VolumeTopEntry(vs[n - 1])] ==
          ModelAt(a, 0) + VolumesTop(vs, n, seen);
      } else {
        assert VolumesTop(vs, n, seen) == VolumesTop(vs, n - 1, seen) + [];
      }
    }
  }

  lemma {:induction false} TopMountsMenusModel(a: seq<seq<MenuItem>>, ms: seq<Mount>, n: nat, seen: set<ObjectId>)
    requires LinksForward(a) && |a| > 0 && n <= |ms|
    ensures LinksForward(TopMountsMenus(a, ms, n, seen))
    ensures ModelAt(TopMountsMenus(a, ms, n, seen), 0) == ModelAt(a, 0) + MountsTop(ms, n, seen)
  {
    if n > 0 {
      var before := TopMountsMenus(a, ms, n - 1, seen);
      TopMountsMenusModel(a, ms, n - 1, seen);
      if ms[n - 1].id !in MountsSeen(ms, n - 1, seen) {
        TopMountMenusModel(before, ms[n - 1]);
        assert ModelAt(a, 0) + MountsTop(ms, n - 1, seen) + [MountTopEntry(ms[n - 1])] ==
          ModelAt(a, 0) + MountsTop(ms, n, seen);
      } else {
        assert MountsTop(ms, n, seen) == MountsTop(ms, n - 1, seen) + [];
      }
    }
  }

  /** After a rebuild the exported menu reads as the layout: drives, then unlisted volumes, then unlisted mounts. */
  lemma RebuiltMenusModel(mon: VolumeMonitor)
    ensures LinksForward(RebuiltMenus(mon))
    ensures ModelAt(RebuiltMenus(mon), 0) == Layout(mon)
  {
    var drives := DrivesMenus(mon.drives, |mon.drives|);
    DrivesMenusModel(mon.drives, |mon.drives|);
    TopVolumesMenusModel(drives, mon.volumes, |mon.volumes|, AfterDrives(mon));
    var volumes := TopVolumesMenus(drives, mon.volumes, |mon.volumes|, AfterDrives(mon));
    TopMountsMenusModel(volumes, mon.mounts, |mon.mounts|, AfterVolumes(mon));
  }

  // ---------------------------------------------------------------------------
  // Every target a rebuild leaves names a filed object

  lemma TargetsWiden(menus: seq<seq<MenuItem>>, ids: set<ObjectId>, more: set<ObjectId>)
    requires TargetsIn(menus, ids) && ids <= more
    ensures TargetsIn(menus, more)
  {
    forall k | 0 <= k < |menus|
      ensures ItemsTargetIn(more, menus[k])
    {
      assert ItemsTargetIn(ids, menus[k]);
    }
  }

  lemma TargetsAppended(a: seq<seq<MenuItem>>, ids: set<ObjectId>, k: nat, items: seq<MenuItem>)
    requires TargetsIn(a, ids) && k < |a| && ItemsTargetIn(ids, items)
    ensures TargetsIn(a[k := a[k] + items], ids)
  {
    var c: seq<seq<MenuItem>> := a[k := a[k] + items];
    forall j | 0 <= j < |c|
      ensures ItemsTargetIn(ids, c[j])
    {
      if j == k {
        assert ItemsTargetIn(ids, a[k]);
        assert forall i :: 0 <= i < |c[k]| ==> c[k][i] == if i < |a[k]| then a[k][i] else items[i - |a[k]|];
      } else {
        assert c[j] == a[j];
      }
    }
  }

  lemma TargetsPushed(a: seq<seq<MenuItem>>, ids: set<ObjectId>, items: seq<MenuItem>)
    requires TargetsIn(a, ids) && ItemsTargetIn(ids, items)
    ensures TargetsIn(a + [items], ids)
  {
    var c: seq<seq<MenuItem>> := a + [items];
    forall j | 0 <= j < |c|
      ensures ItemsTargetIn(ids, c[j])
    {
      if j < |a| {
        assert c[j] == a[j];
      }
    }
  }

  /** The items of a mount target the mount. */
  lemma MountItemsTargets(m: Mount, toplevel: bool, ids: set<ObjectId>)
    requires m.id in ids
    ensures ItemsTargetIn(ids, MountItems(m, toplevel))
  {
    ActionTargetIn(ids, EJECT_LABEL, EJECT_VERB, EJECT_ICONS, m.id);
    ActionTargetIn(ids, OPEN_LABEL, OPEN_VERB, OPEN_ICONS, m.id);
    ActionTargetIn(ids, UNMOUNT_LABEL, UNMOUNT_VERB, UNMOUNT_ICONS, m.id);
  }

  /** The items of a volume's section target the volume or its mount. */
  lemma SectionItemsTargets(v: Volume, ids: set<ObjectId>)
    requires VolumeIds(v) <= ids
    ensures ItemsTargetIn(ids, SectionItems(v))
  {
    if v.mount.Some? {
      MountItemsTargets(v.mount.value, false, ids);
    } else {
      ActionTargetIn(ids, MOUNT_LABEL, MOUNT_VERB, MOUNT_ICONS, v.id);
    }
  }

  lemma VolumeMenusTargets(a: seq<seq<MenuItem>>, k: MenuRef, v: Volume, toplevel: bool, ids: set<ObjectId>)
    requires TargetsIn(a, ids) && k < |a| && VolumeIds(v) <= ids
    ensures TargetsIn(VolumeMenus(a, k, v, toplevel), ids)
  {
    ActionTargetIn(ids, EJECT_LABEL, EJECT_VERB, EJECT_ICONS, v.id);
    assert ItemsTargetIn(ids, VolumeItems(v, toplevel, |a|));
    TargetsAppended(a, ids, k, VolumeItems(v, toplevel, |a|));
    SectionItemsTargets(v, ids);
    TargetsPushed(a[k := a[k] + VolumeItems(v, toplevel, |a|)], ids, SectionItems(v));
  }

  lemma {:induction false} VolumesMenusTargets(a: seq<seq<MenuItem>>, k: MenuRef, vs: seq<Volume>, n: nat, ids: set<ObjectId>)
    requires TargetsIn(a, ids) && k < |a| && n <= |vs| && VolumesIds(vs, n) <= ids
    ensures TargetsIn(VolumesMenus(a, k, vs, n), ids)
  {
    if n > 0 {
      VolumesMenusTargets(a, k, vs, n - 1, ids);
      VolumeMenusTargets(VolumesMenus(a, k, vs, n - 1), k, vs[n - 1], false, ids);
    }
  }

  lemma WithSubmenuTargets(a: seq<seq<MenuItem>>, name: string, icon: Icon, items: seq<MenuItem>, ids: set<ObjectId>)
    requires TargetsIn(a, ids) && |a| > 0 && ItemsTargetIn(ids, items)
    ensures TargetsIn(WithSubmenu(a, name, icon, items), ids)
  {
    assert ItemsTargetIn(ids, [SubmenuItem(name, icon, |a|)]);
    TargetsAppended(a, ids, 0, [SubmenuItem(name, icon, |a|)]);
    TargetsPushed(a[0 := a[0] + [SubmenuItem(name, icon, |a|)]], ids, items);
  }

  lemma DriveMenusTargets(a: seq<seq<MenuItem>>, d: Drive, ids: set<ObjectId>)
    requires TargetsIn(a, ids) && |a| > 0 && DriveIds(d) <= ids
    ensures TargetsIn(DriveMenus(a, d), ids)
  {
    var eject := EjectItems(d.canEject, d.id);
    ActionTargetIn(ids, EJECT_LABEL, EJECT_VERB, EJECT_ICONS, d.id);
    WithSubmenuTargets(a, d.name, d.icon, eject, ids);
    VolumesMenusTargets(WithSubmenu(a, d.name, d.icon, eject), |a|, d.volumes, |d.volumes|, ids);
  }

  lemma TopVolumeMenusTargets(a: seq<seq<MenuItem>>, v: Volume, ids: set<ObjectId>)
    requires TargetsIn(a, ids) && |a| > 0 && VolumeIds(v) <= ids
    ensures TargetsIn(TopVolumeMenus(a, v), ids)
  {
    WithSubmenuTargets(a, v.name, v.icon, [], ids);
    VolumeMenusTargets(WithSubmenu(a, v.name, v.icon, []), |a|, v, true, ids);
  }

  lemma TopMountMenusTargets(a: seq<seq<MenuItem>>, m: Mount, ids: set<ObjectId>)
    requires TargetsIn(a, ids) && |a| > 0 && m.id in ids
    ensures TargetsIn(TopMountMenus(a, m), ids)
  {
    var b := WithSubmenu(a, m.name, m.icon, []);
    WithSubmenuTargets(a, m.name, m.icon, [], ids);
    MountItemsTargets(m, true, ids);
    TargetsAppended(b, ids, |a|, MountItems(m, true));
  }

  lemma {:induction false} DrivesMenusTargets(ds: seq<Drive>, n: nat)
    requires n <= |ds|
    ensures TargetsIn(DrivesMenus(ds, n), DrivesSeen(ds, n))
  {
    if n > 0 {
      DrivesMenusTargets(ds, n - 1);
      TargetsWiden(DrivesMenus(ds, n - 1), DrivesSeen(ds, n - 1), DrivesSeen(ds, n));
      DriveMenusTargets(DrivesMenus(ds, n - 1), ds[n - 1], DrivesSeen(ds, n));
    }
  }

  lemma {:induction false} TopVolumesMenusTargets(a: seq<seq<MenuItem>>, vs: seq<Volume>, n: nat, seen: set<ObjectId>)
    requires TargetsIn(a, seen) && |a| > 0 && n <= |vs|
    ensures TargetsIn(TopVolumesMenus(a, vs, n, seen), VolumesSeen(vs, n, seen))
  {
    if n > 0 {
      var before := TopVolumesMenus(a, vs, n - 1, seen);
      TopVolumesMenusTargets(a, vs, n - 1, seen);
      if vs[n - 1].id !in VolumesSeen(vs, n - 1, seen) {
        TargetsWiden(before, VolumesSeen(vs, n - 1, seen), VolumesSeen(vs, n, seen));
        TopVolumeMenusTargets(before, vs[n - 1], VolumesSeen(vs, n, seen));
      }
    }
  }

  lemma {:induction false} TopMountsMenusTargets(a: seq<seq<MenuItem>>, ms: seq<Mount>, n: nat, seen: set<ObjectId>)
    requires TargetsIn(a, seen) && |a| > 0 && n <= |ms|
    ensures TargetsIn(TopMountsMenus(a, ms, n, seen), MountsSeen(ms, n, seen))
  {
    if n > 0 {
      var before := TopMountsMenus(a, ms, n - 1, seen);
      TopMountsMenusTargets(a, ms, n - 1, seen);
      TargetsWiden(before, MountsSeen(ms, n - 1, seen), MountsSeen(ms, n, seen));
      if ms[n - 1].id !in MountsSeen(ms, n - 1, seen) {
        TopMountMenusTargets(before, ms[n - 1], MountsSeen(ms, n, seen));
      }
    }
  }

  /** Every target in the rebuilt menus names an object of the rebuilt table. */
  lemma RebuiltTargets(mon: VolumeMonitor)
    ensures TargetsIn(RebuiltMenus(mon), Registered(mon))
  {
    var drives := DrivesMenus(mon.drives, |mon.drives|);
    DrivesMenusTargets(mon.drives, |mon.drives|);
    TopVolumesMenusTargets(drives, mon.volumes, |mon.volumes|, AfterDrives(mon));
    var volumes := TopVolumesMenus(drives, mon.volumes, |mon.volumes|, AfterDrives(mon));
    TopMountsMenusTargets(volumes, mon.mounts, |mon.mounts|, AfterVolumes(mon));
  }

  /** The arena `add_volume_items` leaves, read off menu by menu. */
  lemma VolumeArena(a: seq<seq<MenuItem>>, k: MenuRef, eject: seq<MenuItem>, item: MenuItem, c: seq<seq<MenuItem>>)
    requires k < |a| && |c| == |a| + 1
    requires forall j :: 0 <= j < |a| && j != k ==> c[j] == a[j]
    requires c[k] == a[k] + eject + [item]
    ensures c == a[k := a[k] + (eject + [item])] + [c[|a|]]
  {
    assert a[k] + eject + [item] == a[k] + (eject + [item]);
  }

  /** The arena a new submenu leaves once `items` are appended to it, read off menu by menu. */
  lemma SubmenuArena(a: seq<seq<MenuItem>>, name: string, icon: Icon, items: seq<MenuItem>, c: seq<seq<MenuItem>>)
    requires |a| > 0 && |c| == |a| + 1
    requires c[..|a|] == WithSubmenu(a, name, icon, [])[..|a|] && c[|a|] == items
    ensures c == WithSubmenu(a, name, icon, items)
  {
    var b := WithSubmenu(a, name, icon, items);
    forall j | 0 <= j < |c|
      ensures c[j] == b[j]
    {
      if j < |a| {
        assert c[..|a|][j] == c[j];
      }
    }
  }

  // ---------------------------------------------------------------------------
  // What the layout promises

  /** Items read as one leaf each, in order. */
  lemma {:induction false} LeavesAt(items: seq<MenuItem>)
    ensures |Leaves(items)| == |items|
    ensures forall i :: 0 <= i < |items| ==> Leaves(items)[i] == Leaf(items[i])
    decreases |items|
  {
    if items != [] {
      LeavesAt(items[..|items| - 1]);
    }
  }

  /** The items of a mount: Eject first when top-level and ejectable, then Open, then Unmount when unmountable. */
  lemma MountItemsOrder(m: Mount, toplevel: bool)
    ensures var eject := if toplevel && m.canEject then 1 else 0;
      |MountItems(m, toplevel)| == eject + 1 + (if m.canUnmount then 1 else 0) &&
      MountItems(m, toplevel)[eject] == OpenItem(m.id) &&
      (eject == 1 ==> MountItems(m, toplevel)[0] == EjectItem(m.id)) &&
      (m.canUnmount ==> MountItems(m, toplevel)[eject + 1] == UnmountItem(m.id))
  {
  }

  /** No item of a section offers Eject: only top-level submenus do. */
  lemma SectionNeverEjects(v: Volume)
    ensures forall i :: 0 <= i < |SectionItems(v)| ==>
      ACTION in SectionItems(v)[i].attrs && SectionItems(v)[i].attrs[ACTION] != Str(EJECT_VERB)
  {
    assert OPEN_VERB != EJECT_VERB && UNMOUNT_VERB != EJECT_VERB && MOUNT_VERB != EJECT_VERB by {
      assert OPEN_VERB[0] != EJECT_VERB[0] && UNMOUNT_VERB[0] != EJECT_VERB[0] && MOUNT_VERB[0] != EJECT_VERB[0];
    }
  }

  /** A drive's volumes read as one labelled section each, in the drive's order. */
  lemma {:induction false} VolumesEntriesShape(vs: seq<Volume>, n: nat)
    requires n <= |vs|
    ensures |VolumesEntries(vs, n)| == n
    ensures forall i :: 0 <= i < n ==>
      VolumesEntries(vs, n)[i] == Entry(DeviceAttrs(vs[i].name, vs[i].icon), Some(SectionEntries(vs[i])), None)
  {
    if n > 0 {
      VolumesEntriesShape(vs, n - 1);
      LeavesAt(EjectItems(false, vs[n - 1].id));
    }
  }

  /**
   * A drive's submenu: Eject first when the drive is ejectable, then the
   * drive's volumes, one labelled section each (VolumesEntriesShape).
   */
  lemma DriveEntriesShape(d: Drive)
    ensures var e := if d.canEject then 1 else 0;
      && |DriveEntries(d)| == e + |d.volumes|
      && DriveEntries(d)[..e] == (if d.canEject then [Leaf(EjectItem(d.id))] else [])
      && DriveEntries(d)[e..] == VolumesEntries(d.volumes, |d.volumes|)
  {
    var eject := Leaves(EjectItems(d.canEject, d.id));
    LeavesAt(EjectItems(d.canEject, d.id));
    VolumesEntriesShape(d.volumes, |d.volumes|);
    ConcatParts(eject, VolumesEntries(d.volumes, |d.volumes|), DriveEntries(d));
  }

  /** The two parts of a concatenation. */
  lemma ConcatParts<T>(a: seq<T>, b: seq<T>, c: seq<T>)
    requires c == a + b
    ensures |c| == |a| + |b| && c[..|a|] == a && c[|a|..] == b
  {
  }

  /** Listing volumes only adds ids: what was registered stays, and every listed volume is registered. */
  lemma {:induction false} VolumesSeenGrows(vs: seq<Volume>, n: nat, seen: set<ObjectId>)
    requires n <= |vs|
    ensures seen <= VolumesSeen(vs, n, seen)
    ensures forall i :: 0 <= i < n ==> vs[i].id in VolumesSeen(vs, n, seen)
  {
    if n > 0 {
      VolumesSeenGrows(vs, n - 1, seen);
    }
  }

  lemma VolumesTopStep(vs: seq<Volume>, n: nat, seen: set<ObjectId>)
    requires 0 < n <= |vs| && vs[n - 1].id in VolumesSeen(vs, n - 1, seen)
    ensures VolumesTop(vs, n, seen) == VolumesTop(vs, n - 1, seen)
  {
  }

  /** A volume already registered, by a drive or as a repeat, gets no top-level entry of its own. */
  lemma {:induction false} VolumesTopSkipsSeen(vs: seq<Volume>, n: nat, seen: set<ObjectId>)
    requires n <= |vs|
    requires forall i :: 0 <= i < n ==> vs[i].id in seen
    ensures VolumesTop(vs, n, seen) == []
  {
    if n > 0 {
      VolumesTopSkipsSeen(vs, n - 1, seen);
      VolumesSeenGrows(vs, n - 1, seen);
      VolumesTopStep(vs, n, seen);
    }
  }

  /** One top-level entry per volume at most, and exactly one per volume when none is registered twice. */
  lemma {:induction false} VolumesTopCount(vs: seq<Volume>, n: nat, seen: set<ObjectId>)
    requires n <= |vs|
    ensures |VolumesTop(vs, n, seen)| <= n
    ensures (forall i :: 0 <= i < n ==> vs[i].id !in seen && vs[i].id !in VolumesSeen(vs, i, seen)) ==>
      |VolumesTop(vs, n, seen)| == n
  {
    if n > 0 {
      VolumesTopCount(vs, n - 1, seen);
    }
  }

  lemma {:induction false} MountsSeenGrows(ms: seq<Mount>, n: nat, seen: set<ObjectId>)
    requires n <= |ms|
    ensures MountsSeen(ms, n, seen) == seen + set i | 0 <= i < n :: ms[i].id
  {
    if n > 0 {
      MountsSeenGrows(ms, n - 1, seen);
      assert (set i | 0 <= i < n :: ms[i].id) == (set i | 0 <= i < n - 1 :: ms[i].id) + {ms[n - 1].id};
    }
  }

  /** A mount already registered, by a volume or as a repeat, gets no top-level entry of its own. */
  lemma {:induction false} MountsTopSkipsSeen(ms: seq<Mount>, n: nat, seen: set<ObjectId>)
    requires n <= |ms|
    requires forall i :: 0 <= i < n ==> ms[i].id in seen
    ensures MountsTop(ms, n, seen) == []
  {
    if n > 0 {
      MountsTopSkipsSeen(ms, n - 1, seen);
      MountsSeenGrows(ms, n - 1, seen);
      assert ms[n - 1].id in MountsSeen(ms, n - 1, seen);
    }
  }

  lemma {:induction false} DrivesSeenHolds(ds: seq<Drive>, n: nat)
    requires n <= |ds|
    ensures forall i :: 0 <= i < n ==> DriveIds(ds[i]) <= DrivesSeen(ds, n)
  {
    if n > 0 {
      DrivesSeenHolds(ds, n - 1);
    }
  }

  /**
   * After a rebuild every object the monitor lists is filed: each drive with
   * its volumes and their mounts, each volume and each mount.
   */
  lemma ListedRegistered(mon: VolumeMonitor)
    ensures forall i :: 0 <= i < |mon.drives| ==> DriveIds(mon.drives[i]) <= Registered(mon)
    ensures forall i :: 0 <= i < |mon.volumes| ==> mon.volumes[i].id in Registered(mon)
    ensures forall i :: 0 <= i < |mon.mounts| ==> mon.mounts[i].id in Registered(mon)
  {
    DrivesSeenHolds(mon.drives, |mon.drives|);
    VolumesSeenGrows(mon.volumes, |mon.volumes|, AfterDrives(mon));
    MountsSeenGrows(mon.mounts, |mon.mounts|, AfterVolumes(mon));
  }

  // ---------------------------------------------------------------------------
  // The MountMenu object

  /** The asynchronous call an action handler starts on the object it looked up. */
  datatype Operation = MountOp | UnmountOp | OpenOp | EjectOp

  datatype Request = Request(op: Operation, device: Device)

  /**
   * `MountMenu`: the arena of menus (menu 0 is the exported menu) and the
   * `__action_items` table.
   */
  class MountMenu {
    var menus: seq<seq<MenuItem>>
    var actionItems: map<ObjectId, Device>

    /** Links point forward, objects are filed under their ids, and every target names a filed object. */
    ghost predicate Valid()
      reads this
    {
      |menus| > 0 && LinksForward(menus) && TableKeyed(actionItems) && TargetsIn(menus, actionItems.Keys)
    }

    /** The exported menu as a client reads it. */
    ghost function Menu(): seq<Entry>
      reads this
      requires Valid()
    {
      ModelAt(menus, 0)
    }

    /** `__init__`: the menu is built once from what the monitor lists. */
    constructor (monitor: VolumeMonitor)
      ensures Valid() && Menu() == Layout(monitor)
      ensures actionItems.Keys == Registered(monitor)
    {
      menus := [[]];
      actionItems := map[];
      new;
      Rebuild(monitor);
    }

    /** `Gio.Menu()`: a new, empty menu. */
    method NewMenu() returns (k: MenuRef)
      modifies this
      ensures k == |old(menus)| && menus == old(menus) + [[]]
      ensures actionItems == old(actionItems)
    {
      k := |menus|;
      menus := menus + [[]];
    }

    /** `menu.append_item(item)` on menu `k`. */
    method AppendItem(k: MenuRef, item: MenuItem)
      requires k < |menus|
      modifies this
      ensures menus == old(menus)[k := old(menus)[k] + [item]]
      ensures actionItems == old(actionItems)
    {
      menus := menus[k := menus[k] + [item]];
    }

    /** `menu.append_item(eject_item(obj))` and its siblings: an item running `verb` on `id`. */
    method AppendActionItem(k: MenuRef, text: string, verb: string, icons: seq<string>, id: ObjectId)
      requires k < |menus| && NoColon(verb)
      modifies this
      ensures menus == old(menus)[k := old(menus)[k] + [ActionItem(text, verb, icons, id)]]
      ensures actionItems == old(actionItems)
    {
      var item := CreateItem(Some(text), Some(DeviceAction(verb, id)), IconNames(icons), None, None);
      ActionItemCreated(text, verb, icons, id);
      AppendItem(k, item);
    }

    /** `add_mount_items(menu k, m, toplevel)`. */
    method AddMountItems(k: MenuRef, m: Mount, toplevel: bool)
      requires k < |menus|
      modifies this
      ensures menus == MountMenus(old(menus), k, m, toplevel)
      ensures actionItems == MountTable(old(actionItems), m)
    {
      actionItems := actionItems[m.id := MountDevice(m)];
      if toplevel && m.canEject {
        AppendActionItem(k, EJECT_LABEL, EJECT_VERB, EJECT_ICONS, m.id);
      }
      AppendActionItem(k, OPEN_LABEL, OPEN_VERB, OPEN_ICONS, m.id);
      if m.canUnmount {
        AppendActionItem(k, UNMOUNT_LABEL, UNMOUNT_VERB, UNMOUNT_ICONS, m.id);
      }
      assert menus[k] == old(menus)[k] + MountItems(m, toplevel);
    }

    /** `add_volume_items(menu k, v, toplevel)`: its section is the next menu created. */
    method AddVolumeItems(k: MenuRef, v: Volume, toplevel: bool)
      requires k < |menus|
      modifies this
      ensures menus == VolumeMenus(old(menus), k, v, toplevel)
      ensures actionItems == VolumeTable(old(actionItems), v)
    {
      actionItems := actionItems[v.id := VolumeDevice(v)];
      if toplevel && v.canEject {
        AppendActionItem(k, EJECT_LABEL, EJECT_VERB, EJECT_ICONS, v.id);
      }
      var section := NewMenu();
      var item := CreateItem(Some(v.name), None, GivenIcon(v.icon), None, Some(section));
      DeviceItemCreated(v.name, v.icon);
      AppendItem(k, item);
      FillSection(section, v);
      assert [] + SectionItems(v) == SectionItems(v);
      VolumeArena(old(menus), k, EjectItems(toplevel && v.canEject, v.id), item, menus);
    }

    /** The tail of `add_volume_items`: the mount's items when mounted, else Mount when mountable. */
    method FillSection(section: MenuRef, v: Volume)
      requires section < |menus|
      modifies this
      ensures menus == old(menus)[section := old(menus)[section] + SectionItems(v)]
      ensures actionItems == SectionTable(old(actionItems), v)
    {
      match v.mount {
        case Some(m) =>
          AddMountItems(section, m, false);
        case None =>
          if v.canMount {
            AppendActionItem(section, MOUNT_LABEL, MOUNT_VERB, MOUNT_ICONS, v.id);
          } else {
            assert old(menus)[section] + [] == old(menus)[section];
          }
      }
    }

    /** `menu_item(obj, submenu)` appended to the exported menu over a new submenu. */
    method AddSubmenu(name: string, icon: Icon) returns (submenu: MenuRef)
      requires |menus| > 0
      modifies this
      ensures submenu == |old(menus)|
      ensures menus == WithSubmenu(old(menus), name, icon, [])
      ensures actionItems == old(actionItems)
    {
      submenu := NewMenu();
      var item := CreateItem(Some(name), None, GivenIcon(icon), Some(submenu), None);
      DeviceItemCreated(name, icon);
      AppendItem(0, item);
    }

    /** The body of the loop over the connected drives. */
    method AddDrive(d: Drive)
      requires |menus| > 0
      modifies this
      ensures menus == DriveMenus(old(menus), d)
      ensures actionItems == DriveTable(old(actionItems), d)
    {
      actionItems := actionItems[d.id := DriveDevice(d)];
      var submenu := AddSubmenu(d.name, d.icon);
      if d.canEject {
        AppendActionItem(submenu, EJECT_LABEL, EJECT_VERB, EJECT_ICONS, d.id);
        assert menus[submenu] == [] + [EjectItem(d.id)];
      }
      SubmenuArena(old(menus), d.name, d.icon, EjectItems(d.canEject, d.id), menus);
      AddVolumes(submenu, d.volumes);
    }

    /** The loop over the volumes of a drive, each added to menu `k`. */
    method AddVolumes(k: MenuRef, vs: seq<Volume>)
      requires k < |menus|
      modifies this
      ensures menus == VolumesMenus(old(menus), k, vs, |vs|)
      ensures actionItems == VolumesTable(old(actionItems), vs, |vs|)
    {
      var i := 0;
      while i < |vs|
        invariant 0 <= i <= |vs|
        invariant menus == VolumesMenus(old(menus), k, vs, i)
        invariant actionItems == VolumesTable(old(actionItems), vs, i)
      {
        AddVolumeItems(k, vs[i], false);
        i := i + 1;
      }
    }

    /** The body of the loop over the volumes, for a volume not filed yet. */
    method AddTopVolume(v: Volume)
      requires |menus| > 0
      modifies this
      ensures menus == TopVolumeMenus(old(menus), v)
      ensures actionItems == VolumeTable(old(actionItems), v)
    {
      var submenu := AddSubmenu(v.name, v.icon);
      AddVolumeItems(submenu, v, true);
    }

    /** The body of the loop over the mounts, for a mount not filed yet. */
    method AddTopMount(m: Mount)
      requires |menus| > 0
      modifies this
      ensures menus == TopMountMenus(old(menus), m)
      ensures actionItems == MountTable(old(actionItems), m)
    {
      var submenu := AddSubmenu(m.name, m.icon);
      AddMountItems(submenu, m, true);
    }

    /**
     * `__rebuild_menu`: empties the menu and the table, then lists the drives,
     * the volumes not filed yet and the mounts not filed yet.
     */
    method Rebuild(monitor: VolumeMonitor)
      modifies this
      ensures menus == RebuiltMenus(monitor) && actionItems == RebuiltTable(monitor)
      ensures Valid() && Menu() == Layout(monitor)
      ensures actionItems.Keys == Registered(monitor)
    {
      menus := [[]];
      actionItems := map[];
      AddDrives(monitor.drives);
      DrivesTableKeys(monitor.drives, |monitor.drives|);
      ghost var drivesTable := actionItems;
      AddTopVolumes(monitor.volumes, AfterDrives(monitor));
      TopVolumesTableKeys(drivesTable, monitor.volumes, |monitor.volumes|);
      AddTopMounts(monitor.mounts, AfterVolumes(monitor));
      RebuiltMenusModel(monitor);
      RebuiltTargets(monitor);
      RebuiltTableKeys(monitor);
    }

    /** The loop over the connected drives, after `remove_all` and `clear`. */
    method AddDrives(drives: seq<Drive>)
      requires menus == [[]] && actionItems == map[]
      modifies this
      ensures menus == DrivesMenus(drives, |drives|)
      ensures actionItems == DrivesTable(drives, |drives|)
    {
      var i := 0;
      while i < |drives|
        invariant 0 <= i <= |drives|
        invariant menus == DrivesMenus(drives, i)
        invariant actionItems == DrivesTable(drives, i)
      {
        AddDrive(drives[i]);
        i := i + 1;
      }
    }

    /** The loop over the volumes: those already filed are skipped. */
    method AddTopVolumes(volumes: seq<Volume>, ghost seen: set<ObjectId>)
      requires |menus| > 0 && actionItems.Keys == seen
      modifies this
      ensures menus == TopVolumesMenus(old(menus), volumes, |volumes|, seen)
      ensures actionItems == TopVolumesTable(old(actionItems), volumes, |volumes|)
    {
      var i := 0;
      while i < |volumes|
        invariant 0 <= i <= |volumes|
        invariant menus == TopVolumesMenus(old(menus), volumes, i, seen)
        invariant actionItems == TopVolumesTable(old(actionItems), volumes, i)
      {
        TopVolumesTableKeys(old(actionItems), volumes, i);
        if volumes[i].id !in actionItems {
          AddTopVolume(volumes[i]);
        }
        i := i + 1;
      }
    }

    /** The loop over the mounts: those already filed are skipped. */
    method AddTopMounts(mounts: seq<Mount>, ghost seen: set<ObjectId>)
      requires |menus| > 0 && actionItems.Keys == seen
      modifies this
      ensures menus == TopMountsMenus(old(menus), mounts, |mounts|, seen)
      ensures actionItems == TopMountsTable(old(actionItems), mounts, |mounts|)
    {
      var i := 0;
      while i < |mounts|
        invariant 0 <= i <= |mounts|
        invariant menus == TopMountsMenus(old(menus), mounts, i, seen)
        invariant actionItems == TopMountsTable(old(actionItems), mounts, i)
      {
        TopMountsTableKeys(old(actionItems), mounts, i);
        if mounts[i].id !in actionItems {
          AddTopMount(mounts[i]);
        }
        i := i + 1;
      }
    }

    /**
     * The `mount`, `unmount`, `open` and `eject` handlers: `int(target)` then
     * `__action_items[...]`, and the call they start on what they found.
     */
    method Activate(op: Operation, target: string) returns (r: Result<Request, LookupError>)
      ensures r.Err? <==> Resolve(actionItems, target).Err?
      ensures r.Err? ==> r.error == Resolve(actionItems, target).error
      ensures r.Ok? ==> r.value == Request(op, actionItems[ParseDecimal(target).value])
    {
      var id := ParseDecimal(target);
      if id.None? {
        r := Err(ValueError);
      } else if id.value !in actionItems {
        r := Err(KeyError);
      } else {
        r := Ok(Request(op, actionItems[id.value]));
      }
    }
  }
}
