/**
  * Saving a configuration: what each group holds, after the whole and at every
  * point on the way, and the loops that write it.
  */
module ConfigSave {
  import opened Options
  import opened Text
  import opened ConfigTypes
  import opened KeyFiles

  /** The orders in which the hash tables of a configuration are iterated. */
  datatype Orders = Orders(envs: seq<string>, includes: seq<seq<string>>)

  ghost predicate IsOrder(order: seq<string>, keys: set<string>) {
    && (forall k :: k in order <==> k in keys)
    && (forall i, j | 0 <= i < j < |order| :: order[i] != order[j])
  }

  ghost predicate OrdersOk(c: Config, o: Orders) {
    && IsOrder(o.envs, c.envs.Keys)
    && |o.includes| == |c.mounts|
    && (forall i | 0 <= i < |c.mounts| :: IsOrder(o.includes[i], c.mounts[i].includes.Keys))
  }

  // The groups.

  function With(g: Group, key: string, value: Option<string>): Group {
    if value.Some? then g[key := value.value] else g
  }

  function InetText(a: Option<Inet>): Option<string> {
    if a.Some? then Some(a.value.text) else None
  }

  /** g_type_name of an interactive configuration, and the VERSION of the package. */
  const CLASS := "GVirSandboxConfigInteractive"
  const VERSION := "0.8.0"

  function ApiGroup(): Group {
    map["class" := CLASS]["version" := VERSION]
  }

  /** The first part of "core", and all of it. */
  function CoreStart(c: Config): Group {
    With(With(With(With(map["name" := c.name], "uuid", c.uuid)["root" := c.root]["arch" := c.arch],
                   "kernrelease", c.kernrelease), "kernpath", c.kernpath), "kmodpath", c.kmodpath)
      ["shell" := BoolText(c.shell)]
  }

  function CoreGroup(c: Config): Group {
    CoreStart(c)["debug" := BoolText(c.debug)]["verbose" := BoolText(c.verbose)]
  }

  function IdentityGroup(c: Config): Group {
    map["uid" := Decimal(c.uid)]["gid" := Decimal(c.gid)]["username" := c.username]["homedir" := c.homedir]
  }

  function SecurityGroup(c: Config): Group {
    With(map["dynamic" := BoolText(c.secDynamic)], "label", c.secLabel)
  }

  function InteractiveGroup(c: Config): Group {
    map["tty" := BoolText(c.tty)]
  }

  function AddressGroup(a: Address): Group {
    With(With(map["prefix" := Decimal(a.prefix)], "primary", InetText(a.primary)), "broadcast", InetText(a.broadcast))
  }

  function RouteGroup(r: Route): Group {
    With(With(map["prefix" := Decimal(r.prefix)], "gateway", InetText(r.gateway)), "target", InetText(r.target))
  }

  function NetworkGroup(n: Network): Group {
    With(With(map["dhcp" := BoolText(n.dhcp)], "source", n.source), "mac", n.mac)
      ["addresses" := Decimal(|n.addresses| % 0x1_0000_0000)]["routes" := Decimal(|n.routes| % 0x1_0000_0000)]
  }

  function TypeName(k: MountKind): string {
    match k
    case HostBind(_) => "GVirSandboxConfigMountHostBind"
    case HostImage(_, _) => "GVirSandboxConfigMountHostImage"
    case GuestBind(_) => "GVirSandboxConfigMountGuestBind"
    case Ram(_) => "GVirSandboxConfigMountRam"
  }

  function MountGroup(m: Mount): Group {
    var g := map["type" := TypeName(m.kind)]["target" := m.target];
    match m.kind
    case HostBind(source) => g["source" := source]
    case HostImage(image, format) => g["format" := format]["source" := image]
    case GuestBind(path) => g["source" := path]
    case Ram(usage) => g["usage" := Decimal(usage)]
  }

  function IncludeGroup(dst: string, src: Option<string>): Group {
    With(map["dst" := dst], "src", src)
  }

  function EnvGroup(key: string, value: string): Group {
    map["key" := key]["value" := value]
  }

  function DiskGroup(d: Disk): Group {
    map["type" := d.diskType]["source" := d.source]["tag" := d.tag]["format" := d.format]
  }

  function ArgvKey(k: nat): string {
    "argv." + Decimal(k)
  }

  function ArgvGroup(argv: seq<string>): Group {
    if argv == [] then map[]
    else ArgvGroup(argv[..|argv| - 1])[ArgvKey(|argv| - 1) := argv[|argv| - 1]]
  }

  // How far the saving is.

  datatype Progress = Progress(
    api: bool,
    coreStarted: bool, coreDone: bool,
    identity: bool, security: bool, interactive: bool,
    argc: nat,
    mounts: nat, mountOpen: bool, includes: nat,   // complete mounts, and the one that is being saved
    envs: nat, disks: nat,
    networks: nat, addresses: nat, routes: nat)

  const Nothing := Progress(false, false, false, false, false, false, 0, 0, false, 0, 0, 0, 0, 0, 0)

  /** Only that it is a configuration, and of which class. */
  const Labelled := Nothing.(api := true)

  function Everything(c: Config, o: Orders): Progress {
    Progress(true, true, true, true, true, true, |c.command|, |c.mounts|, false, 0, |o.envs|, |c.disks|,
             |c.networks|, 0, 0)
  }

  ghost predicate InBounds(c: Config, o: Orders, p: Progress)
    requires OrdersOk(c, o)
  {
    && p.argc <= |c.command| && p.envs <= |o.envs| && p.disks <= |c.disks|
    && p.mounts <= |c.mounts| && p.networks <= |c.networks|
    && (p.mountOpen || p.includes > 0 ==> p.mounts < |c.mounts| && p.includes <= |o.includes[p.mounts]|)
    && (p.addresses > 0 ==> p.networks < |c.networks| && p.addresses <= |c.networks[p.networks].addresses|)
    && (p.routes > 0 ==> p.networks < |c.networks| && p.routes <= |c.networks[p.networks].routes|)
  }

  /** How many records of a sub-list of the i-th item are saved. */
  function Saved(i: nat, items: nat, total: nat, current: nat): nat {
    if i < items then total else if i == items then current else 0
  }

  /** What the group of a record holds by then. */
  ghost function Content(c: Config, o: Orders, p: Progress, r: Record): Option<Group>
    requires OrdersOk(c, o) && InBounds(c, o, p)
  {
    match r
    case Api => if p.api then Some(ApiGroup()) else None
    case Core => if p.coreDone then Some(CoreGroup(c)) else if p.coreStarted then Some(CoreStart(c)) else None
    case Identity => if p.identity then Some(IdentityGroup(c)) else None
    case Security => if p.security then Some(SecurityGroup(c)) else None
    case Interactive => if p.interactive then Some(InteractiveGroup(c)) else None
    case Command => if p.argc > 0 then Some(ArgvGroup(c.command[..p.argc])) else None
    case NetworkRecord(i) => if i < p.networks then Some(NetworkGroup(c.networks[i])) else None
    case AddressRecord(i, j) =>
      if i < |c.networks| && j < Saved(i, p.networks, |c.networks[i].addresses|, p.addresses)
      then Some(AddressGroup(c.networks[i].addresses[j])) else None
    case RouteRecord(i, j) =>
      if i < |c.networks| && j < Saved(i, p.networks, |c.networks[i].routes|, p.routes)
      then Some(RouteGroup(c.networks[i].routes[j])) else None
    case MountRecord(i) =>
      if i < p.mounts || (i == p.mounts && p.mountOpen) then Some(MountGroup(c.mounts[i])) else None
    case IncludeRecord(i, j) =>
      if i < |c.mounts| && j < Saved(i, p.mounts, |o.includes[i]|, p.includes)
      then
        var dst := o.includes[i][j];
        assert dst in o.includes[i];
        Some(IncludeGroup(dst, c.mounts[i].includes[dst]))
      else None
    case EnvRecord(i) =>
      if i < p.envs then
        var key := o.envs[i];
        assert key in o.envs;
        Some(EnvGroup(key, c.envs[key]))
      else None
    case DiskRecord(i) => if i < p.disks then Some(DiskGroup(c.disks[i])) else None
  }

  /** Every group is that of a record. */
  ghost predicate Named(f: Groups) {
    forall name | name in f :: exists r: Record :: name == GroupName(r)
  }

  /** The file holds exactly what is saved by then, of every record. */
  ghost predicate Holds(f: Groups, c: Config, o: Orders, p: Progress)
    requires OrdersOk(c, o) && InBounds(c, o, p)
  {
    Named(f) && (forall r: Record :: HoldsRecord(f, Content(c, o, p, r), r))
  }

  /** So its groups are those of the records saved by then. */
  lemma GroupsAre(f: Groups, c: Config, o: Orders, p: Progress, name: string)
    requires OrdersOk(c, o) && InBounds(c, o, p) && Holds(f, c, o, p)
    ensures name in f <==> exists r: Record :: name == GroupName(r) && Content(c, o, p, r).Some?
  {
    hide Content, GroupName, InBounds, OrdersOk;
    if name in f {
      var r: Record :| name == GroupName(r);
      assert HoldsRecord(f, Content(c, o, p, r), r);
    }
    if r: Record :| name == GroupName(r) && Content(c, o, p, r).Some? {
      assert HoldsRecord(f, Content(c, o, p, r), r);
    }
  }

  ghost predicate HoldsRecord(f: Groups, g: Option<Group>, r: Record) {
    if g.Some? then GroupName(r) in f && f[GroupName(r)] == g.value else GroupName(r) !in f
  }

  /** One record was written, or written again. */
  lemma Step(f: Groups, c: Config, o: Orders, p: Progress, q: Progress, r: Record, g: Group)
    requires OrdersOk(c, o) && InBounds(c, o, p) && InBounds(c, o, q)
    requires Holds(f, c, o, p) && Content(c, o, q, r) == Some(g)
    requires forall s: Record | s != r :: Content(c, o, q, s) == Content(c, o, p, s)
    ensures Holds(f[GroupName(r) := g], c, o, q)
  {
    hide Content, GroupName, InBounds, OrdersOk;
    var n := f[GroupName(r) := g];
    assert Named(n);
    forall s: Record ensures HoldsRecord(n, Content(c, o, q, s), s) {
      GroupNamesDiffer(r, s);
      assert HoldsRecord(f, Content(c, o, p, s), s);
    }
  }

  /** Nothing was written. */
  lemma Stay(f: Groups, c: Config, o: Orders, p: Progress, q: Progress)
    requires OrdersOk(c, o) && InBounds(c, o, p) && InBounds(c, o, q) && Holds(f, c, o, p)
    requires forall s: Record :: Content(c, o, q, s) == Content(c, o, p, s)
    ensures Holds(f, c, o, q)
  {
    hide Content, GroupName, InBounds, OrdersOk;
    forall s: Record ensures HoldsRecord(f, Content(c, o, q, s), s) {
      assert HoldsRecord(f, Content(c, o, p, s), s);
    }
  }

  // The loops that write it.  Each of them is given a file without the group.

  method SaveAddress(file: KeyFile, i: nat, j: nat, a: Address)
    requires GroupName(AddressRecord(i, j)) !in file.groups
    modifies file
    ensures file.groups == old(file.groups)[GroupName(AddressRecord(i, j)) := AddressGroup(a)]
  {
    hide Decimal, GroupName;
    var key := GroupName(AddressRecord(i, j));
    ghost var f := file.groups;
    ghost var g: Group := map["prefix" := Decimal(a.prefix)];
    if a.primary.Some? {
      file.SetString(key, "primary", a.primary.value.text);
    }
    if a.broadcast.Some? {
      file.SetString(key, "broadcast", a.broadcast.value.text);
    }
    file.SetUint64(key, "prefix", a.prefix);
    assert file.groups[key] == AddressGroup(a);
  }

  /** A key of a group that holds m. */
  method SetMore(file: KeyFile, group: string, key: string, value: string, ghost f: Groups, ghost m: Group)
    requires file.groups == f[group := m]
    modifies file
    ensures file.groups == f[group := m[key := value]]
  {
    file.SetString(group, key, value);
  }

  method SetOption(file: KeyFile, group: string, key: string, value: Option<string>, ghost f: Groups, ghost m: Group)
    requires file.groups == f[group := m]
    modifies file
    ensures file.groups == f[group := With(m, key, value)]
  {
    if value.Some? {
      file.SetString(group, key, value.value);
    }
  }

  /** The first key of a new group. */
  method SetFirst(file: KeyFile, group: string, key: string, value: string)
    requires group !in file.groups
    modifies file
    ensures file.groups == old(file.groups)[group := map[key := value]]
  {
    file.SetString(group, key, value);
  }

  method SaveRoute(file: KeyFile, i: nat, j: nat, r: Route)
    requires GroupName(RouteRecord(i, j)) !in file.groups
    modifies file
    ensures file.groups == old(file.groups)[GroupName(RouteRecord(i, j)) := RouteGroup(r)]
  {
    hide Decimal, GroupName;
    var group := GroupName(RouteRecord(i, j));
    ghost var f, m := file.groups, map["prefix" := Decimal(r.prefix)];
    SetFirst(file, group, "prefix", Decimal(r.prefix));
    SetOption(file, group, "gateway", InetText(r.gateway), f, m);
    SetOption(file, group, "target", InetText(r.target), f, With(m, "gateway", InetText(r.gateway)));
  }

  method SaveNetworkGroup(file: KeyFile, i: nat, n: Network, addresses: uint32, routes: uint32)
    requires GroupName(NetworkRecord(i)) !in file.groups
    requires addresses == |n.addresses| % 0x1_0000_0000 && routes == |n.routes| % 0x1_0000_0000
    modifies file
    ensures file.groups == old(file.groups)[GroupName(NetworkRecord(i)) := NetworkGroup(n)]
  {
    hide Decimal, GroupName;
    var group := GroupName(NetworkRecord(i));
    ghost var f, m := file.groups, map["dhcp" := BoolText(n.dhcp)];
    SetFirst(file, group, "dhcp", BoolText(n.dhcp));
    SetOption(file, group, "source", n.source, f, m);
    m := With(m, "source", n.source);
    SetOption(file, group, "mac", n.mac, f, m);
    m := With(m, "mac", n.mac);
    SetMore(file, group, "addresses", Decimal(addresses), f, m);
    m := m["addresses" := Decimal(addresses)];
    SetMore(file, group, "routes", Decimal(routes), f, m);
  }

  method SaveMountGroup(file: KeyFile, i: nat, mount: Mount)
    requires GroupName(MountRecord(i)) !in file.groups
    modifies file
    ensures file.groups == old(file.groups)[GroupName(MountRecord(i)) := MountGroup(mount)]
  {
    hide Decimal, GroupName;
    var group := GroupName(MountRecord(i));
    ghost var f, m := file.groups, map["type" := TypeName(mount.kind)];
    SetFirst(file, group, "type", TypeName(mount.kind));
    SetMore(file, group, "target", mount.target, f, m);
    m := m["target" := mount.target];
    match mount.kind {
      case Ram(usage) =>
        SetMore(file, group, "usage", Decimal(usage), f, m);
      case HostImage(image, format) =>
        SetMore(file, group, "format", format, f, m);
        SetMore(file, group, "source", image, f, m["format" := format]);
      case HostBind(source) =>
        SetMore(file, group, "source", source, f, m);
      case GuestBind(path) =>
        SetMore(file, group, "source", path, f, m);
    }
  }

  method SaveInclude(file: KeyFile, i: nat, j: nat, dst: string, src: Option<string>)
    requires GroupName(IncludeRecord(i, j)) !in file.groups
    modifies file
    ensures file.groups == old(file.groups)[GroupName(IncludeRecord(i, j)) := IncludeGroup(dst, src)]
  {
    hide GroupName;
    var group := GroupName(IncludeRecord(i, j));
    ghost var f := file.groups;
    SetFirst(file, group, "dst", dst);
    SetOption(file, group, "src", src, f, map["dst" := dst]);
  }

  /** gvir_sandbox_config_save_config_env */
  method SaveEnv(file: KeyFile, i: nat, key: string, value: string)
    requires GroupName(EnvRecord(i)) !in file.groups
    modifies file
    ensures file.groups == old(file.groups)[GroupName(EnvRecord(i)) := EnvGroup(key, value)]
  {
    hide GroupName;
    var group := GroupName(EnvRecord(i));
    ghost var f := file.groups;
    SetFirst(file, group, "key", key);
    SetMore(file, group, "value", value, f, map["key" := key]);
  }

  /** gvir_sandbox_config_save_config_disk */
  method SaveDisk(file: KeyFile, i: nat, d: Disk)
    requires GroupName(DiskRecord(i)) !in file.groups
    modifies file
    ensures file.groups == old(file.groups)[GroupName(DiskRecord(i)) := DiskGroup(d)]
  {
    hide GroupName;
    var group := GroupName(DiskRecord(i));
    ghost var f, m := file.groups, map["type" := d.diskType];
    SetFirst(file, group, "type", d.diskType);
    SetMore(file, group, "source", d.source, f, m);
    m := m["source" := d.source];
    SetMore(file, group, "tag", d.tag, f, m);
    m := m["tag" := d.tag];
    SetMore(file, group, "format", d.format, f, m);
  }

  /** The start of gvir_sandbox_config_save_config. */
  method SaveCoreStart(file: KeyFile, c: Config)
    requires "core" !in file.groups
    modifies file
    ensures file.groups == old(file.groups)["core" := CoreStart(c)]
  {
    ghost var f, m: Group := file.groups, map["name" := c.name];
    SetFirst(file, "core", "name", c.name);
    SetOption(file, "core", "uuid", c.uuid, f, m);
    m := With(m, "uuid", c.uuid);
    SetMore(file, "core", "root", c.root, f, m);
    m := m["root" := c.root];
    SetMore(file, "core", "arch", c.arch, f, m);
    m := m["arch" := c.arch];
    SetOption(file, "core", "kernrelease", c.kernrelease, f, m);
    m := With(m, "kernrelease", c.kernrelease);
    SetOption(file, "core", "kernpath", c.kernpath, f, m);
    m := With(m, "kernpath", c.kernpath);
    SetOption(file, "core", "kmodpath", c.kmodpath, f, m);
    m := With(m, "kmodpath", c.kmodpath);
    SetMore(file, "core", "shell", BoolText(c.shell), f, m);
  }

  method SaveIdentity(file: KeyFile, c: Config)
    requires "identity" !in file.groups
    modifies file
    ensures file.groups == old(file.groups)["identity" := IdentityGroup(c)]
  {
    hide Decimal;
    ghost var f, m: Group := file.groups, map["uid" := Decimal(c.uid)];
    SetFirst(file, "identity", "uid", Decimal(c.uid));
    SetMore(file, "identity", "gid", Decimal(c.gid), f, m);
    m := m["gid" := Decimal(c.gid)];
    SetMore(file, "identity", "username", c.username, f, m);
    m := m["username" := c.username];
    SetMore(file, "identity", "homedir", c.homedir, f, m);
  }

  method SaveSecurity(file: KeyFile, c: Config)
    requires "security" !in file.groups
    modifies file
    ensures file.groups == old(file.groups)["security" := SecurityGroup(c)]
  {
    if c.secLabel.Some? {
      file.SetString("security", "label", c.secLabel.value);
    }
    file.SetBoolean("security", "dynamic", c.secDynamic);
    assert file.groups["security"] == SecurityGroup(c);
  }

  method SaveCoreEnd(file: KeyFile, c: Config)
    requires "core" in file.groups && file.groups["core"] == CoreStart(c)
    modifies file
    ensures file.groups == old(file.groups)["core" := CoreGroup(c)]
  {
    hide CoreStart;
    ghost var f, m := file.groups, CoreStart(c);
    assert f == f["core" := m];
    SetMore(file, "core", "debug", BoolText(c.debug), f, m);
    SetMore(file, "core", "verbose", BoolText(c.verbose), f, m["debug" := BoolText(c.debug)]);
  }

  lemma Absent(f: Groups, c: Config, o: Orders, p: Progress, r: Record)
    requires OrdersOk(c, o) && InBounds(c, o, p) && Holds(f, c, o, p) && Content(c, o, p, r).None?
    ensures GroupName(r) !in f
  {
    hide Content, GroupName, InBounds, OrdersOk;
    assert HoldsRecord(f, Content(c, o, p, r), r);
  }

  /** What writing a new record does. */
  ghost predicate Writes(f: Groups, c: Config, o: Orders, p: Progress, q: Progress, r: Record, g: Group) {
    && OrdersOk(c, o) && InBounds(c, o, p) && InBounds(c, o, q)
    && Content(c, o, p, r).None? && Content(c, o, q, r) == Some(g)
    && (forall s: Record | s != r :: Content(c, o, q, s) == Content(c, o, p, s))
  }

  lemma WriteStep(f: Groups, c: Config, o: Orders, p: Progress, q: Progress, r: Record, g: Group)
    requires Writes(f, c, o, p, q, r, g) && Holds(f, c, o, p)
    ensures GroupName(r) !in f && Holds(f[GroupName(r) := g], c, o, q)
  {
    hide Content, GroupName, InBounds, OrdersOk, Holds;
    Absent(f, c, o, p, r);
    Step(f, c, o, p, q, r, g);
  }

  lemma MountOpens(f: Groups, c: Config, o: Orders, p: Progress)
    requires OrdersOk(c, o) && InBounds(c, o, p) && p.mounts < |c.mounts| && !p.mountOpen && p.includes == 0
    ensures Writes(f, c, o, p, p.(mountOpen := true), MountRecord(p.mounts), MountGroup(c.mounts[p.mounts]))
  {
    hide MountGroup, IncludeGroup;
  }

  lemma IncludeWrites(f: Groups, c: Config, o: Orders, p: Progress)
    requires OrdersOk(c, o) && InBounds(c, o, p) && p.mountOpen && p.includes < |o.includes[p.mounts]|
    ensures var dst := o.includes[p.mounts][p.includes];
            && dst in c.mounts[p.mounts].includes
            && Writes(f, c, o, p, p.(includes := p.includes + 1), IncludeRecord(p.mounts, p.includes),
                      IncludeGroup(dst, c.mounts[p.mounts].includes[dst]))
  {
    hide MountGroup, IncludeGroup;
    assert o.includes[p.mounts][p.includes] in o.includes[p.mounts];
  }

  lemma MountCloses(f: Groups, c: Config, o: Orders, p: Progress)
    requires OrdersOk(c, o) && InBounds(c, o, p) && Holds(f, c, o, p)
    requires p.mountOpen && p.includes == |o.includes[p.mounts]|
    ensures Holds(f, c, o, p.(mounts := p.mounts + 1, mountOpen := false, includes := 0))
  {
    hide MountGroup, IncludeGroup, Holds;
    Stay(f, c, o, p, p.(mounts := p.mounts + 1, mountOpen := false, includes := 0));
  }

  lemma AddressWrites(f: Groups, c: Config, o: Orders, p: Progress)
    requires OrdersOk(c, o) && InBounds(c, o, p)
    requires p.networks < |c.networks| && p.addresses < |c.networks[p.networks].addresses|
    ensures Writes(f, c, o, p, p.(addresses := p.addresses + 1), AddressRecord(p.networks, p.addresses),
                   AddressGroup(c.networks[p.networks].addresses[p.addresses]))
  {
    hide AddressGroup;
  }

  lemma RouteWrites(f: Groups, c: Config, o: Orders, p: Progress)
    requires OrdersOk(c, o) && InBounds(c, o, p)
    requires p.networks < |c.networks| && p.routes < |c.networks[p.networks].routes|
    ensures Writes(f, c, o, p, p.(routes := p.routes + 1), RouteRecord(p.networks, p.routes),
                   RouteGroup(c.networks[p.networks].routes[p.routes]))
  {
    hide RouteGroup;
  }

  lemma NetworkCloses(f: Groups, c: Config, o: Orders, p: Progress)
    requires OrdersOk(c, o) && InBounds(c, o, p) && p.networks < |c.networks|
    requires p.addresses == |c.networks[p.networks].addresses| && p.routes == |c.networks[p.networks].routes|
    ensures Writes(f, c, o, p, p.(networks := p.networks + 1, addresses := 0, routes := 0), NetworkRecord(p.networks),
                   NetworkGroup(c.networks[p.networks]))
  {
    hide AddressGroup, RouteGroup, NetworkGroup;
  }

  method SaveIncludes(file: KeyFile, c: Config, o: Orders, i: nat, ghost p: Progress)
    requires OrdersOk(c, o) && InBounds(c, o, p) && Holds(file.groups, c, o, p)
    requires i == p.mounts < |c.mounts| && p.mountOpen && p.includes == 0
    modifies file
    ensures Holds(file.groups, c, o, p.(includes := |o.includes[i]|))
  {
    hide Holds, GroupName, IncludeGroup, Writes, IsOrder;
    var j := 0;
    while j < |o.includes[i]|
      invariant j <= |o.includes[i]|
      invariant Holds(file.groups, c, o, p.(includes := j))
    {
      ghost var q := p.(includes := j);
      IncludeWrites(file.groups, c, o, q);
      var dst := o.includes[i][j];
      var src := c.mounts[i].includes[dst];
      WriteStep(file.groups, c, o, q, q.(includes := j + 1), IncludeRecord(i, j), IncludeGroup(dst, src));
      SaveInclude(file, i, j, dst, src);
      j := j + 1;
    }
  }

  /** gvir_sandbox_config_save_config_mount */
  method SaveMount(file: KeyFile, c: Config, o: Orders, i: nat, ghost p: Progress)
    requires OrdersOk(c, o) && InBounds(c, o, p) && Holds(file.groups, c, o, p)
    requires i == p.mounts < |c.mounts| && !p.mountOpen && p.includes == 0
    modifies file
    ensures Holds(file.groups, c, o, p.(mounts := i + 1))
  {
    hide Holds, GroupName, MountGroup, Writes, IsOrder;
    MountOpens(file.groups, c, o, p);
    WriteStep(file.groups, c, o, p, p.(mountOpen := true), MountRecord(i), MountGroup(c.mounts[i]));
    SaveMountGroup(file, i, c.mounts[i]);
    SaveIncludes(file, c, o, i, p.(mountOpen := true));
    MountCloses(file.groups, c, o, p.(mountOpen := true, includes := |o.includes[i]|));
  }

  method SaveAddresses(file: KeyFile, c: Config, o: Orders, i: nat, ghost p: Progress) returns (j: nat)
    requires OrdersOk(c, o) && InBounds(c, o, p) && Holds(file.groups, c, o, p)
    requires i == p.networks < |c.networks| && p.addresses == 0
    modifies file
    ensures j == |c.networks[i].addresses| && Holds(file.groups, c, o, p.(addresses := j))
  {
    hide Holds, GroupName, AddressGroup, Writes;
    var addresses := c.networks[i].addresses;
    j := 0;
    while j < |addresses|
      invariant j <= |addresses|
      invariant Holds(file.groups, c, o, p.(addresses := j))
    {
      ghost var q := p.(addresses := j);
      AddressWrites(file.groups, c, o, q);
      WriteStep(file.groups, c, o, q, q.(addresses := j + 1), AddressRecord(i, j), AddressGroup(addresses[j]));
      SaveAddress(file, i, j, addresses[j]);
      j := j + 1;
    }
  }

  method SaveRoutes(file: KeyFile, c: Config, o: Orders, i: nat, ghost p: Progress) returns (k: nat)
    requires OrdersOk(c, o) && InBounds(c, o, p) && Holds(file.groups, c, o, p)
    requires i == p.networks < |c.networks| && p.routes == 0
    modifies file
    ensures k == |c.networks[i].routes| && Holds(file.groups, c, o, p.(routes := k))
  {
    hide Holds, GroupName, RouteGroup, Writes;
    var routes := c.networks[i].routes;
    k := 0;
    while k < |routes|
      invariant k <= |routes|
      invariant Holds(file.groups, c, o, p.(routes := k))
    {
      ghost var q := p.(routes := k);
      RouteWrites(file.groups, c, o, q);
      WriteStep(file.groups, c, o, q, q.(routes := k + 1), RouteRecord(i, k), RouteGroup(routes[k]));
      SaveRoute(file, i, k, routes[k]);
      k := k + 1;
    }
  }

  /** gvir_sandbox_config_save_config_network */
  method SaveNetwork(file: KeyFile, c: Config, o: Orders, i: nat, ghost p: Progress)
    requires OrdersOk(c, o) && InBounds(c, o, p) && Holds(file.groups, c, o, p)
    requires i == p.networks < |c.networks| && p.addresses == 0 && p.routes == 0
    modifies file
    ensures Holds(file.groups, c, o, p.(networks := i + 1))
  {
    hide Holds, GroupName, NetworkGroup, Writes;
    var j := SaveAddresses(file, c, o, i, p);
    var k := SaveRoutes(file, c, o, i, p.(addresses := j));
    ghost var q := p.(addresses := j, routes := k);
    NetworkCloses(file.groups, c, o, q);
    WriteStep(file.groups, c, o, q, p.(networks := i + 1), NetworkRecord(i), NetworkGroup(c.networks[i]));
    SaveNetworkGroup(file, i, c.networks[i], j % 0x1_0000_0000, k % 0x1_0000_0000);
  }

  // The whole.

  lemma CoreWrites(f: Groups, c: Config, o: Orders, p: Progress)
    requires OrdersOk(c, o) && InBounds(c, o, p) && !p.coreStarted && !p.coreDone
    ensures Writes(f, c, o, p, p.(coreStarted := true), Core, CoreStart(c))
  {
    hide CoreStart;
  }

  lemma CoreEnds(f: Groups, c: Config, o: Orders, p: Progress)
    requires OrdersOk(c, o) && InBounds(c, o, p) && p.coreStarted && !p.coreDone && Holds(f, c, o, p)
    ensures "core" in f && f["core"] == CoreStart(c)
    ensures Holds(f["core" := CoreGroup(c)], c, o, p.(coreDone := true))
  {
    hide CoreStart, CoreGroup;
    assert HoldsRecord(f, Content(c, o, p, Core), Core);
    hide Holds;
    Step(f, c, o, p, p.(coreDone := true), Core, CoreGroup(c));
  }

  lemma IdentityWrites(f: Groups, c: Config, o: Orders, p: Progress)
    requires OrdersOk(c, o) && InBounds(c, o, p) && !p.identity
    ensures Writes(f, c, o, p, p.(identity := true), Identity, IdentityGroup(c))
  {
    hide IdentityGroup;
  }

  lemma SecurityWrites(f: Groups, c: Config, o: Orders, p: Progress)
    requires OrdersOk(c, o) && InBounds(c, o, p) && !p.security
    ensures Writes(f, c, o, p, p.(security := true), Security, SecurityGroup(c))
  {
    hide SecurityGroup;
  }

  lemma InteractiveWrites(f: Groups, c: Config, o: Orders, p: Progress)
    requires OrdersOk(c, o) && InBounds(c, o, p) && !p.interactive
    ensures Writes(f, c, o, p, p.(interactive := true), Interactive, InteractiveGroup(c))
  {
    hide InteractiveGroup;
  }

  lemma EnvWrites(f: Groups, c: Config, o: Orders, p: Progress)
    requires OrdersOk(c, o) && InBounds(c, o, p) && p.envs < |o.envs|
    ensures var key := o.envs[p.envs];
            && key in c.envs
            && Writes(f, c, o, p, p.(envs := p.envs + 1), EnvRecord(p.envs), EnvGroup(key, c.envs[key]))
  {
    hide EnvGroup;
    assert o.envs[p.envs] in o.envs;
  }

  lemma DiskWrites(f: Groups, c: Config, o: Orders, p: Progress)
    requires OrdersOk(c, o) && InBounds(c, o, p) && p.disks < |c.disks|
    ensures Writes(f, c, o, p, p.(disks := p.disks + 1), DiskRecord(p.disks), DiskGroup(c.disks[p.disks]))
  {
    hide DiskGroup;
  }

  /** One more argument in the group "command". */
  lemma ArgvWrites(f: Groups, c: Config, o: Orders, p: Progress)
    requires OrdersOk(c, o) && InBounds(c, o, p) && p.argc < |c.command| && Holds(f, c, o, p)
    ensures Holds(Put(f, "command", ArgvKey(p.argc), c.command[p.argc]), c, o, p.(argc := p.argc + 1))
  {
    assert HoldsRecord(f, Content(c, o, p, Command), Command);
    OnlyArgv(c, o, p);
    hide Content, InBounds, OrdersOk, Holds, ArgvKey;
    var argv := c.command[..p.argc + 1];
    assert argv[..p.argc] == c.command[..p.argc];
    assert ArgvGroup(argv) == ArgvGroup(c.command[..p.argc])[ArgvKey(p.argc) := c.command[p.argc]];
    hide ArgvGroup;
    EmptyArgv();
    Step(f, c, o, p, p.(argc := p.argc + 1), Command, ArgvGroup(argv));
  }

  lemma OnlyArgv(c: Config, o: Orders, p: Progress)
    requires OrdersOk(c, o) && InBounds(c, o, p) && p.argc < |c.command|
    ensures var q := p.(argc := p.argc + 1);
            && InBounds(c, o, q)
            && (forall s: Record | s != Command :: Content(c, o, q, s) == Content(c, o, p, s))
            && Content(c, o, p, Command) == (if p.argc > 0 then Some(ArgvGroup(c.command[..p.argc])) else None)
            && Content(c, o, q, Command) == Some(ArgvGroup(c.command[..q.argc]))
  {
    hide ArgvGroup;
  }

  lemma EmptyArgv()
    ensures ArgvGroup([]) == map[]
  {
  }

  method SaveMounts(file: KeyFile, c: Config, o: Orders, ghost p: Progress)
    requires OrdersOk(c, o) && InBounds(c, o, p) && Holds(file.groups, c, o, p)
    requires p.mounts == 0 && !p.mountOpen && p.includes == 0
    modifies file
    ensures Holds(file.groups, c, o, p.(mounts := |c.mounts|))
  {
    hide Holds, IsOrder;
    var i := 0;
    while i < |c.mounts|
      invariant i <= |c.mounts|
      invariant Holds(file.groups, c, o, p.(mounts := i))
    {
      SaveMount(file, c, o, i, p.(mounts := i));
      i := i + 1;
    }
  }

  method SaveEnvs(file: KeyFile, c: Config, o: Orders, ghost p: Progress)
    requires OrdersOk(c, o) && InBounds(c, o, p) && Holds(file.groups, c, o, p) && p.envs == 0
    modifies file
    ensures Holds(file.groups, c, o, p.(envs := |o.envs|))
  {
    hide Holds, IsOrder, GroupName, EnvGroup, Writes;
    var i := 0;
    while i < |o.envs|
      invariant i <= |o.envs|
      invariant Holds(file.groups, c, o, p.(envs := i))
    {
      ghost var q := p.(envs := i);
      EnvWrites(file.groups, c, o, q);
      var key := o.envs[i];
      WriteStep(file.groups, c, o, q, q.(envs := i + 1), EnvRecord(i), EnvGroup(key, c.envs[key]));
      SaveEnv(file, i, key, c.envs[key]);
      i := i + 1;
    }
  }

  method SaveDisks(file: KeyFile, c: Config, o: Orders, ghost p: Progress)
    requires OrdersOk(c, o) && InBounds(c, o, p) && Holds(file.groups, c, o, p) && p.disks == 0
    modifies file
    ensures Holds(file.groups, c, o, p.(disks := |c.disks|))
  {
    hide Holds, IsOrder, GroupName, DiskGroup, Writes;
    var i := 0;
    while i < |c.disks|
      invariant i <= |c.disks|
      invariant Holds(file.groups, c, o, p.(disks := i))
    {
      ghost var q := p.(disks := i);
      DiskWrites(file.groups, c, o, q);
      WriteStep(file.groups, c, o, q, q.(disks := i + 1), DiskRecord(i), DiskGroup(c.disks[i]));
      SaveDisk(file, i, c.disks[i]);
      i := i + 1;
    }
  }

  method SaveNetworks(file: KeyFile, c: Config, o: Orders, ghost p: Progress)
    requires OrdersOk(c, o) && InBounds(c, o, p) && Holds(file.groups, c, o, p)
    requires p.networks == 0 && p.addresses == 0 && p.routes == 0
    modifies file
    ensures Holds(file.groups, c, o, p.(networks := |c.networks|))
  {
    hide Holds, IsOrder;
    var i := 0;
    while i < |c.networks|
      invariant i <= |c.networks|
      invariant Holds(file.groups, c, o, p.(networks := i))
    {
      SaveNetwork(file, c, o, i, p.(networks := i));
      i := i + 1;
    }
  }

  method SaveArgv(file: KeyFile, c: Config, o: Orders, ghost p: Progress)
    requires OrdersOk(c, o) && InBounds(c, o, p) && Holds(file.groups, c, o, p) && p.argc == 0
    modifies file
    ensures Holds(file.groups, c, o, p.(argc := |c.command|))
  {
    hide Holds, IsOrder, ArgvKey;
    var i := 0;
    while i < |c.command|
      invariant i <= |c.command|
      invariant Holds(file.groups, c, o, p.(argc := i))
    {
      ArgvWrites(file.groups, c, o, p.(argc := i));
      file.SetString("command", ArgvKey(i), c.command[i]);
      i := i + 1;
    }
  }

  lemma StartsEmpty(c: Config, o: Orders)
    requires OrdersOk(c, o)
    ensures InBounds(c, o, Nothing) && Holds(map[], c, o, Nothing)
  {
    forall r: Record ensures HoldsRecord(map[], Content(c, o, Nothing, r), r) {
    }
  }

  /** The file that a configuration is saved to. */
  ghost predicate SavedAs(f: Groups, c: Config, o: Orders)
    requires OrdersOk(c, o)
  {
    Holds(f, c, o, Everything(c, o))
  }

  lemma ApiWrites(f: Groups, c: Config, o: Orders)
    requires OrdersOk(c, o)
    ensures InBounds(c, o, Nothing) && Writes(f, c, o, Nothing, Labelled, Api, ApiGroup())
  {
    hide ApiGroup;
  }

  /**
    * gvir_sandbox_config_save_to_keyfile: afterwards the new file says that it
    * is an interactive configuration, and holds every record of it, each in its
    * own group; there are no other groups.
    */
  method SaveToKeyFile(c: Config, o: Orders) returns (file: KeyFile)
    requires OrdersOk(c, o)
    ensures fresh(file) && SavedAs(file.groups, c, o)
    ensures "api" in file.groups && file.groups["api"] == ApiGroup()
    ensures forall name :: name in file.groups <==>
              exists r: Record :: name == GroupName(r) && Content(c, o, Everything(c, o), r).Some?
  {
    hide Holds, IsOrder, Writes;
    file := new KeyFile();
    StartsEmpty(c, o);
    ApiWrites(file.groups, c, o);
    WriteStep(file.groups, c, o, Nothing, Labelled, Api, ApiGroup());
    SetFirst(file, "api", "class", CLASS);
    SetMore(file, "api", "version", VERSION, map[], map["class" := CLASS]);
    SaveConfig(file, c, o);
    ApiIs(file.groups, c, o);
    forall name ensures name in file.groups <==>
                exists r: Record :: name == GroupName(r) && Content(c, o, Everything(c, o), r).Some? {
      GroupsAre(file.groups, c, o, Everything(c, o), name);
    }
  }

  lemma ApiIs(f: Groups, c: Config, o: Orders)
    requires OrdersOk(c, o) && SavedAs(f, c, o)
    ensures "api" in f && f["api"] == ApiGroup()
  {
    assert HoldsRecord(f, Content(c, o, Everything(c, o), Api), Api);
  }

  /**
    * gvir_sandbox_config_interactive_save_config, into the file that its only
    * caller has labelled: every record is added in its own group, and nothing
    * else changes.
    */
  method SaveConfig(file: KeyFile, c: Config, o: Orders)
    requires OrdersOk(c, o) && Holds(file.groups, c, o, Labelled)
    modifies file
    ensures SavedAs(file.groups, c, o)
  {
    hide Holds, IsOrder, CoreStart, IdentityGroup;
    ghost var p := Labelled;
    CoreWrites(file.groups, c, o, p);
    WriteStep(file.groups, c, o, p, p.(coreStarted := true), Core, CoreStart(c));
    SaveCoreStart(file, c);
    p := p.(coreStarted := true);
    IdentityWrites(file.groups, c, o, p);
    WriteStep(file.groups, c, o, p, p.(identity := true), Identity, IdentityGroup(c));
    SaveIdentity(file, c);
    p := p.(identity := true);
    SaveLists(file, c, o, p);
    p := p.(mounts := |c.mounts|, envs := |o.envs|, disks := |c.disks|, networks := |c.networks|);
    SaveRest(file, c, o, p);
  }

  method SaveLists(file: KeyFile, c: Config, o: Orders, ghost p: Progress)
    requires OrdersOk(c, o) && InBounds(c, o, p) && Holds(file.groups, c, o, p)
    requires p.mounts == 0 && !p.mountOpen && p.includes == 0 && p.envs == 0 && p.disks == 0
    requires p.networks == 0 && p.addresses == 0 && p.routes == 0
    modifies file
    ensures Holds(file.groups, c, o,
                  p.(mounts := |c.mounts|, envs := |o.envs|, disks := |c.disks|, networks := |c.networks|))
  {
    hide Holds, IsOrder;
    SaveMounts(file, c, o, p);
    SaveEnvs(file, c, o, p.(mounts := |c.mounts|));
    SaveDisks(file, c, o, p.(mounts := |c.mounts|, envs := |o.envs|));
    SaveNetworks(file, c, o, p.(mounts := |c.mounts|, envs := |o.envs|, disks := |c.disks|));
  }

  method SaveRest(file: KeyFile, c: Config, o: Orders, ghost p: Progress)
    requires OrdersOk(c, o) && InBounds(c, o, p) && Holds(file.groups, c, o, p)
    requires p.coreStarted && !p.coreDone && !p.security && !p.interactive && p.argc == 0
    modifies file
    ensures Holds(file.groups, c, o,
                  p.(coreDone := true, security := true, interactive := true, argc := |c.command|))
  {
    hide Holds, IsOrder, CoreGroup, CoreStart, SecurityGroup, InteractiveGroup, Writes;
    SecurityWrites(file.groups, c, o, p);
    WriteStep(file.groups, c, o, p, p.(security := true), Security, SecurityGroup(c));
    SaveSecurity(file, c);
    ghost var q := p.(security := true);
    CoreEnds(file.groups, c, o, q);
    SaveCoreEnd(file, c);
    q := q.(coreDone := true);
    InteractiveWrites(file.groups, c, o, q);
    WriteStep(file.groups, c, o, q, q.(interactive := true), Interactive, InteractiveGroup(c));
    SaveInteractive(file, c);
    SaveArgv(file, c, o, q.(interactive := true));
  }

  method SaveInteractive(file: KeyFile, c: Config)
    requires "interactive" !in file.groups
    modifies file
    ensures file.groups == old(file.groups)["interactive" := InteractiveGroup(c)]
  {
    file.SetBoolean("interactive", "tty", c.tty);
  }
}
