/** Loading a configuration from a key file. */
module ConfigLoad {
  import opened Options
  import opened Text
  import opened ConfigTypes
  import opened KeyFiles
  import ConfigSave

  datatype LoadError =
    | MissingClass | UnknownClass | NotAConfig
    | MissingKey | UnknownType | UnknownFormat
    | Propagated(error: KeyError)

  type Loaded<T> = Result<T, LoadError>

  /** Indexed records up to the first one that is missing. */
  function Leading<T>(load: nat -> Loaded<Option<T>>, j: nat, limit: nat): Loaded<seq<T>>
    decreases limit - j
  {
    if j >= limit then Ok([])
    else
      var x := load(j);
      if x.Err? then Err(x.error)
      else if x.value.None? then Ok([])
      else
        var rest := Leading(load, j + 1, limit);
        if rest.Err? then rest else Ok([x.value.value] + rest.value)
  }

  /** Indexed records, whichever there are. */
  function Present<T>(load: nat -> Loaded<Option<T>>, j: nat, limit: nat): Loaded<seq<T>>
    decreases limit - j
  {
    if j >= limit then Ok([])
    else
      var x := load(j);
      if x.Err? then Err(x.error)
      else
        var rest := Present(load, j + 1, limit);
        if rest.Err? || x.value.None? then rest else Ok([x.value.value] + rest.value)
  }

  /** What was read so far, and then the rest. */
  function After<T>(done: seq<T>, rest: Loaded<seq<T>>): Loaded<seq<T>> {
    if rest.Err? then rest else Ok(done + rest.value)
  }

  lemma AfterMore<T>(done: seq<T>, x: T, rest: Loaded<seq<T>>)
    ensures After(done, if rest.Err? then rest else Ok([x] + rest.value)) == After(done + [x], rest)
  {
    if rest.Ok? {
      assert done + ([x] + rest.value) == done + [x] + rest.value;
    }
  }

  function ParseInet(env: Environment, text: Option<string>): Option<Inet> {
    if text.None? then None else env.parse(text.value)
  }

  /** g_key_file_get_uint64 without asking for an error, stored in a guint. */
  function Prefix(f: Groups, group: string): uint32 {
    var u := GetUint64(f, group, "prefix");
    if u.Ok? then u.value % 0x1_0000_0000 else 0
  }

  function LoadAddress(env: Environment, f: Groups, i: nat, j: nat): Loaded<Option<Address>> {
    var group := GroupName(AddressRecord(i, j));
    var primary := GetString(f, group, "primary");
    if primary.Err? then
      if primary.error == GroupNotFound then Ok(None) else Err(Propagated(primary.error))
    else
      Ok(Some(Address(env.parse(primary.value), Prefix(f, group), ParseInet(env, Lookup(f, group, "broadcast")))))
  }

  function LoadRoute(env: Environment, f: Groups, i: nat, j: nat): Loaded<Option<Route>> {
    var group := GroupName(RouteRecord(i, j));
    var target := GetString(f, group, "target");
    if target.Err? then
      if target.error == GroupNotFound then Ok(None) else Err(Propagated(target.error))
    else
      Ok(Some(Route(env.parse(target.value), Prefix(f, group), ParseInet(env, Lookup(f, group, "gateway")))))
  }

  const SUBLISTS_MAX := 100
  const NETWORKS_MAX := 100
  const LISTS_MAX := 1024

  function AddressLoader(env: Environment, f: Groups, i: nat): nat -> Loaded<Option<Address>> {
    (j: nat) => LoadAddress(env, f, i, j)
  }

  function LoadAddresses(env: Environment, f: Groups, i: nat): Loaded<seq<Address>> {
    Leading(AddressLoader(env, f, i), 0, SUBLISTS_MAX)
  }

  function RouteLoader(env: Environment, f: Groups, i: nat): nat -> Loaded<Option<Route>> {
    (j: nat) => LoadRoute(env, f, i, j)
  }

  function LoadRoutes(env: Environment, f: Groups, i: nat): Loaded<seq<Route>> {
    Leading(RouteLoader(env, f, i), 0, SUBLISTS_MAX)
  }

  function IncludeLoader(f: Groups, i: nat): nat -> Loaded<Option<(string, string)>> {
    (j: nat) => LoadInclude(f, i, j)
  }

  function LoadIncludes(f: Groups, i: nat): Loaded<seq<(string, string)>> {
    Leading(IncludeLoader(f, i), 0, LISTS_MAX)
  }

  /** gvir_sandbox_config_load_config_network */
  function LoadNetwork(env: Environment, f: Groups, i: nat): Loaded<Option<Network>> {
    var group := GroupName(NetworkRecord(i));
    var dhcp := GetBoolean(f, group, "dhcp");
    if dhcp.Err? && dhcp.error == GroupNotFound then Ok(None)
    else
      var addresses := LoadAddresses(env, f, i);
      if addresses.Err? then Err(addresses.error)
      else
        var routes := LoadRoutes(env, f, i);
        if routes.Err? then Err(routes.error)
        else
          Ok(Some(Network(if dhcp.Ok? then dhcp.value else true, Lookup(f, group, "source"), Lookup(f, group, "mac"),
                          addresses.value, routes.value, None)))
  }

  /** A number as strtol returns it, stored in a gint, passed as a guint64. */
  function ThroughGint(v: nat): uint64 {
    var long := if v < 0x8000_0000_0000_0000 then v else 0x7fff_ffff_ffff_ffff;
    var low := long % 0x1_0000_0000;
    if low < 0x8000_0000 then low else low - 0x1_0000_0000 + 0x1_0000_0000_0000_0000
  }

  function RamUsage(text: string): uint64 {
    ThroughGint(Value(LeadingDigits(text)))
  }

  function LoadKind(env: Environment, f: Groups, group: string, typeName: string): Loaded<MountKind> {
    if typeName == ConfigSave.TypeName(Ram(0)) then
      var usage := Lookup(f, group, "usage");
      if usage.None? then Err(MissingKey) else Ok(Ram(RamUsage(usage.value)))
    else if typeName !in {ConfigSave.TypeName(HostBind("")), ConfigSave.TypeName(HostImage("", "")),
                          ConfigSave.TypeName(GuestBind(""))} then Err(UnknownType)
    else
      var source := Lookup(f, group, "source");
      if source.None? then Err(MissingKey)
      else if typeName == ConfigSave.TypeName(HostImage("", "")) then
        var format := Lookup(f, group, "format");
        if format.None? then Err(MissingKey)
        else if format.value !in env.formats then Err(UnknownFormat)
        else Ok(HostImage(source.value, format.value))
      else if typeName == ConfigSave.TypeName(HostBind("")) then Ok(HostBind(source.value))
      else Ok(GuestBind(source.value))
  }

  function LoadInclude(f: Groups, i: nat, j: nat): Loaded<Option<(string, string)>> {
    var group := GroupName(IncludeRecord(i, j));
    var src := GetString(f, group, "src");
    if src.Err? then
      if src.error == GroupNotFound then Ok(None) else Err(Propagated(src.error))
    else
      var dst := Lookup(f, group, "dst");
      if dst.None? then Err(MissingKey) else Ok(Some((dst.value, src.value)))
  }

  /** gvir_sandbox_config_mount_add_include, for each pair in turn. */
  function AddIncludes(includes: map<string, Option<string>>, pairs: seq<(string, string)>): map<string, Option<string>>
    decreases |pairs|
  {
    if pairs == [] then includes
    else AddIncludes(includes[pairs[0].0 := Some(pairs[0].1)], pairs[1..])
  }

  /** gvir_sandbox_config_load_config_mount */
  function LoadMount(env: Environment, f: Groups, i: nat): Loaded<Option<Mount>> {
    var group := GroupName(MountRecord(i));
    var target := GetString(f, group, "target");
    if target.Err? then
      if target.error == GroupNotFound then Ok(None) else Err(MissingKey)
    else
      var typeName := Lookup(f, group, "type");
      if typeName.None? then Err(MissingKey)
      else
        var kind := LoadKind(env, f, group, typeName.value);
        if kind.Err? then Err(kind.error)
        else
          var pairs := LoadIncludes(f, i);
          if pairs.Err? then Err(pairs.error)
          else Ok(Some(Mount(target.value, kind.value, AddIncludes(map[], pairs.value))))
  }

  /** gvir_sandbox_config_load_config_env */
  function LoadEnv(f: Groups, i: nat): Loaded<Option<(string, string)>> {
    var group := GroupName(EnvRecord(i));
    var key := GetString(f, group, "key");
    if key.Err? then
      if key.error == GroupNotFound then Ok(None) else Err(MissingKey)
    else
      var value := Lookup(f, group, "value");
      if value.None? then Err(MissingKey) else Ok(Some((key.value, value.value)))
  }

  function AddEnvs(envs: map<string, string>, pairs: seq<(string, string)>): map<string, string>
    decreases |pairs|
  {
    if pairs == [] then envs else AddEnvs(envs[pairs[0].0 := pairs[0].1], pairs[1..])
  }

  /** gvir_sandbox_config_load_config_disk */
  function LoadDisk(env: Environment, f: Groups, i: nat): Loaded<Option<Disk>> {
    var group := GroupName(DiskRecord(i));
    var tag := GetString(f, group, "tag");
    if tag.Err? then
      if tag.error == GroupNotFound then Ok(None) else Err(MissingKey)
    else
      var source := Lookup(f, group, "source");
      var diskType := Lookup(f, group, "type");
      var format := Lookup(f, group, "format");
      if source.None? || diskType.None? then Err(MissingKey)
      else if diskType.value !in env.diskTypes then Err(UnknownType)
      else if format.None? then Err(MissingKey)
      else if format.value !in env.formats then Err(UnknownFormat)
      else Ok(Some(Disk(diskType.value, tag.value, source.value, format.value)))
  }

  function LoadArg(f: Groups, k: nat): Loaded<Option<string>> {
    var r := GetString(f, "command", ConfigSave.ArgvKey(k));
    if r.Err? then
      if r.error == KeyNotFound then Ok(None) else Err(Propagated(r.error))
    else Ok(Some(r.value))
  }

  function Or<T>(value: Option<T>, otherwise: T): T {
    if value.Some? then value.value else otherwise
  }

  function OrBoolean(f: Groups, group: string, key: string, otherwise: bool): bool {
    var b := GetBoolean(f, group, key);
    if b.Ok? then b.value else otherwise
  }

  function OrUint(f: Groups, group: string, key: string, otherwise: uint32): uint32 {
    var u := GetUint64(f, group, key);
    if u.Ok? then u.value % 0x1_0000_0000 else otherwise
  }

  /** The scalar settings, over those of c. */
  function LoadScalars(f: Groups, c: Config): Config {
    c.(name := Or(Lookup(f, "core", "name"), c.name),
       uuid := if Lookup(f, "core", "uuid").Some? then Lookup(f, "core", "uuid") else c.uuid,
       root := Or(Lookup(f, "core", "root"), c.root),
       arch := Or(Lookup(f, "core", "arch"), c.arch),
       kernrelease := if Lookup(f, "core", "kernrelease").Some? then Lookup(f, "core", "kernrelease")
                      else c.kernrelease,
       kernpath := if Lookup(f, "core", "kernpath").Some? then Lookup(f, "core", "kernpath") else c.kernpath,
       kmodpath := if Lookup(f, "core", "kmodpath").Some? then Lookup(f, "core", "kmodpath") else c.kmodpath,
       shell := OrBoolean(f, "core", "shell", c.shell),
       uid := OrUint(f, "identity", "uid", c.uid),
       gid := OrUint(f, "identity", "gid", c.gid),
       username := Or(Lookup(f, "identity", "username"), c.username),
       homedir := Or(Lookup(f, "identity", "homedir"), c.homedir),
       secLabel := Lookup(f, "security", "label"),
       secDynamic := OrBoolean(f, "security", "dynamic", c.secDynamic),
       debug := OrBoolean(f, "core", "debug", c.debug),
       verbose := OrBoolean(f, "core", "verbose", c.verbose),
       tty := OrBoolean(f, "interactive", "tty", c.tty))
  }

  function WithLists(c: Config, networks: seq<Network>, mounts: seq<Mount>, envs: map<string, string>,
                     disks: seq<Disk>, command: seq<string>): Config {
    c.(networks := networks, mounts := mounts, envs := envs, disks := disks, command := command)
  }

  // The loops.

  function NetworkLoader(env: Environment, f: Groups): nat -> Loaded<Option<Network>> {
    (i: nat) => LoadNetwork(env, f, i)
  }

  function LoadNetworks(env: Environment, f: Groups): Loaded<seq<Network>> {
    Present(NetworkLoader(env, f), 0, NETWORKS_MAX)
  }

  function MountLoader(env: Environment, f: Groups): nat -> Loaded<Option<Mount>> {
    (i: nat) => LoadMount(env, f, i)
  }

  function LoadMounts(env: Environment, f: Groups): Loaded<seq<Mount>> {
    Present(MountLoader(env, f), 0, LISTS_MAX)
  }

  function EnvLoader(f: Groups): nat -> Loaded<Option<(string, string)>> {
    (i: nat) => LoadEnv(f, i)
  }

  function LoadEnvs(f: Groups): Loaded<seq<(string, string)>> {
    Present(EnvLoader(f), 0, LISTS_MAX)
  }

  function DiskLoader(env: Environment, f: Groups): nat -> Loaded<Option<Disk>> {
    (i: nat) => LoadDisk(env, f, i)
  }

  function LoadDisks(env: Environment, f: Groups): Loaded<seq<Disk>> {
    Present(DiskLoader(env, f), 0, LISTS_MAX)
  }

  function ArgLoader(f: Groups): nat -> Loaded<Option<string>> {
    (k: nat) => LoadArg(f, k)
  }

  function LoadCommand(f: Groups): Loaded<seq<string>> {
    Leading(ArgLoader(f), 0, LISTS_MAX)
  }

  /** gvir_sandbox_config_interactive_load_config, over a configuration c. */
  function Load(env: Environment, f: Groups, c: Config): Loaded<Config> {
    var networks := LoadNetworks(env, f);
    if networks.Err? then Err(networks.error)
    else
      var mounts := LoadMounts(env, f);
      if mounts.Err? then Err(mounts.error)
      else
        var envs := LoadEnvs(f);
        if envs.Err? then Err(envs.error)
        else
          var disks := LoadDisks(env, f);
          if disks.Err? then Err(disks.error)
          else
            var argv := LoadCommand(f);
            if argv.Err? then Err(argv.error)
            else
              Ok(WithLists(LoadScalars(f, c), c.networks + networks.value, c.mounts + mounts.value,
                           AddEnvs(c.envs, envs.value), c.disks + disks.value, argv.value))
  }

  /** What a key file is loaded into: an interactive configuration, or an object of another class. */
  datatype Loadee<T> = InteractiveConfig(value: T) | OfClass(name: string)

  /** The class that a key file names, if objects of it can be made. */
  function ClassOf(env: Environment, f: Groups): Loaded<string> {
    var name := Lookup(f, "api", "class");
    if name.None? then Err(MissingClass)
    else if name.value == ConfigSave.CLASS then Ok(name.value)
    else if name.value !in env.types then Err(UnknownClass)
    else if name.value !in env.classes then Err(NotAConfig)
    else Ok(name.value)
  }

  /**
    * gvir_sandbox_config_load_from_keyfile, with the settings that a new object
    * starts with.
    */
  function LoadKeyFile(env: Environment, f: Groups, start: Config): Loaded<Loadee<Config>> {
    var name := ClassOf(env, f);
    if name.Err? then Err(name.error)
    else if name.value != ConfigSave.CLASS then Ok(OfClass(name.value))
    else
      var c := Load(env, f, start);
      if c.Err? then Err(c.error) else Ok(InteractiveConfig(c.value))
  }
}
