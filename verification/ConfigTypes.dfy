/** What a sandbox configuration consists of. */
module ConfigTypes {
  import opened Options

  type uint32 = x: int | 0 <= x < 0x1_0000_0000
  type uint64 = x: int | 0 <= x < 0x1_0000_0000_0000_0000

  /** An address, by the text that g_inet_address_to_string prints. */
  datatype Inet = Inet(text: string)

  /** NULL addresses are None. */
  datatype Address = Address(primary: Option<Inet>, prefix: uint32, broadcast: Option<Inet>)

  datatype Route = Route(target: Option<Inet>, prefix: uint32, gateway: Option<Inet>)

  datatype FilterParameter = FilterParameter(name: string, value: string)

  datatype Filterref = Filterref(name: string, parameters: seq<FilterParameter>)

  datatype Network = Network(
    dhcp: bool,
    source: Option<string>,
    mac: Option<string>,
    addresses: seq<Address>,
    routes: seq<Route>,
    filterref: Option<Filterref>)

  datatype MountKind =
    | HostBind(source: string)
    | HostImage(image: string, format: string)
    | GuestBind(path: string)
    | Ram(usage: uint64)

  /** The files to copy into a mount: for each destination its source, or NULL. */
  datatype Mount = Mount(target: string, kind: MountKind, includes: map<string, Option<string>>)

  datatype Disk = Disk(diskType: string, tag: string, source: string, format: string)

  datatype Config = Config(
    name: string,
    uuid: Option<string>,
    root: string,
    arch: string,
    kernrelease: Option<string>,
    kernpath: Option<string>,
    kmodpath: Option<string>,
    shell: bool,
    uid: uint32,
    gid: uint32,
    username: string,
    homedir: string,
    networks: seq<Network>,
    mounts: seq<Mount>,
    envs: map<string, string>,
    disks: seq<Disk>,
    secLabel: Option<string>,
    secDynamic: bool,
    debug: bool,
    verbose: bool,
    tty: bool,
    command: seq<string>)

  /**
    * What is outside the program: address parsing, the other types that are
    * registered, of which some are sandbox configurations, and the nicknames of
    * enumeration values.
    */
  datatype Environment = Environment(
    parse: string -> Option<Inet>,
    types: set<string>,
    classes: set<string>,
    formats: set<string>,
    diskTypes: set<string>)

  /** The address, if there is one, is parsed again as it was printed. */
  predicate Reparses(env: Environment, a: Option<Inet>) {
    a.Some? ==> env.parse(a.value.text) == a
  }

  ghost predicate SoundNetwork(env: Environment, n: Network) {
    && (forall j | 0 <= j < |n.addresses| ::
          Reparses(env, n.addresses[j].primary) && Reparses(env, n.addresses[j].broadcast))
    && (forall j | 0 <= j < |n.routes| ::
          Reparses(env, n.routes[j].target) && Reparses(env, n.routes[j].gateway))
  }

  /** Parsing undoes printing, for the addresses of the configuration; other texts may be refused. */
  ghost predicate Sound(env: Environment, c: Config) {
    forall i | 0 <= i < |c.networks| :: SoundNetwork(env, c.networks[i])
  }
}
