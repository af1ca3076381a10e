/** The configuration object, and the loops by which it is loaded. */
module ConfigObjects {
  import opened Options
  import opened ConfigTypes
  import opened KeyFiles
  import opened ConfigLoad
  import ConfigSave
  import ConfigRoundTrip
  import opened NetworkOptions

  datatype OptionError = Malformed | DhcpWithStatic | RoutesWithoutAddresses

  lemma AfterNone<T>(rest: Loaded<seq<T>>)
    ensures After([], rest) == rest
  {
    if rest.Ok? {
      assert [] + rest.value == rest.value;
    }
  }

  lemma AfterAll<T>(done: seq<T>)
    ensures After(done, Ok([])) == Ok(done)
  {
    assert done + [] == done;
  }

  /**
    * The loop of a list that ends with the first missing record: addresses,
    * routes, includes and arguments.
    */
  method LoadLeading<T>(load: nat -> Loaded<Option<T>>, limit: nat) returns (r: Loaded<seq<T>>)
    ensures r == Leading(load, 0, limit)
  {
    AfterNone(Leading(load, 0, limit));
    var done: seq<T> := [];
    var j := 0;
    while j < limit
      invariant j <= limit && After(done, Leading(load, j, limit)) == Leading(load, 0, limit)
    {
      var x := load(j);
      if x.Err? {
        return Err(x.error);
      }
      if x.value.None? {
        AfterAll(done);
        return Ok(done);
      }
      AfterMore(done, x.value.value, Leading(load, j + 1, limit));
      done := done + [x.value.value];
      j := j + 1;
    }
    AfterAll(done);
    return Ok(done);
  }

  /**
    * The loop of a list in which records may be missing: environment variables
    * and disks.
    */
  method LoadPresent<T>(load: nat -> Loaded<Option<T>>, limit: nat) returns (r: Loaded<seq<T>>)
    ensures r == Present(load, 0, limit)
  {
    AfterNone(Present(load, 0, limit));
    var done: seq<T> := [];
    var i := 0;
    while i < limit
      invariant i <= limit && After(done, Present(load, i, limit)) == Present(load, 0, limit)
    {
      var x := load(i);
      if x.Err? {
        return Err(x.error);
      }
      if x.value.Some? {
        AfterMore(done, x.value.value, Present(load, i + 1, limit));
        done := done + [x.value.value];
      }
      i := i + 1;
    }
    AfterAll(done);
    return Ok(done);
  }

  /** gvir_sandbox_config_load_config_network, with the loops for addresses and routes. */
  method LoadNetworkRecord(env: Environment, f: Groups, i: nat) returns (r: Loaded<Option<Network>>)
    ensures r == LoadNetwork(env, f, i)
  {
    hide Leading;
    var group := GroupName(NetworkRecord(i));
    var dhcp := GetBoolean(f, group, "dhcp");
    if dhcp.Err? && dhcp.error == GroupNotFound {
      return Ok(None);
    }
    var addresses := LoadLeading(AddressLoader(env, f, i), SUBLISTS_MAX);
    if addresses.Err? {
      return Err(addresses.error);
    }
    var routes := LoadLeading(RouteLoader(env, f, i), SUBLISTS_MAX);
    if routes.Err? {
      return Err(routes.error);
    }
    return Ok(Some(Network(if dhcp.Ok? then dhcp.value else true, Lookup(f, group, "source"), Lookup(f, group, "mac"),
                           addresses.value, routes.value, None)));
  }

  /** gvir_sandbox_config_load_config_mount, with the loop for includes. */
  method LoadMountRecord(env: Environment, f: Groups, i: nat) returns (r: Loaded<Option<Mount>>)
    ensures r == LoadMount(env, f, i)
  {
    hide Leading, LoadKind;
    var group := GroupName(MountRecord(i));
    var target := GetString(f, group, "target");
    if target.Err? {
      return if target.error == GroupNotFound then Ok(None) else Err(MissingKey);
    }
    var typeName := Lookup(f, group, "type");
    if typeName.None? {
      return Err(MissingKey);
    }
    var kind := LoadKind(env, f, group, typeName.value);
    if kind.Err? {
      return Err(kind.error);
    }
    var pairs := LoadLeading(IncludeLoader(f, i), LISTS_MAX);
    if pairs.Err? {
      return Err(pairs.error);
    }
    return Ok(Some(Mount(target.value, kind.value, AddIncludes(map[], pairs.value))));
  }

  /** The networks that there are, with gaps or without. */
  method LoadNetworksLoop(env: Environment, f: Groups) returns (r: Loaded<seq<Network>>)
    ensures r == LoadNetworks(env, f)
  {
    hide LoadNetwork;
    ghost var load: nat -> Loaded<Option<Network>> := NetworkLoader(env, f);
    AfterNone(LoadNetworks(env, f));
    var done: seq<Network> := [];
    var i := 0;
    while i < NETWORKS_MAX
      invariant i <= NETWORKS_MAX && After(done, Present(load, i, NETWORKS_MAX)) == LoadNetworks(env, f)
    {
      var x := LoadNetworkRecord(env, f, i);
      if x.Err? {
        return Err(x.error);
      }
      if x.value.Some? {
        AfterMore(done, x.value.value, Present(load, i + 1, NETWORKS_MAX));
        done := done + [x.value.value];
      }
      i := i + 1;
    }
    AfterAll(done);
    return Ok(done);
  }

  /** The mounts. */
  method LoadMountsLoop(env: Environment, f: Groups) returns (r: Loaded<seq<Mount>>)
    ensures r == LoadMounts(env, f)
  {
    hide LoadMount;
    ghost var load: nat -> Loaded<Option<Mount>> := MountLoader(env, f);
    AfterNone(LoadMounts(env, f));
    var done: seq<Mount> := [];
    var i := 0;
    while i < LISTS_MAX
      invariant i <= LISTS_MAX && After(done, Present(load, i, LISTS_MAX)) == LoadMounts(env, f)
    {
      var x := LoadMountRecord(env, f, i);
      if x.Err? {
        return Err(x.error);
      }
      if x.value.Some? {
        AfterMore(done, x.value.value, Present(load, i + 1, LISTS_MAX));
        done := done + [x.value.value];
      }
      i := i + 1;
    }
    AfterAll(done);
    return Ok(done);
  }

  class SandboxConfig {
    var settings: Config

    constructor (settings: Config)
      ensures this.settings == settings
    {
      this.settings := settings;
    }

    /**
      * gvir_sandbox_config_interactive_load_config: each list is read and
      * appended in its turn.  After an error the object is left half loaded,
      * and nothing is said of it.
      */
    method LoadConfig(env: Environment, file: KeyFile) returns (r: Result<(), LoadError>)
      modifies this
      ensures r.Ok? <==> Load(env, file.groups, old(settings)).Ok?
      ensures r.Ok? ==> Load(env, file.groups, old(settings)) == Ok(settings)
      ensures r.Err? ==> Load(env, file.groups, old(settings)) == Err(r.error)
    {
      hide AddEnvs, LoadNetwork, LoadMount, LoadEnv, LoadDisk, LoadArg, Present, Leading;
      ScalarsKeepLists(file.groups, settings);
      hide LoadScalars;
      settings := LoadScalars(file.groups, settings);
      var networks := LoadNetworksLoop(env, file.groups);
      if networks.Err? {
        return Err(networks.error);
      }
      settings := settings.(networks := settings.networks + networks.value);
      var mounts := LoadMountsLoop(env, file.groups);
      if mounts.Err? {
        return Err(mounts.error);
      }
      settings := settings.(mounts := settings.mounts + mounts.value);
      var envs := LoadPresent(EnvLoader(file.groups), LISTS_MAX);
      if envs.Err? {
        return Err(envs.error);
      }
      settings := settings.(envs := AddEnvs(settings.envs, envs.value));
      var disks := LoadPresent(DiskLoader(env, file.groups), LISTS_MAX);
      if disks.Err? {
        return Err(disks.error);
      }
      settings := settings.(disks := settings.disks + disks.value);
      var argv := LoadLeading(ArgLoader(file.groups), LISTS_MAX);
      if argv.Err? {
        return Err(argv.error);
      }
      settings := settings.(command := argv.value);
      return Ok(());
    }

    /**
      * gvir_sandbox_config_add_network_opts: an option string that is accepted
      * adds one network, the one that it describes; one that is not changes
      * nothing.
      */
    method AddNetworkOpts(parse: Parser, network: string) returns (r: Result<(), OptionError>)
      modifies this
      ensures r.Ok? <==> Accepts(parse, Params(network))
      ensures r.Ok? ==>
                settings == old(settings).(networks := old(settings).networks + [NetworkOf(parse, Params(network))])
      ensures r.Err? ==> settings == old(settings)
    {
      var params := Params(network);
      var parsed := ParseParams(parse, params);
      if parsed.Err? {
        return Err(parsed.error);
      }
      settings := settings.(networks := settings.networks + [parsed.value]);
      return Ok(());
    }
  }

  lemma ScalarsKeepLists(f: Groups, c: Config)
    ensures var s := LoadScalars(f, c);
            s.networks == c.networks && s.mounts == c.mounts && s.envs == c.envs && s.disks == c.disks
  {
    hide Lookup, GetBoolean, GetUint64;
  }

  /** The loop over the parameters, with its three flags. */
  method ParseParams(parse: Parser, params: seq<string>) returns (r: Result<Network, OptionError>)
    ensures r.Ok? <==> Accepts(parse, params)
    ensures r.Ok? ==> r.value == NetworkOf(parse, params)
  {
    hide Classify, ParseAddress, ParseRoute, ParseFilterSetting;
    var gotAddr, gotRoute, gotDhcp := false, false, false;
    var g := Gathered(Network(false, None, None, [], [], None), None, []);
    GathersNone(parse);
    var j := 0;
    while j < |params|
      invariant j <= |params|
      invariant AllWellFormed(parse, params[..j]) && Gathers(parse, params[..j], g)
      invariant gotDhcp == HasDhcp(params[..j])
      invariant gotAddr == HasAddress(params[..j]) && gotRoute == HasRoute(params[..j])
      invariant !(gotDhcp && (gotAddr || gotRoute))
    {
      var p := Classify(params[j]);
      var done := params[..j + 1];
      assert done[..|done| - 1] == params[..j];
      HasOne(done);
      if p.Dhcp? && (gotAddr || gotRoute) {
        assert !Accepts(parse, params) by { Prefixes(params, j); }
        return Err(DhcpWithStatic);
      }
      if (p.AddressText? || p.RouteText?) && gotDhcp {
        assert !Accepts(parse, params) by { Prefixes(params, j); }
        return Err(DhcpWithStatic);
      }
      if !WellFormed(parse, params[j]) {
        RefusesBad(parse, params, j);
        return Err(Malformed);
      }
      GathersOne(parse, done, g);
      g := Gather(parse, g, p);
      gotDhcp, gotAddr, gotRoute := gotDhcp || p.Dhcp?, gotAddr || p.AddressText?, gotRoute || p.RouteText?;
      j := j + 1;
    }
    assert params[..j] == params;
    if gotRoute && !gotAddr {
      return Err(RoutesWithoutAddresses);
    }
    return Ok(if g.filterName.Some? then g.net.(filterref := Some(Filterref(g.filterName.value, g.settings)))
              else g.net);
  }

  lemma Prefixes(params: seq<string>, j: nat)
    requires j < |params|
    ensures HasDhcp(params[..j]) ==> HasDhcp(params)
    ensures HasAddress(params[..j]) ==> HasAddress(params)
    ensures HasRoute(params[..j]) ==> HasRoute(params)
    ensures Classify(params[j]).Dhcp? ==> HasDhcp(params)
    ensures Classify(params[j]).AddressText? ==> HasAddress(params)
    ensures Classify(params[j]).RouteText? ==> HasRoute(params)
  {
    hide Classify;
    forall i | 0 <= i < j ensures params[..j][i] == params[i] {
    }
    if HasDhcp(params[..j]) {
      var i :| 0 <= i < j && Classify(params[..j][i]).Dhcp?;
      assert Classify(params[i]).Dhcp?;
    }
    if HasAddress(params[..j]) {
      var i :| 0 <= i < j && Classify(params[..j][i]).AddressText?;
      assert Classify(params[i]).AddressText?;
    }
    if HasRoute(params[..j]) {
      var i :| 0 <= i < j && Classify(params[..j][i]).RouteText?;
      assert Classify(params[i]).RouteText?;
    }
  }

  /**
    * gvir_sandbox_config_load_from_keyfile: the object that a key file says it
    * holds, loaded from it, or the reason why there is none.
    */
  method LoadFromKeyFile(env: Environment, file: KeyFile, start: Config) returns (r: Loaded<Loadee<SandboxConfig>>)
    ensures r.Err? <==> LoadKeyFile(env, file.groups, start).Err?
    ensures r.Err? ==> LoadKeyFile(env, file.groups, start) == Err(r.error)
    ensures r.Ok? && r.value.OfClass? ==> LoadKeyFile(env, file.groups, start) == Ok(OfClass(r.value.name))
    ensures r.Ok? && r.value.InteractiveConfig? ==>
              && fresh(r.value.value)
              && LoadKeyFile(env, file.groups, start) == Ok(InteractiveConfig(r.value.value.settings))
  {
    hide Load;
    var name := Lookup(file.groups, "api", "class");
    if name.None? {
      return Err(MissingClass);
    }
    if name.value != ConfigSave.CLASS {
      if name.value !in env.types {
        return Err(UnknownClass);
      }
      if name.value !in env.classes {
        return Err(NotAConfig);
      }
      return Ok(OfClass(name.value));
    }
    var config := new SandboxConfig(start);
    var loaded := config.LoadConfig(env, file);
    if loaded.Err? {
      return Err(loaded.error);
    }
    return Ok(InteractiveConfig(config));
  }

  /** Save and load again: the round trip of the two programs. */
  method SaveAndLoad(env: Environment, c: Config, o: ConfigSave.Orders, start: Config) returns (same: bool)
    requires Sound(env, c) && ConfigRoundTrip.Typed(env, c) && ConfigSave.OrdersOk(c, o) && ConfigRoundTrip.New(start)
    ensures same <==> ConfigRoundTrip.Survives(c)
  {
    var file := ConfigSave.SaveToKeyFile(c, o);
    var r := LoadFromKeyFile(env, file, start);
    ConfigRoundTrip.FileRoundTrip(env, file.groups, c, o, start);
    same := r.Ok? && r.value.InteractiveConfig? && r.value.value.settings == c;
  }
}
