/** Loading what was saved gives the configuration back: exactly when. */
module ConfigRoundTrip {
  import opened Options
  import opened Text
  import opened ConfigTypes
  import opened KeyFiles
  import opened ConfigSave
  import opened ConfigLoad

  // Which configurations survive.

  predicate NetworkSurvives(n: Network) {
    && n.filterref.None?
    && |n.addresses| <= SUBLISTS_MAX && (forall j | 0 <= j < |n.addresses| :: n.addresses[j].primary.Some?)
    && |n.routes| <= SUBLISTS_MAX && (forall j | 0 <= j < |n.routes| :: n.routes[j].target.Some?)
  }

  /** A size that fits a positive gint; the largest guint64 survives too, as -1. */
  predicate UsageSurvives(usage: uint64) {
    usage < 0x8000_0000 || usage == 0xffff_ffff_ffff_ffff
  }

  predicate MountSurvives(m: Mount) {
    && (m.kind.Ram? ==> UsageSurvives(m.kind.usage))
    && |m.includes| <= LISTS_MAX && (forall dst | dst in m.includes :: m.includes[dst].Some?)
  }

  predicate Survives(c: Config) {
    && |c.networks| <= NETWORKS_MAX && (forall i | 0 <= i < |c.networks| :: NetworkSurvives(c.networks[i]))
    && |c.mounts| <= LISTS_MAX && (forall i | 0 <= i < |c.mounts| :: MountSurvives(c.mounts[i]))
    && |c.envs| <= LISTS_MAX && |c.disks| <= LISTS_MAX
    && 1 <= |c.command| <= LISTS_MAX
  }

  /** Enumeration values have nicknames. */
  predicate Typed(env: Environment, c: Config) {
    && (forall i | 0 <= i < |c.mounts| :: c.mounts[i].kind.HostImage? ==> c.mounts[i].kind.format in env.formats)
    && (forall i | 0 <= i < |c.disks| :: c.disks[i].diskType in env.diskTypes && c.disks[i].format in env.formats)
  }

  /** A new object, whatever defaults its other settings have. */
  predicate New(c: Config) {
    && c.uuid.None? && c.kernrelease.None? && c.kernpath.None? && c.kmodpath.None?
    && c.networks == [] && c.mounts == [] && c.envs == map[] && c.disks == []
  }

  // Lists.

  function Min(a: nat, b: nat): nat { if a < b then a else b }

  lemma {:induction false} LeadingIs<T>(load: nat -> Loaded<Option<T>>, xs: seq<T>, j: nat, limit: nat)
    requires j <= Min(|xs|, limit)
    requires forall k: nat | j <= k < Min(|xs|, limit) :: load(k) == Ok(Some(xs[k]))
    requires |xs| < limit ==> load(|xs|) == Ok(None)
    ensures Leading(load, j, limit) == Ok(xs[j..Min(|xs|, limit)])
    decreases limit - j
  {
    var n := Min(|xs|, limit);
    if j < n {
      assert load(j) == Ok(Some(xs[j]));
      LeadingIs(load, xs, j + 1, limit);
      assert xs[j..n] == [xs[j]] + xs[j + 1..n];
    } else {
      assert xs[j..n] == [];
    }
  }

  lemma {:induction false} PresentNone<T>(load: nat -> Loaded<Option<T>>, j: nat, limit: nat)
    requires forall k: nat | j <= k < limit :: load(k) == Ok(None)
    ensures Present(load, j, limit) == Ok([])
    decreases limit - j
  {
    if j < limit {
      assert load(j) == Ok(None);
      PresentNone(load, j + 1, limit);
    }
  }

  lemma {:induction false} PresentIs<T>(load: nat -> Loaded<Option<T>>, xs: seq<T>, j: nat, limit: nat)
    requires j <= |xs| <= limit
    requires forall k: nat | j <= k < |xs| :: load(k) == Ok(Some(xs[k]))
    requires forall k: nat | |xs| <= k < limit :: load(k) == Ok(None)
    ensures Present(load, j, limit) == Ok(xs[j..])
    decreases limit - j
  {
    if j == |xs| {
      PresentNone(load, j, limit);
    } else {
      assert load(j) == Ok(Some(xs[j]));
      PresentIs(load, xs, j + 1, limit);
      assert xs[j..] == [xs[j]] + xs[j + 1..];
    }
  }

  lemma {:induction false} LeadingEach<T>(load: nat -> Loaded<Option<T>>, xs: seq<T>, j: nat, limit: nat)
    requires j <= limit && Leading(load, j, limit) == Ok(xs)
    ensures |xs| <= limit - j
    ensures forall k: nat | k < |xs| :: load(j + k) == Ok(Some(xs[k]))
    decreases limit - j
  {
    if j < limit && load(j).value.Some? {
      LeadingEach(load, xs[1..], j + 1, limit);
      forall k: nat | k < |xs| ensures load(j + k) == Ok(Some(xs[k])) {
        if k > 0 {
          assert load(j + 1 + (k - 1)) == Ok(Some(xs[1..][k - 1]));
        }
      }
    }
  }

  lemma {:induction false} PresentEach<T>(load: nat -> Loaded<Option<T>>, xs: seq<T>, n: nat, j: nat, limit: nat)
    requires j <= limit && Present(load, j, limit) == Ok(xs)
    requires forall k: nat | j <= k < n :: load(k) != Ok(None)
    ensures |xs| <= limit - j
    ensures forall k: nat | k < |xs| && j + k < n :: load(j + k) == Ok(Some(xs[k]))
    decreases limit - j
  {
    if j < limit {
      if load(j).value.Some? {
        PresentEach(load, xs[1..], n, j + 1, limit);
        forall k: nat | k < |xs| && j + k < n ensures load(j + k) == Ok(Some(xs[k])) {
          if k > 0 {
            assert load(j + 1 + (k - 1)) == Ok(Some(xs[1..][k - 1]));
          }
        }
      } else {
        PresentEach(load, xs, n, j + 1, limit);
      }
    }
  }

  // Numbers.

  lemma PrefixBack(f: Groups, group: string, prefix: uint32)
    requires group in f && "prefix" in f[group] && f[group]["prefix"] == Decimal(prefix)
    ensures Prefix(f, group) == prefix
  {
    DecimalValue(prefix);
  }

  lemma UsageBack(usage: uint64)
    ensures RamUsage(Decimal(usage)) == usage <==> UsageSurvives(usage)
  {
    DecimalValue(usage);
    LeadingAll(Decimal(usage));
    hide Decimal, LeadingDigits, Value, ThroughGint;
    GintBack(usage);
  }

  lemma GintBack(v: uint64)
    ensures ThroughGint(v) == v <==> UsageSurvives(v)
  {
    var low := v % 0x1_0000_0000;
    assert 0 <= low < 0x1_0000_0000;
    if v >= 0x8000_0000_0000_0000 {
      assert 0x7fff_ffff_ffff_ffff % 0x1_0000_0000 == 0xffff_ffff;
    } else if v < 0x1_0000_0000 {
      assert low == v;
    }
  }

  lemma UintBack(f: Groups, group: string, key: string, u: uint32, otherwise: uint32)
    requires group in f && key in f[group] && f[group][key] == Decimal(u)
    ensures OrUint(f, group, key, otherwise) == u
  {
    DecimalValue(u);
  }

  // Records.

  lemma Read(f: Groups, c: Config, o: Orders, r: Record)
    requires OrdersOk(c, o) && SavedAs(f, c, o)
    ensures HoldsRecord(f, Content(c, o, Everything(c, o), r), r)
  {
    hide Content, HoldsRecord;
  }

  lemma AddressBack(env: Environment, f: Groups, c: Config, o: Orders, i: nat, j: nat)
    requires Sound(env, c) && OrdersOk(c, o) && SavedAs(f, c, o) && i < |c.networks|
    ensures var r := LoadAddress(env, f, i, j);
            if j >= |c.networks[i].addresses| then r == Ok(None)
            else if c.networks[i].addresses[j].primary.None? then r.Err?
            else r == Ok(Some(c.networks[i].addresses[j]))
  {
    Read(f, c, o, AddressRecord(i, j));
    hide Holds, GroupName, Decimal;
    if j < |c.networks[i].addresses| {
      PrefixBack(f, GroupName(AddressRecord(i, j)), c.networks[i].addresses[j].prefix);
    }
  }

  lemma RouteBack(env: Environment, f: Groups, c: Config, o: Orders, i: nat, j: nat)
    requires Sound(env, c) && OrdersOk(c, o) && SavedAs(f, c, o) && i < |c.networks|
    ensures var r := LoadRoute(env, f, i, j);
            if j >= |c.networks[i].routes| then r == Ok(None)
            else if c.networks[i].routes[j].target.None? then r.Err?
            else r == Ok(Some(c.networks[i].routes[j]))
  {
    Read(f, c, o, RouteRecord(i, j));
    hide Holds, GroupName, Decimal;
    if j < |c.networks[i].routes| {
      PrefixBack(f, GroupName(RouteRecord(i, j)), c.networks[i].routes[j].prefix);
    }
  }

  // Networks.

  lemma NetworkAbsent(env: Environment, f: Groups, c: Config, o: Orders, i: nat)
    requires OrdersOk(c, o) && SavedAs(f, c, o) && i >= |c.networks|
    ensures LoadNetwork(env, f, i) == Ok(None)
  {
    Read(f, c, o, NetworkRecord(i));
    hide Holds, GroupName;
  }

  /** The scalar part of a network group. */
  lemma NetworkGroupBack(f: Groups, c: Config, o: Orders, i: nat)
    requires OrdersOk(c, o) && SavedAs(f, c, o) && i < |c.networks|
    ensures var group, n := GroupName(NetworkRecord(i)), c.networks[i];
            && GetBoolean(f, group, "dhcp") == Ok(n.dhcp)
            && Lookup(f, group, "source") == n.source && Lookup(f, group, "mac") == n.mac
  {
    Read(f, c, o, NetworkRecord(i));
    hide Holds, GroupName, Decimal;
  }

  lemma AddressesLoad(env: Environment, f: Groups, c: Config, o: Orders, i: nat)
    requires Sound(env, c) && OrdersOk(c, o) && SavedAs(f, c, o) && i < |c.networks| && NetworkSurvives(c.networks[i])
    ensures LoadAddresses(env, f, i) == Ok(c.networks[i].addresses)
  {
    var addresses := c.networks[i].addresses;
    hide OrdersOk, Sound, LoadAddress, SavedAs, Leading;
    var address := AddressLoader(env, f, i);
    forall j: nat | j <= |addresses| ensures address(j) == Ok(if j < |addresses| then Some(addresses[j]) else None) {
      AddressBack(env, f, c, o, i, j);
    }
    LeadingIs(address, addresses, 0, SUBLISTS_MAX);
    assert addresses[0..|addresses|] == addresses;
  }

  lemma RoutesLoad(env: Environment, f: Groups, c: Config, o: Orders, i: nat)
    requires Sound(env, c) && OrdersOk(c, o) && SavedAs(f, c, o) && i < |c.networks| && NetworkSurvives(c.networks[i])
    ensures LoadRoutes(env, f, i) == Ok(c.networks[i].routes)
  {
    var routes := c.networks[i].routes;
    hide OrdersOk, Sound, LoadRoute, SavedAs, Leading;
    var route := RouteLoader(env, f, i);
    forall j: nat | j <= |routes| ensures route(j) == Ok(if j < |routes| then Some(routes[j]) else None) {
      RouteBack(env, f, c, o, i, j);
    }
    LeadingIs(route, routes, 0, SUBLISTS_MAX);
    assert routes[0..|routes|] == routes;
  }

  lemma NetworkLoads(env: Environment, f: Groups, c: Config, o: Orders, i: nat)
    requires Sound(env, c) && OrdersOk(c, o) && SavedAs(f, c, o) && i < |c.networks| && NetworkSurvives(c.networks[i])
    ensures LoadNetwork(env, f, i) == Ok(Some(c.networks[i]))
  {
    NetworkGroupBack(f, c, o, i);
    AddressesLoad(env, f, c, o, i);
    RoutesLoad(env, f, c, o, i);
    hide OrdersOk, Sound, LoadAddresses, LoadRoutes, GetBoolean, Lookup, GroupName, SavedAs;
  }

  lemma AddressesMustSurvive(env: Environment, f: Groups, c: Config, o: Orders, i: nat,
                              address: nat -> Loaded<Option<Address>>)
    requires Sound(env, c) && OrdersOk(c, o) && SavedAs(f, c, o) && i < |c.networks|
    requires forall j: nat :: address(j) == LoadAddress(env, f, i, j)
    requires Leading(address, 0, SUBLISTS_MAX) == Ok(c.networks[i].addresses)
    ensures |c.networks[i].addresses| <= SUBLISTS_MAX
    ensures forall j | 0 <= j < |c.networks[i].addresses| :: c.networks[i].addresses[j].primary.Some?
  {
    var n := c.networks[i];
    hide OrdersOk, Sound, LoadAddress, SavedAs, Leading;
    LeadingEach(address, n.addresses, 0, SUBLISTS_MAX);
    forall j: nat | j < |n.addresses| ensures n.addresses[j].primary.Some? {
      AddressBack(env, f, c, o, i, j);
      assert address(0 + j) == Ok(Some(n.addresses[j]));
    }
  }

  lemma RoutesMustSurvive(env: Environment, f: Groups, c: Config, o: Orders, i: nat,
                           route: nat -> Loaded<Option<Route>>)
    requires Sound(env, c) && OrdersOk(c, o) && SavedAs(f, c, o) && i < |c.networks|
    requires forall j: nat :: route(j) == LoadRoute(env, f, i, j)
    requires Leading(route, 0, SUBLISTS_MAX) == Ok(c.networks[i].routes)
    ensures |c.networks[i].routes| <= SUBLISTS_MAX
    ensures forall j | 0 <= j < |c.networks[i].routes| :: c.networks[i].routes[j].target.Some?
  {
    var n := c.networks[i];
    hide OrdersOk, Sound, LoadRoute, SavedAs, Leading;
    LeadingEach(route, n.routes, 0, SUBLISTS_MAX);
    forall j: nat | j < |n.routes| ensures n.routes[j].target.Some? {
      RouteBack(env, f, c, o, i, j);
      assert route(0 + j) == Ok(Some(n.routes[j]));
    }
  }

  lemma NetworkMustSurvive(env: Environment, f: Groups, c: Config, o: Orders, i: nat)
    requires Sound(env, c) && OrdersOk(c, o) && SavedAs(f, c, o) && i < |c.networks|
    requires LoadNetwork(env, f, i) == Ok(Some(c.networks[i]))
    ensures NetworkSurvives(c.networks[i])
  {
    hide OrdersOk, Sound, LoadAddress, LoadRoute, GetBoolean, Lookup, GroupName, SavedAs, Leading;
    var address: nat -> Loaded<Option<Address>> := AddressLoader(env, f, i);
    var route: nat -> Loaded<Option<Route>> := RouteLoader(env, f, i);
    AddressesMustSurvive(env, f, c, o, i, address);
    RoutesMustSurvive(env, f, c, o, i, route);
  }

  // Mounts.

  lemma MountAbsent(env: Environment, f: Groups, c: Config, o: Orders, i: nat)
    requires OrdersOk(c, o) && SavedAs(f, c, o) && i >= |c.mounts|
    ensures LoadMount(env, f, i) == Ok(None)
  {
    Read(f, c, o, MountRecord(i));
    hide Holds, GroupName;
  }

  /** The group of a mount gives back its target and kind, if the usage survives. */
  lemma MountGroupBack(env: Environment, f: Groups, c: Config, o: Orders, i: nat)
    requires OrdersOk(c, o) && SavedAs(f, c, o) && Typed(env, c) && i < |c.mounts|
    ensures var group, m := GroupName(MountRecord(i)), c.mounts[i];
            && GetString(f, group, "target") == Ok(m.target)
            && Lookup(f, group, "type") == Some(TypeName(m.kind))
            && (LoadKind(env, f, group, TypeName(m.kind)) == Ok(m.kind) <==>
                (m.kind.Ram? ==> UsageSurvives(m.kind.usage)))
  {
    Read(f, c, o, MountRecord(i));
    hide Holds, GroupName, Decimal, RamUsage;
    if c.mounts[i].kind.Ram? {
      UsageBack(c.mounts[i].kind.usage);
    }
  }

  lemma IncludeBack(f: Groups, c: Config, o: Orders, i: nat, j: nat)
    requires OrdersOk(c, o) && SavedAs(f, c, o) && i < |c.mounts|
    ensures var r := LoadInclude(f, i, j);
            if j >= |o.includes[i]| then r == Ok(None)
            else
              var dst := o.includes[i][j];
              && dst in c.mounts[i].includes
              && (if c.mounts[i].includes[dst].None? then r.Err?
                  else r == Ok(Some((dst, c.mounts[i].includes[dst].value))))
  {
    Read(f, c, o, IncludeRecord(i, j));
    hide Holds, GroupName;
    if j < |o.includes[i]| {
      assert o.includes[i][j] in o.includes[i];
    }
  }

  lemma {:induction false} OrderSize(order: seq<string>, keys: set<string>)
    requires IsOrder(order, keys)
    ensures |order| == |keys|
  {
    if order == [] {
      assert keys == {};
    } else {
      var last := order[|order| - 1];
      var front := order[..|order| - 1];
      assert last in order;
      forall k ensures k in front <==> k in keys - {last} {
        if k in keys && k != last {
          assert k in order;
        }
      }
      OrderSize(front, keys - {last});
    }
  }

  /** The pairs that an iteration of the includes yields. */
  function Pairs(order: seq<string>, includes: map<string, Option<string>>): seq<(string, string)>
    requires forall k | k in order :: k in includes && includes[k].Some?
  {
    seq(|order|, k requires 0 <= k < |order| =>
      assert order[k] in order;
      (order[k], includes[order[k]].value))
  }

  lemma {:induction false} AddIncludesSize(base: map<string, Option<string>>, pairs: seq<(string, string)>)
    requires forall k | k in base :: base[k].Some?
    ensures var r := AddIncludes(base, pairs);
            |r| <= |base| + |pairs| && (forall k | k in r :: r[k].Some?)
    decreases |pairs|
  {
    if pairs != [] {
      var next := base[pairs[0].0 := Some(pairs[0].1)];
      assert next.Keys == base.Keys + {pairs[0].0};
      assert |next.Keys| <= |base.Keys| + 1;
      AddIncludesSize(next, pairs[1..]);
    }
  }

  lemma {:induction false} AddIncludesIs(base: map<string, Option<string>>, pairs: seq<(string, string)>, key: string)
    requires forall a, b | 0 <= a < b < |pairs| :: pairs[a].0 != pairs[b].0
    ensures (forall a | 0 <= a < |pairs| :: pairs[a].0 != key) ==>
              (key in AddIncludes(base, pairs) <==> key in base) &&
              (key in base ==> AddIncludes(base, pairs)[key] == base[key])
    ensures forall a | 0 <= a < |pairs| && pairs[a].0 == key ::
              key in AddIncludes(base, pairs) && AddIncludes(base, pairs)[key] == Some(pairs[a].1)
    decreases |pairs|
  {
    if pairs != [] {
      AddIncludesIs(base[pairs[0].0 := Some(pairs[0].1)], pairs[1..], key);
      forall a | 0 <= a < |pairs| && pairs[a].0 == key
        ensures key in AddIncludes(base, pairs) && AddIncludes(base, pairs)[key] == Some(pairs[a].1)
      {
        if a > 0 {
          assert pairs[1..][a - 1].0 == key;
        }
      }
    }
  }

  lemma IncludesBack(order: seq<string>, includes: map<string, Option<string>>)
    requires IsOrder(order, includes.Keys) && (forall k | k in includes :: includes[k].Some?)
    ensures AddIncludes(map[], Pairs(order, includes)) == includes
  {
    var pairs := Pairs(order, includes);
    var r := AddIncludes(map[], pairs);
    forall key ensures (key in r <==> key in includes) && (key in includes ==> r[key] == includes[key]) {
      AddIncludesIs(map[], pairs, key);
      if key in includes {
        assert key in order;
        var a :| 0 <= a < |order| && order[a] == key;
        assert pairs[a].0 == key;
      }
    }
  }

  lemma MountLoads(env: Environment, f: Groups, c: Config, o: Orders, i: nat)
    requires OrdersOk(c, o) && SavedAs(f, c, o) && Typed(env, c) && i < |c.mounts| && MountSurvives(c.mounts[i])
    ensures LoadMount(env, f, i) == Ok(Some(c.mounts[i]))
  {
    var m := c.mounts[i];
    MountGroupBack(env, f, c, o, i);
    IncludesBack(o.includes[i], m.includes);
    OrderSize(o.includes[i], m.includes.Keys);
    var pairs := Pairs(o.includes[i], m.includes);
    hide SavedAs, LoadInclude, LoadKind, GetString, Lookup, GroupName, AddIncludes, IsOrder, Typed;
    var loadInclude := IncludeLoader(f, i);
    forall j: nat | j <= |pairs| ensures loadInclude(j) == Ok(if j < |pairs| then Some(pairs[j]) else None) {
      IncludeBack(f, c, o, i, j);
    }
    LeadingIs(loadInclude, pairs, 0, LISTS_MAX);
    assert pairs[0..|pairs|] == pairs;
  }

  lemma MountMustSurvive(env: Environment, f: Groups, c: Config, o: Orders, i: nat)
    requires OrdersOk(c, o) && SavedAs(f, c, o) && Typed(env, c) && i < |c.mounts|
    requires LoadMount(env, f, i) == Ok(Some(c.mounts[i]))
    ensures MountSurvives(c.mounts[i])
  {
    MountGroupBack(env, f, c, o, i);
    hide SavedAs, LoadInclude, LoadKind, GetString, Lookup, GroupName, AddIncludes, IsOrder, Typed, OrdersOk, Leading;
    var pairs := LoadIncludes(f, i).value;
    LeadingEach(IncludeLoader(f, i), pairs, 0, LISTS_MAX);
    AddIncludesSize(map[], pairs);
  }

  // Environment variables, disks and arguments.

  lemma EnvBack(f: Groups, c: Config, o: Orders, i: nat)
    requires OrdersOk(c, o) && SavedAs(f, c, o)
    ensures if i >= |o.envs| then LoadEnv(f, i) == Ok(None)
            else o.envs[i] in c.envs && LoadEnv(f, i) == Ok(Some((o.envs[i], c.envs[o.envs[i]])))
  {
    Read(f, c, o, EnvRecord(i));
    hide Holds, GroupName;
    if i < |o.envs| {
      assert o.envs[i] in o.envs;
    }
  }

  lemma DiskBack(env: Environment, f: Groups, c: Config, o: Orders, i: nat)
    requires OrdersOk(c, o) && SavedAs(f, c, o) && Typed(env, c)
    ensures LoadDisk(env, f, i) == Ok(if i < |c.disks| then Some(c.disks[i]) else None)
  {
    Read(f, c, o, DiskRecord(i));
    hide Holds, GroupName;
  }

  function EnvPairs(order: seq<string>, envs: map<string, string>): seq<(string, string)>
    requires forall k | k in order :: k in envs
  {
    seq(|order|, k requires 0 <= k < |order| =>
      assert order[k] in order;
      (order[k], envs[order[k]]))
  }

  lemma {:induction false} AddEnvsSize(base: map<string, string>, pairs: seq<(string, string)>)
    ensures |AddEnvs(base, pairs)| <= |base| + |pairs|
    decreases |pairs|
  {
    if pairs != [] {
      var next := base[pairs[0].0 := pairs[0].1];
      assert next.Keys == base.Keys + {pairs[0].0};
      AddEnvsSize(next, pairs[1..]);
    }
  }

  lemma {:induction false} AddEnvsIs(base: map<string, string>, pairs: seq<(string, string)>, key: string)
    requires forall a, b | 0 <= a < b < |pairs| :: pairs[a].0 != pairs[b].0
    ensures (forall a | 0 <= a < |pairs| :: pairs[a].0 != key) ==>
              (key in AddEnvs(base, pairs) <==> key in base) &&
              (key in base ==> AddEnvs(base, pairs)[key] == base[key])
    ensures forall a | 0 <= a < |pairs| && pairs[a].0 == key ::
              key in AddEnvs(base, pairs) && AddEnvs(base, pairs)[key] == pairs[a].1
    decreases |pairs|
  {
    if pairs != [] {
      AddEnvsIs(base[pairs[0].0 := pairs[0].1], pairs[1..], key);
      forall a | 0 <= a < |pairs| && pairs[a].0 == key
        ensures key in AddEnvs(base, pairs) && AddEnvs(base, pairs)[key] == pairs[a].1
      {
        if a > 0 {
          assert pairs[1..][a - 1].0 == key;
        }
      }
    }
  }

  lemma EnvsBack(order: seq<string>, envs: map<string, string>)
    requires IsOrder(order, envs.Keys)
    ensures AddEnvs(map[], EnvPairs(order, envs)) == envs
  {
    var pairs := EnvPairs(order, envs);
    var r := AddEnvs(map[], pairs);
    forall key ensures (key in r <==> key in envs) && (key in envs ==> r[key] == envs[key]) {
      AddEnvsIs(map[], pairs, key);
      if key in envs {
        assert key in order;
        var a :| 0 <= a < |order| && order[a] == key;
        assert pairs[a].0 == key;
      }
    }
  }

  lemma ArgvKeysDiffer(m: nat, n: nat)
    ensures ArgvKey(m) == ArgvKey(n) ==> m == n
  {
    DecimalInjective(m, n);
    hide Decimal;
    if ArgvKey(m) == ArgvKey(n) {
      assert ArgvKey(m)[5..] == Decimal(m) && ArgvKey(n)[5..] == Decimal(n);
    }
  }

  lemma {:induction false} ArgvGroupIs(argv: seq<string>, k: nat)
    ensures ArgvKey(k) in ArgvGroup(argv) <==> k < |argv|
    ensures k < |argv| ==> ArgvGroup(argv)[ArgvKey(k)] == argv[k]
  {
    hide ArgvKey;
    if argv != [] {
      ArgvGroupIs(argv[..|argv| - 1], k);
      ArgvKeysDiffer(k, |argv| - 1);
    }
  }

  lemma ArgBack(f: Groups, c: Config, o: Orders, k: nat)
    requires OrdersOk(c, o) && SavedAs(f, c, o)
    ensures if c.command == [] then LoadArg(f, k).Err?
            else LoadArg(f, k) == Ok(if k < |c.command| then Some(c.command[k]) else None)
  {
    Read(f, c, o, Command);
    assert c.command[..|c.command|] == c.command;
    ArgvGroupIs(c.command, k);
    hide Holds, ArgvGroup, ArgvKey;
  }

  // The whole.

  lemma CoreBack(f: Groups, c: Config, o: Orders)
    requires OrdersOk(c, o) && SavedAs(f, c, o)
    ensures Lookup(f, "core", "name") == Some(c.name) && Lookup(f, "core", "uuid") == c.uuid
    ensures Lookup(f, "core", "root") == Some(c.root) && Lookup(f, "core", "arch") == Some(c.arch)
    ensures Lookup(f, "core", "kernrelease") == c.kernrelease && Lookup(f, "core", "kernpath") == c.kernpath
    ensures Lookup(f, "core", "kmodpath") == c.kmodpath
    ensures GetBoolean(f, "core", "shell") == Ok(c.shell) && GetBoolean(f, "core", "debug") == Ok(c.debug)
    ensures GetBoolean(f, "core", "verbose") == Ok(c.verbose)
  {
    Read(f, c, o, Core);
    hide Holds, OrdersOk, CoreGroup;
    CoreKeys(c);
  }

  lemma CoreKeys(c: Config)
    ensures var g := CoreGroup(c);
            && "name" in g && g["name"] == c.name && "root" in g && g["root"] == c.root
            && "arch" in g && g["arch"] == c.arch && "shell" in g && g["shell"] == BoolText(c.shell)
            && "debug" in g && g["debug"] == BoolText(c.debug) && "verbose" in g && g["verbose"] == BoolText(c.verbose)
            && HasOption(g, "uuid", c.uuid) && HasOption(g, "kernrelease", c.kernrelease)
            && HasOption(g, "kernpath", c.kernpath) && HasOption(g, "kmodpath", c.kmodpath)
  {
    CoreRequired(c);
    CoreOptions(c);
    hide CoreGroup, HasOption;
  }

  predicate HasOption(g: Group, key: string, value: Option<string>) {
    if value.Some? then key in g && g[key] == value.value else key !in g
  }

  lemma CoreRequired(c: Config)
    ensures var g := CoreGroup(c);
            && "name" in g && g["name"] == c.name && "root" in g && g["root"] == c.root
            && "arch" in g && g["arch"] == c.arch && "shell" in g && g["shell"] == BoolText(c.shell)
            && "debug" in g && g["debug"] == BoolText(c.debug) && "verbose" in g && g["verbose"] == BoolText(c.verbose)
  {
    hide BoolText;
  }

  lemma CoreOptions(c: Config)
    ensures var g := CoreGroup(c);
            && HasOption(g, "uuid", c.uuid) && HasOption(g, "kernrelease", c.kernrelease)
            && HasOption(g, "kernpath", c.kernpath) && HasOption(g, "kmodpath", c.kmodpath)
  {
    hide BoolText;
  }

  lemma IdentityBack(f: Groups, c: Config, o: Orders, uid: uint32, gid: uint32)
    requires OrdersOk(c, o) && SavedAs(f, c, o)
    ensures OrUint(f, "identity", "uid", uid) == c.uid && OrUint(f, "identity", "gid", gid) == c.gid
    ensures Lookup(f, "identity", "username") == Some(c.username)
    ensures Lookup(f, "identity", "homedir") == Some(c.homedir)
  {
    Read(f, c, o, Identity);
    hide Holds, OrdersOk, Decimal;
    UintBack(f, "identity", "uid", c.uid, uid);
    UintBack(f, "identity", "gid", c.gid, gid);
  }

  lemma OthersBack(f: Groups, c: Config, o: Orders)
    requires OrdersOk(c, o) && SavedAs(f, c, o)
    ensures Lookup(f, "security", "label") == c.secLabel
    ensures GetBoolean(f, "security", "dynamic") == Ok(c.secDynamic)
    ensures GetBoolean(f, "interactive", "tty") == Ok(c.tty)
  {
    Read(f, c, o, Security);
    Read(f, c, o, Interactive);
    hide Holds, OrdersOk;
  }

  lemma ScalarsBack(f: Groups, c: Config, o: Orders, start: Config)
    requires OrdersOk(c, o) && SavedAs(f, c, o) && New(start)
    ensures LoadScalars(f, start) ==
            c.(networks := start.networks, mounts := start.mounts, envs := start.envs, disks := start.disks,
               command := start.command)
  {
    CoreBack(f, c, o);
    IdentityBack(f, c, o, start.uid, start.gid);
    OthersBack(f, c, o);
    hide SavedAs, OrdersOk, Lookup, GetBoolean, OrUint;
  }

  lemma ListsBack(env: Environment, f: Groups, c: Config, o: Orders)
    requires Sound(env, c) && OrdersOk(c, o) && SavedAs(f, c, o) && Typed(env, c) && Survives(c)
    ensures LoadNetworks(env, f) == Ok(c.networks)
    ensures LoadMounts(env, f) == Ok(c.mounts)
  {
    hide SavedAs, OrdersOk, LoadNetwork, LoadMount, Typed, Sound, NetworkSurvives, MountSurvives, Present;
    var network: nat -> Loaded<Option<Network>> := NetworkLoader(env, f);
    forall i: nat ensures network(i) == Ok(if i < |c.networks| then Some(c.networks[i]) else None) {
      if i < |c.networks| {
        NetworkLoads(env, f, c, o, i);
      } else {
        NetworkAbsent(env, f, c, o, i);
      }
    }
    PresentIs(network, c.networks, 0, NETWORKS_MAX);
    assert c.networks[0..] == c.networks;
    var mount: nat -> Loaded<Option<Mount>> := MountLoader(env, f);
    forall i: nat ensures mount(i) == Ok(if i < |c.mounts| then Some(c.mounts[i]) else None) {
      if i < |c.mounts| {
        MountLoads(env, f, c, o, i);
      } else {
        MountAbsent(env, f, c, o, i);
      }
    }
    PresentIs(mount, c.mounts, 0, LISTS_MAX);
    assert c.mounts[0..] == c.mounts;
  }

  lemma EnvsLoad(f: Groups, c: Config, o: Orders)
    requires OrdersOk(c, o) && SavedAs(f, c, o) && |c.envs| <= LISTS_MAX
    ensures LoadEnvs(f).Ok? && AddEnvs(map[], LoadEnvs(f).value) == c.envs
  {
    OrderSize(o.envs, c.envs.Keys);
    EnvsBack(o.envs, c.envs);
    var pairs := EnvPairs(o.envs, c.envs);
    hide SavedAs, OrdersOk, LoadEnv, Present, AddEnvs;
    var loadEnv: nat -> Loaded<Option<(string, string)>> := EnvLoader(f);
    forall i: nat ensures loadEnv(i) == Ok(if i < |pairs| then Some(pairs[i]) else None) {
      EnvBack(f, c, o, i);
    }
    PresentIs(loadEnv, pairs, 0, LISTS_MAX);
    assert pairs[0..] == pairs;
  }

  lemma DisksLoad(env: Environment, f: Groups, c: Config, o: Orders)
    requires OrdersOk(c, o) && SavedAs(f, c, o) && Typed(env, c) && |c.disks| <= LISTS_MAX
    ensures LoadDisks(env, f) == Ok(c.disks)
  {
    hide SavedAs, OrdersOk, LoadDisk, Typed, Present;
    var disk: nat -> Loaded<Option<Disk>> := DiskLoader(env, f);
    forall i: nat ensures disk(i) == Ok(if i < |c.disks| then Some(c.disks[i]) else None) {
      DiskBack(env, f, c, o, i);
    }
    PresentIs(disk, c.disks, 0, LISTS_MAX);
    assert c.disks[0..] == c.disks;
  }

  lemma CommandLoads(f: Groups, c: Config, o: Orders)
    requires OrdersOk(c, o) && SavedAs(f, c, o) && 1 <= |c.command| <= LISTS_MAX
    ensures LoadCommand(f) == Ok(c.command)
  {
    hide SavedAs, OrdersOk, LoadArg, Leading;
    var arg: nat -> Loaded<Option<string>> := ArgLoader(f);
    forall k: nat ensures arg(k) == Ok(if k < |c.command| then Some(c.command[k]) else None) {
      ArgBack(f, c, o, k);
    }
    LeadingIs(arg, c.command, 0, LISTS_MAX);
    assert c.command[0..|c.command|] == c.command;
  }

  lemma NetworkFound(env: Environment, f: Groups, c: Config, o: Orders, i: nat)
    requires OrdersOk(c, o) && SavedAs(f, c, o) && i < |c.networks|
    ensures LoadNetwork(env, f, i) != Ok(None)
  {
    hide SavedAs, OrdersOk, GetBoolean, LoadAddresses, LoadRoutes;
    NetworkGroupBack(f, c, o, i);
  }

  lemma NetworksMustSurvive(env: Environment, f: Groups, c: Config, o: Orders)
    requires Sound(env, c) && OrdersOk(c, o) && SavedAs(f, c, o)
    requires LoadNetworks(env, f) == Ok(c.networks)
    ensures |c.networks| <= NETWORKS_MAX && (forall i | 0 <= i < |c.networks| :: NetworkSurvives(c.networks[i]))
  {
    hide SavedAs, OrdersOk, LoadNetwork, Sound, NetworkSurvives, Present;
    var network: nat -> Loaded<Option<Network>> := NetworkLoader(env, f);
    forall i: nat | i < |c.networks| ensures network(i) != Ok(None) {
      NetworkFound(env, f, c, o, i);
    }
    PresentEach(network, c.networks, |c.networks|, 0, NETWORKS_MAX);
    forall i | 0 <= i < |c.networks| ensures NetworkSurvives(c.networks[i]) {
      assert network(0 + i) == Ok(Some(c.networks[i]));
      NetworkMustSurvive(env, f, c, o, i);
    }
  }

  lemma MountsMustSurvive(env: Environment, f: Groups, c: Config, o: Orders)
    requires OrdersOk(c, o) && SavedAs(f, c, o) && Typed(env, c)
    requires LoadMounts(env, f) == Ok(c.mounts)
    ensures |c.mounts| <= LISTS_MAX && (forall i | 0 <= i < |c.mounts| :: MountSurvives(c.mounts[i]))
  {
    var mount: nat -> Loaded<Option<Mount>> := MountLoader(env, f);
    forall i: nat | i < |c.mounts| ensures mount(i) != Ok(None) {
      MountGroupBack(env, f, c, o, i);
    }
    hide SavedAs, OrdersOk, LoadMount, MountSurvives, Present, Typed;
    PresentEach(mount, c.mounts, |c.mounts|, 0, LISTS_MAX);
    forall i | 0 <= i < |c.mounts| ensures MountSurvives(c.mounts[i]) {
      assert mount(0 + i) == Ok(Some(c.mounts[i]));
      MountMustSurvive(env, f, c, o, i);
    }
  }

  lemma RestMustSurvive(env: Environment, f: Groups, c: Config, o: Orders, envs: seq<(string, string)>)
    requires OrdersOk(c, o) && SavedAs(f, c, o) && Typed(env, c)
    requires LoadEnvs(f) == Ok(envs) && AddEnvs(map[], envs) == c.envs
    requires LoadDisks(env, f) == Ok(c.disks)
    requires LoadCommand(f) == Ok(c.command)
    ensures |c.envs| <= LISTS_MAX && |c.disks| <= LISTS_MAX && 1 <= |c.command| <= LISTS_MAX
  {
    ArgBack(f, c, o, 0);
    AddEnvsSize(map[], envs);
    var loadEnv: nat -> Loaded<Option<(string, string)>> := EnvLoader(f);
    var disk: nat -> Loaded<Option<Disk>> := DiskLoader(env, f);
    var arg: nat -> Loaded<Option<string>> := ArgLoader(f);
    hide SavedAs, OrdersOk, LoadEnv, LoadDisk, LoadArg, Typed, Present, AddEnvs;
    PresentEach(loadEnv, envs, 0, 0, LISTS_MAX);
    PresentEach(disk, c.disks, 0, 0, LISTS_MAX);
    LeadingEach(arg, c.command, 0, LISTS_MAX);
    assert arg(0) == LoadArg(f, 0);
  }

  /**
    * Loading a saved configuration into a new object gives the configuration
    * back if and only if it survives: within the bounds of the loaders, with a
    * command, without filter references, with a source for every include, and
    * with sizes that a gint can carry.
    */
  lemma RoundTrip(env: Environment, f: Groups, c: Config, o: Orders, start: Config)
    requires Sound(env, c) && Typed(env, c) && OrdersOk(c, o) && SavedAs(f, c, o) && New(start)
    ensures Load(env, f, start) == Ok(c) <==> Survives(c)
  {
    hide Load, New, LoadNetworks, LoadMounts, LoadEnvs, LoadDisks, LoadCommand, AddEnvs, NetworkSurvives, MountSurvives,
      Typed, Sound, OrdersOk, SavedAs;
    LoadedIs(env, f, c, o, start);
    if Survives(c) {
      ListsBack(env, f, c, o);
      EnvsLoad(f, c, o);
      DisksLoad(env, f, c, o);
      CommandLoads(f, c, o);
    } else if Load(env, f, start) == Ok(c) {
      NetworksMustSurvive(env, f, c, o);
      MountsMustSurvive(env, f, c, o);
      RestMustSurvive(env, f, c, o, LoadEnvs(f).value);
    }
  }

  /** And so does the loader that first looks which class it is. */
  lemma FileRoundTrip(env: Environment, f: Groups, c: Config, o: Orders, start: Config)
    requires Sound(env, c) && Typed(env, c) && OrdersOk(c, o) && SavedAs(f, c, o) && New(start)
    ensures LoadKeyFile(env, f, start) == Ok(InteractiveConfig(c)) <==> Survives(c)
  {
    ApiIs(f, c, o);
    RoundTrip(env, f, c, o, start);
    hide Load, New, Typed, Sound, OrdersOk, SavedAs, Survives;
  }

  /** It is given back if and only if its lists are. */
  lemma LoadedIs(env: Environment, f: Groups, c: Config, o: Orders, start: Config)
    requires OrdersOk(c, o) && SavedAs(f, c, o) && New(start)
    ensures Load(env, f, start) == Ok(c) <==>
            && LoadNetworks(env, f) == Ok(c.networks) && LoadMounts(env, f) == Ok(c.mounts)
            && LoadEnvs(f).Ok? && AddEnvs(map[], LoadEnvs(f).value) == c.envs
            && LoadDisks(env, f) == Ok(c.disks) && LoadCommand(f) == Ok(c.command)
  {
    ScalarsBack(f, c, o, start);
    LoadIs(env, f, start);
    hide Load, SavedAs, OrdersOk, LoadScalars, LoadNetworks, LoadMounts, LoadEnvs, LoadDisks, LoadCommand, AddEnvs,
      WithLists, New;
    if AllLoad(env, f) {
      Relisted(c, LoadScalars(f, start), LoadNetworks(env, f).value, LoadMounts(env, f).value,
               AddEnvs(map[], LoadEnvs(f).value), LoadDisks(env, f).value, LoadCommand(f).value);
    }
  }

  ghost predicate AllLoad(env: Environment, f: Groups) {
    LoadNetworks(env, f).Ok? && LoadMounts(env, f).Ok? && LoadEnvs(f).Ok? && LoadDisks(env, f).Ok? && LoadCommand(f).Ok?
  }

  lemma LoadIs(env: Environment, f: Groups, start: Config)
    requires New(start)
    ensures !AllLoad(env, f) ==> Load(env, f, start).Err?
    ensures AllLoad(env, f) ==>
              Load(env, f, start) ==
              Ok(WithLists(LoadScalars(f, start), LoadNetworks(env, f).value, LoadMounts(env, f).value,
                           AddEnvs(map[], LoadEnvs(f).value), LoadDisks(env, f).value, LoadCommand(f).value))
  {
    hide LoadScalars, LoadNetworks, LoadMounts, LoadEnvs, LoadDisks, LoadCommand, AddEnvs, WithLists;
    if AllLoad(env, f) {
      assert start.networks + LoadNetworks(env, f).value == LoadNetworks(env, f).value;
      assert start.mounts + LoadMounts(env, f).value == LoadMounts(env, f).value;
      assert start.disks + LoadDisks(env, f).value == LoadDisks(env, f).value;
    }
  }

  lemma Relisted(c: Config, s: Config, networks: seq<Network>, mounts: seq<Mount>, envs: map<string, string>,
                 disks: seq<Disk>, command: seq<string>)
    requires s == c.(networks := s.networks, mounts := s.mounts, envs := s.envs, disks := s.disks, command := s.command)
    ensures WithLists(s, networks, mounts, envs, disks, command) == c <==>
            c.networks == networks && c.mounts == mounts && c.envs == envs && c.disks == disks && c.command == command
  {
  }
}
