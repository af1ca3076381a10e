/** What loading makes of key files in which something is missing. */
module ConfigDefaults {
  import opened Options
  import opened ConfigTypes
  import opened KeyFiles
  import opened ConfigLoad

  predicate Has(f: Groups, group: string, key: string) {
    group in f && key in f[group]
  }

  /** A network without "dhcp" has DHCP; without its group there is no network; other keys that are missing are NULL. */
  lemma MissingInNetwork(env: Environment, f: Groups, i: nat)
    ensures var group := GroupName(NetworkRecord(i));
            var n := LoadNetwork(env, f, i);
            && (group !in f ==> n == Ok(None))
            && (n.Ok? && group in f ==> n.value.Some?)
            && (n.Ok? && n.value.Some? && !Has(f, group, "dhcp") ==> n.value.value.dhcp)
            && (n.Ok? && n.value.Some? && Has(f, group, "dhcp") ==>
                  (n.value.value.dhcp <==> f[group]["dhcp"] !in {"false", "0"}))
            && (n.Ok? && n.value.Some? ==>
                  && n.value.value.source == (if Has(f, group, "source") then Some(f[group]["source"]) else None)
                  && n.value.value.mac == (if Has(f, group, "mac") then Some(f[group]["mac"]) else None)
                  && n.value.value.filterref.None?)
  {
    hide GroupName, LoadAddresses, LoadRoutes;
  }

  /** A setting that is not in the file keeps its default, except for the security label, which is then NULL. */
  lemma MissingKeepsDefault(f: Groups, c: Config)
    ensures var s := LoadScalars(f, c);
            && s.name == (if Has(f, "core", "name") then f["core"]["name"] else c.name)
            && s.root == (if Has(f, "core", "root") then f["core"]["root"] else c.root)
            && s.arch == (if Has(f, "core", "arch") then f["core"]["arch"] else c.arch)
            && s.uuid == (if Has(f, "core", "uuid") then Some(f["core"]["uuid"]) else c.uuid)
            && s.kernrelease ==
               (if Has(f, "core", "kernrelease") then Some(f["core"]["kernrelease"]) else c.kernrelease)
            && s.kernpath == (if Has(f, "core", "kernpath") then Some(f["core"]["kernpath"]) else c.kernpath)
            && s.kmodpath == (if Has(f, "core", "kmodpath") then Some(f["core"]["kmodpath"]) else c.kmodpath)
            && s.username == (if Has(f, "identity", "username") then f["identity"]["username"] else c.username)
            && s.homedir == (if Has(f, "identity", "homedir") then f["identity"]["homedir"] else c.homedir)
            && s.secLabel == (if Has(f, "security", "label") then Some(f["security"]["label"]) else None)
    ensures var s := LoadScalars(f, c);
            && (!Has(f, "identity", "uid") ==> s.uid == c.uid) && (!Has(f, "identity", "gid") ==> s.gid == c.gid)
            && (!Has(f, "core", "shell") ==> s.shell == c.shell) && (!Has(f, "core", "debug") ==> s.debug == c.debug)
            && (!Has(f, "core", "verbose") ==> s.verbose == c.verbose)
            && (!Has(f, "security", "dynamic") ==> s.secDynamic == c.secDynamic)
            && (!Has(f, "interactive", "tty") ==> s.tty == c.tty)
  {
  }

  /** These are the indices of the records that there are, in order, and these the records. */
  ghost predicate Found<T>(load: nat -> Loaded<Option<T>>, j: nat, limit: nat, at: seq<nat>, xs: seq<T>) {
    && |at| == |xs|
    && (forall k | 0 <= k < |at| :: j <= at[k] < limit && load(at[k]) == Ok(Some(xs[k])))
    && (forall k, l | 0 <= k < l < |at| :: at[k] < at[l])
    && (forall i: nat | j <= i < limit && i !in at :: load(i) == Ok(None))
  }

  /** A gap is skipped: what is loaded is every record that there is below the limit, in order. */
  lemma {:induction false} GapsAreSkipped<T>(load: nat -> Loaded<Option<T>>, j: nat, limit: nat) returns (at: seq<nat>)
    requires Present(load, j, limit).Ok?
    ensures Found(load, j, limit, at, Present(load, j, limit).value)
    decreases limit - j
  {
    if j >= limit {
      at := [];
    } else {
      at := GapsAreSkipped(load, j + 1, limit);
      if load(j).value.Some? {
        var xs := Present(load, j + 1, limit).value;
        var all := [j] + at;
        assert Present(load, j, limit).value == [load(j).value.value] + xs;
        FoundMore(load, j, limit, at, xs);
        at := all;
      }
    }
  }

  lemma FoundMore<T>(load: nat -> Loaded<Option<T>>, j: nat, limit: nat, at: seq<nat>, xs: seq<T>)
    requires Found(load, j + 1, limit, at, xs) && j < limit && load(j).Ok? && load(j).value.Some?
    ensures Found(load, j, limit, [j] + at, [load(j).value.value] + xs)
  {
    var all, ys := [j] + at, [load(j).value.value] + xs;
    forall k | 0 <= k < |all| ensures j <= all[k] < limit && load(all[k]) == Ok(Some(ys[k])) {
      if k > 0 {
        assert all[k] == at[k - 1] && ys[k] == xs[k - 1];
      }
    }
    forall i: nat | j <= i < limit && i !in all ensures load(i) == Ok(None) {
      assert all[0] == j;
    }
  }

  /** In a key file: the mounts that there are, whatever numbers they have. */
  lemma MountsFound(env: Environment, f: Groups) returns (at: seq<nat>)
    requires LoadMounts(env, f).Ok?
    ensures Found((i: nat) => LoadMount(env, f, i), 0, LISTS_MAX, at, LoadMounts(env, f).value)
  {
    hide LoadMount;
    at := GapsAreSkipped(MountLoader(env, f), 0, LISTS_MAX);
  }
}
