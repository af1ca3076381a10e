/**
  * The key file: groups of keys, the names of the groups that a configuration
  * is saved in, and the readers of values.
  */
module KeyFiles {
  import opened Options
  import opened Text
  import opened ConfigTypes

  type Group = map<string, string>
  type Groups = map<string, Group>

  datatype KeyError = GroupNotFound | KeyNotFound | InvalidValue

  /** g_key_file_get_string */
  function GetString(f: Groups, group: string, key: string): Result<string, KeyError> {
    if group !in f then Err(GroupNotFound)
    else if key !in f[group] then Err(KeyNotFound)
    else Ok(f[group][key])
  }

  /** The same, without asking for the reason. */
  function Lookup(f: Groups, group: string, key: string): Option<string> {
    var r := GetString(f, group, key);
    if r.Ok? then Some(r.value) else None
  }

  function BoolText(b: bool): string {
    if b then "true" else "false"
  }

  /** g_key_file_get_boolean */
  function GetBoolean(f: Groups, group: string, key: string): Result<bool, KeyError> {
    var r := GetString(f, group, key);
    if r.Err? then Err(r.error)
    else if r.value in {"true", "1"} then Ok(true)
    else if r.value in {"false", "0"} then Ok(false)
    else Err(InvalidValue)
  }

  /** g_key_file_get_uint64, of digits. */
  function GetUint64(f: Groups, group: string, key: string): Result<uint64, KeyError> {
    var r := GetString(f, group, key);
    if r.Err? then Err(r.error)
    else if r.value == [] || !Digits(r.value) || Value(r.value) >= 0x1_0000_0000_0000_0000 then Err(InvalidValue)
    else Ok(Value(r.value))
  }

  /** A key file as an object. */
  class KeyFile {
    var groups: Groups

    constructor ()
      ensures groups == map[]
    {
      groups := map[];
    }

    /** g_key_file_set_string */
    method SetString(group: string, key: string, value: string)
      modifies this
      ensures groups == Put(old(groups), group, key, value)
    {
      var keys := if group in groups then groups[group] else map[];
      groups := groups[group := keys[key := value]];
    }

    method SetBoolean(group: string, key: string, value: bool)
      modifies this
      ensures groups == Put(old(groups), group, key, BoolText(value))
    {
      SetString(group, key, if value then "true" else "false");
    }

    method SetUint64(group: string, key: string, value: uint64)
      modifies this
      ensures groups == Put(old(groups), group, key, Decimal(value))
    {
      SetString(group, key, Decimal(value));
    }
  }

  function Put(f: Groups, group: string, key: string, value: string): Groups {
    f[group := (if group in f then f[group] else map[])[key := value]]
  }

  // The groups of a saved configuration.

  datatype Record =
    | Api
    | Core
    | Identity
    | Security
    | Interactive
    | Command
    | NetworkRecord(i: nat)
    | AddressRecord(i: nat, j: nat)
    | RouteRecord(i: nat, j: nat)
    | MountRecord(i: nat)
    | IncludeRecord(i: nat, j: nat)
    | EnvRecord(i: nat)
    | DiskRecord(i: nat)

  function GroupName(r: Record): string {
    match r
    case Api => "api"
    case Core => "core"
    case Identity => "identity"
    case Security => "security"
    case Interactive => "interactive"
    case Command => "command"
    case NetworkRecord(i) => "network." + Decimal(i)
    case AddressRecord(i, j) => "network." + Decimal(i) + ".address." + Decimal(j)
    case RouteRecord(i, j) => "network." + Decimal(i) + ".route." + Decimal(j)
    case MountRecord(i) => "mount." + Decimal(i)
    case IncludeRecord(i, j) => "mount." + Decimal(i) + ".include." + Decimal(j)
    case EnvRecord(i) => "env." + Decimal(i)
    case DiskRecord(i) => "disk." + Decimal(i)
  }

  /** The parts of a name between its dots tell the records apart. */
  function Parts(r: Record): seq<string> {
    match r
    case Api => ["api"]
    case Core => ["core"]
    case Identity => ["identity"]
    case Security => ["security"]
    case Interactive => ["interactive"]
    case Command => ["command"]
    case NetworkRecord(i) => ["network", Decimal(i)]
    case AddressRecord(i, j) => ["network", Decimal(i), "address", Decimal(j)]
    case RouteRecord(i, j) => ["network", Decimal(i), "route", Decimal(j)]
    case MountRecord(i) => ["mount", Decimal(i)]
    case IncludeRecord(i, j) => ["mount", Decimal(i), "include", Decimal(j)]
    case EnvRecord(i) => ["env", Decimal(i)]
    case DiskRecord(i) => ["disk", Decimal(i)]
  }

  lemma FieldsTwo(kind: string, i: nat)
    requires HasNo(kind, '.')
    ensures Fields(kind + "." + Decimal(i)) == [kind, Decimal(i)]
  {
    FieldsOne(Decimal(i));
    FieldsMore(kind, Decimal(i));
  }

  lemma FieldsFour(kind: string, i: nat, sub: string, j: nat)
    requires HasNo(kind, '.') && HasNo(sub, '.')
    ensures Fields(kind + "." + (Decimal(i) + "." + (sub + "." + Decimal(j)))) == [kind, Decimal(i), sub, Decimal(j)]
  {
    FieldsTwo(sub, j);
    FieldsMore(Decimal(i), sub + "." + Decimal(j));
    FieldsMore(kind, Decimal(i) + "." + (sub + "." + Decimal(j)));
  }

  lemma DottedPair(prefix: string, kind: string, i: nat)
    requires prefix == kind + "." && HasNo(kind, '.')
    ensures Fields(prefix + Decimal(i)) == [kind, Decimal(i)]
  {
    FieldsTwo(kind, i);
  }

  lemma DottedQuad(prefix: string, kind: string, i: nat, infix: string, sub: string, j: nat)
    requires prefix == kind + "." && infix == "." + sub + "." && HasNo(kind, '.') && HasNo(sub, '.')
    ensures Fields(prefix + Decimal(i) + infix + Decimal(j)) == [kind, Decimal(i), sub, Decimal(j)]
  {
    hide Decimal, Fields;
    FieldsFour(kind, i, sub, j);
    var m, n := Decimal(i), Decimal(j);
    assert prefix + m + infix + n == kind + "." + (m + "." + (sub + "." + n));
  }

  lemma NameParts(r: Record)
    ensures Fields(GroupName(r)) == Parts(r)
  {
    hide Decimal, Fields;
    match r
    case NetworkRecord(i) => DottedPair("network.", "network", i);
    case MountRecord(i) => DottedPair("mount.", "mount", i);
    case EnvRecord(i) => DottedPair("env.", "env", i);
    case DiskRecord(i) => DottedPair("disk.", "disk", i);
    case AddressRecord(i, j) => DottedQuad("network.", "network", i, ".address.", "address", j);
    case RouteRecord(i, j) => DottedQuad("network.", "network", i, ".route.", "route", j);
    case IncludeRecord(i, j) => DottedQuad("mount.", "mount", i, ".include.", "include", j);
    case Api => FieldsOne("api");
    case Core => FieldsOne("core");
    case Identity => FieldsOne("identity");
    case Security => FieldsOne("security");
    case Interactive => FieldsOne("interactive");
    case Command => FieldsOne("command");
  }

  /** No two records of any kind or index share a group. */
  lemma GroupNamesDiffer(r: Record, s: Record)
    ensures GroupName(r) == GroupName(s) ==> r == s
  {
    NameParts(r);
    NameParts(s);
    if GroupName(r) == GroupName(s) {
      assert Parts(r) == Parts(s);
      PartsDiffer(r, s);
    }
  }

  lemma PartsDiffer(r: Record, s: Record)
    requires Parts(r) == Parts(s)
    ensures r == s
  {
    hide Decimal;
    assert |Parts(r)| == |Parts(s)| && Parts(r)[0] == Parts(s)[0];
    if |Parts(r)| >= 2 {
      assert Parts(r)[1] == Parts(s)[1];
      DecimalInjective(r.i, s.i);
      if |Parts(r)| == 4 {
        assert Parts(r)[2] == Parts(s)[2] && Parts(r)[3] == Parts(s)[3];
        DecimalInjective(r.j, s.j);
      }
    }
  }
}
