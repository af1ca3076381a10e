/**
  * The network option string: how it is split, what each parameter means, and
  * which strings are accepted.
  */
module NetworkOptions {
  import opened Options
  import opened Text
  import opened ConfigTypes

  type Parser = string -> Option<Inet>

  const PARAMS_MAX := 50

  /** g_strsplit of a string that is not empty, into at most n pieces. */
  function Pieces(s: string, n: nat): (p: seq<string>)
    ensures p != [] && (n > 0 ==> |p| <= n)
    decreases |s|
  {
    var k := Find(s, ',');
    if n <= 1 || k == |s| then [s] else [s[..k]] + Pieces(s[k + 1..], n - 1)
  }

  function Params(s: string): seq<string> {
    if s == "" then [] else Pieces(s, PARAMS_MAX)
  }

  function Join(p: seq<string>): string {
    if p == [] then "" else if |p| == 1 then p[0] else p[0] + "," + Join(p[1..])
  }

  /** Nothing is lost by splitting, and only the last of the most pieces can hold a comma. */
  lemma {:induction false} PiecesJoin(s: string, n: nat)
    requires n > 0
    ensures Join(Pieces(s, n)) == s
    ensures forall i | 0 <= i < |Pieces(s, n)| && i < n - 1 :: HasNo(Pieces(s, n)[i], ',')
    decreases |s|
  {
    var k := Find(s, ',');
    var p := Pieces(s, n);
    if n > 1 && k < |s| {
      PiecesJoin(s[k + 1..], n - 1);
      assert p[1..] == Pieces(s[k + 1..], n - 1);
      assert s == s[..k] + "," + s[k + 1..];
    } else if n > 1 {
      assert s[..k] == s;
    }
  }

  lemma ParamsJoin(s: string)
    ensures Join(Params(s)) == s && |Params(s)| <= PARAMS_MAX
    ensures forall i | 0 <= i < |Params(s)| && i < PARAMS_MAX - 1 :: HasNo(Params(s)[i], ',')
  {
    if s != "" {
      PiecesJoin(s, PARAMS_MAX);
    }
  }

  // One parameter.

  datatype Param =
    | Dhcp
    | Source(name: string)
    | Mac(mac: string)
    | FilterSetting(text: string)
    | FilterName(filter: string)
    | AddressText(address: string)
    | RouteText(route: string)
    | Unknown

  function Classify(p: string): Param {
    if p == "dhcp" then Dhcp
    else if "source=" <= p then Source(p[7..])
    else if "mac=" <= p then Mac(p[4..])
    else if "filter." <= p then FilterSetting(p[7..])
    else if "filter=" <= p then FilterName(p[7..])
    else if "address=" <= p then AddressText(p[8..])
    else if "route=" <= p then RouteText(p[6..])
    else Unknown
  }

  /** g_ascii_strtoll of digits, stored in a guint. */
  function PrefixLength(text: string): uint32 {
    var v := Value(LeadingDigits(text));
    (if v < 0x8000_0000_0000_0000 then v else 0x7fff_ffff_ffff_ffff) % 0x1_0000_0000
  }

  /** The text up to '/' or '%', the prefix length (24 unless given), and the text after '%'. */
  datatype Cidr = Cidr(head: string, prefix: uint32, tail: Option<string>)

  function ParseCidr(text: string): Cidr {
    var slash := Find(text, '/');
    var head := text[..slash];
    if slash < |text| then
      var rest := text[slash + 1..];
      var percent := Find(rest, '%');
      Cidr(head, PrefixLength(rest), if percent < |rest| then Some(rest[percent + 1..]) else None)
    else
      var percent := Find(text, '%');
      Cidr(text[..percent], 24, if percent < |text| then Some(text[percent + 1..]) else None)
  }

  function ParseAddress(parse: Parser, text: string): Option<Address> {
    var c := ParseCidr(text);
    var primary := parse(c.head);
    if primary.None? then None
    else if c.tail.None? then Some(Address(primary, c.prefix, None))
    else if parse(c.tail.value).None? then None
    else Some(Address(primary, c.prefix, parse(c.tail.value)))
  }

  function ParseRoute(parse: Parser, text: string): Option<Route> {
    var c := ParseCidr(text);
    if c.tail.None? || parse(c.head).None? || parse(c.tail.value).None? then None
    else Some(Route(parse(c.head), c.prefix, parse(c.tail.value)))
  }

  /** g_strrstr of one character, or -1. */
  function FindLast(s: string, c: char): (n: int)
    ensures -1 <= n < |s| && (n >= 0 ==> s[n] == c)
    ensures forall k | n < k < |s| :: s[k] != c
  {
    if s == [] then -1
    else if s[|s| - 1] == c then |s| - 1
    else FindLast(s[..|s| - 1], c)
  }

  /** g_ascii_strup */
  function Upper(s: string): (u: string)
    ensures |u| == |s|
  {
    if s == [] then []
    else [if 'a' <= s[0] <= 'z' then (s[0] as int - 32) as char else s[0]] + Upper(s[1..])
  }

  function ParseFilterSetting(text: string): Option<FilterParameter> {
    var n := FindLast(text, '=');
    if n < 0 then None else Some(FilterParameter(Upper(text[..n]), text[n + 1..]))
  }

  predicate WellFormed(parse: Parser, p: string) {
    match Classify(p)
    case FilterSetting(text) => ParseFilterSetting(text).Some?
    case AddressText(text) => ParseAddress(parse, text).Some?
    case RouteText(text) => ParseRoute(parse, text).Some?
    case Unknown => false
    case _ => true
  }

  // All of them.

  predicate HasDhcp(ps: seq<string>) {
    exists i | 0 <= i < |ps| :: Classify(ps[i]).Dhcp?
  }

  predicate HasAddress(ps: seq<string>) {
    exists i | 0 <= i < |ps| :: Classify(ps[i]).AddressText?
  }

  predicate HasRoute(ps: seq<string>) {
    exists i | 0 <= i < |ps| :: Classify(ps[i]).RouteText?
  }

  predicate AllWellFormed(parse: Parser, ps: seq<string>) {
    forall i | 0 <= i < |ps| :: WellFormed(parse, ps[i])
  }

  /** Which parameters are accepted: neither their order nor their number matters. */
  predicate Accepts(parse: Parser, ps: seq<string>) {
    && AllWellFormed(parse, ps)
    && !(HasDhcp(ps) && (HasAddress(ps) || HasRoute(ps)))
    && (HasRoute(ps) ==> HasAddress(ps))
  }

  function Addresses(parse: Parser, ps: seq<string>): seq<Address> {
    if ps == [] then []
    else
      var front := Addresses(parse, ps[..|ps| - 1]);
      var p := Classify(ps[|ps| - 1]);
      if p.AddressText? && ParseAddress(parse, p.address).Some?
      then front + [ParseAddress(parse, p.address).value] else front
  }

  function Routes(parse: Parser, ps: seq<string>): seq<Route> {
    if ps == [] then []
    else
      var front := Routes(parse, ps[..|ps| - 1]);
      var p := Classify(ps[|ps| - 1]);
      if p.RouteText? && ParseRoute(parse, p.route).Some? then front + [ParseRoute(parse, p.route).value] else front
  }

  function Settings(ps: seq<string>): seq<FilterParameter> {
    if ps == [] then []
    else
      var front := Settings(ps[..|ps| - 1]);
      var p := Classify(ps[|ps| - 1]);
      if p.FilterSetting? && ParseFilterSetting(p.text).Some? then front + [ParseFilterSetting(p.text).value] else front
  }

  /** The last one of a kind counts. */
  function LastSource(ps: seq<string>): Option<string> {
    if ps == [] then None
    else
      var p := Classify(ps[|ps| - 1]);
      if p.Source? then Some(p.name) else LastSource(ps[..|ps| - 1])
  }

  function LastMac(ps: seq<string>): Option<string> {
    if ps == [] then None
    else
      var p := Classify(ps[|ps| - 1]);
      if p.Mac? then Some(p.mac) else LastMac(ps[..|ps| - 1])
  }

  function LastFilter(ps: seq<string>): Option<string> {
    if ps == [] then None
    else
      var p := Classify(ps[|ps| - 1]);
      if p.FilterName? then Some(p.filter) else LastFilter(ps[..|ps| - 1])
  }

  /** The network that accepted parameters describe. */
  function NetworkOf(parse: Parser, ps: seq<string>): Network {
    Network(HasDhcp(ps), LastSource(ps), LastMac(ps), Addresses(parse, ps), Routes(parse, ps),
            if LastFilter(ps).Some? then Some(Filterref(LastFilter(ps).value, Settings(ps))) else None)
  }

  lemma {:induction false} AddressesAppend(parse: Parser, a: seq<string>, b: seq<string>)
    ensures Addresses(parse, a + b) == Addresses(parse, a) + Addresses(parse, b)
  {
    hide Classify, ParseAddress, ParseRoute;
    if b == [] {
      assert a + b == a;
    } else {
      AddressesAppend(parse, a, b[..|b| - 1]);
      assert (a + b)[..|a + b| - 1] == a + b[..|b| - 1];
    }
  }

  lemma {:induction false} RoutesAppend(parse: Parser, a: seq<string>, b: seq<string>)
    ensures Routes(parse, a + b) == Routes(parse, a) + Routes(parse, b)
  {
    hide Classify, ParseAddress, ParseRoute;
    if b == [] {
      assert a + b == a;
    } else {
      RoutesAppend(parse, a, b[..|b| - 1]);
      assert (a + b)[..|a + b| - 1] == a + b[..|b| - 1];
    }
  }

  lemma {:induction false} HaveSome(parse: Parser, ps: seq<string>)
    requires AllWellFormed(parse, ps)
    ensures HasAddress(ps) <==> Addresses(parse, ps) != []
    ensures HasRoute(ps) <==> Routes(parse, ps) != []
  {
    if ps != [] {
      var front := ps[..|ps| - 1];
      HaveSome(parse, front);
      assert WellFormed(parse, ps[|ps| - 1]);
      forall i | 0 <= i < |front| ensures front[i] == ps[i] {
      }
      HasOne(ps);
    }
  }

  lemma HasOne(ps: seq<string>)
    requires ps != []
    ensures var front, p := ps[..|ps| - 1], Classify(ps[|ps| - 1]);
            && (HasAddress(ps) <==> HasAddress(front) || p.AddressText?)
            && (HasRoute(ps) <==> HasRoute(front) || p.RouteText?)
            && (HasDhcp(ps) <==> HasDhcp(front) || p.Dhcp?)
  {
    hide Classify;
    var front := ps[..|ps| - 1];
    forall i | 0 <= i < |ps| ensures ps[i] == if i < |front| then front[i] else ps[|ps| - 1] {
    }
    if HasAddress(front) {
      var i :| 0 <= i < |front| && Classify(front[i]).AddressText?;
      assert Classify(ps[i]).AddressText?;
    }
    if HasRoute(front) {
      var i :| 0 <= i < |front| && Classify(front[i]).RouteText?;
      assert Classify(ps[i]).RouteText?;
    }
    if HasDhcp(front) {
      var i :| 0 <= i < |front| && Classify(front[i]).Dhcp?;
      assert Classify(ps[i]).Dhcp?;
    }
  }

  /**
    * What an accepted option string means: DHCP if and only if it says so, and
    * then no addresses and no routes; routes only with addresses; addresses and
    * routes in the order in which they are given.
    */
  lemma AcceptedMeans(parse: Parser, ps: seq<string>)
    requires Accepts(parse, ps)
    ensures var n := NetworkOf(parse, ps);
            && (n.dhcp <==> "dhcp" in ps)
            && (n.dhcp ==> n.addresses == [] && n.routes == [])
            && (n.routes != [] ==> n.addresses != [])
            && (forall k | 0 <= k <= |ps| ::
                  n.addresses == Addresses(parse, ps[..k]) + Addresses(parse, ps[k..]) &&
                  n.routes == Routes(parse, ps[..k]) + Routes(parse, ps[k..]))
  {
    HaveSome(parse, ps);
    forall k | 0 <= k <= |ps|
      ensures Addresses(parse, ps) == Addresses(parse, ps[..k]) + Addresses(parse, ps[k..])
      ensures Routes(parse, ps) == Routes(parse, ps[..k]) + Routes(parse, ps[k..])
    {
      assert ps == ps[..k] + ps[k..];
      AddressesAppend(parse, ps[..k], ps[k..]);
      RoutesAppend(parse, ps[..k], ps[k..]);
    }
    DhcpIs(ps);
  }

  lemma DhcpIs(ps: seq<string>)
    ensures HasDhcp(ps) <==> "dhcp" in ps
  {
    if "dhcp" in ps {
      var i :| 0 <= i < |ps| && ps[i] == "dhcp";
      assert Classify(ps[i]).Dhcp?;
    }
  }

  /** The order of the parameters does not decide whether they are accepted. */
  lemma OrderIsFree(parse: Parser, ps: seq<string>, qs: seq<string>)
    requires multiset(ps) == multiset(qs)
    ensures Accepts(parse, ps) <==> Accepts(parse, qs)
  {
    hide Classify, WellFormed;
    AcceptsSubset(parse, ps, qs);
    AcceptsSubset(parse, qs, ps);
  }

  lemma AcceptsSubset(parse: Parser, ps: seq<string>, qs: seq<string>)
    requires multiset(ps) == multiset(qs)
    ensures HasDhcp(qs) ==> HasDhcp(ps)
    ensures HasAddress(qs) ==> HasAddress(ps)
    ensures HasRoute(qs) ==> HasRoute(ps)
    ensures AllWellFormed(parse, ps) ==> AllWellFormed(parse, qs)
  {
    hide Classify, WellFormed;
    forall i | 0 <= i < |qs| ensures qs[i] in ps {
      assert qs[i] in multiset(qs);
    }
  }

  // One more parameter.

  /** What the loop has gathered. */
  datatype Gathered = Gathered(net: Network, filterName: Option<string>, settings: seq<FilterParameter>)

  ghost predicate Gathers(parse: Parser, ps: seq<string>, g: Gathered) {
    && g.net == NetworkOf(parse, ps).(filterref := None)
    && g.filterName == LastFilter(ps) && g.settings == Settings(ps)
  }

  function Gather(parse: Parser, g: Gathered, p: Param): Gathered
    requires p.FilterSetting? ==> ParseFilterSetting(p.text).Some?
    requires p.AddressText? ==> ParseAddress(parse, p.address).Some?
    requires p.RouteText? ==> ParseRoute(parse, p.route).Some?
  {
    match p
    case Dhcp => g.(net := g.net.(dhcp := true))
    case Source(name) => g.(net := g.net.(source := Some(name)))
    case Mac(mac) => g.(net := g.net.(mac := Some(mac)))
    case FilterSetting(text) => g.(settings := g.settings + [ParseFilterSetting(text).value])
    case FilterName(filter) => g.(filterName := Some(filter))
    case AddressText(text) => g.(net := g.net.(addresses := g.net.addresses + [ParseAddress(parse, text).value]))
    case RouteText(text) => g.(net := g.net.(routes := g.net.routes + [ParseRoute(parse, text).value]))
    case Unknown => g
  }

  lemma GathersOne(parse: Parser, ps: seq<string>, g: Gathered)
    requires ps != [] && WellFormed(parse, ps[|ps| - 1]) && Gathers(parse, ps[..|ps| - 1], g)
    ensures Gathers(parse, ps, Gather(parse, g, Classify(ps[|ps| - 1])))
  {
    HasOne(ps);
    hide Classify, ParseAddress, ParseRoute, ParseFilterSetting, HasDhcp;
  }

  lemma GathersNone(parse: Parser)
    ensures Gathers(parse, [], Gathered(Network(false, None, None, [], [], None), None, []))
  {
  }

  lemma RefusesBad(parse: Parser, ps: seq<string>, j: nat)
    requires j < |ps| && !WellFormed(parse, ps[j])
    ensures !Accepts(parse, ps)
  {
  }
}
