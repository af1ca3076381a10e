/** What the parameters of a network option string say, text by text. */
module NetworkTexts {
  import opened Options
  import opened Text
  import opened ConfigTypes
  import opened NetworkOptions

  // Splitting.

  /** Parameters without commas, joined by commas, are split into the same parameters. */
  lemma {:induction false} PiecesOfJoin(ps: seq<string>, n: nat)
    requires 1 <= |ps| <= n && (forall i | 0 <= i < |ps| :: HasNo(ps[i], ','))
    ensures Pieces(Join(ps), n) == ps
    decreases |ps|
  {
    hide Find;
    var s := Join(ps);
    if |ps| == 1 {
      FindIs(ps[0], ',', "");
      assert ps == [s];
    } else {
      var rest := Join(ps[1..]);
      FindIs(ps[0], ',', rest);
      PiecesOfJoin(ps[1..], n - 1);
      hide HasNo, Join;
      assert s == ps[0] + "," + rest;
      assert s[..|ps[0]|] == ps[0] && s[|ps[0]| + 1..] == rest;
      assert ps == [ps[0]] + ps[1..];
    }
  }

  lemma ParamsOfJoin(ps: seq<string>)
    requires 1 <= |ps| <= PARAMS_MAX && (forall i | 0 <= i < |ps| :: HasNo(ps[i], ',')) && Join(ps) != ""
    ensures Params(Join(ps)) == ps
  {
    PiecesOfJoin(ps, PARAMS_MAX);
  }

  // Addresses and routes.

  /** An address or target, perhaps a prefix length, perhaps a broadcast address or gateway. */
  function CidrText(a: string, p: Option<string>, b: Option<string>): string {
    a + (if p.Some? then "/" + p.value else "") + (if b.Some? then "%" + b.value else "")
  }

  /** The parts can be told apart. */
  predicate CidrParts(a: string, p: Option<string>, b: Option<string>) {
    && HasNo(a, '/') && HasNo(a, '%')
    && (p.Some? ==> Digits(p.value) && Value(p.value) < 0x1_0000_0000)
    && (p.None? && b.Some? ==> HasNo(b.value, '/'))
  }

  lemma {:induction false} LeadingStops(p: string, c: char, rest: string)
    requires Digits(p) && !IsDigit(c)
    ensures LeadingDigits(p + [c] + rest) == p
  {
    var s := p + [c] + rest;
    if p != [] {
      LeadingStops(p[1..], c, rest);
      assert s[1..] == p[1..] + [c] + rest;
    }
  }

  lemma CidrIs(a: string, p: Option<string>, b: Option<string>)
    requires CidrParts(a, p, b)
    ensures ParseCidr(CidrText(a, p, b)) == Cidr(a, if p.Some? then Value(p.value) else 24, b)
  {
    var text := CidrText(a, p, b);
    if p.Some? {
      var tail := if b.Some? then "%" + b.value else "";
      var rest := p.value + tail;
      assert text == a + "/" + rest;
      FindIs(a, '/', rest);
      assert text[..|a|] == a && text[|a| + 1..] == rest;
      RestIs(p.value, b);
    } else {
      NoSlash(a, b);
      assert b.None? ==> text == a;
      if b.Some? {
        assert text == a + "%" + b.value;
        FindIs(a, '%', b.value);
        assert text[..|a|] == a && text[|a| + 1..] == b.value;
      } else {
        FindIs(a, '%', "");
        assert a[..|a|] == a;
      }
    }
  }

  lemma RestIs(p: string, b: Option<string>)
    requires Digits(p) && Value(p) < 0x1_0000_0000
    ensures var rest := p + if b.Some? then "%" + b.value else "";
            && PrefixLength(rest) == Value(p)
            && Find(rest, '%') == |p| && (b.Some? <==> |p| < |rest|)
            && (b.Some? ==> rest[|p| + 1..] == b.value)
  {
    assert HasNo(p, '%');
    hide Digits, Value, HasNo, LeadingDigits, Find;
    if b.Some? {
      var rest := p + "%" + b.value;
      assert p + ("%" + b.value) == rest && rest[|p| + 1..] == b.value;
      LeadingStops(p, '%', b.value);
      FindIs(p, '%', b.value);
    } else {
      assert p + "" == p;
      LeadingAll(p);
      FindIs(p, '%', "");
    }
  }

  lemma NoSlash(a: string, b: Option<string>)
    requires HasNo(a, '/') && (b.Some? ==> HasNo(b.value, '/'))
    ensures var text := CidrText(a, None, b); Find(text, '/') == |text|
  {
    var text := CidrText(a, None, b);
    assert HasNo(text, '/');
    FindIs(text, '/', "");
  }

  /** Exactly one parameter in the midst of others. */
  function Amid(before: seq<string>, p: string, after: seq<string>): seq<string> {
    before + [p] + after
  }

  lemma AmidIs(parse: Parser, before: seq<string>, p: string, after: seq<string>)
    ensures var ps := Amid(before, p, after);
            && Addresses(parse, ps) == Addresses(parse, before) + Addresses(parse, [p]) + Addresses(parse, after)
            && Routes(parse, ps) == Routes(parse, before) + Routes(parse, [p]) + Routes(parse, after)
            && Settings(ps) == Settings(before) + Settings([p]) + Settings(after)
  {
    hide Addresses, Routes, Settings;
    AddressesAppend(parse, before + [p], after);
    AddressesAppend(parse, before, [p]);
    RoutesAppend(parse, before + [p], after);
    RoutesAppend(parse, before, [p]);
    SettingsAppend(before + [p], after);
    SettingsAppend(before, [p]);
  }

  lemma {:induction false} SettingsAppend(a: seq<string>, b: seq<string>)
    ensures Settings(a + b) == Settings(a) + Settings(b)
  {
    hide Classify, ParseFilterSetting;
    if b == [] {
      assert a + b == a;
    } else {
      SettingsAppend(a, b[..|b| - 1]);
      assert (a + b)[..|a + b| - 1] == a + b[..|b| - 1];
    }
  }

  lemma ClassifyIs(text: string)
    ensures Classify("address=" + text) == AddressText(text) && Classify("route=" + text) == RouteText(text)
    ensures Classify("source=" + text) == Source(text) && Classify("mac=" + text) == Mac(text)
    ensures Classify("filter=" + text) == FilterName(text) && Classify("filter." + text) == FilterSetting(text)
  {
    var a, r := "address=" + text, "route=" + text;
    var s, m := "source=" + text, "mac=" + text;
    var f, g := "filter=" + text, "filter." + text;
    assert a[0] == 'a' && r[0] == 'r' && s[0] == 's' && m[0] == 'm' && f[0] == 'f' && g[0] == 'f';
    assert f[6] == '=' && g[6] == '.';
    assert a[8..] == text && r[6..] == text && s[7..] == text && m[4..] == text && f[7..] == text && g[7..] == text;
  }

  /**
    * "address=A/P%B": the primary address is A, the prefix length P, the
    * broadcast address B; without "%B" there is none, without "/P" it is 24.  It
    * is well formed if and only if A and B are addresses, and it adds exactly
    * this address, in its place.
    */
  lemma AddressGiven(parse: Parser, before: seq<string>, a: string, p: Option<string>, b: Option<string>,
                     after: seq<string>)
    requires CidrParts(a, p, b)
    ensures var param := "address=" + CidrText(a, p, b);
            WellFormed(parse, param) <==> parse(a).Some? && (b.Some? ==> parse(b.value).Some?)
    ensures var ps := Amid(before, "address=" + CidrText(a, p, b), after);
            var n := NetworkOf(parse, ps);
            Accepts(parse, ps) ==>
              && n.addresses ==
                 NetworkOf(parse, before).addresses
                 + [Address(parse(a), if p.Some? then Value(p.value) else 24, if b.Some? then parse(b.value) else None)]
                 + NetworkOf(parse, after).addresses
              && n.routes == NetworkOf(parse, before).routes + NetworkOf(parse, after).routes
  {
    var text := CidrText(a, p, b);
    var param := "address=" + text;
    AddressParsed(parse, a, p, b);
    ClassifyIs(text);
    hide ParseCidr, ParseAddress, Classify, CidrText, CidrParts, Amid, Accepts, Addresses, Routes;
    AmidIs(parse, before, param, after);
    AcceptedParam(parse, before, param, after);
    OneAddress(parse, param, text);
    var routes := Routes(parse, before);
    assert routes + [] == routes;
  }

  lemma AddressParsed(parse: Parser, a: string, p: Option<string>, b: Option<string>)
    requires CidrParts(a, p, b)
    ensures ParseAddress(parse, CidrText(a, p, b)) ==
            if parse(a).None? || (b.Some? && parse(b.value).None?) then None
            else Some(Address(parse(a), if p.Some? then Value(p.value) else 24,
                              if b.Some? then parse(b.value) else None))
  {
    CidrIs(a, p, b);
    hide ParseCidr, CidrText, CidrParts;
  }

  lemma AcceptedParam(parse: Parser, before: seq<string>, p: string, after: seq<string>)
    ensures Accepts(parse, Amid(before, p, after)) ==> WellFormed(parse, p)
  {
    hide WellFormed;
    assert Amid(before, p, after)[|before|] == p;
  }

  lemma OneAddress(parse: Parser, param: string, text: string)
    requires Classify(param) == AddressText(text)
    ensures Addresses(parse, [param]) ==
            if ParseAddress(parse, text).Some? then [ParseAddress(parse, text).value] else []
    ensures Routes(parse, [param]) == []
  {
    hide Classify, ParseAddress;
    assert [param][..0] == [];
    assert Addresses(parse, []) == [] && Routes(parse, []) == [];
  }

  /** "route=T/P%G": target, prefix length (24 without "/P") and gateway, which must be given. */
  lemma RouteGiven(parse: Parser, before: seq<string>, t: string, p: Option<string>, g: Option<string>,
                   after: seq<string>)
    requires CidrParts(t, p, g)
    ensures var param := "route=" + CidrText(t, p, g);
            WellFormed(parse, param) <==> parse(t).Some? && g.Some? && parse(g.value).Some?
    ensures var ps := Amid(before, "route=" + CidrText(t, p, g), after);
            var n := NetworkOf(parse, ps);
            Accepts(parse, ps) ==>
              && g.Some?
              && n.routes ==
                 NetworkOf(parse, before).routes
                 + [Route(parse(t), if p.Some? then Value(p.value) else 24, parse(g.value))]
                 + NetworkOf(parse, after).routes
              && n.addresses == NetworkOf(parse, before).addresses + NetworkOf(parse, after).addresses
  {
    var text := CidrText(t, p, g);
    var param := "route=" + text;
    RouteParsed(parse, t, p, g);
    ClassifyIs(text);
    hide ParseCidr, ParseRoute, Classify, CidrText, CidrParts, Amid, Accepts, Addresses, Routes;
    AmidIs(parse, before, param, after);
    AcceptedParam(parse, before, param, after);
    OneRoute(parse, param, text);
    var addresses := Addresses(parse, before);
    assert addresses + [] == addresses;
  }

  lemma RouteParsed(parse: Parser, t: string, p: Option<string>, g: Option<string>)
    requires CidrParts(t, p, g)
    ensures ParseRoute(parse, CidrText(t, p, g)) ==
            if g.None? || parse(t).None? || parse(g.value).None? then None
            else Some(Route(parse(t), if p.Some? then Value(p.value) else 24, parse(g.value)))
  {
    CidrIs(t, p, g);
    hide ParseCidr, CidrText, CidrParts;
  }

  lemma OneRoute(parse: Parser, param: string, text: string)
    requires Classify(param) == RouteText(text)
    ensures Routes(parse, [param]) == if ParseRoute(parse, text).Some? then [ParseRoute(parse, text).value] else []
    ensures Addresses(parse, [param]) == []
  {
    hide Classify, ParseRoute;
    assert [param][..0] == [];
    assert Addresses(parse, []) == [] && Routes(parse, []) == [];
  }

  // The others.

  /** Nothing of the kind follows. */
  predicate NoneStarts(ps: seq<string>, prefix: string) {
    forall i | 0 <= i < |ps| :: !(prefix <= ps[i])
  }

  lemma Kinds(p: string)
    ensures Classify(p).Source? ==> "source=" <= p
    ensures Classify(p).Mac? ==> "mac=" <= p
    ensures Classify(p).FilterName? ==> "filter=" <= p
    ensures Classify(p).AddressText? ==> "address=" <= p
    ensures Classify(p).RouteText? ==> "route=" <= p
    ensures Classify(p).FilterSetting? ==> "filter." <= p
  {
  }

  /** Later parameters of other kinds do not change what the last one of a kind said. */
  lemma {:induction false} LastsStay(ps: seq<string>, after: seq<string>)
    ensures NoneStarts(after, "source=") ==> LastSource(ps + after) == LastSource(ps)
    ensures NoneStarts(after, "mac=") ==> LastMac(ps + after) == LastMac(ps)
    ensures NoneStarts(after, "filter=") ==> LastFilter(ps + after) == LastFilter(ps)
  {
    if after == [] {
      assert ps + after == ps;
    } else {
      var front, last := after[..|after| - 1], after[|after| - 1];
      LastsStay(ps, front);
      Kinds(last);
      assert (ps + after)[..|ps + after| - 1] == ps + front && (ps + after)[|ps + after| - 1] == last;
      hide Classify;
    }
  }

  /** The last "source=", "mac=" and "filter=" count; without one there is none. */
  lemma LastGiven(parse: Parser, before: seq<string>, text: string, after: seq<string>)
    ensures NoneStarts(after, "source=") ==>
              NetworkOf(parse, Amid(before, "source=" + text, after)).source == Some(text)
    ensures NoneStarts(after, "mac=") ==>
              NetworkOf(parse, Amid(before, "mac=" + text, after)).mac == Some(text)
    ensures NoneStarts(after, "filter=") ==>
              var filterref := NetworkOf(parse, Amid(before, "filter=" + text, after)).filterref;
              filterref.Some? && filterref.value.name == text
    ensures NoneStarts(after, "source=") ==> NetworkOf(parse, after).source.None?
    ensures NoneStarts(after, "mac=") ==> NetworkOf(parse, after).mac.None?
    ensures NoneStarts(after, "filter=") ==> NetworkOf(parse, after).filterref.None?
  {
    ClassifyIs(text);
    hide Classify;
    LastsStay(before + ["source=" + text], after);
    LastsStay(before + ["mac=" + text], after);
    LastsStay(before + ["filter=" + text], after);
    LastsStay([], after);
    assert [] + after == after;
    assert LastSource([]).None? && LastMac([]).None? && LastFilter([]).None?;
  }

  lemma {:induction false} FindLastIs(n: string, c: char, v: string)
    requires HasNo(v, c)
    ensures FindLast(n + [c] + v, c) == |n|
  {
    var s := n + [c] + v;
    if v == [] {
      assert s[|s| - 1] == c;
    } else {
      FindLastIs(n, c, v[..|v| - 1]);
      assert s[..|s| - 1] == n + [c] + v[..|v| - 1] && s[|s| - 1] == v[|v| - 1];
    }
  }

  /** g_ascii_strup changes the letters a to z and nothing else. */
  lemma {:induction false} UpperIs(s: string, k: nat)
    requires k < |s|
    ensures Upper(s)[k] == if 'a' <= s[k] <= 'z' then (s[k] as int - 'a' as int + 'A' as int) as char else s[k]
  {
    if k > 0 {
      UpperIs(s[1..], k - 1);
    }
  }

  /** "filter.N=V": the parameter N, in upper case, has the value V; the parameters keep their order. */
  lemma SettingGiven(parse: Parser, before: seq<string>, n: string, v: string, after: seq<string>)
    requires HasNo(v, '=')
    ensures WellFormed(parse, "filter." + (n + "=" + v))
    ensures var filterref := NetworkOf(parse, Amid(before, "filter." + (n + "=" + v), after)).filterref;
            filterref.Some? ==>
              filterref.value.parameters == Settings(before) + [FilterParameter(Upper(n), v)] + Settings(after)
  {
    var text := n + "=" + v;
    var param := "filter." + text;
    ClassifyIs(text);
    SettingParsed(n, v);
    hide Classify, ParseFilterSetting, Amid;
    AmidIs(parse, before, param, after);
    OneSetting(param, text);
  }

  lemma SettingParsed(n: string, v: string)
    requires HasNo(v, '=')
    ensures ParseFilterSetting(n + "=" + v) == Some(FilterParameter(Upper(n), v))
  {
    var text := n + "=" + v;
    FindLastIs(n, '=', v);
    assert text[..|n|] == n && text[|n| + 1..] == v;
  }

  lemma OneSetting(param: string, text: string)
    requires Classify(param) == FilterSetting(text) && ParseFilterSetting(text).Some?
    ensures Settings([param]) == [ParseFilterSetting(text).value]
  {
    hide Classify, ParseFilterSetting;
    assert [param][..0] == [] && Settings([]) == [];
  }

  /** A parameter of another kind adds no address, no route and no setting. */
  lemma OthersAddNothing(parse: Parser, p: string)
    ensures !("address=" <= p) ==> Addresses(parse, [p]) == []
    ensures !("route=" <= p) ==> Routes(parse, [p]) == []
    ensures !("filter." <= p) ==> Settings([p]) == []
    ensures NetworkOf(parse, []) == Network(false, None, None, [], [], None)
  {
    Kinds(p);
    hide Classify, ParseAddress, ParseRoute, ParseFilterSetting;
    assert [p][..0] == [];
    assert Addresses(parse, []) == [] && Routes(parse, []) == [] && Settings([]) == [];
  }

  /** Without "=" a setting is refused. */
  lemma SettingRefused(parse: Parser, text: string)
    requires HasNo(text, '=')
    ensures !WellFormed(parse, "filter." + text)
  {
    ClassifyIs(text);
  }

  /** And so is a parameter of no kind. */
  lemma UnknownRefused(parse: Parser, p: string)
    requires p != "dhcp" && !("source=" <= p) && !("mac=" <= p) && !("filter." <= p) && !("filter=" <= p)
    requires !("address=" <= p) && !("route=" <= p)
    ensures !WellFormed(parse, p)
  {
  }
}
