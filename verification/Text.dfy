/** Decimal numbers and dotted names, as printf and the key file reader see them. */
module Text {
  predicate IsDigit(c: char) { '0' <= c <= '9' }

  predicate Digits(s: string) {
    forall k | 0 <= k < |s| :: IsDigit(s[k])
  }

  function Digit(n: nat): (c: char)
    requires n < 10
    ensures IsDigit(c) && c as int - '0' as int == n
  {
    ('0' as int + n) as char
  }

  /** %u */
  function Decimal(n: nat): (s: string)
    ensures s != [] && Digits(s)
  {
    if n < 10 then [Digit(n)] else Decimal(n / 10) + [Digit(n % 10)]
  }

  function Value(s: string): nat
    requires Digits(s)
  {
    if s == [] then 0 else Value(s[..|s| - 1]) * 10 + (s[|s| - 1] as int - '0' as int)
  }

  lemma {:induction false} DecimalValue(n: nat)
    ensures Value(Decimal(n)) == n
  {
    var s := Decimal(n);
    if n < 10 {
      assert s[..0] == [];
    } else {
      DecimalValue(n / 10);
      assert s[..|s| - 1] == Decimal(n / 10);
    }
  }

  lemma DecimalInjective(m: nat, n: nat)
    ensures Decimal(m) == Decimal(n) ==> m == n
  {
    DecimalValue(m);
    DecimalValue(n);
  }

  /** The digits that a string begins with. */
  function LeadingDigits(s: string): (d: string)
    ensures Digits(d) && d <= s
  {
    if s != [] && IsDigit(s[0]) then [s[0]] + LeadingDigits(s[1..]) else []
  }

  lemma {:induction false} LeadingAll(s: string)
    requires Digits(s)
    ensures LeadingDigits(s) == s
  {
    if s != [] {
      LeadingAll(s[1..]);
    }
  }

  predicate HasNo(s: string, c: char) {
    forall k | 0 <= k < |s| :: s[k] != c
  }

  /** The position of the first c, or the length. */
  function Find(s: string, c: char): (n: nat)
    ensures n <= |s| && HasNo(s[..n], c) && (n < |s| ==> s[n] == c)
  {
    if s == [] || s[0] == c then 0
    else
      var n := Find(s[1..], c) + 1;
      assert s[..n] == [s[0]] + s[1..][..n - 1];
      n
  }

  lemma {:induction false} FindIs(a: string, c: char, b: string)
    requires HasNo(a, c)
    ensures Find(a + [c] + b, c) == |a|
    ensures Find(a, c) == |a|
  {
    var s := a + [c] + b;
    if a == [] {
      assert s[0] == c;
    } else {
      FindIs(a[1..], c, b);
      assert s[0] == a[0] && s[1..] == a[1..] + [c] + b;
    }
  }

  /** No later than the first c, and yet a c. */
  lemma {:induction false} FindHere(s: string, c: char, k: nat)
    requires k <= Find(s, c) && k < |s| && s[k] == c
    ensures k == Find(s, c)
  {
    if k > 0 {
      FindHere(s[1..], c, k - 1);
    }
  }

  /** A name, split at its dots. */
  function Fields(s: string): seq<string>
    decreases |s|
  {
    var n := Find(s, '.');
    if n == |s| then [s] else [s[..n]] + Fields(s[n + 1..])
  }

  lemma FieldsOne(a: string)
    requires HasNo(a, '.')
    ensures Fields(a) == [a]
  {
    FindIs(a, '.', "");
  }

  lemma FieldsMore(a: string, b: string)
    requires HasNo(a, '.')
    ensures Fields(a + "." + b) == [a] + Fields(b)
  {
    FindIs(a, '.', b);
    var s := a + "." + b;
    assert s[..|a|] == a && s[|a| + 1..] == b;
  }
}
