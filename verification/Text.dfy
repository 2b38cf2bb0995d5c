/** Strings as the command line sees them: the order a sorted report uses and
    decimal numerals. */
module Text {
  predicate StartsWithDash(s: string) {
    |s| > 0 && s[0] == '-'
  }

  // ----- Ordering -----

  /** Strict lexicographic order by code point, which is how Rust orders `str`. */
  predicate Before(a: string, b: string) {
    |b| > 0 && (|a| == 0 || a[0] < b[0] || (a[0] == b[0] && Before(a[1..], b[1..])))
  }

  lemma {:induction false} BeforeTransitive(a: string, b: string, c: string)
    requires Before(a, b) && Before(b, c)
    ensures Before(a, c)
  {
    if |a| > 0 && a[0] == b[0] == c[0] {
      BeforeTransitive(a[1..], b[1..], c[1..]);
    }
  }

  lemma {:induction false} BeforeTotal(a: string, b: string)
    ensures Before(a, b) || a == b || Before(b, a)
    ensures !(Before(a, b) && Before(b, a)) && !Before(a, a)
  {
    if |a| > 0 {
      BeforeIrreflexive(a);
    }
    if |a| > 0 && |b| > 0 && a[0] == b[0] {
      BeforeTotal(a[1..], b[1..]);
      assert a == [a[0]] + a[1..] && b == [b[0]] + b[1..];
    }
  }

  lemma {:induction false} BeforeIrreflexive(a: string)
    ensures !Before(a, a)
  {
    if |a| > 0 {
      BeforeIrreflexive(a[1..]);
    }
  }

  predicate StrictlySorted(keys: seq<string>) {
    forall i, j | 0 <= i < j < |keys| :: Before(keys[i], keys[j])
  }

  /** A strictly sorted list is determined by the set of its elements. */
  lemma {:induction false} SortedListsAgree(a: seq<string>, b: seq<string>)
    requires StrictlySorted(a) && StrictlySorted(b)
    requires forall k :: k in a <==> k in b
    ensures a == b
  {
    assert (a != [] ==> a[0] in a) && (b != [] ==> b[0] in b);
    if a != [] {
      assert a[0] in b && b[0] in a;
      var i :| 0 <= i < |b| && b[i] == a[0];
      var j :| 0 <= j < |a| && a[j] == b[0];
      BeforeTotal(a[0], b[0]);
      assert a[0] == b[0];
      forall k
        ensures k in a[1..] <==> k in b[1..]
      {
        BeforeTotal(a[0], a[0]);
        if k in a[1..] {
          var m :| 0 <= m < |a[1..]| && a[1..][m] == k;
          assert Before(a[0], a[m + 1]);
          assert k in b && k != b[0];
        }
        if k in b[1..] {
          var m :| 0 <= m < |b[1..]| && b[1..][m] == k;
          assert Before(b[0], b[m + 1]);
          assert k in a && k != a[0];
        }
      }
      SortedListsAgree(a[1..], b[1..]);
      assert a == [a[0]] + a[1..] && b == [b[0]] + b[1..];
    }
  }

  /** Where `key` belongs in a sorted list that does not hold it. */
  method InsertionPoint(sorted: seq<string>, key: string) returns (at: nat)
    requires StrictlySorted(sorted) && key !in sorted
    ensures at <= |sorted|
    ensures forall i | 0 <= i < at :: Before(sorted[i], key)
    ensures forall i | at <= i < |sorted| :: Before(key, sorted[i])
  {
    at := 0;
    while at < |sorted| && Before(sorted[at], key)
      invariant at <= |sorted|
      invariant forall i | 0 <= i < at :: Before(sorted[i], key)
    {
      at := at + 1;
    }
    if at < |sorted| {
      BeforeTotal(sorted[at], key);
      forall i | at < i < |sorted|
        ensures Before(key, sorted[i])
      {
        BeforeTransitive(key, sorted[at], sorted[i]);
      }
    }
  }

  /** Lists a set of keys in order. */
  method SortedKeys(keys: set<string>) returns (list: seq<string>)
    ensures StrictlySorted(list)
    ensures forall k :: k in list <==> k in keys
  {
    list := [];
    var rest := keys;
    while rest != {}
      invariant rest <= keys
      invariant StrictlySorted(list)
      invariant forall k :: k in list <==> k in keys - rest
      decreases rest
    {
      var key :| key in rest;
      var at := InsertionPoint(list, key);
      var grown := list[..at] + [key] + list[at..];
      forall k
        ensures k in grown <==> k in list || k == key
      {
        assert list == list[..at] + list[at..];
      }
      list, rest := grown, rest - {key};
    }
  }

  // ----- Decimal numerals -----

  predicate IsDigit(c: char) {
    '0' <= c <= '9'
  }

  predicate AllDigits(s: string) {
    forall i | 0 <= i < |s| :: IsDigit(s[i])
  }

  function DigitOf(d: nat): (c: char)
    requires d < 10
    ensures IsDigit(c) && c as int == '0' as int + d
  {
    ('0' as int + d) as char
  }

  /** The shortest decimal numeral of `n`. */
  function Decimal(n: nat): string {
    if n < 10 then [DigitOf(n)] else Decimal(n / 10) + [DigitOf(n % 10)]
  }

  function DecimalValue(s: string): nat
    requires AllDigits(s)
  {
    if s == "" then 0
    else DecimalValue(s[..|s| - 1]) * 10 + (s[|s| - 1] as int - '0' as int)
  }

  lemma {:induction false} DecimalRoundTrip(n: nat)
    ensures AllDigits(Decimal(n)) && DecimalValue(Decimal(n)) == n
    ensures |Decimal(n)| > 0 && (n >= 10 ==> Decimal(n)[0] != '0')
    ensures n >= 10 ==> |Decimal(n)| > 1
  {
    if n >= 10 {
      DecimalRoundTrip(n / 10);
      var s := Decimal(n);
      assert s[..|s| - 1] == Decimal(n / 10);
      assert Decimal(n)[0] == Decimal(n / 10)[0];
      if n / 10 < 10 {
        assert Decimal(n / 10) == [DigitOf(n / 10)];
      }
    } else {
      assert Decimal(n)[..0] == "";
    }
  }
}
