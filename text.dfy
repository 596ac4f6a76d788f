/** String helpers with the meaning of the Python built-ins the client relies on:
    `str.lower()` (ASCII letters), `pattern in s`, `str(n)` for a natural number
    and the `:,` format specifier that groups digits in threes. */
module Text {

  // ---------------------------------------------------------------------------
  // Lower-casing
  // ---------------------------------------------------------------------------

  function LowerChar(c: char): char
  {
    if 'A' <= c <= 'Z' then (c as int + 32) as char else c
  }

  /** `s.lower()`, on ASCII letters; every other character is kept. */
  function Lower(s: string): (r: string)
    ensures |r| == |s|
    ensures forall i | 0 <= i < |s| :: r[i] == LowerChar(s[i])
  {
    if s == [] then [] else [LowerChar(s[0])] + Lower(s[1..])
  }

  lemma LowerAppend(a: string, b: string)
    ensures Lower(a + b) == Lower(a) + Lower(b)
  {
  }

  /** Lower-casing twice is lower-casing once. */
  lemma LowerIdempotent(s: string)
    ensures Lower(Lower(s)) == Lower(s)
  {
  }

  // ---------------------------------------------------------------------------
  // Substrings: `p in s`
  // ---------------------------------------------------------------------------

  predicate OccursAt(s: string, p: string, i: nat)
  {
    i + |p| <= |s| && s[i..i + |p|] == p
  }

  /** Reference meaning of `p in s`: `p` is found at some offset of `s`. */
  predicate Occurs(s: string, p: string)
  {
    exists i: nat | i <= |s| :: OccursAt(s, p, i)
  }

  /** The search itself: try offset 0, then the rest of `s`. */
  function Contains(s: string, p: string): bool
    decreases |s|
  {
    if p <= s then true
    else if s == [] then false
    else Contains(s[1..], p)
  }

  lemma {:induction false} ContainsIff(s: string, p: string)
    ensures Contains(s, p) <==> Occurs(s, p)
    decreases |s|
  {
    if p <= s {
      assert OccursAt(s, p, 0);
    } else if s == [] {
      assert forall i: nat | i <= |s| :: !OccursAt(s, p, i);
    } else {
      ContainsIff(s[1..], p);
      if Occurs(s[1..], p) {
        var j: nat :| j <= |s[1..]| && OccursAt(s[1..], p, j);
        assert s[j + 1..j + 1 + |p|] == s[1..][j..j + |p|];
        assert OccursAt(s, p, j + 1);
      }
      if Occurs(s, p) {
        var i: nat :| i <= |s| && OccursAt(s, p, i);
        assert i != 0;
        assert s[1..][i - 1..i - 1 + |p|] == s[i..i + |p|];
        assert OccursAt(s[1..], p, i - 1);
      }
    }
  }

  /** Whatever surrounds a piece whose lower-cased form is `p`, the lower-cased
      whole contains `p`: matching is insensitive to the case of the haystack. */
  lemma OccursInLowered(x: string, w: string, y: string, p: string)
    requires Lower(w) == p
    ensures Occurs(Lower(x + w + y), p)
  {
    LowerAppend(x + w, y);
    LowerAppend(x, w);
    var l := Lower(x + w + y);
    assert l == Lower(x) + p + Lower(y);
    assert l[|x|..|x| + |p|] == p;
    assert OccursAt(l, p, |x|);
  }

  // ---------------------------------------------------------------------------
  // Decimal numerals
  // ---------------------------------------------------------------------------

  predicate IsDigit(c: char)
  {
    '0' <= c <= '9'
  }

  predicate AllDigits(s: string)
  {
    forall i | 0 <= i < |s| :: IsDigit(s[i])
  }

  function DigitChar(d: nat): char
    requires d < 10
  {
    ('0' as int + d) as char
  }

  function DigitValue(c: char): nat
    requires IsDigit(c)
  {
    c as int - '0' as int
  }

  /** `str(n)` for a natural number: its decimal digits, most significant first. */
  function Decimal(n: nat): string
    decreases n
  {
    if n < 10 then [DigitChar(n)] else Decimal(n / 10) + [DigitChar(n % 10)]
  }

  /** The value of a string of decimal digits. */
  function ParseDecimal(s: string): nat
    requires AllDigits(s)
    decreases |s|
  {
    if s == [] then 0 else 10 * ParseDecimal(s[..|s| - 1]) + DigitValue(s[|s| - 1])
  }

  /** `Decimal` writes digits only, has no leading zero, and reads back as `n`. */
  lemma {:induction false} DecimalRoundTrip(n: nat)
    ensures AllDigits(Decimal(n)) && |Decimal(n)| >= 1
    ensures n > 0 ==> Decimal(n)[0] != '0'
    ensures ParseDecimal(Decimal(n)) == n
    decreases n
  {
    if n >= 10 {
      DecimalRoundTrip(n / 10);
      var s := Decimal(n);
      assert s[..|s| - 1] == Decimal(n / 10);
    }
  }

  /** Numbers below 1000 have at most three digits. */
  lemma ShortDecimal(n: nat)
    requires n < 1000
    ensures |Decimal(n)| <= 3
  {
    if n >= 10 {
      var m := n / 10;
      assert Decimal(n) == Decimal(m) + [DigitChar(n % 10)];
      if m >= 10 {
        assert Decimal(m) == Decimal(m / 10) + [DigitChar(m % 10)];
        assert m / 10 < 10;
      }
    }
  }

  /** The last three digits of a number, zero-padded. */
  function Pad3(r: nat): string
    requires r < 1000
  {
    [DigitChar(r / 100), DigitChar(r / 10 % 10), DigitChar(r % 10)]
  }

  /** A number of at least four digits is its thousands followed by three digits. */
  lemma DecimalSplit(n: nat)
    requires n >= 1000
    ensures Decimal(n) == Decimal(n / 1000) + Pad3(n % 1000)
  {
    var q, r := n / 1000, n % 1000;
    assert n == 1000 * q + r;
    assert n / 10 == 100 * q + r / 10;
    assert n / 100 == 10 * q + r / 100;
    assert n / 10 / 10 == n / 100;
    assert n / 100 / 10 == q;
    assert n % 10 == r % 10;
    assert n / 10 % 10 == r / 10 % 10;
    assert n / 100 % 10 == r / 100;
    calc {
      Decimal(n);
      Decimal(n / 10) + [DigitChar(n % 10)];
      Decimal(n / 100) + [DigitChar(n / 10 % 10)] + [DigitChar(n % 10)];
      Decimal(q) + [DigitChar(n / 100 % 10)] + [DigitChar(n / 10 % 10)] + [DigitChar(n % 10)];
      Decimal(q) + Pad3(r);
    }
  }

  /** Python's `f"{n:,}"`: the decimal digits of `n`, a comma between every
      group of three counted from the right. */
  function GroupThousands(n: nat): string
    decreases n
  {
    if n < 1000 then Decimal(n) else GroupThousands(n / 1000) + "," + Pad3(n % 1000)
  }

  /** `s.replace(",", "")`. */
  function RemoveCommas(s: string): string
    decreases |s|
  {
    if s == [] then [] else (if s[0] == ',' then [] else [s[0]]) + RemoveCommas(s[1..])
  }

  lemma {:induction false} RemoveCommasAppend(a: string, b: string)
    ensures RemoveCommas(a + b) == RemoveCommas(a) + RemoveCommas(b)
    decreases |a|
  {
    if a != [] {
      assert (a + b)[0] == a[0];
      assert (a + b)[1..] == a[1..] + b;
      RemoveCommasAppend(a[1..], b);
    } else {
      assert a + b == b;
    }
  }

  lemma {:induction false} RemoveCommasFromDigits(s: string)
    requires AllDigits(s)
    ensures RemoveCommas(s) == s
    decreases |s|
  {
    if s != [] {
      RemoveCommasFromDigits(s[1..]);
    }
  }

  /** Dropping the separators from a grouped numeral gives back its plain decimal form. */
  lemma {:induction false} GroupThousandsUngroups(n: nat)
    ensures RemoveCommas(GroupThousands(n)) == Decimal(n)
    decreases n
  {
    DecimalRoundTrip(n);
    if n < 1000 {
      RemoveCommasFromDigits(Decimal(n));
    } else {
      var q, r := n / 1000, n % 1000;
      GroupThousandsUngroups(q);
      RemoveCommasAppend(GroupThousands(q) + ",", Pad3(r));
      RemoveCommasAppend(GroupThousands(q), ",");
      RemoveCommasFromDigits(Pad3(r));
      DecimalSplit(n);
    }
  }

  /** Commas exactly at the positions a multiple of four characters from the
      end, digits everywhere else. */
  predicate CommaGrouped(g: string)
  {
    forall i | 0 <= i < |g| :: (g[i] == ',' <==> (|g| - i) % 4 == 0) && (g[i] != ',' ==> IsDigit(g[i]))
  }

  lemma CommaGroupedStep(h: string, r: nat)
    requires CommaGrouped(h) && r < 1000
    ensures CommaGrouped(h + "," + Pad3(r))
  {
  }

  /** The shape of a grouped numeral: it is not empty, starts with a digit that
      is not a leading zero, and holds a comma at exactly the positions that lie
      a multiple of four characters from its end, digits everywhere else. */
  lemma {:induction false} GroupThousandsShape(n: nat)
    ensures var g := GroupThousands(n);
      |g| >= 1 && IsDigit(g[0]) && (n > 0 ==> g[0] != '0') && CommaGrouped(g)
    decreases n
  {
    DecimalRoundTrip(n);
    if n < 1000 {
      ShortDecimal(n);
    } else {
      GroupThousandsShape(n / 1000);
      CommaGroupedStep(GroupThousands(n / 1000), n % 1000);
    }
  }
}
