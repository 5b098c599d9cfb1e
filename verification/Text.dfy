/**
 Decimal numerals and colon-joined keys.  Several modules build identifiers by joining
 text with colons; the lemmas here say when such a join can be taken apart again.
 */
module Text {

  function Digit(d: nat): (c: char)
    requires d < 10
    ensures c != ':'
  {
    "0123456789"[d]
  }

  lemma DigitInjective(d: nat, e: nat)
    requires d < 10 && e < 10 && Digit(d) == Digit(e)
    ensures d == e
  {
  }

  /** The decimal numeral of n, without leading zeros. */
  function Decimal(n: nat): (s: string)
    ensures |s| > 0 && (|s| == 1 <==> n < 10)
    ensures ':' !in s
  {
    if n < 10 then [Digit(n)] else Decimal(n / 10) + [Digit(n % 10)]
  }

  lemma {:induction false} DecimalInjective(m: nat, n: nat)
    requires Decimal(m) == Decimal(n)
    ensures m == n
  {
    var s, t := Decimal(m), Decimal(n);
    assert s[|s| - 1] == Digit(m % 10) && t[|t| - 1] == Digit(n % 10);
    DigitInjective(m % 10, n % 10);
    if m >= 10 {
      assert Decimal(m / 10) == s[..|s| - 1] && Decimal(n / 10) == t[..|t| - 1];
      DecimalInjective(m / 10, n / 10);
    }
  }

  /** The number a text of digits reads as. */
  function Reads(s: string): int {
    if s == "" then 0 else 10 * Reads(s[..|s| - 1]) + (s[|s| - 1] as int - '0' as int)
  }

  lemma DigitReads(d: nat)
    requires d < 10
    ensures Digit(d) as int - '0' as int == d
  {
  }

  /** The numeral reads as its number, has digits only, and no zero in front. */
  lemma {:induction false} DecimalReads(n: nat)
    ensures var s := Decimal(n);
      Reads(s) == n && (forall i :: 0 <= i < |s| ==> '0' <= s[i] <= '9') && (n > 0 ==> s[0] != '0')
  {
    DigitReads(n % 10);
    var s := Decimal(n);
    if n < 10 {
      assert s[..|s| - 1] == "";
    } else {
      DecimalReads(n / 10);
      assert s[..|s| - 1] == Decimal(n / 10);
    }
  }

  /** A join "a:x" determines both parts when the first has no colon. */
  lemma {:induction false} SplitAtColon(a: string, x: string, b: string, y: string)
    requires ':' !in a && ':' !in b
    requires a + ":" + x == b + ":" + y
    ensures a == b && x == y
  {
    var l, r := a + ":" + x, b + ":" + y;
    assert l[|a|] == ':' && r[|b|] == ':';
    assert forall i :: 0 <= i < |a| ==> l[i] == a[i] && l[i] in a;
    assert forall i :: 0 <= i < |b| ==> r[i] == b[i] && r[i] in b;
    assert |a| == |b|;
    assert a == l[..|a|] && b == r[..|b|];
    assert x == l[|a| + 1..] && y == r[|b| + 1..];
  }

  /** "12:payload": the length of the text, a colon, the text. */
  function Sized(s: string): string {
    Decimal(|s|) + ":" + s
  }

  /** A length-prefixed field can be taken off the front of any text, whatever it contains. */
  lemma SizedSplits(s: string, x: string, t: string, y: string)
    requires Sized(s) + x == Sized(t) + y
    ensures s == t && x == y
  {
    assert Sized(s) + x == Decimal(|s|) + ":" + (s + x);
    assert Sized(t) + y == Decimal(|t|) + ":" + (t + y);
    SplitAtColon(Decimal(|s|), s + x, Decimal(|t|), t + y);
    DecimalInjective(|s|, |t|);
    assert s == (s + x)[..|s|] && t == (t + y)[..|t|];
    assert x == (s + x)[|s|..] && y == (t + y)[|t|..];
  }

  /** Generated ids: a fixed front, a sequence number, a suffix saying what the id is for. */
  function Minted(front: string, number: nat, suffix: string): string {
    front + (Decimal(number) + ":" + suffix)
  }

  lemma MintedInjective(front: string, m: nat, s: string, n: nat, t: string)
    requires Minted(front, m, s) == Minted(front, n, t)
    ensures m == n && s == t
  {
    var x, y := Decimal(m) + ":" + s, Decimal(n) + ":" + t;
    assert Minted(front, m, s)[|front|..] == x && Minted(front, n, t)[|front|..] == y;
    SplitAtColon(Decimal(m), s, Decimal(n), t);
    DecimalInjective(m, n);
  }

  // ---- the order of texts ----

  /** Character by character, a prefix first. */
  predicate AtMost(a: string, b: string) {
    a == "" || (b != "" && (a[0] < b[0] || (a[0] == b[0] && AtMost(a[1..], b[1..]))))
  }

  lemma {:induction false} AtMostTotal(a: string, b: string)
    ensures AtMost(a, b) || AtMost(b, a)
  {
    if a != "" && b != "" && a[0] == b[0] {
      AtMostTotal(a[1..], b[1..]);
    }
  }

  lemma {:induction false} AtMostAntisymmetric(a: string, b: string)
    requires AtMost(a, b) && AtMost(b, a)
    ensures a == b
  {
    if a != "" && b != "" {
      AtMostAntisymmetric(a[1..], b[1..]);
      assert a == [a[0]] + a[1..] && b == [b[0]] + b[1..];
    }
  }

  lemma {:induction false} AtMostTransitive(a: string, b: string, c: string)
    requires AtMost(a, b) && AtMost(b, c)
    ensures AtMost(a, c)
  {
    if a != "" && a[0] == b[0] == c[0] {
      AtMostTransitive(a[1..], b[1..], c[1..]);
    }
  }
}
