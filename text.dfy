/**
 * The handful of Python string operations the matching rubric relies on:
 * substring containment (`t in s`), lower-casing (`s.lower()`),
 * `sep.join(xs)`, distinctness of an iteration order, and the `{n:,}`
 * thousands-separated rendering of an integer.
 */
module Text {

  /** Reference definition of Python's `t in s` on strings: `t` occurs in `s` at some offset. */
  ghost predicate IsSubstring(t: string, s: string) {
    exists i :: OccursAt(t, s, i)
  }

  /** `t` occurs in `s` starting at offset `i`. */
  ghost predicate OccursAt(t: string, s: string, i: int) {
    0 <= i <= |s| - |t| && s[i..i + |t|] == t
  }

  /** Executable substring search; agrees with IsSubstring on every input. */
  function Contains(s: string, t: string): (b: bool)
    ensures b <==> IsSubstring(t, s)
    decreases |s|
  {
    if |t| > |s| then false
    else if s[..|t|] == t then (assert OccursAt(t, s, 0); true)
    else
      (SubstringOfSuffixStep(t, s);
       Contains(s[1..], t))
  }

  /** When `t` is not a prefix of `s`, it occurs in `s` exactly when it occurs in `s[1..]`. */
  lemma SubstringOfSuffixStep(t: string, s: string)
    requires |t| <= |s| && s[..|t|] != t
    ensures IsSubstring(t, s) <==> IsSubstring(t, s[1..])
  {
    if IsSubstring(t, s) {
      var i :| OccursAt(t, s, i);
      assert i != 0;
      assert s[1..][i - 1..i - 1 + |t|] == s[i..i + |t|];
      assert OccursAt(t, s[1..], i - 1);
    }
    if IsSubstring(t, s[1..]) {
      var i :| OccursAt(t, s[1..], i);
      assert s[i + 1..i + 1 + |t|] == s[1..][i..i + |t|];
      assert OccursAt(t, s, i + 1);
    }
  }

  /** Substring containment is transitive. */
  lemma SubstringTransitive(a: string, b: string, c: string)
    requires IsSubstring(a, b) && IsSubstring(b, c)
    ensures IsSubstring(a, c)
  {
    var i :| OccursAt(a, b, i);
    var j :| OccursAt(b, c, j);
    forall k | 0 <= k < |a|
      ensures c[j + i + k] == a[k]
    {
      assert c[j..j + |b|][i + k] == b[i + k];
      assert b[i..i + |a|][k] == b[i + k];
    }
    assert c[j + i..j + i + |a|] == a;
    assert OccursAt(a, c, j + i);
  }

  /** Every string occurs in any concatenation that contains it as a part. */
  lemma SubstringOfConcat(pre: string, t: string, post: string)
    ensures IsSubstring(t, pre + t + post)
  {
    assert (pre + t + post)[|pre|..|pre| + |t|] == t;
    assert OccursAt(t, pre + t + post, |pre|);
  }

  /** ASCII lower-casing of one character; every other character is left as it is. */
  function LowerChar(c: char): (r: char)
    ensures 'A' <= c <= 'Z' ==> r as int == c as int + 32
    ensures !('A' <= c <= 'Z') ==> r == c
  {
    if 'A' <= c <= 'Z' then (c as int + 32) as char else c
  }

  /** `s.lower()`, character by character. */
  function Lower(s: string): (r: string)
    ensures |r| == |s|
    ensures forall i :: 0 <= i < |s| ==> r[i] == LowerChar(s[i])
  {
    if s == [] then [] else [LowerChar(s[0])] + Lower(s[1..])
  }

  /** Lower-casing distributes over concatenation. */
  lemma LowerConcat(a: string, b: string)
    ensures Lower(a + b) == Lower(a) + Lower(b)
  {
  }

  /** Lower-casing keeps every occurrence of a substring, at the same offset. */
  lemma LowerKeepsSubstring(t: string, s: string)
    requires IsSubstring(t, s)
    ensures IsSubstring(Lower(t), Lower(s))
  {
    var i :| OccursAt(t, s, i);
    var ls, lt := Lower(s), Lower(t);
    forall k | 0 <= k < |t|
      ensures ls[i + k] == lt[k]
    {
      assert s[i + k] == t[k];
    }
    assert ls[i..i + |t|] == lt;
    assert OccursAt(Lower(t), Lower(s), i);
  }

  /** Python's `sep.join(xs)`. */
  function Join(sep: string, xs: seq<string>): (r: string)
    ensures |xs| == 1 ==> r == xs[0]
  {
    if |xs| == 0 then ""
    else if |xs| == 1 then xs[0]
    else xs[0] + sep + Join(sep, xs[1..])
  }

  /** Each joined item occurs in the joined string. */
  lemma {:induction false} JoinContainsItem(sep: string, xs: seq<string>, k: nat)
    requires k < |xs|
    ensures IsSubstring(xs[k], Join(sep, xs))
  {
    if |xs| == 1 {
      SubstringOfConcat("", xs[0], "");
      assert "" + xs[0] + "" == xs[0];
    } else if k == 0 {
      SubstringOfConcat("", xs[0], sep + Join(sep, xs[1..]));
      assert "" + xs[0] + (sep + Join(sep, xs[1..])) == Join(sep, xs);
    } else {
      JoinContainsItem(sep, xs[1..], k - 1);
      SubstringOfConcat(xs[0] + sep, Join(sep, xs[1..]), "");
      assert xs[0] + sep + Join(sep, xs[1..]) + "" == Join(sep, xs);
      SubstringTransitive(xs[k], Join(sep, xs[1..]), Join(sep, xs));
    }
  }

  /** The elements of a sequence, as a set. */
  function Elements(xs: seq<string>): (r: set<string>)
    ensures forall x :: x in r <==> x in xs
  {
    set x | x in xs
  }

  /** No element of `xs` occurs twice. */
  ghost predicate Distinct(xs: seq<string>) {
    forall i, j :: 0 <= i < j < |xs| ==> xs[i] != xs[j]
  }

  /** Appending a new element keeps a sequence free of repeats, and its set one element larger. */
  lemma DistinctAppend(xs: seq<string>, x: string)
    requires Distinct(xs) && |Elements(xs)| == |xs| && x !in xs
    ensures Distinct(xs + [x]) && |Elements(xs + [x])| == |xs + [x]|
  {
    assert Elements(xs + [x]) == Elements(xs) + {x};
  }

  function Min(a: int, b: int): int { if a <= b then a else b }

  function Max(a: int, b: int): int { if a >= b then a else b }

  /** The decimal digit `d` as a character. */
  function DigitChar(d: int): (c: char)
    requires 0 <= d < 10
    ensures '0' <= c <= '9'
  {
    ('0' as int + d) as char
  }

  /** `str(n)` for a natural number. */
  function Decimal(n: nat): (r: string)
    ensures |r| >= 1
    ensures forall i :: 0 <= i < |r| ==> '0' <= r[i] <= '9'
  {
    if n < 10 then [DigitChar(n)] else Decimal(n / 10) + [DigitChar(n % 10)]
  }

  /** The three decimal digits of `n < 1000`, zero-padded. */
  function ThreeDigits(n: nat): (r: string)
    requires n < 1000
    ensures |r| == 3
  {
    [DigitChar(n / 100), DigitChar(n / 10 % 10), DigitChar(n % 10)]
  }

  /** `f"{n:,}"` for a natural number: its digits grouped in threes by commas. */
  function Grouped(n: nat): string {
    if n < 1000 then Decimal(n) else Grouped(n / 1000) + "," + ThreeDigits(n % 1000)
  }

  /** `f"{n:,}"` for any integer. */
  function WithThousands(n: int): string {
    if n < 0 then "-" + Grouped(-n) else Grouped(n)
  }

  /** `s` with every comma removed. */
  function StripCommas(s: string): (r: string)
    ensures |r| <= |s|
    ensures ',' !in r
  {
    if s == [] then []
    else (if s[0] == ',' then [] else [s[0]]) + StripCommas(s[1..])
  }

  lemma {:induction false} StripCommasConcat(a: string, b: string)
    ensures StripCommas(a + b) == StripCommas(a) + StripCommas(b)
    decreases |a|
  {
    if a != [] {
      var head := if a[0] == ',' then [] else [a[0]];
      assert (a + b)[0] == a[0];
      assert (a + b)[1..] == a[1..] + b;
      StripCommasConcat(a[1..], b);
      calc {
        StripCommas(a + b);
        head + StripCommas(a[1..] + b);
        head + (StripCommas(a[1..]) + StripCommas(b));
        (head + StripCommas(a[1..])) + StripCommas(b);
        StripCommas(a) + StripCommas(b);
      }
    } else {
      assert a + b == b;
    }
  }

  lemma {:induction false} StripCommasOfDigits(s: string)
    requires forall i :: 0 <= i < |s| ==> '0' <= s[i] <= '9'
    ensures StripCommas(s) == s
  {
    if s != [] {
      StripCommasOfDigits(s[1..]);
    }
  }

  /** Splitting off the last three digits of a number of four or more digits. */
  lemma DecimalSplit(n: nat)
    requires n >= 1000
    ensures Decimal(n) == Decimal(n / 1000) + ThreeDigits(n % 1000)
  {
    var q, r := n / 1000, n % 1000;
    assert n == 1000 * q + r;
    assert n / 10 == 100 * q + r / 10;
    assert n / 10 / 10 == 10 * q + r / 100;
    assert n / 10 / 10 / 10 == q;
    assert n / 10 / 10 % 10 == r / 100;
    assert n / 10 % 10 == r / 10 % 10;
    assert n % 10 == r % 10;
    calc {
      Decimal(n);
      Decimal(n / 10) + [DigitChar(n % 10)];
      Decimal(n / 10 / 10) + [DigitChar(n / 10 % 10)] + [DigitChar(n % 10)];
      Decimal(q) + [DigitChar(r / 100)] + [DigitChar(r / 10 % 10)] + [DigitChar(r % 10)];
      Decimal(q) + ThreeDigits(r);
    }
  }

  /** Removing the separators from `f"{n:,}"` gives back `str(n)`. */
  lemma {:induction false} GroupedDigits(n: nat)
    ensures StripCommas(Grouped(n)) == Decimal(n)
  {
    if n < 1000 {
      StripCommasOfDigits(Decimal(n));
    } else {
      GroupedDigits(n / 1000);
      GroupedDigitsStep(n);
    }
  }

  /** One step of GroupedDigits: the last group of three digits and the comma before it. */
  lemma GroupedDigitsStep(n: nat)
    requires n >= 1000 && StripCommas(Grouped(n / 1000)) == Decimal(n / 1000)
    ensures StripCommas(Grouped(n)) == Decimal(n)
  {
    StripSeparator(Grouped(n / 1000), ThreeDigits(n % 1000));
    DecimalSplit(n);
  }

  /** Removing the commas from `high + "," + low`, where `low` is all digits. */
  lemma StripSeparator(high: string, low: string)
    requires forall i :: 0 <= i < |low| ==> '0' <= low[i] <= '9'
    ensures StripCommas(high + "," + low) == StripCommas(high) + low
  {
    var comma: string := ",";
    assert StripCommas(comma) == [] by {
      assert comma[0] == ',' && comma[1..] == [];
    }
    StripCommasConcat(high + comma, low);
    StripCommasConcat(high, comma);
    StripCommasOfDigits(low);
    calc {
      StripCommas(high + comma + low);
      StripCommas(high + comma) + StripCommas(low);
      StripCommas(high) + StripCommas(comma) + low;
      { assert StripCommas(high) + [] == StripCommas(high); }
      StripCommas(high) + low;
    }
  }
}
