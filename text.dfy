/** String primitives the logger is built from: Go's `strings.ReplaceAll`
    and the decimal rendering of an integer that `fmt`'s `%d` verb produces.
    Strings are sequences of characters; a character stands for one rune. */
module Text {

  datatype Option<+T> = None | Some(value: T)

  /** `p` occurs in `s` starting at index `i`. */
  predicate OccursAt(s: string, p: string, i: nat) {
    i + |p| <= |s| && s[i..i + |p|] == p
  }

  /** `p` occurs somewhere in `s`. */
  ghost predicate Occurs(s: string, p: string) {
    exists i: nat :: OccursAt(s, p, i)
  }

  /** Go's `strings.ReplaceAll(s, pattern, replacement)`: the matches of a
      non-empty pattern are found left to right, they do not overlap, and the
      text put in their place is never scanned again. An empty pattern matches
      before every rune and at the end. */
  function ReplaceAll(s: string, pattern: string, replacement: string): string
    decreases |s|
  {
    if pattern == [] then Interleave(s, replacement)
    else if |s| < |pattern| then s
    else if s[..|pattern|] == pattern then
      replacement + ReplaceAll(s[|pattern|..], pattern, replacement)
    else
      [s[0]] + ReplaceAll(s[1..], pattern, replacement)
  }

  /** `sep` before every character of `s` and once more at its end. */
  function Interleave(s: string, sep: string): string {
    if s == [] then sep else sep + [s[0]] + Interleave(s[1..], sep)
  }

  /** Replacing a pattern by itself changes nothing, so Go's shortcut that
      returns `s` at once when `old == new` agrees with the general case. */
  lemma {:induction false} ReplaceAllSelf(s: string, p: string)
    ensures ReplaceAll(s, p, p) == s
    decreases |s|
  {
    if p == [] {
      InterleaveEmpty(s);
    } else if |s| >= |p| {
      if s[..|p|] == p {
        ReplaceAllSelf(s[|p|..], p);
        assert s[..|p|] + s[|p|..] == s;
      } else {
        ReplaceAllSelf(s[1..], p);
        assert [s[0]] + s[1..] == s;
      }
    }
  }

  lemma {:induction false} InterleaveEmpty(s: string)
    ensures Interleave(s, []) == s
  {
    if s != [] {
      InterleaveEmpty(s[1..]);
      assert [s[0]] + s[1..] == s;
    }
  }

  /** An occurrence in a suffix is an occurrence in the whole. */
  lemma OccursInSuffix(s: string, p: string, k: nat, i: nat)
    requires k <= |s| && OccursAt(s[k..], p, i)
    ensures OccursAt(s, p, k + i)
  {
  }

  /** A suffix of a string free of `p` is free of `p`. */
  lemma NoOccurrenceInSuffix(s: string, p: string, k: nat)
    requires k <= |s| && !Occurs(s, p)
    ensures !Occurs(s[k..], p)
  {
    forall i: nat | OccursAt(s[k..], p, i)
      ensures false
    {
      OccursInSuffix(s, p, k, i);
    }
  }

  /** A two-character string is absent when no adjacent pair spells it. */
  lemma NoOccurrenceOfPair(s: string, t: string)
    requires |t| == 2
    requires forall i :: 0 <= i < |s| - 1 ==> !(s[i] == t[0] && s[i + 1] == t[1])
    ensures !Occurs(s, t)
  {
    forall i: nat | OccursAt(s, t, i)
      ensures false
    {
      PairAt(s, t, i);
    }
  }

  lemma PairAt(s: string, t: string, i: nat)
    requires |t| == 2 && OccursAt(s, t, i)
    ensures s[i] == t[0] && s[i + 1] == t[1]
  {
  }

  /** A string that does not contain the pattern is returned unchanged. */
  lemma {:induction false} ReplaceAllNoMatch(s: string, p: string, q: string)
    requires p != [] && !Occurs(s, p)
    ensures ReplaceAll(s, p, q) == s
    decreases |s|
  {
    if |s| >= |p| {
      assert !OccursAt(s, p, 0);
      NoOccurrenceInSuffix(s, p, 1);
      ReplaceAllNoMatch(s[1..], p, q);
      assert [s[0]] + s[1..] == s;
    }
  }

  /** A character that does not start a match is copied through. */
  lemma ReplaceAllSkip(c: char, s: string, p: string, q: string)
    requires p != [] && (c != p[0] || (|p| == 2 && s != [] && s[0] != p[1]))
    ensures ReplaceAll([c] + s, p, q) == [c] + ReplaceAll(s, p, q)
  {
  }

  /** A match at the front is replaced and scanning resumes after it. */
  lemma ReplaceAllTake(s: string, p: string, q: string)
    requires p != []
    ensures ReplaceAll(p + s, p, q) == q + ReplaceAll(s, p, q)
  {
  }

  /** The first character of a replacement's result: the replacement's first
      character when the pattern matches at the front, the input's otherwise. */
  lemma ReplaceAllHead(s: string, p: string, q: string)
    requires p != [] && q != [] && s != []
    ensures ReplaceAll(s, p, q) != []
    ensures ReplaceAll(s, p, q)[0] == if OccursAt(s, p, 0) then q[0] else s[0]
  {
  }

  /** Prefixing a text that cannot start `t` keeps a `t`-free string free of it. */
  lemma NoPairAfterPrefix(q: string, rest: string, t: string)
    requires |t| == 2 && t[0] !in q && !Occurs(rest, t)
    ensures !Occurs(q + rest, t)
  {
    var r := q + rest;
    forall i: nat | OccursAt(r, t, i)
      ensures false
    {
      if i >= |q| {
        assert r[i..i + 2] == rest[i - |q|..i - |q| + 2];
        assert OccursAt(rest, t, i - |q|);
      }
    }
  }

  /** Prefixing one character keeps a `t`-free string free of `t` unless that
      character and the string's first one spell `t`. */
  lemma NoPairAfterChar(c: char, rest: string, t: string)
    requires |t| == 2 && !Occurs(rest, t)
    requires rest != [] ==> [c, rest[0]] != t
    ensures !Occurs([c] + rest, t)
  {
    var r := [c] + rest;
    forall i: nat | OccursAt(r, t, i)
      ensures false
    {
      if i > 0 {
        assert r[i..i + 2] == rest[i - 1..i + 1];
        assert OccursAt(rest, t, i - 1);
      }
    }
  }

  /** After replacing `p` by `q`, the two-character string `t` does not occur,
      provided `q` cannot help to form `t` and `t` is either the pattern
      itself or already absent from the input. */
  lemma {:induction false} ReplaceAllLeavesNoPair(s: string, p: string, q: string, t: string)
    requires p != [] && q != [] && |t| == 2
    requires t[0] !in q && q[0] != t[1]
    requires t == p || !Occurs(s, t)
    ensures !Occurs(ReplaceAll(s, p, q), t)
    decreases |s|
  {
    if |s| < |p| {
      if t == p {
        forall i: nat | OccursAt(s, t, i)
          ensures false
        {
        }
      }
    } else if s[..|p|] == p {
      if t != p {
        NoOccurrenceInSuffix(s, t, |p|);
      }
      ReplaceAllLeavesNoPair(s[|p|..], p, q, t);
      NoPairAfterPrefix(q, ReplaceAll(s[|p|..], p, q), t);
    } else {
      var rest := ReplaceAll(s[1..], p, q);
      if t != p {
        NoOccurrenceInSuffix(s, t, 1);
      }
      ReplaceAllLeavesNoPair(s[1..], p, q, t);
      if |s| >= 2 {
        // rest begins with s[1] or with q[0]; neither completes t after s[0]
        ReplaceAllHead(s[1..], p, q);
        if t != p {
          assert !OccursAt(s, t, 0);
        }
        assert s[..2] != t;
      }
      NoPairAfterChar(s[0], rest, t);
    }
  }

  // ---------------------------------------------------------------------
  // Decimal rendering, as `fmt`'s `%d` verb writes an `int`.

  predicate IsDigit(c: char) {
    '0' <= c <= '9'
  }

  predicate IsDigits(s: string) {
    forall i :: 0 <= i < |s| ==> IsDigit(s[i])
  }

  function DigitChar(d: nat): (c: char)
    requires d < 10
    ensures IsDigit(c)
  {
    (48 + d) as char
  }

  function DigitValue(c: char): (d: nat)
    requires IsDigit(c)
    ensures d < 10 && DigitChar(d) == c
  {
    c as int - 48
  }

  /** The shortest decimal numeral of `n`: digits only, no leading zero. */
  function NatToDecimal(n: nat): (r: string)
    ensures r != [] && IsDigits(r)
    ensures r[0] == '0' <==> n == 0
  {
    if n < 10 then [DigitChar(n)] else NatToDecimal(n / 10) + [DigitChar(n % 10)]
  }

  /** The value a numeral of digits denotes. */
  function DecimalValue(s: string): nat
    requires IsDigits(s)
  {
    if s == [] then 0 else DecimalValue(s[..|s| - 1]) * 10 + DigitValue(s[|s| - 1])
  }

  /** Reading back the numeral of `n` gives `n`. */
  lemma {:induction false} DecimalRoundTrip(n: nat)
    ensures DecimalValue(NatToDecimal(n)) == n
  {
    if n >= 10 {
      var s := NatToDecimal(n);
      assert s[..|s| - 1] == NatToDecimal(n / 10);
      DecimalRoundTrip(n / 10);
    }
  }

  /** `fmt.Sprintf("%d", n)`: a minus sign for a negative number, then the
      numeral of its magnitude. */
  function IntToDecimal(n: int): (r: string)
    ensures r != []
    ensures forall i :: 0 <= i < |r| ==> IsDigit(r[i]) || (i == 0 && r[i] == '-')
    ensures r[0] == '-' <==> n < 0
  {
    if n < 0 then "-" + NatToDecimal(-n) else NatToDecimal(n)
  }

  /** A numeral without superfluous leading zeros: "0", or digits not
      starting with `0`. */
  predicate Canonical(s: string) {
    s != [] && IsDigits(s) && (s[0] != '0' || |s| == 1)
  }

  /** Reads the numerals `%d` writes: an optional minus sign followed by a
      canonical numeral, where "-0" is not one. */
  function ParseInt(s: string): Option<int> {
    if s != [] && s[0] == '-' then
      if Canonical(s[1..]) && s[1] != '0' then Some(-(DecimalValue(s[1..]) as int)) else None
    else if Canonical(s) then Some(DecimalValue(s))
    else None
  }

  /** Reading back the rendering of any integer gives that integer. */
  lemma IntRoundTrip(n: int)
    ensures ParseInt(IntToDecimal(n)) == Some(n)
  {
    if n < 0 {
      var s := IntToDecimal(n);
      assert s[1..] == NatToDecimal(-n);
      DecimalRoundTrip(-n);
    } else {
      DecimalRoundTrip(n);
    }
  }

  /** A numeral whose first digit is not zero denotes a positive number. */
  lemma {:induction false} LeadingDigitPositive(s: string)
    requires s != [] && IsDigits(s) && s[0] != '0'
    ensures DecimalValue(s) > 0
  {
    if |s| > 1 {
      LeadingDigitPositive(s[..|s| - 1]);
    }
  }

  /** A canonical numeral is the rendering of the number it denotes. */
  lemma {:induction false} CanonicalIsRendering(s: string)
    requires Canonical(s)
    ensures NatToDecimal(DecimalValue(s)) == s
  {
    if |s| > 1 {
      var p := s[..|s| - 1];
      LeadingDigitPositive(p);
      CanonicalIsRendering(p);
      assert p + [s[|s| - 1]] == s;
    }
  }

  /** Whatever `ParseInt` accepts is exactly the `%d` rendering of its
      value, so the parser is the inverse of `IntToDecimal`. */
  lemma ParseIntOnlyRenderings(s: string, n: int)
    requires ParseInt(s) == Some(n)
    ensures s == IntToDecimal(n)
  {
    if s[0] == '-' {
      LeadingDigitPositive(s[1..]);
      CanonicalIsRendering(s[1..]);
      assert s == "-" + s[1..];
    } else {
      CanonicalIsRendering(s);
    }
  }
}
