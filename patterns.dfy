/**
 * The fragment of `java.util.regex` that the card-number format uses:
 * character ranges, concatenation, alternation, `?` and `{n}`, with
 * whole-string matching (`Matcher.matches`) as the meaning of a pattern.
 */
module Patterns {
  import opened Decimal

  datatype Pattern =
    | Range(lo: char, hi: char)          // [lo-hi]; a literal c is Range(c, c)
    | Concat(first: Pattern, second: Pattern)
    | Alt(left: Pattern, right: Pattern)  // left|right
    | Opt(body: Pattern)                  // body?
    | Repeat(body: Pattern, count: nat)   // body{count}

  function Lit(c: char): Pattern {
    Range(c, c)
  }

  /** [0-9] */
  function AnyDigit(): Pattern {
    Range('0', '9')
  }

  /** A literal string, as a concatenation of literal characters. */
  function Literal(s: string): Pattern
    requires |s| >= 1
  {
    if |s| == 1 then Lit(s[0]) else Concat(Lit(s[0]), Literal(s[1..]))
  }

  /** `Pattern.compile(p).matcher(s).matches()`: `p` matches all of `s`. */
  predicate Matches(p: Pattern, s: string)
    decreases p, 0
  {
    match p
    case Range(lo, hi) => |s| == 1 && lo <= s[0] <= hi
    case Concat(a, b) => exists k :: 0 <= k <= |s| && Matches(a, s[..k]) && Matches(b, s[k..])
    case Alt(a, b) => Matches(a, s) || Matches(b, s)
    case Opt(a) => s == [] || Matches(a, s)
    case Repeat(a, n) => MatchesRepeat(a, n, s)
  }

  /** `a{n}` matches `s`: `s` splits into n pieces that each match `a`. */
  predicate MatchesRepeat(a: Pattern, n: nat, s: string)
    decreases a, n + 1
  {
    if n == 0 then s == []
    else exists k :: 0 <= k <= |s| && Matches(a, s[..k]) && MatchesRepeat(a, n - 1, s[k..])
  }

  /** Every string `p` matches has length `m`. */
  ghost predicate FixedWidth(p: Pattern, m: nat) {
    forall t: string :: Matches(p, t) ==> |t| == m
  }

  lemma AllDigitsSplit(s: string, k: nat)
    requires k <= |s|
    ensures AllDigits(s) <==> AllDigits(s[..k]) && AllDigits(s[k..])
  {
    if AllDigits(s[..k]) && AllDigits(s[k..]) {
      forall i | 0 <= i < |s| ensures IsDigitChar(s[i]) {
        if i < k { assert s[i] == s[..k][i]; } else { assert s[i] == s[k..][i - k]; }
      }
    }
  }

  /** A concatenation whose first part has a fixed width splits at that width. */
  lemma ConcatFixed(a: Pattern, b: Pattern, m: nat, s: string)
    requires FixedWidth(a, m)
    ensures Matches(Concat(a, b), s) <==> |s| >= m && Matches(a, s[..m]) && Matches(b, s[m..])
  {
    if |s| >= m && Matches(a, s[..m]) && Matches(b, s[m..]) {
      assert 0 <= m <= |s| && Matches(a, s[..m]) && Matches(b, s[m..]);
    }
    if Matches(Concat(a, b), s) {
      var k :| 0 <= k <= |s| && Matches(a, s[..k]) && Matches(b, s[k..]);
      assert |s[..k]| == m;
    }
  }

  lemma {:induction false} LiteralMatches(lit: string, s: string)
    requires |lit| >= 1
    ensures FixedWidth(Literal(lit), |lit|)
    ensures Matches(Literal(lit), s) <==> s == lit
  {
    if |lit| == 1 {
      assert Matches(Lit(lit[0]), s) <==> s == lit by {
        if |s| == 1 { assert s == [s[0]]; }
      }
    } else {
      forall t: string ensures Matches(Literal(lit[1..]), t) <==> t == lit[1..] {
        LiteralMatches(lit[1..], t);
      }
      assert FixedWidth(Lit(lit[0]), 1);
      forall t: string ensures Matches(Literal(lit), t) <==> t == lit {
        ConcatFixed(Lit(lit[0]), Literal(lit[1..]), 1, t);
        if |t| >= 1 && t[..1] == [lit[0]] && t[1..] == lit[1..] {
          assert t == t[..1] + t[1..];
        }
        if t == lit {
          assert t[..1] == [lit[0]];
        }
      }
    }
  }

  /** [0-9]{n} matches exactly the all-digit strings of length n. */
  lemma {:induction false} DigitsRepeat(n: nat, s: string)
    ensures MatchesRepeat(AnyDigit(), n, s) <==> |s| == n && AllDigits(s)
  {
    if n > 0 {
      if MatchesRepeat(AnyDigit(), n, s) {
        var k :| 0 <= k <= |s| && Matches(AnyDigit(), s[..k]) && MatchesRepeat(AnyDigit(), n - 1, s[k..]);
        DigitsRepeat(n - 1, s[k..]);
        assert |s[..k]| == 1 && IsDigitChar(s[..k][0]);
        AllDigitsSplit(s, k);
      }
      if |s| == n && AllDigits(s) {
        AllDigitsSplit(s, 1);
        DigitsRepeat(n - 1, s[1..]);
        assert s[..1][0] == s[0];
        assert 0 <= 1 <= |s| && Matches(AnyDigit(), s[..1]) && MatchesRepeat(AnyDigit(), n - 1, s[1..]);
      }
    }
  }

  lemma DigitRunMatches(n: nat, s: string)
    ensures Matches(Repeat(AnyDigit(), n), s) <==> |s| == n && AllDigits(s)
  {
    DigitsRepeat(n, s);
  }

  lemma DigitsFixedWidth(n: nat)
    ensures FixedWidth(Repeat(AnyDigit(), n), n)
  {
    forall t: string | Matches(Repeat(AnyDigit(), n), t) ensures |t| == n {
      DigitsRepeat(n, t);
    }
  }

  /** [0-9]{n} followed by p: n digits, then whatever p matches. */
  lemma DigitsThen(n: nat, p: Pattern, s: string)
    ensures Matches(Concat(Repeat(AnyDigit(), n), p), s)
        <==> |s| >= n && AllDigits(s[..n]) && Matches(p, s[n..])
  {
    DigitsFixedWidth(n);
    ConcatFixed(Repeat(AnyDigit(), n), p, n, s);
    if |s| >= n {
      DigitsRepeat(n, s[..n]);
    }
  }

  /** A one-character pattern followed by p. */
  lemma CharThen(lo: char, hi: char, p: Pattern, s: string)
    ensures Matches(Concat(Range(lo, hi), p), s)
        <==> |s| >= 1 && lo <= s[0] <= hi && Matches(p, s[1..])
  {
    assert FixedWidth(Range(lo, hi), 1);
    ConcatFixed(Range(lo, hi), p, 1, s);
    if |s| >= 1 {
      assert s[..1][0] == s[0];
    }
  }

  /** A literal followed by a run of digits. */
  lemma LiteralThenDigits(lit: string, n: nat, s: string)
    requires |lit| >= 1
    ensures Matches(Concat(Literal(lit), Repeat(AnyDigit(), n)), s)
        <==> |s| == |lit| + n && s[..|lit|] == lit && AllDigits(s[|lit|..])
  {
    LiteralMatches(lit, s);
    ConcatFixed(Literal(lit), Repeat(AnyDigit(), n), |lit|, s);
    if |s| >= |lit| {
      LiteralMatches(lit, s[..|lit|]);
      DigitRunMatches(n, s[|lit|..]);
    }
  }

  /** A fixed-width part followed by a run of digits. */
  lemma FixedThenDigits(a: Pattern, m: nat, n: nat, s: string)
    requires FixedWidth(a, m)
    ensures Matches(Concat(a, Repeat(AnyDigit(), n)), s)
        <==> |s| == m + n && Matches(a, s[..m]) && AllDigits(s[m..])
  {
    ConcatFixed(a, Repeat(AnyDigit(), n), m, s);
    if |s| >= m {
      DigitRunMatches(n, s[m..]);
    }
  }

  lemma ConcatWidth(a: Pattern, m: nat, b: Pattern, n: nat)
    requires FixedWidth(a, m) && FixedWidth(b, n)
    ensures FixedWidth(Concat(a, b), m + n)
  {
    forall t: string | Matches(Concat(a, b), t) ensures |t| == m + n {
      var k :| 0 <= k <= |t| && Matches(a, t[..k]) && Matches(b, t[k..]);
    }
  }

  /** An optional fixed-width part followed by p: either p alone, or the part then p. */
  lemma OptThen(a: Pattern, m: nat, p: Pattern, s: string)
    requires FixedWidth(a, m)
    ensures Matches(Concat(Opt(a), p), s)
        <==> Matches(p, s) || (|s| >= m && Matches(a, s[..m]) && Matches(p, s[m..]))
  {
    if Matches(Concat(Opt(a), p), s) {
      var k :| 0 <= k <= |s| && Matches(Opt(a), s[..k]) && Matches(p, s[k..]);
      if k == 0 { assert s[k..] == s; } else { assert |s[..k]| == m; }
    }
    if Matches(p, s) {
      assert s[..0] == [] && s[0..] == s;
      assert Matches(Opt(a), s[..0]) && Matches(p, s[0..]);
    }
    if |s| >= m && Matches(a, s[..m]) && Matches(p, s[m..]) {
      assert Matches(Opt(a), s[..m]);
    }
  }

  /** Concatenation distributes over an alternation in first position. */
  lemma AltThen(a: Pattern, b: Pattern, p: Pattern, s: string)
    ensures Matches(Concat(Alt(a, b), p), s) <==> Matches(Concat(a, p), s) || Matches(Concat(b, p), s)
  {
    if Matches(Concat(Alt(a, b), p), s) {
      var k :| 0 <= k <= |s| && Matches(Alt(a, b), s[..k]) && Matches(p, s[k..]);
      assert Matches(a, s[..k]) || Matches(b, s[..k]);
    }
    if Matches(Concat(a, p), s) {
      var k :| 0 <= k <= |s| && Matches(a, s[..k]) && Matches(p, s[k..]);
      assert Matches(Alt(a, b), s[..k]);
    }
    if Matches(Concat(b, p), s) {
      var k :| 0 <= k <= |s| && Matches(b, s[..k]) && Matches(p, s[k..]);
      assert Matches(Alt(a, b), s[..k]);
    }
  }
}
