/**
 * The card-number helper `CreditCardNumberValidator`: the Luhn checksum as the
 * class computes it (reverse, partition by position parity, sum), the brand
 * format pattern, and the separator-stripping pipeline of its `main`.
 */
module CardNumbers {
  import opened Decimal
  import opened Patterns
  import opened Wrappers

  function Reverse<T>(s: seq<T>): (r: seq<T>)
    ensures |r| == |s|
    ensures forall i :: 0 <= i < |s| ==> r[i] == s[|s| - 1 - i]
  {
    if s == [] then [] else Reverse(s[1..]) + [s[0]]
  }

  // ---------------------------------------------------------------------
  // isChecksumValid, as written
  // ---------------------------------------------------------------------

  /** A doubled digit above 9 is replaced by its digit sum, `(x % 10) + 1`. */
  function Fold(x: nat): nat {
    if x > 9 then x % 10 + 1 else x
  }

  /**
   * The sum s1: digits of `rev` whose position is odd, where the head of
   * `rev` sits at position `pos` (the source starts counting at 1).
   */
  function OddPositionsSum(rev: seq<Digit>, pos: nat): nat {
    if rev == [] then 0
    else (if pos % 2 == 1 then rev[0] else 0) + OddPositionsSum(rev[1..], pos + 1)
  }

  /** The sum s2: the folded doubles of the digits at even positions. */
  function EvenPositionsSum(rev: seq<Digit>, pos: nat): nat {
    if rev == [] then 0
    else (if pos % 2 == 0 then Fold(2 * (rev[0] as int)) else 0) + EvenPositionsSum(rev[1..], pos + 1)
  }

  /** s1 + s2 over the reversed number, positions counted from 1. */
  function ChecksumTotal(cardNumber: string): nat
    requires AllDigits(cardNumber)
  {
    var rev := Digits(Reverse(cardNumber));
    OddPositionsSum(rev, 1) + EvenPositionsSum(rev, 1)
  }

  /** The total's decimal rendering ends with "0" (the `endsWith` test). */
  predicate TotalEndsInZero(cardNumber: string)
    requires AllDigits(cardNumber)
  {
    EndsWith(NatToDecimal(ChecksumTotal(cardNumber)), "0")
  }

  /**
   * The position of the rightmost character that is not an ASCII digit: the
   * first one the reversed scan parses.
   */
  function RightmostNonDigit(s: string): (i: nat)
    requires !AllDigits(s)
    ensures i < |s| && !IsDigitChar(s[i])
    ensures forall j :: i < j < |s| ==> IsDigitChar(s[j])
  {
    if IsDigitChar(s[|s| - 1]) then RightmostNonDigit(s[..|s| - 1]) else |s| - 1
  }

  /**
   * `isChecksumValid`: `Integer.parseInt` throws on the first non-digit the
   * reversed scan meets; otherwise the result is whether the total ends in "0".
   */
  function IsChecksumValid(cardNumber: string): (r: Result<bool, Failure>)
  {
    if AllDigits(cardNumber) then Ok(TotalEndsInZero(cardNumber))
    else Err(NumberFormatException([cardNumber[RightmostNonDigit(cardNumber)]]))
  }

  // ---------------------------------------------------------------------
  // The Luhn formula of ISO/IEC 7812-1, Annex B, as a reference
  // ---------------------------------------------------------------------

  /**
   * Weight of a digit that sits `posFromRight` places from the right end
   * (the check digit at 1): every second digit is doubled, minus 9 if above 9.
   */
  function LuhnTerm(d: Digit, posFromRight: nat): nat {
    if posFromRight % 2 == 0 then (if 2 * d > 9 then 2 * d - 9 else 2 * d) else d
  }

  /** The Luhn sum of a digit string, read left to right. */
  function LuhnSum(s: string): nat
    requires AllDigits(s)
  {
    if s == [] then 0 else LuhnTerm(DigitValue(s[0]), |s|) + LuhnSum(s[1..])
  }

  predicate LuhnValid(s: string)
    requires AllDigits(s)
  {
    LuhnSum(s) % 10 == 0
  }

  lemma {:induction false} OddPositionsSumSnoc(rev: seq<Digit>, x: Digit, pos: nat)
    ensures OddPositionsSum(rev + [x], pos)
         == OddPositionsSum(rev, pos) + (if (pos + |rev|) % 2 == 1 then x else 0)
  {
    if rev != [] {
      assert (rev + [x])[1..] == rev[1..] + [x];
      OddPositionsSumSnoc(rev[1..], x, pos + 1);
    }
  }

  lemma {:induction false} EvenPositionsSumSnoc(rev: seq<Digit>, x: Digit, pos: nat)
    ensures EvenPositionsSum(rev + [x], pos)
         == EvenPositionsSum(rev, pos) + (if (pos + |rev|) % 2 == 0 then Fold(2 * (x as int)) else 0)
  {
    if rev != [] {
      assert (rev + [x])[1..] == rev[1..] + [x];
      EvenPositionsSumSnoc(rev[1..], x, pos + 1);
    }
  }

  lemma ReverseCons<T>(x: T, xs: seq<T>)
    ensures Reverse([x] + xs) == Reverse(xs) + [x]
  {
    assert ([x] + xs)[1..] == xs;
  }

  lemma DigitsCons(s: string)
    requires s != [] && AllDigits(s)
    ensures AllDigits(s[1..]) && Digits(s) == [DigitValue(s[0])] + Digits(s[1..])
  {
    AllDigitsHead(s);
  }

  /** The reference weight and the source's weight of a digit agree at every position. */
  lemma LuhnTermIsFold(d: Digit, n: nat)
    ensures LuhnTerm(d, n) == if n % 2 == 1 then d as int else Fold(2 * (d as int))
  {
    var x: int := d;
    if n % 2 == 0 && 2 * x > 9 {
      assert (2 * x) % 10 == 2 * x - 10;
    }
  }

  /** The partition-and-sum of the source computes exactly the Luhn sum. */
  lemma {:induction false} PartitionSumIsLuhnSum(s: string)
    requires AllDigits(s)
    ensures OddPositionsSum(Reverse(Digits(s)), 1) + EvenPositionsSum(Reverse(Digits(s)), 1) == LuhnSum(s)
  {
    if s != [] {
      DigitsCons(s);
      var d, ds := DigitValue(s[0]), Digits(s[1..]);
      var rest := Reverse(ds);
      ReverseCons(d, ds);
      assert Reverse(Digits(s)) == rest + [d];
      assert 1 + |rest| == |s|;
      OddPositionsSumSnoc(rest, d, 1);
      EvenPositionsSumSnoc(rest, d, 1);
      PartitionSumIsLuhnSum(s[1..]);
      LuhnTermIsFold(d, |s|);
    }
  }

  lemma AllDigitsOfReverse(s: string)
    requires AllDigits(s)
    ensures AllDigits(Reverse(s))
  {
    var r := Reverse(s);
    forall i | 0 <= i < |r| ensures IsDigitChar(r[i]) {
      assert r[i] == s[|s| - 1 - i];
    }
  }

  lemma DigitsOfReverse(s: string)
    requires AllDigits(s)
    ensures AllDigits(Reverse(s))
    ensures Digits(Reverse(s)) == Reverse(Digits(s))
  {
    AllDigitsOfReverse(s);
    var a, b := Digits(Reverse(s)), Reverse(Digits(s));
    forall i | 0 <= i < |s| ensures a[i] == b[i] {
      assert DigitChar(a[i]) == DigitChar(b[i]);
    }
  }

  /** Luhn positions only matter by parity, so an even-length tail adds its own sum. */
  lemma {:induction false} LuhnSumAppend(a: string, b: string)
    requires AllDigits(a) && AllDigits(b) && |b| % 2 == 0
    ensures AllDigits(a + b) && LuhnSum(a + b) == LuhnSum(a) + LuhnSum(b)
  {
    var ab := a + b;
    if a == [] {
      assert ab == b;
    } else {
      LuhnSumCons(a);
      LuhnSumAppend(a[1..], b);
      ConsAppend(a, b);
      AllDigitsHead(ab);
      LuhnSumCons(ab);
      EvenShiftKeepsParity(|a|, |b|);
      LuhnTermParity(DigitValue(a[0]), |ab|, |a|);
    }
  }

  lemma ConsAppend(a: string, b: string)
    requires a != []
    ensures (a + b)[0] == a[0] && (a + b)[1..] == a[1..] + b
  {
  }

  lemma LuhnSumCons(s: string)
    requires s != [] && AllDigits(s)
    ensures IsDigitChar(s[0]) && AllDigits(s[1..])
    ensures LuhnSum(s) == LuhnTerm(DigitValue(s[0]), |s|) + LuhnSum(s[1..])
  {
    AllDigitsHead(s);
  }

  lemma EvenShiftKeepsParity(m: nat, n: nat)
    requires n % 2 == 0
    ensures (m + n) % 2 == m % 2
  {
    var k := n / 2;
    assert n == 2 * k;
    assert m + n == m % 2 + 2 * (m / 2 + k);
  }

  /** Only the parity of a digit's position matters to its weight. */
  lemma LuhnTermParity(d: Digit, m: nat, n: nat)
    requires m % 2 == n % 2
    ensures LuhnTerm(d, m) == LuhnTerm(d, n)
  {
  }

  /**
   * `isChecksumValid` returns normally exactly on digit strings, and then
   * accepts exactly those that satisfy the Luhn formula.
   */
  lemma ChecksumValidIffLuhn(cardNumber: string)
    ensures IsChecksumValid(cardNumber).Ok? <==> AllDigits(cardNumber)
    ensures AllDigits(cardNumber) ==> ChecksumTotal(cardNumber) == LuhnSum(cardNumber)
    ensures AllDigits(cardNumber) ==> (IsChecksumValid(cardNumber) == Ok(true) <==> LuhnValid(cardNumber))
  {
    if AllDigits(cardNumber) {
      TotalIsLuhnSum(cardNumber);
    }
  }

  /** On a digit string the source's total is the Luhn sum, so its test is the Luhn test. */
  lemma TotalIsLuhnSum(cardNumber: string)
    requires AllDigits(cardNumber)
    ensures ChecksumTotal(cardNumber) == LuhnSum(cardNumber)
    ensures TotalEndsInZero(cardNumber) <==> LuhnValid(cardNumber)
  {
    DigitsOfReverse(cardNumber);
    PartitionSumIsLuhnSum(cardNumber);
    EndsWithZeroIffMultipleOfTen(ChecksumTotal(cardNumber));
  }

  /** As written, the empty string passes: its total is 0, rendered "0". */
  lemma EmptyPassesChecksum()
    ensures IsChecksumValid("") == Ok(true)
  {
    ChecksumValidIffLuhn("");
  }

  // ---------------------------------------------------------------------
  // isValidCardNumberFormat: the brand pattern, one alternative per brand
  // ---------------------------------------------------------------------

  function DigitRun(n: nat): Pattern {
    Repeat(AnyDigit(), n)
  }

  /** 4[0-9]{12}(?:[0-9]{3})? */
  function VisaPattern(): Pattern {
    Concat(Lit('4'), Concat(DigitRun(12), Opt(DigitRun(3))))
  }

  /** 5[1-5][0-9]{14} */
  function MasterCardPattern(): Pattern {
    Concat(Lit('5'), Concat(Range('1', '5'), DigitRun(14)))
  }

  /** 6(?:011|5[0-9]{2})[0-9]{12} */
  function DiscoverPattern(): Pattern {
    Concat(Lit('6'), Concat(Alt(Literal("011"), Concat(Lit('5'), DigitRun(2))), DigitRun(12)))
  }

  /** 3[47][0-9]{13} */
  function AmexPattern(): Pattern {
    Concat(Lit('3'), Concat(Alt(Lit('4'), Lit('7')), DigitRun(13)))
  }

  /** 3(?:0[0-5]|[68][0-9])?[0-9]{11} */
  function DinersPattern(): Pattern {
    Concat(Lit('3'),
      Concat(Opt(Alt(Concat(Lit('0'), Range('0', '5')), Concat(Alt(Lit('6'), Lit('8')), AnyDigit()))),
        DigitRun(11)))
  }

  /** (?:2131|1800|35[0-9]{3})[0-9]{11} */
  function JcbPattern(): Pattern {
    Concat(Alt(Literal("2131"), Alt(Literal("1800"), Concat(Literal("35"), DigitRun(3)))), DigitRun(11))
  }

  /** The whole expression: the six brands as alternatives, anchored at both ends. */
  function CardNumberPattern(): Pattern {
    Alt(VisaPattern(), Alt(MasterCardPattern(), Alt(DiscoverPattern(),
      Alt(AmexPattern(), Alt(DinersPattern(), JcbPattern())))))
  }

  /** `isValidCardNumberFormat`: the pattern matches the whole string. */
  predicate IsValidCardNumberFormat(cardNumber: string) {
    Matches(CardNumberPattern(), cardNumber)
  }

  // The brands, stated by length and prefix.

  predicate IsVisa(s: string) {
    (|s| == 13 || |s| == 16) && AllDigits(s) && s[0] == '4'
  }

  predicate IsMasterCard(s: string) {
    |s| == 16 && AllDigits(s) && s[0] == '5' && '1' <= s[1] <= '5'
  }

  predicate IsDiscover(s: string) {
    |s| == 16 && AllDigits(s) && s[0] == '6' && (s[1..4] == "011" || s[1] == '5')
  }

  predicate IsAmex(s: string) {
    |s| == 15 && AllDigits(s) && s[0] == '3' && (s[1] == '4' || s[1] == '7')
  }

  /** As written the middle group is optional, so twelve digits after a leading 3 also pass. */
  predicate IsDiners(s: string) {
    (|s| == 12 || |s| == 14) && AllDigits(s) && s[0] == '3'
    && (|s| == 14 ==> (s[1] == '0' && s[2] <= '5') || s[1] == '6' || s[1] == '8')
  }

  predicate IsJcb(s: string) {
    && (|s| == 15 || |s| == 16) && AllDigits(s)
    && (|s| == 15 ==> s[..4] == "2131" || s[..4] == "1800")
    && (|s| == 16 ==> s[..2] == "35")
  }

  lemma VisaTail(t: string)
    ensures Matches(Concat(DigitRun(12), Opt(DigitRun(3))), t)
        <==> (|t| == 12 || |t| == 15) && AllDigits(t)
  {
    DigitsThen(12, Opt(DigitRun(3)), t);
    if |t| >= 12 {
      DigitRunMatches(3, t[12..]);
      AllDigitsSplit(t, 12);
    }
  }

  /** The Visa shape, split after the leading 4. */
  lemma VisaShape(s: string)
    ensures IsVisa(s) <==> |s| >= 1 && s[0] == '4' && (|s[1..]| == 12 || |s[1..]| == 15) && AllDigits(s[1..])
  {
    if |s| >= 1 {
      AllDigitsHead(s);
    }
  }

  lemma VisaPatternMeaning(s: string)
    ensures Matches(VisaPattern(), s) <==> IsVisa(s)
  {
    CharThen('4', '4', Concat(DigitRun(12), Opt(DigitRun(3))), s);
    if |s| >= 1 {
      VisaTail(s[1..]);
    }
    VisaShape(s);
  }

  lemma MasterCardHead(s: string)
    ensures Matches(MasterCardPattern(), s)
        <==> |s| >= 1 && s[0] == '5' && Matches(Concat(Range('1', '5'), DigitRun(14)), s[1..])
  {
    CharThen('5', '5', Concat(Range('1', '5'), DigitRun(14)), s);
  }

  lemma MasterCardTail(t: string)
    ensures Matches(Concat(Range('1', '5'), DigitRun(14)), t)
        <==> |t| == 15 && '1' <= t[0] <= '5' && AllDigits(t)
  {
    CharThen('1', '5', DigitRun(14), t);
    if |t| >= 1 {
      DigitRunMatches(14, t[1..]);
      AllDigitsHead(t);
    }
  }

  /** The MasterCard shape, split after the leading 5. */
  lemma MasterCardShape(s: string)
    ensures IsMasterCard(s)
        <==> |s| >= 1 && s[0] == '5' && |s[1..]| == 15 && '1' <= s[1..][0] <= '5' && AllDigits(s[1..])
  {
    if |s| >= 2 {
      AllDigitsHead(s);
      assert s[1..][0] == s[1];
    }
  }

  lemma MasterCardPatternMeaning(s: string)
    ensures Matches(MasterCardPattern(), s) <==> IsMasterCard(s)
  {
    MasterCardHead(s);
    if |s| >= 1 {
      MasterCardTail(s[1..]);
    }
    MasterCardShape(s);
  }

  function DiscoverMiddle(): Pattern {
    Alt(Literal("011"), Concat(Lit('5'), DigitRun(2)))
  }

  lemma DiscoverHead(s: string)
    ensures Matches(DiscoverPattern(), s)
        <==> |s| >= 1 && s[0] == '6' && Matches(Concat(DiscoverMiddle(), DigitRun(12)), s[1..])
  {
    CharThen('6', '6', Concat(DiscoverMiddle(), DigitRun(12)), s);
  }

  lemma FiveThenTwoDigits(u: string)
    ensures FixedWidth(Concat(Lit('5'), DigitRun(2)), 3)
    ensures Matches(Concat(Lit('5'), DigitRun(2)), u) <==> |u| == 3 && u[0] == '5' && AllDigits(u[1..])
  {
    assert FixedWidth(Lit('5'), 1);
    DigitsFixedWidth(2);
    ConcatWidth(Lit('5'), 1, DigitRun(2), 2);
    CharThen('5', '5', DigitRun(2), u);
    if |u| >= 1 {
      DigitRunMatches(2, u[1..]);
    }
  }

  lemma DiscoverFiveBranch(t: string)
    ensures Matches(Concat(Concat(Lit('5'), DigitRun(2)), DigitRun(12)), t)
        <==> |t| == 15 && t[0] == '5' && AllDigits(t[1..])
  {
    FiveThenTwoDigits(t);
    FixedThenDigits(Concat(Lit('5'), DigitRun(2)), 3, 12, t);
    if |t| == 15 {
      var u := t[..3];
      FiveThenTwoDigits(u);
      AllDigitsSplit(t[1..], 2);
      assert t[1..][..2] == u[1..] && t[1..][2..] == t[3..] && u[0] == t[0];
    }
  }

  lemma DiscoverTail(t: string)
    ensures Matches(Concat(DiscoverMiddle(), DigitRun(12)), t)
        <==> |t| == 15 && AllDigits(t[3..]) && (t[..3] == "011" || (t[0] == '5' && AllDigits(t[1..3])))
  {
    AltThen(Literal("011"), Concat(Lit('5'), DigitRun(2)), DigitRun(12), t);
    LiteralThenDigits("011", 12, t);
    DiscoverFiveBranch(t);
    if |t| == 15 {
      AllDigitsSplit(t[1..], 2);
      assert t[1..][..2] == t[1..3] && t[1..][2..] == t[3..];
    }
  }

  /** The Discover shape, split after the leading 6 and again after the next three characters. */
  lemma DiscoverShape(s: string)
    ensures IsDiscover(s)
        <==> |s| >= 1 && s[0] == '6'
             && |s[1..]| == 15 && AllDigits(s[1..][3..])
             && (s[1..][..3] == "011" || (s[1..][0] == '5' && AllDigits(s[1..][1..3])))
  {
    if |s| >= 1 {
      var t := s[1..];
      AllDigitsSplit(s, 1);
      if |t| == 15 {
        AllDigitsSplit(t, 3);
        AllDigitsSplit(t[..3], 1);
        assert t[..3] == s[1..4] && t[0] == s[1] && t[..3][1..] == t[1..3];
        assert "011"[0] == '0' && '0' != '5';
        if t[..3] == "011" {
          assert AllDigits(t[..3]);
        }
      }
    }
  }

  lemma DiscoverPatternMeaning(s: string)
    ensures Matches(DiscoverPattern(), s) <==> IsDiscover(s)
  {
    DiscoverHead(s);
    if |s| >= 1 {
      DiscoverTail(s[1..]);
    }
    DiscoverShape(s);
  }

  lemma AmexHead(s: string)
    ensures Matches(AmexPattern(), s)
        <==> |s| >= 1 && s[0] == '3' && Matches(Concat(Alt(Lit('4'), Lit('7')), DigitRun(13)), s[1..])
  {
    CharThen('3', '3', Concat(Alt(Lit('4'), Lit('7')), DigitRun(13)), s);
  }

  lemma AmexTail(t: string)
    ensures Matches(Concat(Alt(Lit('4'), Lit('7')), DigitRun(13)), t)
        <==> |t| == 14 && (t[0] == '4' || t[0] == '7') && AllDigits(t[1..])
  {
    AltThen(Lit('4'), Lit('7'), DigitRun(13), t);
    CharThen('4', '4', DigitRun(13), t);
    CharThen('7', '7', DigitRun(13), t);
    if |t| >= 1 {
      DigitRunMatches(13, t[1..]);
    }
  }

  /** The Amex shape, split after the leading 3 and again after the brand digit. */
  lemma AmexShape(s: string)
    ensures IsAmex(s)
        <==> |s| >= 1 && s[0] == '3' && |s[1..]| == 14
             && (s[1..][0] == '4' || s[1..][0] == '7') && AllDigits(s[1..][1..])
  {
    if |s| >= 2 {
      AllDigitsHead(s);
      AllDigitsHead(s[1..]);
      assert s[1..][0] == s[1];
    }
  }

  lemma AmexPatternMeaning(s: string)
    ensures Matches(AmexPattern(), s) <==> IsAmex(s)
  {
    AmexHead(s);
    if |s| >= 1 {
      AmexTail(s[1..]);
    }
    AmexShape(s);
  }

  /** 0[0-5]|[68][0-9] */
  function DinersMiddle(): Pattern {
    Alt(Concat(Lit('0'), Range('0', '5')), Concat(Alt(Lit('6'), Lit('8')), AnyDigit()))
  }

  lemma DinersHead(s: string)
    ensures Matches(DinersPattern(), s)
        <==> |s| >= 1 && s[0] == '3' && Matches(Concat(Opt(DinersMiddle()), DigitRun(11)), s[1..])
  {
    CharThen('3', '3', Concat(Opt(DinersMiddle()), DigitRun(11)), s);
  }

  /** The first alternative of the middle group, 0[0-5]. */
  lemma ZeroPairMeaning(u: string)
    ensures FixedWidth(Concat(Lit('0'), Range('0', '5')), 2)
    ensures Matches(Concat(Lit('0'), Range('0', '5')), u) <==> |u| == 2 && u[0] == '0' && '0' <= u[1] <= '5'
  {
    assert FixedWidth(Lit('0'), 1) && FixedWidth(Range('0', '5'), 1);
    ConcatWidth(Lit('0'), 1, Range('0', '5'), 1);
    CharThen('0', '0', Range('0', '5'), u);
    if |u| >= 2 {
      assert u[1..][0] == u[1];
    }
  }

  /** The second alternative of the middle group, [68][0-9]. */
  lemma SixEightPairMeaning(u: string)
    ensures FixedWidth(Concat(Alt(Lit('6'), Lit('8')), AnyDigit()), 2)
    ensures Matches(Concat(Alt(Lit('6'), Lit('8')), AnyDigit()), u)
        <==> |u| == 2 && (u[0] == '6' || u[0] == '8') && IsDigitChar(u[1])
  {
    assert FixedWidth(Alt(Lit('6'), Lit('8')), 1) && FixedWidth(AnyDigit(), 1);
    ConcatWidth(Alt(Lit('6'), Lit('8')), 1, AnyDigit(), 1);
    ConcatFixed(Alt(Lit('6'), Lit('8')), AnyDigit(), 1, u);
    if |u| >= 1 {
      assert u[..1][0] == u[0];
    }
    if |u| == 2 {
      assert u[1..] == [u[1]];
    }
  }

  lemma DinersMiddleMeaning(u: string)
    ensures FixedWidth(DinersMiddle(), 2)
    ensures Matches(DinersMiddle(), u)
        <==> |u| == 2 && ((u[0] == '0' && '0' <= u[1] <= '5') || ((u[0] == '6' || u[0] == '8') && IsDigitChar(u[1])))
  {
    ZeroPairMeaning(u);
    SixEightPairMeaning(u);
  }

  lemma DinersTail(t: string)
    ensures Matches(Concat(Opt(DinersMiddle()), DigitRun(11)), t)
        <==> ((|t| == 11 && AllDigits(t))
          || (|t| == 13 && Matches(DinersMiddle(), t[..2]) && AllDigits(t[2..])))
  {
    DinersMiddleMeaning(t);
    OptThen(DinersMiddle(), 2, DigitRun(11), t);
    DigitRunMatches(11, t);
    if |t| >= 2 {
      DigitRunMatches(11, t[2..]);
    }
  }

  /** With the optional group present: the middle pair is 00-05, 6x or 8x. */
  lemma DinersLongTail(t: string)
    requires |t| == 13
    ensures Matches(DinersMiddle(), t[..2]) && AllDigits(t[2..])
        <==> AllDigits(t) && ((t[0] == '0' && t[1] <= '5') || t[0] == '6' || t[0] == '8')
  {
    var u := t[..2];
    DinersMiddleMeaning(u);
    AllDigitsSplit(t, 2);
    assert u[0] == t[0] && u[1] == t[1];
    assert AllDigits(u) <==> IsDigitChar(u[0]) && IsDigitChar(u[1]) by {
      assert u == [u[0], u[1]];
    }
  }

  lemma DinersPatternMeaning(s: string)
    ensures Matches(DinersPattern(), s) <==> IsDiners(s)
  {
    DinersHead(s);
    if |s| >= 1 {
      var t := s[1..];
      DinersTail(t);
      AllDigitsHead(s);
      if |t| == 13 {
        DinersLongTail(t);
        assert t[0] == s[1] && t[1] == s[2];
      }
    }
  }

  function JcbLong(): Pattern {
    Concat(Concat(Literal("35"), DigitRun(3)), DigitRun(11))
  }

  lemma JcbAlternatives(s: string)
    ensures Matches(JcbPattern(), s)
        <==> (Matches(Concat(Literal("2131"), DigitRun(11)), s)
          || Matches(Concat(Literal("1800"), DigitRun(11)), s)
          || Matches(JcbLong(), s))
  {
    var b, c := Literal("1800"), Concat(Literal("35"), DigitRun(3));
    AltThen(Literal("2131"), Alt(b, c), DigitRun(11), s);
    AltThen(b, c, DigitRun(11), s);
  }

  /** The long JCB prefix, 35 and three digits, is five characters wide. */
  lemma JcbPrefixWidth()
    ensures FixedWidth(Concat(Literal("35"), DigitRun(3)), 5)
  {
    LiteralMatches("35", "35");
    DigitsFixedWidth(3);
    ConcatWidth(Literal("35"), 2, DigitRun(3), 3);
  }

  /** A sixteen-character string splits after the five-character JCB prefix. */
  lemma JcbLongSixteen(s: string)
    requires |s| == 16
    ensures Matches(Concat(Literal("35"), DigitRun(3)), s[..5]) && AllDigits(s[5..])
        <==> s[..2] == "35" && AllDigits(s[2..])
  {
    var u := s[..5];
    LiteralThenDigits("35", 3, u);
    AllDigitsSplit(s[2..], 3);
    assert u[..2] == s[..2] && u[2..] == s[2..][..3] && s[2..][3..] == s[5..];
  }

  lemma JcbLongMeaning(s: string)
    ensures Matches(JcbLong(), s) <==> |s| == 16 && s[..2] == "35" && AllDigits(s[2..])
  {
    JcbPrefixWidth();
    FixedThenDigits(Concat(Literal("35"), DigitRun(3)), 5, 11, s);
    if |s| == 16 {
      JcbLongSixteen(s);
    }
  }

  lemma JcbPatternMeaning(s: string)
    ensures Matches(JcbPattern(), s) <==> IsJcb(s)
  {
    JcbAlternatives(s);
    LiteralThenDigits("2131", 11, s);
    LiteralThenDigits("1800", 11, s);
    JcbLongMeaning(s);
    if |s| == 15 {
      AllDigitsSplit(s, 4);
      AllDigitsSplit(s[..4], 2);
      assert s[..4][..2] == s[..2];
      assert AllDigits("2131") && AllDigits("1800");
    }
    if |s| == 16 {
      AllDigitsSplit(s, 2);
      assert AllDigits("35");
    }
  }

  /** The format accepts exactly the strings of one of the six brands. */
  lemma FormatIsSomeBrand(s: string)
    ensures IsValidCardNumberFormat(s)
        <==> IsVisa(s) || IsMasterCard(s) || IsDiscover(s) || IsAmex(s) || IsDiners(s) || IsJcb(s)
  {
    VisaPatternMeaning(s);
    MasterCardPatternMeaning(s);
    DiscoverPatternMeaning(s);
    AmexPatternMeaning(s);
    DinersPatternMeaning(s);
    JcbPatternMeaning(s);
  }

  /**
   * Whatever the format accepts is a digit string of 12 to 16 characters
   * whose first digit is 1 to 6; in particular the empty string is rejected.
   */
  lemma FormatShape(s: string)
    requires IsValidCardNumberFormat(s)
    ensures AllDigits(s) && 12 <= |s| <= 16 && '1' <= s[0] <= '6'
  {
    FormatIsSomeBrand(s);
    if IsJcb(s) {
      if |s| == 15 { assert s[0] == s[..4][0]; } else { assert s[0] == s[..2][0]; }
    }
  }

  // ---------------------------------------------------------------------
  // main: strip separators, keep what passes the format, then the checksum
  // ---------------------------------------------------------------------

  predicate IsSeparator(c: char) {
    c == '-' || c == '|' || c == ' '
  }

  /** `card.replaceAll("[-| ]", "")`: hyphens, bars and spaces removed, the rest kept in order. */
  function StripSeparators(s: string): (r: string)
    ensures |r| <= |s|
    ensures forall i :: 0 <= i < |r| ==> !IsSeparator(r[i])
    ensures (forall i :: 0 <= i < |s| ==> !IsSeparator(s[i])) ==> r == s
  {
    if s == [] then []
    else if IsSeparator(s[0]) then StripSeparators(s[1..])
    else [s[0]] + StripSeparators(s[1..])
  }

  /** Stripping keeps every other character, in order: it distributes over concatenation. */
  lemma {:induction false} StripSeparatorsAppend(a: string, b: string)
    ensures StripSeparators(a + b) == StripSeparators(a) + StripSeparators(b)
  {
    var ab := a + b;
    if a != [] {
      assert ab[0] == a[0] && ab[1..] == a[1..] + b;
      StripSeparatorsAppend(a[1..], b);
      if !IsSeparator(a[0]) {
        AppendAssoc([a[0]], StripSeparators(a[1..]), StripSeparators(b));
      }
    } else {
      assert ab == b;
    }
  }

  /** A single character is removed exactly when it is a hyphen, a bar or a space, and kept otherwise. */
  lemma StripSeparatorsOfChar(c: char)
    ensures IsSeparator(c) ==> StripSeparators([c]) == []
    ensures !IsSeparator(c) ==> StripSeparators([c]) == [c]
  {
  }

  /** `Stream.filter`: the elements that `keep` accepts, in their original order. */
  function Filter(xs: seq<string>, keep: string -> bool): (ys: seq<string>)
    ensures |ys| <= |xs|
  {
    if xs == [] then []
    else (if keep(xs[0]) then [xs[0]] else []) + Filter(xs[1..], keep)
  }

  /** `Filter` keeps exactly the elements that `keep` accepts. */
  lemma {:induction false} FilterMembers(xs: seq<string>, keep: string -> bool, y: string)
    ensures y in Filter(xs, keep) <==> y in xs && keep(y)
  {
    if xs != [] {
      FilterMembers(xs[1..], keep, y);
      assert xs == [xs[0]] + xs[1..];
    }
  }

  /** The first stage of `main`: every card with its separators stripped. */
  function StrippedCards(cards: seq<string>): (stripped: seq<string>)
    ensures |stripped| == |cards|
    ensures forall i :: 0 <= i < |cards| ==> stripped[i] == StripSeparators(cards[i])
  {
    seq(|cards|, i requires 0 <= i < |cards| => StripSeparators(cards[i]))
  }

  /** The second filter of `main`, which returns normally on whatever passed the first. */
  predicate ChecksumPasses(card: string) {
    IsChecksumValid(card) == Ok(true)
  }

  /** The cards `main` prints, in order: stripped, then filtered by format, then by checksum. */
  function ValidCards(cards: seq<string>): seq<string> {
    Filter(Filter(StrippedCards(cards), IsValidCardNumberFormat), ChecksumPasses)
  }

  /**
   * A card is printed exactly when it is the stripped form of an input card
   * that passes both filters.
   */
  lemma ValidCardsMeaning(cards: seq<string>, c: string)
    ensures c in ValidCards(cards)
        <==> c in StrippedCards(cards) && IsValidCardNumberFormat(c) && ChecksumPasses(c)
  {
    var formatted := Filter(StrippedCards(cards), IsValidCardNumberFormat);
    FilterMembers(StrippedCards(cards), IsValidCardNumberFormat, c);
    FilterMembers(formatted, ChecksumPasses, c);
  }

  /** Whatever `main` prints is a 12- to 16-digit string that satisfies the Luhn formula. */
  lemma PrintedCardsAreLuhnValid(cards: seq<string>, c: string)
    requires c in ValidCards(cards)
    ensures AllDigits(c) && 12 <= |c| <= 16 && LuhnValid(c)
  {
    ValidCardsMeaning(cards, c);
    FormatShape(c);
    ChecksumValidIffLuhn(c);
  }
}
