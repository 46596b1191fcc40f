/**
 * The sample numbers in `CreditCardNumberValidator.main` and what the
 * checksum and the format say about each of them.
 */
module CardSamples {
  import opened Wrappers
  import opened Decimal
  import opened Patterns
  import opened CardNumbers

  // ---------------------------------------------------------------------
  // The sample numbers of main. Each is written group by group (the same
  // characters as the source's literals) so that the proofs below can work
  // on one group at a time.
  // ---------------------------------------------------------------------

  function MainCards(): seq<string> {
    [ "4386" + "-" + "4367" + "-" + "8899" + "-" + "1009",
      "5431" + " " + "4367" + " " + "8899" + " " + "1009",
      "9567" + "-" + "7889" + "-" + "1234" + "-" + "9999",
      "2621" + "1951" + "6233" + "5",
      "4992" + "7398" + "716",
      "1234" + "5678" + "1234" + "5670",
      "4485" + "2847" + "2013" + "4093",
      "4992" + "7398" + "717",
      "1234" + "5678" + "1234" + "5678" ]
  }

  /** Stripping a separator between two parts leaves the stripped parts side by side. */
  lemma StripAround(a: string, sep: char, b: string)
    requires IsSeparator(sep)
    ensures StripSeparators(a + [sep] + b) == StripSeparators(a) + StripSeparators(b)
  {
    StripSeparatorsAppend(a + [sep], b);
    StripSeparatorsAppend(a, [sep]);
  }

  /** Four digit groups joined by one kind of separator strip to the groups run together. */
  lemma StripGroups(a: string, b: string, c: string, d: string, sep: string)
    requires |sep| == 1 && IsSeparator(sep[0])
    requires AllDigits(a) && AllDigits(b) && AllDigits(c) && AllDigits(d)
    ensures StripSeparators(a + sep + b + sep + c + sep + d) == a + b + c + d
  {
    var s := sep[0];
    assert sep == [s];
    DigitsUnstripped(a);
    DigitsUnstripped(b);
    DigitsUnstripped(c);
    DigitsUnstripped(d);
    StripAround(a, s, b);
    StripAround(a + sep + b, s, c);
    StripAround(a + sep + b + sep + c, s, d);
  }

  /** The Luhn sum of four groups with even-length tails is the sum of the groups' sums. */
  lemma LuhnSumOfGroups(a: string, b: string, c: string, d: string, total: nat)
    requires AllDigits(a) && AllDigits(b) && AllDigits(c) && AllDigits(d)
    requires |b| % 2 == 0 && |c| % 2 == 0 && |d| % 2 == 0
    requires LuhnSum(a) + LuhnSum(b) + LuhnSum(c) + LuhnSum(d) == total
    ensures AllDigits(a + b + c + d)
    ensures LuhnSum(a + b + c + d) == total
  {
    LuhnSumOfEvenGroups(b, c, d);
    LuhnSumAppend(a, b + (c + d));
    AppendAssoc(a, b, c + d);
    AppendAssoc(a + b, c, d);
  }

  /** Three even-length digit groups: the Luhn sum of their concatenation is the sum of theirs. */
  lemma LuhnSumOfEvenGroups(b: string, c: string, d: string)
    requires AllDigits(b) && AllDigits(c) && AllDigits(d)
    requires |b| % 2 == 0 && |c| % 2 == 0 && |d| % 2 == 0
    ensures AllDigits(b + (c + d)) && |b + (c + d)| % 2 == 0
    ensures LuhnSum(b + (c + d)) == LuhnSum(b) + LuhnSum(c) + LuhnSum(d)
  {
    EvenShiftKeepsParity(|c|, |d|);
    LuhnSumAppend(c, d);
    EvenShiftKeepsParity(|b|, |c + d|);
    LuhnSumAppend(b, c + d);
  }

  /** What the two filters of `main` say about a card whose Luhn sum is known. */
  lemma ChecksumOfSum(s: string, total: nat, passes: bool)
    requires AllDigits(s) && LuhnSum(s) == total && passes == (total % 10 == 0)
    ensures IsChecksumValid(s) == Ok(passes)
  {
    ChecksumValidIffLuhn(s);
  }

  // The Luhn sums of the digit groups the samples are made of. Each group is
  // a parameter equal to its digits, so that a proof about a whole sample
  // works from these sums and never unfolds the Luhn sum of a literal.

  /** The groups 4386 and 4485 have the same Luhn sum, 24. */
  lemma GroupSum4386Or4485(g: string)
    requires g == "4386" || g == "4485"
    ensures AllDigits(g) && LuhnSum(g) == 24
  {
    if g == "4386" {
      assert AllDigits("4386") && LuhnSum("4386") == 24;
    } else {
      assert AllDigits("4485") && LuhnSum("4485") == 24;
    }
  }

  lemma GroupSum4367(g: string)
    requires g == "4367"
    ensures AllDigits(g) && LuhnSum(g) == 21
  {
    assert AllDigits("4367") && LuhnSum("4367") == 21;
  }

  lemma GroupSum8899(g: string)
    requires g == "8899"
    ensures AllDigits(g) && LuhnSum(g) == 33
  {
    assert AllDigits("8899") && LuhnSum("8899") == 33;
  }

  lemma GroupSum1009(g: string)
    requires g == "1009"
    ensures AllDigits(g) && LuhnSum(g) == 11
  {
    assert AllDigits("1009") && LuhnSum("1009") == 11;
  }

  lemma GroupSum5431(g: string)
    requires g == "5431"
    ensures AllDigits(g) && LuhnSum(g) == 12
  {
    assert AllDigits("5431") && LuhnSum("5431") == 12;
  }

  lemma GroupSum2847(g: string)
    requires g == "2847"
    ensures AllDigits(g) && LuhnSum(g) == 27
  {
    assert AllDigits("2847") && LuhnSum("2847") == 27;
  }

  lemma GroupSum2013(g: string)
    requires g == "2013"
    ensures AllDigits(g) && LuhnSum(g) == 9
  {
    assert AllDigits("2013") && LuhnSum("2013") == 9;
  }

  /** The groups 4093 and 5678 have the same Luhn sum, 20. */
  lemma GroupSum4093Or5678(g: string)
    requires g == "4093" || g == "5678"
    ensures AllDigits(g) && LuhnSum(g) == 20
  {
    if g == "4093" {
      assert AllDigits("4093") && LuhnSum("4093") == 20;
    } else {
      assert AllDigits("5678") && LuhnSum("5678") == 20;
    }
  }

  lemma GroupSum1234(g: string)
    requires g == "1234"
    ensures AllDigits(g) && LuhnSum(g) == 14
  {
    assert AllDigits("1234") && LuhnSum("1234") == 14;
  }

  lemma GroupSum9012(g: string)
    requires g == "9012"
    ensures AllDigits(g) && LuhnSum(g) == 13
  {
    assert AllDigits("9012") && LuhnSum("9012") == 13;
  }

  /** The groups 3456 and 7812 have the same Luhn sum, 17. */
  lemma GroupSum3456Or7812(g: string)
    requires g == "3456" || g == "7812"
    ensures AllDigits(g) && LuhnSum(g) == 17
  {
    if g == "3456" {
      assert AllDigits("3456") && LuhnSum("3456") == 17;
    } else {
      assert AllDigits("7812") && LuhnSum("7812") == 17;
    }
  }

  lemma GroupSum12(g: string)
    requires g == "12"
    ensures AllDigits(g) && LuhnSum(g) == 4
  {
    assert AllDigits("12") && LuhnSum("12") == 4;
  }

  /** The groups 345670 and 8716 have the same Luhn sum, 22. */
  lemma GroupSum345670Or8716(g: string)
    requires g == "345670" || g == "8716"
    ensures AllDigits(g) && LuhnSum(g) == 22
  {
    if g == "345670" {
      assert AllDigits("345670");
      assert LuhnSum("345670") == 22;
    } else {
      assert AllDigits("8716");
      assert LuhnSum("8716") == 22;
    }
  }

  lemma GroupSum345678(g: string)
    requires g == "345678"
    ensures AllDigits(g) && LuhnSum(g) == 30
  {
    assert AllDigits("345678") && LuhnSum("345678") == 30;
  }

  lemma GroupSum4(g: string)
    requires g == "4"
    ensures AllDigits(g) && LuhnSum(g) == 4
  {
    assert AllDigits("4") && LuhnSum("4") == 4;
  }

  lemma GroupSum99(g: string)
    requires g == "99"
    ensures AllDigits(g) && LuhnSum(g) == 18
  {
    assert AllDigits("99") && LuhnSum("99") == 18;
  }

  lemma GroupSum2739(g: string)
    requires g == "2739"
    ensures AllDigits(g) && LuhnSum(g) == 26
  {
    assert AllDigits("2739") && LuhnSum("2739") == 26;
  }

  lemma LuhnSumOfFirstSample(a: string, b: string, c: string, d: string)
    requires a == "4386" && b == "4367" && c == "8899" && d == "1009"
    ensures AllDigits(a + b + c + d) && LuhnSum(a + b + c + d) == 89
  {
    GroupSum4386Or4485(a); GroupSum4367(b); GroupSum8899(c); GroupSum1009(d);
    LuhnSumOfGroups(a, b, c, d, 89);
  }

  lemma LuhnSumOfSecondSample(a: string, b: string, c: string, d: string)
    requires a == "5431" && b == "4367" && c == "8899" && d == "1009"
    ensures AllDigits(a + b + c + d) && LuhnSum(a + b + c + d) == 77
  {
    GroupSum5431(a); GroupSum4367(b); GroupSum8899(c); GroupSum1009(d);
    LuhnSumOfGroups(a, b, c, d, 77);
  }

  lemma LuhnSumOfSixthSample(a: string, b: string, c: string, d: string)
    requires a == "12" && b == "3456" && c == "7812" && d == "345670"
    ensures AllDigits(a + b + c + d) && LuhnSum(a + b + c + d) == 60
  {
    GroupSum12(a); GroupSum3456Or7812(b); GroupSum3456Or7812(c); GroupSum345670Or8716(d);
    LuhnSumOfGroups(a, b, c, d, 60);
  }

  lemma LuhnSumOfNinthSample(a: string, b: string, c: string, d: string)
    requires a == "12" && b == "3456" && c == "7812" && d == "345678"
    ensures AllDigits(a + b + c + d) && LuhnSum(a + b + c + d) == 68
  {
    GroupSum12(a); GroupSum3456Or7812(b); GroupSum3456Or7812(c); GroupSum345678(d);
    LuhnSumOfGroups(a, b, c, d, 68);
  }

  /** The seventh sample, 4485284720134093, has Luhn sum 80. */
  lemma LuhnSumOfSeventhSample(a: string, b: string, c: string, d: string)
    requires a == "4485" && b == "2847" && c == "2013" && d == "4093"
    ensures AllDigits(a + b + c + d) && LuhnSum(a + b + c + d) == 80
  {
    GroupSum4386Or4485(a); GroupSum2847(b); GroupSum2013(c); GroupSum4093Or5678(d);
    LuhnSumOfGroups(a, b, c, d, 80);
  }

  /** The fifth sample, 49927398716, has Luhn sum 70. */
  lemma LuhnSumOfFifthSample(a: string, b: string, c: string, d: string)
    requires a == "4" && b == "99" && c == "2739" && d == "8716"
    ensures AllDigits(a + b + c + d) && LuhnSum(a + b + c + d) == 70
  {
    GroupSum4(a); GroupSum99(b); GroupSum2739(c); GroupSum345670Or8716(d);
    LuhnSumOfGroups(a, b, c, d, 70);
  }

  /** The checksum rejects the first sample once stripped: its Luhn sum is 89. */
  lemma FirstSampleChecksum(a: string, b: string, c: string, d: string)
    requires a == "4386" && b == "4367" && c == "8899" && d == "1009"
    ensures IsChecksumValid(a + b + c + d) == Ok(false)
  {
    LuhnSumOfFirstSample(a, b, c, d);
    ChecksumOfSum(a + b + c + d, 89, false);
  }

  /** The checksum rejects the second sample once stripped: its Luhn sum is 77. */
  lemma SecondSampleChecksum(a: string, b: string, c: string, d: string)
    requires a == "5431" && b == "4367" && c == "8899" && d == "1009"
    ensures IsChecksumValid(a + b + c + d) == Ok(false)
  {
    LuhnSumOfSecondSample(a, b, c, d);
    ChecksumOfSum(a + b + c + d, 77, false);
  }

  /** The seventh sample, 4485284720134093, passes the checksum. */
  lemma SeventhSampleChecksum(a: string, b: string, c: string, d: string)
    requires a == "4485" && b == "2847" && c == "2013" && d == "4093"
    ensures IsChecksumValid(a + b + c + d) == Ok(true)
  {
    LuhnSumOfSeventhSample(a, b, c, d);
    ChecksumOfSum(a + b + c + d, 80, true);
  }

  /** The number on the last line of `main`, 49927398716, passes the checksum. */
  lemma FifthSampleChecksum(a: string, b: string, c: string, d: string)
    requires a == "4" && b == "99" && c == "2739" && d == "8716"
    ensures IsChecksumValid(a + b + c + d) == Ok(true)
  {
    LuhnSumOfFifthSample(a, b, c, d);
    ChecksumOfSum(a + b + c + d, 70, true);
  }

  /** 1234567812345670 passes the checksum (it fails the format): its Luhn sum is 60. */
  lemma SixthSampleChecksum(a: string, b: string, c: string, d: string)
    requires a == "12" && b == "3456" && c == "7812" && d == "345670"
    ensures IsChecksumValid(a + b + c + d) == Ok(true)
  {
    LuhnSumOfSixthSample(a, b, c, d);
    ChecksumOfSum(a + b + c + d, 60, true);
  }

  /** 1234567812345678 fails the checksum: its Luhn sum is 68. */
  lemma NinthSampleChecksum(a: string, b: string, c: string, d: string)
    requires a == "12" && b == "3456" && c == "7812" && d == "345678"
    ensures IsChecksumValid(a + b + c + d) == Ok(false)
  {
    LuhnSumOfNinthSample(a, b, c, d);
    ChecksumOfSum(a + b + c + d, 68, false);
  }

  /** The first sample strips to its four groups run together. */
  lemma FirstSampleStripped()
    ensures StripSeparators(MainCards()[0]) == "4386" + "4367" + "8899" + "1009"
  {
    StripGroups("4386", "4367", "8899", "1009", "-");
  }

  /** The second sample strips to its four groups run together. */
  lemma SecondSampleStripped()
    ensures StripSeparators(MainCards()[1]) == "5431" + "4367" + "8899" + "1009"
  {
    StripGroups("5431", "4367", "8899", "1009", " ");
  }

  /** The third sample strips to its four groups run together. */
  lemma ThirdSampleStripped()
    ensures StripSeparators(MainCards()[2]) == "9567" + "7889" + "1234" + "9999"
  {
    StripGroups("9567", "7889", "1234", "9999", "-");
  }

  /** The first sample, stripped, is Visa-shaped: sixteen digits starting with 4. */
  lemma FirstSampleFormat(a: string, b: string, c: string, d: string)
    requires a == "4386" && b == "4367" && c == "8899" && d == "1009"
    ensures IsValidCardNumberFormat(a + b + c + d)
  {
    LuhnSumOfFirstSample(a, b, c, d);
    assert (a + b + c + d)[0] == a[0];
    FormatIsSomeBrand(a + b + c + d);
  }

  /** The second sample, stripped, is MasterCard-shaped: sixteen digits starting with 54. */
  lemma SecondSampleFormat(a: string, b: string, c: string, d: string)
    requires a == "5431" && b == "4367" && c == "8899" && d == "1009"
    ensures IsValidCardNumberFormat(a + b + c + d)
  {
    LuhnSumOfSecondSample(a, b, c, d);
    assert (a + b + c + d)[0] == a[0] && (a + b + c + d)[1] == a[1];
    FormatIsSomeBrand(a + b + c + d);
  }

  /** The third sample, stripped, starts with 9, which no brand has. */
  lemma ThirdSampleFormat()
    ensures !IsValidCardNumberFormat("9567" + "7889" + "1234" + "9999")
  {
    if IsValidCardNumberFormat("9567" + "7889" + "1234" + "9999") {
      FormatShape("9567" + "7889" + "1234" + "9999");
    }
  }

  /** The fourth sample has thirteen digits, which only Visa allows, and starts with 2. */
  lemma FourthSampleFormat()
    ensures !IsValidCardNumberFormat(MainCards()[3])
  {
    FormatIsSomeBrand(MainCards()[3]);
  }

  /** Eleven digits are too short for every brand. */
  lemma ElevenDigitsRejected(s: string)
    requires |s| == 11
    ensures !IsValidCardNumberFormat(s)
  {
    if IsValidCardNumberFormat(s) {
      FormatShape(s);
    }
  }

  /** Sixteen digits starting with 1 match no brand. */
  lemma LeadingOneRejected(s: string)
    requires |s| == 16 && s[0] == '1'
    ensures !IsValidCardNumberFormat(s)
  {
    FormatIsSomeBrand(s);
    assert s[..2][0] == s[0];
  }

  /** The seventh sample is Visa-shaped: sixteen digits starting with 4. */
  lemma SeventhSampleFormat(a: string, b: string, c: string, d: string)
    requires a == "4485" && b == "2847" && c == "2013" && d == "4093"
    ensures IsValidCardNumberFormat(a + b + c + d)
  {
    LuhnSumOfSeventhSample(a, b, c, d);
    assert (a + b + c + d)[0] == a[0];
    FormatIsSomeBrand(a + b + c + d);
  }

  /** A digit string is left alone by the stripping. */
  lemma DigitsUnstripped(s: string)
    requires AllDigits(s)
    ensures StripSeparators(s) == s
  {
    assert forall i :: 0 <= i < |s| ==> !IsSeparator(s[i]) by {
      forall i | 0 <= i < |s| ensures !IsSeparator(s[i]) {
        assert IsDigitChar(s[i]);
      }
    }
  }

  /** The first stage of `main` on the samples with separators. */
  lemma SeparatedSamplesStripped()
    ensures StrippedCards(MainCards())[0] == "4386" + "4367" + "8899" + "1009"
    ensures StrippedCards(MainCards())[1] == "5431" + "4367" + "8899" + "1009"
    ensures StrippedCards(MainCards())[2] == "9567" + "7889" + "1234" + "9999"
  {
    FirstSampleStripped();
    SecondSampleStripped();
    ThirdSampleStripped();
  }

  // The other samples are digit strings, which the first stage leaves alone.

  lemma FourthSampleUnstripped()
    ensures StripSeparators(MainCards()[3]) == MainCards()[3]
  {
    DigitsUnstripped(MainCards()[3]);
  }

  lemma FifthSampleUnstripped()
    ensures StripSeparators(MainCards()[4]) == MainCards()[4]
  {
    DigitsUnstripped(MainCards()[4]);
  }

  lemma SixthSampleUnstripped()
    ensures StripSeparators(MainCards()[5]) == MainCards()[5]
  {
    DigitsUnstripped(MainCards()[5]);
  }

  lemma SeventhSampleUnstripped()
    ensures StripSeparators(MainCards()[6]) == MainCards()[6]
  {
    DigitsUnstripped(MainCards()[6]);
  }

  lemma EighthSampleUnstripped()
    ensures StripSeparators(MainCards()[7]) == MainCards()[7]
  {
    DigitsUnstripped(MainCards()[7]);
  }

  lemma NinthSampleUnstripped()
    ensures StripSeparators(MainCards()[8]) == MainCards()[8]
  {
    DigitsUnstripped(MainCards()[8]);
  }

  lemma PlainSamplesStripped()
    ensures forall k :: 3 <= k < 9 ==> StrippedCards(MainCards())[k] == MainCards()[k]
  {
    FourthSampleUnstripped();
    FifthSampleUnstripped();
    SixthSampleUnstripped();
    SeventhSampleUnstripped();
    EighthSampleUnstripped();
    NinthSampleUnstripped();
  }

  // The format rejects the third to sixth and the last two stripped samples.

  lemma ThirdStrippedRejected()
    ensures !IsValidCardNumberFormat(StrippedCards(MainCards())[2])
  {
    ThirdSampleStripped();
    ThirdSampleFormat();
  }

  lemma FourthStrippedRejected()
    ensures !IsValidCardNumberFormat(StrippedCards(MainCards())[3])
  {
    FourthSampleUnstripped();
    FourthSampleFormat();
  }

  lemma FifthStrippedRejected()
    ensures !IsValidCardNumberFormat(StrippedCards(MainCards())[4])
  {
    FifthSampleUnstripped();
    ElevenDigitsRejected(MainCards()[4]);
  }

  lemma SixthStrippedRejected()
    ensures !IsValidCardNumberFormat(StrippedCards(MainCards())[5])
  {
    SixthSampleUnstripped();
    LeadingOneRejected(MainCards()[5]);
  }

  lemma EighthStrippedRejected()
    ensures !IsValidCardNumberFormat(StrippedCards(MainCards())[7])
  {
    EighthSampleUnstripped();
    ElevenDigitsRejected(MainCards()[7]);
  }

  lemma NinthStrippedRejected()
    ensures !IsValidCardNumberFormat(StrippedCards(MainCards())[8])
  {
    NinthSampleUnstripped();
    LeadingOneRejected(MainCards()[8]);
  }

  lemma FormatRejectsSamples()
    ensures !IsValidCardNumberFormat(StrippedCards(MainCards())[2])
    ensures !IsValidCardNumberFormat(StrippedCards(MainCards())[3])
    ensures !IsValidCardNumberFormat(StrippedCards(MainCards())[4])
    ensures !IsValidCardNumberFormat(StrippedCards(MainCards())[5])
    ensures !IsValidCardNumberFormat(StrippedCards(MainCards())[7])
    ensures !IsValidCardNumberFormat(StrippedCards(MainCards())[8])
  {
    ThirdStrippedRejected();
    FourthStrippedRejected();
    FifthStrippedRejected();
    SixthStrippedRejected();
    EighthStrippedRejected();
    NinthStrippedRejected();
  }

  /** The format accepts the first, second and seventh stripped samples. */
  lemma FormatAcceptsSamples()
    ensures IsValidCardNumberFormat(StrippedCards(MainCards())[0])
    ensures IsValidCardNumberFormat(StrippedCards(MainCards())[1])
    ensures IsValidCardNumberFormat(StrippedCards(MainCards())[6])
  {
    SeparatedSamplesStripped();
    PlainSamplesStripped();
    FirstSampleFormat("4386", "4367", "8899", "1009");
    SecondSampleFormat("5431", "4367", "8899", "1009");
    SeventhSampleFormat("4485", "2847", "2013", "4093");
  }

  /** One step of `Filter` over the suffix of a list starting at index k. */
  lemma FilterStep(st: seq<string>, k: nat, keep: string -> bool)
    requires k < |st|
    ensures Filter(st[k..], keep) == (if keep(st[k]) then [st[k]] else []) + Filter(st[k + 1..], keep)
  {
    assert st[k..][1..] == st[k + 1..];
  }

  /** Filtering the last seven of nine strings, of which only the seventh is kept. */
  lemma FilterKeepsSeventh(st: seq<string>, keep: string -> bool)
    requires |st| == 9
    requires keep(st[6])
    requires !keep(st[2]) && !keep(st[3]) && !keep(st[4]) && !keep(st[5])
    requires !keep(st[7]) && !keep(st[8])
    ensures Filter(st[2..], keep) == [st[6]]
  {
    assert st[9..] == [];
    FilterStep(st, 8, keep);
    FilterStep(st, 7, keep);
    FilterStep(st, 6, keep);
    assert Filter(st[6..], keep) == [st[6]];
    FilterStep(st, 5, keep);
    FilterStep(st, 4, keep);
    FilterStep(st, 3, keep);
    FilterStep(st, 2, keep);
  }

  /** Filtering nine strings of which exactly the first, second and seventh are kept. */
  lemma FilterKeepsThree(st: seq<string>, keep: string -> bool)
    requires |st| == 9
    requires keep(st[0]) && keep(st[1]) && keep(st[6])
    requires !keep(st[2]) && !keep(st[3]) && !keep(st[4]) && !keep(st[5])
    requires !keep(st[7]) && !keep(st[8])
    ensures Filter(st, keep) == [st[0], st[1], st[6]]
  {
    FilterKeepsSeventh(st, keep);
    FilterStep(st, 1, keep);
    assert Filter(st[1..], keep) == [st[1]] + [st[6]];
    FilterStep(st, 0, keep);
    assert st[0..] == st;
  }

  /** The format filter keeps the first, second and seventh samples. */
  lemma FormatFilterOnSamples()
    ensures Filter(StrippedCards(MainCards()), IsValidCardNumberFormat)
         == [ "4386" + "4367" + "8899" + "1009",
              "5431" + "4367" + "8899" + "1009",
              MainCards()[6] ]
  {
    FormatRejectsSamples();
    FormatAcceptsSamples();
    SeparatedSamplesStripped();
    PlainSamplesStripped();
    FilterKeepsThree(StrippedCards(MainCards()), IsValidCardNumberFormat);
  }

  /** Filtering three strings of which only the last is kept. */
  lemma FilterKeepsLast(xs: seq<string>, keep: string -> bool)
    requires |xs| == 3 && !keep(xs[0]) && !keep(xs[1]) && keep(xs[2])
    ensures Filter(xs, keep) == [xs[2]]
  {
    FilterStep(xs, 2, keep);
    assert xs[3..] == [];
    FilterStep(xs, 1, keep);
    FilterStep(xs, 0, keep);
    assert xs[0..] == xs;
  }

  /** Of those three, only the seventh passes the checksum. */
  lemma ChecksumFilterOnSamples()
    ensures Filter([ "4386" + "4367" + "8899" + "1009",
                     "5431" + "4367" + "8899" + "1009",
                     MainCards()[6] ], ChecksumPasses)
         == [MainCards()[6]]
  {
    FirstSampleChecksum("4386", "4367", "8899", "1009");
    SecondSampleChecksum("5431", "4367", "8899", "1009");
    SeventhSampleChecksum("4485", "2847", "2013", "4093");
    FilterKeepsLast([ "4386" + "4367" + "8899" + "1009",
                      "5431" + "4367" + "8899" + "1009",
                      MainCards()[6] ], ChecksumPasses);
  }

  /** `main` prints exactly one card, the seventh. */
  lemma MainOutput()
    ensures ValidCards(MainCards()) == [MainCards()[6]]
  {
    FormatFilterOnSamples();
    ChecksumFilterOnSamples();
  }
}
