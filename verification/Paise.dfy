/**
 * Money on screen (apps/law/web/src/lib/format.ts): integer paise printed with
 * Indian digit grouping, and a typed amount read back.
 */
module Paise {
  import opened Wrappers
  import opened Whitespace

  const RUPEE: char := '\U{20B9}'

  predicate Digit(c: char) {
    '0' <= c <= '9'
  }

  /** What the parser strips wherever it stands. */
  predicate Skipped(c: char) {
    c == ',' || c == RUPEE || Space(c)
  }

  predicate AllDigits(text: string) {
    forall i | 0 <= i < |text| :: Digit(text[i])
  }

  function DigitOf(n: nat): char
    requires n < 10
  {
    '0' + n as char
  }

  function ValueOf(text: string): nat
    requires AllDigits(text)
  {
    if text == "" then 0 else ValueOf(text[..|text| - 1]) * 10 + (text[|text| - 1] - '0') as nat
  }

  /** The decimal digits of a number, without leading zeros. */
  function Decimal(n: nat): (text: string)
    ensures text != "" && AllDigits(text)
  {
    if n < 10 then [DigitOf(n)] else Decimal(n / 10) + [DigitOf(n % 10)]
  }

  lemma {:induction false} ValueOfDecimal(n: nat)
    ensures ValueOf(Decimal(n)) == n
  {
    if n < 10 {
      assert [DigitOf(n)][..0] == "";
    } else {
      ValueOfDecimal(n / 10);
      assert Decimal(n)[..|Decimal(n)| - 1] == Decimal(n / 10);
    }
  }

  /** Two digits of paise. */
  function TwoDigits(n: nat): string
    requires n < 100
  {
    [DigitOf(n / 10), DigitOf(n % 10)]
  }

  /* ----------------------------------- grouping ------------------------------------- */

  /** Groups of two, the leftmost of one or two. */
  function Pairs(digits: string): string {
    if |digits| <= 2 then digits
    else Pairs(digits[..|digits| - 2]) + "," + digits[|digits| - 2..]
  }

  /** Indian grouping: the last three digits, then groups of two. */
  function Group(digits: string): string {
    if |digits| <= 3 then digits
    else Pairs(digits[..|digits| - 3]) + "," + digits[|digits| - 3..]
  }

  /** The `i`-th place from the right holds a comma, or a digit. */
  predicate Place(text: string, i: nat, comma: bool)
    requires i < |text|
  {
    if comma then text[|text| - 1 - i] == ',' else Digit(text[|text| - 1 - i])
  }

  /** Counting from the right, a comma stands at the third place and every third after it. */
  predicate CommaPlaces(text: string) {
    forall i: nat | i < |text| :: Place(text, i, i > 0 && i % 3 == 0)
  }

  /** Left of the last three digits the commas stand one place further. */
  predicate PairPlaces(text: string) {
    forall i: nat | i < |text| :: Place(text, i, i % 3 == 2)
  }

  lemma {:induction false} PairsPlaces(digits: string)
    requires AllDigits(digits) && digits != ""
    ensures PairPlaces(Pairs(digits))
  {
    if |digits| > 2 {
      var front, last := digits[..|digits| - 2], digits[|digits| - 2..];
      PairsPlaces(front);
      forall i: nat | i < |Pairs(digits)| ensures Place(Pairs(digits), i, i % 3 == 2) {
        PairJoined(Pairs(front), last, i);
      }
    }
  }

  lemma PairJoined(before: string, last: string, i: nat)
    requires PairPlaces(before) && |last| == 2 && AllDigits(last) && i < |before + "," + last|
    ensures Place(before + "," + last, i, i % 3 == 2)
  {
    if i >= 3 {
      assert Place(before, i - 3, (i - 3) % 3 == 2) && (i - 3) % 3 == i % 3;
    }
  }

  lemma GroupJoined(before: string, last: string, i: nat)
    requires PairPlaces(before) && |last| == 3 && AllDigits(last) && i < |before + "," + last|
    ensures Place(before + "," + last, i, i > 0 && i % 3 == 0)
  {
    if i >= 4 {
      assert Place(before, i - 4, (i - 4) % 3 == 2) && ((i - 4) % 3 == 2 <==> i % 3 == 0);
    }
  }

  /** The printed rupees have their commas in the Indian places and nowhere else. */
  lemma GroupPlaces(digits: string)
    requires AllDigits(digits) && digits != ""
    ensures CommaPlaces(Group(digits))
  {
    if |digits| > 3 {
      var front, last := digits[..|digits| - 3], digits[|digits| - 3..];
      PairsPlaces(front);
      forall i: nat | i < |Group(digits)| ensures Place(Group(digits), i, i > 0 && i % 3 == 0) {
        GroupJoined(Pairs(front), last, i);
      }
    }
  }

  /* ------------------------------- printing and reading ------------------------------- */

  function FormatPaise(paise: int): string {
    var abs: nat := if paise < 0 then -paise else paise;
    (if paise < 0 then "-" else "") + [RUPEE] + Group(Decimal(abs / 100)) + "." + TwoDigits(abs % 100)
  }

  function Clean(text: string): string {
    if text == "" then "" else (if Skipped(text[0]) then "" else [text[0]]) + Clean(text[1..])
  }

  /** Where the digits at the front end. */
  function DigitRun(text: string): (n: nat)
    ensures n <= |text| && AllDigits(text[..n]) && (n < |text| ==> !Digit(text[n]))
  {
    if text == "" || !Digit(text[0]) then 0 else 1 + DigitRun(text[1..])
  }

  /** Digits, then at most a point with one or two more; one decimal counts tens of paise. */
  function ParseClean(text: string): Option<nat> {
    var n := DigitRun(text);
    if n == 0 then None
    else if n == |text| then Some(ValueOf(text[..n]) * 100)
    else
      var fraction := text[n + 1..];
      if text[n] != '.' || !AllDigits(fraction) || |fraction| < 1 || |fraction| > 2 then None
      else Some(ValueOf(text[..n]) * 100 + if |fraction| == 1 then ValueOf(fraction) * 10 else ValueOf(fraction))
  }

  function ParseRupeesToPaise(text: string): Option<nat> {
    ParseClean(Clean(text))
  }

  function Kept(c: char): string {
    if Skipped(c) then "" else [c]
  }

  lemma CleanHead(c: char, rest: string)
    ensures Clean([c] + rest) == Kept(c) + Clean(rest)
  {
    assert ([c] + rest)[1..] == rest;
  }

  lemma Rebracket(a: string, b: string, c: string)
    ensures a + (b + c) == a + b + c
  {
  }

  lemma {:induction false} CleanConcat(a: string, b: string)
    ensures Clean(a + b) == Clean(a) + Clean(b)
  {
    if a == "" {
      assert a + b == b;
    } else {
      assert a == [a[0]] + a[1..];
      Rebracket([a[0]], a[1..], b);
      CleanHead(a[0], a[1..] + b);
      CleanHead(a[0], a[1..]);
      CleanConcat(a[1..], b);
      Rebracket(Kept(a[0]), Clean(a[1..]), Clean(b));
    }
  }

  lemma {:induction false} CleanKeepsDigits(text: string)
    requires AllDigits(text)
    ensures Clean(text) == text
  {
    if text != "" {
      CleanKeepsDigits(text[1..]);
    }
  }

  lemma CleanComma()
    ensures Clean(",") == "" && Clean(".") == "." && Clean("-") == "-" && Clean([RUPEE]) == ""
  {
  }

  lemma {:induction false} CleanPairs(digits: string)
    requires AllDigits(digits)
    ensures Clean(Pairs(digits)) == digits
  {
    if |digits| <= 2 {
      CleanKeepsDigits(digits);
    } else {
      var front, last := digits[..|digits| - 2], digits[|digits| - 2..];
      CleanPairs(front);
      CleanJoined(Pairs(front), front, last);
      assert front + last == digits;
    }
  }

  lemma CleanJoined(grouped: string, digits: string, last: string)
    requires Clean(grouped) == digits && AllDigits(last)
    ensures Clean(grouped + "," + last) == digits + last
  {
    CleanKeepsDigits(last);
    CleanComma();
    CleanConcat(grouped, ",");
    CleanConcat(grouped + ",", last);
    assert digits + "" == digits;
  }

  lemma CleanGroup(digits: string)
    requires AllDigits(digits)
    ensures Clean(Group(digits)) == digits
  {
    if |digits| <= 3 {
      CleanKeepsDigits(digits);
    } else {
      var front, last := digits[..|digits| - 3], digits[|digits| - 3..];
      CleanPairs(front);
      CleanJoined(Pairs(front), front, last);
      assert front + last == digits;
    }
  }

  lemma {:induction false} DigitRunOf(digits: string, rest: string)
    requires AllDigits(digits) && (rest != "" ==> !Digit(rest[0]))
    ensures DigitRun(digits + rest) == |digits|
  {
    if digits == "" {
      assert digits + rest == rest;
    } else {
      DigitRunOf(digits[1..], rest);
      assert (digits + rest)[1..] == digits[1..] + rest;
    }
  }

  lemma ValueOfOneDigit(n: nat)
    requires n < 10
    ensures AllDigits([DigitOf(n)]) && ValueOf([DigitOf(n)]) == n
  {
  }

  lemma ValueOfTwoDigits(n: nat)
    requires n < 100
    ensures AllDigits(TwoDigits(n)) && ValueOf(TwoDigits(n)) == n
  {
    var text := TwoDigits(n);
    ValueOfOneDigit(n / 10);
    assert text[..1] == [DigitOf(n / 10)];
    assert (text[1] - '0') as nat == n % 10;
  }

  /** Digits, and that is all, or a point with one or two digits more. */
  predicate AmountAt(text: string, n: nat) {
    && 1 <= n <= |text| && AllDigits(text[..n])
    && (n < |text| ==> text[n] == '.' && 2 <= |text| - n <= 3 && AllDigits(text[n + 1..]))
  }

  /** A cleaned text is an amount exactly in that form. */
  lemma AmountIff(text: string)
    ensures ParseClean(text).Some? <==> exists n: nat :: AmountAt(text, n)
  {
    if n: nat :| AmountAt(text, n) {
      assert text == text[..n] + text[n..];
      DigitRunOf(text[..n], text[n..]);
    }
    if ParseClean(text).Some? {
      assert AmountAt(text, DigitRun(text));
    }
  }

  lemma {:induction false} WholeIs(rupees: string)
    requires rupees != "" && AllDigits(rupees)
    ensures ParseClean(rupees) == Some(ValueOf(rupees) * 100)
  {
    DigitRunOf(rupees, "");
    assert rupees + "" == rupees && rupees[..|rupees|] == rupees;
  }

  /** The point stands where the digits end. */
  lemma {:induction false} Parted(rupees: string, fraction: string)
    requires rupees != "" && AllDigits(rupees)
    ensures var text := rupees + "." + fraction;
            && DigitRun(text) == |rupees| && text[..|rupees|] == rupees && text[|rupees|] == '.'
            && text[|rupees| + 1..] == fraction
  {
    var tail := "." + fraction;
    assert rupees + "." + fraction == rupees + tail;
    DigitRunOf(rupees, tail);
  }

  lemma {:induction false} ParsesParted(text: string, rupees: string, fraction: string)
    requires 0 < DigitRun(text) == |rupees| < |text| && text[..|rupees|] == rupees && text[|rupees|] == '.'
    requires text[|rupees| + 1..] == fraction && AllDigits(fraction) && 1 <= |fraction| <= 2
    ensures ParseClean(text) == Some(ValueOf(rupees) * 100 + if |fraction| == 2 then ValueOf(fraction) else ValueOf(fraction) * 10)
  {
  }

  /** It is worth its rupees a hundred times and its fraction, one digit counting as tens. */
  lemma {:induction false} AmountIs(rupees: string, fraction: string)
    requires rupees != "" && AllDigits(rupees) && AllDigits(fraction) && 1 <= |fraction| <= 2
    ensures ParseClean(rupees) == Some(ValueOf(rupees) * 100)
    ensures ParseClean(rupees + "." + fraction)
            == Some(ValueOf(rupees) * 100 + if |fraction| == 2 then ValueOf(fraction) else ValueOf(fraction) * 10)
  {
    WholeIs(rupees);
    Parted(rupees, fraction);
    ParsesParted(rupees + "." + fraction, rupees, fraction);
  }

  /** Rupees and two digits of paise are read as what they say. */
  lemma ParsesPrinted(rupees: nat, fraction: nat)
    requires fraction < 100
    ensures ParseClean(Decimal(rupees) + "." + TwoDigits(fraction)) == Some(rupees * 100 + fraction)
  {
    var digits, tail := Decimal(rupees), "." + TwoDigits(fraction);
    assert digits + "." + TwoDigits(fraction) == digits + tail;
    DigitRunOf(digits, tail);
    ValueOfDecimal(rupees);
    ValueOfTwoDigits(fraction);
    assert (digits + tail)[..|digits|] == digits;
    assert (digits + tail)[|digits| + 1..] == TwoDigits(fraction);
  }

  lemma CleanFormat(paise: int)
    ensures var abs: nat := if paise < 0 then -paise else paise;
            Clean(FormatPaise(paise)) == (if paise < 0 then "-" else "") + Decimal(abs / 100) + "." + TwoDigits(abs % 100)
  {
    var abs: nat := if paise < 0 then -paise else paise;
    var sign := if paise < 0 then "-" else "";
    CleanComma();
    CleanGroup(Decimal(abs / 100));
    ValueOfTwoDigits(abs % 100);
    CleanKeepsDigits(TwoDigits(abs % 100));
    CleanConcat(sign, [RUPEE]);
    CleanConcat(sign + [RUPEE], Group(Decimal(abs / 100)));
    CleanConcat(sign + [RUPEE] + Group(Decimal(abs / 100)), ".");
    CleanConcat(sign + [RUPEE] + Group(Decimal(abs / 100)) + ".", TwoDigits(abs % 100));
  }

  lemma MinusIsNoAmount(digits: string, tail: string)
    ensures ParseClean("-" + digits + tail) == None
  {
    assert ("-" + digits + tail)[0] == '-';
  }

  /** Reading a printed amount gives it back exactly when it is not negative; a negative one is refused. */
  lemma RoundTripIffNotNegative(paise: int)
    ensures ParseRupeesToPaise(FormatPaise(paise)) == if paise >= 0 then Some(paise) else None
  {
    CleanFormat(paise);
    if paise >= 0 {
      assert "" + Decimal(paise / 100) == Decimal(paise / 100);
      ParsesPrinted(paise / 100, paise % 100);
    } else {
      MinusIsNoAmount(Decimal(-paise / 100), "." + TwoDigits(-paise % 100));
      assert "-" + Decimal(-paise / 100) + "." + TwoDigits(-paise % 100)
             == "-" + Decimal(-paise / 100) + ("." + TwoDigits(-paise % 100));
    }
  }

  function WithoutCommas(text: string): string {
    if text == "" then "" else (if text[0] == ',' then "" else [text[0]]) + WithoutCommas(text[1..])
  }

  lemma {:induction false} CleanSkipsCommas(text: string)
    ensures Clean(WithoutCommas(text)) == Clean(text)
  {
    if text != "" {
      CleanSkipsCommas(text[1..]);
      var head := if text[0] == ',' then "" else [text[0]];
      CleanConcat(head, WithoutCommas(text[1..]));
      assert Clean(text) == Clean(head) + Clean(text[1..]);
    }
  }

  /** Texts that differ in commas only, however many and wherever they stand, read the same. */
  lemma CommasAreIgnored(a: string, b: string)
    requires WithoutCommas(a) == WithoutCommas(b)
    ensures ParseRupeesToPaise(a) == ParseRupeesToPaise(b)
  {
    CleanSkipsCommas(a);
    CleanSkipsCommas(b);
  }

  lemma SignPrinted(paise: int)
    ensures FormatPaise(paise)[0] == '-' <==> paise < 0
    ensures paise < 0 ==> FormatPaise(paise) == "-" + FormatPaise(-paise)
  {
  }

  /** Two amounts, negative ones included, never print the same. */
  lemma PrintedDiffer(p: int, q: int)
    ensures FormatPaise(p) == FormatPaise(q) <==> p == q
  {
    SignPrinted(p);
    SignPrinted(q);
    if FormatPaise(p) == FormatPaise(q) {
      var a, b := if p < 0 then -p else p, if q < 0 then -q else q;
      assert p < 0 ==> FormatPaise(a) == FormatPaise(p)[1..] && FormatPaise(b) == FormatPaise(q)[1..];
      RoundTripIffNotNegative(a);
      RoundTripIffNotNegative(b);
    }
  }
}
