/** The card checksum of ISO/IEC 7812-1, Annex B, as the importer computes it. */
module Luhn {

  /** What a character adds: its code less 48, doubled at odd places from the right, folded once above 9. */
  function Weight(c: char, place: nat): int {
    var n := c as int - 48;
    if place % 2 == 0 then n else if 2 * n > 9 then 2 * n - 9 else 2 * n
  }

  /** The sum over a whole string whose last character stands at place `place`. */
  function Sum(s: string, place: nat): int {
    if s == "" then 0 else Weight(s[|s| - 1], place) + Sum(s[..|s| - 1], place + 1)
  }

  predicate Passes(s: string) {
    Sum(s, 0) % 10 == 0
  }

  predicate Digit(c: char) {
    '0' <= c <= '9'
  }

  predicate Digits(s: string) {
    forall i | 0 <= i < |s| :: Digit(s[i])
  }

  method LuhnOk(digits: string) returns (ok: bool)
    ensures ok == Passes(digits)
  {
    var total := 0;
    var reversed := seq(|digits|, i requires 0 <= i < |digits| => digits[|digits| - 1 - i]);
    assert digits[..|digits|] == digits;
    for i := 0 to |reversed|
      invariant total + Sum(digits[..|digits| - i], i) == Sum(digits, 0)
    {
      var n := reversed[i] as int - 48;
      if i % 2 != 0 {
        n := n * 2;
        if n > 9 {
          n := n - 9;
        }
      }
      total := total + n;
      assert digits[..|digits| - i][..|digits| - i - 1] == digits[..|digits| - i - 1];
    }
    return total % 10 == 0;
  }

  /** A character's place counted from the right end of the string. */
  function Place(s: string, i: nat): nat
    requires i < |s|
  {
    |s| - 1 - i
  }

  /** Replacing one character moves the sum by the difference of the two weights at its place. */
  lemma {:induction false} SumUpdate(s: string, place: nat, i: nat, c: char)
    requires i < |s|
    ensures Sum(s[i := c], place) ==
            Sum(s, place) - Weight(s[i], place + Place(s, i)) + Weight(c, place + Place(s, i))
  {
    var last := |s| - 1;
    if i == last {
      assert s[i := c][..last] == s[..last];
    } else {
      assert s[i := c][..last] == s[..last][i := c];
      SumUpdate(s[..last], place + 1, i, c);
    }
  }

  /** At every place the ten digits weigh ten different amounts, all from 0 to 9. */
  lemma WeightsDiffer(a: char, b: char, place: nat)
    requires Digit(a) && Digit(b)
    ensures 0 <= Weight(a, place) <= 9 && (Weight(a, place) == Weight(b, place) ==> a == b)
  {
    var x, y := a as int - 48, b as int - 48;
    assert a == (x + 48) as char && b == (y + 48) as char;
  }

  /** Any one wrong digit is caught: of all the digits at a place exactly one passes. */
  lemma OneWrongDigitFails(s: string, i: nat, c: char)
    requires Digits(s) && i < |s| && Digit(c) && c != s[i] && Passes(s)
    ensures !Passes(s[i := c])
  {
    assert Digit(s[i]);
    hide Sum, Weight, Digits, Digit, Place;
    SumUpdate(s, 0, i, c);
    WeightsDiffer(s[i], c, Place(s, i));
    WeightsDiffer(c, s[i], Place(s, i));
    SmallGapShows(Sum(s, 0), Sum(s[i := c], 0));
  }

  lemma SmallGapShows(a: int, b: int)
    requires a % 10 == 0 && a != b && -9 <= b - a <= 9
    ensures b % 10 != 0
  {}

  /** The digit whose weight at `place` makes up what the sum lacks. */
  function Mending(lack: nat, place: nat): (c: char)
    requires lack <= 9
    ensures Digit(c) && Weight(c, place) == lack
  {
    if place % 2 == 0 then (48 + lack) as char
    else if lack % 2 == 0 then (48 + lack / 2) as char
    else (48 + (lack + 9) / 2) as char
  }

  /** At any place of any digit string one digit, and only one, makes it pass. */
  lemma ExactlyOneDigitPasses(s: string, i: nat)
    requires Digits(s) && i < |s|
    ensures exists c :: Digit(c) && Passes(s[i := c]) &&
                        forall d | Digit(d) && d != c :: !Passes(s[i := d])
  {
    var rest := Sum(s, 0) - Weight(s[i], Place(s, i));
    var c := Mending((-rest) % 10, Place(s, i));
    SumUpdate(s, 0, i, c);
    assert Passes(s[i := c]);
    forall d | Digit(d) && d != c ensures !Passes(s[i := d]) {
      var t := s[i := c];
      assert t[i := d] == s[i := d];
      OneWrongDigitFails(t, i, d);
    }
  }

  function Swapped(s: string, i: nat): string
    requires i + 1 < |s|
  {
    s[i := s[i + 1]][i + 1 := s[i]]
  }

  /** Swapping two neighbours goes unnoticed exactly when they are equal or are 0 and 9. */
  lemma NeighbourSwapPassesIff(s: string, i: nat)
    requires Digits(s) && i + 1 < |s| && Passes(s)
    ensures Passes(Swapped(s, i)) <==> s[i] == s[i + 1] || {s[i], s[i + 1]} == {'0', '9'}
  {
    hide Sum, Weight, Digits;
    var a, b := s[i], s[i + 1];
    NeighboursAreDigits(s, i);
    SumUpdate(s, 0, i, b);
    SumUpdate(s[i := b], 0, i + 1, a);
    SwapWeights(a, b, Place(s, i + 1));
    ModularGap(Sum(s, 0), Sum(Swapped(s, i), 0));
    EqualPairs(a, b);
  }

  lemma NeighboursAreDigits(s: string, i: nat)
    requires Digits(s) && i + 1 < |s|
    ensures Digit(s[i]) && Digit(s[i + 1])
  {}

  lemma ModularGap(a: int, b: int)
    requires a % 10 == 0
    ensures b % 10 == 0 <==> (b - a) % 10 == 0
  {}

  lemma EqualPairs(a: char, b: char)
    ensures {a, b} == {'0', '9'} <==> (a == '0' && b == '9') || (a == '9' && b == '0')
  {
    assert a in {a, b} && b in {a, b} && '0' in {'0', '9'} && '9' in {'0', '9'};
  }

  /** The two weights of a swap agree modulo 10 only for equal digits and for 0 with 9. */
  lemma SwapWeights(a: char, b: char, place: nat)
    requires Digit(a) && Digit(b)
    ensures (Weight(a, place + 1) + Weight(b, place) - Weight(b, place + 1) - Weight(a, place)) % 10 == 0 <==>
            a == b || (a == '0' && b == '9') || (a == '9' && b == '0')
  {
    var x, y := a as int - 48, b as int - 48;
    assert a == (x + 48) as char && b == (y + 48) as char;
  }

  /** An example of how the checksum reads another script: thirteen zeros pass, and thirteen Arabic-Indic
      zeros, which the importer's card pattern also matches, do not. */
  lemma OnlyAsciiDigitsCount()
    ensures Passes("0000000000000")
    ensures !Passes(seq(13, _ => '\U{0660}'))
  {
    SumOfCopies("0000000000000", '0', 0);
    SumOfCopies(seq(13, _ => '\U{0660}'), '\U{0660}', 0);
  }

  lemma {:induction false} SumOfCopies(s: string, c: char, place: nat)
    requires forall i | 0 <= i < |s| :: s[i] == c
    ensures Sum(s, place) == |s| / 2 * (Weight(c, 0) + Weight(c, 1)) + if |s| % 2 == 0 then 0 else Weight(c, place)
  {
    hide Weight;
    if s == "" {
    } else {
      var n, both := |s| - 1, Weight(c, 0) + Weight(c, 1);
      SumOfCopies(s[..n], c, place + 1);
      BothParities(c, place);
      if n % 2 == 1 {
        assert |s| / 2 == n / 2 + 1;
        assert (n / 2 + 1) * both == n / 2 * both + both;
      }
    }
  }

  lemma BothParities(c: char, place: nat)
    ensures Weight(c, place) + Weight(c, place + 1) == Weight(c, 0) + Weight(c, 1)
  {}

  // ---- Digits of other scripts ------------------------------------------------

  /** A digit of the script whose ten digits have consecutive codes from `zero` on. */
  predicate DigitOf(c: char, zero: int) {
    zero <= c as int <= zero + 9
  }

  predicate OffByFive(a: char, b: char) {
    a as int - b as int == 5 || b as int - a as int == 5
  }

  /** At an even place a digit beyond the ASCII range adds its value, at an odd place twice its value, each
      with an offset of the script; the fold by 9 always applies. */
  lemma WeightBeyond(c: char, zero: int, place: nat)
    requires zero >= 53 && DigitOf(c, zero)
    ensures var v := c as int - zero;
            Weight(c, place) == if place % 2 == 0 then zero - 48 + v else 2 * (zero - 48) - 9 + 2 * v
  {}

  /** In such a script one wrong digit goes unnoticed exactly when it stands at an odd place and is off by 5. */
  lemma {:induction false} WrongDigitBeyondPassesIff(s: string, i: nat, c: char, zero: int)
    requires zero >= 53 && i < |s| && DigitOf(s[i], zero) && DigitOf(c, zero) && c != s[i] && Passes(s)
    ensures Passes(s[i := c]) <==> Place(s, i) % 2 == 1 && OffByFive(s[i], c)
  {
    hide Sum, Weight, Place;
    SumUpdate(s, 0, i, c);
    WeightBeyond(s[i], zero, Place(s, i));
    WeightBeyond(c, zero, Place(s, i));
    ModularGap(Sum(s, 0), Sum(s[i := c], 0));
    DigitGap(s[i], c, zero);
  }

  /** Two different digits differ by less than ten, so never by a multiple of it, and twice as much is one
      exactly when they differ by 5. */
  lemma DigitGap(a: char, b: char, zero: int)
    requires DigitOf(a, zero) && DigitOf(b, zero) && a != b
    ensures (b as int - a as int) % 10 != 0
    ensures 2 * (b as int - a as int) % 10 == 0 <==> OffByFive(a, b)
  {
    assert a as int != b as int;
  }

  /** A swap of two neighbours goes unnoticed there exactly when they are equal, 0 and 9 included. */
  lemma {:induction false} SwapBeyondPassesIff(s: string, i: nat, zero: int)
    requires zero >= 53 && i + 1 < |s| && DigitOf(s[i], zero) && DigitOf(s[i + 1], zero) && Passes(s)
    ensures Passes(Swapped(s, i)) <==> s[i] == s[i + 1]
  {
    hide Sum, Weight;
    var a, b := s[i], s[i + 1];
    var right := Place(s, i + 1);
    SumUpdate(s, 0, i, b);
    SumUpdate(s[i := b], 0, i + 1, a);
    WeightBeyond(a, zero, right);
    WeightBeyond(a, zero, right + 1);
    WeightBeyond(b, zero, right);
    WeightBeyond(b, zero, right + 1);
    ModularGap(Sum(s, 0), Sum(Swapped(s, i), 0));
    if a != b {
      DigitGap(a, b, zero);
      DigitGap(b, a, zero);
    }
  }

  /** The ASCII digits are the one script whose wrong digits are all caught: in any script beyond them, a
      digit at an odd place of any passing string has another that passes in its stead. */
  lemma {:induction false} OddPlaceHasDouble(s: string, i: nat, zero: int) returns (c: char)
    requires zero >= 53 && i < |s| && DigitOf(s[i], zero) && Place(s, i) % 2 == 1 && Passes(s)
    requires zero + 9 < 0xD800 || (zero > 0xDFFF && zero + 9 < 0x11_0000)
    ensures DigitOf(c, zero) && c != s[i] && Passes(s[i := c])
  {
    var v := s[i] as int - zero;
    c := (zero + (v + 5) % 10) as char;
    assert c as int == zero + (v + 5) % 10;
    WrongDigitBeyondPassesIff(s, i, c, zero);
  }
}
