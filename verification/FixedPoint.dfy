/** Decimals and their fixed-point spelling: what `format(d, "f")` prints reads back. */
module FixedPoint {
  import opened Wrappers
  import opened Text

  /** A finite `Decimal`: its sign, its coefficient and its exponent. */
  datatype Decimal = Decimal(negative: bool, coefficient: nat, exponent: int)

  /** `n` with `k` zeros behind it. */
  function Scale(n: nat, k: nat): (r: nat)
    ensures n <= r
  {
    if k == 0 then n else 10 * Scale(n, k - 1)
  }

  /** `n` without its last `k` digits. */
  function Shift(n: nat, k: nat): nat {
    if k == 0 then n else Shift(n / 10, k - 1)
  }

  function DecimalValue(d: Decimal): real {
    var magnitude := if d.exponent >= 0 then Scale(d.coefficient, d.exponent) as real
                     else d.coefficient as real / Scale(1, -d.exponent) as real;
    if d.negative then -magnitude else magnitude
  }

  /** The last `k` digits of `n`, with leading zeros. */
  function LastDigits(n: nat, k: nat): (t: string)
    ensures |t| == k && AllDigits(t)
  {
    if k == 0 then "" else LastDigits(n / 10, k - 1) + [DigitOf(n % 10)]
  }

  /** The text without an exponent: a sign if negative, and a point if digits follow it. */
  function Plain(negative: bool, whole: string, fraction: string): string {
    (if negative then "-" else "") + whole + (if fraction == "" then "" else "." + fraction)
  }

  function DecimalOf(negative: bool, whole: string, fraction: string): Decimal
    requires AllDigits(whole) && AllDigits(fraction)
  {
    Decimal(negative, NumeralValue(whole + fraction), -|fraction|)
  }

  /** `format(d, "f")` */
  function Fixed(d: Decimal): string {
    if d.exponent >= 0 then Plain(d.negative, Numeral(Scale(d.coefficient, d.exponent)), "")
    else Plain(d.negative, Numeral(Shift(d.coefficient, -d.exponent)), LastDigits(d.coefficient, -d.exponent))
  }

  /** What is asked of a reader of decimals: plain texts mean what they spell, digit by digit. */
  ghost predicate ReadsPlain(read: string -> Option<Decimal>) {
    forall negative, whole, fraction :: whole != "" && AllDigits(whole) && AllDigits(fraction) ==>
      read(Plain(negative, whole, fraction)) == Some(DecimalOf(negative, whole, fraction))
  }

  /** A number's digits before and after the point spell the number. */
  lemma {:induction false} SplitDigitsSpell(n: nat, k: nat)
    ensures NumeralValue(Numeral(Shift(n, k)) + LastDigits(n, k)) == n
  {
    var text := Numeral(Shift(n, k)) + LastDigits(n, k);
    if k == 0 {
      assert text == Numeral(n);
      NumeralRoundTrip(n);
    } else {
      SplitDigitsSpell(n / 10, k - 1);
      assert text[..|text| - 1] == Numeral(Shift(n / 10, k - 1)) + LastDigits(n / 10, k - 1);
      assert text[|text| - 1] == DigitOf(n % 10);
    }
  }

  /** Printing a decimal and reading it back keeps its value and its spelling, whatever its exponent
      was; without a positive exponent it is the same decimal, trailing zeros and sign included. */
  lemma FixedReadsBack(read: string -> Option<Decimal>, d: Decimal)
    requires ReadsPlain(read)
    ensures var back := read(Fixed(d));
            && back.Some? && DecimalValue(back.value) == DecimalValue(d) && Fixed(back.value) == Fixed(d)
            && (d.exponent <= 0 ==> back.value == d)
  {
    if d.exponent >= 0 {
      var n := Scale(d.coefficient, d.exponent);
      assert Numeral(n) + "" == Numeral(n);
      NumeralRoundTrip(n);
      assert read(Plain(d.negative, Numeral(n), "")) == Some(DecimalOf(d.negative, Numeral(n), ""));
    } else {
      var k := -d.exponent;
      var whole, fraction := Numeral(Shift(d.coefficient, k)), LastDigits(d.coefficient, k);
      SplitDigitsSpell(d.coefficient, k);
      assert read(Plain(d.negative, whole, fraction)) == Some(DecimalOf(d.negative, whole, fraction));
    }
  }

  predicate IsPlainChar(c: char) {
    IsDigit(c) || c == '-' || c == '.'
  }

  lemma FixedChars(d: Decimal)
    ensures Fixed(d) != "" && forall i :: 0 <= i < |Fixed(d)| ==> IsPlainChar(Fixed(d)[i])
  {
  }

  // ---------------------------------------------------------------- a reader

  function LeadingDigits(s: string): (n: nat)
    ensures n <= |s| && AllDigits(s[..n]) && (n < |s| ==> !IsDigit(s[n]))
  {
    if s == "" || !IsDigit(s[0]) then 0 else 1 + LeadingDigits(s[1..])
  }

  /** Reads plain texts and nothing else. */
  ghost function ReadPlain(s: string): Option<Decimal> {
    var negative := s != "" && s[0] == '-';
    var body := if negative then s[1..] else s;
    var n := LeadingDigits(body);
    if n == 0 then None
    else if n == |body| then Some(DecimalOf(negative, body[..n], ""))
    else if body[n] == '.' && AllDigits(body[n + 1..]) then Some(DecimalOf(negative, body[..n], body[n + 1..]))
    else None
  }

  lemma {:induction false} LeadingDigitsOf(whole: string, after: string)
    requires AllDigits(whole) && (after != "" ==> !IsDigit(after[0]))
    ensures LeadingDigits(whole + after) == |whole|
  {
    if whole == "" {
      assert whole + after == after;
    } else {
      assert IsDigit(whole[0]) && (whole + after)[1..] == whole[1..] + after;
      LeadingDigitsOf(whole[1..], after);
    }
  }

  lemma ReadPlainReads(negative: bool, whole: string, fraction: string)
    requires whole != "" && AllDigits(whole) && AllDigits(fraction)
    ensures ReadPlain(Plain(negative, whole, fraction)) == Some(DecimalOf(negative, whole, fraction))
  {
    var s, body := Plain(negative, whole, fraction), whole + if fraction == "" then "" else "." + fraction;
    assert IsDigit(whole[0]);
    assert s == (if negative then "-" + body else body);
    assert (if negative then s[1..] else s) == body;
    BodyParts(whole, fraction);
  }

  lemma BodyParts(whole: string, fraction: string)
    requires AllDigits(whole)
    ensures var body := whole + if fraction == "" then "" else "." + fraction;
            && LeadingDigits(body) == |whole| && body[..|whole|] == whole
            && (if fraction == "" then |body| == |whole| else body[|whole|] == '.' && body[|whole| + 1..] == fraction)
  {
    LeadingDigitsOf(whole, if fraction == "" then "" else "." + fraction);
  }

  /** The reader asked for exists. */
  lemma PlainReaderExists() returns (read: string -> Option<Decimal>)
    ensures ReadsPlain(read)
    ensures forall s :: read(s) == ReadPlain(s)
  {
    read := s => ReadPlain(s);
    forall negative, whole, fraction | whole != "" && AllDigits(whole) && AllDigits(fraction)
      ensures read(Plain(negative, whole, fraction)) == Some(DecimalOf(negative, whole, fraction))
    {
      ReadPlainReads(negative, whole, fraction);
    }
  }
}
