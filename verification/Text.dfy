/** Python string operations used by the modelled components. */
module Text {
  predicate IsDigit(c: char) {
    '0' <= c <= '9'
  }

  ghost predicate AllDigits(t: string) {
    forall i :: 0 <= i < |t| ==> IsDigit(t[i])
  }

  function DigitOf(d: nat): char
    requires d < 10
  {
    ('0' as int + d) as char
  }

  /** `str(n)` for a non-negative integer. */
  function Numeral(n: nat): (t: string)
    ensures t != "" && AllDigits(t)
  {
    if n < 10 then [DigitOf(n)] else Numeral(n / 10) + [DigitOf(n % 10)]
  }

  /** `int(t)` for a string of digits. */
  function NumeralValue(t: string): nat
    requires AllDigits(t)
  {
    if t == "" then 0
    else 10 * NumeralValue(t[..|t| - 1]) + (t[|t| - 1] as int - '0' as int)
  }

  lemma {:induction false} NumeralRoundTrip(n: nat)
    ensures NumeralValue(Numeral(n)) == n
  {
    if n >= 10 {
      NumeralRoundTrip(n / 10);
      assert Numeral(n)[..|Numeral(n)| - 1] == Numeral(n / 10);
    } else {
      assert Numeral(n)[..0] == "";
    }
  }

  ghost predicate LastHyphenAt(s: string, k: nat) {
    && k < |s| && s[k] == '-'
    && forall i :: k < i < |s| ==> IsDigit(s[i])
  }

  lemma LastHyphenUnique(s: string, k: nat, l: nat)
    requires LastHyphenAt(s, k) && LastHyphenAt(s, l)
    ensures k == l
  {
  }

  /** `f"{head}-{n}"`: the last hyphen always separates the head from the number. */
  lemma HyphenNumeralInjective(head1: string, n1: nat, head2: string, n2: nat)
    requires head1 + "-" + Numeral(n1) == head2 + "-" + Numeral(n2)
    ensures head1 == head2 && n1 == n2
  {
    var t1, t2 := Numeral(n1), Numeral(n2);
    var s := head1 + "-" + t1;
    assert LastHyphenAt(head1 + "-" + t1, |head1|);
    assert LastHyphenAt(head2 + "-" + t2, |head2|);
    LastHyphenUnique(s, |head1|, |head2|);
    assert head1 == s[..|head1|] == head2;
    assert t1 == s[|head1| + 1..] == t2;
    NumeralRoundTrip(n1);
    NumeralRoundTrip(n2);
  }

  /** `s.startswith(prefix)` */
  predicate StartsWith(s: string, prefix: string) {
    prefix <= s
  }

  /** `s.endswith(suffix)` */
  predicate EndsWith(s: string, suffix: string) {
    |suffix| <= |s| && s[|s| - |suffix|..] == suffix
  }

  /** `part in s` */
  predicate Contains(s: string, part: string) {
    exists i :: 0 <= i <= |s| && part <= s[i..]
  }

  /** `str.isspace` for one character. */
  predicate IsSpace(c: char) {
    || '\t' <= c <= '\r'
    || '\U{1c}' <= c <= ' '
    || c == '\U{85}' || c == '\U{a0}' || c == '\U{1680}'
    || '\U{2000}' <= c <= '\U{200a}'
    || c == '\U{2028}' || c == '\U{2029}' || c == '\U{202f}' || c == '\U{205f}' || c == '\U{3000}'
  }

  function StripLeft(s: string): string {
    if s != "" && IsSpace(s[0]) then StripLeft(s[1..]) else s
  }

  function StripRight(s: string): string {
    if s != "" && IsSpace(s[|s| - 1]) then StripRight(s[..|s| - 1]) else s
  }

  /** `s.strip()` */
  function Strip(s: string): string {
    StripRight(StripLeft(s))
  }

  /** Neither end is whitespace. */
  predicate Trimmed(s: string) {
    s == "" || (!IsSpace(s[0]) && !IsSpace(s[|s| - 1]))
  }

  lemma {:induction false} StripLeftEnds(s: string)
    ensures var r := StripLeft(s); r == "" || (!IsSpace(r[0]) && s != "" && r[|r| - 1] == s[|s| - 1])
  {
    if s != "" && IsSpace(s[0]) {
      StripLeftEnds(s[1..]);
    }
  }

  lemma {:induction false} StripRightEnds(s: string)
    ensures var r := StripRight(s); r <= s && (r == "" || !IsSpace(r[|r| - 1]))
  {
    if s != "" && IsSpace(s[|s| - 1]) {
      StripRightEnds(s[..|s| - 1]);
    }
  }

  /** Stripping trims, and leaves a trimmed string alone. */
  lemma StripTrims(s: string)
    ensures Trimmed(Strip(s))
    ensures Trimmed(s) ==> Strip(s) == s
  {
    StripLeftEnds(s);
    StripRightEnds(StripLeft(s));
  }

  predicate Blank(s: string) {
    forall i :: 0 <= i < |s| ==> IsSpace(s[i])
  }

  lemma {:induction false} StripLeftMeans(s: string) returns (before: string)
    ensures s == before + StripLeft(s) && Blank(before)
  {
    if s != "" && IsSpace(s[0]) {
      var rest := StripLeftMeans(s[1..]);
      before := [s[0]] + rest;
      assert s == [s[0]] + s[1..];
    } else {
      before := "";
    }
  }

  lemma {:induction false} StripRightMeans(s: string) returns (after: string)
    ensures s == StripRight(s) + after && Blank(after)
  {
    if s != "" && IsSpace(s[|s| - 1]) {
      var rest := StripRightMeans(s[..|s| - 1]);
      after := rest + [s[|s| - 1]];
      assert s == s[..|s| - 1] + [s[|s| - 1]];
    } else {
      after := "";
    }
  }

  /** Stripping takes away whitespace at the two ends, and nothing else. */
  lemma StripMeans(s: string) returns (before: string, after: string)
    ensures s == before + Strip(s) + after && Blank(before) && Blank(after) && Trimmed(Strip(s))
  {
    before := StripLeftMeans(s);
    after := StripRightMeans(StripLeft(s));
    StripTrims(s);
    assert before + (Strip(s) + after) == before + Strip(s) + after;
  }

  lemma {:induction false} StripLeftPadded(before: string, s: string)
    requires Blank(before) && (s != "" ==> !IsSpace(s[0]))
    ensures StripLeft(before + s) == s
  {
    if before == "" {
      assert before + s == s;
    } else {
      assert (before + s)[1..] == before[1..] + s;
      StripLeftPadded(before[1..], s);
    }
  }

  lemma {:induction false} StripRightPadded(s: string, after: string)
    requires Blank(after) && (s != "" ==> !IsSpace(s[|s| - 1]))
    ensures StripRight(s + after) == s
  {
    if after == "" {
      assert s + after == s;
    } else {
      var n := |after| - 1;
      assert (s + after)[..|s| + n] == s + after[..n];
      StripRightPadded(s, after[..n]);
    }
  }

  /** Whatever whitespace surrounds a trimmed text, stripping leaves the text. */
  lemma StripUnique(before: string, core: string, after: string)
    requires Blank(before) && Blank(after) && Trimmed(core) && core != ""
    ensures Strip(before + core + after) == core
  {
    assert before + core + after == before + (core + after);
    StripLeftPadded(before, core + after);
    StripRightPadded(core, after);
  }

  lemma {:induction false} StripLeftBlank(s: string)
    ensures StripLeft(s) == "" <==> Blank(s)
  {
    if s != "" {
      StripLeftBlank(s[1..]);
      assert s == [s[0]] + s[1..];
    }
  }

  /** Nothing is left exactly when there was nothing but whitespace. */
  lemma StripBlank(s: string)
    ensures Strip(s) == "" <==> Blank(s)
  {
    StripLeftBlank(s);
    StripLeftEnds(s);
    StripRightEnds(StripLeft(s));
    var after := StripRightMeans(StripLeft(s));
  }

  /** `s.replace(c, image)` for a one-character pattern. */
  function Replace(s: string, c: char, image: string): string {
    if s == "" then "" else (if s[0] == c then image else [s[0]]) + Replace(s[1..], c, image)
  }

  lemma {:induction false} ReplaceGrows(s: string, c: char, image: string)
    requires image != ""
    ensures |Replace(s, c, image)| >= |s|
  {
    if s != "" {
      ReplaceGrows(s[1..], c, image);
    }
  }

  lemma {:induction false} ReplaceAbsent(s: string, c: char, image: string)
    requires c !in s
    ensures Replace(s, c, image) == s
  {
    if s != "" {
      ReplaceAbsent(s[1..], c, image);
      assert s == [s[0]] + s[1..];
    }
  }

  lemma {:induction false} ReplaceAppend(s: string, t: string, c: char, image: string)
    ensures Replace(s + t, c, image) == Replace(s, c, image) + Replace(t, c, image)
  {
    if s == "" {
      assert s + t == t;
    } else {
      ReplaceAppend(s[1..], t, c, image);
      var head := if s[0] == c then image else [s[0]];
      assert (s + t)[0] == s[0] && (s + t)[1..] == s[1..] + t;
      assert head + Replace(s[1..], c, image) + Replace(t, c, image)
          == head + (Replace(s[1..], c, image) + Replace(t, c, image));
    }
  }

  /** ASCII lower-casing, plus the Kelvin sign, the one other character whose
      `str.lower()` is a single ASCII letter. */
  function LowerChar(c: char): char {
    if 'A' <= c <= 'Z' then (c as int + 32) as char
    else if c == '\U{212a}' then 'k'
    else c
  }

  function Lower(s: string): (r: string)
    ensures |r| == |s|
  {
    seq(|s|, i requires 0 <= i < |s| => LowerChar(s[i]))
  }

  /** ASCII upper-casing, plus the long s and the dotless i, the two other characters whose
      `str.upper()` is a single ASCII letter. */
  function UpperChar(c: char): char {
    if 'a' <= c <= 'z' then (c as int - 32) as char
    else if c == '\U{17f}' then 'S'
    else if c == '\U{131}' then 'I'
    else c
  }

  function Upper(s: string): (r: string)
    ensures |r| == |s|
  {
    seq(|s|, i requires 0 <= i < |s| => UpperChar(s[i]))
  }

  /** `sep.join(parts)` */
  function Join(parts: seq<string>, sep: string): string {
    if parts == [] then ""
    else if |parts| == 1 then parts[0]
    else parts[0] + sep + Join(parts[1..], sep)
  }

  /** `s.split(c)` for a one-character separator. */
  function Split(s: string, c: char): (parts: seq<string>)
    ensures parts != []
  {
    if s == "" then [""]
    else
      var rest := Split(s[1..], c);
      if s[0] == c then [""] + rest else [[s[0]] + rest[0]] + rest[1..]
  }

  /** `s.rstrip(c)` for one character. */
  function TrimEnd(s: string, c: char): string {
    if s != "" && s[|s| - 1] == c then TrimEnd(s[..|s| - 1], c) else s
  }

  /** `s.rfind(c)`, or -1. */
  function LastIndex(s: string, c: char): (i: int)
    ensures -1 <= i < |s|
  {
    if s == "" then -1
    else if s[|s| - 1] == c then |s| - 1
    else LastIndex(s[..|s| - 1], c)
  }
}
