/**
 The PowerShell quoting of the finalization script, against a reader of the literals it writes, after
 sections 2.3.5.2.1 and 2.3.5.2.2 of the Windows PowerShell Language Specification 3.0.
 The shell also ends strings at typographic quotes, which the quoting does not escape.
 */
module PowerShellQuoting {
  import opened Wrappers
  import opened Text

  // ---------------------------------------------------------------- the writer

  /** Three successive replacements, as the source writes them. */
  function DoubleQuotedText(value: string): string {
    Replace(Replace(Replace(value, '`', "``"), '$', "`$"), '"', "`\"")
  }

  function DoubleQuoted(value: string): string {
    "\"" + DoubleQuotedText(value) + "\""
  }

  function QuotedAll(values: seq<string>): (quoted: seq<string>)
    ensures |quoted| == |values|
  {
    seq(|values|, i requires 0 <= i < |values| => DoubleQuoted(values[i]))
  }

  function ArrayLiteral(values: seq<string>): string {
    if values == [] then "@()"
    else "@(\n    " + Join(QuotedAll(values), ",\n    ") + "\n)"
  }

  predicate IsSafe(c: char) {
    'a' <= c <= 'z' || 'A' <= c <= 'Z' || '0' <= c <= '9' || c in "/\\._:-"
  }

  predicate AllSafe(s: string) {
    forall i :: 0 <= i < |s| ==> IsSafe(s[i])
  }

  /** A bare word when every character is safe, else a verbatim string. */
  function CommandArg(value: string): string {
    if value != "" && AllSafe(value) then value else "'" + Replace(value, '\'', "''") + "'"
  }

  lemma LowerCaseLetters(c: char)
    ensures 'a' <= c <= 'z' <==> c in "abcdefghijklmnopqrstuvwxyz"
  {
    if 'a' <= c <= 'z' {
      assert "abcdefghijklmnopqrstuvwxyz"[c as int - 'a' as int] == c;
    }
  }

  lemma UpperCaseLetters(c: char)
    ensures 'A' <= c <= 'Z' <==> c in "ABCDEFGHIJKLMNOPQRSTUVWXYZ"
  {
    if 'A' <= c <= 'Z' {
      assert "ABCDEFGHIJKLMNOPQRSTUVWXYZ"[c as int - 'A' as int] == c;
    }
  }

  lemma Digits(c: char)
    ensures '0' <= c <= '9' <==> c in "0123456789"
  {
    if '0' <= c <= '9' {
      assert "0123456789"[c as int - '0' as int] == c;
    }
  }

  predicate IsListed(c: char) {
    c in "abcdefghijklmnopqrstuvwxyz" || c in "ABCDEFGHIJKLMNOPQRSTUVWXYZ" || c in "0123456789" || c in "/\\._:-"
  }

  lemma SafeIsListed(c: char)
    ensures IsSafe(c) <==> IsListed(c)
  {
    LowerCaseLetters(c);
    UpperCaseLetters(c);
    Digits(c);
  }

  /** An argument goes out bare exactly when there is one and all its characters are listed. */
  lemma BareIff(value: string)
    ensures CommandArg(value) == value <==> value != "" && forall i :: 0 <= i < |value| ==> IsListed(value[i])
  {
    ReplaceGrows(value, '\'', "''");
    forall i | 0 <= i < |value|
      ensures IsSafe(value[i]) <==> IsListed(value[i])
    {
      SafeIsListed(value[i]);
    }
  }

  function QuotedArgs(values: seq<string>): (args: seq<string>)
    ensures |args| == |values|
  {
    seq(|values|, i requires 0 <= i < |values| => CommandArg(values[i]))
  }

  function CommandArgs(values: seq<string>): string {
    Join(QuotedArgs(values), " ")
  }

  // ---------------------------------------------------------------- the shell's reader

  predicate IsTypographicDouble(c: char) {
    '\U{201c}' <= c <= '\U{201e}'
  }

  predicate IsDoubleQuote(c: char) {
    c == '"' || IsTypographicDouble(c)
  }

  predicate IsTypographicSingle(c: char) {
    '\U{2018}' <= c <= '\U{201b}'
  }

  predicate IsSingleQuote(c: char) {
    c == '\'' || IsTypographicSingle(c)
  }

  function Escaped(c: char): char {
    match c
    case '0' => '\0'
    case 'a' => '\U{7}'
    case 'b' => '\U{8}'
    case 'f' => '\U{c}'
    case 'n' => '\n'
    case 'r' => '\r'
    case 't' => '\t'
    case 'v' => '\U{b}'
    case _ => c
  }

  datatype Read = Read(value: string, rest: string)

  /** An expandable string after its opening quote: the value and the text after the closing quote.
      None when the string does not end, or when an unescaped `$` asks for an expansion. */
  function ReadExpandable(src: string): (r: Option<Read>)
    ensures r.Some? ==> |r.value.rest| < |src|
  {
    if src == "" then None
    else if IsDoubleQuote(src[0]) then
      if |src| > 1 && IsDoubleQuote(src[1]) then Prepend(src[1], ReadExpandable(src[2..]))
      else Some(Read("", src[1..]))
    else if src[0] == '$' then None
    else if src[0] == '`' then
      if |src| > 1 then Prepend(Escaped(src[1]), ReadExpandable(src[2..])) else None
    else Prepend(src[0], ReadExpandable(src[1..]))
  }

  /** A verbatim string after its opening quote. */
  function ReadVerbatim(src: string): (r: Option<Read>)
    ensures r.Some? ==> |r.value.rest| < |src|
  {
    if src == "" then None
    else if IsSingleQuote(src[0]) then
      if |src| > 1 && IsSingleQuote(src[1]) then Prepend(src[1], ReadVerbatim(src[2..]))
      else Some(Read("", src[1..]))
    else Prepend(src[0], ReadVerbatim(src[1..]))
  }

  function Prepend(c: char, r: Option<Read>): Option<Read> {
    match r
    case None => None
    case Some(Read(value, rest)) => Some(Read([c] + value, rest))
  }

  function Cons(value: string, r: Option<seq<string>>): Option<seq<string>> {
    match r
    case None => None
    case Some(values) => Some([value] + values)
  }

  lemma ConsIff(value: string, r: Option<seq<string>>, values: seq<string>)
    requires values != []
    ensures Cons(value, r) == Some(values) <==> value == values[0] && r == Some(values[1..])
  {
    assert values == [values[0]] + values[1..];
    if r.Some? {
      assert ([value] + r.value)[1..] == r.value;
    }
  }

  /** A whole text that is one expandable string. */
  function ReadLiteral(src: string): Option<string> {
    if src == "" || !IsDoubleQuote(src[0]) then None
    else match ReadExpandable(src[1..])
      case None => None
      case Some(Read(value, rest)) => if rest == "" then Some(value) else None
  }

  function SkipSpace(src: string): (r: string)
    ensures |r| <= |src|
  {
    if src != "" && (src[0] == ' ' || src[0] == '\n') then SkipSpace(src[1..]) else src
  }

  /** The comma-separated strings of an array expression, up to the closing parenthesis. */
  function ReadElements(src: string): Option<seq<string>>
    decreases |src|
  {
    if src == "" || !IsDoubleQuote(src[0]) then None
    else match ReadExpandable(src[1..])
      case None => None
      case Some(Read(value, rest)) => Cons(value, ReadMoreElements(rest))
  }

  function ReadMoreElements(rest: string): Option<seq<string>>
    decreases |rest|
  {
    var after := SkipSpace(rest);
    if after == ")" then Some([])
    else if after != "" && after[0] == ',' then ReadElements(SkipSpace(after[1..]))
    else None
  }

  function ReadArray(src: string): Option<seq<string>> {
    if src == "@()" then Some([])
    else if "@(" <= src then ReadElements(SkipSpace(src[2..]))
    else None
  }

  function SafePrefix(src: string): (n: nat)
    ensures n <= |src| && AllSafe(src[..n]) && (n < |src| ==> !IsSafe(src[n]))
  {
    if src != "" && IsSafe(src[0]) then
      var n := SafePrefix(src[1..]);
      assert src[..n + 1] == [src[0]] + src[1..][..n];
      n + 1
    else 0
  }

  /** One command argument: a verbatim string or a bare word. */
  function ReadArg(src: string): Option<Read> {
    if src == "" then None
    else if IsSingleQuote(src[0]) then ReadVerbatim(src[1..])
    else
      var n := SafePrefix(src);
      if n == 0 then None else Some(Read(src[..n], src[n..]))
  }

  /** Arguments separated by single spaces. */
  function ReadArgs(src: string): Option<seq<string>>
    decreases |src|, 1
  {
    match ReadArg(src)
    case None => None
    case Some(Read(value, rest)) => if |rest| < |src| then Cons(value, ReadMoreArgs(rest)) else None
  }

  function ReadMoreArgs(rest: string): Option<seq<string>>
    decreases |rest|, 0
  {
    if rest == "" then Some([])
    else if rest[0] == ' ' then ReadArgs(rest[1..])
    else None
  }

  // ---------------------------------------------------------------- escaping is one pass

  predicate NeedsBacktick(c: char) {
    c == '`' || c == '$' || c == '"'
  }

  /** Each special character is preceded by one backtick. */
  function Escape(value: string): string {
    if value == "" then ""
    else (if NeedsBacktick(value[0]) then ['`', value[0]] else [value[0]]) + Escape(value[1..])
  }

  /** Replacing backticks first makes the three replacements equal one pass over the characters. */
  lemma {:induction false} ThreeReplacementsAreOnePass(value: string)
    ensures DoubleQuotedText(value) == Escape(value)
  {
    if value != "" {
      ThreeReplacementsAreOnePass(value[1..]);
      var c := value[0];
      var first := if c == '`' then "``" else [c];
      var x1 := Replace(value[1..], '`', "``");
      assert Replace(value, '`', "``") == first + x1;
      ReplaceAppend(first, x1, '$', "`$");
      var x2 := Replace(x1, '$', "`$");
      var second := if c == '`' then "``" else if c == '$' then "`$" else [c];
      assert Replace(first, '$', "`$") == second by {
        ReplaceShort(first, '$', "`$");
      }
      ReplaceAppend(second, x2, '"', "`\"");
      assert Replace(second, '"', "`\"") == if NeedsBacktick(c) then ['`', c] else [c] by {
        ReplaceShort(second, '"', "`\"");
      }
    }
  }

  lemma ReplaceShort(s: string, c: char, image: string)
    requires 1 <= |s| <= 2
    ensures Replace(s, c, image) ==
            (if s[0] == c then image else [s[0]]) + if |s| == 2 then (if s[1] == c then image else [s[1]]) else ""
  {
    if |s| == 2 {
      assert s[1..] == [s[1]];
      assert Replace([s[1]], c, image) == if s[1] == c then image else [s[1]] by {
        assert [s[1]][1..] == "";
      }
    } else {
      assert s[1..] == "";
    }
  }

  // ---------------------------------------------------------------- expandable strings

  ghost predicate PlainDouble(value: string) {
    forall i :: 0 <= i < |value| ==> !IsTypographicDouble(value[i])
  }

  ghost predicate AllTypographicDouble(value: string) {
    forall i :: 0 <= i < |value| ==> IsTypographicDouble(value[i])
  }

  /** What the script puts after a closing quote: neither a quote nor a backtick. */
  predicate EndsCleanly(after: string) {
    after == "" || (!IsDoubleQuote(after[0]) && after[0] != '`')
  }

  lemma ReadOrdinary(c: char, tail: string)
    requires !IsDoubleQuote(c) && c != '$' && c != '`'
    ensures ReadExpandable([c] + tail) == Prepend(c, ReadExpandable(tail))
  {
    assert ([c] + tail)[1..] == tail;
  }

  lemma ReadBacktick(c: char, tail: string)
    ensures ReadExpandable(['`', c] + tail) == Prepend(Escaped(c), ReadExpandable(tail))
  {
    assert (['`', c] + tail)[2..] == tail;
  }

  /** One character that is not a typographic quote is read back as itself. */
  lemma ReadEscapedChar(value: string, after: string)
    requires value != "" && !IsTypographicDouble(value[0])
    ensures ReadExpandable(Escape(value) + "\"" + after)
         == Prepend(value[0], ReadExpandable(Escape(value[1..]) + "\"" + after))
  {
    var tail := Escape(value[1..]) + "\"" + after;
    var src := Escape(value) + "\"" + after;
    if NeedsBacktick(value[0]) {
      assert src == ['`', value[0]] + tail;
      ReadBacktick(value[0], tail);
    } else {
      assert src == [value[0]] + tail;
      ReadOrdinary(value[0], tail);
    }
  }

  /** A text without typographic quotes reads back, whatever follows the closing quote. */
  lemma {:induction false} EscapedReadsBack(value: string, after: string)
    requires PlainDouble(value) && EndsCleanly(after)
    ensures ReadExpandable(Escape(value) + "\"" + after) == Some(Read(value, after))
  {
    if value == "" {
      assert Escape(value) + "\"" + after == "\"" + after;
    } else {
      ReadEscapedChar(value, after);
      EscapedReadsBack(value[1..], after);
      assert [value[0]] + value[1..] == value;
    }
  }

  lemma EscapeFront(value: string, after: string)
    requires value != "" && !NeedsBacktick(value[0])
    ensures Escape(value) + "\"" + after == [value[0]] + (Escape(value[1..]) + "\"" + after)
  {
  }

  /** A typographic quote at the end of a text pairs up with the closing quote. */
  lemma TypographicAtEnd(c: char, after: string)
    requires IsTypographicDouble(c)
    ensures ReadExpandable(Escape([c]) + "\"" + after) == Prepend('"', ReadExpandable(after))
  {
    EscapeFront([c], after);
    var src := Escape([c]) + "\"" + after;
    assert src[2..] == after;
  }

  /** Two typographic quotes in a row are read as one. */
  lemma TypographicPair(value: string, after: string)
    requires |value| > 1 && IsTypographicDouble(value[0]) && IsTypographicDouble(value[1])
    ensures ReadExpandable(Escape(value) + "\"" + after)
         == Prepend(value[1], ReadExpandable(Escape(value[2..]) + "\"" + after))
  {
    EscapeFront(value, after);
    EscapeFront(value[1..], after);
    assert value[1..][1..] == value[2..];
    var src := Escape(value) + "\"" + after;
    assert src == [value[0]] + ([value[1]] + (Escape(value[2..]) + "\"" + after));
    assert src[2..] == Escape(value[2..]) + "\"" + after;
  }

  /** A single typographic quote ends the string. */
  lemma TypographicEnds(value: string, after: string)
    requires |value| > 1 && IsTypographicDouble(value[0]) && !IsTypographicDouble(value[1])
    ensures ReadExpandable(Escape(value) + "\"" + after) == Some(Read("", Escape(value[1..]) + "\"" + after))
  {
    EscapeFront(value, after);
    var src := Escape(value) + "\"" + after;
    assert src[1..] == Escape(value[1..]) + "\"" + after;
    assert src[1] == Escape(value[1..])[0];
  }

  lemma LaggingPairDiffers(value: string, swallowed: string, after: string)
    requires |value| >= 2 && IsTypographicDouble(value[0]) && IsTypographicDouble(value[1]) && swallowed != ""
    requires match ReadExpandable(Escape(value[2..]) + "\"" + after)
             case None => true
             case Some(r) => r.value != swallowed[1..] + value[..2] + value[2..]
    ensures match ReadExpandable(Escape(value) + "\"" + after)
            case None => true
            case Some(r) => r.value != swallowed + value
  {
    TypographicPair(value, after);
    assert (swallowed + value)[1..] == swallowed[1..] + value[..2] + value[2..];
  }

  /** Once the reader has swallowed typographic quotes it stays behind the text for good. */
  lemma {:induction false} LaggingReadDiffers(value: string, swallowed: string, after: string)
    requires swallowed != "" && AllTypographicDouble(swallowed) && EndsCleanly(after)
    ensures match ReadExpandable(Escape(value) + "\"" + after)
            case None => true
            case Some(r) => r.value != swallowed + value
    decreases |value|
  {
    var target := swallowed + value;
    if value == "" {
      EscapedReadsBack(value, after);
    } else if !IsTypographicDouble(value[0]) {
      ReadEscapedChar(value, after);
      assert target[0] == swallowed[0];
    } else {
      if |value| == 1 {
        TypographicAtEnd(value[0], after);
        assert value == [value[0]];
        assert target[1] == if |swallowed| > 1 then swallowed[1] else value[0];
        ReadsOrdinaryFirst(after);
      } else if !IsTypographicDouble(value[1]) {
        TypographicEnds(value, after);
      } else {
        LaggingReadDiffers(value[2..], swallowed[1..] + value[..2], after);
        LaggingPairDiffers(value, swallowed, after);
      }
    }
  }

  /** Text that starts cleanly is read with its own first character, or not at all. */
  lemma ReadsOrdinaryFirst(after: string)
    requires EndsCleanly(after)
    ensures match ReadExpandable(after)
            case None => true
            case Some(r) => r.value != "" && !IsTypographicDouble(r.value[0])
  {
  }

  /** A text with a typographic quote never reads back, whatever follows the closing quote. */
  lemma {:induction false} TypographicNeverReadsBack(value: string, after: string)
    requires !PlainDouble(value) && EndsCleanly(after)
    ensures match ReadExpandable(Escape(value) + "\"" + after)
            case None => true
            case Some(r) => r.value != value
  {
    if !IsTypographicDouble(value[0]) {
      ReadEscapedChar(value, after);
      assert !PlainDouble(value[1..]);
      TypographicNeverReadsBack(value[1..], after);
    } else {
      if |value| == 1 {
        TypographicAtEnd(value[0], after);
        assert value == [value[0]];
        ReadsOrdinaryFirst(after);
      } else if !IsTypographicDouble(value[1]) {
        TypographicEnds(value, after);
      } else {
        TypographicPair(value, after);
        LaggingReadDiffers(value[2..], [value[1]], after);
        assert value[1..] == [value[1]] + value[2..];
      }
    }
  }

  /** The quoting is undone by the shell exactly on texts without typographic double quotes. */
  lemma DoubleQuotedReadsBackIff(value: string)
    ensures ReadLiteral(DoubleQuoted(value)) == Some(value) <==> PlainDouble(value)
  {
    ThreeReplacementsAreOnePass(value);
    var src := DoubleQuoted(value);
    assert src[1..] == Escape(value) + "\"" + "";
    if PlainDouble(value) {
      EscapedReadsBack(value, "");
    } else {
      TypographicNeverReadsBack(value, "");
    }
  }

  // ---------------------------------------------------------------- the array expression

  /** The elements of the array as rendered, up to and including the closing parenthesis. */
  function Elements(values: seq<string>): string
    requires values != []
  {
    if |values| == 1 then DoubleQuoted(values[0]) + "\n)"
    else DoubleQuoted(values[0]) + ",\n    " + Elements(values[1..])
  }

  lemma {:induction false} ArrayLiteralElements(values: seq<string>)
    requires values != []
    ensures Join(QuotedAll(values), ",\n    ") + "\n)" == Elements(values)
  {
    if |values| > 1 {
      ArrayLiteralElements(values[1..]);
      assert QuotedAll(values)[1..] == QuotedAll(values[1..]);
    }
  }

  ghost predicate AllPlainDouble(values: seq<string>) {
    forall i :: 0 <= i < |values| ==> PlainDouble(values[i])
  }

  /** The text after the first rendered element. */
  function AfterFirst(values: seq<string>): string
    requires values != []
  {
    if |values| == 1 then "\n)" else "," + ("\n    " + Elements(values[1..]))
  }

  lemma SkipOne(c: char, e: string)
    requires c == ' ' || c == '\n'
    ensures SkipSpace([c] + e) == SkipSpace(e)
  {
    assert ([c] + e)[1..] == e;
  }

  lemma {:induction false} SkipIndent(indent: string, e: string)
    requires forall i :: 0 <= i < |indent| ==> indent[i] == ' ' || indent[i] == '\n'
    requires e != "" && e[0] != ' ' && e[0] != '\n'
    ensures SkipSpace(indent + e) == e
  {
    if indent == "" {
      assert indent + e == e;
    } else {
      SkipIndent(indent[1..], e);
      SkipOne(indent[0], indent[1..] + e);
      assert indent + e == [indent[0]] + (indent[1..] + e);
    }
  }

  lemma QuotedText(value: string, after: string)
    ensures DoubleQuoted(value) + after == "\"" + (Escape(value) + "\"" + after)
  {
    ThreeReplacementsAreOnePass(value);
  }

  lemma ElementsSplit(values: seq<string>)
    requires values != []
    ensures Elements(values) == DoubleQuoted(values[0]) + AfterFirst(values)
  {
    if |values| > 1 {
      var first, rest := DoubleQuoted(values[0]), Elements(values[1..]);
      assert first + ",\n    " + rest == first + ("," + ("\n    " + rest));
    }
  }

  lemma ElementsFront(values: seq<string>)
    requires values != []
    ensures Elements(values) == "\"" + (Escape(values[0]) + "\"" + AfterFirst(values))
  {
    ElementsSplit(values);
    QuotedText(values[0], AfterFirst(values));
  }

  lemma CommaReads(text: string)
    ensures ReadMoreElements("," + text) == ReadElements(SkipSpace(text))
  {
    assert ("," + text)[1..] == text;
  }

  lemma CloseReads()
    ensures ReadMoreElements("\n)") == Some([])
  {
    SkipOne('\n', ")");
    assert "\n)" == ['\n'] + ")";
  }

  lemma AfterFirstReads(values: seq<string>)
    requires values != []
    ensures EndsCleanly(AfterFirst(values))
    ensures ReadMoreElements(AfterFirst(values)) ==
              if |values| == 1 then Some([]) else ReadElements(Elements(values[1..]))
  {
    if |values| == 1 {
      CloseReads();
    } else {
      ElementsFront(values[1..]);
      SkipIndent("\n    ", Elements(values[1..]));
      CommaReads("\n    " + Elements(values[1..]));
    }
  }

  lemma AllPlainDoubleSplit(values: seq<string>)
    requires values != []
    ensures AllPlainDouble(values) <==> PlainDouble(values[0]) && AllPlainDouble(values[1..])
  {
    assert forall i :: 1 <= i < |values| ==> values[i] == values[1..][i - 1];
  }

  lemma FirstElementReadsBackIff(values: seq<string>, after: string)
    requires values != [] && EndsCleanly(after)
    ensures ReadElements("\"" + (Escape(values[0]) + "\"" + after)) == Some(values)
       <==> PlainDouble(values[0]) && ReadMoreElements(after) == Some(values[1..])
  {
    var body := Escape(values[0]) + "\"" + after;
    assert ("\"" + body)[1..] == body;
    if PlainDouble(values[0]) {
      EscapedReadsBack(values[0], after);
    } else {
      TypographicNeverReadsBack(values[0], after);
    }
    var r := ReadExpandable(body);
    if r.Some? {
      ConsIff(r.value.value, ReadMoreElements(r.value.rest), values);
    }
  }

  lemma {:induction false} ElementsReadBackIff(values: seq<string>)
    requires values != []
    ensures ReadElements(Elements(values)) == Some(values) <==> AllPlainDouble(values)
  {
    ElementsFront(values);
    AfterFirstReads(values);
    AllPlainDoubleSplit(values);
    FirstElementReadsBackIff(values, AfterFirst(values));
    if |values| == 1 {
      assert values[1..] == [];
    } else {
      ElementsReadBackIff(values[1..]);
    }
  }

  lemma OpenReads(text: string)
    requires text != "" && text[0] == '\n'
    ensures ReadArray("@(" + text) == ReadElements(SkipSpace(text))
  {
    var src := "@(" + text;
    assert src[2] == '\n' && src[..2] == "@(" && src[2..] == text;
  }

  lemma ArrayLiteralText(values: seq<string>)
    requires values != []
    ensures ArrayLiteral(values) == "@(" + ("\n    " + Elements(values))
  {
    ArrayLiteralElements(values);
    var inner := Join(QuotedAll(values), ",\n    ");
    assert "@(\n    " + inner + "\n)" == "@(" + ("\n    " + (inner + "\n)"));
  }

  lemma ArrayReadsElements(values: seq<string>)
    requires values != []
    ensures ReadArray(ArrayLiteral(values)) == ReadElements(Elements(values))
  {
    ArrayLiteralText(values);
    ElementsFront(values);
    OpenReads("\n    " + Elements(values));
    SkipIndent("\n    ", Elements(values));
  }

  /** The rendered `@(...)` array reads back as the exact file list, exactly when no file name holds
      a typographic double quote. */
  lemma ArrayReadsBackIff(values: seq<string>)
    ensures ReadArray(ArrayLiteral(values)) == Some(values) <==> AllPlainDouble(values)
  {
    if values != [] {
      ArrayReadsElements(values);
      ElementsReadBackIff(values);
    }
  }

  // ---------------------------------------------------------------- verbatim strings and arguments

  ghost predicate PlainSingle(value: string) {
    forall i :: 0 <= i < |value| ==> !IsTypographicSingle(value[i])
  }

  /** How many characters of `s` are not single quotes of any kind. */
  function Plain(s: string): nat {
    if s == "" then 0 else (if IsSingleQuote(s[0]) then 0 else 1) + Plain(s[1..])
  }

  lemma {:induction false} PlainAppend(s: string, t: string)
    ensures Plain(s + t) == Plain(s) + Plain(t)
  {
    if s == "" {
      assert s + t == t;
    } else {
      PlainAppend(s[1..], t);
      assert (s + t)[1..] == s[1..] + t;
    }
  }

  lemma {:induction false} PlainAtMostLength(s: string)
    ensures Plain(s) <= |s|
  {
    if s != "" {
      PlainAtMostLength(s[1..]);
    }
  }

  /** A read consumed `used` and yielded `value`: every character that is no quote once, quotes in
      pairs, and one quote to close. */
  ghost predicate Conserves(used: string, value: string) {
    Plain(value) == Plain(used) && 2 * (|value| - Plain(value)) + 1 == |used| - Plain(used)
  }

  lemma ConservesPair(c: char, d: char, used: string, value: string)
    requires IsSingleQuote(c) && IsSingleQuote(d) && Conserves(used, value)
    ensures Conserves([c, d] + used, [d] + value)
  {
    PlainAppend([c, d], used);
    PlainAppend([d], value);
    assert [c, d][1..] == [d];
  }

  lemma ConservesOther(c: char, used: string, value: string)
    requires !IsSingleQuote(c) && Conserves(used, value)
    ensures Conserves([c] + used, [c] + value)
  {
    PlainAppend([c], used);
    PlainAppend([c], value);
  }

  lemma {:induction false} VerbatimConserves(src: string) returns (used: string)
    ensures match ReadVerbatim(src)
            case None => true
            case Some(Read(value, rest)) => src == used + rest && Conserves(used, value)
    decreases |src|
  {
    used := "";
    if src != "" {
      if !IsSingleQuote(src[0]) {
        var used' := VerbatimConserves(src[1..]);
        used := [src[0]] + used';
        var r := ReadVerbatim(src[1..]);
        if r.Some? {
          ConservesOther(src[0], used', r.value.value);
        }
      } else if |src| > 1 && IsSingleQuote(src[1]) {
        var used' := VerbatimConserves(src[2..]);
        used := [src[0], src[1]] + used';
        var r := ReadVerbatim(src[2..]);
        if r.Some? {
          ConservesPair(src[0], src[1], used', r.value.value);
        }
      } else {
        used := [src[0]];
      }
    }
  }

  function Doubled(value: string): string {
    Replace(value, '\'', "''")
  }

  /** How many straight quotes a text holds; each is written twice. */
  function Straight(s: string): nat {
    if s == "" then 0 else (if s[0] == '\'' then 1 else 0) + Straight(s[1..])
  }

  lemma {:induction false} DoubledCounts(value: string)
    ensures Plain(Doubled(value)) == Plain(value)
    ensures |Doubled(value)| == |value| + Straight(value)
    ensures Plain(value) + Straight(value) <= |value|
    ensures !PlainSingle(value) ==> Plain(value) + Straight(value) < |value|
  {
    if value != "" {
      DoubledCounts(value[1..]);
      var first := if value[0] == '\'' then "''" else [value[0]];
      PlainAppend(first, Doubled(value[1..]));
      assert Doubled(value) == first + Doubled(value[1..]);
      if value[0] == '\'' {
        assert first[1..] == "'";
      }
      if !PlainSingle(value) && !IsTypographicSingle(value[0]) {
        assert !PlainSingle(value[1..]);
      }
    }
  }

  /** Two ways of cutting one text: one piece is a prefix of the other. */
  lemma CutsCompare(body: string, after: string, used: string, rest: string)
    requires body + after == used + rest
    ensures |used| <= |body| ==> body == used + body[|used|..]
    ensures |used| > |body| ==> |used| - |body| <= |after| && used == body + after[..|used| - |body|]
  {
    var src := body + after;
    if |used| <= |body| {
      assert src[..|used|] == used && src[..|body|] == body;
    } else {
      assert src[..|used|] == used;
      assert src[|body|..] == after;
    }
  }

  /** A text with a typographic single quote never reads back, whatever follows the closing quote:
      the read is either too short, or holds one ordinary character too many. */
  lemma TypographicSingleNeverReadsBack(value: string, after: string)
    requires !PlainSingle(value) && (after == "" || !IsSingleQuote(after[0]))
    ensures match ReadVerbatim(Doubled(value) + "'" + after)
            case None => true
            case Some(r) => r.value != value
  {
    var body := Doubled(value) + "'";
    var used := VerbatimConserves(body + after);
    DoubledCounts(value);
    PlainAppend(Doubled(value), "'");
    var r := ReadVerbatim(body + after);
    if r.Some? {
      CutsCompare(body, after, used, r.value.rest);
      if |used| <= |body| {
        PlainAppend(used, body[|used|..]);
        PlainAtMostLength(body[|used|..]);
      } else {
        PlainAppend(body, after[..|used| - |body|]);
      }
    }
  }

  lemma ReadVerbatimOther(c: char, tail: string)
    requires !IsSingleQuote(c)
    ensures ReadVerbatim([c] + tail) == Prepend(c, ReadVerbatim(tail))
  {
    assert ([c] + tail)[1..] == tail;
  }

  lemma ReadVerbatimPair(tail: string)
    ensures ReadVerbatim("''" + tail) == Prepend('\'', ReadVerbatim(tail))
  {
    assert ("''" + tail)[2..] == tail;
  }

  lemma {:induction false} DoubledReadsBack(value: string, after: string)
    requires PlainSingle(value) && (after == "" || !IsSingleQuote(after[0]))
    ensures ReadVerbatim(Doubled(value) + "'" + after) == Some(Read(value, after))
  {
    if value == "" {
      assert Doubled(value) + "'" + after == "'" + after;
    } else {
      DoubledReadsBack(value[1..], after);
      assert [value[0]] + value[1..] == value;
      var tail := Doubled(value[1..]) + "'" + after;
      if value[0] == '\'' {
        assert Doubled(value) + "'" + after == "''" + tail;
        ReadVerbatimPair(tail);
      } else {
        assert Doubled(value) + "'" + after == [value[0]] + tail;
        ReadVerbatimOther(value[0], tail);
      }
    }
  }

  lemma {:induction false} SafePrefixStops(value: string, after: string)
    requires AllSafe(value) && (after == "" || after[0] == ' ')
    ensures SafePrefix(value + after) == |value|
  {
    if value == "" {
      assert value + after == after;
    } else {
      SafePrefixStops(value[1..], after);
      assert (value + after)[1..] == value[1..] + after;
    }
  }

  lemma BareWordReads(value: string, after: string)
    requires value != "" && AllSafe(value) && (after == "" || after[0] == ' ')
    ensures ReadArg(value + after) == Some(Read(value, after))
    ensures PlainSingle(value)
  {
    SafePrefixStops(value, after);
    assert IsSafe(value[0]) && (value + after)[0] == value[0];
    assert (value + after)[..|value|] == value && (value + after)[|value|..] == after;
  }

  lemma QuotedArgReads(value: string, after: string)
    requires !(value != "" && AllSafe(value))
    ensures ReadArg(CommandArg(value) + after) == ReadVerbatim(Doubled(value) + "'" + after)
  {
    var src := CommandArg(value) + after;
    assert src == "'" + (Doubled(value) + "'" + after);
    assert src[1..] == Doubled(value) + "'" + after;
  }

  /** One argument reads back exactly when it holds no typographic single quote; a bare word never does. */
  lemma ArgReadsBackIff(value: string, after: string)
    requires after == "" || after[0] == ' '
    ensures PlainSingle(value) ==> ReadArg(CommandArg(value) + after) == Some(Read(value, after))
    ensures !PlainSingle(value) ==>
              match ReadArg(CommandArg(value) + after)
              case None => true
              case Some(r) => r.value != value
  {
    if value != "" && AllSafe(value) {
      BareWordReads(value, after);
    } else {
      QuotedArgReads(value, after);
      if PlainSingle(value) {
        DoubledReadsBack(value, after);
      } else {
        TypographicSingleNeverReadsBack(value, after);
      }
    }
  }

  function ArgText(values: seq<string>): string
    requires values != []
  {
    if |values| == 1 then CommandArg(values[0]) else CommandArg(values[0]) + " " + ArgText(values[1..])
  }

  lemma {:induction false} CommandArgsText(values: seq<string>)
    requires values != []
    ensures CommandArgs(values) == ArgText(values)
  {
    if |values| > 1 {
      CommandArgsText(values[1..]);
      assert QuotedArgs(values)[1..] == QuotedArgs(values[1..]);
    }
  }

  ghost predicate AllPlainSingle(values: seq<string>) {
    forall i :: 0 <= i < |values| ==> PlainSingle(values[i])
  }

  lemma AllPlainSingleSplit(values: seq<string>)
    requires values != []
    ensures AllPlainSingle(values) <==> PlainSingle(values[0]) && AllPlainSingle(values[1..])
  {
    assert forall i :: 1 <= i < |values| ==> values[i] == values[1..][i - 1];
  }

  lemma ArgsFrontReadsBackIff(values: seq<string>, after: string)
    requires values != [] && (after == "" || after[0] == ' ')
    ensures ReadArgs(CommandArg(values[0]) + after) == Some(values)
       <==> PlainSingle(values[0]) && ReadMoreArgs(after) == Some(values[1..])
  {
    ArgReadsBackIff(values[0], after);
    assert CommandArg(values[0]) != "";
    var r := ReadArg(CommandArg(values[0]) + after);
    if r.Some? {
      ConsIff(r.value.value, ReadMoreArgs(r.value.rest), values);
    }
  }

  function AfterFirstArg(values: seq<string>): string
    requires values != []
  {
    if |values| == 1 then "" else " " + ArgText(values[1..])
  }

  lemma AfterFirstArgReads(values: seq<string>)
    requires values != []
    ensures ArgText(values) == CommandArg(values[0]) + AfterFirstArg(values)
    ensures ReadMoreArgs(AfterFirstArg(values)) == if |values| == 1 then Some([]) else ReadArgs(ArgText(values[1..]))
  {
    assert |values| > 1 ==> AfterFirstArg(values)[1..] == ArgText(values[1..]);
  }

  lemma {:induction false} ArgTextReadsBackIff(values: seq<string>)
    requires values != []
    ensures ReadArgs(ArgText(values)) == Some(values) <==> AllPlainSingle(values)
  {
    AllPlainSingleSplit(values);
    AfterFirstArgReads(values);
    ArgsFrontReadsBackIff(values, AfterFirstArg(values));
    if |values| == 1 {
      assert values[1..] == [];
    } else {
      ArgTextReadsBackIff(values[1..]);
    }
  }

  /** The argument list of `git add --` reads back as the exact file list, exactly when no file name
      holds a typographic single quote. */
  lemma ArgsReadBackIff(values: seq<string>)
    requires values != []
    ensures ReadArgs(CommandArgs(values)) == Some(values) <==> AllPlainSingle(values)
  {
    CommandArgsText(values);
    ArgTextReadsBackIff(values);
  }

  // ---------------------------------------------------------------- two plain inputs

  /** A commit message with a typographic pair in it, as a word processor types it, and a file name with
      a typographic apostrophe. Neither survives: the shell does not read the message, or the `git add`
      arguments, that were rendered. The same file name is harmless between double quotes. */
  lemma CurlyQuotesDoNotReadBack(message: string, file: string)
    requires message == "Add \U{201c}probe\U{201d} notes" && file == "docs/week\U{2019}s_notes.md"
    ensures ReadLiteral(DoubleQuoted(message)) != Some(message)
    ensures ReadArgs(CommandArgs([file])) != Some([file])
    ensures ReadArray(ArrayLiteral([file])) == Some([file])
  {
    CurlyTexts(message, file);
    DoubleQuotedReadsBackIff(message);
    OnlyFileReadsBackIff(file);
  }

  lemma CurlyTexts(message: string, file: string)
    requires message == "Add \U{201c}probe\U{201d} notes" && file == "docs/week\U{2019}s_notes.md"
    ensures !PlainDouble(message) && PlainDouble(file) && !PlainSingle(file)
  {
    assert IsTypographicDouble(message[4]) && IsTypographicSingle(file[9]);
  }

  lemma OnlyFileReadsBackIff(file: string)
    ensures ReadArgs(CommandArgs([file])) == Some([file]) <==> PlainSingle(file)
    ensures ReadArray(ArrayLiteral([file])) == Some([file]) <==> PlainDouble(file)
  {
    assert [file][0] == file;
    ArgsReadBackIff([file]);
    ArrayReadsBackIff([file]);
  }
}
