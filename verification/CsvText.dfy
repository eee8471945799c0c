/**
 Python's CSV writer with minimal quoting, `str.splitlines`, and the CSV reader fed with those lines.
 */
module CsvText {
  import opened Text

  // ---------------------------------------------------------------- lines

  /** The characters at which `str.splitlines` ends a line. */
  predicate IsBreak(c: char) {
    || '\n' <= c <= '\r'
    || '\U{1c}' <= c <= '\U{1e}'
    || c == '\U{85}' || c == '\U{2028}' || c == '\U{2029}'
  }

  predicate HasBreak(f: string) {
    exists i :: 0 <= i < |f| && IsBreak(f[i])
  }

  /** A carriage return and a line feed end one line together. */
  function BreakLength(text: string): (n: nat)
    requires text != "" && IsBreak(text[0])
    ensures 1 <= n <= |text|
  {
    if |text| >= 2 && text[0] == '\r' && text[1] == '\n' then 2 else 1
  }

  // ---------------------------------------------------------------- the reader

  datatype State = StartRecord | StartField | InField | InQuoted | QuoteInQuoted

  datatype Machine = Machine(state: State, field: string, fields: seq<string>, rows: seq<seq<string>>)
  {
    function Save(next: State): Machine {
      Machine(next, "", fields + [field], rows)
    }

    function Emit(): Machine {
      Machine(StartRecord, "", [], rows + [fields])
    }

    /** One character of a line. */
    function Put(c: char): Machine {
      match state
      case InField => if c == ',' then Save(StartField) else this.(field := field + [c])
      case InQuoted => if c == '"' then this.(state := QuoteInQuoted) else this.(field := field + [c])
      case QuoteInQuoted =>
        if c == '"' then this.(state := InQuoted, field := field + [c])
        else if c == ',' then Save(StartField)
        else this.(state := InField, field := field + [c])
      case _ =>
        if c == '"' then this.(state := InQuoted)
        else if c == ',' then Save(StartField)
        else this.(state := InField, field := field + [c])
    }

    /** The end of a line: the record ends with it, unless a quote is open. */
    function EndLine(): Machine {
      match state
      case InQuoted => this
      case StartRecord => Emit()
      case _ => Save(StartRecord).Emit()
    }
  }

  const INIT := Machine(StartRecord, "", [], [])

  /** The lines of `text`, character by character; an unfinished last line stays open. */
  function Feed(m: Machine, text: string): Machine
    decreases |text|
  {
    if text == "" then m
    else if IsBreak(text[0]) then Feed(m.EndLine(), text[BreakLength(text)..])
    else Feed(m.Put(text[0]), text[1..])
  }

  /** `list(csv.reader(text.splitlines()))` */
  function ReadRows(text: string): seq<seq<string>> {
    var m := Feed(INIT, text);
    var closed := if text != "" && !IsBreak(text[|text| - 1]) then m.EndLine() else m;
    if closed.state.InQuoted? then closed.Save(StartRecord).Emit().rows else closed.rows
  }

  // ---------------------------------------------------------------- the writer

  /** The writer's characters that force quotes. Newer versions of the writer count the carriage
      return among them; both are covered. */
  datatype Dialect = Dialect(quotesReturn: bool)

  predicate ForcesQuotes(c: char, d: Dialect) {
    c == ',' || c == '"' || c == '\n' || (d.quotesReturn && c == '\r')
  }

  predicate NeedsQuotes(f: string, d: Dialect) {
    exists i :: 0 <= i < |f| && ForcesQuotes(f[i], d)
  }

  function WriteField(f: string, d: Dialect): string {
    if NeedsQuotes(f, d) then "\"" + Replace(f, '"', "\"\"") + "\"" else f
  }

  function WriteFields(fields: seq<string>, d: Dialect): string {
    if fields == [] then ""
    else if |fields| == 1 then WriteField(fields[0], d)
    else WriteField(fields[0], d) + ("," + WriteFields(fields[1..], d))
  }

  /** `writer.writerow` with a newline as terminator, for a row of several fields. */
  function WriteRow(fields: seq<string>, d: Dialect): string {
    WriteFields(fields, d) + "\n"
  }

  function WriteRows(rows: seq<seq<string>>, d: Dialect): string {
    if rows == [] then "" else WriteRow(rows[0], d) + WriteRows(rows[1..], d)
  }

  // ---------------------------------------------------------------- what comes back

  /** No character of the field ends a line outside quotes. */
  predicate BreakSafe(f: string, d: Dialect) {
    NeedsQuotes(f, d) || !HasBreak(f)
  }

  function DropBreaks(f: string): string {
    if f == "" then "" else (if IsBreak(f[0]) then "" else [f[0]]) + DropBreaks(f[1..])
  }

  /** The field as it is read again: line breaks inside quotes are lost. */
  function Returned(f: string, d: Dialect): string {
    if NeedsQuotes(f, d) then DropBreaks(f) else f
  }

  function ReturnedRow(fields: seq<string>, d: Dialect): seq<string> {
    if fields == [] then [] else [Returned(fields[0], d)] + ReturnedRow(fields[1..], d)
  }

  lemma {:induction false} ReturnedRowAt(fields: seq<string>, d: Dialect)
    ensures |ReturnedRow(fields, d)| == |fields|
    ensures forall i :: 0 <= i < |fields| ==> ReturnedRow(fields, d)[i] == Returned(fields[i], d)
  {
    if fields != [] {
      ReturnedRowAt(fields[1..], d);
    }
  }

  lemma {:induction false} FeedAppend(m: Machine, x: string, y: string)
    requires x != "" && x[|x| - 1] == '\r' ==> y == "" || y[0] != '\n'
    ensures Feed(m, x + y) == Feed(Feed(m, x), y)
    decreases |x|
  {
    if x == "" {
      assert x + y == y;
    } else if IsBreak(x[0]) {
      var n := BreakLength(x);
      assert BreakLength(x + y) == n;
      assert (x + y)[n..] == x[n..] + y;
      FeedAppend(m.EndLine(), x[n..], y);
    } else {
      assert (x + y)[1..] == x[1..] + y;
      FeedAppend(m.Put(x[0]), x[1..], y);
    }
  }

  lemma {:induction false} FeedPlain(m: Machine, f: string)
    requires m.state.InField? && !HasBreak(f) && ',' !in f
    ensures Feed(m, f) == m.(field := m.field + f)
    decreases |f|
  {
    if f != "" {
      FeedPlain(m.Put(f[0]), f[1..]);
      assert m.field + f == m.field + [f[0]] + f[1..];
    } else {
      assert m.field + f == m.field;
    }
  }

  predicate AtFieldStart(m: Machine) {
    (m.state.StartRecord? || m.state.StartField?) && m.field == ""
  }

  lemma FeedUnquoted(m: Machine, f: string)
    requires AtFieldStart(m) && f != "" && !HasBreak(f) && ',' !in f && f[0] != '"'
    ensures Feed(m, f) == m.(state := InField, field := f)
  {
    FeedPlain(m.Put(f[0]), f[1..]);
    assert [f[0]] + f[1..] == f;
  }

  lemma FeedStep(m: Machine, c: char, rest: string)
    requires !IsBreak(c)
    ensures Feed(m, [c] + rest) == Feed(m.Put(c), rest)
  {
    assert ([c] + rest)[1..] == rest;
  }

  lemma FeedQuotePair(m: Machine, rest: string)
    requires m.state.InQuoted?
    ensures Feed(m, "\"\"" + rest) == Feed(m.(field := m.field + ['"']), rest)
  {
    assert "\"\"" + rest == ['"'] + (['"'] + rest);
    FeedStep(m, '"', ['"'] + rest);
    FeedStep(m.Put('"'), '"', rest);
  }

  /** What a quoted body adds to the field. */
  ghost predicate AddsQuoted(m: Machine, f: string) {
    Feed(m, Replace(f, '"', "\"\"")) == m.(field := m.field + DropBreaks(f))
  }

  lemma Regroup<T>(a: seq<T>, b: seq<T>, c: seq<T>)
    ensures a + b + c == a + (b + c)
  {
  }

  lemma AddsQuote(m: Machine, f: string)
    requires m.state.InQuoted? && f != "" && f[0] == '"' && AddsQuoted(m.(field := m.field + ['"']), f[1..])
    ensures AddsQuoted(m, f)
  {
    FeedQuotePair(m, Replace(f[1..], '"', "\"\""));
    Regroup(m.field, ['"'], DropBreaks(f[1..]));
  }

  lemma AddsChar(m: Machine, f: string)
    requires m.state.InQuoted? && f != "" && f[0] != '"' && !IsBreak(f[0]) && AddsQuoted(m.Put(f[0]), f[1..])
    ensures AddsQuoted(m, f)
  {
    FeedStep(m, f[0], Replace(f[1..], '"', "\"\""));
    Regroup(m.field, [f[0]], DropBreaks(f[1..]));
  }

  lemma BreakDrops(f: string)
    requires f != "" && IsBreak(f[0])
    ensures DropBreaks(f) == DropBreaks(f[BreakLength(f)..])
  {
    if BreakLength(f) == 2 {
      assert f[1..][1..] == f[2..];
    }
  }

  lemma AddsBreak(m: Machine, f: string)
    requires m.state.InQuoted? && f != "" && IsBreak(f[0]) && AddsQuoted(m, f[BreakLength(f)..])
    ensures AddsQuoted(m, f)
  {
    FeedBreak(m, f);
    BreakDrops(f);
  }

  lemma {:induction false} FeedQuoted(m: Machine, f: string)
    requires m.state.InQuoted?
    ensures AddsQuoted(m, f)
    decreases |f|
  {
    if f == "" {
      assert m.field + DropBreaks(f) == m.field;
    } else if f[0] == '"' {
      FeedQuoted(m.(field := m.field + ['"']), f[1..]);
      AddsQuote(m, f);
    } else if IsBreak(f[0]) {
      FeedQuoted(m, f[BreakLength(f)..]);
      AddsBreak(m, f);
    } else {
      FeedQuoted(m.Put(f[0]), f[1..]);
      AddsChar(m, f);
    }
  }

  /** A break inside quotes is skipped, together with the line feed of a CRLF pair. */
  lemma FeedBreak(m: Machine, f: string)
    requires m.state.InQuoted? && f != "" && IsBreak(f[0])
    ensures Feed(m, Replace(f, '"', "\"\"")) == Feed(m, Replace(f[BreakLength(f)..], '"', "\"\""))
  {
    var text := Replace(f, '"', "\"\"");
    var rest := Replace(f[1..], '"', "\"\"");
    assert text == [f[0]] + rest && text[1..] == rest;
    if BreakLength(f) == 2 {
      assert rest == [f[1]] + Replace(f[2..], '"', "\"\"") by {
        assert f[1..][0] == f[1] && f[1..][1..] == f[2..];
      }
      assert text[2..] == rest[1..] == Replace(f[2..], '"', "\"\"");
    } else if |text| >= 2 && text[0] == '\r' {
      assert rest != "" && f[1..] != "";
      assert rest[0] == if f[1] == '"' then '"' else f[1];
    }
  }

  /** A written field, up to the comma or newline after it, reads back as `Returned`. */
  lemma ReadField(m: Machine, f: string, d: Dialect)
    requires AtFieldStart(m) && f != "" && BreakSafe(f, d)
    ensures Feed(m, WriteField(f, d) + ",") == Machine(StartField, "", m.fields + [Returned(f, d)], m.rows)
    ensures Feed(m, WriteField(f, d) + "\n") == Machine(StartRecord, "", [], m.rows + [m.fields + [Returned(f, d)]])
  {
    var w := WriteField(f, d);
    if NeedsQuotes(f, d) {
      ReadQuoted(m, f);
    } else {
      UnquotedIsPlain(f, d);
      FeedUnquoted(m, f);
    }
    var after := Feed(m, w);
    FeedOne(after, ',');
    FeedOne(after, '\n');
    LastIsNoReturn(f, d);
    FeedAppend(m, w, ",");
    FeedAppend(m, w, "\n");
  }

  lemma FeedOne(m: Machine, c: char)
    ensures Feed(m, [c]) == if IsBreak(c) then m.EndLine() else m.Put(c)
  {
    assert [c][1..] == "";
    if IsBreak(c) {
      assert [c][BreakLength([c])..] == "";
    }
  }

  lemma ReadQuoted(m: Machine, f: string)
    requires AtFieldStart(m)
    ensures Feed(m, "\"" + Replace(f, '"', "\"\"") + "\"") == m.(state := QuoteInQuoted, field := DropBreaks(f))
  {
    var body := Replace(f, '"', "\"\"");
    FeedOne(m, '"');
    FeedAppend(m, "\"", body);
    var open := m.Put('"');
    FeedQuoted(open, f);
    assert open.field + DropBreaks(f) == DropBreaks(f);
    var inside := Feed(open, body);
    FeedOne(inside, '"');
    FeedAppend(m, "\"" + body, "\"");
  }

  lemma UnquotedIsPlain(f: string, d: Dialect)
    requires !NeedsQuotes(f, d)
    ensures ',' !in f && '"' !in f && '\n' !in f
  {
    forall i | 0 <= i < |f|
      ensures f[i] != ',' && f[i] != '"' && f[i] != '\n'
    {
      assert !ForcesQuotes(f[i], d);
    }
  }

  lemma LastIsNoReturn(f: string, d: Dialect)
    requires f != "" && BreakSafe(f, d)
    ensures WriteField(f, d) != "" && WriteField(f, d)[|WriteField(f, d)| - 1] != '\r'
  {
    if !NeedsQuotes(f, d) {
      assert !IsBreak(f[|f| - 1]);
    }
  }

  lemma WriteRowSplits(fields: seq<string>, d: Dialect)
    requires |fields| > 1
    ensures WriteRow(fields, d) == WriteField(fields[0], d) + "," + WriteRow(fields[1..], d)
  {
  }

  /** After the row, one more record. */
  ghost predicate ReadsRow(m: Machine, fields: seq<string>, d: Dialect) {
    Feed(m, WriteRow(fields, d)) == Machine(StartRecord, "", [], m.rows + [m.fields + ReturnedRow(fields, d)])
  }

  lemma ReadsOneMore(m: Machine, next: Machine, w: string, rest: string, first: string, others: seq<string>)
    requires w != "" && w[|w| - 1] == ',' && Feed(m, w) == next
    requires next.rows == m.rows && next.fields == m.fields + [first]
    requires Feed(next, rest) == Machine(StartRecord, "", [], next.rows + [next.fields + others])
    ensures Feed(m, w + rest) == Machine(StartRecord, "", [], m.rows + [m.fields + ([first] + others)])
  {
    FeedAppend(m, w, rest);
    Regroup(m.fields, [first], others);
  }

  /** A written row reads back as one record. */
  lemma {:induction false} ReadFields(m: Machine, fields: seq<string>, d: Dialect)
    requires AtFieldStart(m) && fields != []
    requires forall i :: 0 <= i < |fields| ==> fields[i] != "" && BreakSafe(fields[i], d)
    ensures ReadsRow(m, fields, d)
    decreases |fields|
  {
    ReadField(m, fields[0], d);
    if |fields| == 1 {
      assert ReturnedRow(fields, d) == [Returned(fields[0], d)];
    } else {
      var next := Machine(StartField, "", m.fields + [Returned(fields[0], d)], m.rows);
      ReadFields(next, fields[1..], d);
      WriteRowSplits(fields, d);
      ReadsOneMore(m, next, WriteField(fields[0], d) + ",", WriteRow(fields[1..], d), Returned(fields[0], d),
                   ReturnedRow(fields[1..], d));
    }
  }

  ghost predicate AllSafe(rows: seq<seq<string>>, d: Dialect) {
    forall i :: 0 <= i < |rows| ==>
      rows[i] != [] && forall j :: 0 <= j < |rows[i]| ==> rows[i][j] != "" && BreakSafe(rows[i][j], d)
  }

  function ReturnedRows(rows: seq<seq<string>>, d: Dialect): seq<seq<string>> {
    if rows == [] then [] else [ReturnedRow(rows[0], d)] + ReturnedRows(rows[1..], d)
  }

  lemma {:induction false} ReturnedRowsAt(rows: seq<seq<string>>, d: Dialect)
    ensures |ReturnedRows(rows, d)| == |rows|
    ensures forall i :: 0 <= i < |rows| ==> ReturnedRows(rows, d)[i] == ReturnedRow(rows[i], d)
  {
    if rows != [] {
      ReturnedRowsAt(rows[1..], d);
    }
  }

  lemma {:induction false} ReadTable(m: Machine, rows: seq<seq<string>>, d: Dialect)
    requires m.state.StartRecord? && m.field == "" && m.fields == [] && AllSafe(rows, d)
    ensures Feed(m, WriteRows(rows, d)) == m.(rows := m.rows + ReturnedRows(rows, d))
    decreases |rows|
  {
    if rows == [] {
      assert m.rows + ReturnedRows(rows, d) == m.rows;
    } else {
      var w := WriteRow(rows[0], d);
      ReadFields(m, rows[0], d);
      FeedAppend(m, w, WriteRows(rows[1..], d));
      assert [] + ReturnedRow(rows[0], d) == ReturnedRow(rows[0], d);
      ReadTable(Feed(m, w), rows[1..], d);
      assert m.rows + [ReturnedRow(rows[0], d)] + ReturnedRows(rows[1..], d) == m.rows + ReturnedRows(rows, d);
    }
  }

  lemma {:induction false} WriteRowsEnds(rows: seq<seq<string>>, d: Dialect)
    requires rows != []
    ensures WriteRows(rows, d) != "" && WriteRows(rows, d)[|WriteRows(rows, d)| - 1] == '\n'
  {
    if |rows| > 1 {
      WriteRowsEnds(rows[1..], d);
    }
  }

  /** Reading what was written: every record comes back, field by field. */
  lemma WrittenReadsBack(rows: seq<seq<string>>, d: Dialect)
    requires rows != [] && AllSafe(rows, d)
    ensures ReadRows(WriteRows(rows, d)) == ReturnedRows(rows, d)
  {
    ReadTable(INIT, rows, d);
    WriteRowsEnds(rows, d);
    assert [] + ReturnedRows(rows, d) == ReturnedRows(rows, d);
  }

  // ---------------------------------------------------------------- breaks outside quotes

  lemma {:induction false} RowsGrow(m: Machine, text: string)
    ensures m.rows <= Feed(m, text).rows
    decreases |text|
  {
    if text != "" {
      if IsBreak(text[0]) {
        RowsGrow(m.EndLine(), text[BreakLength(text)..]);
      } else {
        RowsGrow(m.Put(text[0]), text[1..]);
      }
    }
  }

  lemma NoBreakAfter(f: string, k: nat)
    requires k + 1 < |f| && !IsBreak(f[|f| - 1]) && !HasBreak(f[..|f| - 1][k + 1..])
    ensures !HasBreak(f[k + 1..])
  {
    var tail, init := f[k + 1..], f[..|f| - 1][k + 1..];
    forall i | 0 <= i < |tail|
      ensures !IsBreak(tail[i])
    {
      assert i < |init| ==> tail[i] == init[i];
    }
  }

  /** Where the last line of an unquoted field with breaks begins. */
  function LastBreak(f: string): (k: nat)
    requires HasBreak(f)
    ensures k < |f| && IsBreak(f[k]) && !HasBreak(f[k + 1..])
  {
    var n := |f| - 1;
    if IsBreak(f[n]) then n else
      assert HasBreak(f[..n]) by {
        var i :| 0 <= i < |f| && IsBreak(f[i]);
        assert f[..n][i] == f[i];
      }
      var k := LastBreak(f[..n]);
      NoBreakAfter(f, k);
      k
  }

  predicate Unquoting(m: Machine) {
    m.state.InField? || AtFieldStart(m)
  }

  lemma {:induction false} FeedLines(m: Machine, p: string)
    requires Unquoting(m) && '"' !in p && ',' !in p && '\n' !in p
    ensures Unquoting(Feed(m, p))
    ensures p != "" && IsBreak(p[|p| - 1]) ==>
              && Feed(m, p).state == StartRecord && Feed(m, p).field == "" && Feed(m, p).fields == []
    decreases |p|
  {
    if p != "" {
      if IsBreak(p[0]) {
        assert BreakLength(p) == 1;
        FeedLines(m.EndLine(), p[1..]);
      } else {
        FeedLines(m.Put(p[0]), p[1..]);
      }
    }
  }

  /** An unquoted field that breaks, and whose end is not a break, leaves a record that starts with
      its last line. */
  lemma FeedBroken(m: Machine, f: string, d: Dialect) returns (tail: string)
    requires AtFieldStart(m) && !BreakSafe(f, d) && !IsBreak(f[|f| - 1])
    ensures var after := Feed(m, WriteField(f, d));
            && after.state == InField && after.field == tail != "" && after.fields == [] && m.rows <= after.rows
    ensures WriteField(f, d) == f
  {
    UnquotedIsPlain(f, d);
    var k := LastBreak(f);
    var p := f[..k + 1];
    tail := f[k + 1..];
    assert f == p + tail;
    FeedAppend(m, p, tail);
    FeedLines(m, p);
    var broken := Feed(m, p);
    FeedUnquoted(broken, tail);
    RowsGrow(m, p);
  }

  ghost predicate ShortRow(rows: seq<seq<string>>, from: nat) {
    exists i :: from <= i < |rows| && 1 <= |rows[i]| <= 2
  }

  lemma ShortRowStays(m: Machine, text: string, from: nat)
    requires ShortRow(m.rows, from)
    ensures ShortRow(Feed(m, text).rows, from)
  {
    RowsGrow(m, text);
    var i :| from <= i < |m.rows| && 1 <= |m.rows[i]| <= 2;
    assert Feed(m, text).rows[i] == m.rows[i];
  }

  /** A break in the last field leaves a record of one field. */
  lemma BrokenLast(m: Machine, f: string, d: Dialect)
    requires AtFieldStart(m) && !BreakSafe(f, d) && !IsBreak(f[|f| - 1])
    ensures ShortRow(Feed(m, WriteRow([f], d)).rows, |m.rows|)
  {
    var tail := FeedBroken(m, f, d);
    var after := Feed(m, f);
    FeedAppend(m, f, "\n");
    FeedOne(after, '\n');
    var final := after.EndLine();
    assert final.rows[|final.rows| - 1] == [tail];
  }

  lemma BrokenThenComma(m: Machine, f: string, d: Dialect) returns (comma: Machine)
    requires AtFieldStart(m) && !BreakSafe(f, d) && !IsBreak(f[|f| - 1])
    ensures comma == Feed(m, WriteField(f, d) + ",")
    ensures comma.state == StartField && comma.field == "" && |comma.fields| == 1 && m.rows <= comma.rows
  {
    var tail := FeedBroken(m, f, d);
    var after := Feed(m, f);
    comma := after.Put(',');
    FeedAppend(m, f, ",");
    FeedOne(after, ',');
  }

  lemma LastRowIsShort(m: Machine, g: string, d: Dialect)
    requires AtFieldStart(m) && |m.fields| == 1 && g != "" && (!BreakSafe(g, d) ==> !IsBreak(g[|g| - 1]))
    ensures ShortRow(Feed(m, WriteRow([g], d)).rows, |m.rows|)
  {
    if BreakSafe(g, d) {
      ReadField(m, g, d);
      var final := Feed(m, WriteRow([g], d));
      assert |final.rows[|m.rows|]| == 2;
    } else {
      BrokenLast(m, g, d);
    }
  }

  /** A break in the next-to-last field leaves a record of one or two fields. */
  lemma BrokenNextToLast(m: Machine, f: string, g: string, d: Dialect)
    requires AtFieldStart(m) && !BreakSafe(f, d) && !IsBreak(f[|f| - 1])
    requires g != "" && (!BreakSafe(g, d) ==> !IsBreak(g[|g| - 1]))
    ensures ShortRow(Feed(m, WriteRow([f, g], d)).rows, |m.rows|)
  {
    var comma := BrokenThenComma(m, f, d);
    LastRowIsShort(comma, g, d);
    WriteRowSplits([f, g], d);
    assert [f, g][1..] == [g];
    FeedAppend(m, WriteField(f, d) + ",", WriteRow([g], d));
    ShortRowFromLater(Feed(comma, WriteRow([g], d)).rows, |m.rows|, |comma.rows|);
  }

  lemma ShortRowFromLater(rows: seq<seq<string>>, from: nat, later: nat)
    requires from <= later && ShortRow(rows, later)
    ensures ShortRow(rows, from)
  {
  }

  // ---------------------------------------------------------------- a row in two parts

  /** The first fields of a row, each with the comma after it. */
  function WritePrefix(fields: seq<string>, d: Dialect): string {
    if fields == [] then "" else WriteField(fields[0], d) + "," + WritePrefix(fields[1..], d)
  }

  lemma {:induction false} WriteRowInParts(fields: seq<string>, rest: seq<string>, d: Dialect)
    requires rest != []
    ensures WriteRow(fields + rest, d) == WritePrefix(fields, d) + WriteRow(rest, d)
  {
    if fields == [] {
      assert fields + rest == rest;
    } else {
      WriteRowInParts(fields[1..], rest, d);
      var w := WriteField(fields[0], d) + ",";
      assert (fields + rest)[0] == fields[0] && (fields + rest)[1..] == fields[1..] + rest;
      WriteRowSplits(fields + rest, d);
      Regroup(w, WritePrefix(fields[1..], d), WriteRow(rest, d));
    }
  }

  lemma {:induction false} ReadPrefix(m: Machine, fields: seq<string>, d: Dialect)
    requires AtFieldStart(m) && forall i :: 0 <= i < |fields| ==> fields[i] != "" && BreakSafe(fields[i], d)
    ensures AtFieldStart(Feed(m, WritePrefix(fields, d))) && m.rows == Feed(m, WritePrefix(fields, d)).rows
    ensures WritePrefix(fields, d) == "" || WritePrefix(fields, d)[|WritePrefix(fields, d)| - 1] == ','
    decreases |fields|
  {
    if fields != [] {
      ReadField(m, fields[0], d);
      var w := WriteField(fields[0], d) + ",";
      ReadPrefix(Feed(m, w), fields[1..], d);
      FeedAppend(m, w, WritePrefix(fields[1..], d));
    }
  }

  /** Rows that end in an unquoted break in one of their last two fields leave a short record. */
  lemma BrokenRow(m: Machine, fields: seq<string>, f: string, g: string, d: Dialect)
    requires AtFieldStart(m) && forall i :: 0 <= i < |fields| ==> fields[i] != "" && BreakSafe(fields[i], d)
    requires f != "" && g != "" && !IsBreak(f[|f| - 1]) && !IsBreak(g[|g| - 1])
    requires !BreakSafe(f, d) || !BreakSafe(g, d)
    ensures ShortRow(Feed(m, WriteRow(fields + [f, g], d)).rows, |m.rows|)
  {
    if BreakSafe(f, d) {
      var firsts := fields + [f];
      assert fields + [f, g] == firsts + [g];
      WriteRowInParts(firsts, [g], d);
      ReadPrefix(m, firsts, d);
      FeedAppend(m, WritePrefix(firsts, d), WriteRow([g], d));
      BrokenLast(Feed(m, WritePrefix(firsts, d)), g, d);
    } else {
      WriteRowInParts(fields, [f, g], d);
      ReadPrefix(m, fields, d);
      FeedAppend(m, WritePrefix(fields, d), WriteRow([f, g], d));
      BrokenNextToLast(Feed(m, WritePrefix(fields, d)), f, g, d);
    }
  }

  /** A table whose second row is broken in that way reads back with its first row intact and a short
      record somewhere after it. */
  lemma BrokenTable(head: seq<string>, fields: seq<string>, f: string, g: string, others: seq<seq<string>>, d: Dialect)
    requires AllSafe([head], d)
    requires forall i :: 0 <= i < |fields| ==> fields[i] != "" && BreakSafe(fields[i], d)
    requires f != "" && g != "" && !IsBreak(f[|f| - 1]) && !IsBreak(g[|g| - 1])
    requires !BreakSafe(f, d) || !BreakSafe(g, d)
    ensures var rows := ReadRows(WriteRows([head, fields + [f, g]] + others, d));
            rows != [] && rows[0] == ReturnedRow(head, d) && ShortRow(rows, 1)
  {
    var row := fields + [f, g];
    var table := [head, row] + others;
    var w1, w2, w3 := WriteRow(head, d), WriteRow(row, d), WriteRows(others, d);
    assert table[1..] == [row] + others && table[1..][1..] == others;
    assert WriteRows(table, d) == w1 + (w2 + w3);
    assert [head][0] == head;
    ReadFields(INIT, head, d);
    var m1 := Feed(INIT, w1);
    BrokenRow(m1, fields, f, g, d);
    var m2 := Feed(m1, w2);
    RowsGrow(m1, w2);
    FeedAppend(INIT, w1, w2 + w3);
    FeedAppend(m1, w2, w3);
    ShortRowStays(m2, w3, 1);
    RowsGrow(m2, w3);
    WriteRowsEnds(table, d);
    ReadKeepsRows(WriteRows(table, d));
    assert [] + ReturnedRow(head, d) == ReturnedRow(head, d);
    assert m1.rows == [ReturnedRow(head, d)];
    var m3 := Feed(m2, w3);
    assert m3.rows[0] == m2.rows[0] == m1.rows[0];
    ShortRowInExtension(m3.rows, ReadRows(WriteRows(table, d)), 1);
  }

  lemma ReadKeepsRows(text: string)
    ensures Feed(INIT, text).rows <= ReadRows(text)
  {
  }

  lemma ShortRowInExtension(rows: seq<seq<string>>, longer: seq<seq<string>>, from: nat)
    requires rows <= longer && ShortRow(rows, from)
    ensures ShortRow(longer, from)
  {
    var i :| from <= i < |rows| && 1 <= |rows[i]| <= 2;
    assert longer[i] == rows[i];
  }
}
