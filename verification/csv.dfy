/** The CSV writer, and a parser for the grammar of section 2 of RFC 4180 with CRLF between records. */
module Csv {
  import opened Basics

  /** A number is given by its decimal text; null and undefined are both `Nothing`. */
  datatype Cell = Nothing | Value(text: string)

  type Record = seq<string>

  function TextOf(value: Cell): string { if value.Nothing? then "" else value.text }

  function Texts(row: seq<Cell>): Record { seq(|row|, i requires 0 <= i < |row| => TextOf(row[i])) }

  // ----- the writer

  predicate IsSpecial(c: char) { c == '"' || c == ',' || c == '\r' || c == '\n' }

  predicate NeedsQuotes(s: string) { exists i :: 0 <= i < |s| && IsSpecial(s[i]) }

  function Doubled(s: string): string {
    if s == "" then "" else (if s[0] == '"' then "\"\"" else [s[0]]) + Doubled(s[1..])
  }

  function EscapeField(value: Cell): string {
    var str := TextOf(value);
    if NeedsQuotes(str) then "\"" + Doubled(str) + "\"" else str
  }

  function Join(parts: seq<string>, separator: string): string {
    if parts == [] then ""
    else if |parts| == 1 then parts[0]
    else parts[0] + separator + Join(parts[1..], separator)
  }

  function Line(row: seq<Cell>): string {
    Join(seq(|row|, i requires 0 <= i < |row| => EscapeField(row[i])), ",")
  }

  function HeaderCells(headers: seq<string>): seq<Cell> {
    seq(|headers|, i requires 0 <= i < |headers| => Value(headers[i]))
  }

  function Lines(table: seq<seq<Cell>>): seq<string> {
    seq(|table|, i requires 0 <= i < |table| => Line(table[i]))
  }

  function BuildCsv(headers: seq<string>, rows: seq<seq<Cell>>): string {
    Join(Lines([HeaderCells(headers)] + rows), "\r\n")
  }

  // ----- the grammar

  /** `non-escaped = *TEXTDATA`: everything up to the next special character. */
  function ParsePlain(s: string): (string, string) {
    if s == "" || IsSpecial(s[0]) then ("", s)
    else var (field, rest) := ParsePlain(s[1..]); ([s[0]] + field, rest)
  }

  /** The part of `escaped` after the opening quote. */
  function ParseQuoted(s: string): Option<(string, string)> {
    if s == "" then None
    else if s[0] != '"' then
      match ParseQuoted(s[1..]) case None => None case Some((field, rest)) => Some(([s[0]] + field, rest))
    else if |s| >= 2 && s[1] == '"' then
      match ParseQuoted(s[2..]) case None => None case Some((field, rest)) => Some(("\"" + field, rest))
    else Some(("", s[1..]))
  }

  function ParseField(s: string): (r: Option<(string, string)>)
    ensures r.Some? ==> |r.value.1| <= |s|
  {
    if s != "" && s[0] == '"' then QuotedShortens(s[1..]); ParseQuoted(s[1..])
    else PlainShortens(s); Some(ParsePlain(s))
  }

  /** `record = field *(COMMA field)` */
  function ParseRecord(s: string): (r: Option<(Record, string)>)
    ensures r.Some? ==> |r.value.1| <= |s| && r.value.0 != []
    decreases |s|
  {
    match ParseField(s)
    case None => None
    case Some((field, rest)) =>
      if rest != "" && rest[0] == ',' then
        match ParseRecord(rest[1..]) case None => None case Some((fields, end)) => Some(([field] + fields, end))
      else Some(([field], rest))
  }

  /** `file = record *(CRLF record)` */
  function ParseFile(s: string): Option<seq<Record>>
    decreases |s|
  {
    match ParseRecord(s)
    case None => None
    case Some((record, rest)) =>
      if rest == "" then Some([record])
      else if |rest| >= 2 && rest[..2] == "\r\n" then
        match ParseFile(rest[2..]) case None => None case Some(records) => Some([record] + records)
      else None
  }

  lemma {:induction false} PlainShortens(s: string)
    ensures |ParsePlain(s).1| <= |s|
  {
    if s != "" && !IsSpecial(s[0]) {
      PlainShortens(s[1..]);
    }
  }

  lemma {:induction false} QuotedShortens(s: string)
    ensures ParseQuoted(s).Some? ==> |ParseQuoted(s).value.1| <= |s|
    decreases |s|
  {
    if s == "" {
    } else if s[0] != '"' {
      QuotedShortens(s[1..]);
    } else if |s| >= 2 && s[1] == '"' {
      QuotedShortens(s[2..]);
    }
  }

  // ----- round trip

  lemma {:induction false} PlainReadsBack(s: string, rest: string)
    requires !NeedsQuotes(s) && (rest != "" ==> IsSpecial(rest[0]))
    ensures ParsePlain(s + rest) == (s, rest)
  {
    if s == "" {
      assert s + rest == rest;
    } else {
      assert !IsSpecial(s[0]) && (s + rest)[1..] == s[1..] + rest;
      assert forall i :: 0 <= i < |s[1..]| ==> s[1..][i] == s[i + 1];
      PlainReadsBack(s[1..], rest);
      assert s == [s[0]] + s[1..];
    }
  }

  lemma {:induction false} QuotedReadsBack(s: string, rest: string)
    requires rest == "" || rest[0] != '"'
    ensures ParseQuoted(Doubled(s) + "\"" + rest) == Some((s, rest))
  {
    var text := Doubled(s) + "\"" + rest;
    if s == "" {
      assert text == "\"" + rest && text[1..] == rest;
    } else {
      QuotedReadsBack(s[1..], rest);
      var tail := Doubled(s[1..]) + "\"" + rest;
      assert s == [s[0]] + s[1..];
      if s[0] == '"' {
        assert text == "\"\"" + tail && text[2..] == tail;
      } else {
        assert text == [s[0]] + tail && text[1..] == tail;
      }
    }
  }

  lemma QuotedTail(inner: string, rest: string)
    ensures var text := "\"" + inner + "\"" + rest;
            text[0] == '"' && text[1..] == inner + "\"" + rest
  {
  }

  lemma FieldReadsBack(value: Cell, rest: string)
    requires rest == "" || rest[0] == ',' || rest[0] == '\r'
    ensures ParseField(EscapeField(value) + rest) == Some((TextOf(value), rest))
  {
    var str := TextOf(value);
    if NeedsQuotes(str) {
      QuotedReadsBack(str, rest);
      QuotedTail(Doubled(str), rest);
    } else {
      PlainReadsBack(str, rest);
      assert str != "" ==> !IsSpecial(str[0]) && (str + rest)[0] == str[0];
      assert str == "" ==> str + rest == rest;
    }
  }

  lemma {:induction false} RecordStep(s: string, field: string, tail: string)
    requires ParseField(s) == Some((field, "," + tail)) && ParseRecord(tail).Some?
    ensures ParseRecord(s) == Some(([field] + ParseRecord(tail).value.0, ParseRecord(tail).value.1))
  {
    assert ("," + tail)[1..] == tail;
  }

  lemma {:induction false} FileStep(s: string, record: Record, tail: string)
    requires ParseRecord(s) == Some((record, "\r\n" + tail)) && ParseFile(tail).Some?
    ensures ParseFile(s) == Some([record] + ParseFile(tail).value)
  {
    assert ("\r\n" + tail)[2..] == tail && ("\r\n" + tail)[..2] == "\r\n";
  }

  lemma Reassociate(a: string, b: string, c: string, d: string)
    ensures a + (b + c) + d == a + (b + (c + d))
  {
    assert b + c + d == b + (c + d);
  }

  lemma LineSplits(row: seq<Cell>)
    requires |row| > 1
    ensures Line(row) == EscapeField(row[0]) + ("," + Line(row[1..]))
    ensures Texts(row) == [TextOf(row[0])] + Texts(row[1..])
  {
    var escaped := seq(|row|, i requires 0 <= i < |row| => EscapeField(row[i]));
    assert seq(|row[1..]|, i requires 0 <= i < |row[1..]| => EscapeField(row[1..][i])) == escaped[1..];
    assert EscapeField(row[0]) + "," + Line(row[1..]) == EscapeField(row[0]) + ("," + Line(row[1..]));
  }

  lemma {:induction false} LineReadsBack(row: seq<Cell>, rest: string)
    requires row != [] && (rest == "" || rest[0] == '\r')
    ensures ParseRecord(Line(row) + rest) == Some((Texts(row), rest))
    decreases |row|
  {
    if |row| == 1 {
      FieldReadsBack(row[0], rest);
      assert Texts(row) == [TextOf(row[0])];
    } else {
      var tail := Line(row[1..]) + rest;
      LineSplits(row);
      LineReadsBack(row[1..], rest);
      FieldReadsBack(row[0], "," + tail);
      Reassociate(EscapeField(row[0]), ",", Line(row[1..]), rest);
      RecordStep(Line(row) + rest, TextOf(row[0]), tail);
    }
  }

  function TableTexts(table: seq<seq<Cell>>): seq<Record> {
    seq(|table|, i requires 0 <= i < |table| => Texts(table[i]))
  }

  lemma TableSplits(table: seq<seq<Cell>>)
    requires |table| > 1
    ensures Join(Lines(table), "\r\n") == Line(table[0]) + ("\r\n" + Join(Lines(table[1..]), "\r\n"))
    ensures TableTexts(table) == [Texts(table[0])] + TableTexts(table[1..])
  {
    assert Lines(table)[1..] == Lines(table[1..]);
  }

  lemma {:induction false} TableReadsBack(table: seq<seq<Cell>>)
    requires table != [] && forall i :: 0 <= i < |table| ==> table[i] != []
    ensures ParseFile(Join(Lines(table), "\r\n")) == Some(TableTexts(table))
    decreases |table|
  {
    if |table| == 1 {
      LineReadsBack(table[0], "");
      assert Line(table[0]) + "" == Line(table[0]);
      assert TableTexts(table) == [Texts(table[0])];
    } else {
      var tail := Join(Lines(table[1..]), "\r\n");
      TableSplits(table);
      LineReadsBack(table[0], "\r\n" + tail);
      TableReadsBack(table[1..]);
      FileStep(Join(Lines(table), "\r\n"), Texts(table[0]), tail);
    }
  }

  lemma {:induction false} RecordsAreNeverEmpty(s: string, i: nat)
    requires ParseFile(s).Some? && i < |ParseFile(s).value|
    ensures ParseFile(s).value[i] != []
    decreases |s|
  {
    if i > 0 {
      RecordsAreNeverEmpty(ParseRecord(s).value.1[2..], i - 1);
    }
  }

  /**
   The parser recovers header and rows, whatever quotes, commas and line breaks the cells contain, if and only if
   neither the header nor any row is empty.
   */
  lemma CsvRoundTrip(headers: seq<string>, rows: seq<seq<Cell>>)
    ensures ParseFile(BuildCsv(headers, rows)) == Some([headers] + TableTexts(rows))
       <==> headers != [] && forall i :: 0 <= i < |rows| ==> rows[i] != []
  {
    var table := [HeaderCells(headers)] + rows;
    assert Texts(HeaderCells(headers)) == headers;
    assert TableTexts(table) == [headers] + TableTexts(rows);
    if headers != [] && forall i :: 0 <= i < |rows| ==> rows[i] != [] {
      TableReadsBack(table);
    }
    if ParseFile(BuildCsv(headers, rows)) == Some(TableTexts(table)) {
      forall i | 0 <= i < |table| ensures table[i] != [] {
        RecordsAreNeverEmpty(BuildCsv(headers, rows), i);
        assert TableTexts(table)[i] == Texts(table[i]);
      }
      assert table[0] != [] && forall i :: 0 <= i < |rows| ==> table[i + 1] == rows[i];
    }
  }

  // ----- when a field is quoted

  /** A field is written as it is unless it has a quote, a comma or a line break, and in quotes then. */
  lemma QuotedExactlyWhen(value: Cell)
    ensures var text, out := if value == Nothing then "" else value.text, EscapeField(value);
            if '"' in text || ',' in text || '\r' in text || '\n' in text
            then |out| >= 2 && out[0] == '"' == out[|out| - 1] else out == text
  {
    var text := TextOf(value);
    assert NeedsQuotes(text) <==> '"' in text || ',' in text || '\r' in text || '\n' in text;
  }
}
