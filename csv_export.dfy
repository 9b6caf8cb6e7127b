/**
 * The CSV export of `PromptManager` (`_exportAsCSV`), with a reader for the records it writes.
 */
module CsvExport {
  import opened Wrappers
  import opened Seqs
  import opened Strings
  import opened PromptModel

  /** The first line of the CSV export. */
  const CsvHeader := "Title,Description,AI Model,Application,Tags,Content"

  /** `s.replace(/"/g, '""')`: every double quote doubled. */
  function DoubleQuotes(s: string): (r: string)
    ensures |r| >= |s|
  {
    if s == [] then []
    else (if s[0] == '"' then "\"\"" else [s[0]]) + DoubleQuotes(s[1..])
  }

  /** Text without a double quote has nothing to double. */
  lemma {:induction false} DoubleQuotesNone(s: string)
    requires '"' !in s
    ensures DoubleQuotes(s) == s
  {
    if s != [] {
      assert '"' !in s[1..] by {
        assert forall c :: c in s[1..] ==> c in s;
      }
      DoubleQuotesNone(s[1..]);
      assert [s[0]] + s[1..] == s;
    }
  }

  /** A field between double quotes, its own quotes doubled. */
  function Quote(s: string): string {
    "\"" + DoubleQuotes(s) + "\""
  }

  /** Every field of a record quoted. */
  function QuoteAll(fields: seq<string>): (r: seq<string>)
    ensures |r| == |fields| && forall i :: 0 <= i < |fields| ==> r[i] == Quote(fields[i])
  {
    seq(|fields|, i requires 0 <= i < |fields| => Quote(fields[i]))
  }

  /** One CSV record: the quoted fields separated by commas. */
  function Record(fields: seq<string>): string {
    Join(QuoteAll(fields), ",")
  }

  /** The six values a data row holds, in header order; the tags are joined with "; ". */
  function CsvFields(p: Prompt): seq<string> {
    [p.title, p.description, p.category.aiModel, p.category.application, Join(p.tags, "; "), p.content]
  }

  /**
   * The data row `_exportAsCSV` writes: every value is put between double quotes, but the quotes
   * inside the AI model, the application and the joined tags are not doubled.
   */
  function CsvRowAsWritten(p: Prompt): string {
    Join([Quote(p.title),
          Quote(p.description),
          "\"" + p.category.aiModel + "\"",
          "\"" + p.category.application + "\"",
          "\"" + Join(p.tags, "; ") + "\"",
          Quote(p.content)], ",")
  }

  /** The data row with every value escaped, as the three escaped columns already are. */
  function CsvRow(p: Prompt): string {
    Record(CsvFields(p))
  }

  /** The data rows of a list of records. */
  function CsvRows(ps: seq<Prompt>): (rows: seq<string>)
    ensures |rows| == |ps| && forall i :: 0 <= i < |ps| ==> rows[i] == CsvRow(ps[i])
  {
    seq(|ps|, i requires 0 <= i < |ps| => CsvRow(ps[i]))
  }

  /** The values of every data row. */
  function CsvTable(ps: seq<Prompt>): (t: seq<seq<string>>)
    ensures |t| == |ps| && forall i :: 0 <= i < |ps| ==> t[i] == CsvFields(ps[i])
  {
    seq(|ps|, i requires 0 <= i < |ps| => CsvFields(ps[i]))
  }

  /** The CSV export with every value escaped: the header, then one row per record, lines joined by "\n". */
  function Csv(ps: seq<Prompt>): string {
    Join([CsvHeader] + CsvRows(ps), "\n")
  }

  /** The data rows `_exportAsCSV` writes for a list of records. */
  function CsvRowsAsWritten(ps: seq<Prompt>): (rows: seq<string>)
    ensures |rows| == |ps| && forall i :: 0 <= i < |ps| ==> rows[i] == CsvRowAsWritten(ps[i])
  {
    seq(|ps|, i requires 0 <= i < |ps| => CsvRowAsWritten(ps[i]))
  }

  /** The CSV text `_exportAsCSV` returns: the header, then its row for each record, joined by "\n". */
  function CsvAsWritten(ps: seq<Prompt>): string {
    Join([CsvHeader] + CsvRowsAsWritten(ps), "\n")
  }

  /** `_exportAsCSV`: collects the header and one row per record, then joins the lines. */
  method ExportAsCsv(prompts: seq<Prompt>) returns (text: string)
    ensures text == CsvAsWritten(prompts)
  {
    var rows := [CsvHeader];
    var i := 0;
    while i < |prompts|
      invariant 0 <= i <= |prompts|
      invariant rows == [CsvHeader] + CsvRowsAsWritten(prompts[..i])
    {
      rows := rows + [CsvRowAsWritten(prompts[i])];
      i := i + 1;
    }
    assert prompts[..i] == prompts;
    text := Join(rows, "\n");
  }

  /**
   * Reads the inside of a quoted field, just after its opening quote: `""` stands for one quote
   * and a lone quote closes the field. Gives the value and the text after the closing quote.
   */
  function ReadQuoted(s: string): (r: Option<(string, string)>)
    ensures r.Some? ==> |r.value.1| < |s|
    decreases |s|
  {
    if s == [] then None
    else if s[0] == '"' then
      if |s| > 1 && s[1] == '"' then
        match ReadQuoted(s[2..])
        case None => None
        case Some((v, rest)) => Some(("\"" + v, rest))
      else Some(("", s[1..]))
    else
      match ReadQuoted(s[1..])
      case None => None
      case Some((v, rest)) => Some(([s[0]] + v, rest))
  }

  /**
   * Reads the quoted, comma-separated fields of one record, up to a line break outside quotes or
   * the end of the text. Gives the values and the text from the line break on.
   */
  function ReadRecord(s: string): (r: Option<(seq<string>, string)>)
    ensures r.Some? ==> |r.value.1| < |s| && (r.value.1 == [] || r.value.1[0] == '\n')
    decreases |s|
  {
    if s == [] || s[0] != '"' then None
    else
      match ReadQuoted(s[1..])
      case None => None
      case Some((v, rest)) =>
        if rest == [] || rest[0] == '\n' then Some(([v], rest))
        else if rest[0] == ',' then
          match ReadRecord(rest[1..])
          case None => None
          case Some((vs, tail)) => Some(([v] + vs, tail))
        else None
  }

  /** Reads one or more records separated by line breaks. */
  function ReadRecords(s: string): Option<seq<seq<string>>>
    decreases |s|
  {
    match ReadRecord(s)
    case None => None
    case Some((fields, rest)) =>
      if rest == [] then Some([fields])
      else
        match ReadRecords(rest[1..])
        case None => None
        case Some(more) => Some([fields] + more)
  }

  /** A field with its quotes doubled reads back up to the closing quote. */
  lemma {:induction false} ReadQuotedDoubled(v: string, rest: string)
    requires rest == [] || rest[0] != '"'
    ensures ReadQuoted(DoubleQuotes(v) + "\"" + rest) == Some((v, rest))
  {
    var s := DoubleQuotes(v) + "\"" + rest;
    if v == [] {
      assert s == "\"" + rest;
      assert s[1..] == rest;
    } else {
      ReadQuotedDoubled(v[1..], rest);
      var tail := DoubleQuotes(v[1..]) + "\"" + rest;
      if v[0] == '"' {
        assert s == "\"\"" + tail;
        assert s[2..] == tail;
      } else {
        assert s == [v[0]] + tail;
        assert s[1..] == tail;
      }
      assert v == [v[0]] + v[1..];
    }
  }

  /** A quoted field followed by text that does not start with a quote reads back as the field. */
  lemma ReadQuotedField(v: string, after: string)
    requires after == [] || after[0] != '"'
    ensures var s := Quote(v) + after;
            s != [] && s[0] == '"' && ReadQuoted(s[1..]) == Some((v, after))
  {
    var s := Quote(v) + after;
    assert s[1..] == DoubleQuotes(v) + "\"" + after;
    ReadQuotedDoubled(v, after);
  }

  /** A record of several fields: the first field quoted, a comma, then the record of the rest. */
  lemma RecordCons(fields: seq<string>)
    requires |fields| > 1
    ensures Record(fields) == Quote(fields[0]) + "," + Record(fields[1..])
  {
    assert QuoteAll(fields)[1..] == QuoteAll(fields[1..]);
  }

  /** A record reads back as its fields, whatever follows from a line break on. */
  lemma {:induction false} ReadRecordOf(fields: seq<string>, rest: string)
    requires fields != [] && (rest == [] || rest[0] == '\n')
    ensures ReadRecord(Record(fields) + rest) == Some((fields, rest))
    decreases |fields|
  {
    var head := fields[0];
    if |fields| == 1 {
      assert fields == [head];
      assert Record(fields) == Quote(head);
      ReadQuotedField(head, rest);
    } else {
      var more := Record(fields[1..]) + rest;
      RecordCons(fields);
      assert Record(fields) + rest == Quote(head) + ("," + more);
      ReadQuotedField(head, "," + more);
      assert ("," + more)[1..] == more;
      ReadRecordOf(fields[1..], rest);
      assert fields == [head] + fields[1..];
    }
  }

  /** The records of a table, each written out. */
  function Records(table: seq<seq<string>>): (r: seq<string>)
    ensures |r| == |table| && forall i :: 0 <= i < |table| ==> r[i] == Record(table[i])
  {
    seq(|table|, i requires 0 <= i < |table| => Record(table[i]))
  }

  /** A non-empty table of non-empty records, written one record per line, reads back. */
  lemma {:induction false} ReadRecordsOf(table: seq<seq<string>>)
    requires table != [] && forall i :: 0 <= i < |table| ==> table[i] != []
    ensures ReadRecords(Join(Records(table), "\n")) == Some(table)
    decreases |table|
  {
    if |table| == 1 {
      ReadRecordOf(table[0], "");
      assert Records(table) == [Record(table[0])];
      assert Join(Records(table), "\n") == Record(table[0]) + "";
      assert table == [table[0]];
    } else {
      var rest := Join(Records(table[1..]), "\n");
      assert Records(table)[1..] == Records(table[1..]);
      assert Join(Records(table), "\n") == Record(table[0]) + ("\n" + rest);
      ReadRecordOf(table[0], "\n" + rest);
      assert ("\n" + rest)[1..] == rest;
      ReadRecordsOf(table[1..]);
      assert table == [table[0]] + table[1..];
    }
  }

  /**
   * The escaped CSV export is the header alone when there are no records; otherwise the header, a line
   * break, and data rows from which a CSV reader recovers every value of every record, in order.
   */
  lemma CsvRoundTrip(ps: seq<Prompt>)
    ensures ps == [] ==> Csv(ps) == CsvHeader
    ensures ps != [] ==>
              Csv(ps) == CsvHeader + "\n" + Join(CsvRows(ps), "\n") &&
              ReadRecords(Join(CsvRows(ps), "\n")) == Some(CsvTable(ps))
  {
    if ps != [] {
      assert ([CsvHeader] + CsvRows(ps))[1..] == CsvRows(ps);
      assert CsvRows(ps) == Records(CsvTable(ps));
      ReadRecordsOf(CsvTable(ps));
    }
  }

  /** Two records with the same escaped row have the same values. */
  lemma CsvRowInjective(p: Prompt, q: Prompt)
    requires CsvRow(p) == CsvRow(q)
    ensures CsvFields(p) == CsvFields(q)
  {
    ReadRecordOf(CsvFields(p), "");
    ReadRecordOf(CsvFields(q), "");
    assert CsvRow(p) + "" == CsvRow(p) && CsvRow(q) + "" == CsvRow(q);
  }

  /** Where the three unescaped values hold no double quote, the row as written is the escaped one. */
  lemma CsvRowAsWrittenAgrees(p: Prompt)
    requires '"' !in p.category.aiModel && '"' !in p.category.application && '"' !in Join(p.tags, "; ")
    ensures CsvRowAsWritten(p) == CsvRow(p)
  {
    DoubleQuotesNone(p.category.aiModel);
    DoubleQuotesNone(p.category.application);
    DoubleQuotesNone(Join(p.tags, "; "));
    assert QuoteAll(CsvFields(p)) == [Quote(p.title), Quote(p.description),
      "\"" + p.category.aiModel + "\"", "\"" + p.category.application + "\"",
      "\"" + Join(p.tags, "; ") + "\"", Quote(p.content)];
  }

  /** A record whose AI model holds a quoted comma, and one whose application does. */
  const QuotedModel := Prompt("1", "t", "", "", Category("x\",\"y", "z"), [], true, 0, 0, 0, None)
  const QuotedApplication := Prompt("1", "t", "", "", Category("x", "y\",\"z"), [], true, 0, 0, 0, None)

  /** A join of six values, grouped around its middle pair. */
  lemma Join6(a: string, b: string, c: string, d: string, e: string, f: string, sep: string)
    ensures Join([a, b, c, d, e, f], sep) == (a + sep + b + sep) + (c + sep + d) + (sep + e + sep + f)
  {
    assert [a, b, c, d, e, f][1..] == [b, c, d, e, f];
    assert [b, c, d, e, f][1..] == [c, d, e, f];
    assert [c, d, e, f][1..] == [d, e, f];
    assert [d, e, f][1..] == [e, f];
    assert [e, f][1..] == [f];
    assert Join([e, f], sep) == e + sep + f;
    assert Join([d, e, f], sep) == d + sep + (e + sep + f);
    assert Join([c, d, e, f], sep) == c + sep + (d + sep + (e + sep + f));
    assert Join([b, c, d, e, f], sep) == b + sep + (c + sep + (d + sep + (e + sep + f)));
  }

  /**
   * The row as written cannot be read back: two records with different AI models and
   * applications give the same line of text.
   */
  lemma CsvRowAsWrittenAmbiguous()
    ensures CsvRowAsWritten(QuotedModel) == CsvRowAsWritten(QuotedApplication)
    ensures CsvFields(QuotedModel) != CsvFields(QuotedApplication)
  {
    var tags := "\"" + Join([], "; ") + "\"";
    var m1 := "\"" + QuotedModel.category.aiModel + "\"";
    var a1 := "\"" + QuotedModel.category.application + "\"";
    var m2 := "\"" + QuotedApplication.category.aiModel + "\"";
    var a2 := "\"" + QuotedApplication.category.application + "\"";
    Join6(Quote("t"), Quote(""), m1, a1, tags, Quote(""), ",");
    Join6(Quote("t"), Quote(""), m2, a2, tags, Quote(""), ",");
    assert m1 + "," + a1 == m2 + "," + a2;
    assert CsvFields(QuotedModel)[2] != CsvFields(QuotedApplication)[2];
  }

  /** Records whose AI model, application and tags hold no double quote export alike as written and escaped. */
  lemma CsvAsWrittenAgrees(ps: seq<Prompt>)
    requires forall p :: p in ps ==> '"' !in p.category.aiModel && '"' !in p.category.application && '"' !in Join(p.tags, "; ")
    ensures CsvAsWritten(ps) == Csv(ps)
  {
    forall i | 0 <= i < |ps| ensures CsvRowsAsWritten(ps)[i] == CsvRows(ps)[i] {
      assert ps[i] in ps;
      CsvRowAsWrittenAgrees(ps[i]);
    }
    assert CsvRowsAsWritten(ps) == CsvRows(ps);
  }

  /** As written, the exports of two different records are the same text. */
  lemma CsvAsWrittenAmbiguous()
    ensures CsvAsWritten([QuotedModel]) == CsvAsWritten([QuotedApplication])
    ensures CsvTable([QuotedModel]) != CsvTable([QuotedApplication])
  {
    CsvRowAsWrittenAmbiguous();
    assert CsvRowsAsWritten([QuotedModel]) == CsvRowsAsWritten([QuotedApplication]);
    assert CsvTable([QuotedModel])[0] != CsvTable([QuotedApplication])[0];
  }
}
