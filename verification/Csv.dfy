/** The CSV export (dashboard/lib/utils/csv.ts) against a reader for the quoting rules of section 2 of
    RFC 4180, with the LF line ends the export writes. */
module Csv {
  import opened Sequences

  // ---------------------------------------------------------------- the export

  predicate Special(c: char) {
    c == ',' || c == '"' || c == '\n'
  }

  /** Every quote doubled. */
  function Doubled(s: string): string {
    if s == "" then "" else (if s[0] == '"' then "\"\"" else [s[0]]) + Doubled(s[1..])
  }

  function EscapeCSV(value: string): string {
    if ',' in value || '"' in value || '\n' in value then "\"" + Doubled(value) + "\"" else value
  }

  function Join(parts: seq<string>, sep: char): string {
    if parts == [] then "" else if |parts| == 1 then parts[0] else parts[0] + [sep] + Join(parts[1..], sep)
  }

  /** What `toFixed` and `String` make of a number: no separator, quote or line end. */
  predicate Numeral(s: string) {
    forall i :: 0 <= i < |s| ==> !Special(s[i])
  }

  datatype Item = Item(group: string, cost: string, percent: string, requests: string, tokens: string)

  ghost predicate NumericColumns(items: seq<Item>) {
    forall i :: 0 <= i < |items| ==>
      Numeral(items[i].cost) && Numeral(items[i].percent) && Numeral(items[i].requests) && Numeral(items[i].tokens)
  }

  const HEADERS := ["Group", "Cost (USD)", "% of Total", "Requests", "Tokens"]

  /** A row as written: only the group is escaped. */
  function Row(item: Item): seq<string> {
    [EscapeCSV(item.group), item.cost, item.percent, item.requests, item.tokens]
  }

  function Lines(items: seq<Item>): seq<string> {
    if items == [] then [] else [Join(Row(items[0]), ',')] + Lines(items[1..])
  }

  function DownloadCSV(items: seq<Item>): string {
    Join([Join(HEADERS, ',')] + Lines(items), '\n')
  }

  // ---------------------------------------------------------------- the reader

  /** A field and the text after it. */
  datatype Scan<+T> = Bad | Read(value: T, rest: string)

  /** The inside of a quoted field, up to its closing quote. */
  function ReadQuoted(s: string): Scan<string> {
    if s == "" then Bad
    else if s[0] != '"' then
      match ReadQuoted(s[1..])
      case Bad => Bad
      case Read(v, rest) => Read([s[0]] + v, rest)
    else if |s| > 1 && s[1] == '"' then
      match ReadQuoted(s[2..])
      case Bad => Bad
      case Read(v, rest) => Read("\"" + v, rest)
    else Read("", s[1..])
  }

  function ReadPlain(s: string): Scan<string> {
    if s == "" || s[0] == ',' || s[0] == '\n' then Read("", s)
    else if s[0] == '"' then Bad
    else
      match ReadPlain(s[1..])
      case Bad => Bad
      case Read(v, rest) => Read([s[0]] + v, rest)
  }

  lemma {:induction false} QuotedShrinks(s: string)
    ensures ReadQuoted(s).Read? ==> |ReadQuoted(s).rest| < |s|
    decreases |s|
  {
    if s != "" {
      QuotedShrinks(s[1..]);
      if |s| > 1 {
        QuotedShrinks(s[2..]);
      }
    }
  }

  lemma {:induction false} PlainShrinks(s: string)
    ensures ReadPlain(s).Read? ==> |ReadPlain(s).rest| <= |s|
  {
    if s != "" {
      PlainShrinks(s[1..]);
    }
  }

  function ReadField(s: string): (r: Scan<string>)
    ensures r.Read? ==> |r.rest| <= |s|
  {
    QuotedShrinks(s[if s == "" then 0 else 1..]);
    PlainShrinks(s);
    if s != "" && s[0] == '"' then ReadQuoted(s[1..]) else ReadPlain(s)
  }

  /** Fields separated by commas, up to a line end or the end of the text. */
  function ReadRecord(s: string): (r: Scan<seq<string>>)
    ensures r.Read? ==> |r.rest| <= |s| && (r.rest == "" || r.rest[0] == '\n')
    decreases |s|
  {
    match ReadField(s)
    case Bad => Bad
    case Read(f, rest) =>
      if rest == "" || rest[0] == '\n' then Read([f], rest)
      else if rest[0] != ',' then Bad
      else
        match ReadRecord(rest[1..])
        case Bad => Bad
        case Read(fs, rest') => Read([f] + fs, rest')
  }

  function ReadFile(s: string): Option<seq<seq<string>>>
    decreases |s|
  {
    match ReadRecord(s)
    case Bad => None
    case Read(record, rest) =>
      if rest == "" then Some([record])
      else
        match ReadFile(rest[1..])
        case None => None
        case Some(records) => Some([record] + records)
  }

  // ---------------------------------------------------------------- round trip

  lemma {:induction false} QuotedReads(f: string, rest: string)
    requires rest == "" || rest[0] != '"'
    ensures ReadQuoted(Doubled(f) + "\"" + rest) == Read(f, rest)
  {
    var s := Doubled(f) + "\"" + rest;
    if f == "" {
      assert s == "\"" + rest;
      assert s[1..] == rest;
    } else {
      QuotedReads(f[1..], rest);
      var tail := Doubled(f[1..]) + "\"" + rest;
      if f[0] == '"' {
        assert s == "\"\"" + tail;
        assert s[2..] == tail;
      } else {
        assert s == [f[0]] + tail;
        assert s[1..] == tail;
      }
      assert f == [f[0]] + f[1..];
    }
  }

  lemma {:induction false} PlainReads(f: string, rest: string)
    requires Numeral(f)
    requires rest == "" || rest[0] == ',' || rest[0] == '\n'
    ensures ReadPlain(f + rest) == Read(f, rest)
  {
    if f == "" {
      assert f + rest == rest;
    } else {
      assert (f + rest)[1..] == f[1..] + rest;
      PlainReads(f[1..], rest);
      assert f == [f[0]] + f[1..];
    }
  }

  lemma QuotedFieldReads(f: string, rest: string)
    requires rest == "" || rest[0] != '"'
    ensures ReadField("\"" + Doubled(f) + "\"" + rest) == Read(f, rest)
  {
    var s := "\"" + Doubled(f) + "\"" + rest;
    assert s[1..] == Doubled(f) + "\"" + rest;
    QuotedReads(f, rest);
  }

  lemma PlainFieldReads(f: string, rest: string)
    requires Numeral(f)
    requires rest == "" || rest[0] == ',' || rest[0] == '\n'
    ensures ReadField(f + rest) == Read(f, rest)
  {
    PlainReads(f, rest);
    if f == "" {
      assert f + rest == rest;
    } else {
      assert !Special(f[0]);
    }
  }

  lemma FieldReads(f: string, rest: string)
    requires rest == "" || rest[0] == ',' || rest[0] == '\n'
    ensures ReadField(EscapeCSV(f) + rest) == Read(f, rest)
  {
    if ',' in f || '"' in f || '\n' in f {
      QuotedFieldReads(f, rest);
    } else {
      forall i | 0 <= i < |f| ensures !Special(f[i]) {
        assert f[i] in f;
      }
      PlainFieldReads(f, rest);
    }
  }

  function Escaped(fields: seq<string>): seq<string> {
    if fields == [] then [] else [EscapeCSV(fields[0])] + Escaped(fields[1..])
  }

  /** A document: records of escaped fields, one for each line. */
  function Document(records: seq<seq<string>>): string {
    Join(RecordLines(records), '\n')
  }

  function RecordLines(records: seq<seq<string>>): seq<string> {
    if records == [] then [] else [Join(Escaped(records[0]), ',')] + RecordLines(records[1..])
  }

  /** A first field followed by more: the comma ends it. */
  lemma FirstField(f: string, tail: string, fields: seq<string>, rest: string)
    requires ReadRecord(tail) == Read(fields, rest)
    ensures ReadRecord(EscapeCSV(f) + ("," + tail)) == Read([f] + fields, rest)
  {
    FieldReads(f, "," + tail);
    assert ("," + tail)[1..] == tail;
  }

  lemma LastField(f: string, rest: string)
    requires rest == "" || rest[0] == '\n'
    ensures ReadRecord(EscapeCSV(f) + rest) == Read([f], rest)
  {
    FieldReads(f, rest);
  }

  lemma JoinCons(f: string, fields: seq<string>, rest: string)
    requires fields != []
    ensures Join([f] + fields, ',') + rest == f + ("," + (Join(fields, ',') + rest))
  {
    assert ([f] + fields)[1..] == fields;
  }

  lemma {:induction false} RecordReads(fields: seq<string>, rest: string)
    requires fields != [] && (rest == "" || rest[0] == '\n')
    ensures ReadRecord(Join(Escaped(fields), ',') + rest) == Read(fields, rest)
  {
    var f, more := fields[0], fields[1..];
    assert fields == [f] + more;
    EscapedCons(f, more);
    if more == [] {
      assert Escaped(fields) == [EscapeCSV(f)] && fields == [f];
      LastField(f, rest);
    } else {
      RecordReads(more, rest);
      JoinCons(EscapeCSV(f), Escaped(more), rest);
      FirstField(f, Join(Escaped(more), ',') + rest, more, rest);
    }
  }

  /** Every document of non-empty records, with arbitrary field texts, reads back as itself. */
  lemma {:induction false} DocumentReads(records: seq<seq<string>>)
    requires records != [] && forall i :: 0 <= i < |records| ==> records[i] != []
    ensures ReadFile(Document(records)) == Some(records)
  {
    var lines := RecordLines(records);
    if |records| == 1 {
      assert lines == [Join(Escaped(records[0]), ',')];
      RecordReads(records[0], "");
      assert Document(records) + "" == Document(records);
      assert records == [records[0]];
    } else {
      var tail := Document(records[1..]);
      assert lines[1..] == RecordLines(records[1..]);
      assert Document(records) == Join(Escaped(records[0]), ',') + ("\n" + tail);
      RecordReads(records[0], "\n" + tail);
      assert ("\n" + tail)[1..] == tail;
      DocumentReads(records[1..]);
      assert records == [records[0]] + records[1..];
    }
  }

  /** The five fields of an item. */
  function Fields(item: Item): seq<string> {
    [item.group, item.cost, item.percent, item.requests, item.tokens]
  }

  function AllFields(items: seq<Item>): seq<seq<string>> {
    if items == [] then [] else [Fields(items[0])] + AllFields(items[1..])
  }

  lemma NumeralUnescaped(s: string)
    requires Numeral(s)
    ensures EscapeCSV(s) == s
  {
  }

  lemma RowIsEscaped(item: Item)
    requires Numeral(item.cost) && Numeral(item.percent) && Numeral(item.requests) && Numeral(item.tokens)
    ensures Row(item) == Escaped(Fields(item))
  {
    NumeralUnescaped(item.cost);
    NumeralUnescaped(item.percent);
    NumeralUnescaped(item.requests);
    NumeralUnescaped(item.tokens);
    EscapedFive(item.group, item.cost, item.percent, item.requests, item.tokens);
  }

  lemma EscapedCons(x: string, xs: seq<string>)
    ensures Escaped([x] + xs) == [EscapeCSV(x)] + Escaped(xs)
  {
    assert ([x] + xs)[1..] == xs;
  }

  lemma EscapedFive(a: string, b: string, c: string, d: string, e: string)
    ensures Escaped([a, b, c, d, e]) == [EscapeCSV(a), EscapeCSV(b), EscapeCSV(c), EscapeCSV(d), EscapeCSV(e)]
  {
    EscapedCons(a, [b, c, d, e]);
    EscapedCons(b, [c, d, e]);
    EscapedCons(c, [d, e]);
    EscapedCons(d, [e]);
    EscapedCons(e, []);
  }

  lemma {:induction false} LinesAreRecords(items: seq<Item>)
    requires NumericColumns(items)
    ensures Lines(items) == RecordLines(AllFields(items))
    ensures forall i :: 0 <= i < |AllFields(items)| ==> AllFields(items)[i] != []
  {
    if items != [] {
      RowIsEscaped(items[0]);
      LinesAreRecords(items[1..]);
      assert AllFields(items)[1..] == AllFields(items[1..]);
    }
  }

  lemma NumeralAppend(a: string, b: string)
    requires Numeral(a) && Numeral(b)
    ensures Numeral(a + b)
  {
  }

  lemma HeaderGroup()
    ensures EscapeCSV("Group") == "Group"
  {
    NumeralUnescaped("Group");
  }

  lemma HeaderCost()
    ensures EscapeCSV("Cost (USD)") == "Cost (USD)"
  {
    NumeralAppend("Cost ", "(USD)");
    assert "Cost (USD)" == "Cost " + "(USD)";
    NumeralUnescaped("Cost (USD)");
  }

  lemma HeaderPercent()
    ensures EscapeCSV("% of Total") == "% of Total"
  {
    NumeralAppend("% of ", "Total");
    assert "% of Total" == "% of " + "Total";
    NumeralUnescaped("% of Total");
  }

  lemma HeaderRequests()
    ensures EscapeCSV("Requests") == "Requests"
  {
    NumeralAppend("Requ", "ests");
    assert "Requests" == "Requ" + "ests";
    NumeralUnescaped("Requests");
  }

  lemma HeaderTokens()
    ensures EscapeCSV("Tokens") == "Tokens"
  {
    NumeralAppend("Tok", "ens");
    assert "Tokens" == "Tok" + "ens";
    NumeralUnescaped("Tokens");
  }

  lemma HeadersUnescaped()
    ensures Escaped(HEADERS) == HEADERS
  {
    HeaderGroup();
    HeaderCost();
    HeaderPercent();
    HeaderRequests();
    HeaderTokens();
    EscapedFive("Group", "Cost (USD)", "% of Total", "Requests", "Tokens");
  }

  /** The export reads back as its header and exactly the five fields of every item, whatever the group
      strings contain. */
  lemma ExportRoundTrip(items: seq<Item>)
    requires NumericColumns(items)
    ensures ReadFile(DownloadCSV(items)) ==
            Some([["Group", "Cost (USD)", "% of Total", "Requests", "Tokens"]] + AllFields(items))
  {
    var records := [HEADERS] + AllFields(items);
    LinesAreRecords(items);
    HeadersUnescaped();
    assert records[1..] == AllFields(items);
    assert RecordLines(records) == [Join(HEADERS, ',')] + Lines(items);
    DocumentReads(records);
  }
}
