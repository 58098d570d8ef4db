/** CSV export of events (crates/core/src/export.rs) and an independent RFC 4180 reader. */
module Csv {
  import opened Basics

  const BOM: char := '\U{feff}'

  /** The ledger's own columns. */
  const COLUMNS: seq<string> := [
    "id", "ts", "ts_utc", "device_id", "client_ip", "qname", "qtype", "category", "list_source", "signals",
    "verdict", "decided_by", "rule_id", "prev_hash", "row_hash", "programa", "programa_ruta", "programa_sha256",
    "servidor_tipo", "servidor_pais", "servidor_asn", "servidor_base", "cname_destino"]

  // ----- writing -----

  function Join(fs: seq<string>, sep: char): string {
    if fs == [] then "" else if |fs| == 1 then fs[0] else fs[0] + [sep] + Join(fs[1..], sep)
  }

  function Replace(t: string, from: char, with: string): string {
    if t == "" then "" else (if t[0] == from then with else [t[0]]) + Replace(t[1..], from, with)
  }

  predicate IsFormula(f: string) {
    f != "" && f[0] in ['=', '+', '-', '@', '\t', '\r']
  }

  /** Quotes when needed, doubled inner quotes; for a spreadsheet, an apostrophe before a formula. */
  function Quote(f: string, sep: char, sheet: bool): string {
    if sheet && IsFormula(f) then "\"'" + Replace(f, '"', "\"\"") + "\""
    else if sep in f || '"' in f || '\n' in f || '\r' in f then "\"" + Replace(f, '"', "\"\"") + "\""
    else f
  }

  function QuoteAll(fs: seq<string>, sep: char, sheet: bool): (r: seq<string>)
    ensures |r| == |fs|
  {
    seq(|fs|, i requires 0 <= i < |fs| => Quote(fs[i], sep, sheet))
  }

  function Line(fs: seq<string>, sep: char, sheet: bool): string {
    Join(QuoteAll(fs, sep, sheet), sep) + "\n"
  }

  function Body(rows: seq<seq<string>>, sep: char, sheet: bool): string {
    if rows == [] then "" else Line(rows[0], sep, sheet) + Body(rows[1..], sep, sheet)
  }

  /** The header: the ledger's columns as they are, the extra ones quoted. */
  function Header(extra: seq<string>, sep: char, sheet: bool): string {
    Join(COLUMNS + QuoteAll(extra, sep, sheet), sep) + "\n"
  }

  /** The whole file: for a spreadsheet, its byte order mark first. */
  function File(rows: seq<seq<string>>, sep: char, sheet: bool, extra: seq<string>): string {
    (if sheet then [BOM] else "") + (Header(extra, sep, sheet) + Body(rows, sep, sheet))
  }

  predicate NoEmptyRow(rows: seq<seq<string>>) {
    forall i | 0 <= i < |rows| :: rows[i] != []
  }

  /** One record: its fields quoted and joined. */
  method WriteLine(fs: seq<string>, sep: char, sheet: bool) returns (line: string)
    ensures line == Line(fs, sep, sheet)
  {
    line := "";
    for k := 0 to |fs|
      invariant line == Join(QuoteAll(fs[..k], sep, sheet), sep)
    {
      assert QuoteAll(fs[..k + 1], sep, sheet) == QuoteAll(fs[..k], sep, sheet) + [Quote(fs[k], sep, sheet)];
      if k > 0 {
        JoinSnoc(QuoteAll(fs[..k], sep, sheet), Quote(fs[k], sep, sheet), sep);
        line := line + [sep];
      }
      line := line + Quote(fs[k], sep, sheet);
    }
    assert fs[..|fs|] == fs;
    line := line + "\n";
  }

  method WriteHeader(extra: seq<string>, sep: char, sheet: bool) returns (header: string)
    ensures header == Header(extra, sep, sheet)
  {
    header := Replace(Join(COLUMNS, ','), ',', [sep]);
    forall i | 0 <= i < |COLUMNS| ensures ',' !in COLUMNS[i] { ColumnIsAName(i); }
    ReplaceJoin(COLUMNS, ',', sep);
    header := WithExtra(header, COLUMNS, extra, sep, sheet);
    header := header + "\n";
  }

  /** The extra columns after the ones there are. */
  method WithExtra(there: string, ghost base: seq<string>, extra: seq<string>, sep: char, sheet: bool)
    returns (header: string)
    requires base != [] && there == Join(base, sep)
    ensures header == Join(base + QuoteAll(extra, sep, sheet), sep)
  {
    header := there;
    ExtraColumns(base, extra, 0, sep, sheet);
    for i := 0 to |extra|
      invariant header == Join(base + QuoteAll(extra[..i], sep, sheet), sep)
    {
      ExtraColumns(base, extra, i, sep, sheet);
      header := header + [sep];
      header := header + Quote(extra[i], sep, sheet);
    }
    assert extra[..|extra|] == extra;
  }

  /** One more extra column after the first `i`. */
  lemma ExtraColumns(base: seq<string>, extra: seq<string>, i: nat, sep: char, sheet: bool)
    requires base != [] && i <= |extra|
    ensures base + QuoteAll(extra[..0], sep, sheet) == base
    ensures i < |extra| ==> (Join(base + QuoteAll(extra[..i + 1], sep, sheet), sep)
                          == Join(base + QuoteAll(extra[..i], sep, sheet), sep) + [sep] + Quote(extra[i], sep, sheet))
  {
    if i < |extra| {
      assert base + QuoteAll(extra[..i + 1], sep, sheet)
          == base + QuoteAll(extra[..i], sep, sheet) + [Quote(extra[i], sep, sheet)];
      JoinSnoc(base + QuoteAll(extra[..i], sep, sheet), Quote(extra[i], sep, sheet), sep);
    }
  }

  method WriteCsv(rows: seq<seq<string>>, sep: char, sheet: bool, extra: seq<string>) returns (w: string)
    ensures w == File(rows, sep, sheet, extra)
  {
    var header := WriteHeader(extra, sep, sheet);
    w := (if sheet then [BOM] else "") + header;
    ghost var written := w;
    for i := 0 to |rows|
      invariant w + Body(rows[i..], sep, sheet) == written + Body(rows, sep, sheet)
    {
      var line := WriteLine(rows[i], sep, sheet);
      assert rows[i..][1..] == rows[i + 1..];
      w := w + line;
    }
    assert w == written + Body(rows, sep, sheet) by { assert rows[|rows|..] == []; }
    Grouped(if sheet then [BOM] else "", header, Body(rows, sep, sheet));
  }

  lemma Grouped(a: string, b: string, c: string)
    ensures (a + b) + c == a + (b + c)
  {
  }

  /** The columns' names: lowercase letters, digits and underscores. */
  predicate IsName(f: string) {
    f != "" && forall k | 0 <= k < |f| :: 'a' <= f[k] <= 'z' || f[k] == '_' || '0' <= f[k] <= '9'
  }

  lemma ColumnIsAName(i: nat)
    requires i < |COLUMNS|
    ensures IsName(COLUMNS[i])
  {
  }

  lemma {:induction false} JoinSnoc(fs: seq<string>, f: string, sep: char)
    requires fs != []
    ensures Join(fs + [f], sep) == Join(fs, sep) + [sep] + f
  {
    if |fs| > 1 {
      assert (fs + [f])[1..] == fs[1..] + [f];
      JoinSnoc(fs[1..], f, sep);
    } else {
      assert (fs + [f])[1..] == [f];
    }
  }

  lemma {:induction false} ReplaceConcat(a: string, b: string, from: char, with: string)
    ensures Replace(a + b, from, with) == Replace(a, from, with) + Replace(b, from, with)
  {
    if a == "" {
      assert a + b == b;
    } else {
      assert (a + b)[1..] == a[1..] + b;
      ReplaceConcat(a[1..], b, from, with);
    }
  }

  lemma {:induction false} ReplaceAbsent(a: string, from: char, with: string)
    requires from !in a
    ensures Replace(a, from, with) == a
  {
    if a != "" { ReplaceAbsent(a[1..], from, with); }
  }

  lemma ReplaceOne(f: string, rest: string, from: char, sep: char)
    requires from !in f
    ensures Replace(f + [from] + rest, from, [sep]) == f + [sep] + Replace(rest, from, [sep])
  {
    ReplaceAbsent(f, from, [sep]);
    ReplaceConcat(f + [from], rest, from, [sep]);
    ReplaceConcat(f, [from], from, [sep]);
    assert [from][1..] == "";
  }

  /** Changing the separator of a joined text whose pieces do not hold it. */
  lemma {:induction false} ReplaceJoin(fs: seq<string>, from: char, sep: char)
    requires forall f | f in fs :: from !in f
    ensures Replace(Join(fs, from), from, [sep]) == Join(fs, sep)
  {
    if fs != [] {
      if |fs| > 1 {
        ReplaceJoin(fs[1..], from, sep);
        ReplaceOne(fs[0], Join(fs[1..], from), from, sep);
      } else {
        ReplaceAbsent(fs[0], from, [sep]);
      }
    }
  }

  // ----- reading, as section 2 of RFC 4180 says, with LF as the end of a record -----

  /** The rest of a quoted field, after its opening quote: its value and what follows. */
  function ReadQuoted(t: string): Option<(string, string)> {
    if t == "" then None
    else if t[0] != '"' then
      match ReadQuoted(t[1..]) case None => None case Some((f, rest)) => Some(([t[0]] + f, rest))
    else if |t| > 1 && t[1] == '"' then
      match ReadQuoted(t[2..]) case None => None case Some((f, rest)) => Some((['"'] + f, rest))
    else Some(("", t[1..]))
  }

  /** An unquoted field ends at a separator or at the end of the record. */
  function ReadBare(t: string, sep: char): (string, string) {
    if t == "" || t[0] == sep || t[0] == '\n' then ("", t)
    else var (f, rest) := ReadBare(t[1..], sep); ([t[0]] + f, rest)
  }

  function ReadField(t: string, sep: char): Option<(string, string)> {
    if t != "" && t[0] == '"' then ReadQuoted(t[1..]) else Some(ReadBare(t, sep))
  }

  lemma {:induction false} QuotedShrinks(t: string)
    ensures ReadQuoted(t).Some? ==> |ReadQuoted(t).value.1| < |t|
  {
    if t != "" {
      if t[0] != '"' { QuotedShrinks(t[1..]); }
      else if |t| > 1 && t[1] == '"' { QuotedShrinks(t[2..]); }
    }
  }

  lemma {:induction false} BareShrinks(t: string, sep: char)
    ensures |ReadBare(t, sep).1| <= |t|
  {
    if t != "" && t[0] != sep && t[0] != '\n' { BareShrinks(t[1..], sep); }
  }

  function ReadRecord(t: string, sep: char): (r: Option<(seq<string>, string)>)
    ensures r.Some? ==> |r.value.1| < |t|
    decreases |t|
  {
    if t != "" then QuotedShrinks(t[1..]); BareShrinks(t, sep);
      match ReadField(t, sep)
      case None => None
      case Some((f, rest)) =>
        if rest == "" then None
        else if rest[0] == sep then
          match ReadRecord(rest[1..], sep) case None => None case Some((fs, end)) => Some(([f] + fs, end))
        else if rest[0] == '\n' then Some(([f], rest[1..]))
        else None
    else None
  }

  function ReadAll(t: string, sep: char): Option<seq<seq<string>>>
    decreases |t|
  {
    if t == "" then Some([])
    else match ReadRecord(t, sep)
      case None => None
      case Some((fs, rest)) =>
        match ReadAll(rest, sep) case None => None case Some(more) => Some([fs] + more)
  }

  /** A file's records, after its byte order mark when it has one. */
  function ReadFile(t: string, sep: char): Option<seq<seq<string>>> {
    ReadAll(if t != "" && t[0] == BOM then t[1..] else t, sep)
  }

  // ----- the round trip -----

  /** What a reader of the spreadsheet file finds in place of a field. */
  function Stored(f: string, sheet: bool): string {
    if sheet && IsFormula(f) then "'" + f else f
  }

  function StoredAll(fs: seq<string>, sheet: bool): (r: seq<string>)
    ensures |r| == |fs|
  {
    seq(|fs|, i requires 0 <= i < |fs| => Stored(fs[i], sheet))
  }

  function StoredRows(rows: seq<seq<string>>, sheet: bool): (r: seq<seq<string>>)
    ensures |r| == |rows|
  {
    seq(|rows|, i requires 0 <= i < |rows| => StoredAll(rows[i], sheet))
  }

  lemma {:induction false} DoubledReadsBack(f: string, rest: string)
    requires rest == "" || rest[0] != '"'
    ensures ReadQuoted(Replace(f, '"', "\"\"") + "\"" + rest) == Some((f, rest))
  {
    if f == "" {
      assert Replace(f, '"', "\"\"") + "\"" + rest == "\"" + rest;
    } else {
      var t := Replace(f[1..], '"', "\"\"") + "\"" + rest;
      var lead := if f[0] == '"' then "\"\"" else [f[0]];
      DoubledReadsBack(f[1..], rest);
      assert Replace(f, '"', "\"\"") + "\"" + rest == lead + t;
      assert (lead + t)[|lead|..] == t;
      assert f == [f[0]] + f[1..];
    }
  }

  lemma {:induction false} BareReadsBack(f: string, rest: string, sep: char)
    requires sep !in f && '\n' !in f && rest != "" && (rest[0] == sep || rest[0] == '\n')
    ensures ReadBare(f + rest, sep) == (f, rest)
  {
    if f == "" {
      assert f + rest == rest;
    } else {
      assert (f + rest)[1..] == f[1..] + rest;
      BareReadsBack(f[1..], rest, sep);
      assert f == [f[0]] + f[1..];
    }
  }

  lemma QuotedText(lead: string, doubled: string, rest: string, t: string, d: string)
    requires t == "\"" + lead + doubled + "\"" + rest && d == doubled + "\"" + rest
    ensures t != "" && t[0] == '"' && t[1..] == lead + d
  {
    assert t == "\"" + (lead + d);
  }

  lemma QuotedReadsBack(f: string, rest: string, sep: char, lead: string)
    requires rest == "" || rest[0] != '"'
    requires |lead| <= 1 && '"' !in lead
    ensures ReadField("\"" + lead + Replace(f, '"', "\"\"") + "\"" + rest, sep) == Some((lead + f, rest))
  {
    var d := Replace(f, '"', "\"\"") + "\"" + rest;
    DoubledReadsBack(f, rest);
    var t := "\"" + lead + Replace(f, '"', "\"\"") + "\"" + rest;
    QuotedText(lead, Replace(f, '"', "\"\""), rest, t, d);
    if lead == "" {
      assert lead + d == d && lead + f == f;
    } else {
      assert (lead + d)[1..] == d && lead == [lead[0]];
    }
  }

  lemma FieldReadsBack(f: string, rest: string, sep: char, sheet: bool)
    requires sep != '"' && rest != "" && (rest[0] == sep || rest[0] == '\n')
    ensures ReadField(Quote(f, sep, sheet) + rest, sep) == Some((Stored(f, sheet), rest))
  {
    if sheet && IsFormula(f) {
      QuotedReadsBack(f, rest, sep, "'");
      assert "\"" + "'" == "\"'";
    } else if sep in f || '"' in f || '\n' in f || '\r' in f {
      QuotedReadsBack(f, rest, sep, "");
      assert "\"" + "" == "\"" && "" + f == f;
    } else {
      BareReadsBack(f, rest, sep);
      assert f != "" ==> f[0] in f;
    }
  }

  /** The last field of a record. */
  lemma RecordEnds(f: string, rest: string, sep: char, sheet: bool)
    requires sep != '"' && sep != '\n'
    ensures ReadRecord(Quote(f, sep, sheet) + ("\n" + rest), sep) == Some(([Stored(f, sheet)], rest))
  {
    FieldReadsBack(f, "\n" + rest, sep, sheet);
    assert ("\n" + rest)[1..] == rest;
  }

  /** A field and what follows its separator. */
  lemma RecordStep(f: string, more: string, sep: char, sheet: bool)
    requires sep != '"' && sep != '\n'
    ensures ReadRecord(Quote(f, sep, sheet) + ([sep] + more), sep)
         == match ReadRecord(more, sep) case None => None case Some((fs, end)) => Some(([Stored(f, sheet)] + fs, end))
  {
    FieldReadsBack(f, [sep] + more, sep, sheet);
    assert ([sep] + more)[1..] == more;
  }

  lemma LineSplits(fs: seq<string>, rest: string, sep: char, sheet: bool)
    requires fs != []
    ensures |fs| == 1 ==> Line(fs, sep, sheet) + rest == Quote(fs[0], sep, sheet) + ("\n" + rest)
    ensures |fs| > 1 ==>
      Line(fs, sep, sheet) + rest == Quote(fs[0], sep, sheet) + ([sep] + (Line(fs[1..], sep, sheet) + rest))
  {
    assert QuoteAll(fs, sep, sheet)[1..] == QuoteAll(fs[1..], sep, sheet);
  }

  lemma {:induction false} RecordReadsBack(fs: seq<string>, rest: string, sep: char, sheet: bool)
    requires fs != [] && sep != '"' && sep != '\n'
    ensures ReadRecord(Line(fs, sep, sheet) + rest, sep) == Some((StoredAll(fs, sheet), rest))
    decreases fs
  {
    LineSplits(fs, rest, sep, sheet);
    if |fs| == 1 {
      RecordEnds(fs[0], rest, sep, sheet);
      assert StoredAll(fs, sheet) == [Stored(fs[0], sheet)];
    } else {
      RecordStep(fs[0], Line(fs[1..], sep, sheet) + rest, sep, sheet);
      RecordReadsBack(fs[1..], rest, sep, sheet);
      assert StoredAll(fs, sheet) == [Stored(fs[0], sheet)] + StoredAll(fs[1..], sheet);
    }
  }

  /** Every record and every field comes back, whatever they hold. */
  lemma {:induction false} BodyReadsBack(rows: seq<seq<string>>, sep: char, sheet: bool)
    requires sep != '"' && sep != '\n' && NoEmptyRow(rows)
    ensures ReadAll(Body(rows, sep, sheet), sep) == Some(StoredRows(rows, sheet))
  {
    if rows != [] {
      RecordReadsBack(rows[0], Body(rows[1..], sep, sheet), sep, sheet);
      BodyReadsBack(rows[1..], sep, sheet);
      assert StoredRows(rows, sheet) == [StoredAll(rows[0], sheet)] + StoredRows(rows[1..], sheet);
    }
  }

  /** No field read from a spreadsheet's file starts as a formula; each is the one written, or with an apostrophe. */
  lemma NoFormulaInASheet(rows: seq<seq<string>>, sep: char)
    requires sep != '"' && sep != '\n' && NoEmptyRow(rows)
    ensures var r := ReadAll(Body(rows, sep, true), sep);
      && r.Some? && |r.value| == |rows|
      && forall i | 0 <= i < |rows| :: |r.value[i]| == |rows[i]| && forall j | 0 <= j < |rows[i]| ::
           && !IsFormula(r.value[i][j])
           && r.value[i][j] in [rows[i][j], "'" + rows[i][j]]
  {
    BodyReadsBack(rows, sep, true);
    forall i, j | 0 <= i < |rows| && 0 <= j < |rows[i]|
      ensures StoredRows(rows, true)[i][j] == Stored(rows[i][j], true)
    {
      assert StoredRows(rows, true)[i] == StoredAll(rows[i], true);
    }
  }

  /**
   * A spreadsheet's file does not always tell two fields apart: exactly when one starts as a formula and the other
   * is it after an apostrophe.
   */
  lemma SheetTellsApartUnless(f: string, g: string, rest: string, sep: char)
    requires f != g && sep != '"' && rest != "" && (rest[0] == sep || rest[0] == '\n')
    ensures ReadField(Quote(f, sep, true) + rest, sep) == ReadField(Quote(g, sep, true) + rest, sep)
       <==> (IsFormula(f) && g == "'" + f) || (IsFormula(g) && f == "'" + g)
  {
    FieldReadsBack(f, rest, sep, true);
    FieldReadsBack(g, rest, sep, true);
    assert ("'" + f)[1..] == f && ("'" + g)[1..] == g;
  }

  // ----- the header -----

  predicate SeparatorInColumns(sep: char) {
    exists c | c in COLUMNS :: sep in c
  }

  /** A line of plain texts split at the separators. */
  lemma {:induction false} PlainReadsAs(fs: seq<string>, rest: string, sep: char)
    requires fs != [] && sep != '"' && sep != '\n'
    requires forall f | f in fs :: sep !in f && '"' !in f && '\n' !in f && '\r' !in f
    ensures Join(fs, sep) == Join(QuoteAll(fs, sep, false), sep)
    ensures ReadRecord(Join(fs, sep) + "\n" + rest, sep) == Some((fs, rest))
  {
    assert QuoteAll(fs, sep, false) == fs;
    assert StoredAll(fs, false) == fs;
    RecordReadsBack(fs, rest, sep, false);
  }

  function Count(t: string, c: char): nat {
    if t == "" then 0 else (if t[0] == c then 1 else 0) + Count(t[1..], c)
  }

  lemma {:induction false} CountConcat(a: string, b: string, c: char)
    ensures Count(a + b, c) == Count(a, c) + Count(b, c)
  {
    if a == "" {
      assert a + b == b;
    } else {
      assert (a + b)[1..] == a[1..] + b;
      CountConcat(a[1..], b, c);
    }
  }

  lemma {:induction false} CountPresent(t: string, c: char)
    ensures c in t <==> Count(t, c) > 0
  {
    if t != "" { CountPresent(t[1..], c); assert t == [t[0]] + t[1..]; }
  }

  lemma {:induction false} CountInJoin(fs: seq<string>, sep: char)
    requires fs != []
    ensures Count(Join(fs, sep), sep) >= |fs| - 1
    ensures (exists f | f in fs :: sep in f) ==> Count(Join(fs, sep), sep) > |fs| - 1
  {
    CountPresent(fs[0], sep);
    if |fs| > 1 {
      CountInJoin(fs[1..], sep);
      CountConcat(fs[0] + [sep], Join(fs[1..], sep), sep);
      CountConcat(fs[0], [sep], sep);
      assert [sep][1..] == "";
      if exists f | f in fs :: sep in f {
        var f :| f in fs && sep in f;
        assert f == fs[0] || f in fs[1..];
      }
    }
  }

  /** A plain field and what follows its separator. */
  lemma PlainStep(f: string, more: string, sep: char)
    requires '"' !in f && '\n' !in f && sep !in f && sep != '"' && sep != '\n'
    ensures ReadRecord(f + ([sep] + more), sep)
         == match ReadRecord(more, sep) case None => None case Some((fs, end)) => Some(([f] + fs, end))
  {
    BareReadsBack(f, [sep] + more, sep);
    assert ([sep] + more)[1..] == more;
    assert f != "" ==> f[0] in f;
  }

  lemma PlainEnd(f: string, rest: string, sep: char)
    requires '"' !in f && '\n' !in f && sep !in f && sep != '"' && sep != '\n'
    ensures ReadRecord(f + ("\n" + rest), sep) == Some(([f], rest))
  {
    BareReadsBack(f, "\n" + rest, sep);
    assert ("\n" + rest)[1..] == rest;
    assert f != "" ==> f[0] in f;
  }

  lemma {:induction false} CountAbsent(t: string, c: char)
    requires c !in t
    ensures Count(t, c) == 0
  {
    CountPresent(t, c);
  }

  /** A text without quotes has one field more than it has separators. */
  lemma {:induction false} FieldsOfPlain(t: string, rest: string, sep: char)
    requires '"' !in t && '\n' !in t && sep != '"' && sep != '\n'
    ensures var r := ReadRecord(t + ("\n" + rest), sep);
            r.Some? && |r.value.0| == Count(t, sep) + 1
    decreases |t|
  {
    var k := FirstAt(t, sep);
    CountAbsent(t[..k], sep);
    if k == |t| {
      assert t[..k] == t;
      PlainEnd(t, rest, sep);
    } else {
      var u := t[k + 1..];
      FieldsOfPlain(u, rest, sep);
      PlainStep(t[..k], u + ("\n" + rest), sep);
      assert t + ("\n" + rest) == t[..k] + ([sep] + (u + ("\n" + rest)));
      assert t == t[..k] + ([sep] + u);
      CountConcat(t[..k], [sep] + u, sep);
      assert ([sep] + u)[1..] == u;
    }
  }

  function FirstAt(t: string, c: char): (k: nat)
    ensures k <= |t| && c !in t[..k] && (k < |t| ==> t[k] == c)
  {
    if t == "" || t[0] == c then 0
    else
      var k := FirstAt(t[1..], c) + 1;
      assert t[..k] == [t[0]] + t[1..][..k - 1];
      k
  }

  /** The ledger's own header reads back exactly when the separator is in none of its names. */
  lemma HeaderReadsBack(sep: char, rest: string)
    requires sep != '"' && sep != '\n'
    ensures ReadRecord(Header([], sep, false) + rest, sep) == Some((COLUMNS, rest)) <==> !SeparatorInColumns(sep)
  {
    assert COLUMNS + QuoteAll([], sep, false) == COLUMNS;
    ColumnsArePlain(sep);
    if SeparatorInColumns(sep) {
      CountInJoin(COLUMNS, sep);
      assert Header([], sep, false) + rest == Join(COLUMNS, sep) + ("\n" + rest);
      FieldsOfPlain(Join(COLUMNS, sep), rest, sep);
    } else {
      PlainReadsAs(COLUMNS, rest, sep);
    }
  }

  lemma ColumnsArePlain(sep: char)
    requires sep != '"' && sep != '\n'
    ensures forall i | 0 <= i < |COLUMNS| :: '"' !in COLUMNS[i] && '\n' !in COLUMNS[i] && '\r' !in COLUMNS[i]
    ensures '"' !in Join(COLUMNS, sep) && '\n' !in Join(COLUMNS, sep)
  {
    forall i | 0 <= i < |COLUMNS| ensures '"' !in COLUMNS[i] && '\n' !in COLUMNS[i] && '\r' !in COLUMNS[i] {
      ColumnIsAName(i);
    }
    JoinWithout(COLUMNS, sep, '"');
    JoinWithout(COLUMNS, sep, '\n');
  }

  lemma {:induction false} JoinWithout(fs: seq<string>, sep: char, c: char)
    requires c != sep && forall f | f in fs :: c !in f
    ensures c !in Join(fs, sep)
  {
    if |fs| > 1 { JoinWithout(fs[1..], sep, c); }
  }

  /** The whole file, its mark and extra columns too, for any separator that no column's name holds. */
  lemma FileReadsBack(rows: seq<seq<string>>, extra: seq<string>, sep: char, sheet: bool)
    requires sep != '"' && sep != '\n' && !SeparatorInColumns(sep) && NoEmptyRow(rows)
    ensures ReadFile(File(rows, sep, sheet, extra), sep)
         == Some([COLUMNS + StoredAll(extra, sheet)] + StoredRows(rows, sheet))
  {
    ColumnsAreNames();
    NamedFileReadsBack(COLUMNS, rows, extra, sep, sheet);
    NameLeads(COLUMNS, QuoteAll(extra, sep, sheet), sep);
    MarkIsSkipped(Header(extra, sep, sheet) + Body(rows, sep, sheet), sheet);
  }

  /** Only the mark itself is taken for one. */
  lemma MarkIsSkipped(t: string, sheet: bool)
    requires t != "" && t[0] != BOM
    ensures var u := (if sheet then [BOM] else "") + t; u != "" && (if u[0] == BOM then u[1..] else u) == t
  {
    assert ([BOM] + t)[1..] == t && "" + t == t;
  }

  lemma NameLeads(base: seq<string>, more: seq<string>, sep: char)
    requires base != [] && Names(base)
    ensures var t := Join(base + more, sep); t != "" && t[0] == base[0][0] && t[0] != BOM
  {
    assert IsName(base[0]);
  }

  predicate Names(fs: seq<string>) { forall i | 0 <= i < |fs| :: IsName(fs[i]) }

  lemma ColumnsAreNames()
    ensures Names(COLUMNS)
  {
    forall i | 0 <= i < |COLUMNS| ensures IsName(COLUMNS[i]) { ColumnIsAName(i); }
  }

  /** Names without the separator are written and read as they are. */
  lemma NamesKeepForm(base: seq<string>, extra: seq<string>, sep: char, sheet: bool)
    requires Names(base) && forall c | c in base :: sep !in c
    ensures QuoteAll(base + extra, sep, sheet) == base + QuoteAll(extra, sep, sheet)
    ensures StoredAll(base + extra, sheet) == base + StoredAll(extra, sheet)
  {
    forall i | 0 <= i < |base| ensures Quote(base[i], sep, sheet) == base[i] == Stored(base[i], sheet) {
      assert IsName(base[i]);
    }
  }

  lemma NamedFileReadsBack(base: seq<string>, rows: seq<seq<string>>, extra: seq<string>, sep: char, sheet: bool)
    requires sep != '"' && sep != '\n' && NoEmptyRow(rows) && base != []
    requires Names(base) && forall c | c in base :: sep !in c
    ensures ReadAll(Join(base + QuoteAll(extra, sep, sheet), sep) + "\n" + Body(rows, sep, sheet), sep)
         == Some([base + StoredAll(extra, sheet)] + StoredRows(rows, sheet))
  {
    NamesKeepForm(base, extra, sep, sheet);
    LinesReadBack(base + extra, rows, sep, sheet);
  }

  lemma LinesReadBack(fs: seq<string>, rows: seq<seq<string>>, sep: char, sheet: bool)
    requires fs != [] && sep != '"' && sep != '\n' && NoEmptyRow(rows)
    ensures ReadAll(Line(fs, sep, sheet) + Body(rows, sep, sheet), sep)
         == Some([StoredAll(fs, sheet)] + StoredRows(rows, sheet))
  {
    RecordReadsBack(fs, Body(rows, sep, sheet), sep, sheet);
    BodyReadsBack(rows, sep, sheet);
  }
}
