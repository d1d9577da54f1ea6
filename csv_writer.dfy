/**
 * A writer for the files the reader expects, as section 2 of RFC 4180
 * describes them: every field is enclosed in double quotes, a double quote
 * inside a field is written twice, fields are separated by commas and
 * records by line feeds. The lemmas show that the reader of `parseData.ts`
 * gives back exactly the rows that were written, even when fields hold
 * commas, quotes and line breaks.
 */
module CsvWriter {
  import opened Text
  import opened Csv
  import opened Sequences

  /** One character of a field as written: a double quote is doubled. */
  function EscapeChar(c: char): string {
    if c == '"' then "\"\"" else [c]
  }

  /** A field's text with every double quote doubled. */
  function Escape(f: string): string
    decreases |f|
  {
    if |f| == 0 then [] else EscapeChar(f[0]) + Escape(f[1..])
  }

  /** A field enclosed in double quotes. */
  function Quote(f: string): string {
    "\"" + Escape(f) + "\""
  }

  /** One record: its quoted fields joined by commas. */
  function EncodeRow(row: seq<string>): string
    decreases |row|
  {
    if |row| == 0 then ""
    else if |row| == 1 then Quote(row[0])
    else Quote(row[0]) + "," + EncodeRow(row[1..])
  }

  /** A whole file: its records joined by line feeds. */
  function EncodeTable(rows: seq<seq<string>>): string
    decreases |rows|
  {
    if |rows| == 0 then ""
    else if |rows| == 1 then EncodeRow(rows[0])
    else EncodeRow(rows[0]) + "\n" + EncodeTable(rows[1..])
  }

  // ---------------------------------------------------------------------
  // One line

  /** Inside quotes, an escaped field is read back character by character. */
  lemma {:induction false} ScanEscaped(line: string, i: nat, f: string, current: string, fields: seq<string>)
    requires i + |Escape(f)| <= |line| && line[i..i + |Escape(f)|] == Escape(f)
    ensures Scan(line, i, true, current, fields) == Scan(line, i + |Escape(f)|, true, current + f, fields)
    decreases |f|
  {
    if |f| == 0 {
      AppendEmpty(current);
    } else {
      var head := EscapeChar(f[0]);
      SliceParts(line, i, head, Escape(f[1..]));
      SliceAt(line, i, head, 0);
      if f[0] == '"' {
        SliceAt(line, i, head, 1);
        ScanEscaped(line, i + 2, f[1..], current + ['"'], fields);
      } else {
        ScanEscaped(line, i + 1, f[1..], current + [f[0]], fields);
      }
      AppendHead(current, f);
    }
  }

  /** A double quote outside quotes opens a quoted field. */
  lemma ScanOpens(line: string, i: nat, current: string, fields: seq<string>)
    requires i < |line| && line[i] == '"'
    ensures Scan(line, i, false, current, fields) == Scan(line, i + 1, true, current, fields)
  {
  }

  /** A double quote inside quotes that is not doubled closes the field. */
  lemma ScanCloses(line: string, i: nat, current: string, fields: seq<string>)
    requires i < |line| && line[i] == '"' && (i + 1 == |line| || line[i + 1] != '"')
    ensures Scan(line, i, true, current, fields) == Scan(line, i + 1, false, current, fields)
  {
  }

  /** A quoted field followed by a comma or the end of the line is read back
      as the field. */
  lemma ScanQuoted(line: string, i: nat, f: string, fields: seq<string>)
    requires i + |Quote(f)| <= |line| && line[i..i + |Quote(f)|] == Quote(f)
    requires i + |Quote(f)| == |line| || line[i + |Quote(f)|] == ','
    ensures Scan(line, i, false, "", fields) == Scan(line, i + |Quote(f)|, false, f, fields)
  {
    var e := Escape(f);
    SliceParts(line, i, "\"" + e, "\"");
    SliceAt(line, i + 1 + |e|, "\"", 0);
    SliceParts(line, i, "\"", e);
    SliceAt(line, i, "\"", 0);
    ScanOpens(line, i, "", fields);
    ScanEscaped(line, i + 1, f, "", fields);
    AppendEmpty(f);
    ScanCloses(line, i + 1 + |e|, f, fields);
    assert i + |Quote(f)| == i + 1 + |e| + 1;
  }

  /** An encoded record from position `i` to the end of the line is read
      back as its fields. */
  lemma {:induction false} ScanRow(line: string, i: nat, row: seq<string>, fields: seq<string>)
    requires row != [] && i <= |line| && line[i..] == EncodeRow(row)
    ensures Scan(line, i, false, "", fields) == fields + row
    decreases |row|
  {
    var q := Quote(row[0]);
    RowShape(row);
    if |row| == 1 {
      SuffixParts(line, i, q, "");
      ScanQuoted(line, i, row[0], fields);
    } else {
      var rest := EncodeRow(row[1..]);
      SuffixParts(line, i, q, "," + rest);
      SuffixParts(line, i + |q|, ",", rest);
      SliceAt(line, i + |q|, ",", 0);
      ScanQuoted(line, i, row[0], fields);
      ScanRow(line, i + |q| + 1, row[1..], fields + [row[0]]);
      AppendHead(fields, row);
    }
  }

  /** `parseCSVLine` inverts the record writer. */
  lemma RowRoundTrip(row: seq<string>)
    requires row != []
    ensures ParseLine(EncodeRow(row)) == row
  {
    var line := EncodeRow(row);
    assert line[0..] == line;
    ScanRow(line, 0, row, []);
    AppendEmpty(row);
  }

  // ---------------------------------------------------------------------
  // Quote counts

  lemma {:induction false} EscapeQuotes(f: string)
    ensures Quotes(Escape(f)) == 2 * Quotes(f)
    decreases |f|
  {
    if f != [] {
      EscapeQuotes(f[1..]);
      assert f == [f[0]] + f[1..];
      QuotesConcat([f[0]], f[1..]);
      QuotesConcat(EscapeChar(f[0]), Escape(f[1..]));
    }
  }

  lemma QuoteQuotes(f: string)
    ensures Quotes(Quote(f)) == 2 + 2 * Quotes(f)
  {
    EscapeQuotes(f);
    QuotesConcat("\"", Escape(f));
    QuotesConcat("\"" + Escape(f), "\"");
  }

  /** A quoted field opens and closes with a double quote around its escaped text. */
  lemma QuoteShape(f: string)
    ensures |Quote(f)| == |Escape(f)| + 2
    ensures Quote(f)[0] == '"' && Quote(f)[|Quote(f)| - 1] == '"'
    ensures Quote(f)[1..|Quote(f)| - 1] == Escape(f)
  {
  }

  /** An encoded record is its first quoted field, then the rest if any. */
  lemma RowShape(row: seq<string>)
    requires row != []
    ensures EncodeRow(row) == Quote(row[0]) + (if |row| == 1 then "" else "," + EncodeRow(row[1..]))
  {
    if |row| == 1 {
      assert Quote(row[0]) + "" == Quote(row[0]);
    }
  }

  lemma RowHead(row: seq<string>)
    requires row != []
    ensures EncodeRow(row) != [] && EncodeRow(row)[0] == '"'
  {
    RowShape(row);
    QuoteShape(row[0]);
  }

  /** Every encoded record holds an even number of quotes. */
  lemma {:induction false} RowQuotesEven(row: seq<string>)
    ensures Quotes(EncodeRow(row)) % 2 == 0
    decreases |row|
  {
    if |row| == 1 {
      QuoteQuotes(row[0]);
    } else if |row| > 1 {
      var q := Quote(row[0]);
      var r := EncodeRow(row[1..]);
      assert EncodeRow(row) == q + "," + r;
      QuoteQuotes(row[0]);
      RowQuotesEven(row[1..]);
      QuotesConcat(q, ",");
      QuotesConcat(q + ",", r);
      assert Quotes(",") == 0;
    }
  }

  /** Before a line break inside an escaped field the quotes are balanced. */
  lemma {:induction false} EscapeBreaks(f: string, p: nat)
    requires p < |Escape(f)| && Escape(f)[p] == '\n'
    ensures Quotes(Escape(f)[..p]) % 2 == 0
    decreases |f|
  {
    var head := EscapeChar(f[0]);
    var tail := Escape(f[1..]);
    if p < |head| {
      assert p == 0;
    } else {
      assert Escape(f)[..p] == head + tail[..p - |head|];
      assert tail[p - |head|] == '\n';
      EscapeBreaks(f[1..], p - |head|);
    }
  }

  /** Before a line break inside a quoted field the field is open. */
  lemma QuoteBreaks(f: string, p: nat)
    requires p < |Quote(f)| && Quote(f)[p] == '\n'
    ensures Quotes(Quote(f)[..p]) % 2 == 1
  {
    QuoteShape(f);
    var q := Quote(f);
    var e := Escape(f);
    assert 0 < p < |q| - 1;
    assert q[..p] == "\"" + e[..p - 1] by {
      assert q == "\"" + e + "\"";
    }
    assert e[p - 1] == q[p];
    EscapeBreaks(f, p - 1);
    QuotesConcat("\"", e[..p - 1]);
  }

  /** Before a line break inside an encoded record a quoted field is open. */
  lemma {:induction false} RowBreaks(row: seq<string>, p: nat)
    requires p < |EncodeRow(row)| && EncodeRow(row)[p] == '\n'
    ensures Quotes(EncodeRow(row)[..p]) % 2 == 1
    decreases |row|
  {
    RowShape(row);
    var q := Quote(row[0]);
    var line := EncodeRow(row);
    if p < |q| {
      assert line[..p] == q[..p] && line[p] == q[p];
      QuoteBreaks(row[0], p);
    } else {
      var r := EncodeRow(row[1..]);
      assert line == q + "," + r;
      assert p > |q|;
      assert line[..p] == q + "," + r[..p - |q| - 1];
      assert r[p - |q| - 1] == line[p];
      RowBreaks(row[1..], p - |q| - 1);
      QuoteQuotes(row[0]);
      QuotesConcat(q, ",");
      QuotesConcat(q + ",", r[..p - |q| - 1]);
    }
  }

  // ---------------------------------------------------------------------
  // Whole files

  /** The first position at or after `from` holding `c`, or the length. */
  function NextIndex(s: string, c: char, from: nat): (k: nat)
    requires from <= |s|
    ensures from <= k <= |s|
    ensures k < |s| ==> s[k] == c
    ensures forall j | from <= j < k :: s[j] != c
    decreases |s| - from
  {
    if from == |s| || s[from] == c then from else NextIndex(s, c, from + 1)
  }

  /** What the reader needs of the text of one record: it opens with a
      double quote, its quotes balance, and each of its line feeds falls
      inside a quoted field. */
  predicate Record(e: string) {
    && e != [] && e[0] == '"'
    && Quotes(e) % 2 == 0
    && forall p {:trigger OpenAt(e, p)} | 0 <= p < |e| && e[p] == '\n' :: OpenAt(e, p)
  }

  /** A quoted field is open before position `p`. */
  predicate OpenAt(e: string, p: nat)
    requires p <= |e|
  {
    Quotes(e[..p]) % 2 == 1
  }

  lemma EncodedRecord(row: seq<string>)
    requires row != []
    ensures Record(EncodeRow(row))
  {
    RowHead(row);
    RowQuotesEven(row);
    forall p | 0 <= p < |EncodeRow(row)| && EncodeRow(row)[p] == '\n'
      ensures OpenAt(EncodeRow(row), p)
    {
      RowBreaks(row, p);
    }
  }

  /** The part of a record already gathered when its physical line starting
      at `start` comes up. */
  function Pending(e: string, start: nat): string
    requires start <= |e|
  {
    if start == 0 then "" else e[..start - 1]
  }

  /** The pending text and the next physical line of a record form the
      record up to the line feed that ends that line. */
  lemma JoinedPrefix(e: string, start: nat, k: nat)
    requires e != [] && e[0] != '\n' && start <= k <= |e| && (start > 0 ==> e[start - 1] == '\n')
    ensures Joined(Pending(e, start), e[start..k]) == e[..k]
  {
    if start > 0 {
      assert |Pending(e, start)| > 0;
      assert e[..start - 1] + "\n" + e[start..k] == e[..k];
    }
  }

  /** The last physical line of a record completes it. */
  lemma GatherLast(e: string, start: nat, later: seq<string>, rows: seq<seq<string>>)
    requires Record(e) && start <= |e| && (start > 0 ==> e[start - 1] == '\n')
    requires NextIndex(e, '\n', start) == |e|
    ensures Gather(Split(e[start..], {'\n'}) + later, Pending(e, start), rows) == Gather(later, "", rows + [ParseLine(e)])
  {
    var piece := e[start..];
    SplitNoSeparator(piece, {'\n'});
    JoinedPrefix(e, start, |e|);
    SliceFull(e, start);
    assert !IsBlank(e) by {
      assert !IsSpace(e[0]);
    }
    GatherClosed(piece, later, Pending(e, start), rows);
  }

  /** Splitting at the next line feed. */
  lemma SplitAtNext(e: string, start: nat, later: seq<string>)
    requires start <= |e| && NextIndex(e, '\n', start) < |e|
    ensures var k := NextIndex(e, '\n', start);
            Split(e[start..], {'\n'}) + later == [e[start..k]] + (Split(e[k + 1..], {'\n'}) + later)
  {
    var k := NextIndex(e, '\n', start);
    var piece := e[start..k];
    SplitNoSeparator(piece, {'\n'});
    SplitAround(e, start, k);
    SplitConcat(piece, '\n', e[k + 1..], {'\n'});
    AppendAssoc([piece], Split(e[k + 1..], {'\n'}), later);
  }

  /** A physical line of a record that ends at a line feed leaves the record
      open, with everything up to that line feed pending. */
  lemma PieceOpen(e: string, start: nat)
    requires Record(e) && start <= |e| && (start > 0 ==> e[start - 1] == '\n')
    requires NextIndex(e, '\n', start) < |e|
    ensures var k := NextIndex(e, '\n', start);
            Open(Joined(Pending(e, start), e[start..k])) && Joined(Pending(e, start), e[start..k]) == Pending(e, k + 1)
  {
    var k := NextIndex(e, '\n', start);
    JoinedPrefix(e, start, k);
    assert OpenAt(e, k);
  }

  lemma GatherPiece(e: string, start: nat, later: seq<string>, rows: seq<seq<string>>)
    requires Record(e) && start <= |e| && (start > 0 ==> e[start - 1] == '\n')
    requires NextIndex(e, '\n', start) < |e|
    ensures var k := NextIndex(e, '\n', start);
            Gather(Split(e[start..], {'\n'}) + later, Pending(e, start), rows) ==
            Gather(Split(e[k + 1..], {'\n'}) + later, Pending(e, k + 1), rows)
  {
    var k := NextIndex(e, '\n', start);
    SplitAtNext(e, start, later);
    PieceOpen(e, start);
    GatherOpen(e[start..k], Split(e[k + 1..], {'\n'}) + later, Pending(e, start), rows);
  }

  /** The physical lines of one record, read from the line feed before
      `start` on, give back the whole record as one row. */
  lemma {:induction false} GatherRecord(e: string, start: nat, later: seq<string>, rows: seq<seq<string>>)
    requires Record(e) && start <= |e| && (start > 0 ==> e[start - 1] == '\n')
    ensures Gather(Split(e[start..], {'\n'}) + later, Pending(e, start), rows) == Gather(later, "", rows + [ParseLine(e)])
    decreases |e| - start, 1
  {
    if NextIndex(e, '\n', start) == |e| {
      GatherLast(e, start, later, rows);
    } else {
      GatherRecordCons(e, start, later, rows);
    }
  }

  lemma {:induction false} GatherRecordCons(e: string, start: nat, later: seq<string>, rows: seq<seq<string>>)
    requires Record(e) && start <= |e| && (start > 0 ==> e[start - 1] == '\n')
    requires NextIndex(e, '\n', start) < |e|
    ensures Gather(Split(e[start..], {'\n'}) + later, Pending(e, start), rows) == Gather(later, "", rows + [ParseLine(e)])
    decreases |e| - start, 0
  {
    GatherPiece(e, start, later, rows);
    GatherRecord(e, NextIndex(e, '\n', start) + 1, later, rows);
  }

  /** The physical lines of one encoded record give back its row. */
  lemma GatherRow(row: seq<string>, later: seq<string>, rows: seq<seq<string>>)
    requires row != []
    ensures Gather(Split(EncodeRow(row), {'\n'}) + later, "", rows) == Gather(later, "", rows + [row])
  {
    var e := EncodeRow(row);
    assert e[0..] == e;
    EncodedRecord(row);
    RowRoundTrip(row);
    GatherRecord(e, 0, later, rows);
  }

  /** An encoded file with more than one record is its first record, a line
      feed and the rest. */
  lemma TableLines(table: seq<seq<string>>)
    requires |table| > 1
    ensures Split(EncodeTable(table), {'\n'}) == Split(EncodeRow(table[0]), {'\n'}) + Split(EncodeTable(table[1..]), {'\n'})
  {
    var e := EncodeRow(table[0]);
    var t := EncodeTable(table[1..]);
    assert EncodeTable(table) == e + ['\n'] + t;
    SplitConcat(e, '\n', t, {'\n'});
  }

  /** Every row of the table has a field. */
  predicate FullRows(table: seq<seq<string>>)
    decreases |table|
  {
    |table| == 0 || (table[0] != [] && FullRows(table[1..]))
  }

  lemma {:induction false} FullRowsAll(table: seq<seq<string>>)
    requires forall i | 0 <= i < |table| :: table[i] != []
    ensures FullRows(table)
    decreases |table|
  {
    if |table| > 0 {
      FullRowsAll(table[1..]);
    }
  }

  /** The physical lines of an encoded file give back its rows. */
  lemma {:induction false} GatherTable(table: seq<seq<string>>, later: seq<string>, rows: seq<seq<string>>)
    requires table != [] && FullRows(table)
    ensures Gather(Split(EncodeTable(table), {'\n'}) + later, "", rows) == Gather(later, "", rows + table)
    decreases |table|, 1
  {
    if |table| == 1 {
      GatherRow(table[0], later, rows);
      AppendOne(rows, table);
    } else {
      GatherTableCons(table, later, rows);
    }
  }

  lemma {:induction false} GatherTableCons(table: seq<seq<string>>, later: seq<string>, rows: seq<seq<string>>)
    requires |table| > 1 && FullRows(table)
    ensures Gather(Split(EncodeTable(table), {'\n'}) + later, "", rows) == Gather(later, "", rows + table)
    decreases |table|, 0
  {
    var first := Split(EncodeRow(table[0]), {'\n'});
    var others := Split(EncodeTable(table[1..]), {'\n'});
    TableLines(table);
    AppendAssoc(first, others, later);
    GatherRow(table[0], others + later, rows);
    GatherTable(table[1..], later, rows + [table[0]]);
    AppendHead(rows, table);
  }

  /** `parseCSVMultiline` inverts the file writer. */
  lemma TableRoundTrip(table: seq<seq<string>>)
    requires table != [] && forall i | 0 <= i < |table| :: table[i] != []
    ensures ParseCsv(EncodeTable(table)) == table
  {
    FullRowsAll(table);
    AppendEmpty(Split(EncodeTable(table), {'\n'}));
    GatherTable(table, [], []);
    AppendEmpty(table);
  }

  /** A final line feed, as most files have, adds an empty last line that
      the reader drops. */
  lemma TableRoundTripNewline(table: seq<seq<string>>)
    requires table != [] && forall i | 0 <= i < |table| :: table[i] != []
    ensures ParseCsv(EncodeTable(table) + "\n") == table
  {
    var t := EncodeTable(table);
    assert t + "\n" == t + ['\n'] + "";
    SplitConcat(t, '\n', "", {'\n'});
    FullRowsAll(table);
    GatherTable(table, [""], []);
    AppendEmpty(table);
    GatherBlankLine(table);
  }

  /** The empty last line closes nothing and adds no row. */
  lemma GatherBlankLine(rows: seq<seq<string>>)
    ensures Gather([""], "", rows) == rows
  {
    assert IsBlank("");
    AppendEmpty(rows);
  }
}
