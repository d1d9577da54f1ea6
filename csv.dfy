/**
 * The CSV reader of `parseData.ts`: `parseCSVLine` splits one logical line
 * into fields, honouring double quotes and `""` escapes, and
 * `parseCSVMultiline` glues physical lines back together while a quoted
 * field is still open.
 */
module Csv {
  import opened Text
  import opened Sequences

  /** The state machine of `parseCSVLine` from position `i` on, with the
      quote flag, the field being read and the fields already pushed. */
  function Scan(line: string, i: nat, inQuotes: bool, current: string, fields: seq<string>): seq<string>
    requires i <= |line|
    decreases |line| - i
  {
    if i == |line| then fields + [current]
    else if line[i] == '"' then
      if inQuotes && i + 1 < |line| && line[i + 1] == '"' then
        Scan(line, i + 2, inQuotes, current + ['"'], fields)
      else
        Scan(line, i + 1, !inQuotes, current, fields)
    else if line[i] == ',' && !inQuotes then
      Scan(line, i + 1, inQuotes, "", fields + [current])
    else
      Scan(line, i + 1, inQuotes, current + [line[i]], fields)
  }

  /** `parseCSVLine(line)`. */
  function ParseLine(line: string): seq<string> {
    Scan(line, 0, false, "", [])
  }

  /** The loop of `parseCSVLine`. */
  method ParseCsvLine(line: string) returns (result: seq<string>)
    ensures result == ParseLine(line)
    ensures |result| == OutsideCommas(line, 0, false) + 1
    ensures FieldQuotes(result) == Escapes(line, 0, false)
  {
    result := [];
    var current := "";
    var inQuotes := false;
    var i := 0;
    while i < |line|
      invariant 0 <= i <= |line|
      invariant Scan(line, i, inQuotes, current, result) == ParseLine(line)
    {
      var c := line[i];
      if c == '"' {
        if inQuotes && i + 1 < |line| && line[i + 1] == '"' {
          current := current + ['"'];
          i := i + 1;
        } else {
          inQuotes := !inQuotes;
        }
      } else if c == ',' && !inQuotes {
        result := result + [current];
        current := "";
      } else {
        current := current + [c];
      }
      i := i + 1;
    }
    result := result + [current];
    ParseLineCommas(line);
    ParseLineQuotes(line);
  }

  /** The scan only ever pushes fields: it ends with what was pushed before. */
  lemma {:induction false} ScanExtends(line: string, i: nat, inQuotes: bool, current: string, fields: seq<string>)
    requires i <= |line|
    ensures |Scan(line, i, inQuotes, current, fields)| > |fields|
    ensures Scan(line, i, inQuotes, current, fields)[..|fields|] == fields
    decreases |line| - i
  {
    if i < |line| {
      if line[i] == '"' {
        if inQuotes && i + 1 < |line| && line[i + 1] == '"' {
          ScanExtends(line, i + 2, inQuotes, current + ['"'], fields);
        } else {
          ScanExtends(line, i + 1, !inQuotes, current, fields);
        }
      } else if line[i] == ',' && !inQuotes {
        ScanExtends(line, i + 1, inQuotes, "", fields + [current]);
        assert (fields + [current])[..|fields|] == fields;
      } else {
        ScanExtends(line, i + 1, inQuotes, current + [line[i]], fields);
      }
    }
  }

  /** Every line, even the empty one, gives at least one field. */
  lemma ParseLineNonEmpty(line: string)
    ensures |ParseLine(line)| >= 1
  {
    ScanExtends(line, 0, false, "", []);
  }

  /** The fields still to come when `current` has been read into the first
      of `pieces`. */
  function Glue(current: string, pieces: seq<string>): seq<string>
    requires pieces != []
  {
    [current + pieces[0]] + pieces[1..]
  }

  lemma GlueEnd(fields: seq<string>, current: string)
    ensures fields + [current] == fields + Glue(current, [""])
  {
    assert current + "" == current;
  }

  lemma GlueComma(fields: seq<string>, current: string, rest: seq<string>)
    requires rest != []
    ensures fields + [current] + Glue("", rest) == fields + Glue(current, [""] + rest)
  {
    assert "" + rest[0] == rest[0];
    assert current + "" == current;
  }

  lemma GlueChar(fields: seq<string>, current: string, x: char, rest: seq<string>)
    requires rest != []
    ensures fields + Glue(current + [x], rest) == fields + Glue(current, [[x] + rest[0]] + rest[1..])
  {
    assert current + [x] + rest[0] == current + ([x] + rest[0]);
  }

  /** Without quotes from `i` on, the rest of the line is split at every comma. */
  lemma {:induction false} ScanNoQuotes(line: string, i: nat, current: string, fields: seq<string>)
    requires i <= |line|
    requires forall j | i <= j < |line| :: line[j] != '"'
    ensures Scan(line, i, false, current, fields) == fields + Glue(current, Split(line[i..], {','}))
    decreases |line| - i
  {
    if i == |line| {
      GlueEnd(fields, current);
    } else {
      var rest := Split(line[i + 1..], {','});
      DropHead(line, i);
      if line[i] == ',' {
        ScanNoQuotes(line, i + 1, "", fields + [current]);
        GlueComma(fields, current, rest);
      } else {
        ScanNoQuotes(line, i + 1, current + [line[i]], fields);
        GlueChar(fields, current, line[i], rest);
      }
    }
  }

  lemma GlueStart(pieces: seq<string>)
    requires pieces != []
    ensures [] + Glue("", pieces) == pieces
  {
    assert "" + pieces[0] == pieces[0];
  }

  /** A line without double quotes is split at every comma, exactly as
      `line.split(',')` would, into one field more than it has commas. */
  lemma ParseLineNoQuotes(line: string)
    requires '"' !in line
    ensures ParseLine(line) == Split(line, {','})
    ensures |ParseLine(line)| == Occurrences(line, {','}) + 1
  {
    ScanNoQuotes(line, 0, "", []);
    assert line[0..] == line;
    GlueStart(Split(line, {','}));
    SplitCount(line, {','});
  }

  /** The commas from position `i` on that lie outside quotes: every quote
      flips the quote flag, except that `""` inside quotes is stepped over
      as one escaped character. */
  function OutsideCommas(line: string, i: nat, inQuotes: bool): nat
    requires i <= |line|
    decreases |line| - i
  {
    if i == |line| then 0
    else if line[i] == '"' then
      if inQuotes && i + 1 < |line| && line[i + 1] == '"' then OutsideCommas(line, i + 2, inQuotes)
      else OutsideCommas(line, i + 1, !inQuotes)
    else (if line[i] == ',' && !inQuotes then 1 else 0) + OutsideCommas(line, i + 1, inQuotes)
  }

  /** The `""` pairs from position `i` on that are read inside quotes. */
  function Escapes(line: string, i: nat, inQuotes: bool): nat
    requires i <= |line|
    decreases |line| - i
  {
    if i == |line| then 0
    else if line[i] == '"' then
      if inQuotes && i + 1 < |line| && line[i + 1] == '"' then 1 + Escapes(line, i + 2, inQuotes)
      else Escapes(line, i + 1, !inQuotes)
    else Escapes(line, i + 1, inQuotes)
  }

  /** The scan pushes one field per comma outside quotes, and one at the end. */
  lemma {:induction false} ScanCount(line: string, i: nat, inQuotes: bool, current: string, fields: seq<string>)
    requires i <= |line|
    ensures |Scan(line, i, inQuotes, current, fields)| == |fields| + OutsideCommas(line, i, inQuotes) + 1
    decreases |line| - i
  {
    if i < |line| {
      if line[i] == '"' {
        if inQuotes && i + 1 < |line| && line[i + 1] == '"' {
          ScanCount(line, i + 2, inQuotes, current + ['"'], fields);
        } else {
          ScanCount(line, i + 1, !inQuotes, current, fields);
        }
      } else if line[i] == ',' && !inQuotes {
        ScanCount(line, i + 1, inQuotes, "", fields + [current]);
      } else {
        ScanCount(line, i + 1, inQuotes, current + [line[i]], fields);
      }
    }
  }

  /** `parseCSVLine` returns one field more than the line has commas outside
      quotes; a comma inside quotes stays in its field. */
  lemma ParseLineCommas(line: string)
    ensures |ParseLine(line)| == OutsideCommas(line, 0, false) + 1
  {
    ScanCount(line, 0, false, "", []);
  }

  /** The double quotes in a list of fields. */
  function FieldQuotes(fields: seq<string>): nat
    decreases |fields|
  {
    if |fields| == 0 then 0 else FieldQuotes(fields[..|fields| - 1]) + Quotes(fields[|fields| - 1])
  }

  lemma FieldQuotesSnoc(fields: seq<string>, x: string)
    ensures FieldQuotes(fields + [x]) == FieldQuotes(fields) + Quotes(x)
  {
    assert (fields + [x])[..|fields|] == fields;
  }

  lemma QuotesSnoc(s: string, c: char)
    ensures Quotes(s + [c]) == Quotes(s) + (if c == '"' then 1 else 0)
  {
    QuotesConcat(s, [c]);
    assert [c][1..] == [];
  }

  /** Every quote the scan puts into a field comes from a `""` read inside
      quotes. */
  lemma {:induction false} ScanQuotes(line: string, i: nat, inQuotes: bool, current: string, fields: seq<string>)
    requires i <= |line|
    ensures FieldQuotes(Scan(line, i, inQuotes, current, fields)) == FieldQuotes(fields) + Quotes(current) + Escapes(line, i, inQuotes)
    decreases |line| - i
  {
    if i == |line| {
      FieldQuotesSnoc(fields, current);
    } else if line[i] == '"' {
      if inQuotes && i + 1 < |line| && line[i + 1] == '"' {
        ScanQuotes(line, i + 2, inQuotes, current + ['"'], fields);
        QuotesSnoc(current, '"');
      } else {
        ScanQuotes(line, i + 1, !inQuotes, current, fields);
      }
    } else if line[i] == ',' && !inQuotes {
      ScanQuotes(line, i + 1, inQuotes, "", fields + [current]);
      FieldQuotesSnoc(fields, current);
    } else {
      ScanQuotes(line, i + 1, inQuotes, current + [line[i]], fields);
      QuotesSnoc(current, line[i]);
    }
  }

  /** An escape takes two of the line's quotes. */
  lemma {:induction false} EscapesBound(line: string, i: nat, inQuotes: bool)
    requires i <= |line|
    ensures 2 * Escapes(line, i, inQuotes) <= Quotes(line[i..])
    decreases |line| - i
  {
    if i < |line| {
      assert line[i..][0] == line[i] && line[i..][1..] == line[i + 1..];
      if line[i] == '"' && inQuotes && i + 1 < |line| && line[i + 1] == '"' {
        EscapesBound(line, i + 2, inQuotes);
        assert line[i + 1..][0] == line[i + 1] && line[i + 1..][1..] == line[i + 2..];
      } else if line[i] == '"' {
        EscapesBound(line, i + 1, !inQuotes);
      } else {
        EscapesBound(line, i + 1, inQuotes);
      }
    }
  }

  /** A quote reaches the fields of `parseCSVLine` only as an escaped `""`
      inside quotes, each giving one; so the fields hold at most half the
      quotes of the line. */
  lemma ParseLineQuotes(line: string)
    ensures FieldQuotes(ParseLine(line)) == Escapes(line, 0, false)
    ensures 2 * FieldQuotes(ParseLine(line)) <= Quotes(line)
  {
    ScanQuotes(line, 0, false, "", []);
    EscapesBound(line, 0, false);
    assert line[0..] == line;
  }

  // ---------------------------------------------------------------------
  // parseCSVMultiline

  /** The number of double quotes in a text. */
  function Quotes(s: string): nat
    decreases |s|
  {
    if |s| == 0 then 0 else (if s[0] == '"' then 1 else 0) + Quotes(s[1..])
  }

  lemma {:induction false} QuotesConcat(a: string, b: string)
    ensures Quotes(a + b) == Quotes(a) + Quotes(b)
    decreases |a|
  {
    if a == [] {
      assert a + b == b;
    } else {
      assert (a + b)[0] == a[0];
      assert (a + b)[1..] == a[1..] + b;
      QuotesConcat(a[1..], b);
    }
  }

  /** A text without double quotes counts none. */
  lemma {:induction false} QuotesNone(s: string)
    requires '"' !in s
    ensures Quotes(s) == 0
    decreases |s|
  {
    if s != [] {
      assert s[0] != '"';
      assert forall c | c in s[1..] :: c in s;
      QuotesNone(s[1..]);
    }
  }

  /** The logical line formed from what is pending and the next physical
      line (`currentLine` after its update). */
  function Joined(pending: string, line: string): string {
    if |pending| == 0 then line else pending + "\n" + line
  }

  /** A logical line with an odd number of quotes is inside a quoted field
      (`quoteCount % 2 !== 0`). */
  predicate Open(s: string) {
    Quotes(s) % 2 != 0
  }

  /** What a complete logical line adds to the rows: nothing when it is
      blank, otherwise its fields. */
  function LineRow(line: string): seq<seq<string>> {
    if IsBlank(line) then [] else [ParseLine(line)]
  }

  /** The loop of `parseCSVMultiline` over the remaining physical lines,
      with the logical line still open (`currentLine`) and the rows pushed
      so far. An open logical line waits for the next physical line; a
      complete one is turned into a row and the next one starts empty. */
  function Gather(lines: seq<string>, pending: string, rows: seq<seq<string>>): seq<seq<string>>
    decreases |lines|
  {
    if |lines| == 0 then rows
    else
      var current := Joined(pending, lines[0]);
      if Open(current) then Gather(lines[1..], current, rows)
      else Gather(lines[1..], "", rows + LineRow(current))
  }

  /** A physical line that leaves a quoted field open is carried over. */
  lemma GatherOpen(line: string, later: seq<string>, pending: string, rows: seq<seq<string>>)
    requires Open(Joined(pending, line))
    ensures Gather([line] + later, pending, rows) == Gather(later, Joined(pending, line), rows)
  {
    ConsParts(line, later);
  }

  /** A physical line that completes a non-blank logical line pushes its row. */
  lemma GatherClosed(line: string, later: seq<string>, pending: string, rows: seq<seq<string>>)
    requires !Open(Joined(pending, line)) && !IsBlank(Joined(pending, line))
    ensures Gather([line] + later, pending, rows) == Gather(later, "", rows + [ParseLine(Joined(pending, line))])
  {
    ConsParts(line, later);
  }

  /** `parseCSVMultiline(csv)`: what is still pending at the end, an
      unterminated quoted field, is dropped. */
  function ParseCsv(csv: string): seq<seq<string>> {
    Gather(Split(csv, {'\n'}), "", [])
  }

  /** The inner loop of `parseCSVMultiline`: `for (const char of s) if (char === '"') quoteCount++`. */
  method CountQuotes(s: string) returns (quoteCount: nat)
    ensures quoteCount == Quotes(s)
  {
    quoteCount := 0;
    for j := 0 to |s|
      invariant quoteCount == Quotes(s[..j])
    {
      assert s[..j + 1] == s[..j] + [s[j]];
      QuotesConcat(s[..j], [s[j]]);
      if s[j] == '"' {
        quoteCount := quoteCount + 1;
      }
    }
    assert s[..|s|] == s;
  }

  /** The loop of `parseCSVMultiline`. */
  method ParseCsvMultiline(csv: string) returns (rows: seq<seq<string>>)
    ensures rows == ParseCsv(csv)
  {
    rows := [];
    var currentLine := "";
    var lines := Split(csv, {'\n'});
    var k := 0;
    while k < |lines|
      invariant 0 <= k <= |lines|
      invariant Gather(lines[k..], currentLine, rows) == ParseCsv(csv)
    {
      DropHead(lines, k);
      ghost var pending := currentLine;
      if currentLine == "" {
        currentLine := lines[k];
      } else {
        currentLine := currentLine + "\n" + lines[k];
      }
      assert currentLine == Joined(pending, lines[k]);
      var quoteCount := CountQuotes(currentLine);
      if quoteCount % 2 == 0 {
        if Trim(currentLine) != "" {
          var row := ParseCsvLine(currentLine);
          rows := rows + [row];
        } else {
          AppendEmpty(rows);
        }
        currentLine := "";
      }
      k := k + 1;
    }
    assert lines[k..] == [];
  }

  /** The reference reading of a file without quotes: each non-blank line
      is one row. */
  function LineRows(lines: seq<string>): seq<seq<string>>
    decreases |lines|
  {
    if |lines| == 0 then [] else LineRow(lines[0]) + LineRows(lines[1..])
  }

  lemma {:induction false} GatherNoQuotes(lines: seq<string>, rows: seq<seq<string>>)
    requires forall i | 0 <= i < |lines| :: Quotes(lines[i]) == 0
    ensures Gather(lines, "", rows) == rows + LineRows(lines)
    decreases |lines|
  {
    if |lines| == 0 {
      AppendEmpty(rows);
    } else {
      GatherNoQuotes(lines[1..], rows + LineRow(lines[0]));
      AppendAssoc(rows, LineRow(lines[0]), LineRows(lines[1..]));
    }
  }

  /** A file without double quotes: every non-blank line becomes one row,
      split at its commas. */
  lemma ParseCsvNoQuotes(csv: string)
    requires '"' !in csv
    ensures ParseCsv(csv) == LineRows(Split(csv, {'\n'}))
  {
    var lines := Split(csv, {'\n'});
    forall i | 0 <= i < |lines| ensures Quotes(lines[i]) == 0 {
      SplitPieces(csv, {'\n'}, i);
      QuotesNone(lines[i]);
    }
    GatherNoQuotes(lines, []);
    AppendEmpty(LineRows(lines));
  }
}
