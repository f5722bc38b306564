/** The chunked CSV export of api/exports.py: csv.writer with minimal quoting, a
    buffer flushed every hundred rows, and a parser for the format it claims to
    write, section 2 of RFC 4180. */
module CsvStream {
  import opened Wrappers

  const FLUSH_EVERY := 100
  const CRLF := "\r\n"

  // ---- csv.writer

  predicate Special(c: char) {
    c == ',' || c == '"' || c == '\r' || c == '\n'
  }

  predicate Plain(f: string) {
    forall i :: 0 <= i < |f| ==> !Special(f[i])
  }

  function Escaped(f: string): string {
    if f == "" then "" else (if f[0] == '"' then "\"\"" else [f[0]]) + Escaped(f[1..])
  }

  /** Minimal quoting: only where needed, and for an empty cell alone in its row. */
  function FieldText(f: string, alone: bool): string {
    if Plain(f) && !(alone && f == "") then f else "\"" + Escaped(f) + "\""
  }

  /** Quoted are just the texts with a comma, a quote or a line break, and an empty cell
      alone; any other is written as it is. */
  lemma QuotedIff(f: string, alone: bool)
    ensures var text := FieldText(f, alone);
      if ',' in f || '"' in f || '\r' in f || '\n' in f || (alone && f == "")
      then |text| >= 2 && text[0] == '"' && text[|text|-1] == '"' else text == f
  {
  }

  function CellsText(cells: seq<string>, alone: bool): string {
    if cells == [] then ""
    else if |cells| == 1 then FieldText(cells[0], alone)
    else FieldText(cells[0], alone) + "," + CellsText(cells[1..], alone)
  }

  function RowText(cells: seq<string>): string {
    CellsText(cells, |cells| == 1) + CRLF
  }

  function RowsText(rows: seq<seq<string>>): string {
    if rows == [] then "" else RowText(rows[0]) + RowsText(rows[1..])
  }

  // ---- the parser

  /** What follows an opening quote, up to the closing one. */
  function ParseQuoted(s: string): (r: Option<(string, string)>)
    ensures r.Some? ==> |r.value.1| < |s|
  {
    if s == "" then None
    else if s[0] != '"' then
      match ParseQuoted(s[1..])
      case Some((f, rest)) => Some(([s[0]] + f, rest))
      case None => None
    else if |s| > 1 && s[1] == '"' then
      match ParseQuoted(s[2..])
      case Some((f, rest)) => Some((['"'] + f, rest))
      case None => None
    else Some(("", s[1..]))
  }

  function ParsePlain(s: string): (r: (string, string))
    ensures |r.1| <= |s|
  {
    if s == "" || Special(s[0]) then ("", s)
    else var (f, rest) := ParsePlain(s[1..]); ([s[0]] + f, rest)
  }

  function ParseField(s: string): (r: Option<(string, string)>)
    ensures r.Some? ==> |r.value.1| <= |s|
  {
    if s != "" && s[0] == '"' then ParseQuoted(s[1..]) else Some(ParsePlain(s))
  }

  function ParseRecord(s: string): (r: Option<(seq<string>, string)>)
    ensures r.Some? ==> |r.value.1| <= |s|
    decreases |s|
  {
    match ParseField(s)
    case None => None
    case Some((f, rest)) =>
      if rest != "" && rest[0] == ',' then
        match ParseRecord(rest[1..])
        case Some((fs, after)) => Some(([f] + fs, after))
        case None => None
      else Some(([f], rest))
  }

  /** Records, each ended by CRLF; the last one may go without. */
  function ParseFile(s: string): Option<seq<seq<string>>>
    decreases |s|
  {
    if s == "" then Some([])
    else
      match ParseRecord(s)
      case None => None
      case Some((cells, rest)) =>
        if rest == "" then Some([cells])
        else if CRLF <= rest then
          match ParseFile(rest[2..])
          case Some(rows) => Some([cells] + rows)
          case None => None
        else None
  }

  // ---- what is written is read back

  lemma {:induction false} QuotedBack(f: string, rest: string)
    requires rest == "" || rest[0] != '"'
    ensures ParseQuoted(Escaped(f) + "\"" + rest) == Some((f, rest))
  {
    var s := Escaped(f) + "\"" + rest;
    if f != "" {
      QuotedBack(f[1..], rest);
      var tail := Escaped(f[1..]) + "\"" + rest;
      if f[0] == '"' {
        assert s == "\"\"" + tail && s[2..] == tail;
      } else {
        assert s == [f[0]] + tail && s[1..] == tail;
      }
      assert [f[0]] + f[1..] == f;
    } else {
      assert s == "\"" + rest && s[1..] == rest;
    }
  }

  lemma {:induction false} PlainBack(f: string, rest: string)
    requires Plain(f) && (rest == "" || Special(rest[0]))
    ensures ParsePlain(f + rest) == (f, rest)
  {
    if f == "" {
      assert f + rest == rest;
    } else {
      assert (f + rest)[1..] == f[1..] + rest && [f[0]] + f[1..] == f;
      PlainBack(f[1..], rest);
    }
  }

  lemma QuotedField(e: string, rest: string)
    ensures var s := "\"" + e + "\"" + rest; s != "" && s[0] == '"' && s[1..] == e + "\"" + rest
  {
  }

  lemma FieldBack(f: string, alone: bool, rest: string)
    requires rest != "" && (rest[0] == ',' || rest[0] == '\r')
    ensures ParseField(FieldText(f, alone) + rest) == Some((f, rest))
  {
    var s := FieldText(f, alone) + rest;
    if Plain(f) && !(alone && f == "") {
      assert s[0] == if f == "" then rest[0] else f[0];
      PlainBack(f, rest);
    } else {
      QuotedField(Escaped(f), rest);
      QuotedBack(f, rest);
    }
  }

  lemma {:induction false} RecordBack(cells: seq<string>, alone: bool, rest: string)
    requires cells != [] && rest != "" && rest[0] == '\r'
    ensures ParseRecord(CellsText(cells, alone) + rest) == Some((cells, rest))
  {
    if |cells| == 1 {
      FieldBack(cells[0], alone, rest);
      assert [cells[0]] == cells;
    } else {
      var tail := CellsText(cells[1..], alone) + rest;
      Regroup(FieldText(cells[0], alone), CellsText(cells[1..], alone), rest);
      FieldBack(cells[0], alone, "," + tail);
      RecordBack(cells[1..], alone, rest);
      RecordStep(CellsText(cells, alone) + rest, cells[0], tail, cells[1..], rest);
      assert [cells[0]] + cells[1..] == cells;
    }
  }

  lemma Regroup(a: string, b: string, c: string)
    ensures a + "," + b + c == a + ("," + (b + c))
  {
  }

  lemma RecordStep(s: string, f: string, tail: string, fs: seq<string>, rest: string)
    requires ParseField(s) == Some((f, "," + tail)) && ParseRecord(tail) == Some((fs, rest))
    ensures ParseRecord(s) == Some(([f] + fs, rest))
  {
    assert ("," + tail)[1..] == tail;
  }

  lemma {:induction false} RowsBack(rows: seq<seq<string>>)
    requires forall i :: 0 <= i < |rows| ==> rows[i] != []
    ensures ParseFile(RowsText(rows)) == Some(rows)
  {
    if rows != [] {
      FirstRowBack(rows[0], RowsText(rows[1..]));
      RowsBack(rows[1..]);
      FileStep(RowsText(rows), rows[0], RowsText(rows[1..]), rows[1..]);
      assert [rows[0]] + rows[1..] == rows;
    }
  }

  lemma FirstRowBack(cells: seq<string>, later: string)
    requires cells != []
    ensures ParseRecord(RowText(cells) + later) == Some((cells, CRLF + later)) && RowText(cells) + later != ""
  {
    Associative(CellsText(cells, |cells| == 1), CRLF, later);
    RecordBack(cells, |cells| == 1, CRLF + later);
  }

  lemma FileStep(s: string, cells: seq<string>, later: string, rows: seq<seq<string>>)
    requires s != "" && ParseRecord(s) == Some((cells, CRLF + later)) && ParseFile(later) == Some(rows)
    ensures ParseFile(s) == Some([cells] + rows)
  {
    assert (CRLF + later)[2..] == later;
  }

  /** A row without cells reads as one empty cell. */
  lemma EmptyRowMisread(rows: seq<seq<string>>)
    requires rows != [] && rows[0] == []
    ensures ParseFile(RowsText(rows)) != Some(rows)
  {
    var s := RowsText(rows);
    assert s == CRLF + RowsText(rows[1..]);
    assert s[0] == '\r';
    assert ParseField(s) == Some(("", s));
  }

  // ---- the stream

  datatype Value = Null | Json(text: string) | Time(iso: string) | Flag(b: bool) | Other(str: string)

  function CsvCell(v: Value): string {
    match v
    case Null => ""
    case Json(text) => text
    case Time(iso) => iso
    case Flag(b) => if b then "true" else "false"
    case Other(str) => str
  }

  type Fields = map<string, Value>

  function Cells(record: Fields, columns: seq<string>): (r: seq<string>)
    ensures |r| == |columns|
  {
    seq(|columns|, i requires 0 <= i < |columns| =>
      CsvCell(if columns[i] in record then record[columns[i]] else Null))
  }

  function Rows(records: seq<Fields>, columns: seq<string>): (r: seq<seq<string>>)
    ensures |r| == |records| && forall i :: 0 <= i < |r| ==> r[i] == Cells(records[i], columns)
  {
    seq(|records|, i requires 0 <= i < |records| => Cells(records[i], columns))
  }

  /** The cell is the text of the value: nothing for an absent one, `true` or `false` for
      a flag, and any other text as it is. */
  predicate ShowsValue(cell: string, v: Value) {
    (v.Null? ==> cell == "") && (v == Flag(true) ==> cell == "true") && (v == Flag(false) ==> cell == "false") &&
    (v.Json? ==> cell == v.text) && (v.Time? ==> cell == v.iso) && (v.Other? ==> cell == v.str)
  }

  /** The table has the columns for its first row, and below it each record's value
      of column `j` in place `j`, or nothing where the record has none. */
  predicate IsTable(table: seq<seq<string>>, columns: seq<string>, records: seq<Fields>) {
    |table| == |records| + 1 && table[0] == columns &&
    forall k :: 0 <= k < |records| ==> IsRow(table[k + 1], columns, records[k])
  }

  predicate IsRow(row: seq<string>, columns: seq<string>, record: Fields) {
    |row| == |columns| &&
    forall j :: 0 <= j < |columns| ==>
      if columns[j] in record then ShowsValue(row[j], record[columns[j]]) else row[j] == ""
  }

  lemma CellsAreRow(columns: seq<string>, record: Fields)
    ensures IsRow(Cells(record, columns), columns, record)
  {
  }

  lemma RowsAreTable(columns: seq<string>, records: seq<Fields>)
    ensures IsTable([columns] + Rows(records, columns), columns, records)
  {
    forall k | 0 <= k < |records|
      ensures IsRow(([columns] + Rows(records, columns))[k + 1], columns, records[k])
    {
      CellsAreRow(columns, records[k]);
    }
  }

  /** Rows in chunks of `every`, the last one with what is left. */
  function RowChunks(rows: seq<seq<string>>, every: nat): seq<string>
    requires every > 0
  {
    if rows == [] then []
    else if |rows| <= every then [RowsText(rows)]
    else [RowsText(rows[..every])] + RowChunks(rows[every..], every)
  }

  lemma {:induction false} RowsTextAppend(xs: seq<seq<string>>, ys: seq<seq<string>>)
    ensures RowsText(xs + ys) == RowsText(xs) + RowsText(ys)
  {
    if xs == [] {
      assert xs + ys == ys;
    } else {
      assert (xs + ys)[1..] == xs[1..] + ys;
      RowsTextAppend(xs[1..], ys);
    }
  }

  /** The number of chunks, and what each one holds. */
  lemma {:induction false} ChunkLayout(rows: seq<seq<string>>)
    ensures var chunks := RowChunks(rows, FLUSH_EVERY);
      |chunks| == (|rows| + FLUSH_EVERY - 1) / FLUSH_EVERY &&
      forall i :: 0 <= i < |chunks| ==>
        FLUSH_EVERY * i < |rows| && chunks[i] == RowsText(Slice(rows, i)) && chunks[i] != ""
  {
    var chunks := RowChunks(rows, FLUSH_EVERY);
    if rows == [] {
    } else if |rows| <= FLUSH_EVERY {
      assert Slice(rows, 0) == rows;
      TextNonEmpty(rows);
    } else {
      ChunkLayout(rows[FLUSH_EVERY..]);
      assert Slice(rows, 0) == rows[..FLUSH_EVERY];
      TextNonEmpty(rows[..FLUSH_EVERY]);
      forall i | 0 < i < |chunks|
        ensures FLUSH_EVERY * i < |rows| && chunks[i] == RowsText(Slice(rows, i)) && chunks[i] != ""
      {
        SliceShift(rows, i);
        assert chunks[i] == RowChunks(rows[FLUSH_EVERY..], FLUSH_EVERY)[i - 1];
      }
    }
  }

  lemma TextNonEmpty(rows: seq<seq<string>>)
    requires rows != []
    ensures RowsText(rows) != ""
  {
    assert RowText(rows[0]) != "";
  }

  lemma SliceShift(rows: seq<seq<string>>, i: nat)
    requires i > 0 && |rows| > FLUSH_EVERY
    ensures Slice(rows[FLUSH_EVERY..], i - 1) == Slice(rows, i)
  {
    var from, to := Min(FLUSH_EVERY * i, |rows|), Min(FLUSH_EVERY * (i + 1), |rows|);
    assert FLUSH_EVERY <= from <= to;
    assert rows[FLUSH_EVERY..][from - FLUSH_EVERY..to - FLUSH_EVERY] == rows[from..to];
  }

  /** The i-th hundred of the rows, or what is left of them. */
  function Slice(rows: seq<seq<string>>, i: nat): seq<seq<string>> {
    rows[Min(FLUSH_EVERY * i, |rows|)..Min(FLUSH_EVERY * (i + 1), |rows|)]
  }

  /** Wherever the flushes fall, the chunks join to the same text. */
  lemma {:induction false} ChunksJoin(rows: seq<seq<string>>, every: nat)
    requires every > 0
    ensures Flatten(RowChunks(rows, every)) == RowsText(rows)
  {
    if rows == [] {
    } else if |rows| <= every {
      assert [RowsText(rows)][1..] == [];
    } else {
      ChunksJoin(rows[every..], every);
      RowsTextAppend(rows[..every], rows[every..]);
      assert rows == rows[..every] + rows[every..];
    }
  }

  lemma {:induction false} ChunksAppend(xs: seq<seq<string>>, ys: seq<seq<string>>)
    requires |xs| % FLUSH_EVERY == 0 && 0 < |ys| <= FLUSH_EVERY
    ensures RowChunks(xs + ys, FLUSH_EVERY) == RowChunks(xs, FLUSH_EVERY) + [RowsText(ys)]
    decreases |xs|
  {
    if xs == [] {
      assert xs + ys == ys;
    } else {
      var rest := xs[FLUSH_EVERY..];
      assert (xs + ys)[..FLUSH_EVERY] == xs[..FLUSH_EVERY] && (xs + ys)[FLUSH_EVERY..] == rest + ys;
      ChunksAppend(rest, ys);
      if |xs| == FLUSH_EVERY {
        assert rest == [] && xs[..FLUSH_EVERY] == xs;
      }
    }
  }

  /** The chunks join to what csv.writer writes for the header and all rows, and a
      reader of the format gets them back, exactly when there are columns. */
  lemma StreamReadsBack(columns: seq<string>, records: seq<Fields>, every: nat)
    requires every > 0
    ensures var rows := Rows(records, columns);
      var text := Flatten([RowText(columns)] + RowChunks(rows, every));
      text == RowsText([columns] + rows) && IsTable([columns] + rows, columns, records) &&
      (ParseFile(text) == Some([columns] + rows) <==> columns != [])
  {
    RowsAreTable(columns, records);
    var rows := Rows(records, columns);
    var all := [columns] + rows;
    ChunksJoin(rows, every);
    assert all[1..] == rows && ([RowText(columns)] + RowChunks(rows, every))[1..] == RowChunks(rows, every);
    if columns == [] {
      EmptyRowMisread(all);
    } else {
      RowsBack(all);
    }
  }

  /** After `k` rows: the chunks yielded so far, and the rows waiting in the buffer. */
  predicate Buffering(rows: seq<seq<string>>, k: nat, sinceFlush: nat, chunks: seq<string>, buf: string) {
    sinceFlush <= k <= |rows| && (k - sinceFlush) % FLUSH_EVERY == 0 &&
    chunks == RowChunks(rows[..k - sinceFlush], FLUSH_EVERY) && buf == RowsText(rows[k - sinceFlush..k])
  }

  method StreamCsv(records: seq<Fields>, columns: seq<string>, counter: array<int>) returns (chunks: seq<string>)
    requires counter.Length > 0
    modifies counter
    ensures chunks == [RowText(columns)] + RowChunks(Rows(records, columns), FLUSH_EVERY)
    ensures counter[..] == old(counter[..])[0 := old(counter[0]) + |records|]
    ensures ReadsAsTable(chunks, columns, records)
  {
    chunks := EmitChunks(records, columns, counter);
    StreamIsTable(chunks, columns, records);
  }

  /** The generator itself. */
  method EmitChunks(records: seq<Fields>, columns: seq<string>, counter: array<int>) returns (chunks: seq<string>)
    requires counter.Length > 0
    modifies counter
    ensures chunks == [RowText(columns)] + RowChunks(Rows(records, columns), FLUSH_EVERY)
    ensures counter[..] == old(counter[..])[0 := old(counter[0]) + |records|]
  {
    var buf := RowText(columns);
    var head := [buf];
    buf, chunks := "", [];
    var sinceFlush := 0;
    ghost var rows := Rows(records, columns);
    for k := 0 to |records|
      invariant sinceFlush < FLUSH_EVERY && Buffering(rows, k, sinceFlush, chunks, buf)
      invariant counter[0] == old(counter[0]) + k
      invariant forall j :: 1 <= j < counter.Length ==> counter[j] == old(counter[j])
    {
      BufferRow(rows, k, sinceFlush, chunks, buf);
      buf := buf + RowText(Cells(records[k], columns));
      counter[0] := counter[0] + 1;
      sinceFlush := sinceFlush + 1;
      if sinceFlush >= FLUSH_EVERY {
        chunks := chunks + [buf];
        buf := "";
        sinceFlush := 0;
      }
    }
    if buf != "" {
      AppendChunk(rows, |records| - sinceFlush, |records|);
      chunks := chunks + [buf];
    }
    NothingWaiting(rows, |records| - sinceFlush);
    chunks := head + chunks;
  }

  /** A reader gets the table of the records from the joined chunks; the first is the
      header alone, and each other one but the last has a hundred rows. */
  predicate ReadsAsTable(chunks: seq<string>, columns: seq<string>, records: seq<Fields>) {
    |chunks| == 1 + (|records| + 99) / 100 &&
    (columns != [] ==>
      ParseFile(Flatten(chunks)).Some? && IsTable(ParseFile(Flatten(chunks)).value, columns, records) &&
      ParseFile(chunks[0]) == Some([columns]) &&
      forall i :: 0 < i < |chunks| ==> HasRows(chunks[i], Min(100, |records| - 100 * (i - 1))))
  }

  lemma StreamIsTable(chunks: seq<string>, columns: seq<string>, records: seq<Fields>)
    requires chunks == [RowText(columns)] + RowChunks(Rows(records, columns), FLUSH_EVERY)
    ensures ReadsAsTable(chunks, columns, records)
  {
    StreamReadsBack(columns, records, FLUSH_EVERY);
    ChunksHaveRows(columns, records);
    if columns != [] {
      RowsBack([columns]);
      assert [columns][1..] == [] && RowText(columns) + "" == RowText(columns);
    }
  }

  /** The chunk parses as so many rows, at least one. */
  predicate HasRows(chunk: string, n: int) {
    n > 0 && ParseFile(chunk).Some? && |ParseFile(chunk).value| == n
  }

  lemma ChunksHaveRows(columns: seq<string>, records: seq<Fields>)
    ensures var chunks := RowChunks(Rows(records, columns), FLUSH_EVERY);
      |chunks| == (|records| + 99) / 100 &&
      (columns != [] ==> forall i :: 0 <= i < |chunks| ==> HasRows(chunks[i], Min(100, |records| - 100 * i)))
  {
    var rows := Rows(records, columns);
    ChunkLayout(rows);
    if columns != [] {
      forall i | 0 <= i < |RowChunks(rows, FLUSH_EVERY)|
        ensures HasRows(RowChunks(rows, FLUSH_EVERY)[i], Min(100, |records| - 100 * i))
      {
        RowsBack(Slice(rows, i));
      }
    }
  }

  lemma NothingWaiting(rows: seq<seq<string>>, from: nat)
    requires from <= |rows|
    ensures rows[..|rows|] == rows
    ensures RowsText(rows[from..]) == "" <==> from == |rows|
    ensures rows[from..|rows|] == rows[from..]
  {
    if from < |rows| {
      assert RowText(rows[from..][0]) != "";
    }
  }

  /** One more row waits, or leaves with its chunk. */
  lemma BufferRow(rows: seq<seq<string>>, k: nat, sinceFlush: nat, chunks: seq<string>, buf: string)
    requires sinceFlush < FLUSH_EVERY && k < |rows| && Buffering(rows, k, sinceFlush, chunks, buf)
    ensures var buf' := buf + RowText(rows[k]);
      if sinceFlush + 1 < FLUSH_EVERY then Buffering(rows, k + 1, sinceFlush + 1, chunks, buf')
      else Buffering(rows, k + 1, 0, chunks + [buf'], "")
  {
    AppendRow(rows, k - sinceFlush, k);
    if sinceFlush + 1 >= FLUSH_EVERY {
      ChunkLeaves(rows, k + 1, chunks, buf + RowText(rows[k]));
    }
  }

  lemma ChunkLeaves(rows: seq<seq<string>>, k: nat, chunks: seq<string>, buf: string)
    requires FLUSH_EVERY <= k <= |rows| && k % FLUSH_EVERY == 0
    requires chunks == RowChunks(rows[..k - FLUSH_EVERY], FLUSH_EVERY) && buf == RowsText(rows[k - FLUSH_EVERY..k])
    ensures Buffering(rows, k, 0, chunks + [buf], "")
  {
    AppendChunk(rows, k - FLUSH_EVERY, k);
    assert rows[k..k] == [];
  }

  lemma AppendRow(rows: seq<seq<string>>, from: nat, k: nat)
    requires from <= k < |rows|
    ensures RowsText(rows[from..k+1]) == RowsText(rows[from..k]) + RowText(rows[k])
  {
    assert rows[from..k+1] == rows[from..k] + [rows[k]];
    RowsTextAppend(rows[from..k], [rows[k]]);
    assert [rows[k]][1..] == [];
  }

  lemma AppendChunk(rows: seq<seq<string>>, from: nat, to: nat)
    requires from < to <= |rows| && to - from <= FLUSH_EVERY && from % FLUSH_EVERY == 0
    ensures RowChunks(rows[..to], FLUSH_EVERY) == RowChunks(rows[..from], FLUSH_EVERY) + [RowsText(rows[from..to])]
  {
    assert rows[..to] == rows[..from] + rows[from..to];
    ChunksAppend(rows[..from], rows[from..to]);
  }
}
