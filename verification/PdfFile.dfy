/** The hand-written PDF emitter of scripts/demo_loan.py, which computes its own
    offsets and cross-reference table, and a reader that follows them.  A byte is
    a `char` below 256, as in the Latin-1 encoding the emitter uses. */
module PdfFile {
  import opened Wrappers
  import opened Decimal

  // ---- what is emitted

  const HEADER := "%PDF-1.4\n"
  const BODY_START := 9 // after the header
  const MAX_TEXT := 3000

  /** Latin-1, with what it cannot encode replaced. */
  function Latin1(s: string): (r: string)
    ensures |r| == |s| && forall i :: 0 <= i < |r| ==> r[i] as int < 256
  {
    seq(|s|, i requires 0 <= i < |s| => if s[i] as int < 256 then s[i] else '?')
  }

  function Truncated(s: string): string {
    if |s| <= MAX_TEXT then s else s[..MAX_TEXT]
  }

  function Lines(title: string, fields: seq<(string, string)>): seq<string> {
    if fields == [] then [title, ""]
    else
      var f := fields[|fields|-1];
      Lines(title, fields[..|fields|-1]) + [f.0 + ": " + f.1]
  }

  function JoinLines(lines: seq<string>): string {
    if lines == [] then ""
    else if |lines| == 1 then lines[0]
    else JoinLines(lines[..|lines|-1]) + "\n" + lines[|lines|-1]
  }

  function PageStream(title: string, fields: seq<(string, string)>): string {
    "BT\n/F1 10 Tf\n50 750 Td\n12 TL\n" + "(" + Truncated(Latin1(JoinLines(Lines(title, fields)))) + ") Tj\n" + "ET"
  }

  const TYPE := "<< /Type "
  const BODY_1 := TYPE + "/Catalog " + ("/Pages 2 0 R" + " >>\n")
  const BODY_2 := TYPE + "/Pages " + ("/Kids [3 0 R]" + " /Count 1 >>\n")
  const PAGE_HEAD := TYPE + "/Page /Parent 2 0 R " + "/MediaBox [0 0 612 792] "
  const PAGE_FONTS := " /Resources << " + "/Font << "
  const PAGE_TAIL := " >> >> >>\n"
  const BODY_3 := PAGE_HEAD + "/Contents 4 0 R" + (PAGE_FONTS + "/F1 5 0 R" + PAGE_TAIL)
  const BODY_5 := TYPE + "/Font " + ("/Subtype /Type1 " + "/BaseFont /Helvetica >>\n")
  const LENGTH := "<< /Length "
  const STREAM := " >>\nstream\n"
  const ENDSTREAM := "\nendstream\n"
  const ENDOBJ := "endobj\n"

  function StreamBody(stream: string): string {
    LENGTH + Dec(|stream|) + STREAM + stream + ENDSTREAM
  }

  function ObjectText(n: nat, body: string): string {
    Dec(n) + " 0 obj\n" + body + ENDOBJ
  }

  /** The objects with the given bodies, numbered from 1. */
  function Texts(bodies: seq<string>): (r: seq<string>)
    ensures |r| == |bodies| && forall i :: 0 <= i < |r| ==> r[i] == ObjectText(i + 1, bodies[i])
  {
    seq(|bodies|, i requires 0 <= i < |bodies| => ObjectText(i + 1, bodies[i]))
  }

  function Bodies(stream: string): seq<string> {
    [BODY_1, BODY_2, BODY_3, StreamBody(stream), BODY_5]
  }

  function Objects(stream: string): seq<string> {
    Texts(Bodies(stream))
  }

  /** Where each object starts, counted from the start of the file. */
  function Starts(objs: seq<string>): (r: seq<nat>)
    ensures |r| == |objs|
  {
    if objs == [] then []
    else Starts(objs[..|objs|-1]) + [BODY_START + |Flatten(objs[..|objs|-1])|]
  }

  const XREF := "xref\n0 6\n"
  const FREE_ENTRY := "0000000000 65535 f \n"
  const IN_USE := " 00000 n \n"

  const TEN_DIGITS := 10_000_000_000

  function Entry(offset: nat): string {
    Padded(offset, 10) + IN_USE
  }

  function Entries(offsets: seq<nat>): string {
    if offsets == [] then "" else Entries(offsets[..|offsets|-1]) + Entry(offsets[|offsets|-1])
  }

  const TRAILER_HEAD := "trailer\n<< /Size 6 "
  const TRAILER := TRAILER_HEAD + "/Root 1 0 R" + " >>\n"
  const STARTXREF := "startxref\n"
  const EOF := "\n%%EOF\n"

  function Assemble(objs: seq<string>): string {
    var body := HEADER + Flatten(objs);
    body + (XREF + FREE_ENTRY + Entries(Starts(objs))) + (TRAILER + Tail(|body|))
  }

  /** The tokens on which writer and reader agree are those of ISO 32000-1, sections
      7.5.2 to 7.5.5 and 7.3.8. */
  lemma Tokens()
    ensures HEADER == "%PDF-1.4\n" && BODY_START == |HEADER| && ENDOBJ == "endobj\n"
    ensures LENGTH == "<< /Length " && STREAM == " >>\nstream\n" && ENDSTREAM == "\nendstream\n"
    ensures XREF == "xref\n0 6\n" && FREE_ENTRY == "0000000000 65535 f \n" && IN_USE == " 00000 n \n"
    ensures TRAILER == "trailer\n<< /Size 6 /Root 1 0 R >>\n" && STARTXREF == "startxref\n" && EOF == "\n%%EOF\n"
  {
  }

  // ---- the reader

  /** `piece` stands in `file` at `at`. */
  predicate Has(file: string, at: nat, piece: string) {
    at + |piece| <= |file| && file[at..at + |piece|] == piece
  }

  /** Where the run of digits at `at` ends. */
  function DigitRun(file: string, at: nat): (r: nat)
    requires at <= |file|
    ensures at <= r <= |file| && AllDigits(file[at..r])
    decreases |file| - at
  {
    if at < |file| && IsDigit(file[at]) then DigitRun(file, at + 1) else at
  }

  /** Where the run of digits that ends `s` starts. */
  function DigitSuffix(s: string): (r: nat)
    ensures r <= |s| && AllDigits(s[r..])
  {
    if s != "" && IsDigit(s[|s|-1]) then DigitSuffix(s[..|s|-1]) else |s|
  }

  /** The offset after the last `startxref`. */
  function ReadStartXref(file: string): Option<nat> {
    if |file| < |EOF| || file[|file| - |EOF|..] != EOF then None
    else
      var rest := file[..|file| - |EOF|];
      var start := DigitSuffix(rest);
      if start == |rest| || start < |STARTXREF| || rest[start - |STARTXREF|..start] != STARTXREF then None
      else Some(Value(rest[start..]))
  }

  /** An entry of the cross-reference table is twenty bytes: ten digits of offset,
      a generation, and whether the object is in use. */
  function ReadEntry(file: string, at: nat): Option<nat> {
    if Has(file, at + 10, IN_USE) && AllDigits(file[at..at + 10]) then Some(Value(file[at..at + 10])) else None
  }

  function ReadEntries(file: string, at: nat, n: nat): Option<seq<nat>> {
    if n == 0 then Some([])
    else
      match (ReadEntries(file, at, n - 1), ReadEntry(file, at + 20 * (n - 1)))
      case (Some(offsets), Some(offset)) => Some(offsets + [offset])
      case _ => None
  }

  /** An indirect object as found in the file, with its stream if it has one. */
  datatype Object = Object(text: string, stream: Option<string>)

  /** A stream is as many bytes as /Length says, then `endstream` and no more. */
  function ReadStream(body: string): Option<string> {
    if !(LENGTH <= body) then None
    else
      var end := DigitRun(body, |LENGTH|);
      var len, start := Value(body[|LENGTH|..end]), end + |STREAM|;
      if Has(body, end, STREAM) && start + len + |ENDSTREAM| == |body| && Has(body, start + len, ENDSTREAM)
      then Some(body[start..start + len]) else None
  }

  /** Object `n` runs from its offset to the next one. */
  function ReadObject(file: string, n: nat, from: nat, to: nat): Option<Object> {
    var head := Dec(n) + " 0 obj\n";
    if from <= to <= |file| && |head| + |ENDOBJ| <= to - from && Has(file, from, head) && Has(file, to - |ENDOBJ|, ENDOBJ)
    then Some(Object(file[from..to], ReadStream(file[from + |head|..to - |ENDOBJ|]))) else None
  }

  function ReadObjects(file: string, bounds: seq<nat>, n: nat): Option<seq<Object>>
    requires n < |bounds|
  {
    if n == 0 then Some([])
    else
      match (ReadObjects(file, bounds, n - 1), ReadObject(file, n, bounds[n-1], bounds[n]))
      case (Some(objs), Some(obj)) => Some(objs + [obj])
      case _ => None
  }

  /** Follow `startxref` to the table, its entries to the offsets, and the offsets
      to the objects. */
  function ReadPdf(file: string): Option<seq<Object>> {
    if !(HEADER <= file) then None
    else
      match ReadStartXref(file)
      case None => None
      case Some(x) =>
        if !Has(file, x, XREF + FREE_ENTRY) then None
        else
          match ReadEntries(file, x + |XREF + FREE_ENTRY|, 5)
          case None => None
          case Some(offsets) => if |offsets| == 5 then ReadObjects(file, offsets + [x], 5) else None
  }

  // ---- the emitted file is read back

  lemma Stands(file: string, before: string, piece: string, after: string)
    requires file == before + piece + after
    ensures Has(file, |before|, piece)
  {
  }

  lemma Within(file: string, at: nat, whole: string, a: string, piece: string, b: string)
    requires Has(file, at, whole) && whole == a + piece + b
    ensures Has(file, at + |a|, piece)
  {
    forall i | 0 <= i < |piece|
      ensures file[at + |a| + i] == piece[i]
    {
      assert file[at..at + |whole|][|a| + i] == whole[|a| + i];
    }
  }

  lemma {:induction false} DigitSuffixFound(before: string, digits: string)
    requires AllDigits(digits) && (before == "" || !IsDigit(before[|before|-1]))
    ensures DigitSuffix(before + digits) == |before|
  {
    var s := before + digits;
    if digits == "" {
      assert s == before;
    } else {
      assert s[..|s|-1] == before + digits[..|digits|-1];
      DigitSuffixFound(before, digits[..|digits|-1]);
    }
  }

  lemma {:induction false} DigitRunFound(file: string, at: nat, digits: string)
    requires AllDigits(digits) && Has(file, at, digits)
    requires at + |digits| == |file| || !IsDigit(file[at + |digits|])
    ensures DigitRun(file, at) == at + |digits|
    decreases |digits|
  {
    if digits != "" {
      assert file[at] == file[at..at + |digits|][0];
      assert file[at + 1..at + |digits|] == digits[1..];
      DigitRunFound(file, at + 1, digits[1..]);
    }
  }

  lemma StartXrefFound(before: string, x: nat)
    ensures ReadStartXref(before + Tail(x)) == Some(x)
  {
    var file, front, digits := before + Tail(x), before + STARTXREF, Dec(x);
    DecValue(x);
    Regroup(before, STARTXREF, digits, EOF);
    assert STARTXREF[|STARTXREF|-1] == '\n';
    assert front[|front|-1] == STARTXREF[|STARTXREF|-1];
    DigitSuffixFound(front, digits);
    Ends(front + digits, EOF);
    Ends(front, digits);
    Ends(before, STARTXREF);
    assert (front + digits)[|front| - |STARTXREF|..|front|] == front[|front| - |STARTXREF|..];
  }

  lemma Ends(a: string, b: string)
    ensures (a + b)[..|a|] == a && (a + b)[|a|..] == b
  {
  }

  lemma Regroup(a: string, b: string, c: string, d: string)
    ensures a + (b + c + d) == a + b + c + d
  {
  }

  /** The end of the file: where the table is. */
  function Tail(x: nat): string {
    STARTXREF + Dec(x) + EOF
  }

  lemma TenDigits(offset: nat)
    requires offset < TEN_DIGITS
    ensures var digits := Padded(offset, 10);
      |digits| == 10 && AllDigits(digits) && Value(digits) == offset && |Entry(offset)| == 20
  {
    Pow10Values();
    PaddedValue(offset, 10);
    DecLength(offset, 10);
  }

  lemma EntryFound(file: string, at: nat, offset: nat)
    requires offset < TEN_DIGITS && Has(file, at, Entry(offset))
    ensures ReadEntry(file, at) == Some(offset) && |Entry(offset)| == 20
  {
    TenDigits(offset);
    EntryParts(file, at, Padded(offset, 10), IN_USE);
  }

  lemma EntryParts(file: string, at: nat, a: string, b: string)
    requires Has(file, at, a + b)
    ensures Has(file, at, a) && Has(file, at + |a|, b)
  {
    assert a + b == "" + a + b == a + b + "";
    Within(file, at, a + b, "", a, b);
    Within(file, at, a + b, a, b, "");
  }

  /** The entries at `at` give the offsets. */
  predicate Tabled(file: string, at: nat, offsets: seq<nat>) {
    ReadEntries(file, at, |offsets|) == Some(offsets)
  }

  lemma {:induction false} EntriesFound(file: string, at: nat, offsets: seq<nat>)
    requires forall i :: 0 <= i < |offsets| ==> offsets[i] < TEN_DIGITS
    requires Has(file, at, Entries(offsets))
    ensures |Entries(offsets)| == 20 * |offsets|
    ensures Tabled(file, at, offsets)
  {
    if offsets != [] {
      var n := |offsets| - 1;
      var init, last := offsets[..n], offsets[n];
      EntriesPart(file, at, init, last);
      EntriesFound(file, at, init);
      EntryFound(file, at + 20 * n, last);
      EntriesStep(file, at, init, last);
      assert init + [last] == offsets;
    }
  }

  lemma EntriesStep(file: string, at: nat, init: seq<nat>, last: nat)
    requires Tabled(file, at, init) && ReadEntry(file, at + 20 * |init|) == Some(last)
    ensures Tabled(file, at, init + [last])
  {
  }

  lemma EntriesPart(file: string, at: nat, init: seq<nat>, last: nat)
    requires Has(file, at, Entries(init) + Entry(last))
    ensures Has(file, at, Entries(init)) && Has(file, at + |Entries(init)|, Entry(last))
  {
    EntryParts(file, at, Entries(init), Entry(last));
  }

  lemma StreamFound(stream: string)
    ensures ReadStream(StreamBody(stream)) == Some(stream)
  {
    var body, len := StreamBody(stream), Dec(|stream|);
    DecValue(|stream|);
    Stands(body, LENGTH, len, STREAM + stream + ENDSTREAM);
    var end := |LENGTH| + |len|;
    assert body[end] == (STREAM + stream + ENDSTREAM)[0] == ' ';
    DigitRunFound(body, |LENGTH|, len);
    assert body == (LENGTH + len) + STREAM + (stream + ENDSTREAM);
    Stands(body, LENGTH + len, STREAM, stream + ENDSTREAM);
    assert body == (LENGTH + len + STREAM) + stream + ENDSTREAM;
    Stands(body, LENGTH + len + STREAM, stream, ENDSTREAM);
    Stands(body, LENGTH + len + STREAM + stream, ENDSTREAM, "");
  }

  lemma Framed(file: string, from: nat, head: string, body: string, tail: string)
    requires Has(file, from, head + body + tail)
    ensures var to := from + |head + body + tail|;
      to <= |file| && file[from..to] == head + body + tail &&
      Has(file, from, head) && Has(file, to - |tail|, tail) && file[from + |head|..to - |tail|] == body
  {
    var text := head + body + tail;
    assert text == "" + head + (body + tail) == (head + body) + tail + "";
    Within(file, from, text, "", head, body + tail);
    Within(file, from, text, head, body, tail);
    Within(file, from, text, head + body, tail, "");
  }

  lemma ObjectFound(file: string, n: nat, body: string, from: nat)
    requires Has(file, from, ObjectText(n, body))
    ensures ReadObject(file, n, from, from + |ObjectText(n, body)|) ==
      Some(Object(ObjectText(n, body), ReadStream(body)))
  {
    var head := Dec(n) + " 0 obj\n";
    assert ObjectText(n, body) == head + body + ENDOBJ;
    Framed(file, from, head, body, ENDOBJ);
    ReadsFramed(file, n, from, from + |ObjectText(n, body)|, head, body);
  }

  lemma ReadsFramed(file: string, n: nat, from: nat, to: nat, head: string, body: string)
    requires head == Dec(n) + " 0 obj\n" && from <= to <= |file| && |head| + |ENDOBJ| <= to - from
    requires Has(file, from, head) && Has(file, to - |ENDOBJ|, ENDOBJ) && file[from + |head|..to - |ENDOBJ|] == body
    ensures ReadObject(file, n, from, to) == Some(Object(file[from..to], ReadStream(body)))
  {
  }

  lemma {:induction false} StartsAt(objs: seq<string>, i: nat)
    requires i < |objs|
    ensures Starts(objs)[i] == BODY_START + |Flatten(objs[..i])|
  {
    var n := |objs| - 1;
    if i < n {
      StartsAt(objs[..n], i);
      assert objs[..n][..i] == objs[..i];
    }
  }

  lemma FlattenAround(objs: seq<string>, i: nat)
    requires i < |objs|
    ensures Flatten(objs) == Flatten(objs[..i]) + objs[i] + Flatten(objs[i+1..])
  {
    SplitAt(objs, i);
    FlattenAppend(objs[..i], objs[i..]);
    Associative(Flatten(objs[..i]), objs[i], Flatten(objs[i+1..]));
  }

  lemma SplitAt<T>(xs: seq<T>, i: nat)
    requires i < |xs|
    ensures xs == xs[..i] + xs[i..] && xs[i..] != [] && xs[i..][0] == xs[i] && xs[i..][1..] == xs[i+1..]
  {
  }

  lemma FlattenFive(o: seq<string>)
    requires |o| == 5
    ensures Flatten(o) == o[0] + o[1] + o[2] + o[3] + o[4]
  {
    var r1, r2, r3, r4 := o[1..], o[2..], o[3..], o[4..];
    assert r1[1..] == r2 && r2[1..] == r3 && r3[1..] == r4 && r4[1..] == [];
    assert r1[0] == o[1] && r2[0] == o[2] && r3[0] == o[3] && r4[0] == o[4];
    assert Flatten(r4) == o[4] + "" && Flatten(r3) == o[3] + Flatten(r4);
    assert Flatten(r2) == o[2] + Flatten(r3) && Flatten(r1) == o[1] + Flatten(r2);
    RegroupFive(o[0], o[1], o[2], o[3], o[4]);
  }

  lemma RegroupFive(a: string, b: string, c: string, d: string, e: string)
    ensures a + (b + (c + (d + (e + "")))) == a + b + c + d + e
  {
  }

  lemma Pow10Values()
    ensures Pow10(4) == 10_000 && Pow10(10) == TEN_DIGITS
  {
    assert Pow10(0) == 1 && Pow10(1) == 10 && Pow10(2) == 100 && Pow10(3) == 1_000;
    assert Pow10(5) == 100_000 && Pow10(6) == 1_000_000 && Pow10(7) == 10_000_000;
    assert Pow10(8) == 100_000_000 && Pow10(9) == 1_000_000_000;
  }

  lemma ObjectSize(n: nat, body: string)
    requires n < 10
    ensures |ObjectText(n, body)| == |body| + 15
  {
  }

  lemma BodySizes(stream: string)
    requires |stream| < 3100
    ensures forall i :: 0 <= i < 5 ==> |Bodies(stream)[i]| < if i == 3 then 3200 else 120
  {
    Pow10Values();
    DecLength(|stream|, 4);
  }

  /** The body is far below the ten digits an entry has for an offset. */
  lemma OffsetsFit(stream: string)
    requires |stream| < 3100
    ensures var objs := Objects(stream);
      |HEADER + Flatten(objs)| < 4000 && forall i :: 0 <= i < 5 ==> Starts(objs)[i] < 4000 < TEN_DIGITS
  {
    var objs := Objects(stream);
    BodySizes(stream);
    Pow10Values();
    FlattenFive(objs);
    forall i | 0 <= i < 5
      ensures |objs[i]| == |Bodies(stream)[i]| + 15
    {
      ObjectSize(i + 1, Bodies(stream)[i]);
    }
    SizesAddUp(objs);
  }

  lemma SizesAddUp(objs: seq<string>)
    requires |objs| == 5 && |Flatten(objs)| < 3900
    ensures |HEADER + Flatten(objs)| < 4000 && forall i :: 0 <= i < 5 ==> Starts(objs)[i] < 4000
  {
    forall i | 0 <= i < 5
      ensures Starts(objs)[i] < 4000
    {
      StartsAt(objs, i);
      FlattenAround(objs, i);
    }
  }

  lemma StreamSize(title: string, fields: seq<(string, string)>)
    ensures |PageStream(title, fields)| < 3100
  {
  }

  /** The first `n` objects with the given bodies, as a reader finds them. */
  function Found(bodies: seq<string>, n: nat): (r: seq<Object>)
    requires n <= |bodies|
    ensures |r| == n
    ensures forall i :: 0 <= i < n ==> r[i] == Object(Texts(bodies)[i], ReadStream(bodies[i]))
  {
    if n == 0 then [] else Found(bodies, n - 1) + [Object(Texts(bodies)[n-1], ReadStream(bodies[n-1]))]
  }

  /** What a reader should find: the five objects, the fourth with its stream. */
  function Expected(stream: string): seq<Object> {
    var o := Objects(stream);
    [Object(o[0], None), Object(o[1], None), Object(o[2], None), Object(o[3], Some(stream)), Object(o[4], None)]
  }

  lemma {:induction false} ObjectsFound(file: string, bodies: seq<string>, bounds: seq<nat>, n: nat)
    requires n <= |bodies|
    requires bounds == Starts(Texts(bodies)) + [BODY_START + |Flatten(Texts(bodies))|]
    requires Has(file, 0, HEADER + Flatten(Texts(bodies)))
    ensures ReadObjects(file, bounds, n) == Some(Found(bodies, n))
  {
    if n > 0 {
      ObjectsFound(file, bodies, bounds, n - 1);
      NthObject(file, bodies, bounds, n);
    }
  }

  lemma NthObject(file: string, bodies: seq<string>, bounds: seq<nat>, n: nat)
    requires 0 < n <= |bodies|
    requires bounds == Starts(Texts(bodies)) + [BODY_START + |Flatten(Texts(bodies))|]
    requires Has(file, 0, HEADER + Flatten(Texts(bodies)))
    ensures ReadObject(file, n, bounds[n-1], bounds[n]) == Some(Object(Texts(bodies)[n-1], ReadStream(bodies[n-1])))
  {
    ObjectStands(file, Texts(bodies), n - 1);
    BoundsMeet(Texts(bodies), n);
    ObjectBetween(file, n, bodies[n-1], bounds[n-1], bounds[n]);
  }

  lemma ObjectBetween(file: string, n: nat, body: string, from: nat, to: nat)
    requires Has(file, from, ObjectText(n, body)) && to == from + |ObjectText(n, body)|
    ensures ReadObject(file, n, from, to) == Some(Object(ObjectText(n, body), ReadStream(body)))
  {
    ObjectFound(file, n, body, from);
  }

  lemma ObjectStands(file: string, objs: seq<string>, i: nat)
    requires i < |objs| && Has(file, 0, HEADER + Flatten(objs))
    ensures Has(file, Starts(objs)[i], objs[i])
  {
    StartsAt(objs, i);
    FlattenAround(objs, i);
    StandsBehind(file, HEADER, Flatten(objs[..i]), objs[i], Flatten(objs[i+1..]));
  }

  lemma StandsBehind(file: string, head: string, a: string, piece: string, b: string)
    requires Has(file, 0, head + (a + piece + b))
    ensures Has(file, |head| + |a|, piece)
  {
    assert head + (a + piece + b) == (head + a) + piece + b;
    Within(file, 0, head + (a + piece + b), head + a, piece, b);
  }

  /** Each object ends where the next one starts, and the last where the table does. */
  lemma BoundsMeet(objs: seq<string>, n: nat)
    requires 1 <= n <= |objs|
    ensures var bounds := Starts(objs) + [BODY_START + |Flatten(objs)|];
      bounds[n-1] + |objs[n-1]| == bounds[n]
  {
    StartsAt(objs, n - 1);
    assert objs[..n] == objs[..n-1] + [objs[n-1]];
    FlattenSnoc(objs[..n-1], objs[n-1]);
    if n < |objs| {
      StartsAt(objs, n);
    } else {
      assert objs[..n] == objs;
    }
  }

  lemma NoStream(rest: string)
    ensures ReadStream(TYPE + rest) == None
  {
    assert (TYPE + rest)[4] == TYPE[4] == 'T' && LENGTH[4] == 'L';
  }

  lemma BodyStream(stream: string, i: nat)
    requires i < 5
    ensures ReadStream(Bodies(stream)[i]) == if i == 3 then Some(stream) else None
  {
    StreamFound(stream);
    if i != 3 {
      var body := Bodies(stream)[i];
      assert TYPE <= body && body == TYPE + body[|TYPE|..];
      NoStream(body[|TYPE|..]);
    }
  }

  /** Where the parts of the file stand, whatever they are. */
  lemma Layout(file: string, body: string, xref: string, entries: string, rest: string)
    requires file == body + (xref + entries) + rest
    ensures Has(file, 0, body) && Has(file, |body|, xref) && Has(file, |body| + |xref|, entries)
  {
    var table := xref + entries;
    assert Has(file, 0, body) && Has(file, |body|, table);
    EntryParts(file, |body|, xref, entries);
  }

  lemma ObjectsRead(file: string, stream: string)
    requires Has(file, 0, HEADER + Flatten(Objects(stream)))
    ensures ReadObjects(file, Starts(Objects(stream)) + [BODY_START + |Flatten(Objects(stream))|], 5) ==
      Some(Expected(stream))
  {
    ObjectsFound(file, Bodies(stream), Starts(Objects(stream)) + [BODY_START + |Flatten(Objects(stream))|], 5);
    BodyStreams(stream);
    FoundIs(Found(Bodies(stream), 5), Objects(stream), Bodies(stream), stream);
  }

  lemma BodyStreams(stream: string)
    ensures forall i :: 0 <= i < 5 ==> ReadStream(Bodies(stream)[i]) == if i == 3 then Some(stream) else None
  {
    forall i | 0 <= i < 5
      ensures ReadStream(Bodies(stream)[i]) == if i == 3 then Some(stream) else None
    {
      BodyStream(stream, i);
    }
  }

  lemma FoundIs(found: seq<Object>, o: seq<string>, bodies: seq<string>, stream: string)
    requires |found| == 5 && |o| == 5 && |bodies| == 5
    requires forall i :: 0 <= i < 5 ==> found[i] == Object(o[i], ReadStream(bodies[i]))
    requires forall i :: 0 <= i < 5 ==> ReadStream(bodies[i]) == if i == 3 then Some(stream) else None
    ensures found ==
      [Object(o[0], None), Object(o[1], None), Object(o[2], None), Object(o[3], Some(stream)), Object(o[4], None)]
  {
  }

  lemma TailFound(body: string, offsets: seq<nat>, x: nat)
    ensures ReadStartXref(body + (XREF + FREE_ENTRY + Entries(offsets)) + (TRAILER + Tail(x))) == Some(x)
  {
    var front := body + (XREF + FREE_ENTRY + Entries(offsets));
    StartXrefFound(front + TRAILER, x);
    Associative(front, TRAILER, Tail(x));
  }

  lemma Follow(file: string, x: nat, offsets: seq<nat>, objs: seq<Object>)
    requires HEADER <= file && ReadStartXref(file) == Some(x) && Has(file, x, XREF + FREE_ENTRY)
    requires |offsets| == 5 && Tabled(file, x + |XREF + FREE_ENTRY|, offsets)
    requires ReadObjects(file, offsets + [x], 5) == Some(objs)
    ensures ReadPdf(file) == Some(objs)
  {
  }

  /** A file assembled from the objects of a page is read back: the table leads to
      the five objects, and /Length to the bytes of the stream. */
  lemma ReadsBack(stream: string)
    requires |stream| < 3100
    ensures ReadPdf(Assemble(Objects(stream))) == Some(Expected(stream))
  {
    var objs := Objects(stream);
    var file, body := Assemble(objs), HEADER + Flatten(objs);
    OffsetsFit(stream);
    Layout(file, body, XREF + FREE_ENTRY, Entries(Starts(objs)), TRAILER + Tail(|body|));
    TailFound(body, Starts(objs), |body|);
    ObjectsRead(file, stream);
    assert HEADER <= body <= file;
    EntriesFound(file, |body| + |XREF + FREE_ENTRY|, Starts(objs));
    Follow(file, |body|, Starts(objs), Expected(stream));
  }

  // ---- the emitter

  lemma Heads()
    ensures Dec(1) + " 0 obj\n" == "1 0 obj\n" && Dec(2) + " 0 obj\n" == "2 0 obj\n"
    ensures Dec(3) + " 0 obj\n" == "3 0 obj\n" && Dec(4) + " 0 obj\n" == "4 0 obj\n"
    ensures Dec(5) + " 0 obj\n" == "5 0 obj\n"
  {
  }

  method RenderLines(title: string, fields: seq<(string, string)>) returns (lines: seq<string>)
    ensures lines == Lines(title, fields)
  {
    lines := [title, ""];
    for i := 0 to |fields|
      invariant lines == Lines(title, fields[..i])
    {
      assert fields[..i+1][..i] == fields[..i];
      lines := lines + [fields[i].0 + ": " + fields[i].1];
    }
    assert fields[..|fields|] == fields;
  }

  method ComputeOffsets(objs: seq<string>) returns (offsets: seq<nat>)
    ensures offsets == Starts(objs)
  {
    offsets := [];
    var pos := BODY_START;
    for i := 0 to |objs|
      invariant offsets == Starts(objs[..i]) && pos == BODY_START + |Flatten(objs[..i])|
    {
      assert objs[..i+1][..i] == objs[..i] && objs[..i+1] == objs[..i] + [objs[i]];
      FlattenSnoc(objs[..i], objs[i]);
      offsets := offsets + [pos];
      pos := pos + |objs[i]|;
    }
    assert objs[..|objs|] == objs;
  }

  method XrefTable(offsets: seq<nat>) returns (xref: string)
    ensures xref == XREF + FREE_ENTRY + Entries(offsets)
  {
    xref := XREF + FREE_ENTRY;
    ghost var head := xref;
    for i := 0 to |offsets|
      invariant xref == head + Entries(offsets[..i])
    {
      assert offsets[..i+1][..i] == offsets[..i];
      xref := xref + Entry(offsets[i]);
    }
    assert offsets[..|offsets|] == offsets;
  }

  // ---- what the page shows

  /** A line with a name and its value. */
  function FieldLine(f: (string, string)): string {
    f.0 + ": " + f.1
  }

  /** The text of a page: the title, an empty line, and a line a field. */
  function TextOf(title: string, fields: seq<(string, string)>): string {
    title + "\n" + FieldText(fields)
  }

  function FieldText(fields: seq<(string, string)>): string {
    if fields == [] then "" else "\n" + FieldLine(fields[0]) + FieldText(fields[1..])
  }

  /** `shown` is the start of `text`, up to 3000 characters, with what is not Latin-1
      replaced by question marks. */
  predicate Shows(shown: string, text: string) {
    |shown| == (if |text| <= 3000 then |text| else 3000) &&
    forall i :: 0 <= i < |shown| ==> shown[i] == if text[i] as int < 256 then text[i] else '?'
  }

  /** Between its fixed frame the stream shows the text. */
  ghost predicate StreamShows(stream: string, text: string) {
    exists shown ::
      stream == "BT\n/F1 10 Tf\n50 750 Td\n12 TL\n(" + shown + ") Tj\nET" && Shows(shown, text)
  }

  lemma {:induction false} FieldTextSnoc(fields: seq<(string, string)>, f: (string, string))
    ensures FieldText(fields + [f]) == FieldText(fields) + ("\n" + FieldLine(f))
  {
    if fields == [] {
      assert [f][1..] == [];
    } else {
      FieldTextSnoc(fields[1..], f);
      assert (fields + [f])[1..] == fields[1..] + [f];
      Associative("\n" + FieldLine(fields[0]), FieldText(fields[1..]), "\n" + FieldLine(f));
    }
  }

  /** The joined lines are that text. */
  lemma {:induction false} JoinedIsText(title: string, fields: seq<(string, string)>)
    ensures JoinLines(Lines(title, fields)) == TextOf(title, fields)
  {
    if fields == [] {
      assert [title, ""][..1] == [title];
      assert JoinLines([title]) == title;
    } else {
      var init, f := fields[..|fields|-1], fields[|fields|-1];
      JoinedIsText(title, init);
      JoinSnoc(Lines(title, init), FieldLine(f));
      FieldTextSnoc(init, f);
      assert init + [f] == fields;
      Associative(title + "\n", FieldText(init), "\n" + FieldLine(f));
      Associative(TextOf(title, init), "\n", FieldLine(f));
    }
  }

  lemma JoinSnoc(lines: seq<string>, line: string)
    requires lines != []
    ensures JoinLines(lines + [line]) == JoinLines(lines) + "\n" + line
  {
    assert (lines + [line])[..|lines|] == lines;
  }

  lemma PageShows(title: string, fields: seq<(string, string)>)
    ensures StreamShows(PageStream(title, fields), TextOf(title, fields))
  {
    JoinedIsText(title, fields);
    var shown := Truncated(Latin1(TextOf(title, fields)));
    assert Shows(shown, TextOf(title, fields));
    assert PageStream(title, fields) == "BT\n/F1 10 Tf\n50 750 Td\n12 TL\n(" + shown + ") Tj\nET";
  }

  /** A text cut at its line breaks. */
  function CutLines(s: string): (r: seq<string>)
    ensures r != []
  {
    if s == "" then [""]
    else
      var r := CutLines(s[1..]);
      if s[0] == '\n' then [""] + r else [[s[0]] + r[0]] + r[1..]
  }

  lemma {:induction false} CutFirst(line: string, rest: string)
    requires '\n' !in line
    ensures CutLines(line + "\n" + rest) == [line] + CutLines(rest)
    ensures CutLines(line) == [line]
  {
    var s := line + "\n" + rest;
    if line == "" {
      assert s[1..] == rest;
    } else {
      assert line[0] in line && s[1..] == line[1..] + "\n" + rest && [line[0]] + line[1..] == line;
      CutFirst(line[1..], rest);
    }
  }

  predicate OneLine(s: string) {
    '\n' !in s
  }

  /** Without line breaks in the parts, the lines of the text are the title, an empty
      line, and one line a field, in order. */
  lemma TextCutsBack(title: string, fields: seq<(string, string)>)
    requires OneLine(title) && forall i :: 0 <= i < |fields| ==> OneLine(fields[i].0) && OneLine(fields[i].1)
    ensures var lines := CutLines(TextOf(title, fields));
      |lines| == |fields| + 2 && lines[0] == title && lines[1] == "" &&
      forall i :: 0 <= i < |fields| ==> lines[i + 2] == fields[i].0 + ": " + fields[i].1
  {
    CutFirst(title, FieldText(fields));
    CutFields("", fields);
    assert "" + FieldText(fields) == FieldText(fields);
  }

  lemma {:induction false} CutFields(line: string, fields: seq<(string, string)>)
    requires OneLine(line) && forall i :: 0 <= i < |fields| ==> OneLine(fields[i].0) && OneLine(fields[i].1)
    ensures var lines := CutLines(line + FieldText(fields));
      |lines| == |fields| + 1 && lines[0] == line && forall i :: 0 <= i < |fields| ==> lines[i + 1] == FieldLine(fields[i])
    decreases |fields|
  {
    if fields == [] {
      assert line + "" == line;
      CutFirst(line, "");
    } else {
      var first, rest := FieldLine(fields[0]), FieldText(fields[1..]);
      assert line + ("\n" + first + rest) == line + "\n" + (first + rest);
      CutFirst(line, first + rest);
      CutFields(first, fields[1..]);
    }
  }

  predicate Contains(text: string, piece: string) {
    exists i :: 0 <= i <= |text| && Has(text, i, piece)
  }

  lemma Inside(text: string, a: string, piece: string, b: string)
    requires text == a + piece + b
    ensures Contains(text, piece)
  {
    Stands(text, a, piece, b);
  }

  /** The objects refer to each other: the catalog to the pages, the pages to the page,
      the page to its content and its font. */
  predicate Refer(objs: seq<Object>) {
    |objs| == 5 &&
    Contains(objs[0].text, "/Catalog ") && Contains(objs[0].text, "/Pages 2 0 R") &&
    Contains(objs[1].text, "/Pages ") && Contains(objs[1].text, "/Kids [3 0 R]") &&
    Contains(objs[2].text, "/Contents 4 0 R") && Contains(objs[2].text, "/F1 5 0 R") &&
    Contains(objs[4].text, "/Font ")
  }

  lemma ObjectsRefer(stream: string)
    ensures Refer(Expected(stream))
  {
    var o := Objects(stream);
    Mentions(1, TYPE, "/Catalog ", "/Pages 2 0 R" + " >>\n", o[0]);
    Mentions(1, TYPE + "/Catalog ", "/Pages 2 0 R", " >>\n", o[0]);
    Mentions(2, TYPE, "/Pages ", "/Kids [3 0 R]" + " /Count 1 >>\n", o[1]);
    Mentions(2, TYPE + "/Pages ", "/Kids [3 0 R]", " /Count 1 >>\n", o[1]);
    Mentions(3, PAGE_HEAD, "/Contents 4 0 R", PAGE_FONTS + "/F1 5 0 R" + PAGE_TAIL, o[2]);
    Mentions(3, PAGE_HEAD + "/Contents 4 0 R" + PAGE_FONTS, "/F1 5 0 R", PAGE_TAIL, o[2]);
    Mentions(5, TYPE, "/Font ", "/Subtype /Type1 " + "/BaseFont /Helvetica >>\n", o[4]);
  }

  lemma Mentions(n: nat, a: string, piece: string, b: string, text: string)
    requires text == ObjectText(n, a + piece + b)
    ensures Contains(text, piece)
  {
    var head := Dec(n) + " 0 obj\n";
    assert text == (head + a) + piece + (b + ENDOBJ);
    Inside(text, head + a, piece, b + ENDOBJ);
  }

  /** The objects refer to each other, and the content of the page, the only stream,
      shows the text. */
  ghost predicate ObjectsShow(objs: seq<Object>, text: string) {
    Refer(objs) && (forall i :: 0 <= i < 5 ==> (objs[i].stream.Some? <==> i == 3)) &&
    StreamShows(objs[3].stream.value, text)
  }

  lemma ExpectedShows(stream: string, text: string)
    requires StreamShows(stream, text)
    ensures ObjectsShow(Expected(stream), text)
  {
    ObjectsRefer(stream);
  }

  /** A reader finds such objects, showing the title and the fields. */
  ghost predicate ReadsAsPage(file: string, title: string, fields: seq<(string, string)>) {
    Contains(file, "/Root 1 0 R") && ReadPdf(file).Some? && ObjectsShow(ReadPdf(file).value, TextOf(title, fields))
  }

  lemma PageRead(file: string, stream: string, title: string, fields: seq<(string, string)>)
    requires file == Assemble(Objects(stream)) && ReadPdf(file) == Some(Expected(stream))
    requires StreamShows(stream, TextOf(title, fields))
    ensures ReadsAsPage(file, title, fields)
  {
    ExpectedShows(stream, TextOf(title, fields));
    RootFound(Objects(stream));
  }

  lemma RootFound(objs: seq<string>)
    ensures Contains(Assemble(objs), "/Root 1 0 R")
  {
    var body := HEADER + Flatten(objs);
    var front, tail := body + (XREF + FREE_ENTRY + Entries(Starts(objs))), Tail(|body|);
    assert front + (TRAILER + tail) == (front + TRAILER_HEAD) + "/Root 1 0 R" + (" >>\n" + tail);
    Inside(Assemble(objs), front + TRAILER_HEAD, "/Root 1 0 R", " >>\n" + tail);
  }

  method MakePdf(title: string, fields: seq<(string, string)>) returns (file: string)
    ensures file == Assemble(Objects(PageStream(title, fields)))
    ensures ReadPdf(file) == Some(Expected(PageStream(title, fields)))
    ensures ReadsAsPage(file, title, fields)
  {
    var lines := RenderLines(title, fields);
    var content := Latin1(JoinLines(lines));
    var stream := "BT\n/F1 10 Tf\n50 750 Td\n12 TL\n" + "(" + Truncated(content) + ") Tj\n" + "ET";
    StreamSize(title, fields);
    var objs := MakeObjects(stream);
    var body := HEADER + (objs[0] + objs[1] + objs[2] + objs[3] + objs[4]);
    FlattenFive(objs);
    var offsets := ComputeOffsets(objs);
    var xref := XrefTable(offsets);
    file := body + xref + (TRAILER + Tail(|body|));
    ReadsBack(stream);
    PageShows(title, fields);
    PageRead(file, stream, title, fields);
  }

  method MakeObjects(stream: string) returns (objs: seq<string>)
    ensures objs == Objects(stream) && |objs| == 5
  {
    Heads();
    objs := [
      "1 0 obj\n" + BODY_1 + ENDOBJ,
      "2 0 obj\n" + BODY_2 + ENDOBJ,
      "3 0 obj\n" + BODY_3 + ENDOBJ,
      "4 0 obj\n" + (LENGTH + Dec(|stream|) + STREAM + stream + ENDSTREAM) + ENDOBJ,
      "5 0 obj\n" + BODY_5 + ENDOBJ];
  }
}
