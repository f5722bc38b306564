/** `_write_loan_events` of scripts/generate_scale_simulation.py: one file an event,
    except that the Encompass documents of a loan go into batch files. */
module LoanEvents {
  import opened Wrappers
  import opened Decimal
  import opened Groups

  datatype Channel = Encompass | Other(name: string)

  function ChannelName(c: Channel): string {
    if c.Encompass? then "los_encompass" else c.name
  }

  /** The file format of a channel; every other format is written as JSON. */
  datatype Format = Json | PdfMeta | BorrowerPortal | EmailInbox | PdfOnly | CsvOrXml

  datatype Event = Event(day: nat, hour: nat, channel: Channel, docType: string, role: string)

  datatype Envelope = Envelope(id: string, event: Event)

  /** A file of the simulation tree: its date folder, channel folder and name. */
  datatype Path = Path(date: int, channel: Channel, name: string)

  datatype Content = Record(env: Envelope) | Batch(envs: seq<Envelope>) | Pdf(env: Envelope)

  // ---- document ids

  function Upper(c: char): char {
    if 'a' <= c <= 'z' then c - 'a' + 'A' else c
  }

  function UpperAll(s: string): string {
    if s == "" then "" else [Upper(s[0])] + UpperAll(s[1..])
  }

  function FirstEight(s: string): string {
    if |s| <= 8 then s else s[..8]
  }

  function DocId(losId: string, e: Event, n: nat): string {
    FirstEight(UpperAll(ChannelName(e.channel))) + "-" + losId + "-" + e.docType + "-" + Padded(n, 4)
  }

  /** What follows the last dash. */
  function AfterLastDash(s: string): string {
    if s == "" || s[|s|-1] == '-' then "" else AfterLastDash(s[..|s|-1]) + [s[|s|-1]]
  }

  lemma {:induction false} AfterLastDashFound(front: string, digits: string)
    requires AllDigits(digits)
    ensures AfterLastDash(front + "-" + digits) == digits
  {
    var s := front + "-" + digits;
    if digits != "" {
      assert s[..|s|-1] == front + "-" + digits[..|digits|-1];
      AfterLastDashFound(front, digits[..|digits|-1]);
    }
  }

  /** Different sequence numbers give different ids, whatever the loan, the channel
      and the document type. */
  lemma IdsDiffer(losId: string, e: Event, m: nat, f: Event, n: nat)
    requires DocId(losId, e, m) == DocId(losId, f, n)
    ensures m == n
  {
    PaddedValue(m, 4);
    PaddedValue(n, 4);
    AfterLastDashFound(FirstEight(UpperAll(ChannelName(e.channel))) + "-" + losId + "-" + e.docType, Padded(m, 4));
    AfterLastDashFound(FirstEight(UpperAll(ChannelName(f.channel))) + "-" + losId + "-" + f.docType, Padded(n, 4));
    PaddedInjective(m, n, 4);
  }

  /** An id is the start of the channel's name in capitals, the loan, the document type
      and the sequence number in at least four digits. */
  lemma IdParts(losId: string, e: Event, n: nat) returns (front: string, digits: string)
    ensures DocId(losId, e, n) == front + "-" + losId + "-" + e.docType + "-" + digits
    ensures var name := if e.channel.Encompass? then "los_encompass" else e.channel.name;
      |front| == (if |name| < 8 then |name| else 8) &&
      forall i :: 0 <= i < |front| ==> front[i] == if 'a' <= name[i] <= 'z' then name[i] - 'a' + 'A' else name[i]
    ensures AllDigits(digits) && Value(digits) == n && |digits| >= 4
  {
    front, digits := FirstEight(UpperAll(ChannelName(e.channel))), Padded(n, 4);
    UpperAt(ChannelName(e.channel));
    PaddedValue(n, 4);
  }

  lemma {:induction false} UpperAt(s: string)
    ensures |UpperAll(s)| == |s|
    ensures forall i :: 0 <= i < |s| ==> UpperAll(s)[i] == if 'a' <= s[i] <= 'z' then s[i] - 'a' + 'A' else s[i]
  {
    if s != "" {
      UpperAt(s[1..]);
    }
  }

  lemma IdEndsInDigit(losId: string, e: Event, n: nat)
    ensures var id := DocId(losId, e, n); id != "" && IsDigit(id[|id|-1])
  {
    PaddedValue(n, 4);
    DecValue(n);
    var id, digits := DocId(losId, e, n), Padded(n, 4);
    assert id[|id|-1] == digits[|digits|-1];
  }

  // ---- what one event writes

  /** The envelopes of the events, numbered from 1 in order. */
  function Envelopes(losId: string, events: seq<Event>): (r: seq<Envelope>)
    ensures |r| == |events|
    ensures forall i :: 0 <= i < |r| ==> r[i] == Envelope(DocId(losId, events[i], i + 1), events[i])
  {
    seq(|events|, i requires 0 <= i < |events| => Envelope(DocId(losId, events[i], i + 1), events[i]))
  }

  predicate GoodId(id: string) {
    id != "" && IsDigit(id[|id|-1])
  }

  /** The ids differ pairwise. */
  predicate DistinctIds(envs: seq<Envelope>) {
    (forall i :: 0 <= i < |envs| ==> GoodId(envs[i].id)) &&
    (forall i, j :: 0 <= i < j < |envs| ==> envs[i].id != envs[j].id)
  }

  lemma EnvelopeGood(losId: string, events: seq<Event>, i: nat)
    requires i < |events|
    ensures GoodId(Envelopes(losId, events)[i].id)
  {
    IdEndsInDigit(losId, events[i], i + 1);
  }

  lemma EnvelopesDiffer(losId: string, events: seq<Event>, i: nat, j: nat)
    requires i < j < |events|
    ensures Envelopes(losId, events)[i].id != Envelopes(losId, events)[j].id
  {
    if DocId(losId, events[i], i + 1) == DocId(losId, events[j], j + 1) {
      IdsDiffer(losId, events[i], i + 1, events[j], j + 1);
    }
  }

  lemma EnvelopesDistinct(losId: string, events: seq<Event>)
    ensures DistinctIds(Envelopes(losId, events))
  {
    forall i | 0 <= i < |events|
      ensures GoodId(Envelopes(losId, events)[i].id)
    {
      EnvelopeGood(losId, events, i);
    }
    forall i, j | 0 <= i < j < |events|
      ensures Envelopes(losId, events)[i].id != Envelopes(losId, events)[j].id
    {
      EnvelopesDiffer(losId, events, i, j);
    }
  }

  predicate IsMeta(format: Format) {
    format.PdfMeta? || format.BorrowerPortal? || format.EmailInbox?
  }

  predicate HasPdf(format: Format) {
    IsMeta(format) || format.PdfOnly?
  }

  function RecordName(id: string, format: Format): string {
    id + if IsMeta(format) then "_meta.json" else ".json"
  }

  function RecordPath(appDate: int, env: Envelope, format: Format): Path {
    Path(appDate + env.event.day, env.event.channel, RecordName(env.id, format))
  }

  function PdfPath(appDate: int, env: Envelope): Path {
    Path(appDate + env.event.day, env.event.channel, env.id + ".pdf")
  }

  /** A batch is keyed by date and hour group. */
  datatype Key = Key(date: int, group: nat)

  type Batches = Grouping<Key, Envelope>

  function KeyOf(appDate: int, e: Event): Key {
    Key(appDate + e.day, e.hour / 4)
  }

  /** The batches, the files and the number of files written so far. */
  datatype Progress = Progress(batches: Batches, disk: map<Path, Content>, files: nat)

  function WriteEvent(p: Progress, appDate: int, env: Envelope, hasPdfs: bool, format: Format): Progress {
    if env.event.channel.Encompass? then p.(batches := Add(p.batches, KeyOf(appDate, env.event), env))
    else
      var recorded := p.disk[RecordPath(appDate, env, format) := Record(env)];
      if HasPdf(format) && hasPdfs then Progress(p.batches, recorded[PdfPath(appDate, env) := Pdf(env)], p.files + 2)
      else Progress(p.batches, recorded, p.files + 1)
  }

  function WriteEvents(appDate: int, envs: seq<Envelope>, hasPdfs: bool, format: Channel -> Format,
                       disk: map<Path, Content>): Progress {
    if envs == [] then Progress([], disk, 0)
    else
      var last := envs[|envs|-1];
      WriteEvent(WriteEvents(appDate, envs[..|envs|-1], hasPdfs, format, disk), appDate, last, hasPdfs,
                 format(last.event.channel))
  }

  /** The batch file is named after the loan and the date, not the hour group; the
      date in its name is that of its folder. */
  function BatchPath(losId: string, date: int): Path {
    Path(date, Encompass, losId + "_batch.json")
  }

  function Flush(losId: string, batches: Batches, disk: map<Path, Content>): map<Path, Content> {
    if batches == [] then disk
    else
      var n := |batches| - 1;
      Flush(losId, batches[..n], disk)[BatchPath(losId, batches[n].0.date) := Batch(batches[n].1)]
  }

  // ---- every event is written once

  /** The envelopes of the Encompass events. */
  function EncompassOnly(envs: seq<Envelope>): multiset<Envelope> {
    if envs == [] then multiset{}
    else
      var last, earlier := envs[|envs|-1], EncompassOnly(envs[..|envs|-1]);
      if last.event.channel.Encompass? then earlier + multiset{last} else earlier
  }

  /** The batches hold each Encompass document exactly once. */
  lemma {:induction false} EachBatchedOnce(appDate: int, envs: seq<Envelope>, hasPdfs: bool,
                                           format: Channel -> Format, disk: map<Path, Content>)
    ensures Contents(WriteEvents(appDate, envs, hasPdfs, format, disk).batches) == EncompassOnly(envs)
  {
    if envs != [] {
      var init, last := envs[..|envs|-1], envs[|envs|-1];
      EachBatchedOnce(appDate, init, hasPdfs, format, disk);
      AddAdds(WriteEvents(appDate, init, hasPdfs, format, disk).batches, KeyOf(appDate, last.event), last);
    }
  }

  /** Names of different documents differ, whatever their formats. */
  lemma NamesDiffer(a: string, f: Format, b: string, g: Format)
    requires GoodId(a) && GoodId(b) && a != b
    ensures RecordName(a, f) != RecordName(b, g)
    ensures RecordName(a, f) != b + ".pdf"
  {
    var x, y, z := RecordName(a, f), RecordName(b, g), b + ".pdf";
    assert x[|x|-1] == 'n' && z[|z|-1] == 'f';
    if IsMeta(f) == IsMeta(g) {
      var n := if IsMeta(f) then 10 else 5;
      assert x[..|x|-n] == a && y[..|y|-n] == b;
    } else if IsMeta(f) {
      MetaDiffers(a, b);
    } else {
      MetaDiffers(b, a);
    }
  }

  lemma MetaDiffers(a: string, b: string)
    requires b != "" && IsDigit(b[|b|-1])
    ensures a + "_meta.json" != b + ".json"
  {
    var x, y := a + "_meta.json", b + ".json";
    assert x[|x|-6] == 'a' && y[|y|-6] == b[|b|-1];
  }

  lemma WriteKeeps(p: Progress, appDate: int, env: Envelope, hasPdfs: bool, format: Format, path: Path)
    requires path in p.disk && path.name != RecordName(env.id, format) && path.name != env.id + ".pdf"
    ensures path in WriteEvent(p, appDate, env, hasPdfs, format).disk
    ensures WriteEvent(p, appDate, env, hasPdfs, format).disk[path] == p.disk[path]
  {
  }

  lemma WritePuts(p: Progress, appDate: int, env: Envelope, hasPdfs: bool, format: Channel -> Format)
    requires !env.event.channel.Encompass?
    ensures Recorded(appDate, env, hasPdfs, format, WriteEvent(p, appDate, env, hasPdfs, format(env.event.channel)).disk)
  {
    OwnNamesDiffer(env.id, format(env.event.channel));
  }

  lemma OwnNamesDiffer(id: string, format: Format)
    ensures RecordName(id, format) != id + ".pdf"
  {
    var x, z := RecordName(id, format), id + ".pdf";
    assert x[|x|-1] == 'n' && z[|z|-1] == 'f';
  }

  lemma PdfNamesDiffer(a: string, b: string)
    requires a != b
    ensures a + ".pdf" != b + ".pdf"
  {
    var x, y := a + ".pdf", b + ".pdf";
    assert x[..|x|-4] == a && y[..|y|-4] == b;
  }

  /** Nothing written later touches the files of an earlier event. */
  lemma {:induction false} RecordsSurvive(appDate: int, envs: seq<Envelope>, hasPdfs: bool,
                                          format: Channel -> Format, disk: map<Path, Content>, i: nat)
    requires i < |envs| && !envs[i].event.channel.Encompass? && DistinctIds(envs)
    ensures Recorded(appDate, envs[i], hasPdfs, format, WriteEvents(appDate, envs, hasPdfs, format, disk).disk)
  {
    var n := |envs| - 1;
    var before, last, f := WriteEvents(appDate, envs[..n], hasPdfs, format, disk), envs[n], format(envs[n].event.channel);
    if i < n {
      var own := format(envs[i].event.channel);
      RecordsSurvive(appDate, envs[..n], hasPdfs, format, disk, i);
      NamesDiffer(envs[i].id, own, last.id, f);
      NamesDiffer(last.id, f, envs[i].id, own);
      PdfNamesDiffer(envs[i].id, last.id);
      WriteKeeps(before, appDate, last, hasPdfs, f, RecordPath(appDate, envs[i], own));
      if HasPdf(own) && hasPdfs {
        WriteKeeps(before, appDate, last, hasPdfs, f, PdfPath(appDate, envs[i]));
      }
    } else {
      WritePuts(before, appDate, last, hasPdfs, format);
    }
  }

  /** The record of a document is on disk, and its PDF if it has one. */
  predicate Recorded(appDate: int, env: Envelope, hasPdfs: bool, format: Channel -> Format, disk: map<Path, Content>) {
    var f, date, channel := format(env.event.channel), appDate + env.event.day, env.event.channel;
    var meta := f == PdfMeta || f == BorrowerPortal || f == EmailInbox;
    var path := Path(date, channel, env.id + if meta then "_meta.json" else ".json");
    var pdf := Path(date, channel, env.id + ".pdf");
    path in disk && disk[path] == Record(env) &&
    ((meta || f == PdfOnly) && hasPdfs ==> pdf in disk && disk[pdf] == Pdf(env))
  }

  // ---- how many files there are

  /** The files written so far are those of the documents so far. */
  predicate Named(path: Path, envs: seq<Envelope>) {
    !path.channel.Encompass? && exists i :: 0 <= i < |envs| && NamedFor(path.name, envs[i].id)
  }

  predicate NamedFor(name: string, id: string) {
    name == id + ".json" || name == id + "_meta.json" || name == id + ".pdf"
  }

  lemma NotNamedYet(envs: seq<Envelope>, path: Path, f: Format, name: string)
    requires envs != [] && DistinctIds(envs) && Named(path, envs[..|envs|-1])
    requires var id := envs[|envs|-1].id; name == RecordName(id, f) || name == id + ".pdf"
    ensures path.name != name
  {
    var init, id := envs[..|envs|-1], envs[|envs|-1].id;
    var i :| 0 <= i < |init| && NamedFor(path.name, init[i].id);
    assert envs[i] == init[i];
    var other := envs[i].id;
    NamesDiffer(other, Json, id, f);
    NamesDiffer(other, PdfMeta, id, f);
    NamesDiffer(id, f, other, Json);
    PdfNamesDiffer(other, id);
  }

  lemma {:induction false} FilesAreCounted(appDate: int, envs: seq<Envelope>, hasPdfs: bool, format: Channel -> Format)
    requires DistinctIds(envs)
    ensures var p := WriteEvents(appDate, envs, hasPdfs, format, map[]);
      |p.disk| == p.files && forall path :: path in p.disk ==> Named(path, envs)
  {
    if envs != [] {
      var n := |envs| - 1;
      var init, last := envs[..n], envs[n];
      FilesAreCounted(appDate, init, hasPdfs, format);
      var p, f := WriteEvents(appDate, init, hasPdfs, format, map[]), format(last.event.channel);
      var q := WriteEvent(p, appDate, last, hasPdfs, f);
      forall path | path in p.disk
        ensures path.name != RecordName(last.id, f) && path.name != last.id + ".pdf" && Named(path, envs)
      {
        NotNamedYet(envs, path, f, RecordName(last.id, f));
        NotNamedYet(envs, path, f, last.id + ".pdf");
        var i :| 0 <= i < |init| && NamedFor(path.name, init[i].id);
        assert NamedFor(path.name, envs[i].id);
      }
      OwnNamesDiffer(last.id, f);
      OneEventCounted(p, appDate, last, hasPdfs, f);
      assert NamedFor(RecordName(last.id, f), envs[n].id) && NamedFor(last.id + ".pdf", envs[n].id);
    }
  }

  predicate OneOfOwn(path: Path, appDate: int, env: Envelope, f: Format) {
    path == RecordPath(appDate, env, f) || path == PdfPath(appDate, env)
  }

  lemma OneEventCounted(p: Progress, appDate: int, env: Envelope, hasPdfs: bool, f: Format)
    requires |p.disk| == p.files && RecordName(env.id, f) != env.id + ".pdf"
    requires RecordPath(appDate, env, f) !in p.disk && PdfPath(appDate, env) !in p.disk
    ensures var q := WriteEvent(p, appDate, env, hasPdfs, f);
      |q.disk| == q.files && forall path :: path in q.disk ==>
        (path in p.disk || (!env.event.channel.Encompass? && OneOfOwn(path, appDate, env, f)))
  {
  }

  // ---- which batches survive the flush

  predicate OfKey(appDate: int, batch: (Key, seq<Envelope>)) {
    batch.1 != [] && forall e :: e in batch.1 ==> KeyOf(appDate, e.event) == batch.0
  }

  /** One batch a key, and in it only documents of that key. */
  predicate WellKeyed(appDate: int, batches: Batches) {
    (forall i, j :: 0 <= i < j < |batches| ==> batches[i].0 != batches[j].0) &&
    (forall i :: 0 <= i < |batches| ==> OfKey(appDate, batches[i]))
  }

  lemma AddToKeyed(appDate: int, batches: Batches, env: Envelope)
    requires WellKeyed(appDate, batches)
    ensures WellKeyed(appDate, Add(batches, KeyOf(appDate, env.event), env))
  {
    var key := KeyOf(appDate, env.event);
    var i := Position(batches, key);
    if i < |batches| {
      assert OfKey(appDate, batches[i]);
      assert OfKey(appDate, (key, batches[i].1 + [env]));
    } else {
      assert OfKey(appDate, (key, [env]));
    }
  }

  lemma {:induction false} AlwaysKeyed(appDate: int, envs: seq<Envelope>, hasPdfs: bool,
                                       format: Channel -> Format, disk: map<Path, Content>)
    ensures WellKeyed(appDate, WriteEvents(appDate, envs, hasPdfs, format, disk).batches)
  {
    if envs != [] {
      AlwaysKeyed(appDate, envs[..|envs|-1], hasPdfs, format, disk);
      AddToKeyed(appDate, WriteEvents(appDate, envs[..|envs|-1], hasPdfs, format, disk).batches, envs[|envs|-1]);
    }
  }

  /** No date has two batches. */
  predicate OneGroupADate(batches: Batches) {
    forall i, j :: 0 <= i < j < |batches| ==> batches[i].0.date != batches[j].0.date
  }

  /** After the flush the file of a date holds the last batch of that date. */
  lemma {:induction false} FlushKeepsLast(losId: string, batches: Batches, disk: map<Path, Content>, i: nat)
    requires i < |batches| && forall j :: i < j < |batches| ==> batches[j].0.date != batches[i].0.date
    ensures var path, d := BatchPath(losId, batches[i].0.date), Flush(losId, batches, disk);
      path in d && d[path] == Batch(batches[i].1)
  {
    var n := |batches| - 1;
    if i < n {
      FlushKeepsLast(losId, batches[..n], disk, i);
    }
  }

  lemma {:induction false} FlushElsewhere(losId: string, batches: Batches, disk: map<Path, Content>, path: Path)
    requires !path.channel.Encompass?
    ensures path in disk ==> path in Flush(losId, batches, disk) && Flush(losId, batches, disk)[path] == disk[path]
  {
    if batches != [] {
      FlushElsewhere(losId, batches[..|batches|-1], disk, path);
    }
  }

  function BatchDates(batches: Batches): set<int> {
    if batches == [] then {} else BatchDates(batches[..|batches|-1]) + {batches[|batches|-1].0.date}
  }

  lemma {:induction false} DatesOfBatches(batches: Batches)
    ensures forall i :: 0 <= i < |batches| ==> batches[i].0.date in BatchDates(batches)
    ensures forall d :: d in BatchDates(batches) ==> exists i :: 0 <= i < |batches| && batches[i].0.date == d
  {
    if batches != [] {
      var n := |batches| - 1;
      DatesOfBatches(batches[..n]);
      forall d | d in BatchDates(batches)
        ensures exists i :: 0 <= i < |batches| && batches[i].0.date == d
      {
        if d in BatchDates(batches[..n]) {
          var i :| 0 <= i < n && batches[..n][i].0.date == d;
          assert batches[i].0.date == d;
        } else {
          assert batches[n].0.date == d;
        }
      }
    }
  }

  lemma GroupsSnoc(init: Batches, b: (Key, seq<Envelope>))
    ensures OneGroupADate(init + [b]) <==> OneGroupADate(init) && b.0.date !in BatchDates(init)
  {
    var all, n := init + [b], |init|;
    DatesOfBatches(init);
    assert forall i :: 0 <= i < n ==> all[i] == init[i];
    if b.0.date in BatchDates(init) {
      var i :| 0 <= i < n && init[i].0.date == b.0.date;
      assert all[i].0.date == all[n].0.date;
    }
  }

  /** There are as many dates as batches exactly when no two share one. */
  lemma {:induction false} DatesCounted(batches: Batches)
    ensures |BatchDates(batches)| <= |batches|
    ensures |BatchDates(batches)| == |batches| <==> OneGroupADate(batches)
  {
    if batches != [] {
      var n := |batches| - 1;
      var init, date := batches[..n], batches[n].0.date;
      DatesCounted(init);
      GroupsSnoc(init, batches[n]);
      assert init + [batches[n]] == batches;
      assert date in BatchDates(init) ==> BatchDates(batches) == BatchDates(init);
    }
  }

  /** The Encompass files are those of the dates. */
  ghost predicate HoldsDates(losId: string, files: map<Path, Content>, dates: set<int>) {
    forall path :: path in files && path.channel.Encompass? <==>
      path == BatchPath(losId, path.date) && path.date in dates
  }

  lemma PutCounts(losId: string, files: map<Path, Content>, dates: set<int>, date: int, content: Content)
    requires HoldsDates(losId, files, dates)
    ensures HoldsDates(losId, files[BatchPath(losId, date) := content], dates + {date})
    ensures |files[BatchPath(losId, date) := content]| - |files| == |dates + {date}| - |dates|
  {
    var path := BatchPath(losId, date);
    assert path in files <==> date in dates;
    if date in dates {
      assert dates + {date} == dates;
      assert files[path := content].Keys == files.Keys;
    } else {
      assert files[path := content].Keys == files.Keys + {path};
    }
  }

  /** The flush adds as many files as there are dates. */
  lemma {:induction false} FlushCounts(losId: string, batches: Batches, disk: map<Path, Content>)
    requires forall path :: path in disk ==> !path.channel.Encompass?
    ensures var flushed := Flush(losId, batches, disk);
      |flushed| == |disk| + |BatchDates(batches)| && HoldsDates(losId, flushed, BatchDates(batches))
  {
    if batches != [] {
      var n := |batches| - 1;
      FlushCounts(losId, batches[..n], disk);
      PutCounts(losId, Flush(losId, batches[..n], disk), BatchDates(batches[..n]), batches[n].0.date, Batch(batches[n].1));
    }
  }

  /** The documents of a batch can be read from the file of its date. */
  predicate Survives(losId: string, batch: (Key, seq<Envelope>), disk: map<Path, Content>) {
    var path := Path(batch.0.date, Encompass, losId + "_batch.json");
    path in disk && disk[path].Batch? && forall e :: e in batch.1 ==> e in disk[path].envs
  }

  /** Every batch survives the flush exactly when no date has two hour groups: a
      later group of a date overwrites the file of an earlier one. */
  lemma BatchesSurviveIff(losId: string, appDate: int, batches: Batches, disk: map<Path, Content>)
    requires WellKeyed(appDate, batches)
    ensures (forall i :: 0 <= i < |batches| ==> Survives(losId, batches[i], Flush(losId, batches, disk))) <==>
      OneGroupADate(batches)
  {
    var flushed := Flush(losId, batches, disk);
    if OneGroupADate(batches) {
      forall i | 0 <= i < |batches|
        ensures Survives(losId, batches[i], flushed)
      {
        FlushKeepsLast(losId, batches, disk, i);
      }
    } else {
      var i, j :| 0 <= i < j < |batches| && batches[i].0.date == batches[j].0.date;
      var last := LastOfDate(batches, j);
      assert OfKey(appDate, batches[i]) && OfKey(appDate, batches[last]);
      FlushKeepsLast(losId, batches, disk, last);
      var lost := batches[i].1[0];
      assert lost in batches[i].1;
      assert lost !in batches[last].1;
      assert !Survives(losId, batches[i], flushed);
    }
  }

  lemma {:induction false} LastOfDate(batches: Batches, j: nat) returns (last: nat)
    requires j < |batches|
    ensures j <= last < |batches| && batches[last].0.date == batches[j].0.date
    ensures forall k :: last < k < |batches| ==> batches[k].0.date != batches[j].0.date
    decreases |batches| - j
  {
    if k :| j < k < |batches| && batches[k].0.date == batches[j].0.date {
      last := LastOfDate(batches, k);
    } else {
      last := j;
    }
  }

  // ---- in terms of the events

  /** Two Encompass documents of one day but different hour groups. */
  predicate Clash(e: Event, f: Event) {
    e.channel.Encompass? && f.channel.Encompass? && e.day == f.day && e.hour / 4 != f.hour / 4
  }

  /** No date has Encompass documents of two hour groups. */
  predicate OneHourGroupADate(events: seq<Event>) {
    forall i, j :: 0 <= i < |events| && 0 <= j < |events| ==> !Clash(events[i], events[j])
  }

  lemma {:induction false} EventBatched(envs: seq<Envelope>, i: nat)
    requires i < |envs| && envs[i].event.channel.Encompass?
    ensures envs[i] in EncompassOnly(envs)
  {
    if i < |envs| - 1 {
      EventBatched(envs[..|envs|-1], i);
    }
  }

  lemma {:induction false} BatchedEvent(envs: seq<Envelope>, env: Envelope) returns (i: nat)
    requires env in EncompassOnly(envs)
    ensures i < |envs| && env == envs[i] && env.event.channel.Encompass?
  {
    var n := |envs| - 1;
    if envs[n].event.channel.Encompass? && env == envs[n] {
      i := n;
    } else {
      i := BatchedEvent(envs[..n], env);
    }
  }

  lemma {:induction false} InSomeBatch(batches: Batches, env: Envelope) returns (i: nat)
    requires env in Contents(batches)
    ensures i < |batches| && env in batches[i].1
  {
    var n := |batches| - 1;
    if env in batches[n].1 {
      i := n;
    } else {
      i := InSomeBatch(batches[..n], env);
    }
  }

  lemma {:induction false} BatchIsBatched(batches: Batches, i: nat, env: Envelope)
    requires i < |batches| && env in batches[i].1
    ensures env in Contents(batches)
  {
    if i < |batches| - 1 {
      BatchIsBatched(batches[..|batches|-1], i, env);
    }
  }

  /** A clash between two events is a date with two batches, and the other way. */
  lemma GroupsOfEvents(appDate: int, events: seq<Event>, envs: seq<Envelope>, batches: Batches)
    requires |envs| == |events| && forall i :: 0 <= i < |envs| ==> envs[i].event == events[i]
    requires WellKeyed(appDate, batches) && Contents(batches) == EncompassOnly(envs)
    ensures OneGroupADate(batches) <==> OneHourGroupADate(events)
  {
    if i, j :| 0 <= i < |events| && 0 <= j < |events| && Clash(events[i], events[j]) {
      EventBatched(envs, i);
      EventBatched(envs, j);
      var a := InSomeBatch(batches, envs[i]);
      var b := InSomeBatch(batches, envs[j]);
      assert OfKey(appDate, batches[a]) && OfKey(appDate, batches[b]);
    }
    if a, b :| 0 <= a < b < |batches| && batches[a].0.date == batches[b].0.date {
      assert OfKey(appDate, batches[a]) && OfKey(appDate, batches[b]);
      BatchIsBatched(batches, a, batches[a].1[0]);
      BatchIsBatched(batches, b, batches[b].1[0]);
      var i := BatchedEvent(envs, batches[a].1[0]);
      var j := BatchedEvent(envs, batches[b].1[0]);
      assert Clash(events[i], events[j]);
    }
  }

  const MORNING := Event(0, 9, Encompass, "URLA_1003", "primary")
  const AFTERNOON := Event(0, 15, Encompass, "CREDIT_REPORT", "primary")

  /** A morning and an afternoon document of one day: the afternoon batch replaces the
      morning batch, and no file holds the morning document. */
  lemma AfternoonReplacesMorning(losId: string, appDate: int, hasPdfs: bool, format: Channel -> Format)
    ensures var envs := Envelopes(losId, [MORNING, AFTERNOON]);
      var p := WriteEvents(appDate, envs, hasPdfs, format, map[]);
      var disk := Flush(losId, p.batches, p.disk);
      forall path :: path in disk ==> disk[path] == Batch([envs[1]]) && envs[0] !in disk[path].envs
  {
    var envs := Envelopes(losId, [MORNING, AFTERNOON]);
    assert envs == [envs[0], envs[1]];
    TwoBatches(appDate, envs[0], envs[1], hasPdfs, format);
    TwoFlushed(losId, (Key(appDate, 2), [envs[0]]), (Key(appDate, 3), [envs[1]]));
  }

  lemma TwoBatches(appDate: int, a: Envelope, b: Envelope, hasPdfs: bool, format: Channel -> Format)
    requires a.event == MORNING && b.event == AFTERNOON
    ensures WriteEvents(appDate, [a, b], hasPdfs, format, map[]) ==
      Progress([(Key(appDate, 2), [a]), (Key(appDate, 3), [b])], map[], 0)
  {
    assert [a, b][..1] == [a] && [a][..0] == [];
    assert WriteEvents(appDate, [], hasPdfs, format, map[]) == Progress([], map[], 0);
    assert Add([], Key(appDate, 2), a) == [(Key(appDate, 2), [a])];
    assert WriteEvents(appDate, [a], hasPdfs, format, map[]) == Progress([(Key(appDate, 2), [a])], map[], 0);
    var groups := [(Key(appDate, 2), [a])];
    assert groups[..0] == [] && Position(groups, Key(appDate, 3)) == 1;
  }

  lemma TwoFlushed(losId: string, a: (Key, seq<Envelope>), b: (Key, seq<Envelope>))
    requires a.0.date == b.0.date
    ensures Flush(losId, [a, b], map[]) == map[BatchPath(losId, b.0.date) := Batch(b.1)]
  {
    assert [a, b][..1] == [a] && [a][..0] == [];
    assert Flush(losId, [], map[]) == map[];
    assert Flush(losId, [a], map[]) == map[BatchPath(losId, a.0.date) := Batch(a.1)];
  }

  // ---- which documents survive

  /** The document is in the batch file of its date. */
  predicate OnDisk(losId: string, appDate: int, env: Envelope, disk: map<Path, Content>) {
    var path := Path(appDate + env.event.day, Encompass, losId + "_batch.json");
    path in disk && disk[path].Batch? && env in disk[path].envs
  }

  /** Where the first Encompass document of a key is. */
  function FirstOf(appDate: int, envs: seq<Envelope>, key: Key): (k: nat)
    ensures k <= |envs|
  {
    if envs == [] then 0
    else
      var n := |envs| - 1;
      var k := FirstOf(appDate, envs[..n], key);
      if k < n || HasKey(appDate, envs[n], key) then k else n + 1
  }

  predicate HasKey(appDate: int, env: Envelope, key: Key) {
    env.event.channel.Encompass? && KeyOf(appDate, env.event) == key
  }

  /** No other hour group of the document's date was opened after its own. */
  predicate LastOpened(appDate: int, envs: seq<Envelope>, i: nat)
    requires i < |envs|
  {
    forall j :: 0 <= j < |envs| && Clash(envs[i].event, envs[j].event) ==>
      FirstOf(appDate, envs, KeyOf(appDate, envs[j].event)) < FirstOf(appDate, envs, KeyOf(appDate, envs[i].event))
  }

  /** The batches are listed in the order in which they were opened. */
  predicate InOpeningOrder(appDate: int, envs: seq<Envelope>, batches: Batches) {
    (forall a :: 0 <= a < |batches| ==> FirstOf(appDate, envs, batches[a].0) < |envs|) &&
    (forall a, b :: 0 <= a < b < |batches| ==> FirstOf(appDate, envs, batches[a].0) < FirstOf(appDate, envs, batches[b].0))
  }

  /** Every key that has a document has a batch. */
  ghost predicate AllOpened(appDate: int, envs: seq<Envelope>, batches: Batches) {
    forall key :: FirstOf(appDate, envs, key) < |envs| ==> Position(batches, key) < |batches|
  }

  lemma FirstOfSnoc(appDate: int, init: seq<Envelope>, last: Envelope, key: Key)
    ensures FirstOf(appDate, init + [last], key) ==
      var k := FirstOf(appDate, init, key);
      if k < |init| || HasKey(appDate, last, key) then k else |init| + 1
  {
    assert (init + [last])[..|init|] == init;
  }

  lemma AddKeys(batches: Batches, key: Key, env: Envelope)
    ensures var i, added := Position(batches, key), Add(batches, key, env);
      |added| == (if i < |batches| then |batches| else |batches| + 1) && i < |added| && added[i].0 == key &&
      forall a :: 0 <= a < |batches| ==> added[a].0 == batches[a].0
  {
  }

  lemma OpensInOrder(appDate: int, init: seq<Envelope>, last: Envelope, batches: Batches)
    requires last.event.channel.Encompass?
    requires InOpeningOrder(appDate, init, batches) && AllOpened(appDate, init, batches)
    ensures var batches' := Add(batches, KeyOf(appDate, last.event), last);
      InOpeningOrder(appDate, init + [last], batches') && AllOpened(appDate, init + [last], batches')
  {
    var key := KeyOf(appDate, last.event);
    var batches' := Add(batches, key, last);
    AddKeys(batches, key, last);
    forall k: Key
      ensures FirstOf(appDate, init + [last], k) == var f := FirstOf(appDate, init, k);
        if f < |init| || HasKey(appDate, last, k) then f else |init| + 1
    {
      FirstOfSnoc(appDate, init, last, k);
    }
    forall k | FirstOf(appDate, init + [last], k) <= |init|
      ensures Position(batches', k) < |batches'|
    {
      var a := Position(batches, k);
      assert batches'[a].0 == k;
    }
  }

  lemma {:induction false} AlwaysInOrder(appDate: int, envs: seq<Envelope>, hasPdfs: bool, format: Channel -> Format,
                                         disk: map<Path, Content>)
    ensures var batches := WriteEvents(appDate, envs, hasPdfs, format, disk).batches;
      InOpeningOrder(appDate, envs, batches) && AllOpened(appDate, envs, batches)
  {
    if envs != [] {
      var init, last := envs[..|envs|-1], envs[|envs|-1];
      var before := WriteEvents(appDate, init, hasPdfs, format, disk).batches;
      AlwaysInOrder(appDate, init, hasPdfs, format, disk);
      assert init + [last] == envs;
      if last.event.channel.Encompass? {
        OpensInOrder(appDate, init, last, before);
      } else {
        assert forall key :: FirstOf(appDate, envs, key) < |envs| <==> FirstOf(appDate, init, key) < |init|;
      }
    }
  }

  /** In the batch of the last group of its date, a document is kept. */
  lemma LastKept(losId: string, appDate: int, batches: Batches, disk: map<Path, Content>, env: Envelope, a: nat)
    requires WellKeyed(appDate, batches) && a < |batches| && env in batches[a].1
    requires forall k :: a < k < |batches| ==> batches[k].0.date != batches[a].0.date
    ensures OnDisk(losId, appDate, env, Flush(losId, batches, disk))
  {
    assert OfKey(appDate, batches[a]);
    FlushKeepsLast(losId, batches, disk, a);
  }

  lemma LastIsLastOpened(appDate: int, envs: seq<Envelope>, batches: Batches, i: nat, a: nat)
    requires i < |envs| && a < |batches| && envs[i] in batches[a].1
    requires WellKeyed(appDate, batches) && Contents(batches) == EncompassOnly(envs)
    requires InOpeningOrder(appDate, envs, batches)
    requires forall k :: a < k < |batches| ==> batches[k].0.date != batches[a].0.date
    ensures LastOpened(appDate, envs, i)
  {
    assert OfKey(appDate, batches[a]);
    forall j | 0 <= j < |envs| && Clash(envs[i].event, envs[j].event)
      ensures FirstOf(appDate, envs, KeyOf(appDate, envs[j].event)) < FirstOf(appDate, envs, batches[a].0)
    {
      OpenedEarlier(appDate, envs, batches, j, a);
    }
  }

  lemma OpenedEarlier(appDate: int, envs: seq<Envelope>, batches: Batches, j: nat, a: nat)
    requires j < |envs| && envs[j].event.channel.Encompass? && a < |batches|
    requires WellKeyed(appDate, batches) && Contents(batches) == EncompassOnly(envs)
    requires InOpeningOrder(appDate, envs, batches)
    requires KeyOf(appDate, envs[j].event).date == batches[a].0.date && KeyOf(appDate, envs[j].event) != batches[a].0
    requires forall k :: a < k < |batches| ==> batches[k].0.date != batches[a].0.date
    ensures FirstOf(appDate, envs, KeyOf(appDate, envs[j].event)) < FirstOf(appDate, envs, batches[a].0)
  {
    EventBatched(envs, j);
    var b := InSomeBatch(batches, envs[j]);
    assert OfKey(appDate, batches[b]);
  }

  /** In the batch of an earlier group of its date, it is lost. */
  lemma EarlierLost(losId: string, appDate: int, batches: Batches, disk: map<Path, Content>, env: Envelope, a: nat,
                    last: nat)
    requires WellKeyed(appDate, batches) && a < last < |batches| && env in batches[a].1
    requires batches[last].0.date == batches[a].0.date
    requires forall k :: last < k < |batches| ==> batches[k].0.date != batches[last].0.date
    ensures !OnDisk(losId, appDate, env, Flush(losId, batches, disk))
  {
    assert OfKey(appDate, batches[a]) && OfKey(appDate, batches[last]);
    FlushKeepsLast(losId, batches, disk, last);
  }

  lemma EarlierIsNotLastOpened(appDate: int, envs: seq<Envelope>, batches: Batches, i: nat, a: nat, last: nat)
    requires i < |envs| && envs[i].event.channel.Encompass? && a < last < |batches| && envs[i] in batches[a].1
    requires WellKeyed(appDate, batches) && Contents(batches) == EncompassOnly(envs)
    requires InOpeningOrder(appDate, envs, batches) && batches[last].0.date == batches[a].0.date
    ensures !LastOpened(appDate, envs, i)
  {
    assert OfKey(appDate, batches[a]) && OfKey(appDate, batches[last]);
    var other := batches[last].1[0];
    BatchIsBatched(batches, last, other);
    var j := BatchedEvent(envs, other);
    assert KeyOf(appDate, envs[j].event) == batches[last].0;
    assert Clash(envs[i].event, envs[j].event);
  }

  /** An Encompass document is on disk exactly when its hour group is the last of its
      date to be opened. */
  lemma DocumentSurvivesIff(losId: string, appDate: int, envs: seq<Envelope>, batches: Batches, disk: map<Path, Content>,
                            i: nat)
    requires i < |envs| && envs[i].event.channel.Encompass?
    requires WellKeyed(appDate, batches) && Contents(batches) == EncompassOnly(envs)
    requires InOpeningOrder(appDate, envs, batches)
    ensures OnDisk(losId, appDate, envs[i], Flush(losId, batches, disk)) <==> LastOpened(appDate, envs, i)
  {
    EventBatched(envs, i);
    var a := InSomeBatch(batches, envs[i]);
    var last := LastOfDate(batches, a);
    if last == a {
      LastKept(losId, appDate, batches, disk, envs[i], a);
      LastIsLastOpened(appDate, envs, batches, i, a);
    } else {
      EarlierLost(losId, appDate, batches, disk, envs[i], a, last);
      EarlierIsNotLastOpened(appDate, envs, batches, i, a, last);
    }
  }

  // ---- the writer

  /** One event: into its batch, or into files of its own. */
  method WriteOne(batches0: Batches, disk0: map<Path, Content>, written: nat, appDate: int, env: Envelope,
                  hasPdfs: bool, format: Format)
    returns (batches: Batches, disk: map<Path, Content>, filesWritten: nat)
    ensures Progress(batches, disk, filesWritten) ==
      WriteEvent(Progress(batches0, disk0, written), appDate, env, hasPdfs, format)
  {
    var e := env.event;
    batches, disk, filesWritten := batches0, disk0, written;
    if e.channel.Encompass? {
      batches := Add(batches, Key(appDate + e.day, e.hour / 4), env);
      return;
    }
    disk := disk[RecordPath(appDate, env, format) := Record(env)];
    filesWritten := filesWritten + 1;
    if HasPdf(format) && hasPdfs {
      disk := disk[PdfPath(appDate, env) := Pdf(env)];
      filesWritten := filesWritten + 1;
    }
  }

  lemma WriteNext(appDate: int, envs: seq<Envelope>, k: nat, hasPdfs: bool, format: Channel -> Format,
                  disk0: map<Path, Content>)
    requires k < |envs|
    ensures WriteEvents(appDate, envs[..k+1], hasPdfs, format, disk0) ==
      WriteEvent(WriteEvents(appDate, envs[..k], hasPdfs, format, disk0), appDate, envs[k], hasPdfs,
                 format(envs[k].event.channel))
  {
    assert envs[..k+1][..k] == envs[..k];
  }

  method WriteRecords(losId: string, appDate: int, events: seq<Event>, hasPdfs: bool, format: Channel -> Format,
                      disk0: map<Path, Content>)
    returns (disk: map<Path, Content>, filesWritten: nat, batches: Batches)
    ensures Progress(batches, disk, filesWritten) ==
      WriteEvents(appDate, Envelopes(losId, events), hasPdfs, format, disk0)
  {
    var seqNo := 1;
    ghost var envs := Envelopes(losId, events);
    disk, filesWritten, batches := disk0, 0, [];
    for k := 0 to |events|
      invariant seqNo == k + 1
      invariant Progress(batches, disk, filesWritten) == WriteEvents(appDate, envs[..k], hasPdfs, format, disk0)
    {
      var e := events[k];
      var env := Envelope(DocId(losId, e, seqNo), e);
      assert env == envs[k];
      WriteNext(appDate, envs, k, hasPdfs, format, disk0);
      seqNo := seqNo + 1;
      batches, disk, filesWritten :=
        WriteOne(batches, disk, filesWritten, appDate, env, hasPdfs, format(e.channel));
    }
    assert envs[..|events|] == envs;
  }

  method FlushBatches(losId: string, batches: Batches, disk0: map<Path, Content>)
    returns (disk: map<Path, Content>, filesWritten: nat)
    ensures disk == Flush(losId, batches, disk0) && filesWritten == |batches|
  {
    disk, filesWritten := disk0, 0;
    for k := 0 to |batches|
      invariant disk == Flush(losId, batches[..k], disk0) && filesWritten == k
    {
      assert batches[..k+1][..k] == batches[..k];
      disk := disk[BatchPath(losId, batches[k].0.date) := Batch(batches[k].1)];
      filesWritten := filesWritten + 1;
    }
    assert batches[..|batches|] == batches;
  }

  method WriteLoanEvents(losId: string, appDate: int, events: seq<Event>, hasPdfs: bool, format: Channel -> Format,
                         disk0: map<Path, Content>)
    returns (disk: map<Path, Content>, filesWritten: nat, batches: Batches)
    ensures DistinctIds(Envelopes(losId, events))
    // Every event is in exactly one place: a record of its own ...
    ensures forall i :: 0 <= i < |events| && !events[i].channel.Encompass? ==>
      Recorded(appDate, Envelopes(losId, events)[i], hasPdfs, format, disk)
    // ... or one batch, once
    ensures Contents(batches) == EncompassOnly(Envelopes(losId, events))
    // a document of a batch is on disk exactly when its hour group is the last of
    // its date to be opened
    ensures forall i :: 0 <= i < |events| && events[i].channel.Encompass? ==>
      (OnDisk(losId, appDate, Envelopes(losId, events)[i], disk) <==> LastOpened(appDate, Envelopes(losId, events), i))
    // so the batches are all on disk exactly when no date has two hour groups
    ensures (forall i :: 0 <= i < |batches| ==> Survives(losId, batches[i], disk)) <==> OneHourGroupADate(events)
    // and so is the count of files that is returned
    ensures filesWritten == |batches| + WriteEvents(appDate, Envelopes(losId, events), hasPdfs, format, disk0).files
    ensures disk0 == map[] ==> (filesWritten == |disk| <==> OneHourGroupADate(events))
  {
    var flushed;
    disk, filesWritten, batches := WriteRecords(losId, appDate, events, hasPdfs, format, disk0);
    EnvelopesDistinct(losId, events);
    EachBatchedOnce(appDate, Envelopes(losId, events), hasPdfs, format, disk0);
    RecordsKept(losId, appDate, events, hasPdfs, format, disk0);
    BatchesKept(losId, appDate, events, hasPdfs, format, disk0);
    if disk0 == map[] {
      FilesCounted(losId, appDate, events, hasPdfs, format);
    }
    disk, flushed := FlushBatches(losId, batches, disk);
    filesWritten := filesWritten + flushed;
  }

  /** What the flush leaves of the records ... */
  lemma RecordsKept(losId: string, appDate: int, events: seq<Event>, hasPdfs: bool, format: Channel -> Format,
                    disk0: map<Path, Content>)
    ensures var envs := Envelopes(losId, events);
      var p := WriteEvents(appDate, envs, hasPdfs, format, disk0);
      forall i :: 0 <= i < |events| && !events[i].channel.Encompass? ==>
        Recorded(appDate, envs[i], hasPdfs, format, Flush(losId, p.batches, p.disk))
  {
    var envs := Envelopes(losId, events);
    var p := WriteEvents(appDate, envs, hasPdfs, format, disk0);
    EnvelopesDistinct(losId, events);
    forall i | 0 <= i < |events| && !events[i].channel.Encompass?
      ensures Recorded(appDate, envs[i], hasPdfs, format, Flush(losId, p.batches, p.disk))
    {
      RecordsSurvive(appDate, envs, hasPdfs, format, disk0, i);
      FlushElsewhere(losId, p.batches, p.disk, RecordPath(appDate, envs[i], format(events[i].channel)));
      FlushElsewhere(losId, p.batches, p.disk, PdfPath(appDate, envs[i]));
    }
  }

  /** ... and of the batches, document by document and all together ... */
  lemma BatchesKept(losId: string, appDate: int, events: seq<Event>, hasPdfs: bool, format: Channel -> Format,
                    disk0: map<Path, Content>)
    ensures var envs := Envelopes(losId, events);
      var p := WriteEvents(appDate, envs, hasPdfs, format, disk0);
      var disk := Flush(losId, p.batches, p.disk);
      (forall i :: 0 <= i < |events| && events[i].channel.Encompass? ==>
        (OnDisk(losId, appDate, envs[i], disk) <==> LastOpened(appDate, envs, i))) &&
      ((forall i :: 0 <= i < |p.batches| ==> Survives(losId, p.batches[i], disk)) <==> OneHourGroupADate(events))
  {
    var envs := Envelopes(losId, events);
    var p := WriteEvents(appDate, envs, hasPdfs, format, disk0);
    EachBatchedOnce(appDate, envs, hasPdfs, format, disk0);
    AlwaysKeyed(appDate, envs, hasPdfs, format, disk0);
    AlwaysInOrder(appDate, envs, hasPdfs, format, disk0);
    BatchesSurviveIff(losId, appDate, p.batches, p.disk);
    GroupsOfEvents(appDate, events, envs, p.batches);
    forall i | 0 <= i < |events| && events[i].channel.Encompass?
      ensures OnDisk(losId, appDate, envs[i], Flush(losId, p.batches, p.disk)) <==> LastOpened(appDate, envs, i)
    {
      DocumentSurvivesIff(losId, appDate, envs, p.batches, p.disk, i);
    }
  }

  /** ... and how many files there are then in a directory that was empty. */
  lemma FilesCounted(losId: string, appDate: int, events: seq<Event>, hasPdfs: bool, format: Channel -> Format)
    ensures var p := WriteEvents(appDate, Envelopes(losId, events), hasPdfs, format, map[]);
      p.files + |p.batches| == |Flush(losId, p.batches, p.disk)| <==> OneHourGroupADate(events)
  {
    var envs := Envelopes(losId, events);
    var p := WriteEvents(appDate, envs, hasPdfs, format, map[]);
    EnvelopesDistinct(losId, events);
    EachBatchedOnce(appDate, envs, hasPdfs, format, map[]);
    AlwaysKeyed(appDate, envs, hasPdfs, format, map[]);
    GroupsOfEvents(appDate, events, envs, p.batches);
    FilesAreCounted(appDate, envs, hasPdfs, format);
    FlushCounts(losId, p.batches, p.disk);
    DatesCounted(p.batches);
  }
}
