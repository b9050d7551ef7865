/** What a history of updates leaves in a download's entry. */
module DownloadHistories {
  import opened Wrappers
  import opened Downloads

  function AfterUpdates(data: Data, updates: seq<Data>): Data {
    if updates == [] then data
    else Stored(Merge(AfterUpdates(data, updates[..|updates| - 1]), updates[|updates| - 1]))
  }

  /** Updates of many downloads, each with its id, one after the other. */
  function AfterAll(entries: Entries, updates: seq<(string, Data)>): (r: Entries)
    requires Sound(entries)
    ensures Sound(r)
  {
    if updates == [] then entries
    else
      var before, last := AfterAll(entries, updates[..|updates| - 1]), updates[|updates| - 1];
      SetStaysSound(before, last.0, InfoOf(before, last.0), Merge(DataOf(before, last.0), last.1));
      Updated(before, last.0, last.1)
  }

  function For(id: string, updates: seq<(string, Data)>): seq<Data> {
    if updates == [] then []
    else
      var last := updates[|updates| - 1];
      For(id, updates[..|updates| - 1]) + if last.0 == id then [last.1] else []
  }

  /** A download's data depend on its own updates only. */
  lemma {:induction false} DownloadsAreIndependent(entries: Entries, updates: seq<(string, Data)>, id: string)
    requires Sound(entries)
    ensures DataOf(AfterAll(entries, updates), id) == AfterUpdates(DataOf(entries, id), For(id, updates))
    ensures InfoOf(AfterAll(entries, updates), id) == InfoOf(entries, id)
    ensures id in AfterAll(entries, updates) <==> id in entries || For(id, updates) != []
  {
    if updates != [] {
      var earlier, last := updates[..|updates| - 1], updates[|updates| - 1];
      DownloadsAreIndependent(entries, earlier, id);
      if last.0 == id {
        assert For(id, updates)[..|For(id, updates)| - 1] == For(id, earlier);
      } else {
        assert For(id, updates) == For(id, earlier);
      }
    }
  }

  // One field.

  /** The values the updates write to a field, in order. */
  function Written(updates: seq<Data>, key: string): seq<Field> {
    if updates == [] then []
    else
      var last := updates[|updates| - 1];
      Written(updates[..|updates| - 1], key) + if key in last then [last[key]] else []
  }

  function FieldAfter(key: string, f: Option<Field>, ws: seq<Field>): Option<Field> {
    if ws == [] then f
    else Some(StoredField(Customized(key, FieldAfter(key, f, ws[..|ws| - 1]), ws[|ws| - 1])))
  }

  lemma {:induction false} FieldsAreIndependent(data: Data, updates: seq<Data>, key: string)
    requires Stored(data) == data
    ensures At(AfterUpdates(data, updates), key) == FieldAfter(key, At(data, key), Written(updates, key))
    ensures Stored(AfterUpdates(data, updates)) == AfterUpdates(data, updates)
  {
    if updates != [] {
      var earlier, last := updates[..|updates| - 1], updates[|updates| - 1];
      var before := AfterUpdates(data, earlier);
      FieldsAreIndependent(data, earlier, key);
      if key in last {
        assert Written(updates, key)[..|Written(updates, key)| - 1] == Written(earlier, key);
      } else {
        assert Written(updates, key) == Written(earlier, key);
        if key in before {
          assert Stored(before)[key] == before[key];
        }
      }
      assert Stored(Stored(Merge(before, last))) == Stored(Merge(before, last));
    }
  }

  predicate Numeric(ws: seq<Field>) {
    forall f <- ws :: f.Num? || f.NotANumber?
  }

  /** What was written after the last value that is no number. */
  function SinceNoNumber(ws: seq<Field>): seq<Field> {
    if ws == [] || ws[|ws| - 1].NotANumber? then []
    else SinceNoNumber(ws[..|ws| - 1]) + [ws[|ws| - 1]]
  }

  /** The maximum of 0 and the numbers given. */
  predicate IsMaximum(m: real, ws: seq<Field>) {
    && m >= 0.0
    && (m == 0.0 || Num(m) in ws)
    && forall f <- ws :: f.Num? ==> f.value <= m
  }

  lemma {:induction false} NumbersKeepMaximum(key: string, ws: seq<Field>)
    requires key != "remainingSize" && Numeric(ws)
    ensures var f := FieldAfter(key, Some(Num(0.0)), ws);
            if ws != [] && ws[|ws| - 1].NotANumber? then f == Some(Null)
            else f.Some? && f.value.Num? && IsMaximum(f.value.value, SinceNoNumber(ws))
  {
    if ws != [] {
      var before, last := ws[..|ws| - 1], ws[|ws| - 1];
      NumbersKeepMaximum(key, before);
      assert last in ws;
      if last.Num? {
        var f := FieldAfter(key, Some(Num(0.0)), before);
        if before != [] && before[|before| - 1].NotANumber? {
          assert SinceNoNumber(ws) == [last];
        } else {
          assert SinceNoNumber(ws) == SinceNoNumber(before) + [last];
        }
      }
    }
  }

  /** After a download is set up and any updates, a numeric field other than the remaining size holds the maximum of 0
      and the numbers written to it, as far back as the last value that is no number; it is empty if that came last. */
  lemma NumericFieldIsMaximum(updates: seq<Data>, key: string)
    requires At(DOWNLOAD_DATA_DEFAULT, key) == Some(Num(0.0)) && key != "remainingSize"
    requires Numeric(Written(updates, key))
    ensures var ws, f := Written(updates, key), At(AfterUpdates(DOWNLOAD_DATA_DEFAULT, updates), key);
            if ws != [] && ws[|ws| - 1].NotANumber? then f == Some(Null)
            else f.Some? && f.value.Num? && IsMaximum(f.value.value, SinceNoNumber(ws))
  {
    assert Stored(DOWNLOAD_DATA_DEFAULT) == DOWNLOAD_DATA_DEFAULT;
    FieldsAreIndependent(DOWNLOAD_DATA_DEFAULT, updates, key);
    NumbersKeepMaximum(key, Written(updates, key));
  }

  predicate AllNumbers(ws: seq<Field>) {
    forall f <- ws :: f.Num?
  }

  lemma {:induction false} SinceStart(ws: seq<Field>)
    requires AllNumbers(ws)
    ensures SinceNoNumber(ws) == ws
  {
    if ws != [] {
      assert ws[|ws| - 1] in ws;
      forall f | f in ws[..|ws| - 1]
        ensures f.Num?
      {
        assert f in ws;
      }
      SinceStart(ws[..|ws| - 1]);
    }
  }

  lemma NumbersAreNumeric(ws: seq<Field>)
    requires AllNumbers(ws)
    ensures Numeric(ws) && (ws != [] ==> ws[|ws| - 1].Num?)
  {
    assert ws != [] ==> ws[|ws| - 1] in ws;
  }

  predicate HoldsMaximum(f: Option<Field>, ws: seq<Field>) {
    f.Some? && f.value.Num? && IsMaximum(f.value.value, ws)
  }

  /** A numeric field that was only ever given numbers. */
  lemma MaximumOfAll(updates: seq<Data>, key: string)
    requires At(DOWNLOAD_DATA_DEFAULT, key) == Some(Num(0.0)) && key != "remainingSize"
    requires AllNumbers(Written(updates, key))
    ensures var f := At(AfterUpdates(DOWNLOAD_DATA_DEFAULT, updates), key);
            HoldsMaximum(f, Written(updates, key))
  {
    SinceStart(Written(updates, key));
    NumbersAreNumeric(Written(updates, key));
    NumericFieldIsMaximum(updates, key);
  }

  predicate Among(ws: seq<Field>, ws': seq<Field>) {
    forall f <- ws :: f in ws'
  }

  lemma MoreNumbersMoreMaximum(f: Option<Field>, ws: seq<Field>, f': Option<Field>, ws': seq<Field>)
    requires HoldsMaximum(f, ws) && HoldsMaximum(f', ws') && Among(ws, ws')
    ensures f.value.value <= f'.value.value
    ensures Among(ws', ws) ==> f == f'
  {
    assert f.value.value == 0.0 || Num(f.value.value) in ws';
    if Among(ws', ws) {
      assert f'.value.value == 0.0 || Num(f'.value.value) in ws;
    }
  }

  /** Two histories that write the same numbers to a field, in whatever order and however often, leave it the same;
      and a history that goes on never lowers it. */
  lemma OrderDoesNotMatter(updates: seq<Data>, updates': seq<Data>, key: string)
    requires At(DOWNLOAD_DATA_DEFAULT, key) == Some(Num(0.0)) && key != "remainingSize"
    requires AllNumbers(Written(updates, key)) && AllNumbers(Written(updates', key))
    requires Among(Written(updates, key), Written(updates', key))
    ensures var f, f' := At(AfterUpdates(DOWNLOAD_DATA_DEFAULT, updates), key),
        At(AfterUpdates(DOWNLOAD_DATA_DEFAULT, updates'), key);
            && f.Some? && f'.Some? && f.value.Num? && f'.value.Num? && f.value.value <= f'.value.value
            && (Among(Written(updates', key), Written(updates, key)) ==> f == f')
  {
    MaximumOfAll(updates, key);
    MaximumOfAll(updates', key);
    MoreNumbersMoreMaximum(
      At(AfterUpdates(DOWNLOAD_DATA_DEFAULT, updates), key), Written(updates, key),
      At(AfterUpdates(DOWNLOAD_DATA_DEFAULT, updates'), key), Written(updates', key));
  }

  predicate NoNumbers(ws: seq<Field>) {
    forall f <- ws :: !f.Num?
  }

  /** Every other field holds what was last written to it. */
  lemma OtherFieldsAreLastWritten(data: Data, updates: seq<Data>, key: string)
    requires Stored(data) == data
    requires key == "remainingSize" || NoNumbers(Written(updates, key))
    ensures var ws, f := Written(updates, key), At(AfterUpdates(data, updates), key);
            f == if ws == [] then At(data, key) else Some(StoredField(ws[|ws| - 1]))
  {
    FieldsAreIndependent(data, updates, key);
    var ws := Written(updates, key);
    if ws != [] {
      assert ws[|ws| - 1] in ws;
    }
  }

  /** A single value that is no number makes the field forget its maximum. */
  lemma NoNumberForgets()
    ensures var updates: seq<Data> := [map["progress" := Num(50.0)], map["progress" := NotANumber],
        map["progress" := Num(10.0)]];
            At(AfterUpdates(DOWNLOAD_DATA_DEFAULT, updates), "progress") == Some(Num(10.0))
  {
    var us: seq<Data> := [map["progress" := Num(50.0)], map["progress" := NotANumber], map["progress" := Num(10.0)]];
    assert us[..2][..1] == us[..1] && us[..1][..0] == [];
    assert At(AfterUpdates(DOWNLOAD_DATA_DEFAULT, us[..1]), "progress") == Some(Num(50.0));
    assert At(AfterUpdates(DOWNLOAD_DATA_DEFAULT, us[..2]), "progress") == Some(Null);
  }

  // The events of one download, and what `getEventActions` (source/main/utils/downloadManager.js) writes for them.

  datatype Notice =
    | Downloads(totalSize: real, downloadedSize: real)
    | Progresses(total: real, downloaded: real, progress: real, speed: real)
    | Ends(size: real, onDiskSize: real, incomplete: bool)
    | Pauses
    | Fails(message: string)

  function StateFor(n: Notice): Field {
    match n
    case Downloads(_, _) => Text(DOWNLOADING)
    case Progresses(_, _, _, _) => Text(DOWNLOADING)
    case Ends(_, _, _) => Text("FINISHED")
    case Pauses => Text(PAUSED)
    case Fails(_) => Text("FAILED")
  }

  /** The server's file size, as far as it is known. */
  function SizeField(serverFileSize: Option<real>): Data {
    match serverFileSize
    case None => map[]
    case Some(size) => map["serverFileSize" := Num(size)]
  }

  function UpdateFor(n: Notice, serverFileSize: Option<real>): Data {
    match n
    case Downloads(totalSize, downloadedSize) =>
      map["serverFileSize" := Num(totalSize), "diskFileSize" := Num(downloadedSize),
          "remainingSize" := Num(totalSize), "state" := StateFor(n)]
    case Progresses(total, downloaded, progress, speed) =>
      SizeField(serverFileSize) +
      map["remainingSize" := Num(total - downloaded), "downloadSize" := Num(downloaded), "progress" := Num(progress),
          "speed" := Num(speed), "state" := StateFor(n)]
    case Ends(size, onDiskSize, incomplete) =>
      map["downloadSize" := Num(size), "diskFileSize" := Num(onDiskSize), "incomplete" := Flag(incomplete),
          "state" := StateFor(n)]
    case Pauses => map["state" := StateFor(n)]
    case Fails(message) => map["message" := Text(message), "state" := StateFor(n)]
  }

  function ServerSize(ns: seq<Notice>): Option<real> {
    if ns == [] then None
    else match ns[|ns| - 1]
      case Downloads(totalSize, _) => Some(totalSize)
      case _ => ServerSize(ns[..|ns| - 1])
  }

  /** The updates that these events lead to. */
  ghost predicate Reports(updates: seq<Data>, ns: seq<Notice>) {
    |updates| == |ns| && forall i :: 0 <= i < |ns| ==> ReportsAt(updates, ns, i)
  }

  predicate ReportsAt(updates: seq<Data>, ns: seq<Notice>, i: int)
    requires 0 <= i < |ns| == |updates|
  {
    updates[i] == UpdateFor(ns[i], ServerSize(ns[..i]))
  }

  // What each event says about each field.

  function Progress(n: Notice): Option<Field> {
    match n
    case Progresses(_, _, progress, _) => Some(Num(progress))
    case _ => None
  }

  function Speed(n: Notice): Option<Field> {
    match n
    case Progresses(_, _, _, speed) => Some(Num(speed))
    case _ => None
  }

  function DownloadSize(n: Notice): Option<Field> {
    match n
    case Progresses(_, downloaded, _, _) => Some(Num(downloaded))
    case Ends(size, _, _) => Some(Num(size))
    case _ => None
  }

  function DiskFileSize(n: Notice): Option<Field> {
    match n
    case Downloads(_, downloadedSize) => Some(Num(downloadedSize))
    case Ends(_, onDiskSize, _) => Some(Num(onDiskSize))
    case _ => None
  }

  function ServerFileSize(n: Notice): Option<Field> {
    match n
    case Downloads(totalSize, _) => Some(Num(totalSize))
    case _ => None
  }

  function RemainingSize(n: Notice): Option<Field> {
    match n
    case Downloads(totalSize, _) => Some(Num(totalSize))
    case Progresses(total, downloaded, _, _) => Some(Num(total - downloaded))
    case _ => None
  }

  function Incomplete(n: Notice): Option<Field> {
    match n
    case Ends(_, _, incomplete) => Some(Flag(incomplete))
    case _ => None
  }

  function Message(n: Notice): Option<Field> {
    match n
    case Fails(message) => Some(Text(message))
    case _ => None
  }

  function State(n: Notice): Option<Field> {
    match n
    case Downloads(_, _) => Some(Text("DOWNLOADING"))
    case Progresses(_, _, _, _) => Some(Text("DOWNLOADING"))
    case Ends(_, _, _) => Some(Text("FINISHED"))
    case Pauses => Some(Text("PAUSED"))
    case Fails(_) => Some(Text("FAILED"))
  }

  function Nothing(n: Notice): Option<Field> {
    None
  }

  function Said(ns: seq<Notice>, about: Notice -> Option<Field>): seq<Field> {
    if ns == [] then []
    else
      var last := about(ns[|ns| - 1]);
      Said(ns[..|ns| - 1], about) + if last.Some? then [last.value] else []
  }

  function LastOr(ws: seq<Field>, f: Option<Field>): Option<Field> {
    if ws == [] then f else Some(ws[|ws| - 1])
  }

  lemma ReportsBefore(updates: seq<Data>, ns: seq<Notice>)
    requires Reports(updates, ns) && ns != []
    ensures Reports(updates[..|ns| - 1], ns[..|ns| - 1])
    ensures updates[|ns| - 1] == UpdateFor(ns[|ns| - 1], ServerSize(ns[..|ns| - 1]))
  {
    assert ReportsAt(updates, ns, |ns| - 1);
    var before, earlier := updates[..|ns| - 1], ns[..|ns| - 1];
    forall i | 0 <= i < |earlier|
      ensures ReportsAt(before, earlier, i)
    {
      assert ReportsAt(updates, ns, i);
      assert earlier[..i] == ns[..i];
    }
  }

  /** The updates write to this field just what the events say about it. */
  ghost predicate Writes(key: string, about: Notice -> Option<Field>) {
    forall n: Notice, size: Option<real> :: At(UpdateFor(n, size), key) == about(n)
  }

  lemma {:induction false} SaidIsWritten(updates: seq<Data>, ns: seq<Notice>, key: string,
          about: Notice -> Option<Field>)
    requires Reports(updates, ns) && Writes(key, about)
    ensures Written(updates, key) == Said(ns, about)
  {
    if ns != [] {
      ReportsBefore(updates, ns);
      SaidIsWritten(updates[..|ns| - 1], ns[..|ns| - 1], key, about);
      assert At(UpdateFor(ns[|ns| - 1], ServerSize(ns[..|ns| - 1])), key) == about(ns[|ns| - 1]);
    }
  }

  ghost predicate SaysNumbers(about: Notice -> Option<Field>) {
    forall n :: about(n).Some? ==> about(n).value.Num?
  }

  ghost predicate SaysNoNumbers(about: Notice -> Option<Field>) {
    forall n :: about(n).Some? ==> !about(n).value.Num? && !about(n).value.NotANumber?
  }

  lemma {:induction false} NumbersSaid(ns: seq<Notice>, about: Notice -> Option<Field>)
    ensures SaysNumbers(about) ==> AllNumbers(Said(ns, about))
    ensures SaysNoNumbers(about) ==> NoNumbers(Said(ns, about)) && forall f <- Said(ns, about) :: !f.NotANumber?
  {
    if ns != [] {
      NumbersSaid(ns[..|ns| - 1], about);
    }
  }

  lemma MaximumSaid(updates: seq<Data>, ns: seq<Notice>, key: string, about: Notice -> Option<Field>)
    requires Reports(updates, ns) && Writes(key, about) && SaysNumbers(about)
    requires At(DOWNLOAD_DATA_DEFAULT, key) == Some(Num(0.0)) && key != "remainingSize"
    ensures HoldsMaximum(At(AfterUpdates(DOWNLOAD_DATA_DEFAULT, updates), key), Said(ns, about))
  {
    SaidIsWritten(updates, ns, key, about);
    NumbersSaid(ns, about);
    MaximumOfAll(updates, key);
  }

  lemma LastSaid(data: Data, updates: seq<Data>, ns: seq<Notice>, key: string, about: Notice -> Option<Field>)
    requires Stored(data) == data && Reports(updates, ns) && Writes(key, about)
    requires if key == "remainingSize" then SaysNumbers(about) else SaysNoNumbers(about)
    ensures At(AfterUpdates(data, updates), key) == LastOr(Said(ns, about), At(data, key))
  {
    SaidIsWritten(updates, ns, key, about);
    NumbersSaid(ns, about);
    OtherFieldsAreLastWritten(data, updates, key);
    var ws := Said(ns, about);
    if ws != [] {
      assert ws[|ws| - 1] in ws;
    }
  }

  // The server's size is said once and repeated with every progress.

  lemma SizeStep(updates: seq<Data>, ns: seq<Notice>)
    requires Reports(updates, ns) && ns != []
    ensures var before, last := Written(updates[..|ns| - 1], "serverFileSize"), ns[|ns| - 1];
            var size := ServerSize(ns[..|ns| - 1]);
            Written(updates, "serverFileSize") ==
            if last.Downloads? then before + [Num(last.totalSize)]
            else if last.Progresses? && size.Some? then before + [Num(size.value)]
            else before
  {
    ReportsBefore(updates, ns);
  }

  lemma {:induction false} SizesWritten(updates: seq<Data>, ns: seq<Notice>)
    requires Reports(updates, ns)
    ensures var ws, said := Written(updates, "serverFileSize"), Said(ns, ServerFileSize);
            && Among(ws, said) && Among(said, ws)
            && (ServerSize(ns).Some? ==> Num(ServerSize(ns).value) in said)
  {
    if ns != [] {
      ReportsBefore(updates, ns);
      SizesWritten(updates[..|ns| - 1], ns[..|ns| - 1]);
      SizeStep(updates, ns);
    }
  }

  lemma SameNumbersSameMaximum(f: Option<Field>, ws: seq<Field>, ws': seq<Field>)
    requires HoldsMaximum(f, ws) && Among(ws, ws') && Among(ws', ws)
    ensures HoldsMaximum(f, ws')
  {
  }

  lemma ServerSizeSaid(updates: seq<Data>, ns: seq<Notice>)
    requires Reports(updates, ns)
    ensures HoldsMaximum(At(AfterUpdates(DOWNLOAD_DATA_DEFAULT, updates), "serverFileSize"), Said(ns, ServerFileSize))
  {
    SizesWritten(updates, ns);
    NumbersSaid(ns, ServerFileSize);
    assert AllNumbers(Written(updates, "serverFileSize"));
    MaximumOfAll(updates, "serverFileSize");
    SameNumbersSameMaximum(
      At(AfterUpdates(DOWNLOAD_DATA_DEFAULT, updates), "serverFileSize"), Written(updates, "serverFileSize"),
      Said(ns, ServerFileSize));
  }

  lemma {:induction false} NothingIsSaid(ns: seq<Notice>)
    ensures Said(ns, Nothing) == []
  {
    if ns != [] {
      NothingIsSaid(ns[..|ns| - 1]);
    }
  }

  lemma ProgressIsWritten()
    ensures Writes("progress", Progress) && Writes("speed", Speed)
  {
  }

  lemma SizesAreWritten()
    ensures Writes("downloadSize", DownloadSize) && Writes("diskFileSize", DiskFileSize)
  {
  }

  lemma RemainingAndStateAreWritten()
    ensures Writes("remainingSize", RemainingSize) && Writes("state", State)
  {
  }

  lemma OutcomeIsWritten()
    ensures Writes("incomplete", Incomplete) && Writes("message", Message) && Writes("isResumed", Nothing)
  {
  }

  lemma DefaultFields()
    ensures Stored(DOWNLOAD_DATA_DEFAULT) == DOWNLOAD_DATA_DEFAULT
    ensures At(DOWNLOAD_DATA_DEFAULT, "state") == Some(Text("IDLE"))
    ensures forall key <- ["remainingSize", "serverFileSize", "diskFileSize", "downloadSize", "progress", "speed"] ::
              At(DOWNLOAD_DATA_DEFAULT, key) == Some(Num(0.0))
    ensures At(DOWNLOAD_DATA_DEFAULT, "incomplete") == Some(Flag(false))
    ensures At(DOWNLOAD_DATA_DEFAULT, "isResumed") == Some(Flag(false))
    ensures At(DOWNLOAD_DATA_DEFAULT, "message") == None
  {
  }

  /** As long as a download's entry is kept, which it is past the end only for downloads with `persistLocalData`, each
      size, the percentage and the speed are the highest that any event has said, never below 0. */
  lemma EntryShowsTheHighest(updates: seq<Data>, ns: seq<Notice>)
    requires Reports(updates, ns)
    ensures var data := AfterUpdates(DOWNLOAD_DATA_DEFAULT, updates);
            && HoldsMaximum(At(data, "progress"), Said(ns, Progress))
            && HoldsMaximum(At(data, "speed"), Said(ns, Speed))
            && HoldsMaximum(At(data, "downloadSize"), Said(ns, DownloadSize))
            && HoldsMaximum(At(data, "diskFileSize"), Said(ns, DiskFileSize))
            && HoldsMaximum(At(data, "serverFileSize"), Said(ns, ServerFileSize))
  {
    DefaultFields();
    ProgressIsWritten();
    SizesAreWritten();
    MaximumSaid(updates, ns, "progress", Progress);
    MaximumSaid(updates, ns, "speed", Speed);
    MaximumSaid(updates, ns, "downloadSize", DownloadSize);
    MaximumSaid(updates, ns, "diskFileSize", DiskFileSize);
    ServerSizeSaid(updates, ns);
  }

  /** And the state, the remaining size, the flag and the message are the latest. */
  lemma EntryShowsTheLatest(updates: seq<Data>, ns: seq<Notice>)
    requires Reports(updates, ns)
    ensures var data := AfterUpdates(DOWNLOAD_DATA_DEFAULT, updates);
            && At(data, "state") == LastOr(Said(ns, State), Some(Text("IDLE")))
            && At(data, "remainingSize") == LastOr(Said(ns, RemainingSize), Some(Num(0.0)))
            && At(data, "incomplete") == LastOr(Said(ns, Incomplete), Some(Flag(false)))
            && At(data, "message") == LastOr(Said(ns, Message), None)
            && At(data, "isResumed") == Some(Flag(false))
  {
    DefaultFields();
    RemainingAndStateAreWritten();
    OutcomeIsWritten();
    LastSaid(DOWNLOAD_DATA_DEFAULT, updates, ns, "state", State);
    LastSaid(DOWNLOAD_DATA_DEFAULT, updates, ns, "remainingSize", RemainingSize);
    LastSaid(DOWNLOAD_DATA_DEFAULT, updates, ns, "incomplete", Incomplete);
    LastSaid(DOWNLOAD_DATA_DEFAULT, updates, ns, "message", Message);
    LastSaid(DOWNLOAD_DATA_DEFAULT, updates, ns, "isResumed", Nothing);
    NothingIsSaid(ns);
  }

  // The sweep.

  /** After the sweep a download that was DOWNLOADING with less than 100 percent, or with none on record, is PAUSED, and
      nothing else about it or any other download has changed; a second sweep changes nothing. */
  lemma SweepPausesExactlyTheRunning(entries: Entries, id: string)
    requires Sound(entries)
    ensures AllPaused(entries).Keys == entries.Keys && Sound(AllPaused(entries))
    ensures InfoOf(AllPaused(entries), id) == InfoOf(entries, id)
    ensures id in entries ==> !Active(DataOf(AllPaused(entries), id))
    ensures id in entries && !Active(DataOf(entries, id)) ==> AllPaused(entries)[id] == entries[id]
    ensures id in entries && Active(DataOf(entries, id)) ==>
              DataOf(AllPaused(entries), id) == DataOf(entries, id)["state" := Text("PAUSED")]
    ensures var data, swept := DataOf(entries, id), DataOf(AllPaused(entries), id);
            && (At(data, "state") != Some(Text("DOWNLOADING")) ==> swept == data)
            && (At(data, "state") == Some(Text("DOWNLOADING")) ==>
                  match At(data, "progress")
                  case Some(Num(x)) => swept == if x < 100.0 then data["state" := Text("PAUSED")] else data
                  case Some(Null) => swept == data["state" := Text("PAUSED")]
                  case None => swept == data
                  case _ => true)
    ensures AllPaused(AllPaused(entries)) == AllPaused(entries)
  {
    forall k | k in entries
      ensures Stored(PausedData(entries[k].value.data)) == PausedData(entries[k].value.data)
      ensures !Active(PausedData(entries[k].value.data))
    {
      StoredHasNoNaN(entries[k].value.data);
    }
  }
}
