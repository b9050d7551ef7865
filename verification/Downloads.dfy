/** The bookkeeping of downloads: `downloadManagerLocalStorage` (source/main/utils/mainLocalStorage.js), kept in the
    key/value document. */
module Downloads {
  import opened Wrappers
  import opened ElectronStores
  import opened Sequences

  const DOWNLOAD_MANAGER := "DOWNLOAD-MANAGER"
  const APP_AUTOMATIC_UPDATE_FAILED := "APP-AUTOMATIC-UPDATE-FAILED"

  const IDLE := "IDLE"
  const DOWNLOADING := "DOWNLOADING"
  const PAUSED := "PAUSED"

  /** A field of a download's data. `NotANumber` is only computed: it is written to the store as `Null`. */
  datatype Field = Num(value: real) | NotANumber | Null | Text(text: string) | Flag(on: bool)

  type Data = map<string, Field>

  datatype Info = Info(downloadId: string, temporaryFilename: string, originalFilename: string)

  datatype Value = Download(info: Option<Info>, data: Data) | Other(json: string)

  const DOWNLOAD_DATA_DEFAULT: Data := map[
    "state" := Text(IDLE),
    "remainingSize" := Num(0.0),
    "serverFileSize" := Num(0.0),
    "diskFileSize" := Num(0.0),
    "downloadSize" := Num(0.0),
    "progress" := Num(0.0),
    "speed" := Num(0.0),
    "incomplete" := Flag(false),
    "isResumed" := Flag(false)
  ]

  /** `Math.max(old, n)`, where a text counts as no number. */
  function Max(old_: Option<Field>, n: real): Field {
    match old_
    case Some(Num(x)) => Num(if x > n then x else n)
    case Some(Null) => Num(if 0.0 > n then 0.0 else n)
    case Some(Flag(on)) => Num(if on && 1.0 > n then 1.0 else if !on && 0.0 > n then 0.0 else n)
    case _ => NotANumber
  }

  function Customized(key: string, old_: Option<Field>, new_: Field): Field {
    if key == "remainingSize" then new_
    else match new_
      case Num(n) => Max(old_, n)
      case _ => new_
  }

  function At(data: Data, key: string): Option<Field> {
    if key in data then Some(data[key]) else None
  }

  /** `mergeWith`: fields the update leaves undefined are not among its keys. */
  function Merge(old_: Data, update: Data): Data {
    map k | k in old_.Keys + update.Keys :: if k in update then Customized(k, At(old_, k), update[k]) else old_[k]
  }

  function StoredField(f: Field): Field {
    if f.NotANumber? then Null else f
  }

  function Stored(data: Data): Data {
    map k | k in data :: StoredField(data[k])
  }

  predicate Active(data: Data) {
    At(data, "state") == Some(Text(DOWNLOADING)) && ProgressBelow100(At(data, "progress"))
  }

  /** `progress < 100`, where a text counts as no number. */
  predicate ProgressBelow100(progress: Option<Field>) {
    match progress
    case Some(Num(x)) => x < 100.0
    case Some(Null) => true
    case Some(Flag(_)) => true
    case _ => false
  }

  /** What a field counts as where a number is needed. */
  function NumberOf(f: Option<Field>): Option<real> {
    match f
    case Some(Num(x)) => Some(x)
    case Some(Null) => Some(0.0)
    case Some(Flag(on)) => Some(if on then 1.0 else 0.0)
    case _ => None
  }

  /** A number is merged into whatever there was, by what that counts as; only the remaining size is overwritten. And a
      download is below 100 percent if its progress counts as less. */
  lemma MergeTakesHigher(data: Data, key: string, n: real)
    ensures var merged, x := At(Merge(data, map[key := Num(n)]), key), NumberOf(At(data, key));
            && (key == "remainingSize" ==> merged == Some(Num(n)))
            && (key != "remainingSize" && x.None? ==> merged == Some(NotANumber))
            && (key != "remainingSize" && x.Some? && x.value > n ==> merged == Some(Num(x.value)))
            && (key != "remainingSize" && x.Some? && x.value <= n ==> merged == Some(Num(n)))
            && (ProgressBelow100(At(data, key)) <==> x.Some? && x.value < 100.0)
  {
  }

  type Entries = Document<Value>

  function EntriesIn(doc: Document<Value>, network: string): Entries {
    ChildrenOf(doc, network + "-" + DOWNLOAD_MANAGER)
  }

  /** Every entry is a download, as stored. */
  predicate Sound(entries: Entries) {
    forall id <- entries ::
      && entries[id].Leaf? && entries[id].value.Download?
      && Stored(entries[id].value.data) == entries[id].value.data
  }

  predicate PlainIds(entries: Entries) {
    forall id <- entries :: DotFree(id) && id != ""
  }

  function DataOf(entries: Entries, id: string): Data
    requires Sound(entries)
  {
    if id in entries then entries[id].value.data else map[]
  }

  function InfoOf(entries: Entries, id: string): Option<Info>
    requires Sound(entries)
  {
    if id in entries then entries[id].value.info else None
  }

  function Updated(entries: Entries, id: string, update: Data): Entries
    requires Sound(entries)
  {
    entries[id := Leaf(Download(InfoOf(entries, id), Stored(Merge(DataOf(entries, id), update))))]
  }

  const PAUSE: Data := map["state" := Text(PAUSED)]

  function PausedData(data: Data): Data {
    if Active(data) then data["state" := Text(PAUSED)] else data
  }

  function AllPaused(entries: Entries): Entries
    requires Sound(entries)
  {
    map id | id in entries :: Leaf(entries[id].value.(data := PausedData(entries[id].value.data)))
  }

  lemma KeysAreDotFree(network: string)
    requires DotFree(network)
    ensures DotFree(network + "-" + DOWNLOAD_MANAGER) && DotFree(network + "-" + APP_AUTOMATIC_UPDATE_FAILED)
    ensures DotFree(DOWNLOAD_MANAGER) && DotFree(APP_AUTOMATIC_UPDATE_FAILED)
    ensures network + "-" + DOWNLOAD_MANAGER != network + "-" + APP_AUTOMATIC_UPDATE_FAILED
  {
    DistinctKeysDistinctPaths(network, DOWNLOAD_MANAGER, APP_AUTOMATIC_UPDATE_FAILED);
  }

  /** A request for one download is a lookup or a change of one entry. */
  lemma EntryPath(doc: Document<Value>, network: string, id: string)
    requires DotFree(network) && DotFree(id) && id != ""
    ensures var path := Split(NetworkKey(network, DOWNLOAD_MANAGER, id));
            var nk := network + "-" + DOWNLOAD_MANAGER;
            && GetPath(doc, path) == (if id in EntriesIn(doc, network) then Some(EntriesIn(doc, network)[id]) else None)
            && forall v :: SetPath(doc, path, v) == doc[nk := Branch(EntriesIn(doc, network)[id := v])]
  {
    KeysAreDotFree(network);
    PathOfKey(network, DOWNLOAD_MANAGER, id);
    ShortPaths(doc, network + "-" + DOWNLOAD_MANAGER, id);
  }

  lemma SetStaysSound(entries: Entries, id: string, info: Option<Info>, data: Data)
    requires Sound(entries)
    ensures Sound(entries[id := Leaf(Download(info, Stored(data)))])
  {
    assert Stored(Stored(data)) == Stored(data);
  }

  lemma OnlyThatKey(doc: Document<Value>, k: string, v: Node<Value>)
    ensures doc[k := v] - {k} == doc - {k}
  {
  }

  class DownloadManagerLocalStorage {
    const store: ElectronStore<Value>

    constructor (store: ElectronStore<Value>)
      ensures this.store == store
    {
      this.store := store;
    }

    const nk: string := store.network + "-" + DOWNLOAD_MANAGER

    function Downloads(): Entries
      reads store
    {
      EntriesIn(store.doc, store.network)
    }

    ghost predicate Valid()
      reads store
    {
      DotFree(store.network) && Sound(Downloads()) && PlainIds(Downloads())
    }

    /** Nothing outside the downloads changed. */
    twostate predicate OthersKept()
      reads store
    {
      store.doc - {nk} == old(store.doc) - {nk}
    }

    method Get(id: string) returns (info: Option<Info>, data: Option<Data>)
      requires Valid() && DotFree(id) && id != ""
      modifies store
      ensures store.doc == old(store.doc)
      ensures id in Downloads() <==> data.Some?
      ensures data.Some? ==> Downloads()[id] == Leaf(Download(info, data.value))
      ensures data.None? ==> info.None?
    {
      EntryPath(store.doc, store.network, id);
      var r := store.RequestElectronStore(Request.Get, DOWNLOAD_MANAGER, id);
      info, data := None, None;
      if r.Some? {
        info, data := r.value.value.info, Some(r.value.value.data);
      }
    }

    method GetAll() returns (r: Entries)
      requires Valid()
      modifies store
      ensures store.doc == old(store.doc)
      ensures r == Downloads()
    {
      KeysAreDotFree(store.network);
      PathOfKey(store.network, DOWNLOAD_MANAGER, "");
      ShortPaths(store.doc, nk, "");
      var whole := store.RequestElectronStore(Request.Get, DOWNLOAD_MANAGER, "");
      r := if whole.Some? && whole.value.Branch? then whole.value.children else map[];
    }

    method SetInfo(info: Info, id: string)
      requires Valid() && DotFree(id) && id != ""
      modifies store
      ensures Valid() && OthersKept()
      ensures Downloads() == old(Downloads())[id := Leaf(Download(Some(info), DOWNLOAD_DATA_DEFAULT))]
    {
      EntryPath(store.doc, store.network, id);
      var data := DOWNLOAD_DATA_DEFAULT;
      assert Stored(data) == data;
      var entry := Leaf(Download(Some(info), data));
      SetStaysSound(Downloads(), id, Some(info), data);
      OnlyThatKey(store.doc, nk, Branch(Downloads()[id := entry]));
      var _ := store.RequestElectronStore(Request.Set(entry), DOWNLOAD_MANAGER, id);
    }

    method SetData(update: Data, id: string) returns (data: Data)
      requires Valid() && DotFree(id) && id != ""
      modifies store
      ensures Valid() && OthersKept()
      ensures data == Merge(DataOf(old(Downloads()), id), update)
      ensures Downloads() == Updated(old(Downloads()), id, update)
    {
      var info, oldData := Get(id);
      data := Merge(if oldData.Some? then oldData.value else map[], update);
      EntryPath(store.doc, store.network, id);
      var entry := Leaf(Download(info, Stored(data)));
      SetStaysSound(Downloads(), id, info, data);
      OnlyThatKey(store.doc, nk, Branch(Downloads()[id := entry]));
      var _ := store.RequestElectronStore(Request.Set(entry), DOWNLOAD_MANAGER, id);
    }

    /** The sweep visits the entries it found at the start, in the order the store lists them. */
    method SetAllPaused(order: seq<string>)
      requires Valid()
      requires multiset(order) == multiset(Downloads().Keys)
      modifies store
      ensures Valid() && OthersKept()
      ensures Downloads() == AllPaused(old(Downloads()))
    {
      var downloads := GetAll();
      ghost var done: set<string> := {};
      var index := 0;
      EachOnce(order, downloads.Keys);
      assert Downloads() == Swept(downloads, done);
      while index < |order|
        invariant 0 <= index <= |order|
        invariant Valid() && OthersKept()
        invariant Downloads() == Swept(downloads, done)
        invariant forall i :: 0 <= i < index ==> order[i] in done
        invariant forall i :: index <= i < |order| ==> order[i] !in done
      {
        var downloadId := order[index];
        SweepStep(downloads, done, downloadId);
        if Active(downloads[downloadId].value.data) {
          var _ := SetData(PAUSE, downloadId);
        }
        done := done + {downloadId};
        index := index + 1;
      }
    }

    /** A download is forgotten with the mark of a failed update. Taking out a key that is not there may take a
        bracketed one for a path. */
    method Unset(id: string)
      requires Valid() && DotFree(id) && ('[' !in id || id in Downloads())
      modifies store
      ensures Valid()
      ensures Downloads() == old(Downloads()) - {id}
      ensures var fk := store.network + "-" + APP_AUTOMATIC_UPDATE_FAILED;
              store.doc - {nk} == old(store.doc) - {nk, fk}
    {
      KeysAreDotFree(store.network);
      PathOfKey(store.network, DOWNLOAD_MANAGER, "");
      PathOfKey(store.network, APP_AUTOMATIC_UPDATE_FAILED, "");
      var localDownloadsData := GetAll();
      var _ := store.RequestElectronStore(Request.Set(Branch(localDownloadsData - {id})), DOWNLOAD_MANAGER, "");
      var _ := store.RequestElectronStore(Request.Delete, APP_AUTOMATIC_UPDATE_FAILED, "");
    }
  }

  /** Midway through the sweep. */
  function Swept(entries: Entries, done: set<string>): Entries
    requires Sound(entries)
  {
    map id | id in entries :: if id in done then AllPaused(entries)[id] else entries[id]
  }

  lemma SweepStep(entries: Entries, done: set<string>, id: string)
    requires Sound(entries) && id in entries && id !in done
    ensures Sound(Swept(entries, done))
    ensures Swept(entries, done + {id}) ==
            if Active(entries[id].value.data) then Updated(Swept(entries, done), id, PAUSE) else Swept(entries, done)
  {
    forall k | k in entries
      ensures Stored(PausedData(entries[k].value.data)) == PausedData(entries[k].value.data)
    {
      StoredHasNoNaN(entries[k].value.data);
    }
    if Active(entries[id].value.data) {
      PauseMerges(entries[id].value.data);
    }
  }

  lemma StoredHasNoNaN(data: Data)
    requires Stored(data) == data
    ensures forall k <- data :: !data[k].NotANumber?
    ensures Stored(PausedData(data)) == PausedData(data)
  {
    forall k | k in data
      ensures !data[k].NotANumber?
    {
      assert Stored(data)[k] == data[k];
    }
  }

  lemma EachOnce(order: seq<string>, keys: set<string>)
    requires multiset(order) == multiset(keys)
    ensures forall i :: 0 <= i < |order| ==> order[i] in keys
    ensures forall i, j :: 0 <= i < j < |order| ==> order[i] != order[j]
    ensures forall id <- keys :: id in order
  {
    forall i | 0 <= i < |order|
      ensures order[i] in keys
    {
      assert order[i] in multiset(order);
    }
    forall i, j | 0 <= i < j < |order|
      ensures order[i] != order[j]
    {
      assert multiset(keys)[order[j]] <= 1;
      if order[i] == order[j] {
        CountedTwice(order, i, j);
      }
    }
    forall id | id in keys
      ensures id in order
    {
      assert id in multiset(order);
    }
  }

  lemma PauseMerges(data: Data)
    requires Stored(data) == data && Active(data)
    ensures Stored(Merge(data, PAUSE)) == PausedData(data)
  {
    StoredHasNoNaN(data);
  }
}
