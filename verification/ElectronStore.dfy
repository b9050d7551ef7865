/** The persisted key/value document: `requestElectronStore` (source/main/ipc/electronStoreConversation.js) over a store
    whose keys are dot paths into nested objects. */
module ElectronStores {
  import opened Wrappers

  /** A JSON value, as far as dot paths look into it. */
  datatype Node<V> = Leaf(value: V) | Branch(children: map<string, Node<V>>)

  type Document<V> = map<string, Node<V>>

  function Split(path: string): (segments: seq<string>)
    ensures |segments| > 0
  {
    if path == "" then [""]
    else
      var rest := Split(path[1..]);
      if path[0] == '.' then [""] + rest else [[path[0]] + rest[0]] + rest[1..]
  }

  // What the store library does with the segments of a path.

  function GetPath<V>(doc: Document<V>, path: seq<string>): Option<Node<V>>
    decreases |path|
  {
    if path == [] || path[0] !in doc then None
    else if |path| == 1 then Some(doc[path[0]])
    else match doc[path[0]]
      case Branch(children) => GetPath(children, path[1..])
      case Leaf(_) => None
  }

  function ChildrenOf<V>(doc: Document<V>, key: string): Document<V> {
    if key in doc && doc[key].Branch? then doc[key].children else map[]
  }

  function SetPath<V>(doc: Document<V>, path: seq<string>, v: Node<V>): Document<V>
    decreases |path|
  {
    if path == [] then doc
    else if |path| == 1 then doc[path[0] := v]
    else doc[path[0] := Branch(SetPath(ChildrenOf(doc, path[0]), path[1..], v))]
  }

  function DeletePath<V>(doc: Document<V>, path: seq<string>): Document<V>
    decreases |path|
  {
    if path == [] then doc
    else if |path| == 1 then doc - {path[0]}
    else if path[0] in doc && doc[path[0]].Branch?
      then doc[path[0] := Branch(DeletePath(doc[path[0]].children, path[1..]))]
    else doc
  }

  /** `${network}-${key}`, with `.${id}` when there is an id; an empty id is no id. */
  function NetworkKey(network: string, key: string, id: string): string {
    network + "-" + (if id != "" then key + "." + id else key)
  }

  datatype Request<V> = Get | Set(data: Node<V>) | Delete

  class ElectronStore<V> {
    var doc: Document<V>
    const network: string

    constructor (network: string, doc: Document<V>)
      ensures this.network == network && this.doc == doc
    {
      this.network, this.doc := network, doc;
    }

    method RequestElectronStore(request: Request<V>, key: string, id: string) returns (r: Option<Node<V>>)
      modifies this
      ensures r == if request.Get? then GetPath(old(doc), Split(NetworkKey(network, key, id))) else None
      ensures doc == (match request
                      case Get => old(doc)
                      case Set(data) => SetPath(old(doc), Split(NetworkKey(network, key, id)), data)
                      case Delete => DeletePath(old(doc), Split(NetworkKey(network, key, id))))
    {
      var path := Split(NetworkKey(network, key, id));
      r := None;
      match request {
        case Get => r := GetPath(doc, path);
        case Set(data) => doc := SetPath(doc, path, data);
        case Delete => doc := DeletePath(doc, path);
      }
    }
  }

  // The document as a flat map.

  predicate DotFree(s: string) {
    '.' !in s
  }

  /** `getIdFromFileName` (source/main/utils/downloadManager.js): dots become dashes. */
  function GetIdFromFileName(fileName: string): string {
    if fileName == "" then "" else [if fileName[0] == '.' then '-' else fileName[0]] + GetIdFromFileName(fileName[1..])
  }

  lemma {:induction false} IdsAreDotFree(fileName: string)
    ensures DotFree(GetIdFromFileName(fileName))
    ensures GetIdFromFileName(fileName) == "" <==> fileName == ""
    ensures DotFree(fileName) ==> GetIdFromFileName(fileName) == fileName
  {
    if fileName != "" {
      IdsAreDotFree(fileName[1..]);
    }
  }

  lemma {:induction false} SplitDotFree(s: string)
    requires DotFree(s)
    ensures Split(s) == [s]
  {
    if s != "" {
      SplitDotFree(s[1..]);
      assert s[0] in s && [s[0]] + s[1..] == s;
    }
  }

  lemma {:induction false} SplitHead(a: string, rest: string)
    requires DotFree(a)
    ensures Split(a + "." + rest) == [a] + Split(rest)
  {
    var s := a + "." + rest;
    if a == "" {
      assert s[1..] == rest;
    } else {
      assert s[0] == a[0] && a[0] in a;
      assert s[1..] == a[1..] + "." + rest;
      SplitHead(a[1..], rest);
      assert [a[0]] + a[1..] == a;
      assert ([a[1..]] + Split(rest))[1..] == Split(rest);
    }
  }

  lemma SplitOnce(a: string, b: string)
    requires DotFree(a) && DotFree(b)
    ensures Split(a + "." + b) == [a, b]
  {
    SplitHead(a, b);
    SplitDotFree(b);
  }

  /** Where a request goes: to a whole entry, or to one member of it. */
  lemma PathOfKey(network: string, key: string, id: string)
    requires DotFree(network) && DotFree(key) && DotFree(id)
    ensures Split(NetworkKey(network, key, id)) == if id == "" then [network + "-" + key] else [network + "-" + key, id]
  {
    var nk := network + "-" + key;
    if id == "" {
      SplitDotFree(nk);
    } else {
      assert NetworkKey(network, key, id) == nk + "." + id;
      SplitOnce(nk, id);
    }
  }

  /** The value stored for a key and an id; without an id, for the key as a whole. */
  function Lookup<V>(doc: Document<V>, network: string, key: string, id: string): Option<Node<V>> {
    GetPath(doc, Split(NetworkKey(network, key, id)))
  }

  lemma DistinctKeysDistinctPaths(network: string, key: string, key': string)
    ensures network + "-" + key == network + "-" + key' ==> key == key'
  {
    assert (network + "-" + key)[|network| + 1..] == key;
    assert (network + "-" + key')[|network| + 1..] == key';
  }

  /** Paths of one and two segments, in terms of the members of the first. */
  lemma ShortPaths<V>(doc: Document<V>, k: string, id: string)
    ensures GetPath(doc, [k]) == if k in doc then Some(doc[k]) else None
    ensures GetPath(doc, [k, id]) == if id in ChildrenOf(doc, k) then Some(ChildrenOf(doc, k)[id]) else None
    ensures forall v :: SetPath(doc, [k, id], v) == doc[k := Branch(ChildrenOf(doc, k)[id := v])]
    ensures DeletePath(doc, [k, id]) ==
            if id in ChildrenOf(doc, k) then doc[k := Branch(ChildrenOf(doc, k) - {id})] else doc
  {
    assert [k, id][1..] == [id];
    if id !in ChildrenOf(doc, k) && k in doc && doc[k].Branch? {
      assert ChildrenOf(doc, k) - {id} == ChildrenOf(doc, k);
      assert doc[k := Branch(doc[k].children)] == doc;
    }
  }

  /** A value set under a key and an id is what is read back, every other (key, id) reads as before, and the members of
      the key are the old ones and the new one. */
  lemma SetBehavesFlat<V>(doc: Document<V>, network: string, key: string, id: string, v: Node<V>, key': string,
          id': string)
    requires DotFree(network) && DotFree(key) && DotFree(id) && DotFree(key') && DotFree(id')
    requires id != "" && id' != ""
    ensures var doc' := SetPath(doc, Split(NetworkKey(network, key, id)), v);
            && Lookup(doc', network, key, id) == Some(v)
            && ((key', id') != (key, id) ==> Lookup(doc', network, key', id') == Lookup(doc, network, key', id'))
            && ChildrenOf(doc', network + "-" + key) == ChildrenOf(doc, network + "-" + key)[id := v]
            && (key' != key ==> Lookup(doc', network, key', "") == Lookup(doc, network, key', ""))
  {
    PathOfKey(network, key, id);
    PathOfKey(network, key', id');
    PathOfKey(network, key', "");
    DistinctKeysDistinctPaths(network, key, key');
    var doc' := SetPath(doc, [network + "-" + key, id], v);
    ShortPaths(doc, network + "-" + key, id);
    ShortPaths(doc, network + "-" + key', id');
    ShortPaths(doc', network + "-" + key, id);
    ShortPaths(doc', network + "-" + key', id');
  }

  /** A value deleted reads as absent, and every other (key, id) reads as before. */
  lemma DeleteBehavesFlat<V>(doc: Document<V>, network: string, key: string, id: string, key': string, id': string)
    requires DotFree(network) && DotFree(key) && DotFree(id) && DotFree(key') && DotFree(id')
    ensures var doc' := DeletePath(doc, Split(NetworkKey(network, key, id)));
            && Lookup(doc', network, key, id) == None
            && (key' != key || (id' != id && id != "" && id' != "") ==>
                Lookup(doc', network, key', id') == Lookup(doc, network, key', id'))
  {
    PathOfKey(network, key, id);
    PathOfKey(network, key', id');
    DistinctKeysDistinctPaths(network, key, key');
    var doc' := DeletePath(doc, Split(NetworkKey(network, key, id)));
    ShortPaths(doc, network + "-" + key, id);
    ShortPaths(doc, network + "-" + key', id');
    ShortPaths(doc', network + "-" + key, id);
    ShortPaths(doc', network + "-" + key', id');
  }

  /** An id with a dot in it reaches into another id's value and replaces it: this is what the dashes are for. */
  lemma DottedIdsInterfere<V>(x: V, v: Node<V>)
    ensures var doc: Document<V> := map["n-k" := Branch(map["a" := Leaf(x)])];
            && Lookup(doc, "n", "k", "a") == Some(Leaf(x))
            && Lookup(SetPath(doc, Split(NetworkKey("n", "k", "a.b")), v), "n", "k", "a") == Some(Branch(map["b" := v]))
  {
    PathOfKey("n", "k", "a");
    assert NetworkKey("n", "k", "a.b") == "n-k" + "." + "a.b";
    SplitHead("n-k", "a.b");
    assert "a.b" == "a" + "." + "b";
    SplitOnce("a", "b");
    var path := ["n-k", "a", "b"];
    assert Split(NetworkKey("n", "k", "a.b")) == path;
    assert path[1..] == ["a", "b"] && path[1..][1..] == ["b"];
    assert "n" + "-" + "k" == "n-k" && ["n-k", "a"][1..] == ["a"];
  }

  lemma HyphenPosition(network: string, key: string, i: nat)
    requires '-' !in network && i <= |network|
    ensures (network + "-" + key)[i] == '-' <==> i == |network|
  {
    if i < |network| {
      assert network[i] in network;
    }
  }

  lemma FirstHyphen(network: string, network': string, key: string, key': string)
    requires '-' !in network && '-' !in network' && network + "-" + key == network' + "-" + key'
    ensures network == network' && key == key'
  {
    var s, n, n' := network + "-" + key, |network|, |network'|;
    HyphenPosition(network, key, if n < n' then n else n');
    HyphenPosition(network', key', if n < n' then n else n');
    assert network == s[..n] && network' == s[..n'] && key == s[n + 1..] && key' == s[n' + 1..];
  }

  /** Sessions on different networks never touch each other's entries, as the network names contain no hyphen. */
  lemma NetworksAreApart<V>(doc: Document<V>, network: string, key: string, id: string, v: Node<V>,
                            network': string, key': string, id': string)
    requires DotFree(network) && DotFree(key) && DotFree(id) && DotFree(network') && DotFree(key') && DotFree(id')
    requires '-' !in network && '-' !in network' && network != network'
    ensures Lookup(SetPath(doc, Split(NetworkKey(network, key, id)), v), network', key', id') ==
            Lookup(doc, network', key', id')
    ensures Lookup(DeletePath(doc, Split(NetworkKey(network, key, id))), network', key', id') ==
            Lookup(doc, network', key', id')
  {
    PathOfKey(network, key, id);
    PathOfKey(network', key', id');
    if network + "-" + key == network' + "-" + key' {
      FirstHyphen(network, network', key, key');
    }
  }
}
