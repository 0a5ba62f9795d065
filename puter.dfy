/**
 * The hosted services the pages talk to, as state: a blob store (a directory
 * of named files, listed in order), a key-value store of submission records,
 * and the browser's registry of object URLs.
 */
module Puter {
  import opened Wrappers
  import opened Records

  /** An item of a directory listing (`FSItem`). */
  datatype FsItem = FsItem(path: Path, name: string)

  /** A stored file. */
  datatype Entry = Entry(path: Path, name: string, bytes: Bytes)

  function Paths(es: seq<Entry>): set<Path>
  {
    if es == [] then {} else {es[0].path} + Paths(es[1..])
  }

  /** No path is stored twice. */
  predicate DistinctPaths(es: seq<Entry>)
  {
    es == [] || (es[0].path !in Paths(es[1..]) && DistinctPaths(es[1..]))
  }

  /** `fs.read(path)`: the contents stored under `path`, or nothing. */
  function Find(es: seq<Entry>, p: Path): (r: Option<Bytes>)
    ensures r.Some? <==> p in Paths(es)
  {
    if es == [] then None
    else if es[0].path == p then Some(es[0].bytes)
    else Find(es[1..], p)
  }

  /**
   * Storing a file under a path: an existing entry for that path is replaced
   * where it stands, otherwise the entry is added at the end of the listing.
   */
  function Put(es: seq<Entry>, e: Entry): (r: seq<Entry>)
    ensures Paths(r) == Paths(es) + {e.path}
    ensures Find(r, e.path) == Some(e.bytes)
    ensures forall q | q != e.path :: Find(r, q) == Find(es, q)
    ensures DistinctPaths(es) ==> DistinctPaths(r)
  {
    if es == [] then [e]
    else if es[0].path == e.path then [e] + es[1..]
    else [es[0]] + Put(es[1..], e)
  }

  /** `fs.delete(path)`: every entry for the path goes, the others stay in order. */
  function Remove(es: seq<Entry>, p: Path): (r: seq<Entry>)
    ensures Paths(r) == Paths(es) - {p}
    ensures forall q :: Find(r, q) == if q == p then None else Find(es, q)
    ensures DistinctPaths(es) ==> DistinctPaths(r)
  {
    if es == [] then []
    else if es[0].path == p then Remove(es[1..], p)
    else [es[0]] + Remove(es[1..], p)
  }

  /** Deleting the paths one after the other. */
  function RemoveAll(es: seq<Entry>, ps: seq<Path>): seq<Entry>
    decreases |ps|
  {
    if ps == [] then es else RemoveAll(Remove(es, ps[0]), ps[1..])
  }

  /** After deleting `ps`, exactly the paths in `ps` are gone and every other blob is as it was. */
  lemma {:induction false} RemoveAllEffect(es: seq<Entry>, ps: seq<Path>)
    ensures Paths(RemoveAll(es, ps)) == Paths(es) - set p | p in ps
    ensures forall q :: Find(RemoveAll(es, ps), q) == if q in ps then None else Find(es, q)
    ensures DistinctPaths(es) ==> DistinctPaths(RemoveAll(es, ps))
    decreases |ps|
  {
    if ps != [] {
      RemoveAllEffect(Remove(es, ps[0]), ps[1..]);
      assert forall q :: q in ps <==> q == ps[0] || q in ps[1..];
    }
  }

  /** `fs.readDir`: the listing, in directory order. */
  function Listing(es: seq<Entry>): (items: seq<FsItem>)
    ensures |items| == |es|
    ensures forall i | 0 <= i < |es| :: items[i] == FsItem(es[i].path, es[i].name)
  {
    if es == [] then [] else [FsItem(es[0].path, es[0].name)] + Listing(es[1..])
  }

  function ItemPaths(items: seq<FsItem>): (ps: seq<Path>)
    ensures |ps| == |items|
    ensures forall i | 0 <= i < |items| :: ps[i] == items[i].path
  {
    seq(|items|, i requires 0 <= i < |items| => items[i].path)
  }

  lemma {:induction false} InPathsOfListing(es: seq<Entry>, p: Path)
    ensures p in Paths(es) <==> p in ItemPaths(Listing(es))
  {
    if es != [] {
      InPathsOfListing(es[1..], p);
      var ps := ItemPaths(Listing(es));
      var rest := ItemPaths(Listing(es[1..]));
      assert ps[0] == es[0].path;
      if p in rest {
        var i :| 0 <= i < |rest| && rest[i] == p;
        assert ps[i + 1] == p;
      }
      if p in ps {
        var i :| 0 <= i < |ps| && ps[i] == p;
        if i > 0 {
          assert rest[i - 1] == p;
        }
      }
    }
  }

  /** Deleting every path of the current listing empties the directory. */
  lemma DeleteListingEmpties(es: seq<Entry>)
    ensures RemoveAll(es, ItemPaths(Listing(es))) == []
  {
    var r := RemoveAll(es, ItemPaths(Listing(es)));
    RemoveAllEffect(es, ItemPaths(Listing(es)));
    forall p | p in Paths(es)
      ensures p in ItemPaths(Listing(es))
    {
      InPathsOfListing(es, p);
    }
    assert Paths(r) == {};
  }

  /** The blob store (`fs`): one directory of files. */
  class BlobStore {
    var entries: seq<Entry>

    ghost predicate Valid()
      reads this
    {
      DistinctPaths(entries)
    }

    constructor (initial: seq<Entry>)
      requires DistinctPaths(initial)
      ensures Valid() && entries == initial
    {
      entries := initial;
    }

    function Read(path: Path): Option<Bytes>
      reads this
    {
      Find(entries, path)
    }

    function ReadDir(): seq<FsItem>
      reads this
    {
      Listing(entries)
    }

    /** The effect of an upload that the store answered with `path`. */
    method Store(path: Path, file: File)
      requires Valid()
      modifies this
      ensures Valid()
      ensures entries == Put(old(entries), Entry(path, file.name, file.bytes))
    {
      entries := Put(entries, Entry(path, file.name, file.bytes));
    }

    method Delete(path: Path)
      requires Valid()
      modifies this
      ensures Valid()
      ensures entries == Remove(old(entries), path)
    {
      entries := Remove(entries, path);
    }
  }

  /** The key-value store (`kv`), holding submission records by key. */
  class KvStore {
    var records: map<string, ResumeRecord>

    constructor (initial: map<string, ResumeRecord>)
      ensures records == initial
    {
      records := initial;
    }

    function Get(key: string): Option<ResumeRecord>
      reads this
    {
      if key in records then Some(records[key]) else None
    }

    method Set(key: string, record: ResumeRecord)
      modifies this
      ensures records == old(records)[key := record]
    {
      records := records[key := record];
    }

    method Flush()
      modifies this
      ensures records == map[]
    {
      records := map[];
    }
  }

  /** A handle made by `URL.createObjectURL`. */
  datatype Url = ObjectUrl(serial: nat)

  /**
   * The browser's object-URL registry: the live handles and the blob each one
   * stands for. Every handle ever issued has a serial below `issued`, so a new
   * handle never equals an earlier one.
   */
  class UrlRegistry {
    var live: map<Url, Bytes>
    var issued: nat

    ghost predicate Valid()
      reads this
    {
      forall u | u in live :: u.serial < issued
    }

    constructor ()
      ensures Valid() && live == map[] && issued == 0
    {
      live := map[];
      issued := 0;
    }

    method Create(blob: Bytes) returns (u: Url)
      requires Valid()
      modifies this
      ensures Valid()
      ensures u == ObjectUrl(old(issued)) && u !in old(live)
      ensures live == old(live)[u := blob] && issued == old(issued) + 1
    {
      u := ObjectUrl(issued);
      live := live[u := blob];
      issued := issued + 1;
    }

    method Revoke(u: Url)
      requires Valid()
      modifies this
      ensures Valid()
      ensures live == old(live) - {u} && issued == old(issued)
    {
      live := live - {u};
    }
  }
}
