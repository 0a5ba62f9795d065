/**
 * The data-wipe page (app/routes/wipe.tsx): it lists the blob store, and
 * `handleDelete` deletes every listed file, flushes the key-value store and
 * lists the store again.
 */
module Wipe {
  import opened Wrappers
  import opened Records
  import opened Puter
  import Auth

  const WipeRoute: string := "/wipe"
  const AuthWipeRoute: string := "/auth?next=/wipe"

  /** A call the page makes on the stores. */
  datatype StoreCall = DeleteCall(path: Path) | FlushCall | ReadDirCall

  function DeleteCalls(ps: seq<Path>): (calls: seq<StoreCall>)
    ensures |calls| == |ps|
    ensures forall i | 0 <= i < |ps| :: calls[i] == DeleteCall(ps[i])
  {
    if ps == [] then [] else [DeleteCall(ps[0])] + DeleteCalls(ps[1..])
  }

  /** The redirect effect: unauthenticated once auth has loaded, go to sign-in and come back here. */
  function WipeRedirect(isLoading: bool, isAuthenticated: bool): (nav: Option<Navigation>)
    ensures nav.Some? <==> !isLoading && !isAuthenticated
    ensures nav.Some? ==> nav.value == Navigation(AuthWipeRoute, true)
  {
    if !isLoading && !isAuthenticated then Some(Navigation(AuthWipeRoute, true)) else None
  }

  /** The redirect's `next` is "/wipe", which the sign-in page accepts and returns to. */
  lemma RedirectReturnsHere()
    ensures AuthWipeRoute == "/auth?next=" + WipeRoute
    ensures Auth.IsValidRedirect(Some(WipeRoute)) && Auth.NextUrl(Some(WipeRoute)) == WipeRoute
  {
    assert WipeRoute[0] == '/' && WipeRoute[1] == 'w';
  }

  class WipePage {
    const fs: BlobStore
    const kv: KvStore

    /** The `files` state: the listing last loaded. */
    var files: seq<FsItem>
    /** Every store call made so far, in order. */
    ghost var calls: seq<StoreCall>

    constructor (fs: BlobStore, kv: KvStore)
      ensures this.fs == fs && this.kv == kv && files == [] && calls == []
    {
      this.fs := fs;
      this.kv := kv;
      files := [];
      calls := [];
    }

    /** `loadFiles`: list the store's root directory. */
    method LoadFiles()
      modifies this`files, this`calls
      ensures files == Listing(fs.entries)
      ensures calls == old(calls) + [ReadDirCall]
    {
      calls := calls + [ReadDirCall];
      files := fs.ReadDir();
    }

    /** The `Promise.all` of deletes, one path after the other. */
    method DeleteAll(ps: seq<Path>)
      requires fs.Valid()
      modifies this`calls, fs
      ensures fs.Valid()
      ensures fs.entries == RemoveAll(old(fs.entries), ps)
      ensures calls == old(calls) + DeleteCalls(ps)
    {
      var i := 0;
      while i < |ps|
        invariant 0 <= i <= |ps|
        invariant fs.Valid()
        invariant fs.entries == RemoveAll(old(fs.entries), ps[..i])
        invariant calls == old(calls) + DeleteCalls(ps[..i])
      {
        fs.Delete(ps[i]);
        calls := calls + [DeleteCall(ps[i])];
        assert ps[..i + 1] == ps[..i] + [ps[i]];
        RemoveAllSnoc(old(fs.entries), ps[..i], ps[i]);
        DeleteCallsSnoc(ps[..i], ps[i]);
        i := i + 1;
      }
      assert ps[..i] == ps;
    }

    /**
     * `handleDelete`: delete the path of every listed file, only then flush
     * the key-value store, then reload the listing.
     */
    method HandleDelete()
      requires fs.Valid()
      modifies this`files, this`calls, fs, kv
      ensures fs.Valid()
      ensures fs.entries == RemoveAll(old(fs.entries), ItemPaths(old(files)))
      ensures kv.records == map[]
      ensures calls == old(calls) + DeleteCalls(ItemPaths(old(files))) + [FlushCall, ReadDirCall]
      ensures files == Listing(fs.entries)
    {
      DeleteAll(ItemPaths(files));
      calls := calls + [FlushCall];
      kv.Flush();
      LoadFiles();
    }
  }

  /** Deleting one more path after a batch is the batch extended by that path. */
  lemma {:induction false} RemoveAllSnoc(es: seq<Entry>, ps: seq<Path>, p: Path)
    ensures RemoveAll(es, ps + [p]) == Remove(RemoveAll(es, ps), p)
    decreases |ps|
  {
    if ps != [] {
      assert (ps + [p])[1..] == ps[1..] + [p];
      RemoveAllSnoc(Remove(es, ps[0]), ps[1..], p);
    }
  }

  lemma DeleteCallsSnoc(ps: seq<Path>, p: Path)
    ensures DeleteCalls(ps + [p]) == DeleteCalls(ps) + [DeleteCall(p)]
  {
  }

  /**
   * Every listed path is gone afterwards, every other blob is untouched, and
   * when the listing was current the store ends empty.
   */
  lemma WipeEffect(entries: seq<Entry>, files: seq<FsItem>)
    ensures forall item | item in files :: Find(RemoveAll(entries, ItemPaths(files)), item.path).None?
    ensures forall p | p !in ItemPaths(files) :: Find(RemoveAll(entries, ItemPaths(files)), p) == Find(entries, p)
    ensures files == Listing(entries) ==> RemoveAll(entries, ItemPaths(files)) == [] && Listing([]) == []
  {
    RemoveAllEffect(entries, ItemPaths(files));
    forall item | item in files
      ensures item.path in ItemPaths(files)
    {
      var i :| 0 <= i < |files| && files[i] == item;
      assert ItemPaths(files)[i] == item.path;
    }
    if files == Listing(entries) {
      DeleteListingEmpties(entries);
    }
  }
}
