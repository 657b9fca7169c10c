/** The freecache adapter (pkg/state/free_cache_state_store.go): the library's not-found
    error becomes `ErrStateStoreKeyNotExist`, deletes never fail, and `Keys` walks the
    library's entry iterator. */
module FreeCache {
  import opened Base
  import opened StateStore
  import opened Cache

  /** `Get`: a miss is the contract's miss, and any other library error passes through as it is. */
  function FreeGet(v: StoreView, key: string): (r: Result<seq<byte>>)
    ensures r.Ok? <==> ViewGet(v, key).Ok?
    ensures r.Ok? ==> r.value == v.data[key]
    ensures r == Err(KeyNotExist) <==> ViewGet(v, key) == Err(KeyNotExist)
    ensures r.Err? && r.error != KeyNotExist ==> r.error == Raw(LibFault)
  {
    match LibGet(v, key)
    case Value(bytes) => Ok(bytes)
    case Failure(NotFound) => Err(KeyNotExist)
    case Failure(e) => Err(Raw(e))
  }

  /** `Keys(limit)`: at most `limit` keys (the entry count when `limit` is 0) in iteration
      order; it never fails. */
  function FreeKeys(v: StoreView, limit: int): seq<string> {
    var l := if limit == 0 then |v.data| else limit;
    v.listing[..if l <= 0 then 0 else if l < |v.listing| then l else |v.listing|]
  }

  /** On a well-formed store that can list its keys, `Keys` is the contract's `Keys`. */
  lemma {:induction false} FreeKeysConforms(v: StoreView, limit: int)
    requires ViewValid(v) && !v.keysFail
    ensures ViewKeys(v, limit) == Ok(FreeKeys(v, limit))
  {
    ListingCountsEntries(v);
  }

  /** Deleting twice is deleting once, and a delete leaves the contract's miss behind. */
  lemma {:induction false} FreeDeleteIdempotent(v: StoreView, key: string)
    requires key !in v.failing
    ensures LibDel(LibDel(v, key).0, key).0 == LibDel(v, key).0
    ensures FreeGet(LibDel(v, key).0, key) == Err(KeyNotExist)
  {
    var once := ViewDelete(v, key).0;
    var twice := ViewDelete(once, key).0;
    WithoutAbsent(once.listing, key);
    assert twice.data == once.data && twice.expiry == once.expiry && twice.listing == once.listing;
  }

  lemma {:induction false} WithoutAbsent(s: seq<string>, x: string)
    requires x !in s
    ensures Without(s, x) == s
  {
    if s != [] {
      WithoutAbsent(s[1..], x);
    }
  }

  class FreeCacheStateStore {
    var cli: StoreView

    ghost predicate Valid()
      reads this
    {
      ViewValid(cli)
    }

    /** `NewFreeCacheStateStore`: an empty cache; it never fails. `failing` and `keysFail`
        stand for the library's own failures. */
    constructor (failing: set<string>, keysFail: bool)
      ensures Valid() && cli == StoreView(map[], map[], [], failing, keysFail)
    {
      cli := StoreView(map[], map[], [], failing, keysFail);
    }

    method Get(key: string) returns (r: Result<seq<byte>>)
      ensures r == FreeGet(cli, key)
    {
      var res := LibGet(cli, key);
      if res == Failure(NotFound) {
        return Err(KeyNotExist);
      } else if res.Failure? {
        return Err(Raw(res.error));
      } else {
        return Ok(res.value);
      }
    }

    /** `Put`: a set with no expiry. */
    method Put(key: string, value: seq<byte>) returns (err: Option<Error>)
      requires Valid()
      modifies this
      ensures Valid()
      ensures cli == ViewPut(old(cli), key, value, 0).0
      ensures err.Some? <==> key in old(cli).failing
    {
      PutKeepsValid(cli, key, value, 0);
      var (next, e) := LibSet(cli, key, value, 0);
      cli := next;
      err := if e.Some? then Some(Raw(e.value)) else None;
    }

    method PutWithExpireTime(key: string, value: seq<byte>, expireSeconds: int) returns (err: Option<Error>)
      requires Valid()
      modifies this
      ensures Valid()
      ensures cli == ViewPut(old(cli), key, value, expireSeconds).0
      ensures err.Some? <==> key in old(cli).failing
    {
      PutKeepsValid(cli, key, value, expireSeconds);
      var (next, e) := LibSet(cli, key, value, expireSeconds);
      cli := next;
      err := if e.Some? then Some(Raw(e.value)) else None;
    }

    /** `Delete`: the library's reply is dropped, so a delete never fails. */
    method Delete(key: string) returns (err: Option<Error>)
      requires Valid()
      modifies this
      ensures Valid()
      ensures cli == LibDel(old(cli), key).0
      ensures err.None?
    {
      DeleteKeepsValid(cli, key);
      cli := LibDel(cli, key).0;
      err := None;
    }

    /** `Keys`: takes up to `l` entries from a fresh iterator and stops early when it is
        exhausted. */
    method Keys(limit: int) returns (r: Result<seq<string>>)
      ensures r == Ok(FreeKeys(cli, limit))
    {
      var keys: seq<string> := [];
      var l := limit;
      if l == 0 {
        l := |cli.data|;
      }
      var next := 0;   // the iterator: the position of the entry `Next` returns
      var i := 0;
      while i < l
        invariant 0 <= i && i == next <= |cli.listing|
        invariant l > 0 ==> i <= l
        invariant l <= 0 ==> i == 0
        invariant keys == cli.listing[..i]
      {
        if next == |cli.listing| {
          break;
        }
        keys := keys + [cli.listing[next]];
        next := next + 1;
        i := i + 1;
      }
      return Ok(keys);
    }
  }
}
