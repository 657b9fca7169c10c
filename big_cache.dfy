/** The bigcache adapter (pkg/state/big_cache_state_store.go). The library's entry-not-found
    error becomes `ErrStateStoreKeyNotExist` on `Get` only. `Put` and `Delete` return the
    library's errors unfiltered. `PutWithExpireTime` panics. `Keys` walks the library's
    entry iterator, which is created before its first entry: reading an entry is valid only
    once `SetNext` has moved the iterator onto one. */
module BigCache {
  import opened Base
  import opened StateStore
  import opened Cache

  /** `Get`: a miss is the contract's miss; other library errors are wrapped. */
  function BigGet(v: StoreView, key: string): (r: Result<seq<byte>>)
    ensures r.Ok? <==> ViewGet(v, key).Ok?
    ensures r.Ok? ==> r.value == v.data[key]
    ensures r == Err(KeyNotExist) <==> ViewGet(v, key) == Err(KeyNotExist)
    ensures r.Err? && r.error != KeyNotExist ==> r.error.Wrapped?
  {
    match LibGet(v, key)
    case Value(bytes) => Ok(bytes)
    case Failure(NotFound) => Err(KeyNotExist)
    case Failure(e) => Err(Wrapped("big cache state store Get failed", Raw(e)))
  }

  const PutWithExpireTimePanic: Error := Panic("PutWithExpireTime is not implemented by BigCacheStateStore")

  /** `Delete`: the library's error unfiltered, so deleting an absent key fails, unlike
      the contract's delete. */
  function BigDelete(v: StoreView, key: string): (r: (StoreView, Option<Error>))
    ensures r.0 == ViewDelete(v, key).0
    ensures r.1.Some? <==> key in v.failing || key !in v.data
    ensures key !in v.failing && key !in v.data ==> r.1 != ViewDelete(v, key).1
  {
    var (next, e) := LibDel(v, key);
    (next, if e.Some? then Some(Raw(e.value)) else None)
  }

  /** `ErrInvalidIteratorState`: what the library's `Value` returns while the iterator does
      not stand on an entry. */
  const InvalidIteratorState: Error := Library("Iterator is in invalid state. Use SetNext() to move to next position")

  /** The number of entries `Keys(limit)` asks for: `limit`, or every entry when it is 0. */
  function KeysBound(v: StoreView, limit: int): int {
    if limit == 0 then |v.data| else limit
  }

  /** `Keys(limit)` as written: nothing for an empty cache; otherwise, when at least one entry
      is asked for, the loop reads the iterator's entry before ever calling `SetNext`, and
      that read fails. */
  function BigKeys(v: StoreView, limit: int): (r: Result<seq<string>>)
    ensures r.Ok? <==> |v.data| == 0 || KeysBound(v, limit) <= 0
    ensures r.Ok? ==> r.value == []
    ensures r.Err? ==> r.error == InvalidIteratorState
  {
    if |v.data| == 0 || KeysBound(v, limit) <= 0 then Ok([])
    else Err(InvalidIteratorState)
  }

  /** As written, `Keys` fails on every non-empty cache for every non-negative limit, where
      the contract lists keys: a cache holding one key, asked for all of them, is an example. */
  lemma {:induction false} BigKeysFailsOnEntries(v: StoreView, limit: int)
    requires ViewValid(v) && !v.keysFail && |v.data| > 0 && limit >= 0
    ensures BigKeys(v, limit) == Err(InvalidIteratorState)
    ensures ViewKeys(v, limit).Ok? && ViewKeys(v, limit).value != []
  {
    ListingCountsEntries(v);
  }

  /** `Keys(limit)` with `SetNext` called before each read: up to `limit` keys (all of them
      when `limit` is 0) in iteration order; the walk stops when the iterator runs out. */
  function BigKeysSetNextFirst(v: StoreView, limit: int): (r: Result<seq<string>>)
    ensures r.Ok?
    ensures |v.data| == 0 ==> r.value == []
  {
    if |v.data| == 0 then Ok([])
    else
      var l := KeysBound(v, limit);
      Ok(v.listing[..if l <= 0 then 0 else if l < |v.listing| then l else |v.listing|])
  }

  /** With `SetNext` first, on a well-formed store whose listing does not fail, `Keys` is the
      contract's `Keys`. */
  lemma {:induction false} BigKeysSetNextFirstConforms(v: StoreView, limit: int)
    requires ViewValid(v) && !v.keysFail
    ensures ViewKeys(v, limit) == BigKeysSetNextFirst(v, limit)
  {
    ListingCountsEntries(v);
  }

  class BigCacheStateStore {
    var cli: StoreView

    ghost predicate Valid()
      reads this
    {
      ViewValid(cli)
    }

    /** `NewBigCacheStateStore`: an empty cache. The library's construction error is not
        modelled. */
    constructor (failing: set<string>)
      ensures Valid() && cli == StoreView(map[], map[], [], failing, false)
    {
      cli := StoreView(map[], map[], [], failing, false);
    }

    method Get(key: string) returns (r: Result<seq<byte>>)
      ensures r == BigGet(cli, key)
    {
      var res := LibGet(cli, key);
      if res == Failure(NotFound) {
        return Err(KeyNotExist);
      } else if res.Failure? {
        return Err(Wrapped("big cache state store Get failed", Raw(res.error)));
      }
      return Ok(res.value);
    }

    /** `Put`: the library has no per-entry expiry, so the entry is stored without one. */
    method Put(key: string, value: seq<byte>) returns (err: Option<Error>)
      requires Valid()
      modifies this
      ensures Valid()
      ensures cli == ViewPut(old(cli), key, value, 0).0
      ensures err.Some? <==> key in old(cli).failing
    {
      PutKeepsValid(cli, key, value, 0);
      var (next, e) := LibSet(cli, key, value, 0);
      cli := next;
      if e.Some? {
        return Some(Raw(e.value));
      }
      return None;
    }

    /** `PutWithExpireTime`: always panics, storing nothing. */
    method PutWithExpireTime(key: string, value: seq<byte>, expireSeconds: int) returns (err: Option<Error>)
      ensures err == Some(PutWithExpireTimePanic)
    {
      return Some(PutWithExpireTimePanic);
    }

    method Delete(key: string) returns (err: Option<Error>)
      requires Valid()
      modifies this
      ensures Valid()
      ensures (cli, err) == BigDelete(old(cli), key)
    {
      DeleteKeepsValid(cli, key);
      var (next, e) := LibDel(cli, key);
      cli := next;
      if e.Some? {
        return Some(Raw(e.value));
      }
      return None;
    }

    /** `Keys`, with `SetNext` moved before the entry is read. The iterator starts before the
        first entry (`current` is -1); `SetNext` moves it on and reports whether it stands
        on an entry, and only then is the entry read. */
    method Keys(limit: int) returns (r: Result<seq<string>>)
      requires Valid()
      ensures r == BigKeysSetNextFirst(cli, limit)
    {
      var keys: seq<string> := [];
      if |cli.data| == 0 {
        return Ok(keys);
      }
      ListingCountsEntries(cli);
      var l := limit;
      if limit == 0 {
        l := |cli.data|;
      }
      ghost var n := if l <= 0 then 0 else if l < |cli.listing| then l else |cli.listing|;
      var current := -1;   // the iterator's position
      var i := 0;
      while i < l
        invariant 0 <= i <= n
        invariant current == i - 1
        invariant keys == cli.listing[..i]
      {
        // SetNext
        if current + 1 == |cli.listing| {
          break;
        }
        current := current + 1;
        keys := keys + [cli.listing[current]];
        i := i + 1;
      }
      return Ok(keys);
    }
  }
}
