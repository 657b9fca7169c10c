/** The state-store contract (pkg/state/state_store.go): five operations on a string-keyed
    byte store, the package registry of named stores, and the `ErrNotImplemented` sentinel
    (`Error.NotImplemented` in Base).

    Go states the contract as an interface. Here it is a reference store, `MapStore`: an
    abstract map whose failures are part of its state (`failing` keys make every operation on
    them fail, `keysFail` makes `Keys` fail). The join engine, the join worker, the metrics
    decorator and the `cat` command are stated against it. It also logs every mutating call,
    so a caller's contract can say which writes and deletes it attempted. */
module StateStore {
  import opened Base

  /** A mutating call, as the store received it. */
  datatype Call = PutCall(key: string, value: seq<byte>, expireSeconds: int) | DeleteCall(key: string)

  /** What the store holds and how it fails, at one moment. */
  datatype StoreView = StoreView(
    data: map<string, seq<byte>>,
    expiry: map<string, int>,
    listing: seq<string>,      // the keys in the order `Keys` lists them
    failing: set<string>,      // keys whose every operation fails
    keysFail: bool)            // whether `Keys` fails

  /** `listing` holds every stored key exactly once, and every stored key has an expiry. */
  ghost predicate ViewValid(v: StoreView) {
    && NoDup(v.listing)
    && (forall k :: k in v.data <==> k in v.listing)
    && v.expiry.Keys == v.data.Keys
  }

  const BackendFailure: Error := Library("state store backend failure")

  /** `Get`: the stored value, `ErrStateStoreKeyNotExist` for an absent key, or a failure. */
  function ViewGet(v: StoreView, key: string): (r: Result<seq<byte>>)
    ensures r.Ok? <==> key !in v.failing && key in v.data
    ensures r.Ok? ==> r.value == v.data[key]
    ensures r == Err(KeyNotExist) <==> key !in v.failing && key !in v.data
  {
    if key in v.failing then Err(BackendFailure)
    else if key in v.data then Ok(v.data[key])
    else Err(KeyNotExist)
  }

  /** `PutWithExpireTime`: stores the value with its expiry; a new key goes to the end of the
      listing. */
  function ViewPut(v: StoreView, key: string, value: seq<byte>, expireSeconds: int): (r: (StoreView, Option<Error>))
    ensures r.1.Some? <==> key in v.failing
    ensures r.1.Some? ==> r.0 == v
    ensures r.0.failing == v.failing && r.0.keysFail == v.keysFail
  {
    if key in v.failing then (v, Some(BackendFailure))
    else
      var listing := if key in v.data then v.listing else v.listing + [key];
      (v.(data := v.data[key := value], expiry := v.expiry[key := expireSeconds], listing := listing), None)
  }

  /** `Delete`: removes the key; deleting an absent key succeeds. */
  function ViewDelete(v: StoreView, key: string): (r: (StoreView, Option<Error>))
    ensures r.1.Some? <==> key in v.failing
    ensures r.1.Some? ==> r.0 == v
    ensures r.0.failing == v.failing && r.0.keysFail == v.keysFail
  {
    if key in v.failing then (v, Some(BackendFailure))
    else (v.(data := v.data - {key}, expiry := v.expiry - {key}, listing := Without(v.listing, key)), None)
  }

  /** `Keys(limit)`: the first `limit` keys of the listing, or all of them when `limit` is 0. */
  function ViewKeys(v: StoreView, limit: int): (r: Result<seq<string>>)
    ensures r.Ok? <==> !v.keysFail
    ensures r.Ok? ==> r.value <= v.listing
    ensures r.Ok? && limit == 0 ==> r.value == v.listing
    ensures r.Ok? && limit > 0 ==> |r.value| == if limit < |v.listing| then limit else |v.listing|
    ensures r.Ok? && limit < 0 ==> r.value == []
  {
    if v.keysFail then Err(BackendFailure)
    else
      var l := if limit == 0 then |v.listing| else limit;
      Ok(v.listing[..if l < 0 then 0 else if l < |v.listing| then l else |v.listing|])
  }

  /** A put keeps the store well formed. */
  lemma {:induction false} PutKeepsValid(v: StoreView, key: string, value: seq<byte>, t: int)
    requires ViewValid(v)
    ensures ViewValid(ViewPut(v, key, value, t).0)
  {
    var p := ViewPut(v, key, value, t).0;
    if key !in v.failing && key !in v.data {
      assert p.listing == v.listing + [key];
      forall k ensures k in p.data <==> k in p.listing {
        assert k in v.listing + [key] <==> k in v.listing || k == key;
      }
      forall i, j | 0 <= i < j < |p.listing| ensures p.listing[i] != p.listing[j] {
        if j == |v.listing| {
          assert p.listing[i] == v.listing[i];
        }
      }
    }
  }

  /** A delete keeps the store well formed. */
  lemma {:induction false} DeleteKeepsValid(v: StoreView, key: string)
    requires ViewValid(v)
    ensures ViewValid(ViewDelete(v, key).0)
  {
    var d := ViewDelete(v, key).0;
    if key !in v.failing {
      forall k ensures k in d.data <==> k in d.listing {
        if k in d.listing {
          var i :| 0 <= i < |d.listing| && d.listing[i] == k;
        }
        if k in d.data {
          var i :| 0 <= i < |v.listing| && v.listing[i] == k;
        }
      }
    }
  }

  /** A list without repetitions has as many distinct elements as entries. */
  lemma {:induction false} NoDupCount(s: seq<string>)
    requires NoDup(s)
    ensures |set k | k in s| == |s|
  {
    if s != [] {
      var rest := s[1..];
      assert NoDup(rest) by {
        forall i, j | 0 <= i < j < |rest| ensures rest[i] != rest[j] {
          assert rest[i] == s[i + 1] && rest[j] == s[j + 1];
        }
      }
      NoDupCount(rest);
      assert (set k | k in s) == {s[0]} + (set k | k in rest);
      assert s[0] !in rest;
    }
  }

  /** In a well-formed store the entry count is the length of the listing. */
  lemma {:induction false} ListingCountsEntries(v: StoreView)
    requires ViewValid(v)
    ensures |v.data| == |v.listing|
  {
    NoDupCount(v.listing);
    assert v.data.Keys == set k | k in v.listing;
  }

  /** A successful put is read back, and no other key changes. */
  lemma {:induction false} GetAfterPut(v: StoreView, key: string, value: seq<byte>, t: int, other: string)
    requires ViewPut(v, key, value, t).1.None?
    ensures ViewGet(ViewPut(v, key, value, t).0, key) == Ok(value)
    ensures other != key ==> ViewGet(ViewPut(v, key, value, t).0, other) == ViewGet(v, other)
  {
  }

  /** A successful delete leaves a miss behind, no other key changes, and a second delete
      changes nothing. */
  lemma {:induction false} GetAfterDelete(v: StoreView, key: string, other: string)
    requires ViewDelete(v, key).1.None?
    ensures ViewGet(ViewDelete(v, key).0, key) == Err(KeyNotExist)
    ensures other != key ==> ViewGet(ViewDelete(v, key).0, other) == ViewGet(v, other)
    ensures ViewDelete(ViewDelete(v, key).0, key).0.data == ViewDelete(v, key).0.data
  {
  }

  /** The reference store. Every method is exactly the view function of the same name, and
      the mutating ones also append the call to `log`. */
  class MapStore {
    var data: map<string, seq<byte>>
    var expiry: map<string, int>
    var listing: seq<string>
    var failing: set<string>
    var keysFail: bool
    var log: seq<Call>

    function View(): StoreView
      reads this
    {
      StoreView(data, expiry, listing, failing, keysFail)
    }

    ghost predicate Valid()
      reads this
    {
      ViewValid(View())
    }

    /** An empty store whose operations fail exactly on `failing` (and on `Keys` when
        `keysFail`). */
    constructor (failing: set<string>, keysFail: bool)
      ensures Valid() && View() == StoreView(map[], map[], [], failing, keysFail) && log == []
    {
      this.data := map[];
      this.expiry := map[];
      this.listing := [];
      this.failing := failing;
      this.keysFail := keysFail;
      this.log := [];
    }

    method Get(key: string) returns (r: Result<seq<byte>>)
      ensures r == ViewGet(View(), key)
    {
      if key in failing {
        r := Err(BackendFailure);
      } else if key in data {
        r := Ok(data[key]);
      } else {
        r := Err(KeyNotExist);
      }
    }

    method PutWithExpireTime(key: string, value: seq<byte>, expireSeconds: int) returns (err: Option<Error>)
      requires Valid()
      modifies this
      ensures Valid()
      ensures (View(), err) == ViewPut(old(View()), key, value, expireSeconds)
      ensures log == old(log) + [PutCall(key, value, expireSeconds)]
    {
      PutKeepsValid(View(), key, value, expireSeconds);
      log := log + [PutCall(key, value, expireSeconds)];
      if key in failing {
        return Some(BackendFailure);
      }
      if key !in data {
        listing := listing + [key];
      }
      data := data[key := value];
      expiry := expiry[key := expireSeconds];
      err := None;
    }

    method Put(key: string, value: seq<byte>) returns (err: Option<Error>)
      requires Valid()
      modifies this
      ensures Valid()
      ensures (View(), err) == ViewPut(old(View()), key, value, 0)
      ensures log == old(log) + [PutCall(key, value, 0)]
    {
      err := PutWithExpireTime(key, value, 0);
    }

    method Delete(key: string) returns (err: Option<Error>)
      requires Valid()
      modifies this
      ensures Valid()
      ensures (View(), err) == ViewDelete(old(View()), key)
      ensures log == old(log) + [DeleteCall(key)]
    {
      DeleteKeepsValid(View(), key);
      log := log + [DeleteCall(key)];
      if key in failing {
        return Some(BackendFailure);
      }
      data := data - {key};
      expiry := expiry - {key};
      listing := Without(listing, key);
      err := None;
    }

    method Keys(limit: int) returns (r: Result<seq<string>>)
      ensures r == ViewKeys(View(), limit)
    {
      if keysFail {
        return Err(BackendFailure);
      }
      var l := if limit == 0 then |listing| else limit;
      r := Ok(listing[..if l < 0 then 0 else if l < |listing| then l else |listing|]);
    }
  }

  /** `stateStores`, the package registry of named stores. */
  class Registry {
    var stores: map<string, MapStore>

    constructor ()
      ensures stores == map[]
    {
      stores := map[];
    }

    /** `AddStateStore`: registers `s` under `name`, replacing any store of that name. */
    method AddStateStore(name: string, s: MapStore)
      modifies this
      ensures stores == old(stores)[name := s]
      ensures name in stores && stores[name] == s
      ensures forall n | n in old(stores) && n != name :: n in stores && stores[n] == old(stores)[n]
    {
      stores := stores[name := s];
    }

    /** `StateStores`: the registry itself. */
    method StateStores() returns (r: map<string, MapStore>)
      ensures r == stores
    {
      r := stores;
    }
  }
}
