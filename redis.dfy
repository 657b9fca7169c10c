/** The redis adapter (pkg/state/redis_state_store.go). The constructor looks the store's
    address up by name and pings it up to `RedisPingRetryTimes` times. `redis.Nil` becomes
    `ErrStateStoreKeyNotExist`, `Put` is `PutWithExpireTime` with no expiry, and `Keys` ignores
    its limit and returns at most `DefaultCatLimit` keys. The ping results are a parameter;
    the one-second sleeps between pings are not modelled. */
module Redis {
  import opened Base
  import opened StateStore
  import opened Cache

  const RedisPingRetryTimes: nat := 3

  /** The position of the first successful ping among the first `bound` attempts. A ping
      the sequence does not cover fails. */
  function FirstGoodPing(pings: seq<bool>, bound: nat): (r: Option<nat>)
    ensures r.Some? ==> r.value < bound && r.value < |pings| && pings[r.value]
    ensures r.Some? ==> forall j | 0 <= j < r.value :: !pings[j]
    ensures r.None? ==> forall j | 0 <= j < bound && j < |pings| :: !pings[j]
  {
    if bound == 0 || pings == [] then None
    else if pings[0] then Some(0)
    else match FirstGoodPing(pings[1..], bound - 1)
      case None => None
      case Some(k) => Some(k + 1)
  }

  /** `Get`: `redis.Nil` is the contract's miss; other errors are wrapped. */
  function RedisGet(v: StoreView, key: string): (r: Result<seq<byte>>)
    ensures r.Ok? <==> ViewGet(v, key).Ok?
    ensures r.Ok? ==> r.value == v.data[key]
    ensures r == Err(KeyNotExist) <==> ViewGet(v, key) == Err(KeyNotExist)
    ensures r.Err? && r.error != KeyNotExist ==> r.error.Wrapped?
  {
    match LibGet(v, key)
    case Value(bytes) => Ok(bytes)
    case Failure(NotFound) => Err(KeyNotExist)
    case Failure(e) => Err(Wrapped("redis state store Get failed", Raw(e)))
  }

  /** `Keys`: all keys the server lists, cut at `DefaultCatLimit`, whatever the limit. */
  function RedisKeys(v: StoreView): (r: Result<seq<string>>)
    ensures r.Ok? <==> !v.keysFail
    ensures r.Ok? ==> r.value <= v.listing && |r.value| <= DefaultCatLimit
    ensures r.Ok? && |v.listing| <= DefaultCatLimit ==> r.value == v.listing
  {
    if v.keysFail then Err(Raw(LibFault))
    else if |v.listing| > DefaultCatLimit then Ok(v.listing[..DefaultCatLimit])
    else Ok(v.listing)
  }

  /** For a server with at most `DefaultCatLimit` keys that can list them, `Keys` with any
      limit is the contract's `Keys(0)`. */
  lemma {:induction false} RedisKeysIsWholeListing(v: StoreView)
    requires |v.listing| <= DefaultCatLimit && !v.keysFail
    ensures RedisKeys(v) == ViewKeys(v, 0)
  {
    assert v.listing[..|v.listing|] == v.listing;
  }

  /** A delete succeeds on an absent key: the reply counts deletions, and counting none is
      not an error. */
  function RedisDelete(v: StoreView, key: string): (r: (StoreView, Option<Error>))
    ensures r == ViewDelete(v, key) || (key in v.failing && r.0 == v && r.1.Some?)
    ensures r.1.Some? <==> key in v.failing
  {
    var (next, e) := LibDel(v, key);
    (next, if e.Some? && e.value != NotFound then Some(Raw(e.value)) else None)
  }

  class RedisStateStore {
    var cli: StoreView

    ghost predicate Valid()
      reads this
    {
      ViewValid(cli)
    }

    constructor (cli: StoreView)
      ensures this.cli == cli
    {
      this.cli := cli;
    }

    method Get(key: string) returns (r: Result<seq<byte>>)
      ensures r == RedisGet(cli, key)
    {
      var res := LibGet(cli, key);
      if res == Failure(NotFound) {
        return Err(KeyNotExist);
      } else if res.Failure? {
        return Err(Wrapped("redis state store Get failed", Raw(res.error)));
      }
      return Ok(res.value);
    }

    method Put(key: string, value: seq<byte>) returns (err: Option<Error>)
      requires Valid()
      modifies this
      ensures Valid()
      ensures cli == ViewPut(old(cli), key, value, 0).0
      ensures err.Some? <==> key in old(cli).failing
    {
      err := PutWithExpireTime(key, value, 0);
    }

    /** `PutWithExpireTime`: a SET with the expiry in seconds (0: none). */
    method PutWithExpireTime(key: string, value: seq<byte>, expireSeconds: int) returns (err: Option<Error>)
      requires Valid()
      modifies this
      ensures Valid()
      ensures cli == ViewPut(old(cli), key, value, expireSeconds).0
      ensures err.Some? <==> key in old(cli).failing
    {
      PutKeepsValid(cli, key, value, expireSeconds);
      var (next, e) := LibSet(cli, key, value, expireSeconds);
      cli := next;
      if e.Some? {
        return Some(Raw(e.value));
      }
      return None;
    }

    method Delete(key: string) returns (err: Option<Error>)
      requires Valid()
      modifies this
      ensures Valid()
      ensures (cli, err) == RedisDelete(old(cli), key)
    {
      DeleteKeepsValid(cli, key);
      var (next, e) := LibDel(cli, key);
      cli := next;
      if e.Some? && e.value != NotFound {
        return Some(Raw(e.value));
      }
      return None;
    }

    method Keys(limit: int) returns (r: Result<seq<string>>)
      ensures r == RedisKeys(cli)
    {
      if cli.keysFail {
        return Err(Raw(LibFault));
      }
      var keys := cli.listing;
      if |keys| > DefaultCatLimit {
        keys := keys[..DefaultCatLimit];
      }
      return Ok(keys);
    }
  }

  /** `NewRedisStateStore(name)`: fails when no redis config has that name; otherwise pings
      the address until one ping succeeds, at most `RedisPingRetryTimes` times. `pings[i]`
      is whether ping `i` succeeds and `server` is what the server holds. */
  method NewRedisStateStore(name: string, addresses: map<string, string>, pings: seq<bool>, server: StoreView)
    returns (store: RedisStateStore?, err: Option<Error>, attempts: nat)
    ensures name !in addresses ==>
      && store == null && attempts == 0
      && err == Some(Failed("redis config with name " + name + " not found"))
    ensures name in addresses ==>
      match FirstGoodPing(pings, RedisPingRetryTimes)
      case Some(k) => attempts == k + 1 && err.None? && store != null && fresh(store) && store.cli == server
      case None => (
        && attempts == RedisPingRetryTimes && store == null
        && err == Some(Failed("redis state store " + name + " cannot connect to address " + addresses[name])))
  {
    if name !in addresses {
      return null, Some(Failed("redis config with name " + name + " not found")), 0;
    }
    var pingSuccess := false;
    var i := 0;
    while i < RedisPingRetryTimes
      invariant 0 <= i <= RedisPingRetryTimes
      invariant !pingSuccess
      invariant forall j | 0 <= j < i && j < |pings| :: !pings[j]
    {
      if i < |pings| && pings[i] {
        pingSuccess := true;
        break;
      }
      i := i + 1;
    }
    attempts := if pingSuccess then i + 1 else i;
    if !pingSuccess {
      return null, Some(Failed("redis state store " + name + " cannot connect to address " + addresses[name])), attempts;
    }
    store := new RedisStateStore(server);
    err := None;
  }
}
