/** The memcached adapter (pkg/state/memcached_state_store.go). `Get` and `PutWithExpireTime`
    address the server by the standard base64 encoding (section 4 of RFC 4648) of the key's
    UTF-8 bytes, but `Delete` as written sends the raw key. The class deletes the encoded key,
    as `Get` and `Put` address it; `MemcachedDelete` keeps the raw-key version. The expiry is
    converted to a 32-bit signed integer. `Keys` is not implemented. */
module Memcached {
  import opened Base
  import opened Encoding
  import opened StateStore
  import opened Cache

  /** The key the server sees for `Get` and `Set`. */
  function ServerKey(key: string): string {
    Base64Encode(Utf8(key))
  }

  /** Go's `int32(x)`: the low 32 bits of `x`, read as a signed number. */
  function Int32(x: int): (r: int)
    ensures -0x8000_0000 <= r < 0x8000_0000
    ensures (r - x) % 0x1_0000_0000 == 0
    ensures -0x8000_0000 <= x < 0x8000_0000 ==> r == x
  {
    (x + 0x8000_0000) % 0x1_0000_0000 - 0x8000_0000
  }

  /** Every non-empty key differs from its server key: the encoding is longer than the key. */
  lemma {:induction false} ServerKeyDiffers(key: string)
    requires key != ""
    ensures ServerKey(key) != key
  {
    var m := |Utf8(key)|;
    var q := (m + 2) / 3;
    assert q >= 1 && 3 * q >= m;
    assert |ServerKey(key)| == 4 * q > m >= |key|;
  }

  function MemcachedGet(v: StoreView, key: string): (r: Result<seq<byte>>)
    ensures r.Ok? <==> ViewGet(v, ServerKey(key)).Ok?
    ensures r.Ok? ==> r.value == v.data[ServerKey(key)]
    ensures r == Err(KeyNotExist) <==> ViewGet(v, ServerKey(key)) == Err(KeyNotExist)
    ensures r.Err? && r.error != KeyNotExist ==> r.error.Wrapped?
  {
    match LibGet(v, ServerKey(key))
    case Value(bytes) => Ok(bytes)
    case Failure(NotFound) => Err(KeyNotExist)
    case Failure(e) => Err(Wrapped("memcached state store Get failed", Raw(e)))
  }

  function MemcachedSet(v: StoreView, key: string, value: seq<byte>, expireSeconds: int): (r: (StoreView, Option<Error>))
    ensures r.0 == ViewPut(v, ServerKey(key), value, Int32(expireSeconds)).0
    ensures r.1.Some? <==> ServerKey(key) in v.failing
  {
    var (next, e) := LibSet(v, ServerKey(key), value, Int32(expireSeconds));
    (next, if e.Some? then Some(Raw(e.value)) else None)
  }

  /** `Delete` as written: the raw key; a miss counts as success. */
  function MemcachedDelete(v: StoreView, key: string): (r: (StoreView, Option<Error>))
    ensures r.0 == ViewDelete(v, key).0
    ensures r.1.Some? <==> key in v.failing
  {
    var (next, e) := LibDel(v, key);
    (next, if e.Some? && e.value != NotFound then Some(Raw(e.value)) else None)
  }

  /** `Delete` addressing the server key, as `Get` and `Put` do. */
  function MemcachedDeleteEncoded(v: StoreView, key: string): (r: (StoreView, Option<Error>))
    ensures r.0 == ViewDelete(v, ServerKey(key)).0
    ensures r.1.Some? <==> ServerKey(key) in v.failing
  {
    MemcachedDelete(v, ServerKey(key))
  }

  /** The delete as written does not delete: on a server that does not fail, a value put
      under a non-empty key is still read back after deleting that key. */
  lemma {:induction false} DeleteLeavesValue(v: StoreView, key: string, value: seq<byte>)
    requires key != "" && v.failing == {}
    ensures var stored := MemcachedSet(v, key, value, 0).0;
      && MemcachedDelete(stored, key).1.None?
      && MemcachedGet(MemcachedDelete(stored, key).0, key) == Ok(value)
  {
    ServerKeyDiffers(key);
  }

  /** The delete on the server key removes what the put stored. */
  lemma {:induction false} EncodedDeleteRemovesValue(v: StoreView, key: string, value: seq<byte>)
    requires v.failing == {}
    ensures var stored := MemcachedSet(v, key, value, 0).0;
      && MemcachedDeleteEncoded(stored, key).1.None?
      && MemcachedGet(MemcachedDeleteEncoded(stored, key).0, key) == Err(KeyNotExist)
  {
  }

  class MemcachedStateStore {
    var cli: StoreView

    ghost predicate Valid()
      reads this
    {
      ViewValid(cli)
    }

    constructor (cli: StoreView)
      ensures this.cli == cli
    {
      this.cli := cli;
    }

    method Get(key: string) returns (r: Result<seq<byte>>)
      ensures r == MemcachedGet(cli, key)
    {
      var base64Key := Base64Encode(Utf8(key));
      var item := LibGet(cli, base64Key);
      if item == Failure(NotFound) {
        return Err(KeyNotExist);
      } else if item.Failure? {
        return Err(Wrapped("memcached state store Get failed", Raw(item.error)));
      }
      return Ok(item.value);
    }

    method Put(key: string, value: seq<byte>) returns (err: Option<Error>)
      requires Valid()
      modifies this
      ensures Valid()
      ensures (cli, err) == MemcachedSet(old(cli), key, value, 0)
    {
      err := PutWithExpireTime(key, value, 0);
    }

    method PutWithExpireTime(key: string, value: seq<byte>, expireSeconds: int) returns (err: Option<Error>)
      requires Valid()
      modifies this
      ensures Valid()
      ensures (cli, err) == MemcachedSet(old(cli), key, value, expireSeconds)
    {
      var base64Key := Base64Encode(Utf8(key));
      PutKeepsValid(cli, base64Key, value, Int32(expireSeconds));
      var (next, e) := LibSet(cli, base64Key, value, Int32(expireSeconds));
      cli := next;
      if e.Some? {
        return Some(Raw(e.value));
      }
      return None;
    }

    /** `Delete`, addressing the key `Get` and `Put` use. */
    method Delete(key: string) returns (err: Option<Error>)
      requires Valid()
      modifies this
      ensures Valid()
      ensures (cli, err) == MemcachedDeleteEncoded(old(cli), key)
    {
      var base64Key := Base64Encode(Utf8(key));
      DeleteKeepsValid(cli, base64Key);
      var (next, e) := LibDel(cli, base64Key);
      cli := next;
      if e.Some? && e.value != NotFound {
        return Some(Raw(e.value));
      }
      return None;
    }

    method Keys(limit: int) returns (r: Result<seq<string>>)
      ensures r == Err(NotImplemented)
    {
      return Err(NotImplemented);
    }
  }

  /** `NewMemcachedStateStore(name)`: a name with no memcached config dereferences a nil
      config and panics; a failed ping is returned. */
  method NewMemcachedStateStore(name: string, addresses: map<string, seq<string>>, pingOk: bool, server: StoreView)
    returns (store: MemcachedStateStore?, err: Option<Error>)
    ensures name !in addresses ==> store == null && err.Some? && err.value.Panic?
    ensures name in addresses && !pingOk ==> store == null && err == Some(Raw(LibFault))
    ensures name in addresses && pingOk ==> err.None? && store != null && fresh(store) && store.cli == server
  {
    if name !in addresses {
      return null, Some(Panic("invalid memory address or nil pointer dereference"));
    }
    if !pingOk {
      return null, Some(Raw(LibFault));
    }
    store := new MemcachedStateStore(server);
    err := None;
  }
}
