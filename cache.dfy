/** The client libraries behind the four state-store adapters (freecache, bigcache, go-redis
    and gomemcache), reduced to what the adapters rely on. Each library is a keyed byte store
    with its own not-found error, and it can fail. The library's state is a `StoreView`, the
    same abstract store the contract is stated over; its replies are stated here once. Each
    adapter then translates them in its own way. */
module Cache {
  import opened Base
  import opened StateStore

  /** An error a client library returns: its own not-found value, or any other failure. */
  datatype LibError = NotFound | Fault(reason: string)

  /** A library reply: a value or a library error. */
  datatype Reply<+T> = Value(value: T) | Failure(error: LibError)

  const LibFault: LibError := Fault("backend failure")

  /** A library's raw error as a Go `error`, for the adapters that pass it through unfiltered. */
  function Raw(e: LibError): (r: Error)
    ensures r != KeyNotExist && r.Library?
  {
    match e
    case NotFound => Library("not found")
    case Fault(reason) => Library(reason)
  }

  /** A lookup: the value, the library's not-found error, or a failure. */
  function LibGet(v: StoreView, key: string): (r: Reply<seq<byte>>)
    ensures r.Value? <==> ViewGet(v, key).Ok?
    ensures r.Value? ==> r.value == v.data[key]
    ensures r == Failure(NotFound) <==> ViewGet(v, key) == Err(KeyNotExist)
  {
    if key in v.failing then Failure(LibFault)
    else if key in v.data then Value(v.data[key])
    else Failure(NotFound)
  }

  /** A set with an expiry in seconds (0: none); the stored state is the contract's put. */
  function LibSet(v: StoreView, key: string, value: seq<byte>, expireSeconds: int): (r: (StoreView, Option<LibError>))
    ensures r.0 == ViewPut(v, key, value, expireSeconds).0
    ensures r.1.Some? <==> key in v.failing
    ensures r.1.Some? ==> r.1.value.Fault?
  {
    (ViewPut(v, key, value, expireSeconds).0, if key in v.failing then Some(LibFault) else None)
  }

  /** A delete; deleting an absent key reports the library's not-found error. */
  function LibDel(v: StoreView, key: string): (r: (StoreView, Option<LibError>))
    ensures r.0 == ViewDelete(v, key).0
    ensures r.1 == Some(NotFound) <==> key !in v.failing && key !in v.data
    ensures r.1.None? <==> key !in v.failing && key in v.data
  {
    (ViewDelete(v, key).0,
     if key in v.failing then Some(LibFault) else if key !in v.data then Some(NotFound) else None)
  }
}
