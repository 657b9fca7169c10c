/** Types shared by every module of the model: bytes, optional values, Go's (value, error)
    pairs as a Result, and the error values the engine distinguishes. */
module Base {

  newtype byte = x: int | 0 <= x < 256

  datatype Option<+T> = None | Some(value: T)

  /** A Go error value. Sentinel errors that the source compares with `==` are constructors of
      their own; every other error is described by the message it was built from. */
  datatype Error =
    | KeyNotExist                            // consts.ErrStateStoreKeyNotExist
    | NotImplemented                         // state.ErrNotImplemented
    | ConsumerNotify                         // core.ErrConsumerNotify
    | ProcessorTypeNotRecognized             // consts.ErrProcessorTypeNotRecognized
    | Panic(value: string)                   // a panic, carried up to the nearest recover
    | Library(reason: string)                // an error returned by a client library
    | Failed(reason: string)                 // fmt.Errorf with no error operand
    | Wrapped(reason: string, cause: Error)  // fmt.Errorf("...: %v", cause)

  datatype Result<+T> = Ok(value: T) | Err(error: Error)

  /** `e` as the caller that adds `prefix` to it passes it on. A panic is not a returned error:
      it unwinds past the caller, unwrapped, to the nearest `recover`. */
  function Wrap(prefix: string, e: Error): (r: Error)
    ensures r.Panic? <==> e.Panic?
    ensures e.Panic? ==> r == e
    ensures !e.Panic? ==> r.Wrapped? && r.reason == prefix && r.cause == e
  {
    if e.Panic? then e else Wrapped(prefix, e)
  }

  /** `s` lists no element twice. */
  predicate NoDup<T(==)>(s: seq<T>) {
    forall i, j | 0 <= i < j < |s| :: s[i] != s[j]
  }

  /** `s` with every occurrence of `x` removed, order kept. */
  function Without<T(==)>(s: seq<T>, x: T): (r: seq<T>)
    ensures x !in r
    ensures forall i | 0 <= i < |r| :: r[i] in s && r[i] != x
    ensures forall i | 0 <= i < |s| :: s[i] != x ==> s[i] in r
    ensures NoDup(s) ==> NoDup(r)
  {
    if s == [] then []
    else if s[0] == x then Without(s[1..], x)
    else [s[0]] + Without(s[1..], x)
  }

  /** `order` visits every key of `m` exactly once: an iteration order of a Go map. */
  ghost predicate Enumerates<V>(order: seq<string>, m: map<string, V>) {
    NoDup(order) && (forall n :: n in m <==> n in order)
  }

  /** `consts.DefaultCatLimit`: the most keys a `cat` lists per store. */
  const DefaultCatLimit: nat := 1000
}
