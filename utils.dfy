/** Worker identifiers, batch identifiers and the worker context (pkg/utils/id.go and
    pkg/utils/context.go, one Go package). The random UUID of a worker id is a parameter. */
module Utils {
  import opened Base
  import opened Encoding

  // ---------------------------------------------------------------------------------------
  // Identifiers (id.go)

  /** The offset subtracted from a watermark when it is written into a batch id. */
  const BatchIdEpoch: int := 1288834974

  /** The name a worker id encodes: `w_<processor>_<index>_<topic>_<uuid>`. */
  function WorkerFullName(workerIndex: int, processorName: string, topicName: string, uuid: string): string {
    "w_" + processorName + "_" + IntToDecimal(workerIndex) + "_" + topicName + "_" + uuid
  }

  /** A worker id: only base64 characters, four for every three bytes (rounded up) of the
      UTF-8 encoded full name, and never a '-'. */
  predicate IsWorkerIdFor(id: string, fullName: string) {
    && (forall i | 0 <= i < |id| :: IsBase64Char(id[i]))
    && |id| == 4 * ((|Utf8(fullName)| + 2) / 3)
    && '-' !in id
  }

  function NewWorkerId(workerIndex: int, processorName: string, topicName: string, uuid: string): (id: string)
    ensures IsWorkerIdFor(id, WorkerFullName(workerIndex, processorName, topicName, uuid))
  {
    var fullName := WorkerFullName(workerIndex, processorName, topicName, uuid);
    Base64HasNoDash(Utf8(fullName));
    Base64Encode(Utf8(fullName))
  }

  /** The batch id of a worker for a watermark: the worker id, a '-', then the watermark
      minus BatchIdEpoch in decimal (with its own '-' when negative). */
  function BatchIdFromWorkerId(workerId: string, watermark: int): (b: string)
    ensures |b| > |workerId| + 1 && b[|workerId|] == '-'
  {
    workerId + "-" + IntToDecimal(watermark - BatchIdEpoch)
  }

  /** The index of the first `c` in `s`. */
  function IndexOf(s: string, c: char): (r: Option<nat>)
    ensures r.Some? ==> r.value < |s| && s[r.value] == c && c !in s[..r.value]
    ensures r.None? ==> c !in s
  {
    if s == [] then None
    else if s[0] == c then Some(0)
    else match IndexOf(s[1..], c)
      case None => None
      case Some(k) => assert s[..k + 1] == [s[0]] + s[1..][..k]; Some(k + 1)
  }

  /** Reads a batch id back: the worker id is everything before the first '-'. */
  function SplitBatchId(b: string): Option<(string, int)> {
    match IndexOf(b, '-')
    case None => None
    case Some(k) =>
      match ParseInt(b[k + 1..])
      case None => None
      case Some(offset) => Some((b[..k], offset + BatchIdEpoch))
  }

  /** The first `c` is found where it first occurs. */
  lemma {:induction false} IndexOfFirst(s: string, c: char, k: nat)
    requires k < |s| && s[k] == c && c !in s[..k]
    ensures IndexOf(s, c) == Some(k)
    decreases k
  {
    if k > 0 {
      assert s[..k][0] == s[0];
      assert s[1..][..k - 1] == s[..k][1..];
      IndexOfFirst(s[1..], c, k - 1);
    }
  }

  /** For a worker id without '-', the batch id determines both the worker and the watermark. */
  lemma {:induction false} SplitBatchIdFromWorkerId(workerId: string, watermark: int)
    requires '-' !in workerId
    ensures SplitBatchId(BatchIdFromWorkerId(workerId, watermark)) == Some((workerId, watermark))
  {
    var b := BatchIdFromWorkerId(workerId, watermark);
    var k := |workerId|;
    assert b == workerId + "-" + IntToDecimal(watermark - BatchIdEpoch);
    assert b[..k] == workerId;
    IndexOfFirst(b, '-', k);
    assert b[k + 1..] == IntToDecimal(watermark - BatchIdEpoch);
    ParseIntToDecimal(watermark - BatchIdEpoch);
  }

  /** Batch ids never collide: different (worker, watermark) pairs give different ids,
      provided the worker ids contain no '-' (which every NewWorkerId guarantees). */
  lemma {:induction false} BatchIdsAreDistinct(w1: string, m1: int, w2: string, m2: int)
    requires '-' !in w1 && '-' !in w2
    requires (w1, m1) != (w2, m2)
    ensures BatchIdFromWorkerId(w1, m1) != BatchIdFromWorkerId(w2, m2)
  {
    SplitBatchIdFromWorkerId(w1, m1);
    SplitBatchIdFromWorkerId(w2, m2);
  }

  /** For one worker, the batch id is injective in the watermark. */
  lemma {:induction false} BatchIdInjectiveInWatermark(w: string, m1: int, m2: int)
    requires BatchIdFromWorkerId(w, m1) == BatchIdFromWorkerId(w, m2)
    ensures m1 == m2
  {
    var b := BatchIdFromWorkerId(w, m1);
    assert b[|w| + 1..] == IntToDecimal(m1 - BatchIdEpoch);
    assert BatchIdFromWorkerId(w, m2)[|w| + 1..] == IntToDecimal(m2 - BatchIdEpoch);
    IntToDecimalInjective(m1 - BatchIdEpoch, m2 - BatchIdEpoch);
  }

  // ---------------------------------------------------------------------------------------
  // Worker context (context.go)

  /** Keys of the values a context carries. */
  datatype ContextKey = ProcessorNameKey | WorkerIdKey | WorkerIndexKey | WorkerTopicKey | UserKey(name: string)

  /** A context value: the source stores strings and ints. */
  datatype ContextValue = Str(s: string) | Int(i: int)

  /** An immutable context: `context.WithValue(ctx, k, v)` is `ctx[k := v]`, and a later
      value shadows an earlier one for the same key. */
  type Context = map<ContextKey, ContextValue>

  /** `loadValue` as written: it reads the worker-id key whatever `key` it is given, and
      yields ("", false) when that value is absent or not a string. */
  function LoadValue(ctx: Context, key: ContextKey): (r: (string, bool))
    ensures r == LoadValueByKey(ctx, WorkerIdKey)
  {
    if WorkerIdKey in ctx && ctx[WorkerIdKey].Str? then (ctx[WorkerIdKey].s, true) else ("", false)
  }

  /** `loadValue` reading the key it is given, as its signature evidently intends. */
  function LoadValueByKey(ctx: Context, key: ContextKey): (r: (string, bool))
    ensures r.1 <==> key in ctx && ctx[key].Str?
    ensures r.1 ==> ctx[key] == Str(r.0)
    ensures !r.1 ==> r.0 == ""
  {
    if key in ctx && ctx[key].Str? then (ctx[key].s, true) else ("", false)
  }

  function WorkerId(ctx: Context): (r: (string, bool))
    ensures r.1 <==> WorkerIdKey in ctx && ctx[WorkerIdKey].Str?
    ensures r.1 ==> ctx[WorkerIdKey] == Str(r.0)
  {
    LoadValueByKey(ctx, WorkerIdKey)
  }

  /** `WorkerIndex` as written: because `loadValue` ignores its key, it returns the worker id. */
  function WorkerIndex(ctx: Context): (r: (string, bool))
    ensures r == WorkerId(ctx)
  {
    LoadValue(ctx, WorkerIndexKey)
  }

  /** The discrepancy on a concrete context: a worker with index 3 reports its id as its index. */
  lemma {:induction false} WorkerIndexReadsWorkerId()
    ensures var ctx := map[WorkerIdKey := Str("dzE="), WorkerIndexKey := Int(3)];
      WorkerIndex(ctx) == ("dzE=", true) && LoadValueByKey(ctx, WorkerIndexKey) == ("", false)
  {
  }

  /** The context a worker runs with. A context that already carries a worker id is returned
      as it is; otherwise the new worker id, the index and the topic are added. */
  function NewWorkerContext(ctx: Context, workerIndex: int, processorName: string, topicName: string,
                            uuid: string): (r: Context)
    ensures WorkerId(ctx).1 ==> r == ctx
    ensures !WorkerId(ctx).1 ==>
      && r.Keys == ctx.Keys + {WorkerIdKey, WorkerIndexKey, WorkerTopicKey}
      && WorkerId(r) == (NewWorkerId(workerIndex, processorName, topicName, uuid), true)
      && r[WorkerIndexKey] == Int(workerIndex)
      && r[WorkerTopicKey] == Str(topicName)
      && forall k | k in ctx && k !in {WorkerIdKey, WorkerIndexKey, WorkerTopicKey} :: r[k] == ctx[k]
  {
    if WorkerId(ctx).1 then ctx
    else
      var workerId := NewWorkerId(workerIndex, processorName, topicName, uuid);
      ctx[WorkerIdKey := Str(workerId)][WorkerIndexKey := Int(workerIndex)][WorkerTopicKey := Str(topicName)]
  }

  /** Deriving a worker context twice changes nothing the second time, whatever the arguments. */
  lemma {:induction false} NewWorkerContextIdempotent(ctx: Context, i1: int, p1: string, t1: string, u1: string,
                                   i2: int, p2: string, t2: string, u2: string)
    ensures var once := NewWorkerContext(ctx, i1, p1, t1, u1);
      NewWorkerContext(once, i2, p2, t2, u2) == once
  {
  }

  /** `BatchId`: the batch id of the context's worker, or a panic when the context carries no
      worker id. */
  function BatchId(ctx: Context, watermark: int): (r: Result<string>)
    ensures r.Ok? <==> WorkerId(ctx).1
    ensures r.Ok? ==> r.value == BatchIdFromWorkerId(WorkerId(ctx).0, watermark)
    ensures r.Err? ==> r.error.Panic?
  {
    var (workerId, success) := WorkerId(ctx);
    if !success then Err(Panic("context does not have worker id"))
    else Ok(BatchIdFromWorkerId(workerId, watermark))
  }
}
