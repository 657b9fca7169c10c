/** The join worker's record callback (pkg/core/join_worker.go): each record of a join input
    is buffered in the state store, and its key is appended to the key list of the worker's
    batch for the current window, where the join pass later finds it. The clock reading is a
    parameter. */
module JoinWorker {
  import opened Base
  import opened Encoding
  import opened Models
  import opened StateStore
  import Utils
  import W = Watermark

  /** The key list a batch holds in the store: any failed Get, not only a miss, reads as
      the empty list. */
  function BatchKeys(v: StoreView, batchId: string): (keys: seq<string>)
    ensures batchId !in v.data || batchId in v.failing ==> keys == []
    ensures batchId in v.data && batchId !in v.failing ==> keys == StoredKeys(v.data[batchId])
  {
    match ViewGet(v, batchId)
    case Ok(bytes) => StoredKeys(bytes)
    case Err(_) => []
  }

  /** One callback on a store: the new store and the returned error. */
  function ProcessStep(v: StoreView, ctx: Utils.Context, record: Record, watermark: int, now: int,
                       expireTime: int): (StoreView, Option<Error>)
  {
    if now < watermark then (v, None)
    else match Utils.BatchId(ctx, watermark)
      case Err(e) => (v, Some(e))
      case Ok(batchId) =>
        var keys := BatchKeys(v, batchId) + [record.key];
        var (stored, err) := ViewPut(v, record.key, record.value, expireTime);
        if err.Some? then (v, err)
        else ViewPut(stored, batchId, EncodeKeys(keys), 0)
  }

  /** The store calls one callback makes: the record put, then (if it succeeded) the list put. */
  function ProcessCalls(v: StoreView, ctx: Utils.Context, record: Record, watermark: int, now: int,
                        expireTime: int): seq<Call>
  {
    if now < watermark then []
    else match Utils.BatchId(ctx, watermark)
      case Err(_) => []
      case Ok(batchId) =>
        [PutCall(record.key, record.value, expireTime)]
        + if record.key in v.failing then []
          else [PutCall(batchId, EncodeKeys(BatchKeys(v, batchId) + [record.key]), 0)]
  }

  /** What a callback promises. A record that arrives before the watermark is dropped and a
      context without a worker id is a panic, both with the store unchanged. Otherwise the
      record is stored with `expireTime` and the batch list gains its key at the end,
      duplicates kept; a failed record put leaves the list unwritten. Every other key keeps
      its value. */
  lemma {:induction false} ProcessStepSpec(v: StoreView, ctx: Utils.Context, record: Record, watermark: int, now: int,
                        expireTime: int, other: string)
    ensures var (after, err) := ProcessStep(v, ctx, record, watermark, now, expireTime);
      && (now < watermark ==> after == v && err.None?)
      && (now >= watermark && !Utils.WorkerId(ctx).1 ==> after == v && err.Some? && err.value.Panic?)
      && (now >= watermark && Utils.WorkerId(ctx).1 ==>
            var batchId := Utils.BatchIdFromWorkerId(Utils.WorkerId(ctx).0, watermark);
            && (record.key in v.failing ==> after == v && err == Some(BackendFailure))
            && (record.key !in v.failing && batchId in v.failing ==>
                  err == Some(BackendFailure) && ViewGet(after, record.key) == Ok(record.value))
            && (record.key !in v.failing && batchId !in v.failing ==> err.None?)
            && (record.key !in v.failing && batchId !in v.failing && record.key != batchId ==>
                  && ViewGet(after, record.key) == Ok(record.value)
                  && after.expiry[record.key] == expireTime
                  && StoredKeys(after.data[batchId]) == BatchKeys(v, batchId) + [record.key])
            && (other != record.key && other != batchId ==> ViewGet(after, other) == ViewGet(v, other)))
  {
    if now >= watermark && Utils.WorkerId(ctx).1 {
      var batchId := Utils.BatchIdFromWorkerId(Utils.WorkerId(ctx).0, watermark);
      StoredKeysOfEncoded(BatchKeys(v, batchId) + [record.key]);
    }
  }

  /** Callbacks for one worker and one window, one record after another. */
  function ProcessAll(v: StoreView, ctx: Utils.Context, records: seq<Record>, watermark: int, now: int,
                      expireTime: int): StoreView
    decreases |records|
  {
    if records == [] then v
    else ProcessStep(ProcessAll(v, ctx, records[..|records| - 1], watermark, now, expireTime),
                     ctx, records[|records| - 1], watermark, now, expireTime).0
  }

  function KeysOf(records: seq<Record>): (keys: seq<string>)
    ensures |keys| == |records| && forall i | 0 <= i < |records| :: keys[i] == records[i].key
  {
    seq(|records|, i requires 0 <= i < |records| => records[i].key)
  }

  /** The batch list a worker builds is what the join pass reads back: after a worker
      processed `records` in one window on a store that held nothing for its batch and does
      not fail, the batch's key list, as `fetchKeySets` reads it, is the records' keys in
      arrival order. */
  lemma {:induction false} BatchListCollectsKeys(v: StoreView, ctx: Utils.Context, records: seq<Record>,
                                                 watermark: int, now: int, expireTime: int)
    requires now >= watermark && Utils.WorkerId(ctx).1
    requires v.failing == {}
    requires Utils.BatchIdFromWorkerId(Utils.WorkerId(ctx).0, watermark) !in v.data
    requires forall i | 0 <= i < |records| :: records[i].key != Utils.BatchIdFromWorkerId(Utils.WorkerId(ctx).0, watermark)
    ensures var batchId := Utils.BatchIdFromWorkerId(Utils.WorkerId(ctx).0, watermark);
      var after := ProcessAll(v, ctx, records, watermark, now, expireTime);
      && after.failing == {}
      && BatchKeys(after, batchId) == KeysOf(records)
      && (records != [] ==> batchId in after.data && after.data[batchId] == EncodeKeys(KeysOf(records)))
    decreases |records|
  {
    var batchId := Utils.BatchIdFromWorkerId(Utils.WorkerId(ctx).0, watermark);
    if records != [] {
      var init := records[..|records| - 1];
      BatchListCollectsKeys(v, ctx, init, watermark, now, expireTime);
      var before := ProcessAll(v, ctx, init, watermark, now, expireTime);
      var record := records[|records| - 1];
      assert KeysOf(records) == KeysOf(init) + [record.key];
      StoredKeysOfEncoded(KeysOf(records));
    }
  }

  class JoinWorker {
    const w: W.Watermark
    const s: MapStore
    const expireTime: int

    /** `NewJoinWorker`. */
    constructor (w: W.Watermark, s: MapStore, expireTime: int)
      ensures this.w == w && this.s == s && this.expireTime == expireTime
    {
      this.w := w;
      this.s := s;
      this.expireTime := expireTime;
    }

    /** `JoinWorkerProcessCallback`, with `now` the clock reading at entry. */
    method ProcessCallback(ctx: Utils.Context, record: Record, now: int) returns (err: Option<Error>)
      requires s.Valid()
      modifies s
      ensures s.Valid()
      ensures (s.View(), err) == ProcessStep(old(s.View()), ctx, record, w.t, now, expireTime)
      ensures s.log == old(s.log) + ProcessCalls(old(s.View()), ctx, record, w.t, now, expireTime)
    {
      var watermark := w.Get();
      if now < watermark {
        return None;
      }
      var batchId := Utils.BatchId(ctx, watermark);
      if batchId.Err? {
        return Some(batchId.error);
      }
      var keySet := s.Get(batchId.value);
      var keys: seq<string> := [];
      if keySet.Ok? {
        keys := StoredKeys(keySet.value);
      }
      keys := keys + [record.key];
      err := s.PutWithExpireTime(record.key, record.value, expireTime);
      if err.Some? {
        return err;
      }
      err := s.Put(batchId.value, EncodeKeys(keys));
    }
  }
}
