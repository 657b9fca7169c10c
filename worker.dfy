/** A worker (pkg/core/worker.go): registers its meta, joins a consumer group, and calls the
    group's `Consume` until it returns an error. `consumes[i]` is what the i-th `Consume`
    call returns; when the sequence runs out with every call returning nil, the worker is
    still consuming and its deferred reporting has not run. The error channel and the wait
    group are objects that record what is done to them. */
module Worker {
  import opened Base
  import opened Models
  import Utils
  import opened Consumer

  const ConsumeFuncPanicPrefix: string := "consumerFunc recovered from panic: "

  /** `consumeFunc`: the process callback's error, or a panic turned into an error. */
  function ConsumeFunc(o: CallOutcome): (r: Option<Error>)
    ensures r.None? <==> o == Completed(None)
    ensures o.Completed? ==> r == o.err
    ensures o.Panicked? ==> r.Some? && r.value.Failed?
  {
    match o
    case Completed(err) => err
    case Panicked(v) => Some(Failed(ConsumeFuncPanicPrefix + v))
  }

  /** The consume callback a worker gives its handler. */
  function ConsumeCallback(process: Record -> CallOutcome): Record -> Option<Error> {
    r => ConsumeFunc(process(r))
  }

  /** A record whose processing returned an error or panicked is never marked: every marked
      record was processed without error. */
  lemma {:induction false} OnlyCompletedRecordsAreMarked(events: seq<Event>, process: Record -> CallOutcome)
    ensures var marked := ClaimRun(events, ConsumeCallback(process)).marked;
      forall i | 0 <= i < |marked| :: process(marked[i]) == Completed(None)
  {
    MarkedArePrefix(events, ConsumeCallback(process));
  }

  /** How a worker's run ends: with the error it reports, or still consuming. */
  datatype WorkEnd = Ended(err: Option<Error>) | StillConsuming

  /** The consume loop: how it ends and how many `Consume` calls it makes. */
  function ConsumeLoop(consumes: seq<Option<Error>>): (WorkEnd, nat)
    decreases |consumes|
  {
    if consumes == [] then (StillConsuming, 0)
    else if consumes[0] == Some(ConsumerNotify) then (Ended(None), 1)
    else if consumes[0].Some? then (Ended(consumes[0]), 1)
    else
      var (end, calls) := ConsumeLoop(consumes[1..]);
      (end, calls + 1)
  }

  /** The loop calls `Consume` until the first non-nil result: it keeps consuming iff every
      result is nil; otherwise it stops at the first error, reporting nothing for the exit
      notification and that error for any other. */
  lemma {:induction false} LoopEndsAtFirstError(consumes: seq<Option<Error>>)
    ensures var (end, calls) := ConsumeLoop(consumes);
      && calls <= |consumes|
      && (end == StillConsuming <==> forall k | 0 <= k < |consumes| :: consumes[k].None?)
      && (end == StillConsuming ==> calls == |consumes|)
      && (end.Ended? ==>
            && 0 < calls
            && (forall k | 0 <= k < calls - 1 :: consumes[k].None?)
            && consumes[calls - 1].Some?
            && end.err == if consumes[calls - 1] == Some(ConsumerNotify) then None else consumes[calls - 1])
    decreases |consumes|
  {
    if consumes != [] && consumes[0].None? {
      var tail := consumes[1..];
      LoopEndsAtFirstError(tail);
      forall k | 0 <= k < |tail| ensures consumes[k + 1] == tail[k] {}
      var (end, calls) := ConsumeLoop(tail);
      if end == StillConsuming {
        forall k | 0 <= k < |consumes| ensures consumes[k].None? {
          if k > 0 {
            assert consumes[k] == tail[k - 1];
          }
        }
      }
    }
  }

  /** A worker's error channel: what has been sent on it, and how often it was closed. */
  class ErrorChannel {
    var sent: seq<Error>
    var closes: nat

    constructor ()
      ensures sent == [] && closes == 0
    {
      sent := [];
      closes := 0;
    }

    method Send(e: Error)
      modifies this
      ensures sent == old(sent) + [e] && closes == old(closes)
    {
      sent := sent + [e];
    }

    method Close()
      modifies this
      ensures sent == old(sent) && closes == old(closes) + 1
    {
      closes := closes + 1;
    }
  }

  /** A wait group: its counter and the number of `Done` calls. */
  class WaitGroup {
    var counter: int
    var dones: nat

    constructor ()
      ensures counter == 0 && dones == 0
    {
      counter := 0;
      dones := 0;
    }

    method Add(n: int)
      modifies this
      ensures counter == old(counter) + n && dones == old(dones)
    {
      counter := counter + n;
    }

    method Done()
      modifies this
      ensures counter == old(counter) - 1 && dones == old(dones) + 1
    {
      counter := counter - 1;
      dones := dones + 1;
    }
  }

  /** The package's worker metas, keyed by worker id. */
  class MetaRegistry {
    var metas: map<string, WorkerMeta>

    constructor ()
      ensures metas == map[]
    {
      metas := map[];
    }

    /** `addWorkerMeta`: registers a meta under its worker id, replacing an older one. */
    method AddWorkerMeta(meta: WorkerMeta)
      modifies this
      ensures metas == old(metas)[meta.workerId := meta]
    {
      metas := metas[meta.workerId := meta];
    }
  }

  /** The worker's deferred function: reports the error if there is one, then closes the
      error channel and marks the worker done. */
  method Finish(workerErr: Option<Error>, errCh: ErrorChannel, wg: WaitGroup)
    modifies errCh, wg
    ensures errCh.sent == old(errCh.sent) + (if workerErr.Some? then [workerErr.value] else [])
    ensures errCh.closes == old(errCh.closes) + 1
    ensures wg.counter == old(wg.counter) - 1 && wg.dones == old(wg.dones) + 1
  {
    if workerErr.Some? {
      errCh.Send(workerErr.value);
    }
    errCh.Close();
    wg.Done();
  }

  /** `Work`. `group` is what creating the consumer group gives; `process` is the process
      callback the worker's handler runs. */
  method Work(ctx: Utils.Context, topicIndex: int, process: Record -> CallOutcome,
              metas: MetaRegistry, groups: ConsumerGroups, errCh: ErrorChannel, wg: WaitGroup,
              group: Result<nat>, consumes: seq<Option<Error>>)
    returns (end: WorkEnd, calls: nat, handler: Handler?)
    modifies metas, groups, errCh, wg
    ensures metas.metas ==
      old(metas.metas)[Utils.WorkerId(ctx).0 := WorkerMeta(Utils.WorkerId(ctx).0, topicIndex, true)]
    ensures groups.groups == old(groups.groups) + (if group.Ok? then [group.value] else [])
    ensures groups.closeCalls == old(groups.closeCalls)
    ensures group.Err? ==>
      end == Ended(Some(Wrapped("initialize consumer group failed", group.error))) && calls == 0 && handler == null
    ensures group.Ok? ==>
      && (end, calls) == ConsumeLoop(consumes)
      && handler != null && fresh(handler)
      && handler.setup == Some(None) && handler.consume == ConsumeCallback(process)
    ensures end.Ended? ==>
      && errCh.sent == old(errCh.sent) + (if end.err.Some? then [end.err.value] else [])
      && errCh.closes == old(errCh.closes) + 1
      && wg.counter == old(wg.counter) && wg.dones == old(wg.dones) + 1
    ensures end == StillConsuming ==>
      && errCh.sent == old(errCh.sent) && errCh.closes == old(errCh.closes)
      && wg.counter == old(wg.counter) + 1 && wg.dones == old(wg.dones)
  {
    var (workerId, _) := Utils.WorkerId(ctx);
    metas.AddWorkerMeta(WorkerMeta(workerId, topicIndex, true));
    wg.Add(1);

    if group.Err? {
      var workerErr := Some(Wrapped("initialize consumer group failed", group.error));
      Finish(workerErr, errCh, wg);
      return Ended(workerErr), 0, null;
    }
    groups.Add(group.value);

    handler := new Handler(Some(None), ConsumeCallback(process));

    calls := 0;
    while calls < |consumes|
      invariant 0 <= calls <= |consumes|
      invariant ConsumeLoop(consumes) ==
        (ConsumeLoop(consumes[calls..]).0, calls + ConsumeLoop(consumes[calls..]).1)
      invariant errCh.sent == old(errCh.sent) && errCh.closes == old(errCh.closes)
      invariant wg.counter == old(wg.counter) + 1 && wg.dones == old(wg.dones)
    {
      assert consumes[calls..][1..] == consumes[calls + 1..];
      var err := consumes[calls];
      calls := calls + 1;
      if err == Some(ConsumerNotify) {
        Finish(None, errCh, wg);
        return Ended(None), calls, handler;
      } else if err.Some? {
        Finish(err, errCh, wg);
        return Ended(err), calls, handler;
      }
    }
    return StillConsuming, calls, handler;
  }
}
