/** The scheduler of the windowed join and the join pass it launches (pkg/core/cron.go).

    `Cron.run` first advances the watermark until it has caught up with the clock. It then
    serves events until it is stopped: on each tick whose window has closed, it advances the
    watermark by one window and launches a join pass for the window just closed. The clock,
    the ticker and the two stop signals become a parameter and a sequence of events. A
    launched pass is reported by its watermark; the pass itself is `AsyncJoin`.

    `asyncJoin` reads the key lists that the join workers of both sides stored for the window.
    It calls the user's join callback for every (left record, right record) pair, right side
    outer, and its deferred functions delete what it read. */
module Cron {
  import opened Base
  import opened Encoding
  import opened Models
  import opened StateStore
  import Utils
  import W = Watermark

  // ---------------------------------------------------------------------------------------
  // The catch-up loop

  /** Advancing from `t + step` is advancing from `t` with one step more. */
  lemma {:induction false} AdvancedByShift(t: int, step: int, n: nat)
    ensures W.AdvancedBy(t + step, step, n) == W.AdvancedBy(t, step, n + 1)
  {
    if n > 0 {
      AdvancedByShift(t, step, n - 1);
    }
  }

  /** How many advances by `step` the catch-up loop makes before `t + cronWindow` reaches
      `now`: the least such number. */
  function CatchUpCount(t: int, step: int, cronWindow: int, now: int): (n: nat)
    requires step > 0 || t + cronWindow >= now
    ensures W.AdvancedBy(t, step, n) + cronWindow >= now
    ensures forall k: nat | k < n :: W.AdvancedBy(t, step, k) + cronWindow < now
    decreases if t + cronWindow < now then now - (t + cronWindow) else 0
  {
    if t + cronWindow >= now then 0
    else
      var m := CatchUpCount(t + step, step, cronWindow, now);
      AdvancedByShift(t, step, m);
      forall k: nat | k < m + 1 ensures W.AdvancedBy(t, step, k) + cronWindow < now {
        if k > 0 {
          AdvancedByShift(t, step, k - 1);
        }
      }
      m + 1
  }

  // ---------------------------------------------------------------------------------------
  // The event loop

  /** What the `select` of `run` receives, in the order it receives it. */
  datatype CronEvent = Tick(ts: int) | Done | ContextDone

  /** How `run` ended. `StillRunning`: the events ran out before a stop signal, so `run` has
      not returned and its deferred function has not run. */
  datatype RunOutcome = Panicked | StoppedByDone | StoppedByContext | StillRunning

  /** The ticks of `run` from watermark `t`: the final watermark, the watermarks for which a
      join pass was launched, in launch order, and how the loop ended. */
  function TickRun(t: int, cronWindow: int, step: int, events: seq<CronEvent>): (int, seq<int>, RunOutcome)
    decreases |events|
  {
    if events == [] then (t, [], StillRunning)
    else match events[0]
      case Done => (t, [], StoppedByDone)
      case ContextDone => (t, [], StoppedByContext)
      case Tick(ts) =>
        if t + cronWindow < ts then
          var r := TickRun(t + step, cronWindow, step, events[1..]);
          (r.0, [t] + r.1, r.2)
        else TickRun(t, cronWindow, step, events[1..])
  }

  /** The launched windows are consecutive, starting at the caught-up watermark, and the
      watermark ends exactly one window past the last of them: every window is joined once
      and none is skipped. */
  lemma {:induction false} LaunchedWindowsAreConsecutive(t: int, cronWindow: int, step: int, events: seq<CronEvent>)
    ensures var r := TickRun(t, cronWindow, step, events);
      && r.0 == t + |r.1| * step
      && forall i | 0 <= i < |r.1| :: r.1[i] == t + i * step
    decreases |events|
  {
    if events != [] && events[0].Tick? {
      var ts := events[0].ts;
      if t + cronWindow < ts {
        var r := TickRun(t + step, cronWindow, step, events[1..]);
        LaunchedWindowsAreConsecutive(t + step, cronWindow, step, events[1..]);
        var s := [t] + r.1;
        forall i | 0 <= i < |s| ensures s[i] == t + i * step {
          if i > 0 {
            assert s[i] == r.1[i - 1] == t + step + (i - 1) * step;
          }
        }
        assert r.0 == t + step + |r.1| * step == t + |s| * step;
      } else {
        LaunchedWindowsAreConsecutive(t, cronWindow, step, events[1..]);
      }
    }
  }

  class Cron {
    const w: W.Watermark
    const windowSize: int
    var available: bool
    var tickerStopped: bool

    /** `NewCron`: a fresh cron may be run once. The tick interval only paces the ticks,
        which are the events given to `Run`. */
    constructor (windowSize: int, w: W.Watermark)
      ensures this.w == w && this.windowSize == windowSize && available && !tickerStopped
    {
      this.w := w;
      this.windowSize := windowSize;
      available := true;
      tickerStopped := false;
    }

    /** The catch-up loop of `run`. It terminates only when the watermark's step is positive
        or there is nothing to catch up. */
    method CatchUp(now: int)
      requires w.windowSize > 0 || w.t + windowSize >= now
      modifies w
      ensures w.t == W.AdvancedBy(old(w.t), w.windowSize, CatchUpCount(old(w.t), w.windowSize, windowSize, now))
    {
      ghost var n: nat := 0;
      while w.t + windowSize < now
        invariant w.t == W.AdvancedBy(old(w.t), w.windowSize, n)
        invariant w.windowSize > 0 || w.t + windowSize >= now
        invariant forall k: nat | k < n :: W.AdvancedBy(old(w.t), w.windowSize, k) + windowSize < now
        decreases now - (w.t + windowSize)
      {
        w.Advance();
        n := n + 1;
      }
      ghost var m := CatchUpCount(old(w.t), w.windowSize, windowSize, now);
      assert n == m;
    }

    /** One tick: the watermark advances at most once, and only when its window has closed
        before `ts`; the pass is launched for the watermark read before the advance. */
    method OnTick(ts: int) returns (launched: Option<int>)
      modifies w
      ensures old(w.t) + windowSize < ts ==> launched == Some(old(w.t)) && w.t == old(w.t) + w.windowSize
      ensures old(w.t) + windowSize >= ts ==> launched == None && w.t == old(w.t)
    {
      var watermark := w.Get();
      if watermark + windowSize < ts {
        w.Advance();
        launched := Some(watermark);
      } else {
        launched := None;
      }
    }

    /** `run`: panics when the cron has been run before, catches up with `now`, then serves
        `events`. Returning, by a stop signal or the panic, stops the ticker and makes the cron
        unavailable. */
    method Run(now: int, events: seq<CronEvent>) returns (outcome: RunOutcome, launched: seq<int>)
      requires available ==> w.windowSize > 0 || w.t + windowSize >= now
      modifies this, w
      ensures !old(available) ==> outcome == RunOutcome.Panicked && launched == [] && w.t == old(w.t)
      ensures old(available) ==>
        var caughtUp := W.AdvancedBy(old(w.t), w.windowSize, CatchUpCount(old(w.t), w.windowSize, windowSize, now));
        var r := TickRun(caughtUp, windowSize, w.windowSize, events);
        w.t == r.0 && launched == r.1 && outcome == r.2
      ensures outcome != StillRunning ==> !available && tickerStopped
      ensures outcome == StillRunning ==> available && tickerStopped == old(tickerStopped)
    {
      if !available {
        tickerStopped, available := true, false;
        return RunOutcome.Panicked, [];
      }
      CatchUp(now);
      ghost var caughtUp := w.t;
      launched := [];
      var i := 0;
      assert events[0..] == events;
      while i < |events|
        invariant 0 <= i <= |events|
        invariant available && tickerStopped == old(tickerStopped)
        invariant var total, rest := TickRun(caughtUp, windowSize, w.windowSize, events),
                                     TickRun(w.t, windowSize, w.windowSize, events[i..]);
          total.0 == rest.0 && total.1 == launched + rest.1 && total.2 == rest.2
      {
        assert events[i..][1..] == events[i + 1..];
        match events[i]
        case Done =>
          tickerStopped, available := true, false;
          return StoppedByDone, launched;
        case ContextDone =>
          tickerStopped, available := true, false;
          return StoppedByContext, launched;
        case Tick(ts) =>
          var pass := OnTick(ts);
          if pass.Some? {
            launched := launched + [pass.value];
          }
        i := i + 1;
      }
      assert events[i..] == [];
      outcome := StillRunning;
    }
  }

  // ---------------------------------------------------------------------------------------
  // The join pass: partition

  /** The batch ids of one side's workers for a window, in registry order: the left side is
      the workers of topic index 0, the right side every other worker. */
  function BatchIdsOf(metas: seq<WorkerMeta>, watermark: int, left: bool): seq<string>
    decreases |metas|
  {
    if metas == [] then []
    else
      var m := metas[|metas| - 1];
      BatchIdsOf(metas[..|metas| - 1], watermark, left)
      + if (m.topicIndex == 0) == left then [Utils.BatchIdFromWorkerId(m.workerId, watermark)] else []
  }

  /** Every worker's batch id lands on exactly one side, on the side its topic index says. */
  lemma {:induction false} PartitionIsExact(metas: seq<WorkerMeta>, watermark: int)
    ensures |BatchIdsOf(metas, watermark, true)| + |BatchIdsOf(metas, watermark, false)| == |metas|
    ensures forall i | 0 <= i < |metas| ::
      Utils.BatchIdFromWorkerId(metas[i].workerId, watermark) in BatchIdsOf(metas, watermark, metas[i].topicIndex == 0)
    decreases |metas|
  {
    if metas != [] {
      var init := metas[..|metas| - 1];
      PartitionIsExact(init, watermark);
      forall i | 0 <= i < |metas|
        ensures Utils.BatchIdFromWorkerId(metas[i].workerId, watermark) in BatchIdsOf(metas, watermark, metas[i].topicIndex == 0)
      {
        if i < |metas| - 1 {
          assert metas[i] == init[i];
        }
      }
    }
  }

  /** The partition loop of `asyncJoin`. */
  method PartitionBatchIds(metas: seq<WorkerMeta>, watermark: int) returns (left: seq<string>, right: seq<string>)
    ensures left == BatchIdsOf(metas, watermark, true)
    ensures right == BatchIdsOf(metas, watermark, false)
  {
    left, right := [], [];
    var i := 0;
    while i < |metas|
      invariant 0 <= i <= |metas|
      invariant left == BatchIdsOf(metas[..i], watermark, true)
      invariant right == BatchIdsOf(metas[..i], watermark, false)
    {
      assert metas[..i + 1][..i] == metas[..i];
      var batchId := Utils.BatchIdFromWorkerId(metas[i].workerId, watermark);
      if metas[i].topicIndex == 0 {
        left := left + [batchId];
      } else {
        right := right + [batchId];
      }
      i := i + 1;
    }
    assert metas[..i] == metas;
  }

  // ---------------------------------------------------------------------------------------
  // The join pass: reading the store

  /** `fetchKeySets`: the key lists of the batch ids, concatenated in batch-id order. A
      missing batch id contributes nothing; any other failure aborts. */
  function FetchKeySets(v: StoreView, batchIds: seq<string>): (r: Result<seq<string>>)
    ensures r.Err? <==> exists i | 0 <= i < |batchIds| :: batchIds[i] in v.failing
    decreases |batchIds|
  {
    if batchIds == [] then Ok([])
    else match ViewGet(v, batchIds[0])
      case Err(e) =>
        if e == KeyNotExist then
          var rest := FetchKeySets(v, batchIds[1..]);
          assert forall i | 1 <= i < |batchIds| :: batchIds[i] == batchIds[1..][i - 1];
          rest
        else Err(e)
      case Ok(bytes) =>
        match FetchKeySets(v, batchIds[1..])
        case Err(e) => assert batchIds[1..][0] in batchIds[1..]; Err(e)
        case Ok(rest) =>
          assert forall i | 1 <= i < |batchIds| :: batchIds[i] == batchIds[1..][i - 1];
          Ok(StoredKeys(bytes) + rest)
  }

  function Flatten(lists: seq<seq<string>>): seq<string> {
    if lists == [] then [] else lists[0] + Flatten(lists[1..])
  }

  /** Reading back what the join workers wrote: when each batch id holds the encoded key
      list `lists[i]`, or is absent and `lists[i]` is empty, the fetch returns the lists
      concatenated. */
  lemma {:induction false} FetchKeySetsReadsWrittenLists(v: StoreView, batchIds: seq<string>, lists: seq<seq<string>>)
    requires |batchIds| == |lists|
    requires forall i | 0 <= i < |batchIds| :: batchIds[i] !in v.failing
    requires forall i | 0 <= i < |batchIds| :: batchIds[i] in v.data ==> v.data[batchIds[i]] == EncodeKeys(lists[i])
    requires forall i | 0 <= i < |batchIds| :: batchIds[i] !in v.data ==> lists[i] == []
    ensures FetchKeySets(v, batchIds) == Ok(Flatten(lists))
    decreases |batchIds|
  {
    if batchIds != [] {
      assert forall i | 1 <= i < |batchIds| :: batchIds[1..][i - 1] == batchIds[i] && lists[1..][i - 1] == lists[i];
      FetchKeySetsReadsWrittenLists(v, batchIds[1..], lists[1..]);
      assert Flatten(lists) == lists[0] + Flatten(lists[1..]);
      if batchIds[0] in v.data {
        DecodeEncodeKeys(lists[0]);
        assert StoredKeys(v.data[batchIds[0]]) == lists[0];
      } else {
        assert lists[0] + Flatten(lists[1..]) == Flatten(lists[1..]);
      }
    }
  }

  /** `fetchRecords`: the records of the present keys, in key order; a missing key is
      skipped and any other failure aborts. */
  function FetchRecords(v: StoreView, keys: seq<string>): (r: Result<seq<Record>>)
    ensures r.Err? <==> exists i | 0 <= i < |keys| :: keys[i] in v.failing
    ensures r.Ok? ==> |r.value| <= |keys|
    decreases |keys|
  {
    if keys == [] then Ok([])
    else match ViewGet(v, keys[0])
      case Err(e) =>
        if e == KeyNotExist then
          assert forall i | 1 <= i < |keys| :: keys[i] == keys[1..][i - 1];
          FetchRecords(v, keys[1..])
        else Err(e)
      case Ok(value) =>
        match FetchRecords(v, keys[1..])
        case Err(e) => assert keys[1..][0] in keys[1..]; Err(e)
        case Ok(rest) =>
          assert forall i | 1 <= i < |keys| :: keys[i] == keys[1..][i - 1];
          Ok([Record(keys[0], value)] + rest)
  }

  /** Every fetched record holds a listed key and its stored value; when every key is
      present, the records are the keys in order, each with its value. */
  lemma {:induction false} FetchedRecordsAreStored(v: StoreView, keys: seq<string>)
    ensures var r := FetchRecords(v, keys);
      && (r.Ok? ==> forall j | 0 <= j < |r.value| ::
            r.value[j].key in keys && r.value[j].key in v.data && r.value[j].value == v.data[r.value[j].key])
      && (r.Ok? && (forall i | 0 <= i < |keys| :: keys[i] in v.data) ==>
            |r.value| == |keys| && forall j | 0 <= j < |keys| :: r.value[j] == Record(keys[j], v.data[keys[j]]))
  {
    FetchedRecordsHoldStoredValues(v, keys);
    FetchedRecordsFollowKeys(v, keys);
  }

  lemma {:induction false} FetchedRecordsHoldStoredValues(v: StoreView, keys: seq<string>)
    ensures var r := FetchRecords(v, keys);
      r.Ok? ==> forall j | 0 <= j < |r.value| ::
        r.value[j].key in keys && r.value[j].key in v.data && r.value[j].value == v.data[r.value[j].key]
    decreases |keys|
  {
    if keys != [] {
      FetchedRecordsHoldStoredValues(v, keys[1..]);
      assert forall k | k in keys[1..] :: k in keys;
      var g := ViewGet(v, keys[0]);
      var rest := FetchRecords(v, keys[1..]);
      if g.Ok? && rest.Ok? {
        var r := FetchRecords(v, keys).value;
        assert r == [Record(keys[0], g.value)] + rest.value;
        forall j | 1 <= j < |r| ensures r[j] == rest.value[j - 1] { }
      }
    }
  }

  lemma {:induction false} FetchedRecordsFollowKeys(v: StoreView, keys: seq<string>)
    ensures var r := FetchRecords(v, keys);
      r.Ok? && (forall i | 0 <= i < |keys| :: keys[i] in v.data) ==>
        |r.value| == |keys| && forall j | 0 <= j < |keys| :: r.value[j] == Record(keys[j], v.data[keys[j]])
    decreases |keys|
  {
    if keys != [] {
      FetchedRecordsFollowKeys(v, keys[1..]);
      assert forall i | 1 <= i < |keys| :: keys[i] == keys[1..][i - 1];
    }
  }

  // ---------------------------------------------------------------------------------------
  // The join pass: the callback loop

  /** The right records the callback loop joins: those whose Get succeeds, in key order. A
      miss or a failure skips the key. */
  function RightRecords(v: StoreView, keys: seq<string>): (r: seq<Record>)
    ensures forall j | 0 <= j < |r| :: r[j].key in keys && ViewGet(v, r[j].key) == Ok(r[j].value)
    decreases |keys|
  {
    if keys == [] then []
    else
      var init := RightRecords(v, keys[..|keys| - 1]);
      var key := keys[|keys| - 1];
      assert forall k | k in keys[..|keys| - 1] :: k in keys;
      match ViewGet(v, key)
      case Ok(value) => init + [Record(key, value)]
      case Err(_) => init
  }

  /** One right record against every left record, in left order. */
  function Row(lefts: seq<Record>, right: Record): (r: seq<(Record, Record)>)
    ensures |r| == |lefts| && forall j | 0 <= j < |lefts| :: r[j] == (lefts[j], right)
  {
    seq(|lefts|, j requires 0 <= j < |lefts| => (lefts[j], right))
  }

  /** Every (left, right) pair, the right side outer. */
  function Pairs(lefts: seq<Record>, rights: seq<Record>): seq<(Record, Record)>
    decreases |rights|
  {
    if rights == [] then [] else Pairs(lefts, rights[..|rights| - 1]) + Row(lefts, rights[|rights| - 1])
  }

  /** Cell (`i`, `j`) of an `n`-row table with `width` columns lies inside it, and a table
      with one row more is one row longer. */
  lemma {:induction false} CellInTable(i: nat, j: nat, n: nat, width: nat)
    requires i < n && j < width
    ensures i * width + j < n * width
    ensures n * width == (n - 1) * width + width
  {
    assert n * width == i * width + (n - i) * width;
    assert (n - i) * width >= width by {
      assert n - i >= 1;
    }
  }

  /** The length of the cross product. */
  lemma {:induction false} PairsLength(lefts: seq<Record>, rights: seq<Record>)
    ensures |Pairs(lefts, rights)| == |rights| * |lefts|
    decreases |rights|
  {
    if rights != [] {
      PairsLength(lefts, rights[..|rights| - 1]);
      var n := |rights|;
      assert n * |lefts| == (n - 1) * |lefts| + |lefts|;
    }
  }

  /** The cross product in right-outer, left-inner order: pair number `i * |lefts| + j` joins
      left record `j` with right record `i`. */
  lemma {:induction false} PairsOrder(lefts: seq<Record>, rights: seq<Record>, i: nat, j: nat)
    requires i < |rights| && j < |lefts|
    ensures i * |lefts| + j < |Pairs(lefts, rights)|
    ensures Pairs(lefts, rights)[i * |lefts| + j] == (lefts[j], rights[i])
    decreases |rights|
  {
    var n := |rights| - 1;
    var init := rights[..n];
    var cell := i * |lefts| + j;
    PairsLength(lefts, rights);
    PairsLength(lefts, init);
    CellInTable(i, j, |rights|, |lefts|);
    if i < n {
      CellInTable(i, j, n, |lefts|);
      PairsOrder(lefts, init, i, j);
      assert Pairs(lefts, rights)[cell] == Pairs(lefts, init)[cell];
    } else {
      assert Pairs(lefts, rights)[cell] == Row(lefts, rights[n])[j];
    }
  }

  /** Every pair joins a left record with a right record. */
  lemma {:induction false} PairsMembers(lefts: seq<Record>, rights: seq<Record>)
    ensures forall k | 0 <= k < |Pairs(lefts, rights)| ::
      Pairs(lefts, rights)[k].0 in lefts && Pairs(lefts, rights)[k].1 in rights
    decreases |rights|
  {
    if rights != [] {
      var init := rights[..|rights| - 1];
      PairsMembers(lefts, init);
      assert forall r | r in init :: r in rights;
    }
  }

  /** The calls made: the pairs in order up to and including the first whose callback fails,
      or all of them when none fails. */
  function UntilFirstFailure(pairs: seq<(Record, Record)>, cb: (Record, Record) -> Option<Error>): (r: seq<(Record, Record)>)
    ensures r <= pairs
    ensures forall j | 0 <= j < |r| - 1 :: cb(r[j].0, r[j].1).None?
    ensures |r| < |pairs| ==> |r| > 0 && cb(r[|r| - 1].0, r[|r| - 1].1).Some?
    ensures r == pairs || cb(r[|r| - 1].0, r[|r| - 1].1).Some?
    decreases |pairs|
  {
    if pairs == [] then []
    else if cb(pairs[0].0, pairs[0].1).Some? then [pairs[0]]
    else [pairs[0]] + UntilFirstFailure(pairs[1..], cb)
  }

  /** A prefix whose only failing call is its last (or which is everything and never fails)
      is exactly the calls made. */
  lemma {:induction false} UntilFirstFailureIs(pairs: seq<(Record, Record)>, p: seq<(Record, Record)>, cb: (Record, Record) -> Option<Error>)
    requires p <= pairs
    requires forall j | 0 <= j < |p| - 1 :: cb(p[j].0, p[j].1).None?
    requires (p == pairs && forall j | 0 <= j < |p| :: cb(p[j].0, p[j].1).None?)
          || (|p| > 0 && cb(p[|p| - 1].0, p[|p| - 1].1).Some?)
    ensures UntilFirstFailure(pairs, cb) == p
    decreases |pairs|
  {
    if p != [] {
      assert p[0] == pairs[0];
      if cb(pairs[0].0, pairs[0].1).None? {
        UntilFirstFailureIs(pairs[1..], p[1..], cb);
      }
    }
  }

  lemma {:induction false} RightRecordsPrefix(v: StoreView, keys: seq<string>, i: nat)
    requires i <= |keys|
    ensures RightRecords(v, keys[..i]) <= RightRecords(v, keys)
    decreases |keys| - i
  {
    if i < |keys| {
      var init := keys[..|keys| - 1];
      assert init[..i] == keys[..i];
      RightRecordsPrefix(v, init, i);
    } else {
      assert keys[..i] == keys;
    }
  }

  lemma {:induction false} PairsPrefix(lefts: seq<Record>, a: seq<Record>, b: seq<Record>)
    requires a <= b
    ensures Pairs(lefts, a) <= Pairs(lefts, b)
    decreases |b|
  {
    if |a| < |b| {
      assert a <= b[..|b| - 1];
      PairsPrefix(lefts, a, b[..|b| - 1]);
    } else {
      assert a == b;
    }
  }

  /** The row of a right key: its record against every left record, or nothing when its Get
      does not succeed. */
  function RowOf(v: StoreView, lefts: seq<Record>, key: string): seq<(Record, Record)> {
    match ViewGet(v, key)
    case Ok(value) => Row(lefts, Record(key, value))
    case Err(_) => []
  }

  /** The pairs contributed by one more right key: a row when its Get succeeds, nothing
      otherwise. */
  lemma {:induction false} NextRow(v: StoreView, lefts: seq<Record>, keys: seq<string>, i: nat)
    requires i < |keys|
    ensures var next := Pairs(lefts, RightRecords(v, keys[..i + 1]));
      && next == Pairs(lefts, RightRecords(v, keys[..i]))
                 + RowOf(v, lefts, keys[i])
      && next <= Pairs(lefts, RightRecords(v, keys))
  {
    assert keys[..i + 1][..i] == keys[..i];
    RightRecordsPrefix(v, keys, i + 1);
    PairsPrefix(lefts, RightRecords(v, keys[..i + 1]), RightRecords(v, keys));
  }

  /** The inner loop of the join: one right record against the left records in order,
      stopping at the first callback error. */
  method JoinRow(lefts: seq<Record>, right: Record, cb: (Record, Record) -> Option<Error>)
    returns (calls: seq<(Record, Record)>, failed: bool)
    ensures calls <= Row(lefts, right)
    ensures forall j | 0 <= j < |calls| - 1 :: cb(calls[j].0, calls[j].1).None?
    ensures failed ==> |calls| > 0 && cb(calls[|calls| - 1].0, calls[|calls| - 1].1).Some?
    ensures !failed ==> calls == Row(lefts, right) && forall j | 0 <= j < |calls| :: cb(calls[j].0, calls[j].1).None?
  {
    ghost var row := Row(lefts, right);
    calls := [];
    var k := 0;
    while k < |lefts|
      invariant 0 <= k <= |lefts|
      invariant calls == row[..k]
      invariant forall j | 0 <= j < |calls| :: cb(calls[j].0, calls[j].1).None?
    {
      assert row[..k + 1] == row[..k] + [(lefts[k], right)];
      calls := calls + [(lefts[k], right)];
      if cb(lefts[k], right).Some? {
        return calls, true;
      }
      k := k + 1;
    }
    assert row[..k] == row;
    failed := false;
  }

  lemma {:induction false} PrefixOfSum<T>(a: seq<T>, b: seq<T>, c: seq<T>, d: seq<T>)
    requires b <= c && a + c <= d
    ensures a + b <= d
  {
    assert (a + b) == (a + c)[..|a + b|];
  }

  /** A row whose callback failed ends the pass: the calls so far and that row's calls are
      exactly the calls made. */
  lemma {:induction false} FailedRowEndsPass(all: seq<(Record, Record)>, calls: seq<(Record, Record)>,
                                             rowCalls: seq<(Record, Record)>, row: seq<(Record, Record)>,
                                             cb: (Record, Record) -> Option<Error>)
    requires rowCalls <= row && calls + row <= all
    requires forall j | 0 <= j < |calls| :: cb(calls[j].0, calls[j].1).None?
    requires forall j | 0 <= j < |rowCalls| - 1 :: cb(rowCalls[j].0, rowCalls[j].1).None?
    requires |rowCalls| > 0 && cb(rowCalls[|rowCalls| - 1].0, rowCalls[|rowCalls| - 1].1).Some?
    ensures UntilFirstFailure(all, cb) == calls + rowCalls
  {
    PrefixOfSum(calls, rowCalls, row, all);
    var p := calls + rowCalls;
    forall j | 0 <= j < |p| - 1 ensures cb(p[j].0, p[j].1).None? {
      if j >= |calls| {
        assert p[j] == rowCalls[j - |calls|];
      }
    }
    UntilFirstFailureIs(all, p, cb);
  }

  /** Two runs of calls without a failing callback make one. */
  lemma {:induction false} NoFailureAppend(a: seq<(Record, Record)>, b: seq<(Record, Record)>,
                                           cb: (Record, Record) -> Option<Error>)
    requires forall j | 0 <= j < |a| :: cb(a[j].0, a[j].1).None?
    requires forall j | 0 <= j < |b| :: cb(b[j].0, b[j].1).None?
    ensures forall j | 0 <= j < |a + b| :: cb((a + b)[j].0, (a + b)[j].1).None?
  {
    forall j | 0 <= j < |a + b| ensures cb((a + b)[j].0, (a + b)[j].1).None? {
      if j >= |a| {
        assert (a + b)[j] == b[j - |a|];
      }
    }
  }

  /** One right key of the join loop: its Get, then, when that succeeds, the callback against
      the left records in order. */
  method JoinKey(store: MapStore, lefts: seq<Record>, key: string, cb: (Record, Record) -> Option<Error>)
    returns (rowCalls: seq<(Record, Record)>, failed: bool)
    ensures rowCalls <= RowOf(store.View(), lefts, key)
    ensures forall j | 0 <= j < |rowCalls| - 1 :: cb(rowCalls[j].0, rowCalls[j].1).None?
    ensures failed ==> |rowCalls| > 0 && cb(rowCalls[|rowCalls| - 1].0, rowCalls[|rowCalls| - 1].1).Some?
    ensures !failed ==> rowCalls == RowOf(store.View(), lefts, key)
                        && forall j | 0 <= j < |rowCalls| :: cb(rowCalls[j].0, rowCalls[j].1).None?
  {
    var val := store.Get(key);
    if val.Err? {
      return [], false;
    }
    rowCalls, failed := JoinRow(lefts, Record(key, val.value), cb);
  }

  /** The join loop of `asyncJoin`: for every right key whose Get succeeds, the callback runs
      once per left record; the first callback error ends the pass. */
  method CallbackLoop(store: MapStore, lefts: seq<Record>, rightKeys: seq<string>, cb: (Record, Record) -> Option<Error>)
    returns (calls: seq<(Record, Record)>)
    ensures calls == UntilFirstFailure(Pairs(lefts, RightRecords(store.View(), rightKeys)), cb)
  {
    ghost var v := store.View();
    ghost var all := Pairs(lefts, RightRecords(v, rightKeys));
    calls := [];
    var i := 0;
    while i < |rightKeys|
      invariant 0 <= i <= |rightKeys|
      invariant calls == Pairs(lefts, RightRecords(v, rightKeys[..i]))
      invariant forall j | 0 <= j < |calls| :: cb(calls[j].0, calls[j].1).None?
    {
      var rowCalls, failed := JoinKey(store, lefts, rightKeys[i], cb);
      assert calls + RowOf(v, lefts, rightKeys[i]) == Pairs(lefts, RightRecords(v, rightKeys[..i + 1]))
          && Pairs(lefts, RightRecords(v, rightKeys[..i + 1])) <= all by {
        NextRow(v, lefts, rightKeys, i);
      }
      if failed {
        FailedRowEndsPass(all, calls, rowCalls, RowOf(v, lefts, rightKeys[i]), cb);
        return calls + rowCalls;
      }
      NoFailureAppend(calls, rowCalls, cb);
      calls := calls + rowCalls;
      i := i + 1;
    }
    assert rightKeys[..i] == rightKeys;
    UntilFirstFailureIs(all, calls, cb);
  }

  // ---------------------------------------------------------------------------------------
  // The join pass: cleanup

  /** The store after deleting `keys` one after another. */
  function DeleteAll(v: StoreView, keys: seq<string>): StoreView
    decreases |keys|
  {
    if keys == [] then v else ViewDelete(DeleteAll(v, keys[..|keys| - 1]), keys[|keys| - 1]).0
  }

  function DeleteCalls(keys: seq<string>): (r: seq<Call>)
    ensures |r| == |keys| && forall i | 0 <= i < |keys| :: r[i] == DeleteCall(keys[i])
  {
    seq(|keys|, i requires 0 <= i < |keys| => DeleteCall(keys[i]))
  }

  lemma {:induction false} DeleteAllAppend(v: StoreView, a: seq<string>, b: seq<string>)
    ensures DeleteAll(DeleteAll(v, a), b) == DeleteAll(v, a + b)
    decreases |b|
  {
    if b != [] {
      assert (a + b)[..|a + b| - 1] == a + b[..|b| - 1];
      DeleteAllAppend(v, a, b[..|b| - 1]);
    } else {
      assert a + b == a;
    }
  }

  /** Deleting a list of keys removes every key of the list that does not fail, and leaves
      every other key as it was. */
  lemma {:induction false} DeleteAllRemoves(v: StoreView, keys: seq<string>)
    ensures forall k | k in keys && k !in v.failing :: k !in DeleteAll(v, keys).data
    ensures forall k | k !in keys :: ViewGet(DeleteAll(v, keys), k) == ViewGet(v, k)
    ensures DeleteAll(v, keys).failing == v.failing
    decreases |keys|
  {
    if keys != [] {
      var init := keys[..|keys| - 1];
      DeleteAllRemoves(v, init);
      assert forall k | k in keys :: k in init || k == keys[|keys| - 1];
      assert forall k | k in init :: k in keys;
    }
  }

  /** Deferred cleanup: deletes each key in order; a failed delete is only logged. */
  method DeleteEach(store: MapStore, keys: seq<string>)
    requires store.Valid()
    modifies store
    ensures store.Valid()
    ensures store.View() == DeleteAll(old(store.View()), keys)
    ensures store.log == old(store.log) + DeleteCalls(keys)
  {
    var i := 0;
    while i < |keys|
      invariant 0 <= i <= |keys|
      invariant store.Valid()
      invariant store.View() == DeleteAll(old(store.View()), keys[..i])
      invariant store.log == old(store.log) + DeleteCalls(keys[..i])
    {
      assert keys[..i + 1][..i] == keys[..i];
      var _ := store.Delete(keys[i]);
      assert DeleteCalls(keys[..i + 1]) == DeleteCalls(keys[..i]) + [DeleteCall(keys[i])];
      i := i + 1;
    }
    assert keys[..i] == keys;
  }

  // ---------------------------------------------------------------------------------------
  // The join pass as a whole

  /** What a join pass does: the callback calls it makes and the keys it deletes, in order.
      The deferred functions run last-registered first: the right record keys (registered
      only once the right key lists were read), then the left record keys (registered once
      the left key lists were read), then the batch ids, left side first. */
  datatype JoinPass = JoinPass(calls: seq<(Record, Record)>, deleted: seq<string>)

  function JoinPassOf(v: StoreView, metas: seq<WorkerMeta>, watermark: int, cb: (Record, Record) -> Option<Error>): JoinPass {
    var left := BatchIdsOf(metas, watermark, true);
    var right := BatchIdsOf(metas, watermark, false);
    match FetchKeySets(v, left)
    case Err(_) => JoinPass([], left + right)
    case Ok(leftKeys) =>
      match FetchKeySets(v, right)
      case Err(_) => JoinPass([], leftKeys + (left + right))
      case Ok(rightKeys) =>
        var leftRecords := match FetchRecords(v, leftKeys) case Ok(rs) => rs case Err(_) => [];
        JoinPass(UntilFirstFailure(Pairs(leftRecords, RightRecords(v, rightKeys)), cb),
                 rightKeys + (leftKeys + (left + right)))
  }

  /** What every pass guarantees: every worker's batch id is deleted whatever happens;
      record keys are deleted exactly for the sides whose key lists were read, the right
      side's first, then the left side's, then the batch ids; no callback runs
      unless both key lists and the left records were read; and every call joins a left
      record and a right record that the store held. */
  lemma {:induction false} JoinPassGuarantees(v: StoreView, metas: seq<WorkerMeta>, watermark: int, cb: (Record, Record) -> Option<Error>)
    ensures var pass := JoinPassOf(v, metas, watermark, cb);
      && (forall i | 0 <= i < |metas| :: Utils.BatchIdFromWorkerId(metas[i].workerId, watermark) in pass.deleted)
      && (pass.calls != [] ==>
            var leftKeys := FetchKeySets(v, BatchIdsOf(metas, watermark, true));
            && leftKeys.Ok? && FetchKeySets(v, BatchIdsOf(metas, watermark, false)).Ok?
            && FetchRecords(v, leftKeys.value).Ok?)
      && (forall j | 0 <= j < |pass.calls| ::
            && pass.calls[j].0.key in v.data && pass.calls[j].0.value == v.data[pass.calls[j].0.key]
            && ViewGet(v, pass.calls[j].1.key) == Ok(pass.calls[j].1.value))
    ensures var pass := JoinPassOf(v, metas, watermark, cb);
      var left := BatchIdsOf(metas, watermark, true);
      var right := BatchIdsOf(metas, watermark, false);
      var leftKeys := FetchKeySets(v, left);
      var rightKeys := FetchKeySets(v, right);
      && (leftKeys.Err? ==> pass.deleted == left + right)
      && (leftKeys.Ok? && rightKeys.Err? ==> pass.deleted == leftKeys.value + (left + right))
      && (leftKeys.Ok? && rightKeys.Ok? ==> pass.deleted == rightKeys.value + (leftKeys.value + (left + right)))
  {
    PartitionIsExact(metas, watermark);
    var pass := JoinPassOf(v, metas, watermark, cb);
    var left := BatchIdsOf(metas, watermark, true);
    var right := BatchIdsOf(metas, watermark, false);
    assert forall k | k in left + right :: k in pass.deleted;
    var leftKeys := FetchKeySets(v, left);
    var rightKeys := FetchKeySets(v, right);
    if leftKeys.Ok? && rightKeys.Ok? {
      var leftRecords := match FetchRecords(v, leftKeys.value) case Ok(rs) => rs case Err(_) => [];
      var rights := RightRecords(v, rightKeys.value);
      FetchedRecordsAreStored(v, leftKeys.value);
      PairsMembers(leftRecords, rights);
      assert pass.calls <= Pairs(leftRecords, rights);
    }
  }

  /** `asyncJoin` for one window: the pass `JoinPassOf` describes, run on the store. */
  method AsyncJoin(store: MapStore, metas: seq<WorkerMeta>, watermark: int, cb: (Record, Record) -> Option<Error>)
    returns (calls: seq<(Record, Record)>)
    requires store.Valid()
    modifies store
    ensures store.Valid()
    ensures var pass := JoinPassOf(old(store.View()), metas, watermark, cb);
      && calls == pass.calls
      && store.View() == DeleteAll(old(store.View()), pass.deleted)
      && store.log == old(store.log) + DeleteCalls(pass.deleted)
  {
    var leftBatchIds, rightBatchIds := PartitionBatchIds(metas, watermark);
    ghost var v, log0 := store.View(), store.log;
    var leftKeySets := FetchKeySets(store.View(), leftBatchIds);
    if leftKeySets.Err? {
      DeleteBatchIds(store, leftBatchIds, rightBatchIds);
      return [];
    }
    var rightKeySets := FetchKeySets(store.View(), rightBatchIds);
    if rightKeySets.Err? {
      DeleteEach(store, leftKeySets.value);
      DeleteBatchIds(store, leftBatchIds, rightBatchIds);
      Chain(v, log0, leftKeySets.value, leftBatchIds + rightBatchIds);
      return [];
    }
    var leftRecords := FetchRecords(store.View(), leftKeySets.value);
    calls := CallbackLoop(store, if leftRecords.Ok? then leftRecords.value else [], rightKeySets.value, cb);
    DeleteEach(store, rightKeySets.value);
    DeleteEach(store, leftKeySets.value);
    DeleteBatchIds(store, leftBatchIds, rightBatchIds);
    ChainOfThree(v, log0, rightKeySets.value, leftKeySets.value, leftBatchIds + rightBatchIds);
  }

  /** The first deferred function: the batch ids of the left side, then of the right. */
  method DeleteBatchIds(store: MapStore, left: seq<string>, right: seq<string>)
    requires store.Valid()
    modifies store
    ensures store.Valid()
    ensures store.View() == DeleteAll(old(store.View()), left + right)
    ensures store.log == old(store.log) + DeleteCalls(left + right)
  {
    DeleteEach(store, left);
    DeleteEach(store, right);
    DeleteAllAppend(old(store.View()), left, right);
    DeleteCallsAppend(left, right);
  }

  /** Two cleanups in a row are one cleanup of both lists. */
  lemma {:induction false} Chain(v: StoreView, log: seq<Call>, a: seq<string>, b: seq<string>)
    ensures DeleteAll(DeleteAll(v, a), b) == DeleteAll(v, a + b)
    ensures log + DeleteCalls(a) + DeleteCalls(b) == log + DeleteCalls(a + b)
  {
    DeleteAllAppend(v, a, b);
    DeleteCallsAppend(a, b);
  }

  lemma {:induction false} DeleteCallsAppend(a: seq<string>, b: seq<string>)
    ensures DeleteCalls(a) + DeleteCalls(b) == DeleteCalls(a + b)
  {
    var l, r := DeleteCalls(a) + DeleteCalls(b), DeleteCalls(a + b);
    assert |l| == |r|;
    forall i | 0 <= i < |l| ensures l[i] == r[i] {
      if i < |a| {
        assert l[i] == DeleteCall(a[i]);
      } else {
        assert l[i] == DeleteCall(b[i - |a|]);
      }
    }
  }

  /** Three cleanups in a row are one cleanup of the three lists. */
  lemma {:induction false} ChainOfThree(v: StoreView, log: seq<Call>, a: seq<string>, b: seq<string>, c: seq<string>)
    ensures DeleteAll(DeleteAll(DeleteAll(v, a), b), c) == DeleteAll(v, a + (b + c))
    ensures log + DeleteCalls(a) + DeleteCalls(b) + DeleteCalls(c) == log + DeleteCalls(a + (b + c))
  {
    DeleteAllOfThree(v, a, b, c);
    DeleteCallsOfThree(log, a, b, c);
  }

  lemma {:induction false} DeleteAllOfThree(v: StoreView, a: seq<string>, b: seq<string>, c: seq<string>)
    ensures DeleteAll(DeleteAll(DeleteAll(v, a), b), c) == DeleteAll(v, a + (b + c))
  {
    var w := DeleteAll(v, a);
    assert DeleteAll(DeleteAll(w, b), c) == DeleteAll(w, b + c) by {
      DeleteAllAppend(w, b, c);
    }
    assert DeleteAll(w, b + c) == DeleteAll(v, a + (b + c)) by {
      DeleteAllAppend(v, a, b + c);
    }
  }

  lemma {:induction false} DeleteCallsOfThree(log: seq<Call>, a: seq<string>, b: seq<string>, c: seq<string>)
    ensures log + DeleteCalls(a) + DeleteCalls(b) + DeleteCalls(c) == log + DeleteCalls(a + (b + c))
  {
    var da, db, dc := DeleteCalls(a), DeleteCalls(b), DeleteCalls(c);
    assert db + dc == DeleteCalls(b + c) by {
      DeleteCallsAppend(b, c);
    }
    assert da + (db + dc) == DeleteCalls(a + (b + c)) by {
      DeleteCallsAppend(a, b + c);
    }
    assert log + da + db + dc == log + (da + (db + dc));
  }

  /** Cleanup keeps the store well formed. */
  lemma {:induction false} DeleteAllKeepsValid(v: StoreView, keys: seq<string>)
    requires ViewValid(v)
    ensures ViewValid(DeleteAll(v, keys))
    decreases |keys|
  {
    if keys != [] {
      DeleteAllKeepsValid(v, keys[..|keys| - 1]);
      DeleteKeepsValid(DeleteAll(v, keys[..|keys| - 1]), keys[|keys| - 1]);
    }
  }

  /** Two stored keys read back as their two records. */
  lemma {:induction false} FetchTwo(v: StoreView, k1: string, k2: string)
    requires k1 in v.data && k2 in v.data && k1 !in v.failing && k2 !in v.failing
    ensures FetchRecords(v, [k1, k2]) == Ok([Record(k1, v.data[k1]), Record(k2, v.data[k2])])
  {
    var keys := [k1, k2];
    var r := FetchRecords(v, keys);
    assert forall i | 0 <= i < |keys| :: keys[i] in v.data && keys[i] !in v.failing;
    FetchedRecordsAreStored(v, keys);
    assert |r.value| == 2;
    assert r.value[0] == Record(k1, v.data[k1]) && r.value[1] == Record(k2, v.data[k2]);
    assert r.value == [Record(k1, v.data[k1]), Record(k2, v.data[k2])];
  }

  /** A left worker and a right worker: one batch id on each side. */
  lemma {:induction false} TwoWorkerPartition(leftWorker: string, rightWorker: string, watermark: int)
    ensures var metas := [WorkerMeta(leftWorker, 0, true), WorkerMeta(rightWorker, 1, true)];
      && BatchIdsOf(metas, watermark, true) == [Utils.BatchIdFromWorkerId(leftWorker, watermark)]
      && BatchIdsOf(metas, watermark, false) == [Utils.BatchIdFromWorkerId(rightWorker, watermark)]
  {
    var metas := [WorkerMeta(leftWorker, 0, true), WorkerMeta(rightWorker, 1, true)];
    var bl, br := Utils.BatchIdFromWorkerId(leftWorker, watermark), Utils.BatchIdFromWorkerId(rightWorker, watermark);
    var first := metas[..1];
    assert first == [metas[0]];
    assert first[..|first| - 1] == [];
    assert BatchIdsOf(first, watermark, true) == BatchIdsOf([], watermark, true) + [bl];
    assert BatchIdsOf(first, watermark, false) == BatchIdsOf([], watermark, false) + [];
    assert metas[..|metas| - 1] == first;
    assert BatchIdsOf(metas, watermark, true) == BatchIdsOf(first, watermark, true) + [];
    assert BatchIdsOf(metas, watermark, false) == BatchIdsOf(first, watermark, false) + [br];
  }

  /** The join of two left records against one right record, when no callback fails. */
  lemma {:induction false} TwoByOne(ra: Record, rb: Record, rc: Record, cb: (Record, Record) -> Option<Error>)
    requires cb(ra, rc).None? && cb(rb, rc).None?
    ensures UntilFirstFailure(Pairs([ra, rb], [rc]), cb) == [(ra, rc), (rb, rc)]
  {
    assert [rc][..|[rc]| - 1] == [];
    var pairs := Pairs([ra, rb], [rc]);
    var row := Row([ra, rb], rc);
    assert pairs == Pairs([ra, rb], []) + row;
    assert row[0] == (ra, rc) && row[1] == (rb, rc);
    assert row == [(ra, rc), (rb, rc)];
    UntilFirstFailureIs(pairs, pairs, cb);
  }

  /** The store of the join scenario: the left worker's list ["a", "b"] and the right
      worker's list ["c"] under their batch ids, and the three records. */
  ghost predicate ScenarioStore(v: StoreView, bl: string, br: string, va: seq<byte>, vb: seq<byte>, vc: seq<byte>) {
    && ViewValid(v) && v.failing == {}
    && bl in v.data && v.data[bl] == EncodeKeys(["a", "b"])
    && br in v.data && v.data[br] == EncodeKeys(["c"])
    && "a" in v.data && v.data["a"] == va
    && "b" in v.data && v.data["b"] == vb
    && "c" in v.data && v.data["c"] == vc
  }

  /** In the scenario store, the two key lists and the three records read back. */
  lemma {:induction false} ScenarioReads(v: StoreView, bl: string, br: string, va: seq<byte>, vb: seq<byte>, vc: seq<byte>)
    requires ScenarioStore(v, bl, br, va, vb, vc)
    ensures FetchKeySets(v, [bl]) == Ok(["a", "b"])
    ensures FetchKeySets(v, [br]) == Ok(["c"])
    ensures FetchRecords(v, ["a", "b"]) == Ok([Record("a", va), Record("b", vb)])
    ensures RightRecords(v, ["c"]) == [Record("c", vc)]
  {
    FetchKeySetsReadsWrittenLists(v, [bl], [["a", "b"]]);
    FetchKeySetsReadsWrittenLists(v, [br], [["c"]]);
    assert Flatten([["a", "b"]]) == ["a", "b"] && Flatten([["c"]]) == ["c"];
    FetchTwo(v, "a", "b");
    assert ["c"][..0] == [];
  }

  /** The pass of the scenario: two calls, then the deletes of the right keys, the left
      keys and the two batch ids. */
  lemma {:induction false} ScenarioPass(v: StoreView, leftWorker: string, rightWorker: string, watermark: int,
                     va: seq<byte>, vb: seq<byte>, vc: seq<byte>, cb: (Record, Record) -> Option<Error>)
    requires ScenarioStore(v, Utils.BatchIdFromWorkerId(leftWorker, watermark), Utils.BatchIdFromWorkerId(rightWorker, watermark), va, vb, vc)
    requires forall l, r :: cb(l, r).None?
    ensures JoinPassOf(v, [WorkerMeta(leftWorker, 0, true), WorkerMeta(rightWorker, 1, true)], watermark, cb) ==
      JoinPass([(Record("a", va), Record("c", vc)), (Record("b", vb), Record("c", vc))],
               ["c"] + (["a", "b"] + ([Utils.BatchIdFromWorkerId(leftWorker, watermark)] + [Utils.BatchIdFromWorkerId(rightWorker, watermark)])))
  {
    var bl, br := Utils.BatchIdFromWorkerId(leftWorker, watermark), Utils.BatchIdFromWorkerId(rightWorker, watermark);
    TwoWorkerPartition(leftWorker, rightWorker, watermark);
    ScenarioReads(v, bl, br, va, vb, vc);
    TwoByOne(Record("a", va), Record("b", vb), Record("c", vc), cb);
  }

  /** The join scenario: a left worker has buffered keys "a" and "b" and a right worker key
      "c" for the closed window. With a callback that never fails, the pass calls it exactly
      twice, each left record against "c", and afterwards neither batch id nor any of the
      three keys is stored or listed. */
  lemma {:induction false} JoinScenario(v: StoreView, leftWorker: string, rightWorker: string, watermark: int,
                     va: seq<byte>, vb: seq<byte>, vc: seq<byte>, cb: (Record, Record) -> Option<Error>)
    requires ScenarioStore(v, Utils.BatchIdFromWorkerId(leftWorker, watermark), Utils.BatchIdFromWorkerId(rightWorker, watermark), va, vb, vc)
    requires forall l, r :: cb(l, r).None?
    ensures var pass := JoinPassOf(v, [WorkerMeta(leftWorker, 0, true), WorkerMeta(rightWorker, 1, true)], watermark, cb);
      var after := DeleteAll(v, pass.deleted);
      && pass.calls == [(Record("a", va), Record("c", vc)), (Record("b", vb), Record("c", vc))]
      && ViewValid(after)
      && forall k | k in [Utils.BatchIdFromWorkerId(leftWorker, watermark), Utils.BatchIdFromWorkerId(rightWorker, watermark), "a", "b", "c"] ::
           k !in after.data && k !in after.listing
  {
    var bl, br := Utils.BatchIdFromWorkerId(leftWorker, watermark), Utils.BatchIdFromWorkerId(rightWorker, watermark);
    ScenarioPass(v, leftWorker, rightWorker, watermark, va, vb, vc, cb);
    var pass := JoinPassOf(v, [WorkerMeta(leftWorker, 0, true), WorkerMeta(rightWorker, 1, true)], watermark, cb);
    var after := DeleteAll(v, pass.deleted);
    DeleteAllRemoves(v, pass.deleted);
    DeleteAllKeepsValid(v, pass.deleted);
    forall k | k in [bl, br, "a", "b", "c"] ensures k !in after.data && k !in after.listing {
      assert k in pass.deleted;
    }
  }
}
