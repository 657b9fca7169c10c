/** The processor's orchestration (pkg/core/core.go): `Initialize`, `Run` and `Exit` drive the
    lifecycle state machine with guarded transitions, and a transition that was started is
    always released again (the source defers `resetFunc`).

    The package variables become the fields of one `Engine`. Workers run as goroutines, so
    `Run` here only records which workers it starts, with the context each gets; what a
    worker has reported by the time `Run` checks its error channel is an input. The effects of
    `Exit` whose order the source fixes are recorded, in order, in `trace`. */
module Core {
  import opened Base
  import opened Models
  import Utils
  import Encoding
  import opened Conf
  import opened Producer
  import opened Consumer
  import Worker
  import opened FunctionState

  // ---------------------------------------------------------------------------------------
  // Initialize: the checks it makes

  /** `doOnInit`: the OnInit callback's error, or its panic as an error. The stack trace the
      source appends to a panic's message is not modelled. */
  function DoOnInit(o: CallOutcome): (r: Option<Error>)
    ensures r.None? <==> o == Completed(None)
    ensures o.Completed? ==> r == o.err
    ensures o.Panicked? ==> r.Some? && r.value.Panic?
  {
    match o
    case Completed(err) => err
    case Panicked(v) => Some(Panic(v))
  }

  /** The callbacks check of `Initialize`: callbacks must be given, a process processor needs
      `Process`, a join processor needs `Join`, and any other type is not recognized. */
  function CallbacksError(processorType: string, pc: Option<Callbacks>): (r: Option<Error>)
    ensures r.None? <==>
      pc.Some? && ((processorType == ProcessorTypeProcess && pc.value.process.Some?) ||
                   (processorType == ProcessorTypeJoin && pc.value.join.Some?))
    ensures pc.Some? && processorType != ProcessorTypeProcess && processorType != ProcessorTypeJoin ==>
      r == Some(ProcessorTypeNotRecognized)
  {
    if pc.None? then Some(Failed("processor callbacks are not specified"))
    else if processorType == ProcessorTypeProcess then
      if pc.value.process.None? then Some(Failed("process in processor callbacks is not specified")) else None
    else if processorType == ProcessorTypeJoin then
      if pc.value.join.None? then Some(Failed("join in processor callbacks is not specified")) else None
    else Some(ProcessorTypeNotRecognized)
  }

  /** Some address `initProducers` needs for `cfg` is unreachable. */
  ghost predicate ProducersFail(cfg: InternalProcessorConfig, order: seq<string>, unreachable: set<string>)
    requires forall k | 0 <= k < |order| :: order[k] in OutputsOf(cfg)
  {
    || (cfg.defaultOutputKafkaConfig.Some? && cfg.defaultOutputKafkaConfig.value.address in unreachable)
    || exists k | 0 <= k < |order| :: OutputsOf(cfg)[order[k]].address in unreachable
  }

  // ---------------------------------------------------------------------------------------
  // Run: the workers it starts and its start-up check

  /** A started worker: its consumer config, its index within that config, the uuid it
      drew, and whether it runs the join callback (otherwise the process callback). */
  datatype WorkerStart = WorkerStart(config: ConsumerConfig, index: nat, uuid: string, joins: bool)

  /** The context `Run` gives a worker: derived from the empty background context. */
  function ContextOf(w: WorkerStart, name: string): Utils.Context {
    Utils.NewWorkerContext(map[], w.index, name, w.config.topic, w.uuid)
  }

  /** The first `n` workers of one consumer config, started at positions `base`, `base + 1`, …;
      `uuid(k)` is the uuid the k-th started worker draws. */
  function ConfigWorkers(cc: ConsumerConfig, joins: bool, uuid: nat -> string, base: nat, n: nat): (r: seq<WorkerStart>)
    ensures |r| == n
  {
    if n == 0 then []
    else ConfigWorkers(cc, joins, uuid, base, n - 1) + [WorkerStart(cc, n - 1, uuid(base + n - 1), joins)]
  }

  /** The workers started for `ccs`, config by config, from position `base`. A config with no
      positive worker count starts none. */
  function WorkersOf(ccs: seq<ConsumerConfig>, joins: bool, uuid: nat -> string, base: nat): seq<WorkerStart> {
    if ccs == [] then []
    else
      var front := WorkersOf(ccs[..|ccs| - 1], joins, uuid, base);
      var last := ccs[|ccs| - 1];
      front + ConfigWorkers(last, joins, uuid, base + |front|, WorkerCount(last))
  }

  /** The workers `Run` starts for one config: none unless its count is positive. */
  function WorkerCount(cc: ConsumerConfig): nat {
    if cc.numOfWorkers > 0 then cc.numOfWorkers else 0
  }

  /** `workerTotalCount`: the sum of the configs' worker counts. */
  function TotalWorkers(ccs: seq<ConsumerConfig>): int {
    if ccs == [] then 0 else TotalWorkers(ccs[..|ccs| - 1]) + ccs[|ccs| - 1].numOfWorkers
  }

  /** One more config adds its workers after the ones before it. */
  lemma {:induction false} WorkersOfNext(ccs: seq<ConsumerConfig>, j: nat, joins: bool, uuid: nat -> string, base: nat,
                      front: seq<WorkerStart>)
    requires j < |ccs| && front == WorkersOf(ccs[..j], joins, uuid, base)
    ensures WorkersOf(ccs[..j + 1], joins, uuid, base) ==
      front + ConfigWorkers(ccs[j], joins, uuid, base + |front|, WorkerCount(ccs[j]))
  {
    var prefix := ccs[..j + 1];
    assert prefix[..|prefix| - 1] == ccs[..j];
    assert prefix[|prefix| - 1] == ccs[j];
  }

  /** When every config has a positive worker count, as a loaded config does, `Run` starts
      exactly `workerTotalCount` workers. */
  lemma {:induction false} StartsTotalWorkers(ccs: seq<ConsumerConfig>, joins: bool, uuid: nat -> string, base: nat)
    requires forall k | 0 <= k < |ccs| :: ccs[k].numOfWorkers > 0
    ensures |WorkersOf(ccs, joins, uuid, base)| == TotalWorkers(ccs)
  {
    if ccs != [] {
      StartsTotalWorkers(ccs[..|ccs| - 1], joins, uuid, base);
    }
  }

  /** Worker `i` of a config has index `i` and the uuid of its position. */
  lemma {:induction false} ConfigWorkerAt(cc: ConsumerConfig, joins: bool, uuid: nat -> string, base: nat, n: nat, i: nat)
    requires i < n
    ensures ConfigWorkers(cc, joins, uuid, base, n)[i] == WorkerStart(cc, i, uuid(base + i), joins)
  {
    if i < n - 1 {
      ConfigWorkerAt(cc, joins, uuid, base, n - 1, i);
    }
  }

  /** The k-th worker started draws the uuid of position `base + k`. */
  lemma {:induction false} WorkerUuid(ccs: seq<ConsumerConfig>, joins: bool, uuid: nat -> string, base: nat, k: nat)
    requires k < |WorkersOf(ccs, joins, uuid, base)|
    ensures WorkersOf(ccs, joins, uuid, base)[k].uuid == uuid(base + k)
  {
    var front := WorkersOf(ccs[..|ccs| - 1], joins, uuid, base);
    if k < |front| {
      WorkerUuid(ccs[..|ccs| - 1], joins, uuid, base, k);
    } else {
      var last := ccs[|ccs| - 1];
      ConfigWorkerAt(last, joins, uuid, base + |front|, WorkerCount(last), k - |front|);
    }
  }

  /** Each started worker runs with a worker id built from its index, the processor name,
      its topic and the uuid of its position. */
  lemma {:induction false} StartedWorkerIds(ccs: seq<ConsumerConfig>, name: string, joins: bool, uuid: nat -> string, base: nat, k: nat)
    requires k < |WorkersOf(ccs, joins, uuid, base)|
    ensures var w := WorkersOf(ccs, joins, uuid, base)[k];
      Utils.WorkerId(ContextOf(w, name)) == (Utils.NewWorkerId(w.index, name, w.config.topic, uuid(base + k)), true)
  {
    WorkerUuid(ccs, joins, uuid, base, k);
  }

  /** What a worker's error channel holds when `Run` looks at it without blocking: nothing
      yet, an error, or nothing because the channel is already closed. */
  datatype Startup = Silent | Reported(err: Error) | ClosedEmpty

  /** The first of the first `total` error channels that has something to receive. A channel
      beyond the given outcomes is silent. */
  function FirstStartupFailure(startups: seq<Startup>, total: int, i: nat): (r: Option<nat>)
    ensures r.Some? ==> i <= r.value < total && r.value < |startups| && startups[r.value] != Silent
    ensures r.Some? ==> forall j | i <= j < r.value && j < |startups| :: startups[j] == Silent
    ensures r.None? ==> forall j | i <= j < total && j < |startups| :: startups[j] == Silent
    decreases |startups| - i
  {
    if i >= total || i >= |startups| then None
    else if startups[i] != Silent then Some(i)
    else FirstStartupFailure(startups, total, i + 1)
  }

  /** The error `Run` returns for worker `i`. A closed channel reads as a nil error. */
  function StartupError(i: nat, s: Startup): Error {
    var prefix := "start worker #" + Encoding.NatToDecimal(i) + " failed";
    match s
    case Reported(e) => Wrapped(prefix, e)
    case _ => Failed(prefix + ": <nil>")
  }

  /** The worker-starting loops of `Run`: one worker per consumer config and index below
      its worker count, from position `base`. */
  method StartWorkers(ccs: seq<ConsumerConfig>, joins: bool, uuid: nat -> string, base: nat)
    returns (started: seq<WorkerStart>)
    ensures started == WorkersOf(ccs, joins, uuid, base)
  {
    started := [];
    for j := 0 to |ccs|
      invariant started == WorkersOf(ccs[..j], joins, uuid, base)
    {
      var more := StartConfigWorkers(ccs[j], joins, uuid, base + |started|);
      WorkersOfNext(ccs, j, joins, uuid, base, started);
      started := started + more;
    }
    assert ccs[..|ccs|] == ccs;
  }

  /** The counting loop of `Run`: the sum of the configs' worker counts. */
  method SumWorkers(ccs: seq<ConsumerConfig>) returns (total: int)
    ensures total == TotalWorkers(ccs)
  {
    total := 0;
    for j := 0 to |ccs|
      invariant total == TotalWorkers(ccs[..j])
    {
      total := total + ccs[j].numOfWorkers;
      assert ccs[..j + 1][..j] == ccs[..j];
    }
    assert ccs[..|ccs|] == ccs;
  }

  /** The inner loop of `Run`: the workers of one consumer config, each drawing a uuid. */
  method StartConfigWorkers(cc: ConsumerConfig, joins: bool, uuid: nat -> string, base: nat)
    returns (started: seq<WorkerStart>)
    ensures started == ConfigWorkers(cc, joins, uuid, base, WorkerCount(cc))
  {
    started := [];
    for i := 0 to WorkerCount(cc)
      invariant started == ConfigWorkers(cc, joins, uuid, base, i)
    {
      started := started + [WorkerStart(cc, i, uuid(base + i), joins)];
    }
  }

  // ---------------------------------------------------------------------------------------
  // Exit: the order of its effects

  datatype Effect = NotifyExit(channel: nat) | ConsumersClosed | ProducersClosed | OnExitCalled | Committed(state: State)

  /** "exit" on each of the first `n` notify channels, in order. */
  function NotifyAll(n: nat): (r: seq<Effect>)
    ensures |r| == n
    ensures forall k | 0 <= k < n :: r[k] == NotifyExit(k)
  {
    seq(n, k requires 0 <= k < n => NotifyExit(k))
  }

  /** The effects of an `Exit` that gets to start its transition. */
  function ExitEffects(channels: nat, hasOnExit: bool): seq<Effect> {
    NotifyAll(channels) + [ConsumersClosed, ProducersClosed] + (if hasOnExit then [OnExitCalled] else []) + [Committed(Exited)]
  }

  /** `Exit` notifies every worker once, and before anything is closed; consumers close
      before producers; `OnExit` runs iff there is one, after both; the commit comes last. */
  lemma {:induction false} ExitOrder(channels: nat, hasOnExit: bool)
    ensures var t := ExitEffects(channels, hasOnExit);
      && (forall k | 0 <= k < channels :: t[k] == NotifyExit(k))
      && t[channels] == ConsumersClosed && t[channels + 1] == ProducersClosed
      && (OnExitCalled in t <==> hasOnExit)
      && t[|t| - 1] == Committed(Exited)
      && (forall e | e in t && e.NotifyExit? :: e.channel < channels)
      && |t| == channels + (if hasOnExit then 4 else 3)
  {
    var t := ExitEffects(channels, hasOnExit);
    assert t[channels] == ConsumersClosed;
    forall e | e in t && e.NotifyExit? ensures e.channel < channels {
      var k :| 0 <= k < |t| && t[k] == e;
    }
  }

  // ---------------------------------------------------------------------------------------
  // The package state

  class Engine {
    const fs: FunctionState
    const cs: ConfigState
    const ps: Producers
    const groups: ConsumerGroups
    const metas: Worker.MetaRegistry
    var callbacks: Option<Callbacks>
    var workers: seq<WorkerStart>   // one notify and one error channel per worker, by position
    var trace: seq<Effect>

    /** The producers' connections exist, and a processor past `Created` has its callbacks. */
    ghost predicate Valid()
      reads this, fs, ps, ps.broker
    {
      ps.Valid() && (fs.funcState != Created ==> callbacks.Some?)
    }

    constructor (fs: FunctionState, cs: ConfigState, ps: Producers, groups: ConsumerGroups, metas: Worker.MetaRegistry)
      requires ps.Valid() && fs.funcState == Created
      ensures Valid()
      ensures this.fs == fs && this.cs == cs && this.ps == ps && this.groups == groups && this.metas == metas
      ensures callbacks.None? && workers == [] && trace == []
    {
      this.fs := fs;
      this.cs := cs;
      this.ps := ps;
      this.groups := groups;
      this.metas := metas;
      callbacks := None;
      workers := [];
      trace := [];
    }

    /** `Initialize`. `order` is the order in which the output map is visited. */
    method Initialize(ipc: InternalProcessorConfig, pc: Option<Callbacks>, order: seq<string>) returns (err: Option<Error>)
      requires Valid()
      requires Enumerates(order, OutputsOf(ipc))
      modifies this, fs, cs, ps, ps.broker, groups, metas
      ensures Valid()
      ensures trace == old(trace)
      ensures StartStep(old(fs.Snapshot()), Initialized).1.Some? ==>
        && err == Some(Wrapped("start transition failed", StartStep(old(fs.Snapshot()), Initialized).1.value))
        && fs.Snapshot() == old(fs.Snapshot()) && cs.c == old(cs.c) && callbacks == old(callbacks)
        && workers == old(workers) && groups.groups == old(groups.groups)
      ensures StartStep(old(fs.Snapshot()), Initialized).1.None? ==>
        && !fs.transitioning
        && fs.funcState == (if err.None? then Initialized else old(fs.funcState))
      ensures StartStep(old(fs.Snapshot()), Initialized).1.None? ==>
        var (checked, e) := InternalValidate(ipc);
        && (e.Some? ==> err == e && cs.c == old(cs.c) && callbacks == old(callbacks))
        && (e.None? ==> cs.c == Some(checked) && workers == [] && metas.metas == map[])
        && (e.None? && CallbacksError(checked.processorType, pc).Some? ==>
              err == CallbacksError(checked.processorType, pc) && callbacks == old(callbacks))
        && (e.None? && CallbacksError(checked.processorType, pc).None? ==>
              && callbacks == pc && groups.groups == []
              && (ProducersFail(ipc, order, ps.broker.unreachable) ==> err.Some?)
              && (!ProducersFail(ipc, order, ps.broker.unreachable) && pc.value.onInit.Some? &&
                  DoOnInit(pc.value.onInit.value).Some? ==>
                    err == Some(Wrapped("user callback OnInit failed", DoOnInit(pc.value.onInit.value).value)))
              && ((!ProducersFail(ipc, order, ps.broker.unreachable) &&
                   (pc.value.onInit.None? || DoOnInit(pc.value.onInit.value).None?)) ==> err.None?))
    {
      var reset, startErr := fs.StartTransition(Initialized);
      if startErr.Some? {
        return Some(Wrapped("start transition failed", startErr.value));
      }
      err := InitializeSteps(ipc, pc, order);
      fs.ResetTransition();
    }

    /** The body of `Initialize` once its transition is started, up to the deferred reset. */
    method InitializeSteps(ipc: InternalProcessorConfig, pc: Option<Callbacks>, order: seq<string>) returns (err: Option<Error>)
      requires ps.Valid() && fs.transitioning && Allowed(fs.funcState, Initialized)
      requires Enumerates(order, OutputsOf(ipc))
      modifies this, fs, cs, ps, ps.broker, groups, metas
      ensures ps.Valid() && trace == old(trace)
      ensures fs.transitioning
      ensures fs.funcState == (if err.None? then Initialized else old(fs.funcState))
      ensures var (checked, e) := InternalValidate(ipc);
        && (e.Some? ==> err == e && cs.c == old(cs.c) && callbacks == old(callbacks))
        && (e.None? ==> cs.c == Some(checked) && workers == [] && metas.metas == map[])
        && (e.None? && CallbacksError(checked.processorType, pc).Some? ==>
              err == CallbacksError(checked.processorType, pc) && callbacks == old(callbacks))
        && (e.None? && CallbacksError(checked.processorType, pc).None? ==>
              && callbacks == pc && groups.groups == []
              && (ProducersFail(ipc, order, ps.broker.unreachable) ==> err.Some?)
              && (!ProducersFail(ipc, order, ps.broker.unreachable) && pc.value.onInit.Some? &&
                  DoOnInit(pc.value.onInit.value).Some? ==>
                    err == Some(Wrapped("user callback OnInit failed", DoOnInit(pc.value.onInit.value).value)))
              && ((!ProducersFail(ipc, order, ps.broker.unreachable) &&
                   (pc.value.onInit.None? || DoOnInit(pc.value.onInit.value).None?)) ==> err.None?))
    {
      var (checked, e) := InternalValidate(ipc);
      if e.Some? {
        return e;
      }
      InternalValidateIdempotent(ipc);
      var loadErr := cs.LoadConfig(checked);
      var c := cs.Config();
      var cfg := c.value;
      assert OutputsOf(cfg) == OutputsOf(ipc);

      workers := [];
      metas.metas := map[];

      var cbErr := CallbacksError(cfg.processorType, pc);
      if cbErr.Some? {
        return cbErr;
      }
      callbacks := pc;

      err := InitializeServices(cfg, pc.value, order);
    }

    /** The part of `Initialize` after the callbacks are stored: the consumer list, the
        producers and the `OnInit` callback, then the commit. */
    method InitializeServices(cfg: InternalProcessorConfig, pc: Callbacks, order: seq<string>) returns (err: Option<Error>)
      requires ps.Valid() && fs.transitioning && Allowed(fs.funcState, Initialized)
      requires Enumerates(order, OutputsOf(cfg))
      modifies fs, ps, ps.broker, groups
      ensures ps.Valid() && fs.transitioning && groups.groups == []
      ensures fs.funcState == (if err.None? then Initialized else old(fs.funcState))
      ensures ProducersFail(cfg, order, ps.broker.unreachable) ==> err.Some?
      ensures !ProducersFail(cfg, order, ps.broker.unreachable) && pc.onInit.Some? && DoOnInit(pc.onInit.value).Some? ==>
        err == Some(Wrapped("user callback OnInit failed", DoOnInit(pc.onInit.value).value))
      ensures !ProducersFail(cfg, order, ps.broker.unreachable) && (pc.onInit.None? || DoOnInit(pc.onInit.value).None?) ==>
        err.None?
    {
      var consumerErr := groups.InitConsumer();

      var producersErr := ps.InitProducers(cfg, order);
      if producersErr.Some? {
        return Some(Wrapped("init producers failed", producersErr.value));
      }

      if pc.onInit.Some? {
        var onInitErr := DoOnInit(pc.onInit.value);
        if onInitErr.Some? {
          return Some(Wrapped("user callback OnInit failed", onInitErr.value));
        }
      }

      // The commit cannot fail: the transition to Initialized was started and is still held.
      var transitErr := fs.TransitTo(Initialized);
      if transitErr.Some? {
        assert false;
      }
      return None;
    }

    /** `Run`. `uuid(k)` is the uuid the k-th started worker draws, `joinStore` is what
        creating the join's state store gives, `startups[i]` is what error channel `i` holds
        when `Run` checks it, and `order` is the order in which `Exit` would visit the
        producer table. */
    method Run(uuid: nat -> string, joinStore: Option<Error>, startups: seq<Startup>, order: seq<string>)
      returns (err: Option<Error>)
      requires Valid()
      requires Enumerates(order, ps.producers)
      modifies this, fs, ps.broker, groups
      ensures Valid()
      ensures StartStep(old(fs.Snapshot()), Running).1.Some? ==>
        && err == Some(Wrapped("start transition failed", StartStep(old(fs.Snapshot()), Running).1.value))
        && fs.Snapshot() == old(fs.Snapshot()) && workers == old(workers) && trace == old(trace)
      ensures StartStep(old(fs.Snapshot()), Running).1.None? && cs.c.None? ==>
        && err == Some(Panic("config is not initialized"))
        && fs.Snapshot() == Machine(old(fs.funcState), false) && workers == old(workers) && trace == old(trace)
      ensures StartStep(old(fs.Snapshot()), Running).1.None? && cs.c.Some? ==>
        var c := cs.c.value;
        var joins := c.processorType != ProcessorTypeProcess;
        && (joins && joinStore.Some? ==>
              && err == joinStore
              && fs.Snapshot() == Machine(old(fs.funcState), false) && workers == old(workers) && trace == old(trace))
        && (!joins || joinStore.None? ==>
              var failure := FirstStartupFailure(startups, TotalWorkers(c.consumerConfigs), 0);
              && workers == old(workers) + WorkersOf(c.consumerConfigs, joins, uuid, |old(workers)|)
              && (failure.None? ==>
                    err.None? && fs.Snapshot() == Machine(Running, false) && trace == old(trace))
              && (failure.Some? ==>
                    && err == Some(StartupError(failure.value, startups[failure.value]))
                    && fs.Snapshot() == Machine(Exited, false)
                    && trace == old(trace) + ExitEffects(|workers|, callbacks.value.hasOnExit)))
    {
      var reset, transitionErr := fs.StartTransition(Running);
      if transitionErr.Some? {
        return Some(Wrapped("start transition failed", transitionErr.value));
      }
      var c := cs.Config();
      if c.Err? {
        fs.ResetTransition();
        return Some(c.error);
      }
      err := RunSteps(c.value, uuid, joinStore, startups, order);
    }

    /** The body of `Run` once its transition is started and the config is loaded. For a
        join processor the source runs the cron here, synchronously, and that call does not
        return; the model leaves the cron to `Cron.Cron.Run` and goes on to the workers. */
    method RunSteps(c: InternalProcessorConfig, uuid: nat -> string, joinStore: Option<Error>,
                    startups: seq<Startup>, order: seq<string>)
      returns (err: Option<Error>)
      requires Valid()
      requires Enumerates(order, ps.producers)
      requires fs.transitioning && Allowed(fs.funcState, Running)
      modifies this, fs, ps.broker, groups
      ensures Valid()
      ensures var joins := c.processorType != ProcessorTypeProcess;
        && (joins && joinStore.Some? ==>
              && err == joinStore
              && fs.Snapshot() == Machine(old(fs.funcState), false) && workers == old(workers) && trace == old(trace))
        && (!joins || joinStore.None? ==>
              var failure := FirstStartupFailure(startups, TotalWorkers(c.consumerConfigs), 0);
              && workers == old(workers) + WorkersOf(c.consumerConfigs, joins, uuid, |old(workers)|)
              && (failure.None? ==>
                    err.None? && fs.Snapshot() == Machine(Running, false) && trace == old(trace))
              && (failure.Some? ==>
                    && err == Some(StartupError(failure.value, startups[failure.value]))
                    && fs.Snapshot() == Machine(Exited, false)
                    && trace == old(trace) + ExitEffects(|workers|, callbacks.value.hasOnExit)))
    {
      var ccs := c.consumerConfigs;
      var workerTotalCount := SumWorkers(ccs);

      var joins := c.processorType != ProcessorTypeProcess;
      if joins && joinStore.Some? {
        fs.ResetTransition();
        return joinStore;
      }
      var started := StartWorkers(ccs, joins, uuid, |workers|);
      workers := workers + started;

      var failure := CheckStartups(startups, workerTotalCount);
      if failure.Some? {
        fs.ResetTransition();
        Exit(order);
        return Some(StartupError(failure.value, startups[failure.value]));
      }

      // The commit cannot fail: the transition to Running was started and is still held.
      var commitErr := fs.TransitTo(Running);
      if commitErr.Some? {
        assert false;
      }
      fs.ResetTransition();
      return None;
    }

    /** The non-blocking start-up check of `Run` over the first `total` error channels. */
    method CheckStartups(startups: seq<Startup>, total: int) returns (failure: Option<nat>)
      ensures failure == FirstStartupFailure(startups, total, 0)
    {
      var i := 0;
      while i < total
        invariant 0 <= i
        invariant FirstStartupFailure(startups, total, 0) == FirstStartupFailure(startups, total, i)
      {
        if i < |startups| && startups[i] != Silent {
          return Some(i);
        }
        if i >= |startups| {
          return None;
        }
        i := i + 1;
      }
      return None;
    }

    /** The notification loop of `Exit`: "exit" on each worker's notify channel. */
    method NotifyWorkers()
      modifies this
      ensures trace == old(trace) + NotifyAll(|workers|)
      ensures workers == old(workers) && callbacks == old(callbacks)
    {
      for k := 0 to |workers|
        invariant trace == old(trace) + NotifyAll(k)
        invariant workers == old(workers) && callbacks == old(callbacks)
      {
        trace := trace + [NotifyExit(k)];
      }
    }

    /** `Exit`. `order` is the order in which the producer table is visited. */
    method Exit(order: seq<string>)
      requires Valid()
      requires Enumerates(order, ps.producers)
      modifies this, fs, ps.broker, groups
      ensures Valid() && workers == old(workers) && callbacks == old(callbacks)
      ensures StartStep(old(fs.Snapshot()), Exited).1.Some? ==>
        && fs.Snapshot() == old(fs.Snapshot()) && trace == old(trace)
        && groups.closeCalls == old(groups.closeCalls) && ps.broker.closed == old(ps.broker.closed)
      ensures StartStep(old(fs.Snapshot()), Exited).1.None? ==>
        && fs.Snapshot() == Machine(Exited, false)
        && trace == old(trace) + ExitEffects(|workers|, callbacks.value.hasOnExit)
        && groups.closeCalls == old(groups.closeCalls) + groups.groups
        && ps.broker.closed == old(ps.broker.closed) + ConnsOf(ps.producers, order)
    {
      var reset, transitionErr := fs.StartTransition(Exited);
      if transitionErr.Some? {
        return;
      }
      ExitSteps(order);
    }

    /** The body of `Exit` once its transition is started. */
    method ExitSteps(order: seq<string>)
      requires Valid() && callbacks.Some?
      requires Enumerates(order, ps.producers)
      requires fs.transitioning && Allowed(fs.funcState, Exited)
      modifies this, fs, ps.broker, groups
      ensures Valid() && workers == old(workers) && callbacks == old(callbacks)
      ensures fs.Snapshot() == Machine(Exited, false)
      ensures trace == old(trace) + ExitEffects(|workers|, callbacks.value.hasOnExit)
      ensures groups.closeCalls == old(groups.closeCalls) + groups.groups
      ensures ps.broker.closed == old(ps.broker.closed) + ConnsOf(ps.producers, order)
    {
      NotifyWorkers();

      groups.CloseConsumerGroup();
      trace := trace + [ConsumersClosed];

      ps.CloseProducers(order);
      trace := trace + [ProducersClosed];

      if callbacks.value.hasOnExit {
        trace := trace + [OnExitCalled];
      }

      // The commit cannot fail: the transition to Exited was started and is still held.
      var commitErr := fs.TransitTo(Exited);
      if commitErr.Some? {
        assert false;
      }
      trace := trace + [Committed(Exited)];
      fs.ResetTransition();
    }
  }
}
