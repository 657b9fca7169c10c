/** The monitor's command endpoint (pkg/api/monitor.go): the dispatch of its seven commands,
    the root config it holds, the topics it creates on the Kafka cluster and removes again when
    a creation fails, the processor endpoints it matches, and the commands it forwards to the
    processors.

    The package's globals are the fields of `Monitor`; the cluster admin client is an `Admin`
    object that records what is asked of it. What a processor answers over HTTP, and whether
    connecting the admin client fails, enter as parameters. Go's map iteration order enters as
    an `order` parameter that visits every key once. */
module ApiMonitor {
  import opened Base
  import opened Conf
  import P = ApiProcessor

  // ---------------------------------------------------------------------------------------
  // Commands

  const LoadRootConfigCommand: string := "loadRootConfig"
  const CreateTopicsCommand: string := "createTopics"
  const LoadProcessorEndpointsCommand: string := "loadProcessorEndpoints"
  const InitializeProcessorsCommand: string := "initializeProcessors"
  const RunProcessorsCommand: string := "runProcessors"
  const LoadCommand: string := "load"
  const CatProcessorCommand: string := "catProcessor"

  /** Where `MonitorHandle` sends a command. */
  datatype MonitorRoute =
    | ToLoadRootConfig | ToCreateTopics | ToLoadProcessorEndpoints | ToInitializeProcessors
    | ToRunProcessors | ToLoad | ToCatProcessor | MissingCommand | Unrecognized

  /** The empty-command check of `MonitorHandle`, then the switch of `monitorHandle`. */
  function MonitorRouteOf(command: string): MonitorRoute {
    if command == "" then MissingCommand
    else if command == LoadRootConfigCommand then ToLoadRootConfig
    else if command == CreateTopicsCommand then ToCreateTopics
    else if command == LoadProcessorEndpointsCommand then ToLoadProcessorEndpoints
    else if command == InitializeProcessorsCommand then ToInitializeProcessors
    else if command == RunProcessorsCommand then ToRunProcessors
    else if command == LoadCommand then ToLoad
    else if command == CatProcessorCommand then ToCatProcessor
    else Unrecognized
  }

  /** The command name a handled route answers to. */
  function MonitorCommandOf(r: MonitorRoute): string
    requires r != MissingCommand && r != Unrecognized
  {
    match r
    case ToLoadRootConfig => LoadRootConfigCommand
    case ToCreateTopics => CreateTopicsCommand
    case ToLoadProcessorEndpoints => LoadProcessorEndpointsCommand
    case ToInitializeProcessors => InitializeProcessorsCommand
    case ToRunProcessors => RunProcessorsCommand
    case ToLoad => LoadCommand
    case ToCatProcessor => CatProcessorCommand
  }

  /** Exactly seven command names are handled, each by its own handler; the empty command is
      missing and every other name is unrecognized. */
  lemma {:induction false} MonitorRoutesAreExact(command: string)
    ensures MonitorRouteOf(command) == MissingCommand <==> command == ""
    ensures MonitorRouteOf(command) != MissingCommand && MonitorRouteOf(command) != Unrecognized ==>
      MonitorCommandOf(MonitorRouteOf(command)) == command
    ensures MonitorRouteOf(command) == Unrecognized <==>
      command !in {"", LoadRootConfigCommand, CreateTopicsCommand, LoadProcessorEndpointsCommand,
                   InitializeProcessorsCommand, RunProcessorsCommand, LoadCommand, CatProcessorCommand}
  {
  }

  /** The body `MonitorHandle` writes for a decoded request, given the outcome of the handler
      the command is routed to. Unlike the processor's endpoint, an unrecognized command's
      error is wrapped like any handler error, since `monitorHandle` returns it. A handler that
      panics never returns to the wrap: the deferred `recover` replies with the panic itself. */
  function MonitorReply(command: string, handled: Result<P.InvokerResponse>): P.InvokerResponse {
    match MonitorRouteOf(command)
    case MissingCommand => P.Failure(Failed("request command is missing"))
    case Unrecognized =>
      P.Failure(Wrapped("handle monitor command failed", Failed("unrecognized command " + command)))
    case _ =>
      if handled.Err? then P.Failure(Wrap("handle monitor command failed", handled.error))
      else handled.value
  }

  /** A handled command answers with its handler's response, fails with the handler's error
      wrapped, or, when the handler panics, fails with the panic as recovered; the others fail
      whatever `handled` says. */
  lemma {:induction false} MonitorReplyByRoute(command: string, handled: Result<P.InvokerResponse>)
    ensures var r := MonitorReply(command, handled);
      && (command == "" ==> r == P.Failure(Failed("request command is missing")))
      && (MonitorRouteOf(command) == Unrecognized ==>
            r == P.Failure(Wrapped("handle monitor command failed", Failed("unrecognized command " + command))))
      && (MonitorRouteOf(command) != MissingCommand && MonitorRouteOf(command) != Unrecognized ==>
            && (handled.Ok? ==> r == handled.value)
            && (handled.Err? && !handled.error.Panic? ==>
                  r == P.Failure(Wrapped("handle monitor command failed", handled.error)))
            && (handled.Err? && handled.error.Panic? ==> r == P.Failure(handled.error)))
  {
    MonitorRoutesAreExact(command);
  }

  // ---------------------------------------------------------------------------------------
  // Topics

  /** `conf.InternalKafkaConfig` as the monitor records a topic it has made sure of. */
  datatype CreatedTopic = CreatedTopic(address: string, topic: string, partitions: int)

  /** `ProcessorMetadata`; the status field is never set and is not modelled. */
  datatype ProcessorClient = ProcessorClient(processorName: string, url: string)
  datatype ProcessorMetadata = ProcessorMetadata(name: string, client: Option<ProcessorClient>)

  const AdminFailure: Error := Library("cluster admin request failed")

  /** Go's `int32(x)` conversion: the low 32 bits, read as a signed number. */
  function Int32Of(x: int): (r: int)
    ensures -0x8000_0000 <= r < 0x8000_0000
    ensures (x - r) % 0x1_0000_0000 == 0
    ensures -0x8000_0000 <= x < 0x8000_0000 ==> r == x
  {
    (x + 0x8000_0000) % 0x1_0000_0000 - 0x8000_0000
  }

  /** `tryCreateTopic` on a cluster holding `topics` (topic to partition count) whose
      `ListTopics` fails when `listFails` and whose `CreateTopic` rejects the names in
      `rejecting`. */
  function TryCreate(topics: map<string, int>, listFails: bool, rejecting: set<string>,
                     topic: string, partitions: int): (map<string, int>, Option<Error>)
  {
    if listFails then (topics, Some(Wrapped("list topics failed", AdminFailure)))
    else if topic in topics then (topics, None)
    else if topic in rejecting then (topics, Some(Wrapped("create topic failed", AdminFailure)))
    else (topics[topic := Int32Of(partitions)], None)
  }

  /** `tryCreateTopic` succeeds iff it can list the topics and the topic either exists or is
      accepted. An existing topic is left as it is, whatever partition count is asked for; a
      new one gets the count cut to 32 bits. Nothing else on the cluster changes. */
  lemma {:induction false} TryCreateOutcome(topics: map<string, int>, listFails: bool, rejecting: set<string>,
                                            topic: string, partitions: int)
    ensures var (after, err) := TryCreate(topics, listFails, rejecting, topic, partitions);
      && (err.None? <==> !listFails && (topic in topics || topic !in rejecting))
      && (err.None? ==> topic in after)
      && (topic in topics || err.Some? ==> after == topics)
      && (err.None? && topic !in topics ==> after == topics[topic := Int32Of(partitions)])
      && after.Keys == topics.Keys + (if err.None? then {topic} else {})
  {
  }

  /** One iteration of a topic-creating loop of `createTopics`: create a topic, skip the
      processor, or dereference a missing output config. */
  datatype Step = Create(topic: string, partitions: int) | Skip | Crash

  /** How a topic-creating loop ends. */
  datatype StepsEnd = AllDone | Crashed | CreateFailed(err: Error)

  /** The cluster's topics after a loop, the topics the loop records, and how it ends. */
  datatype StepsRun = StepsRun(topics: map<string, int>, created: seq<CreatedTopic>, end: StepsEnd)

  /** The first loop: one creation per initial topic. */
  function InitialSteps(ts: seq<InitialTopic>): seq<Step> {
    seq(|ts|, k requires 0 <= k < |ts| => Create(ts[k].topic, ts[k].partitions))
  }

  /** The second loop's step for a processor: its interim topic, named after it, is created
      only when its default topic partition count is not 0. */
  function InterimStep(pc: ProcessorConfig): Step {
    if pc.outputConfig.None? then Crash
    else if pc.outputConfig.value.defaultTopicPartitions == 0 then Skip
    else Create(pc.name, pc.outputConfig.value.defaultTopicPartitions)
  }

  function InterimSteps(pcs: seq<ProcessorConfig>): seq<Step> {
    seq(|pcs|, k requires 0 <= k < |pcs| => InterimStep(pcs[k]))
  }

  /** For a config that passed validation, the second loop cannot crash, and it creates
      exactly one topic per processor whose partition count is not 0, named after that
      processor, with that positive count; no two of these topics share a name. */
  lemma {:induction false} InterimTopicRule(rc: RootConfig)
    requires WellFormed(rc)
    ensures var pcs := rc.processorConfigs; var steps := InterimSteps(pcs);
      && |steps| == |pcs|
      && (forall k | 0 <= k < |pcs| :: steps[k] != Crash)
      && (forall k | 0 <= k < |pcs| ::
            steps[k].Create? <==> pcs[k].outputConfig.value.defaultTopicPartitions != 0)
      && (forall k | 0 <= k < |pcs| && steps[k].Create? ::
            steps[k].topic == pcs[k].name && steps[k].partitions > 0)
      && (forall j, k | 0 <= j < k < |pcs| && steps[j].Create? && steps[k].Create? ::
            steps[j].topic != steps[k].topic)
  {
    var pcs := rc.processorConfigs;
    forall k | 0 <= k < |pcs| ensures ProcessorShapeOk(pcs[k]) {}
    forall j, k | 0 <= j < k < |pcs| ensures pcs[j].name != pcs[k].name {}
  }

  /** A topic-creating loop from step `i` on, over a cluster holding `topics`: each creation
      is recorded once it succeeds; the first failure or crash ends the loop. */
  function RunSteps(topics: map<string, int>, listFails: bool, rejecting: set<string>, address: string,
                    steps: seq<Step>, i: nat): StepsRun
    requires i <= |steps|
    decreases |steps| - i
  {
    if i == |steps| then StepsRun(topics, [], AllDone)
    else match steps[i]
      case Skip => RunSteps(topics, listFails, rejecting, address, steps, i + 1)
      case Crash => StepsRun(topics, [], Crashed)
      case Create(t, p) =>
        var (after, err) := TryCreate(topics, listFails, rejecting, t, p);
        if err.Some? then StepsRun(topics, [], CreateFailed(Wrapped("try create topic failed", err.value)))
        else
          var rest := RunSteps(after, listFails, rejecting, address, steps, i + 1);
          StepsRun(rest.topics, [CreatedTopic(address, t, p)] + rest.created, rest.end)
  }

  /** A loop runs to the end iff no step crashes and every topic it creates either exists or
      is accepted (and listing works, if there is anything to create). It never removes or
      alters a topic already on the cluster, and when it runs to the end every topic of its
      steps is on the cluster and recorded. */
  lemma {:induction false} StepsOutcome(topics: map<string, int>, listFails: bool, rejecting: set<string>,
                                        address: string, steps: seq<Step>, i: nat)
    requires i <= |steps|
    ensures var run := RunSteps(topics, listFails, rejecting, address, steps, i);
      && (run.end == AllDone <==>
            forall k | i <= k < |steps| ::
              && steps[k] != Crash
              && (steps[k].Create? ==> !listFails && (steps[k].topic in topics || steps[k].topic !in rejecting)))
      && (forall t | t in topics :: t in run.topics && run.topics[t] == topics[t])
      && (run.end == AllDone ==>
            forall k | i <= k < |steps| && steps[k].Create? ::
              steps[k].topic in run.topics
              && CreatedTopic(address, steps[k].topic, steps[k].partitions) in run.created)
    decreases |steps| - i
  {
    if i < |steps| {
      match steps[i]
      case Skip =>
        StepsOutcome(topics, listFails, rejecting, address, steps, i + 1);
      case Crash =>
      case Create(t, p) =>
        var (after, err) := TryCreate(topics, listFails, rejecting, t, p);
        TryCreateOutcome(topics, listFails, rejecting, t, p);
        if err.None? {
          StepsOutcome(after, listFails, rejecting, address, steps, i + 1);
          forall k | i < k < |steps| && steps[k].Create?
            ensures steps[k].topic in after || steps[k].topic !in rejecting <==>
                    steps[k].topic in topics || steps[k].topic !in rejecting
          {
          }
        }
    }
  }

  /** The names of recorded topics, in order. */
  function TopicNames(cts: seq<CreatedTopic>): seq<string> {
    seq(|cts|, k requires 0 <= k < |cts| => cts[k].topic)
  }

  /** What a removal pass leaves: the cluster's topics, the deletions asked for, and the
      first error. */
  datatype Removal = Removal(topics: map<string, int>, calls: seq<string>, err: Option<Error>)

  /** `removeTopics` from name `i` on: each name is deleted in order, and the first deletion
      that fails (the topic is protected or no longer there) ends the pass. */
  function DeleteRun(topics: map<string, int>, undeletable: set<string>, names: seq<string>, i: nat): Removal
    requires i <= |names|
    decreases |names| - i
  {
    if i == |names| then Removal(topics, [], None)
    else if names[i] in undeletable || names[i] !in topics then Removal(topics, [names[i]], Some(AdminFailure))
    else
      var rest := DeleteRun(topics - {names[i]}, undeletable, names, i + 1);
      Removal(rest.topics, [names[i]] + rest.calls, rest.err)
  }

  /** No name occurs twice in `names[i..]`. */
  predicate DistinctFrom(names: seq<string>, i: nat) {
    forall a, b | i <= a < b < |names| :: names[a] != names[b]
  }

  /** A removal pass succeeds iff the names are distinct, all on the cluster and none
      protected; it then removes exactly those topics, the ones that existed before the monitor
      recorded them included, and asks for each deletion once. */
  lemma {:induction false} RemovalDeletesListed(topics: map<string, int>, undeletable: set<string>,
                                                names: seq<string>, i: nat)
    requires i <= |names|
    ensures var rem := DeleteRun(topics, undeletable, names, i);
      && (rem.err.None? <==>
            && DistinctFrom(names, i)
            && forall k | i <= k < |names| :: names[k] in topics && names[k] !in undeletable)
      && (rem.err.None? ==>
            && rem.calls == names[i..]
            && rem.topics == map t | t in topics && t !in names[i..] :: topics[t])
    decreases |names| - i
  {
    if i < |names| {
      var n := names[i];
      assert names[i..] == [n] + names[i + 1..];
      if !(n in undeletable || n !in topics) {
        RemovalDeletesListed(topics - {n}, undeletable, names, i + 1);
      }
    }
  }

  /** The monitor rolls back a failed creation by removing every topic it has recorded. */
  function RollbackError(createErr: Error, removeErr: Option<Error>): (r: Error)
    ensures removeErr.None? ==> r == createErr
    ensures removeErr.Some? ==> r == removeErr.value
  {
    if removeErr.Some? then removeErr.value else createErr
  }

  /** The error `createTopics` returns after a rollback, as written: the `err` the branches
      return is the one the `if` statement declares, the removal's, which shadows the
      creation's, so a rollback that succeeds returns no error and no response. */
  function RollbackErrorAsWritten(createErr: Error, removeErr: Option<Error>): (r: Option<Error>)
    ensures r == removeErr
  {
    if removeErr.Some? then removeErr else removeErr
  }

  /** A creation that fails and is rolled back cleanly is reported as written with neither
      a response nor an error, so the endpoint writes a null body; the corrected rollback
      reports the creation's error. */
  lemma {:induction false} RollbackHidesCreationFailure(createErr: Error)
    ensures RollbackErrorAsWritten(createErr, None).None?
    ensures RollbackError(createErr, None) == createErr
  {
  }

  /** `createTopics`' last loop from processor `i` on: an entry holding only the name for
      every processor, replacing any entry, and the client it held, under that name. */
  function ResetMetadata(m: map<string, ProcessorMetadata>, pcs: seq<ProcessorConfig>, i: nat): map<string, ProcessorMetadata>
    requires i <= |pcs|
    decreases |pcs| - i
  {
    if i == |pcs| then m
    else ResetMetadata(m[pcs[i].name := ProcessorMetadata(pcs[i].name, None)], pcs, i + 1)
  }

  /** After the reset every processor has an entry with no client; other entries stay. */
  lemma {:induction false} ResetDropsClients(m: map<string, ProcessorMetadata>, pcs: seq<ProcessorConfig>, i: nat)
    requires i <= |pcs|
    ensures var r := ResetMetadata(m, pcs, i);
      && (forall n :: n in r <==> n in m || exists k | i <= k < |pcs| :: pcs[k].name == n)
      && (forall k | i <= k < |pcs| :: r[pcs[k].name] == ProcessorMetadata(pcs[k].name, None))
      && (forall n | n in m && (forall k | i <= k < |pcs| :: pcs[k].name != n) :: r[n] == m[n])
    decreases |pcs| - i
  {
    if i < |pcs| {
      var m' := m[pcs[i].name := ProcessorMetadata(pcs[i].name, None)];
      ResetDropsClients(m', pcs, i + 1);
      var r := ResetMetadata(m', pcs, i + 1);
      forall k | i <= k < |pcs| ensures r[pcs[k].name] == ProcessorMetadata(pcs[k].name, None) {
        if k == i && forall j | i + 1 <= j < |pcs| :: pcs[j].name != pcs[i].name {
          assert r[pcs[i].name] == m'[pcs[i].name];
        }
      }
    }
  }

  // ---------------------------------------------------------------------------------------
  // Endpoint matching

  /** `strings.Contains`. */
  predicate Contains(s: string, sub: string) {
    exists i | 0 <= i <= |s| - |sub| :: OccursAt(s, sub, i)
  }

  /** `sub` occurs in `s` at position `i`. */
  predicate OccursAt(s: string, sub: string, i: int) {
    0 <= i && i + |sub| <= |s| && s[i..i + |sub|] == sub
  }

  /** The first endpoint from `i` on that contains `name`. */
  function FirstContaining(endpoints: seq<string>, name: string, i: nat): Option<string>
    requires i <= |endpoints|
    decreases |endpoints| - i
  {
    if i == |endpoints| then None
    else if Contains(endpoints[i], name) then Some(endpoints[i])
    else FirstContaining(endpoints, name, i + 1)
  }

  /** An endpoint is found iff one contains the name, and then it is the first that does. */
  lemma {:induction false} FirstContainingIsFirst(endpoints: seq<string>, name: string, i: nat)
    requires i <= |endpoints|
    ensures var r := FirstContaining(endpoints, name, i);
      && (r.Some? <==> exists k | i <= k < |endpoints| :: Contains(endpoints[k], name))
      && (r.Some? ==> exists k | i <= k < |endpoints| ::
            && endpoints[k] == r.value && Contains(endpoints[k], name)
            && forall j | i <= j < k :: !Contains(endpoints[j], name))
    decreases |endpoints| - i
  {
    if i < |endpoints| && !Contains(endpoints[i], name) {
      FirstContainingIsFirst(endpoints, name, i + 1);
    }
  }

  /** The metadata after the matching loop of `loadProcessorEndpoints`: a processor gets a
      client for its first matching endpoint, and one with no match keeps its old client. */
  function WithEndpoints(m: map<string, ProcessorMetadata>, endpoints: seq<string>): map<string, ProcessorMetadata> {
    map n | n in m :: Matched(m[n], n, endpoints)
  }

  /** One processor's entry after the matching loop. */
  function Matched(meta: ProcessorMetadata, name: string, endpoints: seq<string>): ProcessorMetadata {
    match FirstContaining(endpoints, name, 0)
    case None => meta
    case Some(e) => meta.(client := Some(ProcessorClient(name, e)))
  }

  /** After matching, a processor has a client iff it had one or some endpoint contains its
      name; a processor some endpoint contains gets a fresh client for the first such
      endpoint, in request order. The matching does not depend on the order the processors
      are visited in. */
  lemma {:induction false} EndpointMatching(m: map<string, ProcessorMetadata>, endpoints: seq<string>, n: string)
    requires n in m
    ensures var r := WithEndpoints(m, endpoints);
      && r.Keys == m.Keys
      && (r[n].client.Some? <==> m[n].client.Some? || exists k | 0 <= k < |endpoints| :: Contains(endpoints[k], n))
      && ((exists k | 0 <= k < |endpoints| :: Contains(endpoints[k], n)) ==>
            exists k | 0 <= k < |endpoints| ::
              && Contains(endpoints[k], n)
              && r[n].client == Some(ProcessorClient(n, endpoints[k]))
              && forall j | 0 <= j < k :: !Contains(endpoints[j], n))
  {
    FirstContainingIsFirst(endpoints, n, 0);
  }

  /** A processor's name matches any endpoint when it is empty, since every string contains
      the empty string. */
  lemma {:induction false} EmptyNameMatchesFirstEndpoint(endpoints: seq<string>)
    requires |endpoints| > 0
    ensures FirstContaining(endpoints, "", 0) == Some(endpoints[0])
  {
    assert OccursAt(endpoints[0], "", 0);
  }

  // ---------------------------------------------------------------------------------------
  // Forwarded commands

  /** `initializeProcessors` and `runProcessors` from processor `i` of `order` on: every
      processor must have a client and answer the forwarded command with a success. `what`
      is the command's name in the errors, `replies` what each processor's client returns;
      a panic in the client is not recovered and propagates unwrapped. */
  function CallsFrom(m: map<string, ProcessorMetadata>, what: string, order: seq<string>,
                     replies: string -> Result<P.InvokerResponse>, i: nat): Result<P.InvokerResponse>
    requires i <= |order|
    requires forall k | 0 <= k < |order| :: order[k] in m
    decreases |order| - i
  {
    if i == |order| then Ok(P.Success(P.NoMessage))
    else
      var meta := m[order[i]];
      if meta.client.None? then Err(Failed("processor " + meta.name + " client is not initialized"))
      else if replies(order[i]).Err? && replies(order[i]).error.Panic? then Err(replies(order[i]).error)
      else if replies(order[i]).Err? then Err(Wrapped("processor " + what + " failed", replies(order[i]).error))
      else if replies(order[i]).value.Failure? then
        Err(Wrapped("processor " + what + " failed with resp", replies(order[i]).value.err))
      else CallsFrom(m, what, order, replies, i + 1)
  }

  /** Forwarding succeeds iff every processor visited has a client and answers with a
      success. */
  lemma {:induction false} CallsSucceedIffAllSucceed(m: map<string, ProcessorMetadata>, what: string, order: seq<string>,
                                                     replies: string -> Result<P.InvokerResponse>, i: nat)
    requires i <= |order|
    requires forall k | 0 <= k < |order| :: order[k] in m
    ensures CallsFrom(m, what, order, replies, i).Ok? <==>
      forall k | i <= k < |order| ::
        m[order[k]].client.Some? && replies(order[k]).Ok? && replies(order[k]).value.Success?
    ensures CallsFrom(m, what, order, replies, i).Ok? ==> CallsFrom(m, what, order, replies, i).value == P.Success(P.NoMessage)
    decreases |order| - i
  {
    if i < |order| {
      CallsSucceedIffAllSucceed(m, what, order, replies, i + 1);
    }
  }

  /** The check `ProcessorClient.Initialize` makes before it sends anything: a derived
      config that fails validation is reported, and one that passes is sent, `sent` being
      what the processor then answers. */
  function SendValidated(ipc: InternalProcessorConfig, name: string, sent: Result<P.InvokerResponse>): (r: Result<P.InvokerResponse>)
    ensures InternalValidate(ipc).1.None? ==> r == sent
    ensures InternalValidate(ipc).1.Some? ==>
      r == Err(Wrapped("validate config failed: processorName=" + name, InternalValidate(ipc).1.value))
  {
    match InternalValidate(ipc).1
    case Some(e) => Err(Wrapped("validate config failed: processorName=" + name, e))
    case None => sent
  }

  /** `ProcessorClient.Initialize` as written: the processor's config is derived from the
      monitor's root config by `NewInternalProcessorConfig` (a panic there propagates) and
      validated locally before the command is sent. */
  function ClientInitialize(rc: RootConfig, name: string, sent: Result<P.InvokerResponse>): (r: Result<P.InvokerResponse>)
    ensures NewInternalProcessorConfig(rc, name).Err? ==> r == Err(NewInternalProcessorConfig(rc, name).error)
  {
    match NewInternalProcessorConfig(rc, name)
    case Err(e) => Err(e)
    case Ok(ipc) => SendValidated(ipc, name, sent)
  }

  /** `ProcessorClient.Initialize` with the corrected derivation, which carries the
      processor's type. */
  function ClientInitializeTyped(rc: RootConfig, name: string, sent: Result<P.InvokerResponse>): (r: Result<P.InvokerResponse>)
    ensures NewTypedProcessorConfig(rc, name).Err? ==> r == Err(NewTypedProcessorConfig(rc, name).error)
  {
    match NewTypedProcessorConfig(rc, name)
    case Err(e) => Err(e)
    case Ok(ipc) => SendValidated(ipc, name, sent)
  }

  /** What each processor's client returns to `initialize`, as written and corrected. */
  function InitializeReplies(rc: RootConfig, sent: string -> Result<P.InvokerResponse>): string -> Result<P.InvokerResponse> {
    name => ClientInitialize(rc, name, sent(name))
  }

  function InitializeRepliesTyped(rc: RootConfig, sent: string -> Result<P.InvokerResponse>): string -> Result<P.InvokerResponse> {
    name => ClientInitializeTyped(rc, name, sent(name))
  }

  /** As written, a client never sends `initialize`: the derived config has no type, so the
      local validation fails (or the derivation panics), whatever the processor would answer. */
  lemma {:induction false} ClientInitializeNeverSends(rc: RootConfig, name: string, sent: Result<P.InvokerResponse>)
    ensures ClientInitialize(rc, name, sent).Err?
    ensures NewInternalProcessorConfig(rc, name).Ok? ==>
      ClientInitialize(rc, name, sent) ==
        Err(Wrapped("validate config failed: processorName=" + name,
                    Failed(if name == "" then "processor name should not be empty" else "processor type should not be empty")))
  {
    if NewInternalProcessorConfig(rc, name).Ok? {
      DerivedConfigFailsValidation(rc, name);
    }
  }

  /** Consequently `initializeProcessors` as written fails on every monitor that knows of at
      least one processor, whatever the processors would answer. */
  lemma {:induction false} InitializeProcessorsAlwaysFails(m: map<string, ProcessorMetadata>, order: seq<string>,
                                                           rc: RootConfig, sent: string -> Result<P.InvokerResponse>)
    requires |order| > 0
    requires forall k | 0 <= k < |order| :: order[k] in m
    ensures CallsFrom(m, "initialize", order, InitializeReplies(rc, sent), 0).Err?
  {
    ClientInitializeNeverSends(rc, order[0], sent(order[0]));
  }

  /** With the corrected derivation, on a validated root config whose Kafka address is given,
      each client sends `initialize` and passes on what its processor answers, so forwarding
      succeeds iff every processor has a client and answers with a success. */
  lemma {:induction false} TypedInitializeForwards(m: map<string, ProcessorMetadata>, order: seq<string>,
                                                   rc: RootConfig, sent: string -> Result<P.InvokerResponse>, i: nat)
    requires i <= |order|
    requires forall k | 0 <= k < |order| :: order[k] in m
    requires RootConfigError(rc).None? && rc.globalKafkaConfig.value.address != ""
    requires forall k | 0 <= k < |order| :: order[k] in Names(rc.processorConfigs)
    ensures CallsFrom(m, "initialize", order, InitializeRepliesTyped(rc, sent), i) == CallsFrom(m, "initialize", order, sent, i)
    decreases |order| - i
  {
    if i < |order| {
      TypedReplyIsSent(rc, sent, order[i]);
      TypedInitializeForwards(m, order, rc, sent, i + 1);
    }
  }

  /** With the corrected derivation, a processor of a validated root config gets exactly its
      own answer back from its client. */
  lemma TypedReplyIsSent(rc: RootConfig, sent: string -> Result<P.InvokerResponse>, name: string)
    requires RootConfigError(rc).None? && rc.globalKafkaConfig.value.address != ""
    requires name in Names(rc.processorConfigs)
    ensures InitializeRepliesTyped(rc, sent)(name) == sent(name)
  {
    var pcs := rc.processorConfigs;
    var k :| 0 <= k < |pcs| && pcs[k].name == name;
    TypedDerivationValidates(rc, k);
  }

  // ---------------------------------------------------------------------------------------
  // The cluster admin client

  /** `sarama.ClusterAdmin` as the monitor uses it: the topics on the cluster (with their
      partition counts), which requests fail, and the deletions asked for. */
  class Admin {
    var topics: map<string, int>
    const listFails: bool
    const rejecting: set<string>
    const undeletable: set<string>
    var deleteCalls: seq<string>

    constructor (topics: map<string, int>, listFails: bool, rejecting: set<string>, undeletable: set<string>)
      ensures this.topics == topics && this.listFails == listFails
      ensures this.rejecting == rejecting && this.undeletable == undeletable && deleteCalls == []
    {
      this.topics := topics;
      this.listFails := listFails;
      this.rejecting := rejecting;
      this.undeletable := undeletable;
      deleteCalls := [];
    }

    /** `ListTopics`. */
    method ListTopics() returns (r: Result<set<string>>)
      ensures r == if listFails then Err(AdminFailure) else Ok(topics.Keys)
    {
      if listFails {
        return Err(AdminFailure);
      }
      return Ok(topics.Keys);
    }

    /** `CreateTopic`: fails for a rejected name and for a topic that already exists. */
    method CreateTopic(topic: string, partitions: int) returns (err: Option<Error>)
      modifies this
      ensures err == if topic in rejecting || topic in old(topics) then Some(AdminFailure) else None
      ensures topics == if err.Some? then old(topics) else old(topics)[topic := partitions]
      ensures deleteCalls == old(deleteCalls)
    {
      if topic in rejecting || topic in topics {
        return Some(AdminFailure);
      }
      topics := topics[topic := partitions];
      return None;
    }

    /** `DeleteTopic`: fails for a protected topic and for one that is not there. */
    method DeleteTopic(topic: string) returns (err: Option<Error>)
      modifies this
      ensures deleteCalls == old(deleteCalls) + [topic]
      ensures err == if topic in undeletable || topic !in old(topics) then Some(AdminFailure) else None
      ensures topics == if err.Some? then old(topics) else old(topics) - {topic}
    {
      deleteCalls := deleteCalls + [topic];
      if topic in undeletable || topic !in topics {
        return Some(AdminFailure);
      }
      topics := topics - {topic};
      return None;
    }
  }

  // ---------------------------------------------------------------------------------------
  // The monitor

  /** The monitor's globals. */
  class Monitor {
    var rootConfig: RootConfig
    var admin: Admin?
    var initialTopics: seq<CreatedTopic>
    var interimTopics: seq<CreatedTopic>
    var metadata: map<string, ProcessorMetadata>

    /** The globals before any command: an empty root config, no admin client, nothing
        recorded. */
    constructor ()
      ensures rootConfig == RootConfig([], None, None) && admin == null
      ensures initialTopics == [] && interimTopics == [] && metadata == map[]
    {
      rootConfig := RootConfig([], None, None);
      admin := null;
      initialTopics := [];
      interimTopics := [];
      metadata := map[];
    }

    /** `loadRootConfig`. `params` is the request's parameters, `None` when absent. They are
        decoded INTO the stored config, as `json.Unmarshal` does with its target: `params`
        maps the stored config to the config after decoding (fields the parameters omit keep
        their values) and the decode error, which leaves what was already written in place.
        A decoded config is stored before it is validated, so it stays stored when validation
        fails; the validation error is returned as it is. */
    method LoadRootConfig(params: Option<RootConfig -> (RootConfig, Option<Error>)>) returns (r: Result<P.InvokerResponse>)
      modifies this
      ensures admin == old(admin) && initialTopics == old(initialTopics)
      ensures interimTopics == old(interimTopics) && metadata == old(metadata)
      ensures params.None? ==>
        r == Err(Failed("no params is found for command " + LoadRootConfigCommand)) && rootConfig == old(rootConfig)
      ensures params.Some? ==> rootConfig == params.value(old(rootConfig)).0
      ensures params.Some? && params.value(old(rootConfig)).1.Some? ==>
        r == Err(Wrapped("unmarshal loadGlobalConfig params failed", params.value(old(rootConfig)).1.value))
      ensures params.Some? && params.value(old(rootConfig)).1.None? ==>
        && (r.Ok? <==> WellFormed(rootConfig))
        && (r.Ok? ==> r.value == P.Success(P.NoMessage))
        && (r.Err? ==> Some(r.error) == RootConfigError(rootConfig))
    {
      if params.None? {
        return Err(Failed("no params is found for command " + LoadRootConfigCommand));
      }
      var decoded := params.value(rootConfig);
      rootConfig := decoded.0;
      if decoded.1.Some? {
        return Err(Wrapped("unmarshal loadGlobalConfig params failed", decoded.1.value));
      }
      var err := Validate(rootConfig);
      if err.Some? {
        return Err(err.value);
      }
      return Ok(P.Success(P.NoMessage));
    }

    /** `tryCreateTopic`, through the stored admin client. */
    method TryCreateTopic(topic: string, partitions: int) returns (err: Option<Error>)
      modifies admin
      ensures admin == null ==> err == Some(Failed("admin client must be initialized before calling tryCreateTopic"))
      ensures admin != null ==>
        && (admin.topics, err) == TryCreate(old(admin.topics), admin.listFails, admin.rejecting, topic, partitions)
        && admin.deleteCalls == old(admin.deleteCalls)
    {
      if admin == null {
        return Some(Failed("admin client must be initialized before calling tryCreateTopic"));
      }
      var topics := admin.ListTopics();
      if topics.Err? {
        return Some(Wrapped("list topics failed", topics.error));
      }
      if topic in topics.value {
        return None;
      }
      var createErr := admin.CreateTopic(topic, Int32Of(partitions));
      if createErr.Some? {
        return Some(Wrapped("create topic failed", createErr.value));
      }
      return None;
    }

    /** One topic-creating loop of `createTopics`, recording each topic it makes sure of in
        the interim list when `interim`, in the initial list otherwise. */
    method CreateEach(steps: seq<Step>, address: string, interim: bool) returns (end: StepsEnd)
      requires admin != null
      modifies this, admin
      ensures admin == old(admin) && rootConfig == old(rootConfig) && metadata == old(metadata)
      ensures admin.deleteCalls == old(admin.deleteCalls)
      ensures var run := RunSteps(old(admin.topics), admin.listFails, admin.rejecting, address, steps, 0);
        && admin.topics == run.topics && end == run.end
        && (interim ==> interimTopics == old(interimTopics) + run.created && initialTopics == old(initialTopics))
        && (!interim ==> initialTopics == old(initialTopics) + run.created && interimTopics == old(interimTopics))
    {
      ghost var done: seq<CreatedTopic> := [];
      for i := 0 to |steps|
        invariant admin == old(admin) && rootConfig == old(rootConfig) && metadata == old(metadata)
        invariant admin.deleteCalls == old(admin.deleteCalls)
        invariant var run := RunSteps(admin.topics, admin.listFails, admin.rejecting, address, steps, i);
          RunSteps(old(admin.topics), admin.listFails, admin.rejecting, address, steps, 0) ==
            StepsRun(run.topics, done + run.created, run.end)
        invariant interim ==> interimTopics == old(interimTopics) + done && initialTopics == old(initialTopics)
        invariant !interim ==> initialTopics == old(initialTopics) + done && interimTopics == old(interimTopics)
      {
        match steps[i] {
          case Skip =>
          case Crash =>
            return Crashed;
          case Create(t, p) =>
            var err := CreateStep(t, p, address, interim);
            if err.Some? {
              return CreateFailed(Wrapped("try create topic failed", err.value));
            }
            done := done + [CreatedTopic(address, t, p)];
        }
      }
      return AllDone;
    }

    /** One creation of a topic-creating loop: the topic is recorded, in the interim list
        when `interim` and in the initial list otherwise, once `tryCreateTopic` succeeds. */
    method CreateStep(topic: string, partitions: int, address: string, interim: bool) returns (err: Option<Error>)
      requires admin != null
      modifies this, admin
      ensures admin == old(admin) && rootConfig == old(rootConfig) && metadata == old(metadata)
      ensures admin.deleteCalls == old(admin.deleteCalls)
      ensures (admin.topics, err) == TryCreate(old(admin.topics), admin.listFails, admin.rejecting, topic, partitions)
      ensures var added := if err.None? then [CreatedTopic(address, topic, partitions)] else [];
        && (interim ==> interimTopics == old(interimTopics) + added && initialTopics == old(initialTopics))
        && (!interim ==> initialTopics == old(initialTopics) + added && interimTopics == old(interimTopics))
    {
      err := TryCreateTopic(topic, partitions);
      if err.None? {
        var ct := CreatedTopic(address, topic, partitions);
        if interim {
          interimTopics := interimTopics + [ct];
        } else {
          initialTopics := initialTopics + [ct];
        }
      }
    }

    /** `removeTopics`: deletes the recorded initial topics, then the recorded interim ones,
        stopping at the first failure. The records themselves are kept. */
    method RemoveTopics() returns (err: Option<Error>)
      requires admin != null
      modifies admin
      ensures var rem := DeleteRun(old(admin.topics), admin.undeletable, TopicNames(initialTopics) + TopicNames(interimTopics), 0);
        && admin.topics == rem.topics && admin.deleteCalls == old(admin.deleteCalls) + rem.calls && err == rem.err
    {
      var names := TopicNames(initialTopics) + TopicNames(interimTopics);
      ghost var calls: seq<string> := [];
      for i := 0 to |names|
        invariant var rest := DeleteRun(admin.topics, admin.undeletable, names, i);
          DeleteRun(old(admin.topics), admin.undeletable, names, 0) == Removal(rest.topics, calls + rest.calls, rest.err)
        invariant admin.deleteCalls == old(admin.deleteCalls) + calls
      {
        var e := admin.DeleteTopic(names[i]);
        calls := calls + [names[i]];
        if e.Some? {
          return e;
        }
      }
      return None;
    }

    /** The failure branch of a topic-creating loop: a crash propagates as a panic; a failed
        creation rolls back every recorded topic and is reported. */
    method FailCreation(end: StepsEnd) returns (err: Error)
      requires admin != null && end != AllDone
      modifies admin
      ensures end == Crashed ==> err == Panic(NilDereference) && admin.topics == old(admin.topics)
      ensures end == Crashed ==> admin.deleteCalls == old(admin.deleteCalls)
      ensures end.CreateFailed? ==>
        var rem := DeleteRun(old(admin.topics), admin.undeletable, TopicNames(initialTopics) + TopicNames(interimTopics), 0);
        && admin.topics == rem.topics && admin.deleteCalls == old(admin.deleteCalls) + rem.calls
        && err == RollbackError(end.err, rem.err)
    {
      if end == Crashed {
        return Panic(NilDereference);
      }
      var removeErr := RemoveTopics();
      err := RollbackError(end.err, removeErr);
    }

    /** The last loop of `createTopics`. */
    method ResetProcessorMetadata(pcs: seq<ProcessorConfig>)
      modifies this
      ensures metadata == ResetMetadata(old(metadata), pcs, 0)
      ensures rootConfig == old(rootConfig) && admin == old(admin)
      ensures initialTopics == old(initialTopics) && interimTopics == old(interimTopics)
    {
      for i := 0 to |pcs|
        invariant ResetMetadata(old(metadata), pcs, 0) == ResetMetadata(metadata, pcs, i)
        invariant rootConfig == old(rootConfig) && admin == old(admin)
        invariant initialTopics == old(initialTopics) && interimTopics == old(interimTopics)
      {
        metadata := metadata[pcs[i].name := ProcessorMetadata(pcs[i].name, None)];
      }
    }

    /** `createTopics` once the admin client is connected to the cluster at `address`. */
    method CreateTopicsWith(gkc: GlobalKafkaConfig) returns (r: Result<P.InvokerResponse>)
      requires admin != null
      modifies this, admin
      ensures admin == old(admin) && rootConfig == old(rootConfig)
      ensures var a := RunSteps(old(admin.topics), admin.listFails, admin.rejecting, gkc.address, InitialSteps(gkc.initialTopics), 0);
        var b := RunSteps(a.topics, admin.listFails, admin.rejecting, gkc.address, InterimSteps(rootConfig.processorConfigs), 0);
        && initialTopics == old(initialTopics) + a.created
        && interimTopics == old(interimTopics) + (if a.end == AllDone then b.created else [])
        && (r.Ok? <==> a.end == AllDone && b.end == AllDone)
        && (r.Ok? ==>
              && r.value == P.Success(P.NoMessage)
              && admin.topics == b.topics && admin.deleteCalls == old(admin.deleteCalls)
              && metadata == ResetMetadata(old(metadata), rootConfig.processorConfigs, 0))
        && (r.Err? ==> metadata == old(metadata))
        && (a.end == Crashed || (a.end == AllDone && b.end == Crashed) ==>
              r == Err(Panic(NilDereference)) && admin.deleteCalls == old(admin.deleteCalls))
        && (a.end.CreateFailed? || (a.end == AllDone && b.end.CreateFailed?) ==>
              var failed := if a.end.CreateFailed? then a.end.err else b.end.err;
              var rem := DeleteRun(if a.end.CreateFailed? then a.topics else b.topics, admin.undeletable,
                                   TopicNames(initialTopics) + TopicNames(interimTopics), 0);
              && admin.topics == rem.topics && admin.deleteCalls == old(admin.deleteCalls) + rem.calls
              && r == Err(RollbackError(failed, rem.err)))
    {
      var end := CreateEach(InitialSteps(gkc.initialTopics), gkc.address, false);
      if end != AllDone {
        var err := FailCreation(end);
        return Err(err);
      }
      end := CreateEach(InterimSteps(rootConfig.processorConfigs), gkc.address, true);
      if end != AllDone {
        var err := FailCreation(end);
        return Err(err);
      }
      ResetProcessorMetadata(rootConfig.processorConfigs);
      return Ok(P.Success(P.NoMessage));
    }

    /** `createTopics`. `newAdmin` is the admin client connecting gives, and `connectErr` the
        error connecting returns instead. The cluster address is read from the stored config
        first, which panics when it has no global Kafka config. */
    method CreateTopics(connectErr: Option<Error>, newAdmin: Admin) returns (r: Result<P.InvokerResponse>)
      modifies this, newAdmin
      ensures rootConfig == old(rootConfig)
      ensures old(rootConfig).globalKafkaConfig.None? ==>
        r == Err(Panic(NilDereference)) && unchanged(this) && unchanged(newAdmin)
      ensures old(rootConfig).globalKafkaConfig.Some? && connectErr.Some? ==>
        && r == Err(Wrapped("create admin client failed", connectErr.value)) && admin == null
        && initialTopics == old(initialTopics) && interimTopics == old(interimTopics)
        && metadata == old(metadata) && unchanged(newAdmin)
      ensures old(rootConfig).globalKafkaConfig.Some? && connectErr.None? ==>
        var gkc := old(rootConfig).globalKafkaConfig.value;
        var a := RunSteps(old(newAdmin.topics), newAdmin.listFails, newAdmin.rejecting, gkc.address, InitialSteps(gkc.initialTopics), 0);
        var b := RunSteps(a.topics, newAdmin.listFails, newAdmin.rejecting, gkc.address, InterimSteps(rootConfig.processorConfigs), 0);
        && admin == newAdmin
        && initialTopics == old(initialTopics) + a.created
        && interimTopics == old(interimTopics) + (if a.end == AllDone then b.created else [])
        && (r.Ok? <==> a.end == AllDone && b.end == AllDone)
        && (r.Ok? ==> metadata == ResetMetadata(old(metadata), rootConfig.processorConfigs, 0) && newAdmin.topics == b.topics)
        && (r.Err? ==> metadata == old(metadata))
    {
      if rootConfig.globalKafkaConfig.None? {
        return Err(Panic(NilDereference));
      }
      var gkc := rootConfig.globalKafkaConfig.value;
      if connectErr.Some? {
        admin := null;
        return Err(Wrapped("create admin client failed", connectErr.value));
      }
      admin := newAdmin;
      r := CreateTopicsWith(gkc);
    }

    /** The matching loop of `loadProcessorEndpoints` for one processor. */
    method FindEndpoint(endpoints: seq<string>, name: string) returns (r: Option<string>)
      ensures r == FirstContaining(endpoints, name, 0)
    {
      for i := 0 to |endpoints|
        invariant FirstContaining(endpoints, name, 0) == FirstContaining(endpoints, name, i)
      {
        if Contains(endpoints[i], name) {
          return Some(endpoints[i]);
        }
      }
      return None;
    }

    /** `loadProcessorEndpoints`. `params` is the request's endpoint list, `None` when the
        request has no parameters, with its decoding; `order` and `checkOrder` are the orders
        of the two loops over the metadata. The clients assigned stay assigned when the check
        fails. */
    method LoadProcessorEndpoints(params: Option<Result<seq<string>>>, order: seq<string>, checkOrder: seq<string>)
      returns (r: Result<P.InvokerResponse>)
      requires Enumerates(order, metadata) && Enumerates(checkOrder, metadata)
      modifies this
      ensures rootConfig == old(rootConfig) && admin == old(admin)
      ensures initialTopics == old(initialTopics) && interimTopics == old(interimTopics)
      ensures params.None? ==>
        r == Err(Failed("no params is found for command " + LoadProcessorEndpointsCommand)) && metadata == old(metadata)
      ensures params.Some? && params.value.Err? ==>
        r == Err(Wrapped("unmarshal loadProcessorEndpoints params failed", params.value.error)) && metadata == old(metadata)
      ensures params.Some? && params.value.Ok? ==>
        && metadata == WithEndpoints(old(metadata), params.value.value)
        && (r.Ok? <==> forall n | n in metadata :: metadata[n].client.Some?)
        && (r.Ok? ==> r.value == P.Success(P.NoMessage))
        && (r.Err? ==> exists n | n in metadata ::
              metadata[n].client.None? && r.error == Failed("processor " + n + " endpoint not found in request"))
    {
      if params.None? {
        return Err(Failed("no params is found for command " + LoadProcessorEndpointsCommand));
      }
      if params.value.Err? {
        return Err(Wrapped("unmarshal loadProcessorEndpoints params failed", params.value.error));
      }
      MatchEndpoints(params.value.value, order);
      r := CheckClients(checkOrder);
    }

    /** The matching loop of `loadProcessorEndpoints`. */
    method MatchEndpoints(endpoints: seq<string>, order: seq<string>)
      requires Enumerates(order, metadata)
      modifies this
      ensures rootConfig == old(rootConfig) && admin == old(admin)
      ensures initialTopics == old(initialTopics) && interimTopics == old(interimTopics)
      ensures metadata == WithEndpoints(old(metadata), endpoints)
    {
      for i := 0 to |order|
        invariant rootConfig == old(rootConfig) && admin == old(admin)
        invariant initialTopics == old(initialTopics) && interimTopics == old(interimTopics)
        invariant metadata.Keys == old(metadata).Keys
        invariant forall k | 0 <= k < i :: metadata[order[k]] == Matched(old(metadata)[order[k]], order[k], endpoints)
        invariant forall k | i <= k < |order| :: metadata[order[k]] == old(metadata)[order[k]]
      {
        var name := order[i];
        var endpoint := FindEndpoint(endpoints, name);
        if endpoint.Some? {
          metadata := metadata[name := metadata[name].(client := Some(ProcessorClient(name, endpoint.value)))];
        }
        forall k | i < k < |order| ensures order[k] != name {}
      }
      forall n | n in metadata ensures metadata[n] == Matched(old(metadata)[n], n, endpoints) {
        var k :| 0 <= k < |order| && order[k] == n;
      }
    }

    /** The check loop of `loadProcessorEndpoints`: the first processor, in `checkOrder`,
        left without a client fails the command. */
    method CheckClients(checkOrder: seq<string>) returns (r: Result<P.InvokerResponse>)
      requires Enumerates(checkOrder, metadata)
      ensures r.Ok? <==> forall n | n in metadata :: metadata[n].client.Some?
      ensures r.Ok? ==> r.value == P.Success(P.NoMessage)
      ensures r.Err? ==> exists n | n in metadata ::
        metadata[n].client.None? && r.error == Failed("processor " + n + " endpoint not found in request")
    {
      for i := 0 to |checkOrder|
        invariant forall k | 0 <= k < i :: metadata[checkOrder[k]].client.Some?
      {
        var name := checkOrder[i];
        if metadata[name].client.None? {
          return Err(Failed("processor " + name + " endpoint not found in request"));
        }
      }
      forall n | n in metadata ensures metadata[n].client.Some? {
        var k :| 0 <= k < |checkOrder| && checkOrder[k] == n;
      }
      return Ok(P.Success(P.NoMessage));
    }

    /** `initializeProcessors` (`what` = "initialize") and `runProcessors` (`what` = "run"):
        forwards the command to every processor in `order`, stopping at the first one with
        no client or no success. */
    method CallProcessors(what: string, order: seq<string>, replies: string -> Result<P.InvokerResponse>)
      returns (r: Result<P.InvokerResponse>)
      requires Enumerates(order, metadata)
      ensures r == CallsFrom(metadata, what, order, replies, 0)
    {
      for i := 0 to |order|
        invariant CallsFrom(metadata, what, order, replies, 0) == CallsFrom(metadata, what, order, replies, i)
      {
        var meta := metadata[order[i]];
        if meta.client.None? {
          return Err(Failed("processor " + meta.name + " client is not initialized"));
        }
        var resp := replies(order[i]);
        if resp.Err? && resp.error.Panic? {
          return Err(resp.error);
        }
        if resp.Err? {
          return Err(Wrapped("processor " + what + " failed", resp.error));
        }
        if resp.value.Failure? {
          return Err(Wrapped("processor " + what + " failed with resp", resp.value.err));
        }
      }
      return Ok(P.Success(P.NoMessage));
    }

    /** `initializeProcessors`: forwards `initialize` through each processor's client, which
        derives the processor's config from the monitor's root config, with the corrected
        derivation that carries the type, and validates it before sending; `sent` is what
        each processor answers once the command is sent. */
    method InitializeProcessors(order: seq<string>, sent: string -> Result<P.InvokerResponse>)
      returns (r: Result<P.InvokerResponse>)
      requires Enumerates(order, metadata)
      ensures r == CallsFrom(metadata, "initialize", order, InitializeRepliesTyped(rootConfig, sent), 0)
    {
      r := CallProcessors("initialize", order, InitializeRepliesTyped(rootConfig, sent));
    }

    /** `catProcessor`. `params` is the decoded processor name and `replies` what each
        processor answers to `cat`. A processor with no client panics on the call. */
    function CatProcessor(params: Result<string>, replies: string -> Result<P.InvokerResponse>): Result<P.InvokerResponse>
      reads this
    {
      if params.Err? then Err(Wrapped("unmarshal params failed", params.error))
      else if params.value !in metadata then Err(Failed("processor with name " + params.value + " does not exist"))
      else if metadata[params.value].client.None? then Err(Panic(NilDereference))
      else if replies(params.value).Err? then Err(Wrapped("processor cat failed", replies(params.value).error))
      else if replies(params.value).value.Failure? then
        Err(Wrapped("processor cat failed with resp", replies(params.value).value.err))
      else Ok(P.Success(replies(params.value).value.message))
    }

    /** `catProcessor` succeeds iff the name is a known processor with a client that answers
        with a success, whose message it passes on; it reads only that processor's answer. */
    lemma {:induction false} CatProcessorLookup(params: Result<string>, replies: string -> Result<P.InvokerResponse>,
                                                replies': string -> Result<P.InvokerResponse>)
      requires params.Ok? ==> replies(params.value) == replies'(params.value)
      ensures var r := CatProcessor(params, replies);
        && (r.Ok? <==>
              && params.Ok? && params.value in metadata && metadata[params.value].client.Some?
              && replies(params.value).Ok? && replies(params.value).value.Success?)
        && (r.Ok? ==> r.value == replies(params.value).value)
        && (params.Ok? && params.value !in metadata ==>
              r == Err(Failed("processor with name " + params.value + " does not exist")))
        && r == CatProcessor(params, replies')
    {
    }
  }
}
