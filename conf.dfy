/** Configuration (pkg/conf/conf.go): the user's root config and its validator, the per-processor
    internal config derived from it, that config's own validator, and the package state that
    `LoadConfig` fills.

    `RootConfig.Validate` runs its checks in a fixed order and returns the first failure. Its
    specification is `RootConfigError`: one function per pass of the validator, each stating,
    as its contract, exactly which configurations the pass accepts. The method `Validate`
    is the validator with its loops and name sets. YAML and JSON tags, and the `ParentDirectory`
    and `Files` fields, which no modelled code reads, are left out. A nil element inside one of
    the config slices is not modelled (every slice element is a value). */
module Conf {
  import opened Base

  const ProcessorTypeProcess: string := "process"
  const ProcessorTypeJoin: string := "join"

  /** The message of a nil pointer dereference, the panic Go raises when a missing sub-config
      is read. */
  const NilDereference: string := "invalid memory address or nil pointer dereference"

  datatype KafkaConfig = KafkaConfig(address: string, topic: string)
  datatype NamedKafkaConfig = NamedKafkaConfig(name: string, address: string, topic: string)
  datatype OutputConfig = OutputConfig(
    defaultTopicPartitions: int,
    outputProcessors: seq<string>,
    outputKafkaConfigs: seq<NamedKafkaConfig>)
  datatype ProcessorConfig = ProcessorConfig(
    entryPoint: string,
    name: string,
    processorType: string,
    numOfWorker: int,
    inputProcessors: seq<string>,
    inputKafkaConfigs: seq<KafkaConfig>,
    outputConfig: Option<OutputConfig>)      // None: a nil `*OutputConfig`
  datatype InitialTopic = InitialTopic(topic: string, partitions: int)
  datatype GlobalKafkaConfig = GlobalKafkaConfig(address: string, initialTopics: seq<InitialTopic>)
  datatype RedisConfig = RedisConfig(name: string, address: string)
  datatype MemcachedConfig = MemcachedConfig(name: string, addresses: seq<string>)
  datatype GlobalStoreConfig = GlobalStoreConfig(redisConfigs: seq<RedisConfig>, memcachedConfigs: seq<MemcachedConfig>)
  datatype RootConfig = RootConfig(
    processorConfigs: seq<ProcessorConfig>,
    globalStoreConfig: Option<GlobalStoreConfig>,
    globalKafkaConfig: Option<GlobalKafkaConfig>)

  // ---------------------------------------------------------------------------------------
  // RootConfig.Validate: the specification, pass by pass
  // ---------------------------------------------------------------------------------------

  function InputCount(pc: ProcessorConfig): nat {
    |pc.inputProcessors| + |pc.inputKafkaConfigs|
  }

  /** The per-processor rules of the first pass, apart from name uniqueness. */
  predicate ProcessorShapeOk(pc: ProcessorConfig) {
    pc.name != "" && ProcessorFieldsOk(pc)
  }

  /** The per-processor rules of the first pass that do not concern the name. */
  predicate ProcessorFieldsOk(pc: ProcessorConfig) {
    && pc.entryPoint != ""
    && ((pc.processorType == ProcessorTypeProcess && InputCount(pc) == 1)
        || (pc.processorType == ProcessorTypeJoin && InputCount(pc) > 1))
    && pc.numOfWorker > 0
    && pc.outputConfig.Some?
    && pc.outputConfig.value.defaultTopicPartitions >= 0
  }

  /** The first pass on one processor, given the names of the processors before it. */
  function ProcessorError(pc: ProcessorConfig, seen: set<string>): (r: Option<Error>)
    ensures r.None? <==> ProcessorShapeOk(pc) && pc.name !in seen
    ensures r == Some(ProcessorTypeNotRecognized) <==>
      && pc.name != "" && pc.name !in seen && pc.entryPoint != ""
      && pc.processorType != ProcessorTypeProcess && pc.processorType != ProcessorTypeJoin
  {
    if pc.name == "" then Some(Failed("processor name cannot be empty"))
    else if pc.name in seen then Some(Failed("duplicate processor name " + pc.name))
    else ProcessorFieldsError(pc)
  }

  /** The first pass on one processor once its name is known to be new. */
  function ProcessorFieldsError(pc: ProcessorConfig): (r: Option<Error>)
    ensures r.None? <==> ProcessorFieldsOk(pc)
    ensures r == Some(ProcessorTypeNotRecognized) <==>
      && pc.entryPoint != ""
      && pc.processorType != ProcessorTypeProcess && pc.processorType != ProcessorTypeJoin
  {
    if pc.entryPoint == "" then Some(Failed("processor " + pc.name + " entrypoint cannot be empty"))
    else if pc.processorType == ProcessorTypeProcess then
      if InputCount(pc) != 1 then Some(Failed("processor with type=process must have one and only one input source"))
      else WorkersAndOutputError(pc)
    else if pc.processorType == ProcessorTypeJoin then
      if InputCount(pc) <= 1 then Some(Failed("processor with type=join must have more than one input sources"))
      else WorkersAndOutputError(pc)
    else Some(ProcessorTypeNotRecognized)
  }

  /** The last checks of the first pass on one processor: its worker count and its output
      config. */
  function WorkersAndOutputError(pc: ProcessorConfig): (r: Option<Error>)
    ensures r.None? <==>
      pc.numOfWorker > 0 && pc.outputConfig.Some? && pc.outputConfig.value.defaultTopicPartitions >= 0
    ensures r != Some(ProcessorTypeNotRecognized)
  {
    if pc.numOfWorker <= 0 then
      Some(Failed("NumOfWorker must be greater than 0 for processor " + pc.name))
    else if pc.outputConfig.None? then
      Some(Failed("output config is not specified for processor " + pc.name))
    else if pc.outputConfig.value.defaultTopicPartitions < 0 then
      Some(Failed("DefaultTopicPartitions must be greater than or equal to 0 for processor " + pc.name))
    else None
  }

  /** The first pass from processor `i` on: every processor is well shaped and its name is
      neither in `seen` nor used by an earlier processor. */
  function ProcessorsError(pcs: seq<ProcessorConfig>, i: nat, seen: set<string>): (r: Option<Error>)
    requires i <= |pcs|
    ensures r.None? <==>
      forall k | i <= k < |pcs| ::
        && ProcessorShapeOk(pcs[k]) && pcs[k].name !in seen
        && forall l | i <= l < k :: pcs[l].name != pcs[k].name
    decreases |pcs| - i
  {
    if i == |pcs| then None
    else
      var e := ProcessorError(pcs[i], seen);
      if e.Some? then e else ProcessorsError(pcs, i + 1, seen + {pcs[i].name})
  }

  function Names(pcs: seq<ProcessorConfig>): set<string> {
    set k | 0 <= k < |pcs| :: pcs[k].name
  }

  /** The second pass on one processor's input processors. */
  function InputNamesError(ns: seq<string>, j: nat, names: set<string>): (r: Option<Error>)
    requires j <= |ns|
    ensures r.None? <==> forall k | j <= k < |ns| :: ns[k] != "" && ns[k] in names
    decreases |ns| - j
  {
    if j == |ns| then None
    else if ns[j] == "" then Some(Failed("input processor name cannot be empty"))
    else if ns[j] !in names then Some(Failed("input processor " + ns[j] + " does not exist"))
    else InputNamesError(ns, j + 1, names)
  }

  /** The second pass: every input processor names a declared processor. */
  function InputsError(pcs: seq<ProcessorConfig>, i: nat, names: set<string>): (r: Option<Error>)
    requires i <= |pcs|
    ensures r.None? <==>
      forall k, m | i <= k < |pcs| && 0 <= m < |pcs[k].inputProcessors| ::
        pcs[k].inputProcessors[m] != "" && pcs[k].inputProcessors[m] in names
    decreases |pcs| - i
  {
    if i == |pcs| then None
    else
      var e := InputNamesError(pcs[i].inputProcessors, 0, names);
      if e.Some? then e else InputsError(pcs, i + 1, names)
  }

  /** `consts.ErrKakfaAddressEmpty` and `consts.ErrKafkaTopicEmpty`; both carry the address
      message. */
  function KafkaAddressEmpty(prefix: string): Error {
    Failed(prefix + ": kafka address cannot be empty")
  }

  function KafkaTopicEmpty(prefix: string): Error {
    Failed(prefix + ": kafka address cannot be empty")
  }

  /** The third pass on one processor's input Kafka configs. */
  function KafkaConfigsError(kcs: seq<KafkaConfig>, j: nat): (r: Option<Error>)
    requires j <= |kcs|
    ensures r.None? <==> forall k | j <= k < |kcs| :: kcs[k].address != "" && kcs[k].topic != ""
    decreases |kcs| - j
  {
    if j == |kcs| then None
    else if kcs[j].address == "" then Some(KafkaAddressEmpty("inputKafkaConfigs"))
    else if kcs[j].topic == "" then Some(KafkaTopicEmpty("inputKafkaConfigs"))
    else KafkaConfigsError(kcs, j + 1)
  }

  /** The third pass: every input Kafka config has an address and a topic. */
  function KafkaInputsError(pcs: seq<ProcessorConfig>, i: nat): (r: Option<Error>)
    requires i <= |pcs|
    ensures r.None? <==>
      forall k, m | i <= k < |pcs| && 0 <= m < |pcs[k].inputKafkaConfigs| ::
        pcs[k].inputKafkaConfigs[m].address != "" && pcs[k].inputKafkaConfigs[m].topic != ""
    decreases |pcs| - i
  {
    if i == |pcs| then None
    else
      var e := KafkaConfigsError(pcs[i].inputKafkaConfigs, 0);
      if e.Some? then e else KafkaInputsError(pcs, i + 1)
  }

  function OutputKafkaConfigsOf(pc: ProcessorConfig): seq<NamedKafkaConfig> {
    if pc.outputConfig.Some? then pc.outputConfig.value.outputKafkaConfigs else []
  }

  /** The fourth pass on one processor's named outputs: no name is a processor name, and none
      repeats a name in `seen` or an earlier one. */
  function NamedOutputsError(pcName: string, okcs: seq<NamedKafkaConfig>, j: nat, names: set<string>, seen: set<string>): (r: Option<Error>)
    requires j <= |okcs|
    ensures r.None? <==>
      forall k | j <= k < |okcs| ::
        && okcs[k].name !in names && okcs[k].name !in seen
        && forall l | j <= l < k :: okcs[l].name != okcs[k].name
    decreases |okcs| - j
  {
    if j == |okcs| then None
    else if okcs[j].name in names then
      Some(Failed("OutputKafkaConfig name " + okcs[j].name + " in processor " + pcName + " is duplicated with processor names"))
    else if okcs[j].name in seen then
      Some(Failed("OutputKafkaConfig name " + okcs[j].name + " in processor " + pcName + " is duplicated with another OutputKafkaConfig name"))
    else NamedOutputsError(pcName, okcs, j + 1, names, seen + {okcs[j].name})
  }

  /** The fourth pass over all processors. */
  function OutputNamesError(pcs: seq<ProcessorConfig>, i: nat, names: set<string>): (r: Option<Error>)
    requires i <= |pcs|
    ensures r.None? <==>
      forall k | i <= k < |pcs| :: NamedOutputsError(pcs[k].name, OutputKafkaConfigsOf(pcs[k]), 0, names, {}).None?
    decreases |pcs| - i
  {
    if i == |pcs| then None
    else
      var e := NamedOutputsError(pcs[i].name, OutputKafkaConfigsOf(pcs[i]), 0, names, {});
      if e.Some? then e else OutputNamesError(pcs, i + 1, names)
  }

  /** The initial-topic pass: a name and a partition count other than zero (a negative count
      passes). */
  function InitialTopicsError(ts: seq<InitialTopic>, i: nat): (r: Option<Error>)
    requires i <= |ts|
    ensures r.None? <==> forall k | i <= k < |ts| :: ts[k].topic != "" && ts[k].partitions != 0
    decreases |ts| - i
  {
    if i == |ts| then None
    else if ts[i].topic == "" then Some(Failed("initial topic name must not be empty"))
    else if ts[i].partitions == 0 then
      Some(Failed("the partition field of initial topic " + ts[i].topic + " must be greater than 0"))
    else InitialTopicsError(ts, i + 1)
  }

  /** The redis pass: names are non-empty and distinct, addresses non-empty. */
  function RedisConfigsError(rcs: seq<RedisConfig>, i: nat, seen: set<string>): (r: Option<Error>)
    requires i <= |rcs|
    ensures r.None? <==>
      forall k | i <= k < |rcs| ::
        && rcs[k].name != "" && rcs[k].name !in seen && rcs[k].address != ""
        && forall l | i <= l < k :: rcs[l].name != rcs[k].name
    decreases |rcs| - i
  {
    if i == |rcs| then None
    else if rcs[i].name == "" then Some(Failed("redis config name cannot be empty"))
    else if rcs[i].name in seen then Some(Failed("redis config name should not duplicate"))
    else if rcs[i].address == "" then Some(Failed("redis config address cannot be empty"))
    else RedisConfigsError(rcs, i + 1, seen + {rcs[i].name})
  }

  /** The memcached pass: names are non-empty and distinct, address lists non-empty. */
  function MemcachedConfigsError(mcs: seq<MemcachedConfig>, i: nat, seen: set<string>): (r: Option<Error>)
    requires i <= |mcs|
    ensures r.None? <==>
      forall k | i <= k < |mcs| ::
        && mcs[k].name != "" && mcs[k].name !in seen && |mcs[k].addresses| > 0
        && forall l | i <= l < k :: mcs[l].name != mcs[k].name
    decreases |mcs| - i
  {
    if i == |mcs| then None
    else if mcs[i].name == "" then Some(Failed("memcached config name cannot be empty"))
    else if mcs[i].name in seen then Some(Failed("memcached config name should not duplicate"))
    else if |mcs[i].addresses| == 0 then Some(Failed("memcached config address cannot be empty"))
    else MemcachedConfigsError(mcs, i + 1, seen + {mcs[i].name})
  }

  /** Everything the validator demands of a root config, stated rule by rule with no order. */
  ghost predicate WellFormed(rc: RootConfig) {
    var pcs := rc.processorConfigs;
    && |pcs| > 0
    && (forall k | 0 <= k < |pcs| :: ProcessorShapeOk(pcs[k]))
    && (forall k, l | 0 <= l < k < |pcs| :: pcs[l].name != pcs[k].name)
    && (forall k, m | 0 <= k < |pcs| && 0 <= m < |pcs[k].inputProcessors| ::
          pcs[k].inputProcessors[m] != "" && pcs[k].inputProcessors[m] in Names(pcs))
    && (forall k, m | 0 <= k < |pcs| && 0 <= m < |pcs[k].inputKafkaConfigs| ::
          pcs[k].inputKafkaConfigs[m].address != "" && pcs[k].inputKafkaConfigs[m].topic != "")
    && (forall k, m | 0 <= k < |pcs| && 0 <= m < |OutputKafkaConfigsOf(pcs[k])| ::
          OutputKafkaConfigsOf(pcs[k])[m].name !in Names(pcs))
    && (forall k, m, l | 0 <= k < |pcs| && 0 <= l < m < |OutputKafkaConfigsOf(pcs[k])| ::
          OutputKafkaConfigsOf(pcs[k])[l].name != OutputKafkaConfigsOf(pcs[k])[m].name)
    && rc.globalKafkaConfig.Some?
    && (forall k | 0 <= k < |rc.globalKafkaConfig.value.initialTopics| ::
          rc.globalKafkaConfig.value.initialTopics[k].topic != ""
          && rc.globalKafkaConfig.value.initialTopics[k].partitions != 0)
    && (rc.globalStoreConfig.Some? ==>
          var rcs := rc.globalStoreConfig.value.redisConfigs;
          var mcs := rc.globalStoreConfig.value.memcachedConfigs;
          && (forall k | 0 <= k < |rcs| :: rcs[k].name != "" && rcs[k].address != "")
          && (forall k, l | 0 <= l < k < |rcs| :: rcs[l].name != rcs[k].name)
          && (forall k | 0 <= k < |mcs| :: mcs[k].name != "" && |mcs[k].addresses| > 0)
          && (forall k, l | 0 <= l < k < |mcs| :: mcs[l].name != mcs[k].name))
  }

  /** `RootConfig.Validate`: the passes in the source's order, the first failure winning. It
      accepts exactly the well-formed configs. */
  function RootConfigError(rc: RootConfig): (r: Option<Error>)
    ensures r.None? <==> WellFormed(rc)
    ensures |rc.processorConfigs| == 0 ==> r == Some(Failed("no processor is specified in config"))
  {
    var pcs := rc.processorConfigs;
    var names := Names(pcs);
    if |pcs| == 0 then Some(Failed("no processor is specified in config"))
    else if ProcessorsError(pcs, 0, {}).Some? then ProcessorsError(pcs, 0, {})
    else if InputsError(pcs, 0, names).Some? then InputsError(pcs, 0, names)
    else if KafkaInputsError(pcs, 0).Some? then KafkaInputsError(pcs, 0)
    else if OutputNamesError(pcs, 0, names).Some? then OutputNamesError(pcs, 0, names)
    else if rc.globalKafkaConfig.None? then Some(Failed("global kafka config is missing"))
    else if InitialTopicsError(rc.globalKafkaConfig.value.initialTopics, 0).Some? then
      InitialTopicsError(rc.globalKafkaConfig.value.initialTopics, 0)
    else if rc.globalStoreConfig.None? then None
    else if RedisConfigsError(rc.globalStoreConfig.value.redisConfigs, 0, {}).Some? then
      RedisConfigsError(rc.globalStoreConfig.value.redisConfigs, 0, {})
    else MemcachedConfigsError(rc.globalStoreConfig.value.memcachedConfigs, 0, {})
  }

  /** The first processor's type error is reported even when the rest of the config is broken
      in other ways: later processors and later passes are not consulted. */
  lemma {:induction false} FirstProcessorErrorWins(rc: RootConfig)
    requires |rc.processorConfigs| > 0
    requires ProcessorError(rc.processorConfigs[0], {}) == Some(ProcessorTypeNotRecognized)
    ensures RootConfigError(rc) == Some(ProcessorTypeNotRecognized)
  {
  }

  // ---------------------------------------------------------------------------------------
  // RootConfig.Validate: the validator
  // ---------------------------------------------------------------------------------------

  /** `RootConfig.Validate`. */
  method Validate(rc: RootConfig) returns (err: Option<Error>)
    ensures err == RootConfigError(rc)
  {
    var pcs := rc.processorConfigs;
    if |pcs| == 0 {
      return Some(Failed("no processor is specified in config"));
    }
    var processorNameSet;
    err, processorNameSet := CheckProcessors(pcs);
    if err.Some? {
      return;
    }
    err := CheckInputProcessors(pcs, processorNameSet);
    if err.Some? {
      return;
    }
    err := CheckInputKafkaConfigs(pcs);
    if err.Some? {
      return;
    }
    err := CheckOutputKafkaConfigs(pcs, processorNameSet);
    if err.Some? {
      return;
    }
    if rc.globalKafkaConfig.None? {
      return Some(Failed("global kafka config is missing"));
    }
    var topics := rc.globalKafkaConfig.value.initialTopics;
    for i := 0 to |topics|
      invariant InitialTopicsError(topics, 0) == InitialTopicsError(topics, i)
    {
      if topics[i].topic == "" {
        return Some(Failed("initial topic name must not be empty"));
      }
      if topics[i].partitions == 0 {
        return Some(Failed("the partition field of initial topic " + topics[i].topic + " must be greater than 0"));
      }
    }
    if rc.globalStoreConfig.Some? {
      err := CheckStoreConfigs(rc.globalStoreConfig.value);
      return;
    }
    return None;
  }

  /** The first pass, which also collects the processor names. */
  method CheckProcessors(pcs: seq<ProcessorConfig>) returns (err: Option<Error>, processorNameSet: set<string>)
    ensures err == ProcessorsError(pcs, 0, {})
    ensures err.None? ==> processorNameSet == Names(pcs)
  {
    processorNameSet := {};
    for i := 0 to |pcs|
      invariant ProcessorsError(pcs, 0, {}) == ProcessorsError(pcs, i, processorNameSet)
      invariant processorNameSet == set k | 0 <= k < i :: pcs[k].name
    {
      err := CheckProcessor(pcs[i], processorNameSet);
      if err.Some? {
        return err, processorNameSet;
      }
      processorNameSet := processorNameSet + {pcs[i].name};
      assert (set k | 0 <= k < i + 1 :: pcs[k].name) == (set k | 0 <= k < i :: pcs[k].name) + {pcs[i].name};
    }
    assert Names(pcs) == set k | 0 <= k < |pcs| :: pcs[k].name;
    err := None;
  }

  /** The first pass on one processor. The source adds the name to the set before the
      entry-point check; on a failure the set is discarded, so adding it after the checks is
      the same. */
  method CheckProcessor(pc: ProcessorConfig, processorNameSet: set<string>) returns (err: Option<Error>)
    ensures err == ProcessorError(pc, processorNameSet)
  {
    if pc.name == "" {
      return Some(Failed("processor name cannot be empty"));
    }
    var name := pc.name;
    if name in processorNameSet {
      return Some(Failed("duplicate processor name " + name));
    }
    err := CheckProcessorFields(pc);
  }

  /** The rest of the first pass on one processor. */
  method CheckProcessorFields(pc: ProcessorConfig) returns (err: Option<Error>)
    ensures err == ProcessorFieldsError(pc)
  {
    var name := pc.name;
    if pc.entryPoint == "" {
      return Some(Failed("processor " + name + " entrypoint cannot be empty"));
    }
    var inputCount := |pc.inputProcessors| + |pc.inputKafkaConfigs|;
    if pc.processorType == ProcessorTypeProcess {
      if inputCount != 1 {
        return Some(Failed("processor with type=process must have one and only one input source"));
      }
    } else if pc.processorType == ProcessorTypeJoin {
      if inputCount <= 1 {
        return Some(Failed("processor with type=join must have more than one input sources"));
      }
    } else {
      return Some(ProcessorTypeNotRecognized);
    }
    err := CheckWorkersAndOutput(pc);
  }

  /** The worker-count and output-config checks of the first pass. */
  method CheckWorkersAndOutput(pc: ProcessorConfig) returns (err: Option<Error>)
    ensures err == WorkersAndOutputError(pc)
  {
    var name := pc.name;
    if pc.numOfWorker <= 0 {
      return Some(Failed("NumOfWorker must be greater than 0 for processor " + name));
    }
    if pc.outputConfig.None? {
      return Some(Failed("output config is not specified for processor " + name));
    }
    if pc.outputConfig.value.defaultTopicPartitions < 0 {
      return Some(Failed("DefaultTopicPartitions must be greater than or equal to 0 for processor " + name));
    }
    return None;
  }

  /** The second pass. */
  method CheckInputProcessors(pcs: seq<ProcessorConfig>, processorNameSet: set<string>) returns (err: Option<Error>)
    ensures err == InputsError(pcs, 0, processorNameSet)
  {
    for i := 0 to |pcs|
      invariant InputsError(pcs, 0, processorNameSet) == InputsError(pcs, i, processorNameSet)
    {
      var ns := pcs[i].inputProcessors;
      for j := 0 to |ns|
        invariant InputNamesError(ns, 0, processorNameSet) == InputNamesError(ns, j, processorNameSet)
      {
        if |ns[j]| == 0 {
          return Some(Failed("input processor name cannot be empty"));
        }
        if ns[j] !in processorNameSet {
          return Some(Failed("input processor " + ns[j] + " does not exist"));
        }
      }
    }
    return None;
  }

  /** The third pass. */
  method CheckInputKafkaConfigs(pcs: seq<ProcessorConfig>) returns (err: Option<Error>)
    ensures err == KafkaInputsError(pcs, 0)
  {
    for i := 0 to |pcs|
      invariant KafkaInputsError(pcs, 0) == KafkaInputsError(pcs, i)
    {
      var kcs := pcs[i].inputKafkaConfigs;
      for j := 0 to |kcs|
        invariant KafkaConfigsError(kcs, 0) == KafkaConfigsError(kcs, j)
      {
        if kcs[j].address == "" {
          return Some(KafkaAddressEmpty("inputKafkaConfigs"));
        }
        if kcs[j].topic == "" {
          return Some(KafkaTopicEmpty("inputKafkaConfigs"));
        }
      }
    }
    return None;
  }

  /** The fourth pass. The first pass has already rejected a processor with no output
      config, so every one is present here. */
  method CheckOutputKafkaConfigs(pcs: seq<ProcessorConfig>, processorNameSet: set<string>) returns (err: Option<Error>)
    requires forall k | 0 <= k < |pcs| :: pcs[k].outputConfig.Some?
    ensures err == OutputNamesError(pcs, 0, processorNameSet)
  {
    for i := 0 to |pcs|
      invariant OutputNamesError(pcs, 0, processorNameSet) == OutputNamesError(pcs, i, processorNameSet)
    {
      var pc := pcs[i];
      var okcs := pc.outputConfig.value.outputKafkaConfigs;
      var okcNameSet: set<string> := {};
      for j := 0 to |okcs|
        invariant NamedOutputsError(pc.name, okcs, 0, processorNameSet, {})
          == NamedOutputsError(pc.name, okcs, j, processorNameSet, okcNameSet)
      {
        if okcs[j].name in processorNameSet {
          return Some(Failed("OutputKafkaConfig name " + okcs[j].name + " in processor " + pc.name + " is duplicated with processor names"));
        }
        if okcs[j].name in okcNameSet {
          return Some(Failed("OutputKafkaConfig name " + okcs[j].name + " in processor " + pc.name + " is duplicated with another OutputKafkaConfig name"));
        }
        okcNameSet := okcNameSet + {okcs[j].name};
      }
    }
    return None;
  }

  /** The store pass: redis configs, then memcached configs. */
  method CheckStoreConfigs(gsc: GlobalStoreConfig) returns (err: Option<Error>)
    ensures err == (if RedisConfigsError(gsc.redisConfigs, 0, {}).Some? then RedisConfigsError(gsc.redisConfigs, 0, {})
                    else MemcachedConfigsError(gsc.memcachedConfigs, 0, {}))
  {
    var rcs := gsc.redisConfigs;
    var redisNames: set<string> := {};
    for i := 0 to |rcs|
      invariant RedisConfigsError(rcs, 0, {}) == RedisConfigsError(rcs, i, redisNames)
    {
      if rcs[i].name == "" {
        return Some(Failed("redis config name cannot be empty"));
      }
      if rcs[i].name in redisNames {
        return Some(Failed("redis config name should not duplicate"));
      }
      redisNames := redisNames + {rcs[i].name};
      if rcs[i].address == "" {
        return Some(Failed("redis config address cannot be empty"));
      }
    }
    var mcs := gsc.memcachedConfigs;
    var memcachedNames: set<string> := {};
    for i := 0 to |mcs|
      invariant MemcachedConfigsError(mcs, 0, {}) == MemcachedConfigsError(mcs, i, memcachedNames)
    {
      if mcs[i].name == "" {
        return Some(Failed("memcached config name cannot be empty"));
      }
      if mcs[i].name in memcachedNames {
        return Some(Failed("memcached config name should not duplicate"));
      }
      memcachedNames := memcachedNames + {mcs[i].name};
      if |mcs[i].addresses| == 0 {
        return Some(Failed("memcached config address cannot be empty"));
      }
    }
    return None;
  }

  // ---------------------------------------------------------------------------------------
  // NewInternalProcessorConfig
  // ---------------------------------------------------------------------------------------

  datatype ConsumerConfig = ConsumerConfig(address: string, topic: string, numOfWorkers: int)

  /** The config one processor runs with. `outputKafkaConfigs` is None for a nil map. */
  datatype InternalProcessorConfig = InternalProcessorConfig(
    name: string,
    processorType: string,
    globalKafkaConfig: Option<GlobalKafkaConfig>,
    consumerConfigs: seq<ConsumerConfig>,
    defaultOutputKafkaConfig: Option<KafkaConfig>,
    outputKafkaConfigs: Option<map<string, KafkaConfig>>,
    globalStoreConfig: Option<GlobalStoreConfig>)

  /** One consumer per input processor, on the global Kafka address with the processor's name
      as topic. */
  function ProcessorConsumers(ns: seq<string>, addr: string, workers: int): (r: seq<ConsumerConfig>)
    ensures |r| == |ns|
    ensures forall k | 0 <= k < |ns| :: r[k] == ConsumerConfig(addr, ns[k], workers)
  {
    if ns == [] then []
    else ProcessorConsumers(ns[..|ns| - 1], addr, workers) + [ConsumerConfig(addr, ns[|ns| - 1], workers)]
  }

  /** One consumer per input Kafka config, on that config's address and topic. */
  function KafkaConsumers(kcs: seq<KafkaConfig>, workers: int): (r: seq<ConsumerConfig>)
    ensures |r| == |kcs|
    ensures forall k | 0 <= k < |kcs| :: r[k] == ConsumerConfig(kcs[k].address, kcs[k].topic, workers)
  {
    if kcs == [] then []
    else KafkaConsumers(kcs[..|kcs| - 1], workers) + [ConsumerConfig(kcs[|kcs| - 1].address, kcs[|kcs| - 1].topic, workers)]
  }

  /** The processor outputs: each output processor's name maps to a topic of that name on the
      global Kafka address. */
  function ProcessorOutputs(ops: seq<string>, addr: string): (r: map<string, KafkaConfig>)
    ensures forall n :: n in r <==> n in ops
    ensures forall n | n in r :: r[n] == KafkaConfig(addr, n)
  {
    if ops == [] then map[]
    else ProcessorOutputs(ops[..|ops| - 1], addr)[ops[|ops| - 1] := KafkaConfig(addr, ops[|ops| - 1])]
  }

  function OutputNames(okcs: seq<NamedKafkaConfig>): set<string> {
    set k | 0 <= k < |okcs| :: okcs[k].name
  }

  /** `okcs[k]` is the last named output with its name. */
  predicate LastOfItsName(okcs: seq<NamedKafkaConfig>, k: nat)
    requires k < |okcs|
  {
    forall l | k < l < |okcs| :: okcs[l].name != okcs[k].name
  }

  /** `okcs` written over `m` in order. */
  function NamedOutputs(m: map<string, KafkaConfig>, okcs: seq<NamedKafkaConfig>): map<string, KafkaConfig> {
    if okcs == [] then m
    else
      var last := okcs[|okcs| - 1];
      NamedOutputs(m, okcs[..|okcs| - 1])[last.name := KafkaConfig(last.address, last.topic)]
  }

  lemma {:induction false} OutputNamesOfPrefix(okcs: seq<NamedKafkaConfig>)
    requires okcs != []
    ensures OutputNames(okcs) == OutputNames(okcs[..|okcs| - 1]) + {okcs[|okcs| - 1].name}
  {
    var front := okcs[..|okcs| - 1];
    forall n | n in OutputNames(okcs) ensures n in OutputNames(front) + {okcs[|okcs| - 1].name} {
      var k :| 0 <= k < |okcs| && okcs[k].name == n;
      if k < |front| { assert front[k] == okcs[k]; }
    }
    forall n | n in OutputNames(front) ensures n in OutputNames(okcs) {
      var k :| 0 <= k < |front| && front[k].name == n;
      assert okcs[k] == front[k];
    }
  }

  /** The output names are added to the map, and names no output uses keep their entry. */
  lemma {:induction false} NamedOutputsDomain(m: map<string, KafkaConfig>, okcs: seq<NamedKafkaConfig>)
    ensures forall n :: n in NamedOutputs(m, okcs) <==> n in m || n in OutputNames(okcs)
    ensures forall n | n in m && n !in OutputNames(okcs) :: NamedOutputs(m, okcs)[n] == m[n]
  {
    if okcs != [] {
      NamedOutputsDomain(m, okcs[..|okcs| - 1]);
      OutputNamesOfPrefix(okcs);
    }
  }

  /** A named Kafka output replaces a processor output of the same name, and of two named
      outputs with one name the later one stays. */
  lemma {:induction false} NamedOutputsOverride(m: map<string, KafkaConfig>, okcs: seq<NamedKafkaConfig>, k: nat)
    requires k < |okcs| && LastOfItsName(okcs, k)
    ensures okcs[k].name in NamedOutputs(m, okcs)
    ensures NamedOutputs(m, okcs)[okcs[k].name] == KafkaConfig(okcs[k].address, okcs[k].topic)
  {
    var front := okcs[..|okcs| - 1];
    if k < |front| {
      assert okcs[|okcs| - 1].name != okcs[k].name;
      assert front[k] == okcs[k];
      assert LastOfItsName(front, k) by {
        forall l | k < l < |front| ensures front[l].name != front[k].name {
          assert front[l] == okcs[l];
        }
      }
      NamedOutputsOverride(m, front, k);
    }
  }

  /** What one processor of the requested name contributes. Reading the output config of a
      processor that has none is a nil dereference. */
  function ApplyProcessor(ipc: InternalProcessorConfig, pc: ProcessorConfig, addr: string): (r: Result<InternalProcessorConfig>)
    ensures r.Err? <==> pc.outputConfig.None?
    ensures r.Ok? ==>
      && r.value.name == ipc.name && r.value.processorType == ipc.processorType
      && r.value.globalKafkaConfig == ipc.globalKafkaConfig && r.value.globalStoreConfig == ipc.globalStoreConfig
      && r.value.outputKafkaConfigs.Some?
  {
    if pc.outputConfig.None? then Err(Panic(NilDereference))
    else
      var oc := pc.outputConfig.value;
      Ok(ipc.(
        consumerConfigs := ProcessorConsumers(pc.inputProcessors, addr, pc.numOfWorker)
                           + KafkaConsumers(pc.inputKafkaConfigs, pc.numOfWorker),
        defaultOutputKafkaConfig :=
          if oc.defaultTopicPartitions > 0 then Some(KafkaConfig(addr, pc.name)) else ipc.defaultOutputKafkaConfig,
        outputKafkaConfigs := Some(NamedOutputs(ProcessorOutputs(oc.outputProcessors, addr), oc.outputKafkaConfigs))))
  }

  /** The scan over processors from index `i`: each processor with the requested name is
      applied in turn. */
  function DeriveFrom(ipc: InternalProcessorConfig, pcs: seq<ProcessorConfig>, i: nat, addr: string): (r: Result<InternalProcessorConfig>)
    requires i <= |pcs|
    ensures r.Ok? ==>
      && r.value.name == ipc.name && r.value.processorType == ipc.processorType
      && r.value.globalKafkaConfig == ipc.globalKafkaConfig && r.value.globalStoreConfig == ipc.globalStoreConfig
    decreases |pcs| - i
  {
    if i == |pcs| then Ok(ipc)
    else if pcs[i].name != ipc.name then DeriveFrom(ipc, pcs, i + 1, addr)
    else match ApplyProcessor(ipc, pcs[i], addr)
      case Err(e) => Err(e)
      case Ok(next) => DeriveFrom(next, pcs, i + 1, addr)
  }

  /** The config before any processor is applied: no type, no consumers, no outputs. */
  function BaseConfig(rc: RootConfig, processorName: string): InternalProcessorConfig {
    InternalProcessorConfig(processorName, "", rc.globalKafkaConfig, [], None, None, rc.globalStoreConfig)
  }

  /** `NewInternalProcessorConfig`: a root config with no global Kafka config is a nil
      dereference. */
  function NewInternalProcessorConfig(rc: RootConfig, processorName: string): (r: Result<InternalProcessorConfig>)
    ensures rc.globalKafkaConfig.None? ==> r.Err?
    ensures r.Ok? ==> r.value.name == processorName && r.value.processorType == ""
  {
    if rc.globalKafkaConfig.None? then Err(Panic(NilDereference))
    else DeriveFrom(BaseConfig(rc, processorName), rc.processorConfigs, 0, rc.globalKafkaConfig.value.address)
  }

  /** Processors of other names are skipped. */
  lemma {:induction false} DeriveSkips(ipc: InternalProcessorConfig, pcs: seq<ProcessorConfig>, i: nat, j: nat, addr: string)
    requires i <= j <= |pcs|
    requires forall k | i <= k < j :: pcs[k].name != ipc.name
    ensures DeriveFrom(ipc, pcs, i, addr) == DeriveFrom(ipc, pcs, j, addr)
    decreases j - i
  {
    if i < j {
      DeriveSkips(ipc, pcs, i + 1, j, addr);
    }
  }

  /** When exactly one processor has the requested name, the derived config is what that
      processor contributes: its consumers, input processors first; a default output on the
      global address exactly when its default topic has partitions; and its outputs. */
  lemma {:induction false} DeriveUnique(rc: RootConfig, processorName: string, k: nat)
    requires rc.globalKafkaConfig.Some?
    requires k < |rc.processorConfigs| && rc.processorConfigs[k].name == processorName
    requires forall j | 0 <= j < |rc.processorConfigs| && j != k :: rc.processorConfigs[j].name != processorName
    requires rc.processorConfigs[k].outputConfig.Some?
    ensures var r := NewInternalProcessorConfig(rc, processorName);
      var pc := rc.processorConfigs[k];
      var oc := pc.outputConfig.value;
      var addr := rc.globalKafkaConfig.value.address;
      && r.Ok?
      && r.value.consumerConfigs
         == ProcessorConsumers(pc.inputProcessors, addr, pc.numOfWorker) + KafkaConsumers(pc.inputKafkaConfigs, pc.numOfWorker)
      && (r.value.defaultOutputKafkaConfig.Some? <==> oc.defaultTopicPartitions > 0)
      && (r.value.defaultOutputKafkaConfig.Some? ==> r.value.defaultOutputKafkaConfig.value == KafkaConfig(addr, processorName))
      && r.value.outputKafkaConfigs == Some(NamedOutputs(ProcessorOutputs(oc.outputProcessors, addr), oc.outputKafkaConfigs))
  {
    var pcs := rc.processorConfigs;
    var addr := rc.globalKafkaConfig.value.address;
    var base := BaseConfig(rc, processorName);
    DeriveSkips(base, pcs, 0, k, addr);
    var next := ApplyProcessor(base, pcs[k], addr).value;
    DeriveSkips(next, pcs, k + 1, |pcs|, addr);
  }

  /** A name no processor has gives a config with no consumers and no outputs. */
  lemma {:induction false} DeriveUnknownName(rc: RootConfig, processorName: string)
    requires rc.globalKafkaConfig.Some?
    requires processorName !in Names(rc.processorConfigs)
    ensures NewInternalProcessorConfig(rc, processorName) == Ok(BaseConfig(rc, processorName))
  {
    var pcs := rc.processorConfigs;
    forall j | 0 <= j < |pcs| ensures pcs[j].name != processorName {
      assert pcs[j].name in Names(pcs);
    }
    DeriveSkips(BaseConfig(rc, processorName), pcs, 0, |pcs|, rc.globalKafkaConfig.value.address);
  }

  /** For a processor of a validated root config, derivation succeeds and every consumer
      config it yields passes the internal validator's consumer rules. */
  lemma {:induction false} ValidatedProcessorDerives(rc: RootConfig, k: nat)
    requires RootConfigError(rc).None? && k < |rc.processorConfigs|
    requires rc.globalKafkaConfig.value.address != ""
    ensures var r := NewInternalProcessorConfig(rc, rc.processorConfigs[k].name);
      && r.Ok? && |r.value.consumerConfigs| == InputCount(rc.processorConfigs[k]) > 0
      && ConsumerConfigsError(r.value.consumerConfigs, 0).None?
  {
    var pcs := rc.processorConfigs;
    var pc := pcs[k];
    var addr := rc.globalKafkaConfig.value.address;
    forall j | 0 <= j < |pcs| && j != k ensures pcs[j].name != pc.name {
      if j < k { assert pcs[j].name != pcs[k].name; } else { assert pcs[k].name != pcs[j].name; }
    }
    DeriveUnique(rc, pc.name, k);
    var ccs := ProcessorConsumers(pc.inputProcessors, addr, pc.numOfWorker) + KafkaConsumers(pc.inputKafkaConfigs, pc.numOfWorker);
    forall m | 0 <= m < |ccs| ensures ccs[m].address != "" && ccs[m].topic != "" && ccs[m].numOfWorkers > 0 {
      if m < |pc.inputProcessors| {
        assert ccs[m] == ConsumerConfig(addr, pc.inputProcessors[m], pc.numOfWorker);
        assert pc.inputProcessors[m] != "";
      } else {
        var q := m - |pc.inputProcessors|;
        assert ccs[m] == ConsumerConfig(pc.inputKafkaConfigs[q].address, pc.inputKafkaConfigs[q].topic, pc.numOfWorker);
        assert pc.inputKafkaConfigs[q].address != "" && pc.inputKafkaConfigs[q].topic != "";
      }
    }
  }

  /** `NewInternalProcessorConfig`, with its loops. */
  method NewInternalProcessorConfigOf(rootConfig: RootConfig, processorName: string) returns (r: Result<InternalProcessorConfig>)
    ensures r == NewInternalProcessorConfig(rootConfig, processorName)
  {
    if rootConfig.globalKafkaConfig.None? {
      return Err(Panic(NilDereference));
    }
    var ipc := BaseConfig(rootConfig, processorName);
    var kafkaAddr := rootConfig.globalKafkaConfig.value.address;
    var pcs := rootConfig.processorConfigs;
    for i := 0 to |pcs|
      invariant ipc.name == processorName
      invariant NewInternalProcessorConfig(rootConfig, processorName) == DeriveFrom(ipc, pcs, i, kafkaAddr)
    {
      var processorConfig := pcs[i];
      if processorConfig.name != processorName {
        continue;
      }
      var consumerConfigs := ConsumerConfigsFor(processorConfig, kafkaAddr);
      ipc := ipc.(consumerConfigs := consumerConfigs);
      if processorConfig.outputConfig.None? {
        return Err(Panic(NilDereference));
      }
      var oc := processorConfig.outputConfig.value;
      if oc.defaultTopicPartitions > 0 {
        ipc := ipc.(defaultOutputKafkaConfig := Some(KafkaConfig(kafkaAddr, processorConfig.name)));
      }
      var outputMap := OutputMapFor(oc, kafkaAddr);
      ipc := ipc.(outputKafkaConfigs := Some(outputMap));
    }
    return Ok(ipc);
  }

  /** The consumer configs of one processor, appended one by one. */
  method ConsumerConfigsFor(pc: ProcessorConfig, kafkaAddr: string) returns (consumerConfigs: seq<ConsumerConfig>)
    ensures consumerConfigs
      == ProcessorConsumers(pc.inputProcessors, kafkaAddr, pc.numOfWorker) + KafkaConsumers(pc.inputKafkaConfigs, pc.numOfWorker)
  {
    consumerConfigs := [];
    var ns := pc.inputProcessors;
    for j := 0 to |ns|
      invariant consumerConfigs == ProcessorConsumers(ns[..j], kafkaAddr, pc.numOfWorker)
    {
      consumerConfigs := consumerConfigs + [ConsumerConfig(kafkaAddr, ns[j], pc.numOfWorker)];
      assert ns[..j + 1][..j] == ns[..j];
    }
    assert ns[..|ns|] == ns;
    var front := consumerConfigs;
    var kcs := pc.inputKafkaConfigs;
    for j := 0 to |kcs|
      invariant consumerConfigs == front + KafkaConsumers(kcs[..j], pc.numOfWorker)
    {
      consumerConfigs := consumerConfigs + [ConsumerConfig(kcs[j].address, kcs[j].topic, pc.numOfWorker)];
      assert kcs[..j + 1][..j] == kcs[..j];
    }
    assert kcs[..|kcs|] == kcs;
  }

  /** The output map of one processor: processor outputs first, then the named Kafka outputs
      written over them. */
  method OutputMapFor(oc: OutputConfig, kafkaAddr: string) returns (outputMap: map<string, KafkaConfig>)
    ensures outputMap == NamedOutputs(ProcessorOutputs(oc.outputProcessors, kafkaAddr), oc.outputKafkaConfigs)
  {
    outputMap := map[];
    var ops := oc.outputProcessors;
    for j := 0 to |ops|
      invariant outputMap == ProcessorOutputs(ops[..j], kafkaAddr)
    {
      outputMap := outputMap[ops[j] := KafkaConfig(kafkaAddr, ops[j])];
      assert ops[..j + 1][..j] == ops[..j];
    }
    assert ops[..|ops|] == ops;
    var processorOutputs := outputMap;
    var okcs := oc.outputKafkaConfigs;
    for j := 0 to |okcs|
      invariant outputMap == NamedOutputs(processorOutputs, okcs[..j])
    {
      outputMap := outputMap[okcs[j].name := KafkaConfig(okcs[j].address, okcs[j].topic)];
      assert okcs[..j + 1][..j] == okcs[..j];
    }
    assert okcs[..|okcs|] == okcs;
  }

  // ---------------------------------------------------------------------------------------
  // InternalProcessorConfig.Validate
  // ---------------------------------------------------------------------------------------

  function ConsumerConfigsError(ccs: seq<ConsumerConfig>, i: nat): (r: Option<Error>)
    requires i <= |ccs|
    ensures r.None? <==> forall k | i <= k < |ccs| :: ccs[k].address != "" && ccs[k].topic != "" && ccs[k].numOfWorkers > 0
    decreases |ccs| - i
  {
    if i == |ccs| then None
    else if ccs[i].address == "" then Some(Failed("consumer config address should not be empty"))
    else if ccs[i].topic == "" then Some(Failed("consumer config topic should not be empty"))
    else if ccs[i].numOfWorkers <= 0 then Some(Failed("consumer numOfWorker must be positive"))
    else ConsumerConfigsError(ccs, i + 1)
  }

  /** `InternalProcessorConfig.Validate`: the checked config, with a nil output map replaced by
      an empty one on success. A failure leaves the config as it was. */
  function InternalValidate(ipc: InternalProcessorConfig): (r: (InternalProcessorConfig, Option<Error>))
    ensures r.1.None? <==>
      && ipc.name != "" && ipc.processorType != "" && ipc.globalKafkaConfig.Some? && |ipc.consumerConfigs| > 0
      && ConsumerConfigsError(ipc.consumerConfigs, 0).None?
    ensures r.1.Some? ==> r.0 == ipc
    ensures r.0.outputKafkaConfigs.None? ==> r.1.Some?
    ensures ipc.outputKafkaConfigs.Some? ==> r.0 == ipc
  {
    if ipc.name == "" then (ipc, Some(Failed("processor name should not be empty")))
    else if ipc.processorType == "" then (ipc, Some(Failed("processor type should not be empty")))
    else if ipc.globalKafkaConfig.None? then (ipc, Some(Failed("global kafka config should be nil")))
    else if |ipc.consumerConfigs| == 0 then (ipc, Some(Failed("consumer configs should not be empty")))
    else if ConsumerConfigsError(ipc.consumerConfigs, 0).Some? then (ipc, ConsumerConfigsError(ipc.consumerConfigs, 0))
    else if ipc.outputKafkaConfigs.None? then (ipc.(outputKafkaConfigs := Some(map[])), None)
    else (ipc, None)
  }

  /** Validating twice is validating once. */
  lemma {:induction false} InternalValidateIdempotent(ipc: InternalProcessorConfig)
    ensures InternalValidate(InternalValidate(ipc).0) == (InternalValidate(ipc).0, InternalValidate(ipc).1)
  {
  }

  /** A derived config never validates: `NewInternalProcessorConfig` does not set the type. */
  lemma {:induction false} DerivedConfigFailsValidation(rc: RootConfig, processorName: string)
    requires NewInternalProcessorConfig(rc, processorName).Ok?
    ensures var ipc := NewInternalProcessorConfig(rc, processorName).value;
      InternalValidate(ipc).1 ==
        Some(Failed(if processorName == "" then "processor name should not be empty" else "processor type should not be empty"))
  {
  }

  /** The type of the last processor named `name`, or "" when none is: what the derivation
      would copy if it set the type while applying each processor of that name. */
  function TypeOfName(pcs: seq<ProcessorConfig>, name: string): string
    decreases |pcs|
  {
    if pcs == [] then ""
    else if pcs[|pcs| - 1].name == name then pcs[|pcs| - 1].processorType
    else TypeOfName(pcs[..|pcs| - 1], name)
  }

  /** A processor whose name no other processor has gives the type of that name. */
  lemma {:induction false} TypeOfUniqueName(pcs: seq<ProcessorConfig>, k: nat)
    requires k < |pcs|
    requires forall j | 0 <= j < |pcs| && j != k :: pcs[j].name != pcs[k].name
    ensures TypeOfName(pcs, pcs[k].name) == pcs[k].processorType
    decreases |pcs|
  {
    if k < |pcs| - 1 {
      var front := pcs[..|pcs| - 1];
      forall j | 0 <= j < |front| && j != k ensures front[j].name != front[k].name {
        assert front[j] == pcs[j] && front[k] == pcs[k];
      }
      TypeOfUniqueName(front, k);
      assert front[k] == pcs[k];
    }
  }

  /** `NewInternalProcessorConfig` as evidently intended: the derived config also carries the
      type of the processor it was derived from. */
  function NewTypedProcessorConfig(rc: RootConfig, processorName: string): (r: Result<InternalProcessorConfig>)
    ensures r.Ok? <==> NewInternalProcessorConfig(rc, processorName).Ok?
    ensures r.Ok? ==> r.value.name == processorName
  {
    match NewInternalProcessorConfig(rc, processorName)
    case Err(e) => Err(e)
    case Ok(ipc) => Ok(ipc.(processorType := TypeOfName(rc.processorConfigs, processorName)))
  }

  /** With the type copied, every processor of a validated root config whose Kafka address is
      given derives a config with its own type that passes `InternalProcessorConfig.Validate`. */
  lemma {:induction false} TypedDerivationValidates(rc: RootConfig, k: nat)
    requires RootConfigError(rc).None? && k < |rc.processorConfigs|
    requires rc.globalKafkaConfig.value.address != ""
    ensures var r := NewTypedProcessorConfig(rc, rc.processorConfigs[k].name);
      && r.Ok? && r.value.processorType == rc.processorConfigs[k].processorType
      && InternalValidate(r.value).1.None?
  {
    var pcs := rc.processorConfigs;
    ValidatedProcessorDerives(rc, k);
    forall j | 0 <= j < |pcs| && j != k ensures pcs[j].name != pcs[k].name {
      if j < k { assert pcs[j].name != pcs[k].name; } else { assert pcs[k].name != pcs[j].name; }
    }
    TypeOfUniqueName(pcs, k);
    assert ProcessorShapeOk(pcs[k]);
  }

  // ---------------------------------------------------------------------------------------
  // The package state: Config, GetRedisConfigByName, GetMemcachedConfigByName, LoadConfig
  // ---------------------------------------------------------------------------------------

  function RedisName(c: RedisConfig): string { c.name }
  function MemcachedName(c: MemcachedConfig): string { c.name }

  /** Configs written into a by-name table in order. */
  function Register<T>(m: map<string, T>, s: seq<T>, nameOf: T -> string): map<string, T> {
    if s == [] then m
    else Register(m, s[..|s| - 1], nameOf)[nameOf(s[|s| - 1]) := s[|s| - 1]]
  }

  /** Every name of `s` maps to the last config with that name, and other entries stay. */
  lemma {:induction false} RegisterKeepsLast<T>(m: map<string, T>, s: seq<T>, nameOf: T -> string)
    ensures forall n :: n in Register(m, s, nameOf) <==> n in m || exists k | 0 <= k < |s| :: nameOf(s[k]) == n
    ensures forall k | 0 <= k < |s| && (forall l | k < l < |s| :: nameOf(s[l]) != nameOf(s[k])) ::
      Register(m, s, nameOf)[nameOf(s[k])] == s[k]
    ensures forall n | n in m && (forall k | 0 <= k < |s| :: nameOf(s[k]) != n) :: Register(m, s, nameOf)[n] == m[n]
  {
    if s != [] {
      var front := s[..|s| - 1];
      RegisterKeepsLast(m, front, nameOf);
      forall n | n in Register(m, s, nameOf) && n !in m && n != nameOf(s[|s| - 1])
        ensures exists k | 0 <= k < |s| :: nameOf(s[k]) == n
      {
        var k :| 0 <= k < |front| && nameOf(front[k]) == n;
        assert s[k] == front[k];
      }
      forall n | (exists k | 0 <= k < |s| :: nameOf(s[k]) == n) ensures n in Register(m, s, nameOf) {
        var k :| 0 <= k < |s| && nameOf(s[k]) == n;
        if k < |front| { assert front[k] == s[k]; }
      }
      forall k | 0 <= k < |s| && (forall l | k < l < |s| :: nameOf(s[l]) != nameOf(s[k]))
        ensures Register(m, s, nameOf)[nameOf(s[k])] == s[k]
      {
        if k < |front| {
          assert nameOf(s[|s| - 1]) != nameOf(s[k]);
          assert front[k] == s[k];
          forall l | k < l < |front| ensures nameOf(front[l]) != nameOf(front[k]) {
            assert front[l] == s[l];
          }
        }
      }
      forall n | n in m && (forall k | 0 <= k < |s| :: nameOf(s[k]) != n)
        ensures Register(m, s, nameOf)[n] == m[n]
      {
        forall k | 0 <= k < |front| ensures nameOf(front[k]) != n {
          assert front[k] == s[k];
        }
      }
    }
  }

  /** After loading a store config with distinct names, each name looks up its own config. */
  lemma {:induction false} RegisteredByName(m: map<string, RedisConfig>, rcs: seq<RedisConfig>, k: nat)
    requires k < |rcs|
    requires forall i, j | 0 <= i < j < |rcs| :: rcs[i].name != rcs[j].name
    ensures rcs[k].name in Register(m, rcs, RedisName)
    ensures Register(m, rcs, RedisName)[rcs[k].name] == rcs[k]
  {
    RegisterKeepsLast(m, rcs, RedisName);
  }

  /** The package variables `c`, `redisConfigs` and `memcachedConfigs`. */
  class ConfigState {
    var c: Option<InternalProcessorConfig>
    var redisConfigs: map<string, RedisConfig>
    var memcachedConfigs: map<string, MemcachedConfig>

    constructor ()
      ensures c.None? && redisConfigs == map[] && memcachedConfigs == map[]
    {
      c := None;
      redisConfigs := map[];
      memcachedConfigs := map[];
    }

    /** `Config`: panics before a config is loaded. */
    method Config() returns (r: Result<InternalProcessorConfig>)
      ensures c.None? ==> r == Err(Panic("config is not initialized"))
      ensures c.Some? ==> r == Ok(c.value)
    {
      if c.None? {
        return Err(Panic("config is not initialized"));
      }
      return Ok(c.value);
    }

    method GetRedisConfigByName(name: string) returns (r: Option<RedisConfig>)
      ensures name in redisConfigs <==> r.Some?
      ensures r.Some? ==> r.value == redisConfigs[name]
    {
      r := if name in redisConfigs then Some(redisConfigs[name]) else None;
    }

    method GetMemcachedConfigByName(name: string) returns (r: Option<MemcachedConfig>)
      ensures name in memcachedConfigs <==> r.Some?
      ensures r.Some? ==> r.value == memcachedConfigs[name]
    {
      r := if name in memcachedConfigs then Some(memcachedConfigs[name]) else None;
    }

    /** `LoadConfig`: validates (which normalises) the config, installs it, and registers its
        store configs by name over the ones already registered. A failed validation changes
        nothing. */
    method LoadConfig(config: InternalProcessorConfig) returns (err: Option<Error>)
      modifies this
      ensures var (checked, e) := InternalValidate(config);
        && (e.Some? ==>
              && err == Some(Wrapped("validate internal processor config failed", e.value))
              && c == old(c) && redisConfigs == old(redisConfigs) && memcachedConfigs == old(memcachedConfigs))
        && (e.None? ==>
              && err.None? && c == Some(checked)
              && (checked.globalStoreConfig.None? ==>
                    redisConfigs == old(redisConfigs) && memcachedConfigs == old(memcachedConfigs))
              && (checked.globalStoreConfig.Some? ==>
                    && redisConfigs == Register(old(redisConfigs), checked.globalStoreConfig.value.redisConfigs, RedisName)
                    && memcachedConfigs == Register(old(memcachedConfigs), checked.globalStoreConfig.value.memcachedConfigs, MemcachedName)))
    {
      var (checked, e) := InternalValidate(config);
      if e.Some? {
        return Some(Wrapped("validate internal processor config failed", e.value));
      }
      c := Some(checked);
      if checked.globalStoreConfig.Some? {
        var rcs := checked.globalStoreConfig.value.redisConfigs;
        for i := 0 to |rcs|
          invariant c == Some(checked)
          invariant redisConfigs == Register(old(redisConfigs), rcs[..i], RedisName)
          invariant memcachedConfigs == old(memcachedConfigs)
        {
          redisConfigs := redisConfigs[rcs[i].name := rcs[i]];
          assert rcs[..i + 1][..i] == rcs[..i];
        }
        assert rcs[..|rcs|] == rcs;
        var mcs := checked.globalStoreConfig.value.memcachedConfigs;
        for i := 0 to |mcs|
          invariant c == Some(checked)
          invariant redisConfigs == Register(old(redisConfigs), rcs, RedisName)
          invariant memcachedConfigs == Register(old(memcachedConfigs), mcs[..i], MemcachedName)
        {
          memcachedConfigs := memcachedConfigs[mcs[i].name := mcs[i]];
          assert mcs[..i + 1][..i] == mcs[..i];
        }
        assert mcs[..|mcs|] == mcs;
      }
      return None;
    }
  }
}
