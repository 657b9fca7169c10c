/** Routing a record to an output (pkg/core/processor_utils.go). The default route uses the
    default producer; a named route looks the name up in the loaded config's output map and then
    takes the producer of that destination's topic. Both return success once a producer is
    found, whether or not the send succeeds. The record's key is the string the store
    addresses; the byte conversion is not modelled. */
module ProcessorUtils {
  import opened Base
  import opened Conf
  import opened Models
  import opened Producer

  /** The producer a named route uses: by the destination's topic, not by its name. */
  function RouteOf(cfg: Option<InternalProcessorConfig>, producers: map<string, Producer>, name: string): (r: Result<Producer>)
    ensures cfg.None? ==> r == Err(Panic("config is not initialized"))
    ensures r.Ok? <==>
      cfg.Some? && name in OutputsOf(cfg.value) && OutputsOf(cfg.value)[name].topic in producers
    ensures r.Ok? ==> r.value == producers[OutputsOf(cfg.value)[name].topic]
  {
    if cfg.None? then Err(Panic("config is not initialized"))
    else if name !in OutputsOf(cfg.value) then Err(Failed("output topic with name " + name + " does not exist"))
    else
      var topic := OutputsOf(cfg.value)[name].topic;
      if topic !in producers then Err(Failed("producer with topic " + topic + " does not exist"))
      else Ok(producers[topic])
  }

  /** After producers are set up for a config, every output name routes, to the producer that
      owns its topic: the last output visited with that topic, whose address may differ from
      the name's own address. */
  lemma {:induction false} RoutesAfterInit(cfg: InternalProcessorConfig, producers: map<string, Producer>, connections: seq<string>,
                        start: nat, order: seq<string>, name: string)
    requires forall k | 0 <= k < |order| :: order[k] in OutputsOf(cfg)
    requires forall n | n in OutputsOf(cfg) :: n in order
    requires TableFrom(producers, connections, start, OutputsOf(cfg), order)
    requires name in OutputsOf(cfg)
    ensures var r := RouteOf(Some(cfg), producers, name);
      var owner := TopicOwners(OutputsOf(cfg), order)[OutputsOf(cfg)[name].topic];
      && r.Ok? && r.value.topic == OutputsOf(cfg)[name].topic
      && r.value.conn < |connections| && connections[r.value.conn] == OutputsOf(cfg)[owner].address
  {
    var outputs := OutputsOf(cfg);
    var k :| 0 <= k < |order| && order[k] == name;
    assert outputs[order[k]].topic == outputs[name].topic;
  }

  /** `PassToDefaultOutputTopic`: fails exactly when there is no default producer; otherwise
      the record is sent on the default topic, and a failed send is not reported. */
  method PassToDefaultOutputTopic(ps: Producers, record: Record) returns (err: Option<Error>)
    requires ps.Valid()
    modifies ps.broker
    ensures ps.broker.connections == old(ps.broker.connections) && ps.broker.closed == old(ps.broker.closed)
    ensures err.Some? <==> ps.dp.None?
    ensures ps.dp.Some? && ps.broker.connections[ps.dp.value.conn] !in ps.broker.rejecting ==>
      ps.broker.sent == old(ps.broker.sent) + [Message(ps.dp.value.topic, record.key, record.value)]
    ensures ps.dp.None? || ps.broker.connections[ps.dp.value.conn] in ps.broker.rejecting ==>
      ps.broker.sent == old(ps.broker.sent)
  {
    var producer := ps.DefaultProducer();
    if producer.Err? {
      return Some(producer.error);
    }
    var _ := Produce(ps.broker, producer.value, record.key, record.value);
    return None;
  }

  /** `PassToOutputTopic`: fails when the config is not loaded, when the name is not an
      output, or when no producer serves the output's topic; otherwise the record is sent on
      that producer, and a failed send is not reported. */
  method PassToOutputTopic(cs: ConfigState, ps: Producers, name: string, record: Record) returns (err: Option<Error>)
    requires ps.Valid()
    modifies ps.broker
    ensures ps.broker.connections == old(ps.broker.connections) && ps.broker.closed == old(ps.broker.closed)
    ensures var route := RouteOf(cs.c, ps.producers, name);
      && (route.Err? ==> err == Some(route.error) && ps.broker.sent == old(ps.broker.sent))
      && (route.Ok? ==> err.None?)
      && (route.Ok? && ps.broker.connections[route.value.conn] !in ps.broker.rejecting ==>
            ps.broker.sent == old(ps.broker.sent) + [Message(route.value.topic, record.key, record.value)])
      && (route.Ok? && ps.broker.connections[route.value.conn] in ps.broker.rejecting ==>
            ps.broker.sent == old(ps.broker.sent))
  {
    var c := cs.Config();
    if c.Err? {
      return Some(c.error);
    }
    var outputs := OutputsOf(c.value);
    if name !in outputs {
      return Some(Failed("output topic with name " + name + " does not exist"));
    }
    var kafkaDest := outputs[name];
    var producer := ps.GetProducer(kafkaDest.topic);
    if producer.Err? {
      return Some(producer.error);
    }
    var _ := Produce(ps.broker, producer.value, record.key, record.value);
    return None;
  }
}
