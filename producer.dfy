/** Output producers (pkg/core/producer.go). `initProducers` opens one broker connection for the
    default output topic and one per distinct address among the named outputs, and fills a
    topic-to-producer table. `getProducer` and `defaultProducer` look producers up,
    `closeProducers` closes every table entry's connection, and `produce` sends a message on
    the producer's topic.

    The Kafka client is the class `Broker`: connections are numbered in the order they are
    opened, a close is recorded per call, and a sent message is appended to an outbox. Which
    addresses cannot be reached, and which connections reject sends, are fixed parameters. The
    iteration order of Go's `range` over the output map and over the producer table is a
    parameter too: any order that visits each key once. */
module Producer {
  import opened Base
  import opened Conf

  /** A message as the broker received it. */
  datatype Message = Message(topic: string, key: string, value: seq<byte>)

  /** The Kafka side: connections, closes and the outbox. */
  class Broker {
    var connections: seq<string>        // connections[i]: the address of connection i
    var closed: multiset<nat>      // one entry per Close call, by connection
    var sent: seq<Message>
    const unreachable: set<string> // addresses a connection to which fails
    const rejecting: set<string>   // addresses whose connections fail every send

    constructor (unreachable: set<string>, rejecting: set<string>)
      ensures connections == [] && closed == multiset{} && sent == []
      ensures this.unreachable == unreachable && this.rejecting == rejecting
    {
      connections := [];
      closed := multiset{};
      sent := [];
      this.unreachable := unreachable;
      this.rejecting := rejecting;
    }

    /** `sarama.NewSyncProducer` on one address: a new connection, or an error. */
    method Connect(address: string) returns (r: Result<nat>)
      modifies this
      ensures address in unreachable ==> r.Err? && connections == old(connections)
      ensures address !in unreachable ==> r == Ok(|old(connections)|) && connections == old(connections) + [address]
      ensures closed == old(closed) && sent == old(sent)
    {
      if address in unreachable {
        return Err(Library("kafka: client has run out of available brokers to talk to"));
      }
      r := Ok(|connections|);
      connections := connections + [address];
    }

    method Close(conn: nat)
      modifies this
      ensures closed == old(closed) + multiset{conn}
      ensures connections == old(connections) && sent == old(sent)
    {
      closed := closed + multiset{conn};
    }

    /** `SendMessage`: the message reaches the outbox unless the connection rejects sends. */
    method Send(conn: nat, msg: Message) returns (err: Option<Error>)
      requires conn < |connections|
      modifies this
      ensures connections == old(connections) && closed == old(closed)
      ensures connections[conn] in rejecting ==> err.Some? && sent == old(sent)
      ensures connections[conn] !in rejecting ==> err.None? && sent == old(sent) + [msg]
    {
      if connections[conn] in rejecting {
        return Some(Library("kafka: failed to produce message"));
      }
      sent := sent + [msg];
      err := None;
    }
  }

  /** A producer: a connection and the topic it writes to. */
  datatype Producer = Producer(conn: nat, topic: string)

  /** The output map of a config; a nil map has no entries. */
  function OutputsOf(cfg: InternalProcessorConfig): map<string, KafkaConfig> {
    if cfg.outputKafkaConfigs.Some? then cfg.outputKafkaConfigs.value else map[]
  }

  /** Which output name ends up owning each topic when the outputs are visited in `order`:
      the last one visited with that topic. */
  function TopicOwners(outputs: map<string, KafkaConfig>, order: seq<string>): (r: map<string, string>)
    requires forall k | 0 <= k < |order| :: order[k] in outputs
    ensures forall t :: t in r <==> exists k | 0 <= k < |order| :: outputs[order[k]].topic == t
    ensures forall t | t in r :: r[t] in outputs && outputs[r[t]].topic == t
  {
    if order == [] then map[]
    else
      var n := order[|order| - 1];
      TopicOwners(outputs, order[..|order| - 1])[outputs[n].topic := n]
  }

  /** The addresses of the outputs visited. */
  function Addresses(outputs: map<string, KafkaConfig>, order: seq<string>): set<string>
    requires forall k | 0 <= k < |order| :: order[k] in outputs
  {
    set k | 0 <= k < |order| :: outputs[order[k]].address
  }

  /** `addrToConn` numbers the connections opened from `start` on, one per address. */
  ghost predicate ConnectionsByAddress(addrToConn: map<string, nat>, connections: seq<string>, start: nat) {
    && (forall a | a in addrToConn :: start <= addrToConn[a] < |connections| && connections[addrToConn[a]] == a)
    && (forall j | start <= j < |connections| :: connections[j] in addrToConn && addrToConn[connections[j]] == j)
  }

  lemma {:induction false} ConnectionsAreDistinct(addrToConn: map<string, nat>, connections: seq<string>, start: nat)
    requires ConnectionsByAddress(addrToConn, connections, start)
    ensures forall i, j | start <= i < j < |connections| :: connections[i] != connections[j]
  {
  }

  /** The table `initProducers` promises, over connections opened from `start` on: one entry
      per output topic, held by the last output visited with that topic, on a connection to
      that output's address; the connections go to distinct addresses, each one of an output. */
  ghost predicate TableFrom(producers: map<string, Producer>, connections: seq<string>, start: nat,
                            outputs: map<string, KafkaConfig>, order: seq<string>)
    requires forall k | 0 <= k < |order| :: order[k] in outputs
  {
    var owners := TopicOwners(outputs, order);
    && producers.Keys == owners.Keys
    && (forall t | t in producers ::
          && producers[t].topic == t
          && start <= producers[t].conn < |connections|
          && connections[producers[t].conn] == outputs[owners[t]].address)
    && (forall i, j | start <= i < j < |connections| :: connections[i] != connections[j])
    && (forall j | start <= j < |connections| :: connections[j] in Addresses(outputs, order))
  }

  /** The state of `initProducers`'s loop after visiting `prefix`. */
  ghost predicate Filled(producers: map<string, Producer>, addrToConn: map<string, nat>, connections: seq<string>,
                         start: nat, outputs: map<string, KafkaConfig>, prefix: seq<string>)
    requires forall k | 0 <= k < |prefix| :: prefix[k] in outputs
  {
    var owners := TopicOwners(outputs, prefix);
    && start <= |connections|
    && ConnectionsByAddress(addrToConn, connections, start)
    && addrToConn.Keys == Addresses(outputs, prefix)
    && producers.Keys == owners.Keys
    && (forall t | t in producers ::
          && outputs[owners[t]].address in addrToConn
          && producers[t] == Producer(addrToConn[outputs[owners[t]].address], t))
  }

  /** One visit: the output's address gets a connection if it has none, and its topic is
      (re)assigned to it. */
  lemma {:induction false} FilledStep(producers: map<string, Producer>, addrToConn: map<string, nat>, addrToConn': map<string, nat>,
                   connections: seq<string>, connections': seq<string>, start: nat,
                   outputs: map<string, KafkaConfig>, order: seq<string>, i: nat)
    requires i < |order| && forall k | 0 <= k < |order| :: order[k] in outputs
    requires Filled(producers, addrToConn, connections, start, outputs, order[..i])
    requires var addr := outputs[order[i]].address;
      || (addr in addrToConn && addrToConn' == addrToConn && connections' == connections)
      || (addr !in addrToConn && addrToConn' == addrToConn[addr := |connections|] && connections' == connections + [addr])
    ensures var conf := outputs[order[i]];
      && conf.address in addrToConn'
      && Filled(producers[conf.topic := Producer(addrToConn'[conf.address], conf.topic)], addrToConn', connections', start, outputs, order[..i + 1])
  {
    var conf := outputs[order[i]];
    var prefix := order[..i + 1];
    assert prefix[..i] == order[..i];
    assert prefix[i] == order[i];
    assert Addresses(outputs, prefix) == Addresses(outputs, order[..i]) + {conf.address};
    var owners := TopicOwners(outputs, order[..i]);
    var owners' := TopicOwners(outputs, prefix);
    assert owners' == owners[conf.topic := order[i]];
    assert ConnectionsByAddress(addrToConn, connections, start);
    forall a | a in addrToConn ensures a in addrToConn' && addrToConn'[a] == addrToConn[a] {
    }
    assert ConnectionsByAddress(addrToConn', connections', start) by {
      if conf.address !in addrToConn {
        forall a | a in addrToConn'
          ensures start <= addrToConn'[a] < |connections'| && connections'[addrToConn'[a]] == a
        {
          if a != conf.address {
            assert connections'[addrToConn[a]] == connections[addrToConn[a]];
          }
        }
        forall j | start <= j < |connections'|
          ensures connections'[j] in addrToConn' && addrToConn'[connections'[j]] == j
        {
          if j < |connections| {
            assert connections'[j] == connections[j];
          }
        }
      }
    }
    var producers' := producers[conf.topic := Producer(addrToConn'[conf.address], conf.topic)];
    forall t | t in producers'
      ensures outputs[owners'[t]].address in addrToConn'
      ensures producers'[t] == Producer(addrToConn'[outputs[owners'[t]].address], t)
    {
      if t != conf.topic {
        assert owners'[t] == owners[t];
      }
    }
  }

  lemma {:induction false} FilledIsTable(producers: map<string, Producer>, addrToConn: map<string, nat>, connections: seq<string>,
                      start: nat, outputs: map<string, KafkaConfig>, order: seq<string>)
    requires forall k | 0 <= k < |order| :: order[k] in outputs
    requires Filled(producers, addrToConn, connections, start, outputs, order)
    ensures TableFrom(producers, connections, start, outputs, order)
  {
    ConnectionsAreDistinct(addrToConn, connections, start);
  }

  /** The package variables `dp` and `producers`, over a broker. */
  class Producers {
    var dp: Option<Producer>
    var producers: map<string, Producer>
    const broker: Broker

    /** Every producer's connection exists. */
    ghost predicate Valid()
      reads this, broker
    {
      && (dp.Some? ==> dp.value.conn < |broker.connections|)
      && (forall t | t in producers :: producers[t].conn < |broker.connections|)
    }

    constructor (broker: Broker)
      ensures Valid() && dp.None? && producers == map[] && this.broker == broker
    {
      this.broker := broker;
      dp := None;
      producers := map[];
    }

    /** `initProducers`. On success, with `start` the first connection it opens for a named
        output: the default producer, when there is a default output, has a connection of its
        own (opened first); the table has one entry per output topic, held by the last output
        visited with that topic, on a connection to that output's address; and the connections
        opened for named outputs go to distinct addresses, each one of an output. The call
        fails exactly when some address it needs is unreachable. */
    method InitProducers(cfg: InternalProcessorConfig, order: seq<string>) returns (err: Option<Error>)
      requires Valid()
      requires Enumerates(order, OutputsOf(cfg))
      modifies this, broker
      ensures Valid()
      ensures broker.closed == old(broker.closed) && broker.sent == old(broker.sent)
      ensures |old(broker.connections)| <= |broker.connections| && broker.connections[..|old(broker.connections)|] == old(broker.connections)
      ensures err.Some? <==>
        || (cfg.defaultOutputKafkaConfig.Some? && cfg.defaultOutputKafkaConfig.value.address in broker.unreachable)
        || exists k | 0 <= k < |order| :: OutputsOf(cfg)[order[k]].address in broker.unreachable
      ensures err.None? && cfg.defaultOutputKafkaConfig.Some? ==>
        && dp == Some(Producer(|old(broker.connections)|, cfg.defaultOutputKafkaConfig.value.topic))
        && broker.connections[|old(broker.connections)|] == cfg.defaultOutputKafkaConfig.value.address
      ensures err.None? && cfg.defaultOutputKafkaConfig.None? ==> dp == old(dp)
      ensures err.None? ==>
        TableFrom(producers, broker.connections, |old(broker.connections)| + if cfg.defaultOutputKafkaConfig.Some? then 1 else 0,
                  OutputsOf(cfg), order)
    {
      producers := map[];
      if cfg.defaultOutputKafkaConfig.Some? {
        var conn := broker.Connect(cfg.defaultOutputKafkaConfig.value.address);
        if conn.Err? {
          return Some(Wrapped("initialize producer failed", conn.error));
        }
        dp := Some(Producer(conn.value, cfg.defaultOutputKafkaConfig.value.topic));
      }
      err := FillTable(OutputsOf(cfg), order);
    }

    /** The loop of `initProducers` over the named outputs, from an empty table. */
    method FillTable(outputs: map<string, KafkaConfig>, order: seq<string>) returns (err: Option<Error>)
      requires Valid() && producers == map[]
      requires forall k | 0 <= k < |order| :: order[k] in outputs
      modifies this, broker
      ensures Valid() && dp == old(dp)
      ensures broker.closed == old(broker.closed) && broker.sent == old(broker.sent)
      ensures |old(broker.connections)| <= |broker.connections| && broker.connections[..|old(broker.connections)|] == old(broker.connections)
      ensures err.Some? <==> exists k | 0 <= k < |order| :: outputs[order[k]].address in broker.unreachable
      ensures err.None? ==> TableFrom(producers, broker.connections, |old(broker.connections)|, outputs, order)
    {
      ghost var before := broker.connections;
      var addrToConn: map<string, nat> := map[];
      for i := 0 to |order|
        invariant dp == old(dp) && |before| <= |broker.connections| && broker.connections[..|before|] == before
        invariant broker.closed == old(broker.closed) && broker.sent == old(broker.sent)
        invariant forall k | 0 <= k < i :: outputs[order[k]].address !in broker.unreachable
        invariant Filled(producers, addrToConn, broker.connections, |before|, outputs, order[..i])
      {
        var producerConf := outputs[order[i]];
        ghost var connections := broker.connections;
        ghost var addrToConn0 := addrToConn;
        if producerConf.address !in addrToConn {
          var conn := broker.Connect(producerConf.address);
          if conn.Err? {
            return Some(Wrapped("initialize producer failed", conn.error));
          }
          addrToConn := addrToConn[producerConf.address := conn.value];
        }
        FilledStep(producers, addrToConn0, addrToConn, connections, broker.connections, |before|, outputs, order, i);
        producers := producers[producerConf.topic := Producer(addrToConn[producerConf.address], producerConf.topic)];
      }
      assert order[..|order|] == order;
      FilledIsTable(producers, addrToConn, broker.connections, |before|, outputs, order);
      return None;
    }
    /** `defaultProducer`: fails exactly when there is no default producer. */
    method DefaultProducer() returns (r: Result<Producer>)
      ensures dp.None? ==> r == Err(Failed("processor does not have default output topic producer"))
      ensures dp.Some? ==> r == Ok(dp.value)
    {
      if dp.Some? {
        return Ok(dp.value);
      }
      return Err(Failed("processor does not have default output topic producer"));
    }

    /** `getProducer`: fails exactly when the topic has no entry. */
    method GetProducer(topic: string) returns (r: Result<Producer>)
      ensures topic !in producers ==> r == Err(Failed("producer with topic " + topic + " does not exist"))
      ensures topic in producers ==> r == Ok(producers[topic])
    {
      if topic !in producers {
        return Err(Failed("producer with topic " + topic + " does not exist"));
      }
      return Ok(producers[topic]);
    }

    /** `closeProducers`: one Close per table entry, so a connection shared by several topics
        is closed once per topic, and the default producer's own connection is not closed. */
    method CloseProducers(order: seq<string>)
      requires Enumerates(order, producers)
      modifies broker
      ensures broker.closed == old(broker.closed) + ConnsOf(producers, order)
      ensures broker.connections == old(broker.connections) && broker.sent == old(broker.sent)
    {
      for i := 0 to |order|
        invariant broker.closed == old(broker.closed) + ConnsOf(producers, order[..i])
        invariant broker.connections == old(broker.connections) && broker.sent == old(broker.sent)
      {
        broker.Close(producers[order[i]].conn);
        assert order[..i + 1][..i] == order[..i];
      }
      assert order[..|order|] == order;
    }
  }

  /** The connections of the table entries visited, one per entry. */
  function ConnsOf(producers: map<string, Producer>, order: seq<string>): multiset<nat>
    requires forall k | 0 <= k < |order| :: order[k] in producers
  {
    if order == [] then multiset{}
    else ConnsOf(producers, order[..|order| - 1]) + multiset{producers[order[|order| - 1]].conn}
  }

  /** A connection is closed once per table entry that uses it: a shared connection is closed
      repeatedly, and one no entry uses is not closed at all. */
  lemma {:induction false} ClosesPerEntry(producers: map<string, Producer>, order: seq<string>, conn: nat)
    requires forall k | 0 <= k < |order| :: order[k] in producers
    requires NoDup(order)
    ensures ConnsOf(producers, order)[conn] == |set k | 0 <= k < |order| && producers[order[k]].conn == conn|
  {
    if order != [] {
      var front := order[..|order| - 1];
      ClosesPerEntry(producers, front, conn);
      var before := set k | 0 <= k < |front| && producers[front[k]].conn == conn;
      var after := set k | 0 <= k < |order| && producers[order[k]].conn == conn;
      if producers[order[|order| - 1]].conn == conn {
        assert after == before + {|order| - 1};
      } else {
        assert after == before;
      }
    }
  }

  /** `Producer.produce`: the message goes out on the producer's topic, whatever topic the
      caller gave it. */
  method Produce(broker: Broker, p: Producer, key: string, value: seq<byte>) returns (err: Option<Error>)
    requires p.conn < |broker.connections|
    modifies broker
    ensures broker.connections == old(broker.connections) && broker.closed == old(broker.closed)
    ensures broker.connections[p.conn] !in broker.rejecting ==>
      err.None? && broker.sent == old(broker.sent) + [Message(p.topic, key, value)]
    ensures broker.connections[p.conn] in broker.rejecting ==> err.Some? && broker.sent == old(broker.sent)
  {
    var msg := Message(p.topic, key, value);
    err := broker.Send(p.conn, msg);
  }
}
