/** The consumer-group handler of a worker (pkg/core/consumer.go). What reaches `ConsumeClaim`
    through its two channels is a sequence of events: a delivered message, the message channel
    closing, or a notification. A message is marked on the session only after `consume`
    accepts it; the first failure, a closed channel or an "exit" notification ends the claim.
    A sequence that ends with none of these leaves the claim still waiting. The consume
    callback is a function of the record. */
module Consumer {
  import opened Base
  import opened Models

  datatype Event = Delivered(record: Record) | ChannelClosed | Notified(notify: string)

  /** How a claim ends: it returns, or it is still waiting when the events run out. */
  datatype ClaimEnd = Returned(err: Option<Error>) | Waiting

  /** The messages a claim marks, in order, and how it ends. */
  datatype Claim = Claim(marked: seq<Record>, end: ClaimEnd)

  const ExitNotify: string := "exit"

  /** The claim over `events`, as the loop of `ConsumeClaim` runs it. */
  function ClaimRun(events: seq<Event>, consume: Record -> Option<Error>): Claim
    decreases |events|
  {
    if events == [] then Claim([], Waiting)
    else match events[0]
      case ChannelClosed => Claim([], Returned(None))
      case Notified(n) =>
        if n == ExitNotify then Claim([], Returned(Some(ConsumerNotify)))
        else ClaimRun(events[1..], consume)
      case Delivered(r) =>
        if consume(r).Some? then Claim([], Returned(consume(r)))
        else
          var rest := ClaimRun(events[1..], consume);
          Claim([r] + rest.marked, rest.end)
  }

  /** Every record delivered, in delivery order. */
  function Deliveries(events: seq<Event>): (rs: seq<Record>)
    ensures |rs| <= |events|
  {
    if events == [] then []
    else if events[0].Delivered? then [events[0].record] + Deliveries(events[1..])
    else Deliveries(events[1..])
  }

  /** An event that ends the claim. */
  predicate Stops(e: Event, consume: Record -> Option<Error>) {
    match e
    case ChannelClosed => true
    case Notified(n) => n == ExitNotify
    case Delivered(r) => consume(r).Some?
  }

  /** What the claim returns when `e` ends it. */
  function StopResult(e: Event, consume: Record -> Option<Error>): Option<Error>
    requires Stops(e, consume)
  {
    match e
    case ChannelClosed => None
    case Notified(_) => Some(ConsumerNotify)
    case Delivered(r) => consume(r)
  }

  /** Marked messages are the delivered ones, in delivery order, up to the event that ends the
      claim; each of them was accepted by `consume`. */
  lemma {:induction false} MarkedArePrefix(events: seq<Event>, consume: Record -> Option<Error>)
    ensures ClaimRun(events, consume).marked <= Deliveries(events)
    ensures forall i | 0 <= i < |ClaimRun(events, consume).marked| ::
      consume(ClaimRun(events, consume).marked[i]).None?
    decreases |events|
  {
    if events != [] {
      MarkedArePrefix(events[1..], consume);
    }
  }

  /** The claim waits iff no event ends it; otherwise it returns what the first such event
      dictates, having marked exactly the messages delivered before it. */
  lemma {:induction false} ClaimEndsAtFirstStop(events: seq<Event>, consume: Record -> Option<Error>)
    ensures ClaimRun(events, consume).end == Waiting <==>
      forall k | 0 <= k < |events| :: !Stops(events[k], consume)
    ensures ClaimRun(events, consume).end.Returned? ==>
      exists k | 0 <= k < |events| ::
        && Stops(events[k], consume)
        && (forall j | 0 <= j < k :: !Stops(events[j], consume))
        && ClaimRun(events, consume).end.err == StopResult(events[k], consume)
        && ClaimRun(events, consume).marked == Deliveries(events[..k])
    decreases |events|
  {
    if events != [] {
      var c := ClaimRun(events, consume);
      if Stops(events[0], consume) {
        assert events[..0] == [];
        assert 0 <= 0 < |events| && Stops(events[0], consume);
      } else {
        var tail := events[1..];
        ClaimEndsAtFirstStop(tail, consume);
        assert c.end == ClaimRun(tail, consume).end;
        if c.end.Returned? {
          var k :| 0 <= k < |tail| && Stops(tail[k], consume)
            && (forall j | 0 <= j < k :: !Stops(tail[j], consume))
            && ClaimRun(tail, consume).end.err == StopResult(tail[k], consume)
            && ClaimRun(tail, consume).marked == Deliveries(tail[..k]);
          assert events[..k + 1][1..] == tail[..k];
          assert events[k + 1] == tail[k];
          assert forall j | 0 <= j < k + 1 :: !Stops(events[j], consume) by {
            forall j | 0 <= j < k + 1 ensures !Stops(events[j], consume) {
              if j > 0 {
                assert events[j] == tail[j - 1];
              }
            }
          }
        }
        forall k | 0 <= k < |tail| ensures events[k + 1] == tail[k] {}
        if c.end == Waiting {
          forall k | 0 <= k < |events| ensures !Stops(events[k], consume) {
            if k > 0 {
              assert events[k] == tail[k - 1];
            }
          }
        }
      }
    }
  }

  /** A notification other than "exit" changes nothing: the claim with it removed is the
      same claim. */
  lemma {:induction false} OtherNotifyIgnored(a: seq<Event>, n: string, b: seq<Event>, consume: Record -> Option<Error>)
    requires n != ExitNotify
    ensures ClaimRun(a + [Notified(n)] + b, consume) == ClaimRun(a + b, consume)
    decreases |a|
  {
    if a == [] {
      assert (a + [Notified(n)] + b)[1..] == a + b;
    } else {
      assert (a + [Notified(n)] + b)[0] == a[0] && (a + b)[0] == a[0];
      assert (a + [Notified(n)] + b)[1..] == a[1..] + [Notified(n)] + b;
      assert (a + b)[1..] == a[1..] + b;
      OtherNotifyIgnored(a[1..], n, b, consume);
    }
  }

  /** `workerConsumerHandler`. `setup` is the setup callback's result, `None` when the handler
      has no setup callback. `readySignals` counts the closes of the ready channel and
      `marked` is what the session has been told to mark. */
  class Handler {
    const setup: Option<Option<Error>>
    const consume: Record -> Option<Error>
    var once: bool
    var readySignals: nat
    var marked: seq<Record>

    /** The ready channel has been closed iff the once-guard has fired, and then once. */
    ghost predicate Valid()
      reads this
    {
      readySignals == if once then 1 else 0
    }

    /** `NewConsumerGroupHandler`. */
    constructor (setup: Option<Option<Error>>, consume: Record -> Option<Error>)
      ensures Valid() && !once && marked == []
      ensures this.setup == setup && this.consume == consume
    {
      this.setup := setup;
      this.consume := consume;
      once := false;
      readySignals := 0;
      marked := [];
    }

    /** `Setup`: signals readiness the first time only, then runs the setup callback if
        there is one. */
    method Setup() returns (err: Option<Error>)
      requires Valid()
      modifies this
      ensures Valid() && once && readySignals == 1
      ensures marked == old(marked)
      ensures err == if setup.Some? then setup.value else None
    {
      if !once {
        once := true;
        readySignals := readySignals + 1;
      }
      if setup.Some? {
        return setup.value;
      }
      return None;
    }

    /** `Cleanup`: nothing to release. */
    method Cleanup() returns (err: Option<Error>)
      ensures err.None?
    {
      return None;
    }

    /** `ConsumeClaim` over the events that reach it. */
    method ConsumeClaim(events: seq<Event>) returns (end: ClaimEnd)
      modifies this
      ensures Valid() == old(Valid()) && once == old(once)
      ensures marked == old(marked) + ClaimRun(events, consume).marked
      ensures end == ClaimRun(events, consume).end
    {
      ghost var done: seq<Record> := [];
      var i := 0;
      while i < |events|
        invariant 0 <= i <= |events|
        invariant once == old(once) && readySignals == old(readySignals)
        invariant marked == old(marked) + done
        invariant ClaimRun(events, consume) ==
          Claim(done + ClaimRun(events[i..], consume).marked, ClaimRun(events[i..], consume).end)
      {
        assert events[i..][1..] == events[i + 1..];
        match events[i] {
          case ChannelClosed =>
            return Returned(None);
          case Notified(n) =>
            if n == ExitNotify {
              return Returned(Some(ConsumerNotify));
            }
          case Delivered(r) =>
            var err := consume(r);
            if err.Some? {
              return Returned(err);
            }
            marked := marked + [r];
            done := done + [r];
        }
        i := i + 1;
      }
      return Waiting;
    }
  }

  /** The package's list of consumer groups, as ids, and the groups closed so far. */
  class ConsumerGroups {
    var groups: seq<nat>
    var closeCalls: seq<nat>

    constructor ()
      ensures groups == [] && closeCalls == []
    {
      groups := [];
      closeCalls := [];
    }

    /** `initConsumer`: starts an empty list. */
    method InitConsumer() returns (err: Option<Error>)
      modifies this
      ensures groups == [] && closeCalls == old(closeCalls) && err.None?
    {
      groups := [];
      return None;
    }

    /** A worker's group joins the list. */
    method Add(group: nat)
      modifies this
      ensures groups == old(groups) + [group] && closeCalls == old(closeCalls)
    {
      groups := groups + [group];
    }

    /** `closeConsumerGroup`: closes every group in the list, in order. */
    method CloseConsumerGroup()
      modifies this
      ensures groups == old(groups)
      ensures closeCalls == old(closeCalls) + groups
    {
      var i := 0;
      while i < |groups|
        invariant 0 <= i <= |groups|
        invariant groups == old(groups)
        invariant closeCalls == old(closeCalls) + groups[..i]
      {
        closeCalls := closeCalls + [groups[i]];
        i := i + 1;
      }
      assert groups[..i] == groups;
    }
  }
}
