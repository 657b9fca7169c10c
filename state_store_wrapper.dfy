/** The metrics decorator (pkg/state/state_store_wrapper.go). Every operation is passed to the
    wrapped store unchanged. On the way back, the wrapper counts misses and failures of `Get`,
    failures of puts and failures of `Delete`. The latency histograms read the clock and are not
    modelled. The metrics client is reduced to its four counters. */
module StateStoreWrapper {
  import opened Base
  import opened StateStore

  /** The wrapper's counters: `get_cache_miss`, `get_failure`, `put_failure`, `delete_failure`. */
  datatype Metrics = Metrics(getMiss: nat, getFailure: nat, putFailure: nat, deleteFailure: nat)

  /** What one operation reports back: a get result, or the error of a put or a delete. */
  datatype Outcome =
    | GotResult(r: Result<seq<byte>>)
    | PutResult(err: Option<Error>)
    | DeleteResult(err: Option<Error>)

  /** The counters after one outcome. */
  function Count(m: Metrics, o: Outcome): (r: Metrics)
    ensures r.getMiss == m.getMiss + (if o == GotResult(Err(KeyNotExist)) then 1 else 0)
    ensures r.getFailure == m.getFailure + (if o.GotResult? && o.r.Err? && o.r.error != KeyNotExist then 1 else 0)
    ensures r.putFailure == m.putFailure + (if o.PutResult? && o.err.Some? then 1 else 0)
    ensures r.deleteFailure == m.deleteFailure + (if o.DeleteResult? && o.err.Some? then 1 else 0)
  {
    match o
    case GotResult(res) =>
      if res.Err? then
        if res.error == KeyNotExist then m.(getMiss := m.getMiss + 1) else m.(getFailure := m.getFailure + 1)
      else m
    case PutResult(err) => if err.Some? then m.(putFailure := m.putFailure + 1) else m
    case DeleteResult(err) => if err.Some? then m.(deleteFailure := m.deleteFailure + 1) else m
  }

  /** The counters after a run of outcomes, from the back. */
  function CountAll(m: Metrics, os: seq<Outcome>): Metrics
  {
    if os == [] then m else Count(CountAll(m, os[..|os| - 1]), os[|os| - 1])
  }

  /** The number of failed outcomes: those that report an error other than a miss. */
  function Failures(os: seq<Outcome>): (n: nat)
    ensures n <= |os|
  {
    if os == [] then 0
    else
      var o := os[|os| - 1];
      Failures(os[..|os| - 1])
      + (if (o.GotResult? && o.r.Err? && o.r.error != KeyNotExist) || (!o.GotResult? && o.err.Some?) then 1 else 0)
  }

  /** The number of missed gets. */
  function Misses(os: seq<Outcome>): (n: nat)
    ensures n <= |os|
  {
    if os == [] then 0
    else Misses(os[..|os| - 1]) + (if os[|os| - 1] == GotResult(Err(KeyNotExist)) then 1 else 0)
  }

  /** Starting from zero, the miss counter counts the missed gets, and the three failure
      counters together count every failed operation: no outcome is counted twice or lost. */
  lemma {:induction false} CountersAccountForOutcomes(os: seq<Outcome>)
    ensures CountAll(Metrics(0, 0, 0, 0), os).getMiss == Misses(os)
    ensures var m := CountAll(Metrics(0, 0, 0, 0), os);
      m.getFailure + m.putFailure + m.deleteFailure == Failures(os)
  {
    if os != [] {
      CountersAccountForOutcomes(os[..|os| - 1]);
    }
  }

  class StateStoreWrapper {
    const s: MapStore
    var metrics: Metrics

    ghost predicate Valid()
      reads this, s
    {
      s.Valid()
    }

    /** `NewStateStoreWrapper`: wraps `s` with counters at zero. */
    constructor (s: MapStore)
      ensures this.s == s && metrics == Metrics(0, 0, 0, 0)
    {
      this.s := s;
      this.metrics := Metrics(0, 0, 0, 0);
    }

    method Get(key: string) returns (r: Result<seq<byte>>)
      modifies this
      ensures r == ViewGet(s.View(), key)
      ensures metrics == Count(old(metrics), GotResult(r))
    {
      r := s.Get(key);
      if r.Err? {
        if r.error == KeyNotExist {
          metrics := metrics.(getMiss := metrics.getMiss + 1);
        } else {
          metrics := metrics.(getFailure := metrics.getFailure + 1);
        }
      }
    }

    method Put(key: string, value: seq<byte>) returns (err: Option<Error>)
      requires Valid()
      modifies this, s
      ensures Valid()
      ensures (s.View(), err) == ViewPut(old(s.View()), key, value, 0)
      ensures s.log == old(s.log) + [PutCall(key, value, 0)]
      ensures metrics == Count(old(metrics), PutResult(err))
    {
      err := PutWithExpireTime(key, value, 0);
    }

    method PutWithExpireTime(key: string, value: seq<byte>, expireSeconds: int) returns (err: Option<Error>)
      requires Valid()
      modifies this, s
      ensures Valid()
      ensures (s.View(), err) == ViewPut(old(s.View()), key, value, expireSeconds)
      ensures s.log == old(s.log) + [PutCall(key, value, expireSeconds)]
      ensures metrics == Count(old(metrics), PutResult(err))
    {
      err := s.PutWithExpireTime(key, value, expireSeconds);
      if err.Some? {
        metrics := metrics.(putFailure := metrics.putFailure + 1);
      }
    }

    method Delete(key: string) returns (err: Option<Error>)
      requires Valid()
      modifies this, s
      ensures Valid()
      ensures (s.View(), err) == ViewDelete(old(s.View()), key)
      ensures s.log == old(s.log) + [DeleteCall(key)]
      ensures metrics == Count(old(metrics), DeleteResult(err))
    {
      err := s.Delete(key);
      if err.Some? {
        metrics := metrics.(deleteFailure := metrics.deleteFailure + 1);
      }
    }

    /** `Keys`: passed through and not counted. */
    method Keys(limit: int) returns (r: Result<seq<string>>)
      ensures r == ViewKeys(s.View(), limit)
    {
      r := s.Keys(limit);
    }
  }
}
