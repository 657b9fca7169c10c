/** The processor's lifecycle state machine (pkg/core/function_state.go): five states, a fixed
    edge table, and a two-phase transition protocol. A caller first takes the `transitioning`
    flag with `startTransition`, which also checks the edge. It then commits with `transitTo`,
    which checks the edge again and swaps the state, and finally releases the flag with
    `resetTransition`. The source keeps the state and the flag in package variables; here they
    are the fields of one `FunctionState` object. */
module FunctionState {
  import opened Base

  datatype State = Created | Initialized | Running | Paused | Exited

  /** The `%s` rendering of a state. */
  function StateName(s: State): string {
    match s
    case Created => "Created"
    case Initialized => "Initialized"
    case Running => "Running"
    case Paused => "Paused"
    case Exited => "Exited"
  }

  /** `allowedTransitions`: the legal successors of each state, in table order. */
  function AllowedTransitions(s: State): seq<State> {
    match s
    case Created => [Initialized]
    case Initialized => [Running, Exited]
    case Running => [Paused, Exited]
    case Paused => [Running, Exited]
    case Exited => []
  }

  /** The source ranges over the edge-table map, whose iteration order Go leaves unspecified;
      every order visits each source state exactly once, and this is one of them. */
  const TableOrder: seq<State> := [Created, Initialized, Running, Paused, Exited]

  predicate Allowed(src: State, dest: State) {
    dest in AllowedTransitions(src)
  }

  /** How far through its life a processor is. Every edge strictly increases the rank, except
      the Running/Paused pair, which share one. */
  function Rank(s: State): nat {
    match s
    case Created => 0
    case Initialized => 1
    case Running => 2
    case Paused => 2
    case Exited => 3
  }

  /** No edge leads backwards, none leaves Exited and none re-enters Created. */
  lemma {:induction false} EdgesGoForward(src: State, dest: State)
    requires Allowed(src, dest)
    ensures Rank(src) <= Rank(dest)
    ensures src != Exited && dest != Created
    ensures Rank(src) == Rank(dest) ==> {src, dest} == {Running, Paused}
  {
  }

  // ---------------------------------------------------------------------------------------
  // The protocol as a function of the (state, flag) pair

  datatype Machine = Machine(state: State, transitioning: bool)

  const AnotherRoutineTransitioning: Error := Failed("another routine is transitioning")

  function TransitFailure(src: State, dest: State): Error {
    Failed("transit to " + StateName(dest) + " failed: cannot transit from " + StateName(src)
           + " to " + StateName(dest))
  }

  function NotAllowedFailure(src: State, target: State): Error {
    Failed("transition to target state is not allowed: currState=" + StateName(src)
           + ", targetState=" + StateName(target))
  }

  /** `startTransition(target)`: the flag is taken only when it was free and the target is a
      successor of the current state; the state itself never changes. */
  function StartStep(m: Machine, target: State): (r: (Machine, Option<Error>))
    ensures r.0.state == m.state
    ensures m.transitioning ==> r == (m, Some(AnotherRoutineTransitioning))
    ensures !m.transitioning ==> (r.1.None? <==> Allowed(m.state, target))
    ensures !m.transitioning ==> r.0.transitioning == r.1.None?
  {
    if m.transitioning then (m, Some(AnotherRoutineTransitioning))
    else if target in AllowedTransitions(m.state) then (m.(transitioning := true), None)
    else (m, Some(NotAllowedFailure(m.state, target)))
  }

  /** `transitTo(dest)`: needs the flag to be held, moves along a legal edge only, and never
      touches the flag. */
  function TransitStep(m: Machine, dest: State): (r: (Machine, Option<Error>))
    ensures r.0.transitioning == m.transitioning
    ensures r.1.None? <==> m.transitioning && Allowed(m.state, dest)
    ensures r.0.state == if r.1.None? then dest else m.state
  {
    if !m.transitioning then (m, Some(AnotherRoutineTransitioning))
    else if dest in AllowedTransitions(m.state) then (m.(state := dest), None)
    else (m, Some(TransitFailure(m.state, dest)))
  }

  /** `resetTransition`: clears the flag and nothing else. */
  function ResetStep(m: Machine): (r: Machine)
    ensures r.state == m.state && !r.transitioning
  {
    m.(transitioning := false)
  }

  /** One call of the protocol, as any goroutine may issue it. */
  datatype Op = Start(target: State) | Commit(dest: State) | Reset

  function Step(m: Machine, op: Op): Machine {
    match op
    case Start(target) => StartStep(m, target).0
    case Commit(dest) => TransitStep(m, dest).0
    case Reset => ResetStep(m)
  }

  function Apply(m: Machine, ops: seq<Op>): Machine
    decreases |ops|
  {
    if ops == [] then m else Apply(Step(m, ops[0]), ops[1..])
  }

  /** Exited is absorbing: no sequence of calls leaves it. */
  lemma {:induction false} ExitedIsAbsorbing(m: Machine, ops: seq<Op>)
    requires m.state == Exited
    ensures Apply(m, ops).state == Exited
    decreases |ops|
  {
    if ops != [] {
      ExitedIsAbsorbing(Step(m, ops[0]), ops[1..]);
    }
  }

  /** Whatever the calls, the lifecycle never goes back: the rank never decreases. */
  lemma {:induction false} LifecycleIsMonotone(m: Machine, ops: seq<Op>)
    ensures Rank(m.state) <= Rank(Apply(m, ops).state)
    decreases |ops|
  {
    if ops != [] {
      var next := Step(m, ops[0]);
      if next.state != m.state {
        EdgesGoForward(m.state, next.state);
      }
      LifecycleIsMonotone(next, ops[1..]);
    }
  }

  /** The protocol as the orchestration uses it: a successful `startTransition(t)` guarantees
      that the following `transitTo(t)` succeeds, and the reset then leaves the machine in
      `t` with the flag free. */
  lemma {:induction false} StartCommitReset(m: Machine, t: State)
    requires StartStep(m, t).1.None?
    ensures var started := StartStep(m, t).0;
      && TransitStep(started, t).1.None?
      && ResetStep(TransitStep(started, t).0) == Machine(t, false)
  {
  }

  // ---------------------------------------------------------------------------------------
  // The package state as an object

  class FunctionState {
    var funcState: State
    var transitioning: bool

    function Snapshot(): Machine
      reads this
    {
      Machine(funcState, transitioning)
    }

    constructor ()
      ensures Snapshot() == Machine(Created, false)
    {
      funcState := Created;
      transitioning := false;
    }

    /** `getState`: the current state and whether a transition is in progress. */
    method GetState() returns (s: State, t: bool)
      ensures Machine(s, t) == Snapshot()
    {
      s, t := funcState, transitioning;
    }

    /** `transitTo`: scans the current state's edge list for `dest`. */
    method TransitTo(dest: State) returns (err: Option<Error>)
      modifies this
      ensures (Snapshot(), err) == TransitStep(old(Snapshot()), dest)
    {
      if !transitioning {
        return Some(AnotherRoutineTransitioning);
      }
      var allowedDests := AllowedTransitions(funcState);
      var i := 0;
      while i < |allowedDests|
        invariant 0 <= i <= |allowedDests|
        invariant dest !in allowedDests[..i]
        invariant Snapshot() == old(Snapshot())
      {
        if dest == allowedDests[i] {
          funcState := dest;
          return None;
        }
        i := i + 1;
      }
      assert allowedDests[..i] == allowedDests;
      return Some(TransitFailure(funcState, dest));
    }

    /** `startTransition(target)`: takes the flag (compare-and-swap), then looks the current
        state up in the edge table and the target in its edge list. When the target is not a
        successor, the flag is released again. The returned reset function is `reset == true`. */
    method StartTransition(target: State) returns (reset: bool, err: Option<Error>)
      modifies this
      ensures (Snapshot(), err) == StartStep(old(Snapshot()), target)
      ensures reset <==> err.None?
    {
      if transitioning {
        return false, Some(AnotherRoutineTransitioning);
      }
      transitioning := true;
      var currState, _ := GetState();
      var i := 0;
      while i < |TableOrder|
        invariant 0 <= i <= |TableOrder|
        invariant currState == funcState == old(funcState) && transitioning
        invariant forall j | 0 <= j < i :: TableOrder[j] == currState ==> target !in AllowedTransitions(currState)
      {
        var srcState := TableOrder[i];
        if srcState == currState {
          var destStates := AllowedTransitions(srcState);
          var k := 0;
          while k < |destStates|
            invariant 0 <= k <= |destStates|
            invariant target !in destStates[..k]
          {
            if destStates[k] == target {
              return true, None;
            }
            k := k + 1;
          }
          assert destStates[..k] == destStates;
        }
        i := i + 1;
      }
      assert currState in TableOrder;
      ResetTransition();
      return false, Some(NotAllowedFailure(currState, target));
    }

    /** `resetTransition`: only the flag changes. */
    method ResetTransition()
      modifies this
      ensures Snapshot() == ResetStep(old(Snapshot()))
    {
      transitioning := false;
    }
  }
}
