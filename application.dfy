/**
 * CApplication's state-handler registry and its cyclic stepping
 * (Application.cpp): handlers kept in name order, as std::map keeps
 * m_StateHandlers, and each cycle running every handler's current state
 * once through a fresh CEnvironment.
 *
 * What a state's Execute does is outside this model: it is given as an
 * `Execution`, the names it passed to setNextState in order, or the error
 * with which it failed.
 */
module Application {
  import opened Wrappers
  import opened Signals
  import opened Framework

  /** The outcome of one Execute call on a state. */
  datatype Execution = Executed(requests: seq<string>) | ExecuteFailed(error: ErrorCode)

  // ---------------------------------------------------------------------
  // One handler's step, as values
  // ---------------------------------------------------------------------

  /**
   * The environment's next state after the setNextState calls `requests`,
   * starting from `next`: each known name replaces it, and the first
   * unknown name throws STATENOTFOUND out of Execute.
   */
  function NextAfter(states: set<string>, next: Option<string>, requests: seq<string>): Result<Option<string>>
    decreases |requests|
  {
    if requests == [] then Ok(next)
    else if requests[0] !in states then Err(StateNotFound)
    else NextAfter(states, Some(requests[0]), requests[1..])
  }

  /** The requests succeed exactly when every name is a state, and then the last one wins. */
  lemma {:induction false} NextAfterMeans(states: set<string>, next: Option<string>, requests: seq<string>)
    ensures NextAfter(states, next, requests).Ok? <==> forall i :: 0 <= i < |requests| ==> requests[i] in states
    ensures NextAfter(states, next, requests).Err? ==> NextAfter(states, next, requests) == Err(StateNotFound)
    ensures NextAfter(states, next, requests).Ok? ==>
              NextAfter(states, next, requests).value == if requests == [] then next else Some(requests[|requests| - 1])
    decreases |requests|
  {
    if requests != [] {
      var rest := requests[1..];
      NextAfterMeans(states, Some(requests[0]), rest);
      assert forall i :: 0 <= i < |rest| ==> rest[i] == requests[i + 1];
      if requests[0] in states && !(forall i :: 0 <= i < |rest| ==> rest[i] in states) {
        var i :| 0 <= i < |rest| && rest[i] !in states;
        assert requests[i + 1] !in states;
      }
    }
  }

  /**
   * One handler's part of handleCyclic (Application.cpp:86-103): without a
   * current state nothing runs; otherwise the current state executes, a
   * missing next state throws NEXTSTATEHASNOTBEENSET, and the next state
   * becomes current.
   */
  function StepTable(t: StateTable, e: Execution): Result<StateTable>
  {
    if t.current.None? then Ok(t)
    else
      match e
      case ExecuteFailed(err) => Err(err)
      case Executed(requests) =>
        match NextAfter(t.states, None, requests)
        case Err(err) => Err(err)
        case Ok(next) =>
          if next.None? then Err(NextStateHasNotBeenSet) else Ok(StateTable(t.states, next))
  }

  /**
   * What the step promises: a handler without a current state stays as it
   * is; one with a current state fails on a failed Execute, on an unknown
   * name and on no name at all, and otherwise ends in the last state
   * asked for, which is one of its states.
   */
  lemma StepTableMeans(t: StateTable, e: Execution)
    requires TableValid(t)
    ensures t.current.None? ==> StepTable(t, e) == Ok(t)
    ensures t.current.Some? && e.ExecuteFailed? ==> StepTable(t, e) == Err(e.error)
    ensures t.current.Some? && e.Executed? && e.requests == [] ==> StepTable(t, e) == Err(NextStateHasNotBeenSet)
    ensures t.current.Some? && e.Executed? && (exists i :: 0 <= i < |e.requests| && e.requests[i] !in t.states) ==>
              StepTable(t, e) == Err(StateNotFound)
    ensures t.current.Some? && e.Executed? && e.requests != [] && (forall i :: 0 <= i < |e.requests| ==> e.requests[i] in t.states) ==>
              StepTable(t, e) == Ok(StateTable(t.states, Some(e.requests[|e.requests| - 1])))
    ensures StepTable(t, e).Ok? ==> TableValid(StepTable(t, e).value) && StepTable(t, e).value.states == t.states
  {
    if e.Executed? {
      NextAfterMeans(t.states, None, e.requests);
    }
  }

  /** A step that succeeded leaves a current state, so the next cycle runs the handler again. */
  lemma StepTableKeepsCurrent(t: StateTable, e: Execution)
    requires TableValid(t) && t.current.Some? && StepTable(t, e).Ok?
    ensures StepTable(t, e).value.current.Some?
  {
  }

  /** The handlers' tables after a run of handleCyclic's loop that stopped at `stopped`, as values. */
  predicate SteppedAll(r: Result<()>, stopped: nat, before: seq<StateTable>, after: seq<StateTable>, execs: seq<Execution>)
  {
    |before| == |after| && |before| <= |execs| && stopped <= |before|
    && (r.Ok? <==> stopped == |before|)
    && forall j :: 0 <= j < |before| ==>
         if j < stopped then StepTable(before[j], execs[j]) == Ok(after[j])
         else if j == stopped then StepTable(before[j], execs[j]) == Err(r.error) && after[j] == before[j]
         else after[j] == before[j]
  }

  /** However the loop ends, every handler's table stays valid and keeps its states. */
  lemma SteppedAllKeepsValid(r: Result<()>, stopped: nat, before: seq<StateTable>, after: seq<StateTable>, execs: seq<Execution>)
    requires SteppedAll(r, stopped, before, after, execs)
    requires forall j :: 0 <= j < |before| ==> TableValid(before[j])
    ensures forall j :: 0 <= j < |after| ==> TableValid(after[j]) && after[j].states == before[j].states
  {
    forall j | 0 <= j < |after|
      ensures TableValid(after[j]) && after[j].states == before[j].states
    {
      if j < stopped {
        StepTableMeans(before[j], execs[j]);
      }
    }
  }

  /** The loop stops at the first handler whose step fails, with that step's error. */
  lemma SteppedAllStopsAtFirstError(r: Result<()>, stopped: nat, before: seq<StateTable>, after: seq<StateTable>, execs: seq<Execution>)
    requires SteppedAll(r, stopped, before, after, execs)
    ensures forall j :: 0 <= j < stopped ==> StepTable(before[j], execs[j]).Ok?
    ensures r.Err? ==> stopped < |before| && StepTable(before[stopped], execs[stopped]) == Err(r.error)
  {
  }

  // ---------------------------------------------------------------------
  // One handler's step, on the objects
  // ---------------------------------------------------------------------

  /** The setNextState calls of a state's Execute, in order, on `env`. */
  method RequestNextStates(env: CEnvironment, requests: seq<string>) returns (r: Result<()>)
    modifies env`nextState
    ensures var n := NextAfter(env.stateHandler.states, old(env.nextState), requests);
            (n.Err? ==> r == Err(n.error)) && (n.Ok? ==> r == Ok(()) && env.nextState == n.value)
  {
    var i := 0;
    while i < |requests|
      invariant 0 <= i <= |requests|
      invariant NextAfter(env.stateHandler.states, old(env.nextState), requests)
                == NextAfter(env.stateHandler.states, env.nextState, requests[i..])
    {
      assert requests[i..][1..] == requests[i + 1..];
      var outcome := env.SetNextState(requests[i]);
      if outcome.Err? {
        return outcome;
      }
      i := i + 1;
    }
    r := Ok(());
  }

  /** One handler's part of handleCyclic, on the handler. */
  method RunCurrentState(h: CStateHandler, e: Execution) returns (r: Result<()>)
    requires h.Valid()
    modifies h`current
    ensures h.Valid()
    ensures var s := StepTable(old(h.Table()), e);
            (s.Err? ==> r == Err(s.error) && h.Table() == old(h.Table()))
            && (s.Ok? ==> r == Ok(()) && h.Table() == s.value)
  {
    StepTableMeans(h.Table(), e);
    if h.current.None? {
      return Ok(());
    }
    var env := new CEnvironment(h);
    match e
    case ExecuteFailed(err) =>
      return Err(err);
    case Executed(requests) =>
      r := RequestNextStates(env, requests);
      if r.Err? {
        return;
      }
    var next := env.nextState;
    if next.None? {
      return Err(NextStateHasNotBeenSet);
    }
    r := h.SetCurrentState(next);
  }

  // ---------------------------------------------------------------------
  // The registry
  // ---------------------------------------------------------------------

  function HandlerNames(hs: seq<CStateHandler>): (r: seq<string>)
    ensures |r| == |hs| && forall i :: 0 <= i < |hs| ==> r[i] == hs[i].name
  {
    seq(|hs|, i requires 0 <= i < |hs| => hs[i].name)
  }

  lemma HandlerNamesInsert(hs: seq<CStateHandler>, k: nat, h: CStateHandler)
    requires k <= |hs|
    ensures HandlerNames(hs[..k] + [h] + hs[k..]) == HandlerNames(hs)[..k] + [h.name] + HandlerNames(hs)[k..]
  {
    var a, b := HandlerNames(hs[..k] + [h] + hs[k..]), HandlerNames(hs)[..k] + [h.name] + HandlerNames(hs)[k..];
    assert |a| == |b|;
    forall i | 0 <= i < |a|
      ensures a[i] == b[i]
    {
      if i > k {
        assert (hs[..k] + [h] + hs[k..])[i] == hs[i - 1];
      }
    }
  }

  /** Handlers filed under different names are different objects. */
  lemma HandlersDistinct(hs: seq<CStateHandler>)
    requires Ascending(HandlerNames(hs))
    ensures forall i, j :: 0 <= i < j < |hs| ==> hs[i] != hs[j]
  {
    forall i, j | 0 <= i < j < |hs|
      ensures hs[i] != hs[j]
    {
      LessIrreflexive(hs[i].name);
    }
  }

  ghost function TablesOf(hs: seq<CStateHandler>): (r: seq<StateTable>)
    reads set i | 0 <= i < |hs| :: hs[i]
    ensures |r| == |hs| && forall i :: 0 <= i < |hs| ==> r[i] == hs[i].Table()
  {
    seq(|hs|, i requires 0 <= i < |hs| reads hs => hs[i].Table())
  }

  /** handleCyclic's loop over the handlers, in name order, up to the first exception. */
  method StepEach(hs: seq<CStateHandler>, execs: seq<Execution>) returns (r: Result<()>, ghost stopped: nat)
    requires |execs| >= |hs|
    requires forall i, j :: 0 <= i < j < |hs| ==> hs[i] != hs[j]
    requires forall i :: 0 <= i < |hs| ==> hs[i].Valid()
    modifies set i | 0 <= i < |hs| :: hs[i]
    ensures forall i :: 0 <= i < |hs| ==> hs[i].Valid()
    ensures SteppedAll(r, stopped, old(TablesOf(hs)), TablesOf(hs), execs)
  {
    ghost var before := TablesOf(hs);
    var i := 0;
    while i < |hs|
      invariant 0 <= i <= |hs|
      invariant forall j :: 0 <= j < |hs| ==> hs[j].Valid()
      invariant forall j :: 0 <= j < i ==> StepTable(before[j], execs[j]) == Ok(hs[j].Table())
      invariant forall j :: i <= j < |hs| ==> hs[j].Table() == before[j]
    {
      r := RunCurrentState(hs[i], execs[i]);
      if r.Err? {
        stopped := i;
        return;
      }
      i := i + 1;
    }
    r, stopped := Ok(()), |hs|;
  }

  class CApplication {
    /** m_StateHandlers' values, in key order. */
    var handlers: seq<CStateHandler>

    ghost function Handlers(): set<object>
      reads this
    {
      set i | 0 <= i < |handlers| :: handlers[i]
    }

    ghost predicate Valid()
      reads this, Handlers()
    {
      Ascending(HandlerNames(handlers))
      && forall i :: 0 <= i < |handlers| ==> handlers[i].Valid()
    }

    constructor ()
      ensures Valid() && handlers == []
    {
      handlers := [];
    }

    /**
     * registerStateHandler: a null handler, an empty name and a taken name
     * are refused; the handler's onRegister builds its signal instances,
     * and only a handler whose onRegister succeeded is filed.
     */
    method RegisterStateHandler(h: CStateHandler?) returns (r: Result<()>, ghost stopped: nat)
      requires Valid()
      requires h != null ==> h.Valid() && h.signalHandler.Valid()
      modifies this`handlers, if h == null then {} else {h.signalHandler} + h.signalHandler.Defs()
      ensures Valid()
      ensures h != null ==> h.signalHandler.Valid()
      ensures h == null ==> r == Err(InvalidParam) && handlers == old(handlers)
      ensures h != null && h.name == [] ==> r == Err(InvalidName) && handlers == old(handlers)
      ensures h != null && h.name in HandlerNames(old(handlers)) ==> r == Err(InvalidName) && handlers == old(handlers)
      ensures h != null && h.name != [] && h.name !in HandlerNames(old(handlers)) ==>
                (!old(h.signalHandler.initializing) ==> r == Err(CannotBuildSignalInstances))
                && (old(h.signalHandler.initializing) ==> stopped <= |h.signalHandler.signals| && (r.Ok? <==> stopped == |h.signalHandler.signals|))
      ensures r.Err? ==> handlers == old(handlers)
      ensures r.Ok? ==> h != null && !h.signalHandler.initializing
                        && var k := InsertionPoint(HandlerNames(old(handlers)), h.name);
                           handlers == old(handlers)[..k] + [h] + old(handlers)[k..]
    {
      stopped := 0;
      if h == null {
        return Err(InvalidParam), 0;
      }
      if h.name == [] {
        return Err(InvalidName), 0;
      }
      if IndexOf(HandlerNames(handlers), h.name).Some? {
        return Err(InvalidName), 0;
      }
      r, stopped := h.OnRegister();
      if r.Err? {
        return;
      }
      FileHandler(h);
    }

    /** m_StateHandlers.insert of a handler under a name not yet taken. */
    method FileHandler(h: CStateHandler)
      requires Valid() && h.Valid() && h.name !in HandlerNames(handlers)
      modifies this`handlers
      ensures Valid()
      ensures var k := InsertionPoint(HandlerNames(old(handlers)), h.name);
              handlers == old(handlers)[..k] + [h] + old(handlers)[k..]
    {
      var k := InsertionPoint(HandlerNames(handlers), h.name);
      InsertKeepsAscending(HandlerNames(handlers), h.name);
      HandlerNamesInsert(handlers, k, h);
      handlers := handlers[..k] + [h] + handlers[k..];
    }

    /** findSignalHandler: the named handler's signal handler; otherwise null, or SIGNALHANDLERNOTFOUND when `mustExist`. */
    method FindSignalHandler(stateMachineName: string, mustExist: bool) returns (r: Result<Option<CSignalHandler>>)
      requires Valid()
      ensures stateMachineName !in HandlerNames(handlers) ==> r == (if mustExist then Err(SignalHandlerNotFound) else Ok(None))
      ensures stateMachineName in HandlerNames(handlers) ==>
                exists i :: 0 <= i < |handlers| && handlers[i].name == stateMachineName && r == Ok(Some(handlers[i].signalHandler))
    {
      var k := IndexOf(HandlerNames(handlers), stateMachineName);
      if k.Some? {
        return Ok(Some(handlers[k.value].signalHandler));
      }
      if mustExist {
        return Err(SignalHandlerNotFound);
      }
      r := Ok(None);
    }

    /**
     * The state-stepping part of handleCyclic: each handler in name order
     * runs its current state once, with `execs[i]` the outcome of handler
     * i's Execute; the first exception ends the cycle.
     */
    method HandleStates(execs: seq<Execution>) returns (r: Result<()>, ghost stopped: nat)
      requires Valid() && |execs| == |handlers|
      modifies Handlers()
      ensures Valid() && handlers == old(handlers)
      ensures SteppedAll(r, stopped, old(TablesOf(handlers)), TablesOf(handlers), execs)
    {
      HandlersDistinct(handlers);
      r, stopped := StepEach(handlers, execs);
    }
  }
}
