/**
 * The finite-state-machine engine (fsm.go): the state registry `States`,
 * the append-only transition table, the action chain run by `Trigger` and
 * the error fallback.
 *
 * Each public method of the Go machine runs under one mutex, so each is
 * modelled as one atomic method. An `ActionFunc` is a pure function from
 * the payload it is given to the payload and error it returns; the
 * `context.Context` it also receives is never inspected by the engine and is
 * left out.
 */
module Fsm {
  import opened Wrappers
  import opened Errors

  type State = string
  type Event = string

  /** What an `ActionFunc` returns: the next payload and a possibly nil error. */
  datatype ActionResult<T> = ActionResult(payload: T, err: Option<Error>)

  /** An action of a transition; `fn == None` is a nil `Fn`. */
  datatype Action<!T> = Action(name: string, fn: Option<T -> ActionResult<T>>)

  /** One record of the transition table. */
  datatype Transition<!T> = Transition(from: State, to: State, event: Event, actions: seq<Action<T>>)

  // ---------------------------------------------------------------------
  // Transition lookup
  // ---------------------------------------------------------------------

  predicate Matches<T>(t: Transition<T>, from: State, event: Event) {
    t.from == from && t.event == event
  }

  /**
   * The index of the first transition, in insertion order, leaving `from`
   * on `event`, or `None` when the table has no such transition.
   */
  function Lookup<T>(ts: seq<Transition<T>>, from: State, event: Event): (r: Option<nat>)
    ensures r.Some? ==> r.value < |ts| && Matches(ts[r.value], from, event)
    ensures r.Some? ==> forall j :: 0 <= j < r.value ==> !Matches(ts[j], from, event)
    ensures r.None? <==> forall j :: 0 <= j < |ts| ==> !Matches(ts[j], from, event)
  {
    if ts == [] then None
    else if Matches(ts[0], from, event) then Some(0)
    else match Lookup(ts[1..], from, event)
      case None => None
      case Some(i) => Some(i + 1)
  }

  /**
   * Appending a transition never changes an existing match; without one,
   * the new record is found exactly when it matches.
   */
  lemma {:induction false} LookupAppend<T>(ts: seq<Transition<T>>, t: Transition<T>, from: State, event: Event)
    ensures Lookup(ts + [t], from, event)
         == if Lookup(ts, from, event).Some? then Lookup(ts, from, event)
            else if Matches(t, from, event) then Some(|ts|)
            else None
  {
    var r := Lookup(ts + [t], from, event);
    assert forall j :: 0 <= j < |ts| ==> (ts + [t])[j] == ts[j];
    assert (ts + [t])[|ts|] == t;
    match Lookup(ts, from, event)
    case Some(i) =>
      assert Matches((ts + [t])[i], from, event);
      assert r.Some? && r.value == i;
    case None =>
      if Matches(t, from, event) {
        assert r.Some? && r.value == |ts|;
      } else {
        assert r.None?;
      }
  }

  /** A transition found in a table is still the one found after more are appended. */
  lemma {:induction false} LookupPrefix<T>(ts: seq<Transition<T>>, extra: seq<Transition<T>>, from: State, event: Event)
    requires Lookup(ts, from, event).Some?
    ensures Lookup(ts + extra, from, event) == Lookup(ts, from, event)
  {
    var i := Lookup(ts, from, event).value;
    var r := Lookup(ts + extra, from, event);
    assert (ts + extra)[i] == ts[i];
    assert forall j :: 0 <= j < i ==> (ts + extra)[j] == ts[j];
    assert r.Some? && r.value == i;
  }

  // ---------------------------------------------------------------------
  // The action chain
  // ---------------------------------------------------------------------

  /** How running an action chain ends. */
  datatype ChainResult<T> =
    | Completed(payload: T)              // every action succeeded
    | NilHandler(payload: T)             // stopped at an action whose Fn is nil
    | ActionFailed(payload: T, err: Error) // stopped at an action that returned an error

  /**
   * Runs `actions` in order, each one on the payload the previous one
   * returned. Stops at the first nil `Fn` (keeping the payload it was given)
   * or the first action that returns an error (keeping the payload that
   * action returned).
   */
  function RunChain<T>(actions: seq<Action<T>>, payload: T): ChainResult<T>
    decreases |actions|
  {
    if actions == [] then Completed(payload)
    else match actions[0].fn
      case None => NilHandler(payload)
      case Some(f) =>
        var out := f(payload);
        if out.err.Some? then ActionFailed(out.payload, out.err.value)
        else RunChain(actions[1..], out.payload)
  }

  /** Running `a + b` runs `a`, and runs `b` on its result only when `a` completed. */
  lemma {:induction false} RunChainAppend<T>(a: seq<Action<T>>, b: seq<Action<T>>, payload: T)
    ensures RunChain(a + b, payload)
         == match RunChain(a, payload)
            case Completed(p) => RunChain(b, p)
            case other => other
    decreases |a|
  {
    if a == [] {
      assert a + b == b;
    } else {
      assert (a + b)[0] == a[0];
      assert (a + b)[1..] == a[1..] + b;
      match a[0].fn
      case None =>
      case Some(f) =>
        var out := f(payload);
        if out.err.None? {
          RunChainAppend(a[1..], b, out.payload);
        }
    }
  }

  /** The chain stops at a nil Fn: nothing after it runs. */
  lemma RunChainStopsAtNil<T>(actions: seq<Action<T>>, k: nat, payload: T, p: T)
    requires k < |actions| && actions[k].fn.None?
    requires RunChain(actions[..k], payload) == Completed(p)
    ensures RunChain(actions, payload) == NilHandler(p)
  {
    assert actions == actions[..k] + actions[k..];
    RunChainAppend(actions[..k], actions[k..], payload);
  }

  /** The chain stops at the first action that returns an error, with that error unwrapped. */
  lemma RunChainStopsAtError<T>(actions: seq<Action<T>>, k: nat, payload: T, p: T)
    requires k < |actions| && actions[k].fn.Some?
    requires RunChain(actions[..k], payload) == Completed(p)
    requires actions[k].fn.value(p).err.Some?
    ensures RunChain(actions, payload)
         == ActionFailed(actions[k].fn.value(p).payload, actions[k].fn.value(p).err.value)
  {
    assert actions == actions[..k] + actions[k..];
    RunChainAppend(actions[..k], actions[k..], payload);
  }

  // ---------------------------------------------------------------------
  // Trigger as a function of the machine's configuration
  // ---------------------------------------------------------------------

  /** The state, payload and error a `Trigger` call ends with. */
  datatype TriggerResult<T> = TriggerResult(state: State, payload: T, err: Option<Error>)

  /** Where the error fallback leaves the machine: the error state if one is set. */
  function FallbackState(current: State, errorState: State): State {
    if errorState != "" then errorState else current
  }

  /**
   * The outcome of `Trigger(event, args)` on a machine in state `current`
   * with table `ts` and error state `errorState`. The error handler does not
   * appear: its payload is discarded and its error swallowed.
   */
  function Step<T>(ts: seq<Transition<T>>, current: State, errorState: State, event: Event, args: T): TriggerResult<T>
  {
    match Lookup(ts, current, event)
    case None =>
      TriggerResult(FallbackState(current, errorState), args,
                    Some(TransitionError(NoTransitionFound, current, event, None)))
    case Some(i) =>
      match RunChain(ts[i].actions, args)
      case Completed(p) => TriggerResult(ts[i].to, p, None)
      case NilHandler(p) =>
        TriggerResult(FallbackState(current, errorState), p,
                      Some(TransitionError(NoHandlerDefined, current, event, None)))
      case ActionFailed(p, e) => TriggerResult(FallbackState(current, errorState), p, Some(e))
  }

  /**
   * `Trigger` succeeds exactly when a transition matches and its whole chain
   * completes; then the state is that transition's target and the payload
   * is the chain's final payload.
   */
  lemma StepSucceeds<T>(ts: seq<Transition<T>>, current: State, errorState: State, event: Event, args: T)
    ensures var r := Step(ts, current, errorState, event, args);
            var m := Lookup(ts, current, event);
            && (r.err.None? <==> m.Some? && RunChain(ts[m.value].actions, args).Completed?)
            && (r.err.None? ==> r.state == ts[m.value].to
                                && r.payload == RunChain(ts[m.value].actions, args).payload)
  {
  }

  /**
   * After a failed `Trigger` the state is the error state when one is set
   * and is unchanged otherwise; it is never the target of the transition
   * unless that is where the fallback leads anyway.
   */
  lemma StepFailureFallback<T>(ts: seq<Transition<T>>, current: State, errorState: State, event: Event, args: T)
    ensures var r := Step(ts, current, errorState, event, args);
            r.err.Some? ==> r.state == (if errorState != "" then errorState else current)
  {
  }

  /** No matching transition: a `TransitionError` wrapping nothing, the payload untouched. */
  lemma StepNoMatch<T>(ts: seq<Transition<T>>, current: State, errorState: State, event: Event, args: T)
    requires forall j :: 0 <= j < |ts| ==> !Matches(ts[j], current, event)
    ensures var r := Step(ts, current, errorState, event, args);
            && r.err == Some(TransitionError("no transition found", current, event, None))
            && r.payload == args
            && Unwrap(r.err.value).None?
  {
  }

  /** A nil `Fn` in the chain: a `TransitionError` wrapping nothing. */
  lemma StepNilHandler<T>(ts: seq<Transition<T>>, current: State, errorState: State, event: Event, args: T, p: T)
    requires Lookup(ts, current, event).Some?
    requires RunChain(ts[Lookup(ts, current, event).value].actions, args) == NilHandler(p)
    ensures var r := Step(ts, current, errorState, event, args);
            && r.err == Some(TransitionError("no handler function defined", current, event, None))
            && r.payload == p
            && Unwrap(r.err.value).None?
  {
  }

  /** An action's error is returned as it is, not wrapped. */
  lemma StepActionError<T>(ts: seq<Transition<T>>, current: State, errorState: State, event: Event, args: T, p: T, e: Error)
    requires Lookup(ts, current, event).Some?
    requires RunChain(ts[Lookup(ts, current, event).value].actions, args) == ActionFailed(p, e)
    ensures Step(ts, current, errorState, event, args).err == Some(e)
    ensures Step(ts, current, errorState, event, args).payload == p
  {
  }

  /** First match wins: transitions added after a matching one are never used. */
  lemma {:induction false} StepIgnoresLaterTransitions<T>(ts: seq<Transition<T>>, extra: seq<Transition<T>>,
                                                         current: State, errorState: State, event: Event, args: T)
    requires Lookup(ts, current, event).Some?
    ensures Step(ts + extra, current, errorState, event, args) == Step(ts, current, errorState, event, args)
  {
    var i := Lookup(ts, current, event).value;
    LookupPrefix(ts, extra, current, event);
    assert (ts + extra)[i] == ts[i];
  }

  // ---------------------------------------------------------------------
  // The state registry
  // ---------------------------------------------------------------------

  /** A set of unique state names with an optional capacity (`maxSize <= 0`: none). */
  class States {
    var stateMap: set<State>
    var maxSize: int

    /** The capacity is never exceeded. */
    ghost predicate Valid()
      reads this
    {
      maxSize > 0 ==> |stateMap| <= maxSize
    }

    /** `NewStates(size)`: an empty registry. */
    constructor (size: int)
      ensures Valid()
      ensures stateMap == {} && maxSize == size
    {
      stateMap := {};
      maxSize := size;
    }

    predicate LimitReached()
      reads this
    {
      maxSize > 0 && |stateMap| >= maxSize
    }

    predicate Exists(state: State)
      reads this
    {
      state in stateMap
    }

    /**
     * Rejects a duplicate first, then an addition past the capacity;
     * otherwise inserts exactly `state`.
     */
    method Add(state: State) returns (err: Option<Error>)
      requires Valid()
      modifies this`stateMap
      ensures Valid()
      ensures old(state in stateMap) ==>
                err == Some(StateError(state, "Add", Some(ErrStateAlreadyExists)))
                && stateMap == old(stateMap)
      ensures old(state !in stateMap) && maxSize > 0 && old(|stateMap|) >= maxSize ==>
                err == Some(StateError(state, "Add", Some(ErrStateSizeExceeded)))
                && stateMap == old(stateMap)
      ensures old(state !in stateMap) && (maxSize <= 0 || old(|stateMap|) < maxSize) ==>
                err == None && stateMap == old(stateMap) + {state}
    {
      if Exists(state) {
        return Some(StateError(state, "Add", Some(ErrStateAlreadyExists)));
      }
      if LimitReached() {
        return Some(StateError(state, "Add", Some(ErrStateSizeExceeded)));
      }
      stateMap := stateMap + {state};
      return None;
    }

    /** All registered states, each once, in an unspecified order. */
    method Keys() returns (keys: seq<State>)
      ensures |keys| == |stateMap|
      ensures forall s :: s in keys <==> s in stateMap
      ensures forall i, j :: 0 <= i < j < |keys| ==> keys[i] != keys[j]
    {
      keys := [];
      var rest := stateMap;
      while rest != {}
        invariant rest <= stateMap
        invariant forall s :: s in keys <==> s in stateMap && s !in rest
        invariant forall i, j :: 0 <= i < j < |keys| ==> keys[i] != keys[j]
        invariant |keys| + |rest| == |stateMap|
        decreases |rest|
      {
        var k :| k in rest;
        keys := keys + [k];
        rest := rest - {k};
      }
    }
  }

  // ---------------------------------------------------------------------
  // The machine
  // ---------------------------------------------------------------------

  class FSM<T> {
    const states: States
    var currentState: State
    var transitions: seq<Transition<T>>
    var errorState: State
    var errorHandler: Option<T -> ActionResult<T>>
    /** The payloads the error handler has been called on, oldest first. */
    ghost var handled: seq<T>

    ghost predicate Valid()
      reads this, states
    {
      states.Valid()
    }

    /**
     * `New(initialState, WithMaxStates(maxStates))`: registers the initial
     * state, which cannot fail on an empty registry, so `New`'s panic is
     * unreachable.
     */
    constructor (initialState: State, maxStates: int)
      ensures Valid() && fresh(states)
      ensures currentState == initialState
      ensures states.stateMap == {initialState} && states.maxSize == maxStates
      ensures transitions == [] && errorState == "" && errorHandler == None
      ensures handled == []
    {
      states := new States(maxStates);
      currentState := initialState;
      transitions := [];
      errorState := "";
      errorHandler := None;
      handled := [];
      new;
      var err := RegisterState(initialState);
      assert err == None;
    }

    /** Registers a state through the registry, propagating its errors. */
    method RegisterState(state: State) returns (err: Option<Error>)
      requires Valid()
      modifies states`stateMap
      ensures Valid()
      ensures old(state in states.stateMap) ==>
                err == Some(StateError(state, "Add", Some(ErrStateAlreadyExists)))
                && states.stateMap == old(states.stateMap)
      ensures old(state !in states.stateMap) && states.maxSize > 0 && old(|states.stateMap|) >= states.maxSize ==>
                err == Some(StateError(state, "Add", Some(ErrStateSizeExceeded)))
                && states.stateMap == old(states.stateMap)
      ensures old(state !in states.stateMap) && (states.maxSize <= 0 || old(|states.stateMap|) < states.maxSize) ==>
                err == None && states.stateMap == old(states.stateMap) + {state}
    {
      err := states.Add(state);
    }

    /** Appends one record; `from` and `to` are not checked against the registry. */
    method AddTransition(from: State, to: State, event: Event, actions: seq<Action<T>>)
      modifies this`transitions
      ensures transitions == old(transitions) + [Transition(from, to, event, actions)]
    {
      transitions := transitions + [Transition(from, to, event, actions)];
    }

    /**
     * Calls the handler, if any, discarding its result (fsm.go's `handleError`
     * only logs the handler's error, together with `originalErr`), then moves to the
     * error state if one is set.
     */
    method HandleError(args: T, originalErr: Error)
      modifies this`currentState, this`handled
      ensures currentState == FallbackState(old(currentState), errorState)
      ensures handled == old(handled) + (if errorHandler.Some? then [args] else [])
    {
      if errorHandler.Some? {
        var ignored := errorHandler.value(args);
        handled := handled + [args];
      }
      if errorState != "" {
        currentState := errorState;
      }
    }

    /**
     * Looks up the first transition for the current state and `event`, runs
     * its actions, and commits its target only when every action succeeded;
     * on any failure applies the error fallback and returns the error. A
     * configured handler is called exactly once per failure, on the payload
     * that is returned.
     */
    method Trigger(event: Event, args: T) returns (result: T, err: Option<Error>)
      modifies this`currentState, this`handled
      ensures TriggerResult(currentState, result, err)
           == Step(transitions, old(currentState), errorState, event, args)
      ensures handled == old(handled) + (if err.Some? && errorHandler.Some? then [result] else [])
    {
      var nextState: State := "";
      var handlers: seq<Action<T>> := [];
      var found := false;
      var idx := 0;
      while idx < |transitions|
        invariant 0 <= idx <= |transitions|
        invariant forall j :: 0 <= j < idx ==> !Matches(transitions[j], currentState, event)
      {
        var t := transitions[idx];
        if t.from == currentState && t.event == event {
          nextState, handlers, found := t.to, t.actions, true;
          break;
        }
        idx := idx + 1;
      }

      if !found {
        err := Some(TransitionError(NoTransitionFound, currentState, event, None));
        if errorHandler.Some? || errorState != "" {
          HandleError(args, err.value);
        }
        return args, err;
      }

      assert Lookup(transitions, currentState, event) == Some(idx);
      ghost var start := currentState;
      result := args;
      var k := 0;
      while k < |handlers|
        invariant 0 <= k <= |handlers|
        invariant currentState == start
        invariant handled == old(handled)
        invariant RunChain(handlers, args) == RunChain(handlers[k..], result)
      {
        var handler := handlers[k];
        assert handlers[k..][1..] == handlers[k + 1..];
        if handler.fn.None? {
          err := Some(TransitionError(NoHandlerDefined, currentState, event, None));
          if errorHandler.Some? || errorState != "" {
            HandleError(result, err.value);
          }
          return result, err;
        }
        var out := handler.fn.value(result);
        result, err := out.payload, out.err;
        if err.Some? {
          if errorHandler.Some? || errorState != "" {
            HandleError(result, err.value);
          }
          return result, err;
        }
        k := k + 1;
      }

      currentState := nextState;
      return result, None;
    }

    function GetState(): (s: State)
      reads this
      ensures s == currentState
    {
      currentState
    }

    /** Overwrites the current state without consulting the table or running actions. */
    method SetState(s: State)
      modifies this`currentState
      ensures currentState == s
    {
      currentState := s;
    }

    /** Replaces both the error state and the handler. */
    method SetErrorHandler(state: State, handler: Option<T -> ActionResult<T>>)
      modifies this`errorState, this`errorHandler
      ensures errorState == state && errorHandler == handler
    {
      errorState := state;
      errorHandler := handler;
    }
  }
}
