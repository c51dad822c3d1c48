/**
 * The error taxonomy of the engine (errors.go).
 *
 * Go's `error` interface is modelled as the closed datatype `Error`: a
 * `Sentinel` is a value built by `errors.New` (it has no `Unwrap`), and the
 * other four constructors are the wrapper structs of errors.go. A wrapped
 * `Err` field that may be `nil` is an `Option<Error>`.
 */
module Errors {
  import opened Wrappers

  datatype Error =
    | Sentinel(text: string)
    | StateError(state: string, op: string, err: Option<Error>)
    | TransitionError(message: string, state: string, event: string, err: Option<Error>)
    | ActionError(actionName: string, state: string, event: string, err: Option<Error>)
    | EventError(event: string, state: string, err: Option<Error>)

  /** The two sentinels the engine produces (errors.go:14-15). */
  const ErrStateAlreadyExists: Error := Sentinel("state already exists")
  const ErrStateSizeExceeded: Error := Sentinel("maximum number of states exceeded")

  /** The messages the engine puts into the `TransitionError`s it builds. */
  const NoTransitionFound: string := "no transition found"
  const NoHandlerDefined: string := "no handler function defined"

  // ---------------------------------------------------------------------
  // A reference model of the part of fmt.Sprintf the formatters use
  // ---------------------------------------------------------------------

  /**
   * `%s` and `%v` each consume the next argument (already rendered as a
   * string), `%%` is a literal percent sign, and a verb without an argument
   * renders as `%!s(MISSING)` / `%!v(MISSING)`, as Go does.
   */
  function Sprintf(format: string, args: seq<string>): string
    decreases |format|
  {
    if format == [] then []
    else if format[0] == '%' && |format| >= 2 && format[1] == '%' then
      "%" + Sprintf(format[2..], args)
    else if format[0] == '%' && |format| >= 2 && (format[1] == 's' || format[1] == 'v') then
      if args == [] then "%!" + [format[1]] + "(MISSING)" + Sprintf(format[2..], args)
      else args[0] + Sprintf(format[2..], args[1..])
    else [format[0]] + Sprintf(format[1..], args)
  }

  /** `pieces[0] + fillers[0] + pieces[1] + ... + pieces[n]`. */
  function Interleave(pieces: seq<string>, fillers: seq<string>): (r: string)
    requires |pieces| == |fillers| + 1
    decreases |fillers|
  {
    if fillers == [] then pieces[0]
    else pieces[0] + fillers[0] + Interleave(pieces[1..], fillers[1..])
  }

  predicate IsVerb(v: string) { v == "%s" || v == "%v" }

  /** Text without a '%' passes through Sprintf unchanged. */
  lemma {:induction false} SprintfLiteral(lit: string, rest: string, args: seq<string>)
    requires '%' !in lit
    ensures Sprintf(lit + rest, args) == lit + Sprintf(rest, args)
    decreases |lit|
  {
    if lit != [] {
      assert (lit + rest)[0] == lit[0];
      assert (lit + rest)[1..] == lit[1..] + rest;
      SprintfLiteral(lit[1..], rest, args);
      assert lit == [lit[0]] + lit[1..];
    } else {
      assert lit + rest == rest;
    }
  }

  /** A `%s`/`%v` verb is replaced by the next argument. */
  lemma SprintfVerb(verb: string, rest: string, a: string, args: seq<string>)
    requires IsVerb(verb)
    ensures Sprintf(verb + rest, [a] + args) == a + Sprintf(rest, args)
  {
  }

  /**
   * A format made of '%'-free pieces separated by `%s`/`%v` verbs, given one
   * argument per verb, yields the pieces separated by the arguments.
   */
  lemma {:induction false} SprintfInterleave(pieces: seq<string>, verbs: seq<string>, args: seq<string>)
    requires |pieces| == |args| + 1 && |verbs| == |args|
    requires forall i :: 0 <= i < |pieces| ==> '%' !in pieces[i]
    requires forall i :: 0 <= i < |verbs| ==> IsVerb(verbs[i])
    ensures Sprintf(Interleave(pieces, verbs), args) == Interleave(pieces, args)
    decreases |args|
  {
    if args == [] {
      SprintfLiteral(pieces[0], [], args);
      assert pieces[0] + [] == pieces[0];
    } else {
      var tail := Interleave(pieces[1..], verbs[1..]);
      calc {
        Sprintf(Interleave(pieces, verbs), args);
        { assert Interleave(pieces, verbs) == pieces[0] + (verbs[0] + tail); }
        Sprintf(pieces[0] + (verbs[0] + tail), args);
        { SprintfLiteral(pieces[0], verbs[0] + tail, args); }
        pieces[0] + Sprintf(verbs[0] + tail, args);
        { assert args == [args[0]] + args[1..];
          SprintfVerb(verbs[0], tail, args[0], args[1..]); }
        pieces[0] + (args[0] + Sprintf(tail, args[1..]));
        { SprintfInterleave(pieces[1..], verbs[1..], args[1..]); }
        pieces[0] + (args[0] + Interleave(pieces[1..], args[1..]));
      }
    }
  }

  // ---------------------------------------------------------------------
  // Error() and Unwrap()
  // ---------------------------------------------------------------------

  /** `%v` of an `error` value: its `Error()` text, or `<nil>` for nil. */
  function Render(e: Option<Error>): string
    decreases e, 1
  {
    match e
    case None => "<nil>"
    case Some(inner) => Text(inner)
  }

  /** The `Error()` method of each kind. */
  function Text(e: Error): string
    decreases e, 0
  {
    match e
    case Sentinel(text) => text
    case StateError(state, op, err) =>
      "state error in state '" + state + "' during " + op + ": " + Render(err)
    case TransitionError(message, state, event, err) =>
      "transition error in state '" + state + "' on event '" + event + "': " + message + ": " + Render(err)
    case ActionError(name, state, event, err) =>
      "action error executing '" + name + "' in state '" + state + "' (event '" + event + "'): " + Render(err)
    case EventError(event, state, err) =>
      "event error processing '" + event + "' in state '" + state + "': " + Render(err)
  }

  /**
   * The `Unwrap()` method: every wrapper kind gives back its `Err` field; a
   * sentinel from `errors.New` wraps nothing. Unwrapping always yields a
   * strictly smaller error, so an unwrap chain is finite.
   */
  function Unwrap(e: Error): (r: Option<Error>)
    ensures e.Sentinel? ==> r.None?
    ensures !e.Sentinel? ==> r == e.err
    ensures r.Some? ==> r.value < e
  {
    if e.Sentinel? then None else e.err
  }

  /** `errors.Is`: `target` is `e` or is reached from `e` by unwrapping. */
  predicate Is(e: Error, target: Error)
    decreases e
  {
    e == target || (Unwrap(e).Some? && Is(Unwrap(e).value, target))
  }

  // ---------------------------------------------------------------------
  // Each Error() agrees with its fmt.Sprintf format string
  // ---------------------------------------------------------------------

  /** Interleave unfolded for three and for four fillers. */
  lemma InterleaveThree(p0: string, p1: string, p2: string, p3: string, a0: string, a1: string, a2: string)
    ensures Interleave([p0, p1, p2, p3], [a0, a1, a2]) == p0 + a0 + p1 + a1 + p2 + a2 + p3
  {
    assert Interleave([p3], []) == p3;
    assert [p2, p3][1..] == [p3];
    assert Interleave([p2, p3], [a2]) == p2 + a2 + p3;
    assert [p1, p2, p3][1..] == [p2, p3];
    assert [a1, a2][1..] == [a2];
    assert Interleave([p1, p2, p3], [a1, a2]) == p1 + a1 + (p2 + a2 + p3);
    assert [p0, p1, p2, p3][1..] == [p1, p2, p3];
    assert [a0, a1, a2][1..] == [a1, a2];
  }

  lemma InterleaveFour(p0: string, p1: string, p2: string, p3: string, p4: string,
                       a0: string, a1: string, a2: string, a3: string)
    ensures Interleave([p0, p1, p2, p3, p4], [a0, a1, a2, a3])
         == p0 + a0 + p1 + a1 + p2 + a2 + p3 + a3 + p4
  {
    InterleaveThree(p1, p2, p3, p4, a1, a2, a3);
    assert [p0, p1, p2, p3, p4][1..] == [p1, p2, p3, p4];
    assert [a0, a1, a2, a3][1..] == [a1, a2, a3];
  }

  /** Each format string of errors.go, cut at its verbs. */
  lemma StateErrorPieces()
    ensures Interleave(["state error in state '", "' during ", ": ", ""],
                       ["%s", "%s", "%v"])
         == "state error in state '%s' during %s: %v"
  {
    InterleaveThree("state error in state '", "' during ", ": ", "", "%s", "%s", "%v");
  }

  lemma TransitionErrorPieces()
    ensures Interleave(["transition error in state '", "' on event '", "': ", ": ", ""],
                       ["%s", "%s", "%s", "%v"])
         == "transition error in state '%s' on event '%s': %s: %v"
  {
    InterleaveFour("transition error in state '", "' on event '", "': ", ": ", "", "%s", "%s", "%s", "%v");
  }

  lemma ActionErrorPieces()
    ensures Interleave(["action error executing '", "' in state '", "' (event '", "'): ", ""],
                       ["%s", "%s", "%s", "%v"])
         == "action error executing '%s' in state '%s' (event '%s'): %v"
  {
    InterleaveFour("action error executing '", "' in state '", "' (event '", "'): ", "", "%s", "%s", "%s", "%v");
  }

  lemma EventErrorPieces()
    ensures Interleave(["event error processing '", "' in state '", "': ", ""],
                       ["%s", "%s", "%v"])
         == "event error processing '%s' in state '%s': %v"
  {
    InterleaveThree("event error processing '", "' in state '", "': ", "", "%s", "%s", "%v");
  }

  lemma StateErrorFormat(state: string, op: string, err: Option<Error>)
    ensures Text(StateError(state, op, err))
         == Sprintf("state error in state '%s' during %s: %v", [state, op, Render(err)])
  {
    var pieces := ["state error in state '", "' during ", ": ", ""];
    var verbs := ["%s", "%s", "%v"];
    var args := [state, op, Render(err)];
    calc {
      Text(StateError(state, op, err));
      { InterleaveThree(pieces[0], pieces[1], pieces[2], pieces[3], state, op, Render(err)); }
      Interleave(pieces, args);
      { SprintfInterleave(pieces, verbs, args); }
      Sprintf(Interleave(pieces, verbs), args);
      { StateErrorPieces(); }
      Sprintf("state error in state '%s' during %s: %v", args);
    }
  }

  lemma TransitionErrorFormat(message: string, state: string, event: string, err: Option<Error>)
    ensures Text(TransitionError(message, state, event, err))
         == Sprintf("transition error in state '%s' on event '%s': %s: %v", [state, event, message, Render(err)])
  {
    var pieces := ["transition error in state '", "' on event '", "': ", ": ", ""];
    var verbs := ["%s", "%s", "%s", "%v"];
    var args := [state, event, message, Render(err)];
    calc {
      Text(TransitionError(message, state, event, err));
      { InterleaveFour(pieces[0], pieces[1], pieces[2], pieces[3], pieces[4], state, event, message, Render(err)); }
      Interleave(pieces, args);
      { SprintfInterleave(pieces, verbs, args); }
      Sprintf(Interleave(pieces, verbs), args);
      { TransitionErrorPieces(); }
      Sprintf("transition error in state '%s' on event '%s': %s: %v", args);
    }
  }

  lemma ActionErrorFormat(name: string, state: string, event: string, err: Option<Error>)
    ensures Text(ActionError(name, state, event, err))
         == Sprintf("action error executing '%s' in state '%s' (event '%s'): %v", [name, state, event, Render(err)])
  {
    var pieces := ["action error executing '", "' in state '", "' (event '", "'): ", ""];
    var verbs := ["%s", "%s", "%s", "%v"];
    var args := [name, state, event, Render(err)];
    calc {
      Text(ActionError(name, state, event, err));
      { InterleaveFour(pieces[0], pieces[1], pieces[2], pieces[3], pieces[4], name, state, event, Render(err)); }
      Interleave(pieces, args);
      { SprintfInterleave(pieces, verbs, args); }
      Sprintf(Interleave(pieces, verbs), args);
      { ActionErrorPieces(); }
      Sprintf("action error executing '%s' in state '%s' (event '%s'): %v", args);
    }
  }

  lemma EventErrorFormat(event: string, state: string, err: Option<Error>)
    ensures Text(EventError(event, state, err))
         == Sprintf("event error processing '%s' in state '%s': %v", [event, state, Render(err)])
  {
    var pieces := ["event error processing '", "' in state '", "': ", ""];
    var verbs := ["%s", "%s", "%v"];
    var args := [event, state, Render(err)];
    calc {
      Text(EventError(event, state, err));
      { InterleaveThree(pieces[0], pieces[1], pieces[2], pieces[3], event, state, Render(err)); }
      Interleave(pieces, args);
      { SprintfInterleave(pieces, verbs, args); }
      Sprintf(Interleave(pieces, verbs), args);
      { EventErrorPieces(); }
      Sprintf("event error processing '%s' in state '%s': %v", args);
    }
  }

  /** The message format of fsm_test.go's TestTransitionError_Error. */
  lemma TransitionErrorTextExample()
    ensures Text(TransitionError("test error", "test_state", "test_event",
                                 Some(Sentinel("underlying error"))))
         == "transition error in state 'test_state' on event 'test_event': test error: underlying error"
  {
    assert "transition error in state '" + "test_state" + "' on event '"
        == "transition error in state 'test_state' on event '";
    assert "transition error in state 'test_state' on event '" + "test_event" + "': "
        == "transition error in state 'test_state' on event 'test_event': ";
    assert "transition error in state 'test_state' on event 'test_event': " + "test error" + ": "
        == "transition error in state 'test_state' on event 'test_event': test error: ";
    assert "transition error in state 'test_state' on event 'test_event': test error: " + "underlying error"
        == "transition error in state 'test_state' on event 'test_event': test error: underlying error";
  }

  /**
   * The two errors `Add` can return both report `Op` "Add", and `errors.Is`
   * on them still tells the duplicate apart from the capacity overflow.
   */
  lemma AddErrorsDistinguishable(state: string)
    ensures Is(StateError(state, "Add", Some(ErrStateAlreadyExists)), ErrStateAlreadyExists)
    ensures !Is(StateError(state, "Add", Some(ErrStateAlreadyExists)), ErrStateSizeExceeded)
    ensures Is(StateError(state, "Add", Some(ErrStateSizeExceeded)), ErrStateSizeExceeded)
    ensures !Is(StateError(state, "Add", Some(ErrStateSizeExceeded)), ErrStateAlreadyExists)
  {
  }
}
