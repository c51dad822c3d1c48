# nexus: a verified model of the generic finite-state-machine engine

This project models the core of the `nexus` Go library. The core is a
generic finite-state machine with four parts:

- a registry of unique state names with an optional capacity;
- an append-only transition table, searched first match wins;
- an action chain that `Trigger` runs over a caller's payload;
- an error fallback that can move the machine to a configured error state.

It also models the error types the engine returns.

Files:

- `wrappers.dfy`: module `Wrappers`, an `Option` type. `None` stands for Go's `nil`.
- `errors.dfy`: module `Errors` (errors.go). It holds:
  - Go's `error` values as the datatype `Error`: a `Sentinel` built by `errors.New`, plus the four wrapper structs;
  - their `Error()` text (`Text`, `Render`) and `Unwrap`;
  - `errors.Is`;
  - a small reference model of `fmt.Sprintf` (`%s`, `%v`, `%%`, missing arguments). Each `Error()` text is proved equal to `Sprintf` of the format string in the source.
- `fsm.dfy`: module `Fsm` (fsm.go). It holds:
  - the classes `States` and `FSM`, whose methods update their fields in place;
  - the pure functions `Lookup`, `RunChain` and `Step`, which specify the scan, the action loop and the whole of `Trigger`;
  - lemmas about those functions.
- `scenarios.dfy`: module `Scenarios`. It restates the tests of fsm_test.go, with two exceptions: `TestTransitionError_Error` is `Errors.TransitionErrorTextExample` in errors.dfy, and the handler's in-place edit of the caller's payload that `TestFSM_ErrorHandler_WithErrorState` checks (fsm_test.go:251) is not expressible (see the pointer-aliasing line under "## Left out"). It adds cases on top of them (`CapacityScenario`, `FailingHandlerScenario`, `AtomicityScenario`, `FirstMatchWinsScenario`), and the idle → processing → done program of examples/simple_fsm/main.go as client methods. Each is proved from the engine's contracts alone.

An `ActionFunc` is modelled as a pure function from a payload to an `ActionResult`, which is a payload plus a possibly nil error. `Trigger` is proved to end in exactly the state, payload and error that `Step` computes from the table, the current state, the error state, the event and the payload. The error handler does not appear in `Step`. The model calls it, but its payload is discarded and its error swallowed, so in the model it cannot change what `Trigger` returns or where the machine ends up. In Go the handler receives the same `args` pointer that `Trigger` then returns (fsm.go:285-287, 308-310, 323-325), so an in-place edit by the handler does change the returned payload's contents; see the pointer-aliasing line under "## Left out". That the handler is called, and on which payload, is recorded in the ghost field `FSM.handled`.

Three points of fsm.go's behaviour worth stating:

- `Keys` returns a slice, modelled as a duplicate-free sequence, not as a set.
- `AddTransition` returns nothing. It cannot fail.
- On a nil `Fn` or an action error, the payload returned is the one the chain had reached. On an action error, that is the payload the failing action itself returned, because fsm.go:315 reassigns `args` before it tests `err`.

## Model

| member | source | states |
|---|---|---|
| `Errors.Unwrap` | errors.go:49-98 | the four `Unwrap` methods (errors.go:49-51, 65-67, 81-83, 96-98): every wrapper kind gives back exactly the `Err` it holds, a sentinel wraps nothing, and what it returns is strictly smaller, so unwrap chains of the model's inductive values end |
| `Errors.Render` | errors.go:45-94 | no contract of its own: the reference definition of `%v` for an `error` operand, its `Error()` text or `<nil>` for nil; the four `*Format` lemmas take `Render(err)` as the argument for `%v` and so place no constraint on it |
| `Errors.Text` | errors.go:45-94 | no contract of its own: the four `Error()` methods and a sentinel's text; specified against `Sprintf` of the source's format strings by `StateErrorFormat`, `TransitionErrorFormat`, `ActionErrorFormat` and `EventErrorFormat` |
| `Errors.StateErrorFormat` | errors.go:45-47 | `StateError.Error()` is `Sprintf("state error in state '%s' during %s: %v", State, Op, Err)`, with a nil `Err` rendered `<nil>` |
| `Errors.TransitionErrorFormat` | errors.go:60-63 | `TransitionError.Error()` is `Sprintf("transition error in state '%s' on event '%s': %s: %v", State, Event, Message, Err)` |
| `Errors.ActionErrorFormat` | errors.go:76-79 | `ActionError.Error()` is `Sprintf("action error executing '%s' in state '%s' (event '%s'): %v", ActionName, State, Event, Err)` |
| `Errors.EventErrorFormat` | errors.go:91-94 | `EventError.Error()` is `Sprintf("event error processing '%s' in state '%s': %v", Event, State, Err)` |
| `Errors.TransitionErrorTextExample` | fsm_test.go:254-265 | the exact message the test expects for a transition error wrapping "underlying error" |
| `Errors.AddErrorsDistinguishable` | fsm.go:36-50 | both errors of `Add` report `Op` "Add", yet `errors.Is` tells `ErrStateAlreadyExists` from `ErrStateSizeExceeded` through `Unwrap` |
| `Fsm.Lookup` | fsm.go:262-269 | the index found is the first one, in insertion order, whose `From` and `Event` match; `None` exactly when no record matches |
| `Fsm.LookupAppend` | fsm.go:224-229 | appending a record never changes an existing match; without one, the new record is found exactly when it matches |
| `Fsm.LookupPrefix` | fsm.go:262-269 | a match found in a table is still the match after any records are appended |
| `Fsm.RunChain` | fsm.go:292-329 | no contract of its own: the action loop of `Trigger`; specified by `RunChainAppend`, `RunChainStopsAtNil` and `RunChainStopsAtError` |
| `Fsm.RunChainAppend` | fsm.go:292-329 | running `a + b` runs `a` and continues with `b` on `a`'s final payload only when all of `a` succeeded |
| `Fsm.RunChainStopsAtNil` | fsm.go:293-311 | if the actions before position k all succeed and action k has a nil `Fn`, the chain ends there with the payload reached so far |
| `Fsm.RunChainStopsAtError` | fsm.go:315-326 | if the actions before position k all succeed and action k returns an error, the chain ends with that error, unwrapped, and the payload that action returned |
| `Fsm.FallbackState` | fsm.go:352-354 | no contract of its own: the state after the error fallback; specified by `StepFailureFallback` and `FSM.HandleError` |
| `Fsm.Step` | fsm.go:248-336 | no contract of its own: the whole outcome of `Trigger` as a function; specified by the `Step*` lemmas and tied to `FSM.Trigger` by its postcondition |
| `Fsm.StepSucceeds` | fsm.go:331-335 | `Trigger` returns a nil error exactly when a transition matches and its whole chain completes; the state is then that transition's `To` and the payload the chain's final one |
| `Fsm.StepFailureFallback` | fsm.go:284-287 | after any failure the state is the error state when that is non-empty, and unchanged otherwise |
| `Fsm.StepNoMatch` | fsm.go:271-288 | no match: a `TransitionError` "no transition found" with the current state and event, wrapping nil, and the payload returned unchanged |
| `Fsm.StepNilHandler` | fsm.go:293-311 | a nil `Fn`: a `TransitionError` "no handler function defined" with the current state and event, wrapping nil |
| `Fsm.StepActionError` | fsm.go:315-326 | an action's error is returned as it is, not wrapped, together with the payload that action returned |
| `Fsm.StepIgnoresLaterTransitions` | fsm.go:262-268 | first match wins: records added after a matching one never change the outcome of `Trigger` |
| `Fsm.States.constructor` | fsm.go:22-27 | `NewStates(size)` is an empty registry with that capacity |
| `Fsm.States.LimitReached` | fsm.go:29-32 | no contract of its own: positive capacity and registry full; what it decides is stated by `States.Add` |
| `Fsm.States.Exists` | fsm.go:55-59 | no contract of its own: membership in the registry; what it decides is stated by `States.Add` |
| `Fsm.States.Add` | fsm.go:30-53 | a duplicate fails with `StateError{Add, ErrStateAlreadyExists}` before the capacity is checked; with `maxSize > 0` and the registry full, a new state fails with `ErrStateSizeExceeded`; otherwise exactly that state is inserted and nil returned; the capacity invariant is kept |
| `Fsm.States.Keys` | fsm.go:62-68 | every registered state exactly once, and nothing else |
| `Fsm.FSM.constructor` | fsm.go:171-195 | the machine starts in `initial`, the registry is exactly `{initial}`, the table is empty, and no error state or handler is set; registering the initial state cannot fail, so the panic is unreachable |
| `Fsm.FSM.RegisterState` | fsm.go:198-213 | the registry's `Add`, its errors and its capacity invariant passed through |
| `Fsm.FSM.AddTransition` | fsm.go:216-229 | exactly one record is appended at the end, earlier records unchanged, `from` and `to` not checked |
| `Fsm.FSM.HandleError` | fsm.go:341-355 | a configured handler is called exactly once, on `args`, recorded by appending `args` to `handled`, without one nothing is recorded; the handler's result is discarded; the state becomes the error state if one is set, else stays |
| `Fsm.FSM.Trigger` | fsm.go:248-336 | the new state, returned payload and returned error are exactly those of `Step` on the table, the state before the call, the error state, the event and the payload; on a failure with a handler configured, the handler has been called exactly once and on the payload returned, and otherwise not at all; only the current state and the ghost record of handler calls change |
| `Fsm.FSM.GetState` | fsm.go:358-362 | reads the current state |
| `Fsm.FSM.SetState` | fsm.go:367-376 | overwrites the current state and nothing else, without consulting the table or running actions |
| `Fsm.FSM.SetErrorHandler` | fsm.go:381-386 | replaces both the error state and the handler, and nothing else |
| `Scenarios.NewScenario` | fsm_test.go:16-23 | a new machine is in its initial state and `Keys` is exactly `[initial]` |
| `Scenarios.RegisterScenario` | fsm_test.go:25-31 | registering a new state gives a registry of two states containing it |
| `Scenarios.CapacityScenario` | fsm.go:130-135 | with `WithMaxStates(2)` the second state fits, a third fails with `ErrStateSizeExceeded`, and a duplicate is still reported as a duplicate |
| `Scenarios.AddTransitionScenario` | fsm_test.go:33-44 | the stored record has the given `From`, `To` and `Event` |
| `Scenarios.SimpleTransitionScenario` | fsm_test.go:53-70 | a transition without actions commits its target and returns the input payload |
| `Scenarios.WithActionScenario` | fsm_test.go:72-98 | one action adding 2 to the counter and appending "_processed": the machine reaches "state2" with a nil error and payload `TestData("test_processed", 2)` |
| `Scenarios.MultipleActionsScenario` | fsm_test.go:100-139 | three actions run in order on each other's payloads: counter 1, value "test_step1_step2" |
| `Scenarios.NoTransitionScenario` | fsm_test.go:141-161 | an unknown event yields the no-match `TransitionError` and the state stays "state1" |
| `Scenarios.ActionErrorScenario` | fsm_test.go:163-187 | the action's own error is returned and the target is not committed |
| `Scenarios.NilActionScenario` | fsm_test.go:189-213 | a nil `Fn` yields the no-handler `TransitionError` for "state1" and the event |
| `Scenarios.ErrorHandlerScenario` | fsm_test.go:215-250 | with the test's handler, which returns a nil error, and an error state, the action's own error is returned, the machine ends in "error_state", and the handler was called exactly once, on the payload `TestData("test", 0)` (fsm_test.go:249); the handler's edit of the caller's payload (fsm_test.go:251) is not restated |
| `Scenarios.FailingHandlerScenario` | fsm.go:341-355 | added on top of fsm_test.go: a handler that itself returns an error changes nothing; it is still called once, the action's error, not the handler's, is returned, and the machine still ends in "error_state" |
| `Scenarios.AtomicityScenario` | fsm.go:315-326 | when the second of three actions fails and no error state is set, the state is unchanged and the third action never runs |
| `Scenarios.FirstMatchWinsScenario` | fsm.go:262-268 | of two transitions for the same state and event, the first one added decides the target |
| `Scenarios.SetGetStateScenario` | fsm_test.go:46-51 | `SetState` then `GetState` returns the state that was set |
| `Scenarios.SimpleFsmScenario` | examples/simple_fsm/main.go:22-62 | "start" from idle gives "processing" and data "processed: test"; "complete" gives "done" (main.go's two triggers); a third trigger, added here and not in main.go, sends "start" again and fails with the no-match error of fsm.go:271-287, the machine staying in "done" |

## Left out

- Logging: the zerolog logger, `setLogger`, `SetLogLevel`, the `LogLevel`/`LogOutput`/`UseStdOut` options, `DefaultOptions` and the `WithLogLevel`/`WithLogOutput`/`WithLogConsole` options. They only feed diagnostics into a foreign library. `WithMaxStates` is the `maxStates` parameter of the `FSM` constructor.
- The `sync.RWMutex`. Every public method is modelled as one atomic step. Concurrency is not modelled. The mutex is not reentrant, so in Go an action or handler that calls back into the machine (say `GetState` during `Trigger`) deadlocks; the model's actions are pure functions and cannot call the machine.
- Cyclic errors. `Error` is an inductive datatype, so every unwrap chain is finite. In Go a caller can build a cycle through pointers (a `StateError` whose `Err` is itself), on which `Error()` recurses without end and `errors.Is` does not return.
- `context.Context`. It is handed to actions and never inspected by the engine.
- Pointer aliasing of the payload (this also covers `Scenarios.ErrorHandlerScenario` not restating fsm_test.go:251). Actions and the handler are functions on values. The handler's in-place change of the caller's payload (fsm_test.go:251) cannot be expressed, and its returned payload is discarded anyway (fsm.go:343). A nil payload pointer is not modelled either.
- The two nil-field panics in `RegisterState` and `AddTransition` (fsm.go:202-204, fsm.go:220-222). The registry is a non-null constant field and the table a sequence, so neither can be nil.
- Go's random map iteration order in `Keys`. It is a nondeterministic choice (`:|`), and the contract promises no order.
- The sentinel errors of errors.go:10-13 and errors.go:20-36. The engine never produces them.
- Error identity. Go compares errors by pointer: an `errors.New` sentinel, and equally each `&StateError{}` and `&TransitionError{}` the engine allocates, so two separate allocations with equal fields are different errors in Go. The model's `==`, and so `Errors.Is`, compares every `Error` by structure: sentinels by text and wrappers field by field. The two sentinels the engine uses have different texts.
- Error types other than the five kinds of `Error`. An action may return any Go error; the model covers sentinels and the four wrapper types.
- `Errors.Sprintf` models only the verbs `%s`, `%v` and `%%` on already-rendered strings, and Go's rendering of a missing argument. A surplus argument (`%!(EXTRA …)`) is not modelled. A lone trailing `%` and any other verb such as `%d` are rendered literally, unlike Go, which prints `%!(NOVERB)` or consumes an argument and prints `%!d(…)`; the source's format strings use neither.
- `Fsm.FSM.GetState`: its contract only says it reads the current state. It is a plain query and has no further property.
- `Exists` and `LimitReached` have no contracts of their own. `Fsm.States.Add`'s contract states what they decide.
- The caller's `actions` slice. `AddTransition` stores it by reference (fsm.go:224-229), so in Go a later write by the caller to its elements changes the stored transition. The model's `Transition` holds a snapshot sequence, which the caller cannot change afterwards.
- A panicking action or error handler. Go's `Trigger` has no `recover`, so a panic propagates past the deferred `Unlock` and nothing is returned; a handler that panics at fsm.go:343 also means fsm.go:352-353 never runs and the error state is not entered. Actions and the handler are total functions in the model, so this behaviour cannot be expressed.
