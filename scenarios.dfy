/**
 * Client programs of the engine: the cases of fsm_test.go and the
 * idle -> processing -> done wiring of examples/simple_fsm/main.go, each
 * proved from the contracts of `Fsm.FSM` alone.
 */
module Scenarios {
  import opened Wrappers
  import opened Errors
  import opened Fsm

  /** The payload of fsm_test.go. */
  datatype TestData = TestData(value: string, counter: int)

  /** The payload of examples/simple_fsm/main.go. */
  datatype MyData = MyData(id: int, data: string)

  /** `New` registers exactly the initial state and starts in it. */
  method NewScenario() returns (state: State, keys: seq<State>)
    ensures state == "initial" && keys == ["initial"]
  {
    var m := new FSM<TestData>("initial", 0);
    state := m.GetState();
    keys := m.states.Keys();
    assert keys[0] in m.states.stateMap;
  }

  /** Registering a new state grows the registry by that one state. */
  method RegisterScenario() returns (err: Option<Error>, registered: set<State>)
    ensures err == None && registered == {"initial", "new_state"}
  {
    var m := new FSM<TestData>("initial", 0);
    err := m.RegisterState("new_state");
    registered := m.states.stateMap;
  }

  /**
   * With `maxStates` 2 the initial state and one more fit; a third distinct
   * state overflows, and a duplicate is reported as a duplicate even then.
   */
  method CapacityScenario() returns (second: Option<Error>, third: Option<Error>, again: Option<Error>)
    ensures second == None
    ensures third == Some(StateError("c", "Add", Some(ErrStateSizeExceeded)))
    ensures again == Some(StateError("b", "Add", Some(ErrStateAlreadyExists)))
  {
    var m := new FSM<TestData>("a", 2);
    second := m.RegisterState("b");
    third := m.RegisterState("c");
    again := m.RegisterState("b");
  }

  /** `AddTransition` stores the record as given, without consulting the registry. */
  method AddTransitionScenario() returns (table: seq<Transition<TestData>>)
    ensures |table| == 1
    ensures table[0].from == "state1" && table[0].to == "state2" && table[0].event == "trigger"
  {
    var m := new FSM<TestData>("state1", 0);
    var _ := m.RegisterState("state2");
    m.AddTransition("state1", "state2", "trigger", []);
    table := m.transitions;
  }

  /** A transition without actions commits its target and hands back the payload. */
  method SimpleTransitionScenario() returns (state: State, result: TestData, err: Option<Error>)
    ensures state == "state2" && result == TestData("test", 0) && err == None
  {
    var m := new FSM<TestData>("state1", 0);
    var _ := m.RegisterState("state2");
    m.AddTransition("state1", "state2", "go_to_state2", []);
    result, err := m.Trigger("go_to_state2", TestData("test", 0));
    state := m.GetState();
  }

  /** One action's returned payload is what `Trigger` hands back, and the target is committed. */
  method WithActionScenario() returns (state: State, result: TestData, err: Option<Error>)
    ensures state == "state2" && err == None
    ensures result == TestData("test_processed", 2)
  {
    var m := new FSM<TestData>("state1", 0);
    var _ := m.RegisterState("state2");
    var increment := Action("IncrementCounter",
      Some((d: TestData) => ActionResult(TestData(d.value + "_processed", d.counter + 2), None)));
    m.AddTransition("state1", "state2", "process", [increment]);
    assert Lookup(m.transitions, "state1", "process") == Some(0);
    assert [increment][1..] == [] && "test" + "_processed" == "test_processed";
    assert RunChain([increment], TestData("test", 0)) == RunChain([], TestData("test_processed", 2));
    result, err := m.Trigger("process", TestData("test", 0));
    state := m.GetState();
  }

  /** Three actions run in order, each on the previous one's payload. */
  method MultipleActionsScenario() returns (state: State, result: TestData, err: Option<Error>)
    ensures state == "state2" && err == None
    ensures result == TestData("test_step1_step2", 1)
  {
    var m := new FSM<TestData>("state1", 0);
    var _ := m.RegisterState("state2");
    var increment := Action("IncrementCounter",
      Some((d: TestData) => ActionResult(d.(counter := d.counter + 1), None)));
    var append1 := Action("AppendValue",
      Some((d: TestData) => ActionResult(d.(value := d.value + "_step1"), None)));
    var append2 := Action("AppendValue2",
      Some((d: TestData) => ActionResult(d.(value := d.value + "_step2"), None)));
    var chain := [increment, append1, append2];
    m.AddTransition("state1", "state2", "process", chain);
    assert chain[1..] == [append1, append2] && chain[1..][1..] == [append2] && [append2][1..] == [];
    assert "test" + "_step1" == "test_step1" && "test_step1" + "_step2" == "test_step1_step2";
    assert RunChain(chain, TestData("test", 0)) == RunChain([append1, append2], TestData("test", 1));
    assert RunChain([append1, append2], TestData("test", 1)) == RunChain([append2], TestData("test_step1", 1));
    assert RunChain([append2], TestData("test_step1", 1)) == RunChain([], TestData("test_step1_step2", 1));
    result, err := m.Trigger("process", TestData("test", 0));
    state := m.GetState();
  }

  /** No matching transition: a `TransitionError` naming the state and event; the state stays. */
  method NoTransitionScenario() returns (state: State, result: TestData, err: Option<Error>)
    ensures err == Some(TransitionError("no transition found", "state1", "nonexistent_event", None))
    ensures state == "state1" && result == TestData("test", 0)
  {
    var m := new FSM<TestData>("state1", 0);
    result, err := m.Trigger("nonexistent_event", TestData("test", 0));
    state := m.GetState();
  }

  /** An action's error comes back as it is and the target is not committed. */
  method ActionErrorScenario() returns (state: State, err: Option<Error>)
    ensures err == Some(Sentinel("action failed")) && state == "state1"
  {
    var m := new FSM<TestData>("state1", 0);
    var _ := m.RegisterState("state2");
    var failing := Action("FailingAction",
      Some((d: TestData) => ActionResult(d, Some(Sentinel("action failed")))));
    m.AddTransition("state1", "state2", "failing_process", [failing]);
    var _, e := m.Trigger("failing_process", TestData("test", 0));
    err := e;
    state := m.GetState();
  }

  /** A nil `Fn` yields a `TransitionError` for the state and event. */
  method NilActionScenario() returns (state: State, err: Option<Error>)
    ensures err == Some(TransitionError("no handler function defined", "state1", "nil_action", None))
    ensures state == "state1"
  {
    var m := new FSM<TestData>("state1", 0);
    var _ := m.RegisterState("state2");
    m.AddTransition("state1", "state2", "nil_action", [Action("NilAction", None)]);
    var _, e := m.Trigger("nil_action", TestData("test", 0));
    err := e;
    state := m.GetState();
  }

  /**
   * With an error state and a handler configured, a failing action moves the
   * machine to the error state and its own error is returned; the handler
   * is called once, on the failing action's payload.
   */
  method ErrorHandlerScenario() returns (state: State, err: Option<Error>, ghost handled: seq<TestData>)
    ensures err == Some(Sentinel("action failed")) && state == "error_state"
    ensures handled == [TestData("test", 0)]
  {
    var m := new FSM<TestData>("state1", 0);
    var _ := m.RegisterState("state2");
    var _ := m.RegisterState("error_state");
    m.SetErrorHandler("error_state",
      Some((d: TestData) => ActionResult(d.(value := "error_handled"), None)));
    var failing := Action("FailingAction",
      Some((d: TestData) => ActionResult(d, Some(Sentinel("action failed")))));
    m.AddTransition("state1", "state2", "failing_event", [failing]);
    var _, e := m.Trigger("failing_event", TestData("test", 0));
    err := e;
    state := m.GetState();
    handled := m.handled;
  }

  /**
   * A handler that itself fails changes nothing: the action's error, not the
   * handler's, is returned, and the machine still enters the error state.
   */
  method FailingHandlerScenario() returns (state: State, err: Option<Error>, ghost handled: seq<TestData>)
    ensures err == Some(Sentinel("action failed")) && state == "error_state"
    ensures handled == [TestData("test", 0)]
  {
    var m := new FSM<TestData>("state1", 0);
    var _ := m.RegisterState("state2");
    var _ := m.RegisterState("error_state");
    m.SetErrorHandler("error_state",
      Some((d: TestData) => ActionResult(d.(value := "error_handled"), Some(Sentinel("handler failed")))));
    var failing := Action("FailingAction",
      Some((d: TestData) => ActionResult(d, Some(Sentinel("action failed")))));
    m.AddTransition("state1", "state2", "failing_event", [failing]);
    var _, e := m.Trigger("failing_event", TestData("test", 0));
    err := e;
    state := m.GetState();
    handled := m.handled;
  }

  /** If the second of three actions fails and no error state is set, the state is unchanged. */
  method AtomicityScenario() returns (state: State, result: TestData, err: Option<Error>)
    ensures state == "a" && err == Some(Sentinel("boom"))
    ensures result == TestData("x_1", 0)
  {
    var m := new FSM<TestData>("a", 0);
    var _ := m.RegisterState("b");
    var first := Action("first", Some((d: TestData) => ActionResult(d.(value := d.value + "_1"), None)));
    var second := Action("second", Some((d: TestData) => ActionResult(d, Some(Sentinel("boom")))));
    var third := Action("third", Some((d: TestData) => ActionResult(d.(value := d.value + "_3"), None)));
    var chain := [first, second, third];
    m.AddTransition("a", "b", "go", chain);
    assert chain[1..] == [second, third] && "x" + "_1" == "x_1";
    assert RunChain(chain, TestData("x", 0)) == RunChain([second, third], TestData("x_1", 0));
    assert RunChain([second, third], TestData("x_1", 0)) == ActionFailed(TestData("x_1", 0), Sentinel("boom"));
    result, err := m.Trigger("go", TestData("x", 0));
    state := m.GetState();
  }

  /** Of two transitions for the same state and event, the first one added is taken. */
  method FirstMatchWinsScenario() returns (state: State)
    ensures state == "t1"
  {
    var m := new FSM<TestData>("a", 0);
    m.AddTransition("a", "t1", "x", []);
    m.AddTransition("a", "t2", "x", []);
    var _, _ := m.Trigger("x", TestData("", 0));
    state := m.GetState();
  }

  /** `SetState` moves the machine without consulting the table. */
  method SetGetStateScenario() returns (state: State)
    ensures state == "new_state"
  {
    var m := new FSM<TestData>("initial", 0);
    m.SetState("new_state");
    state := m.GetState();
  }

  /**
   * idle --start--> processing --complete--> done; a further "start" while
   * in "done" finds no transition and leaves the machine in "done".
   */
  method SimpleFsmScenario() returns (afterStart: State, data: string, afterComplete: State,
                                      lastErr: Option<Error>, final: State)
    ensures afterStart == "processing" && data == "processed: test"
    ensures afterComplete == "done"
    ensures lastErr == Some(TransitionError("no transition found", "done", "start", None))
    ensures final == "done"
  {
    var machine := new FSM<MyData>("idle", 0);
    var _ := machine.RegisterState("processing");
    var _ := machine.RegisterState("done");
    var process := Action("process_request",
      Some((req: MyData) => ActionResult(req.(data := "processed: " + req.data), None)));
    var start := Transition("idle", "processing", "start", [process]);
    var complete := Transition("processing", "done", "complete", []);
    machine.AddTransition(start.from, start.to, start.event, start.actions);
    machine.AddTransition(complete.from, complete.to, complete.event, complete.actions);
    assert machine.transitions == [start, complete];
    assert [process][1..] == [] && "processed: " + "test" == "processed: test";
    assert RunChain([process], MyData(1, "test")) == Completed(MyData(1, "processed: test"));
    assert Lookup([start, complete], "idle", "start") == Some(0);
    assert Lookup([start, complete], "processing", "complete") == Some(1);
    assert Lookup([start, complete], "done", "start") == None;

    var req, err := machine.Trigger("start", MyData(1, "test"));
    afterStart := machine.GetState();
    data := req.data;
    req, err := machine.Trigger("complete", req);
    afterComplete := machine.GetState();
    req, lastErr := machine.Trigger("start", req);
    final := machine.GetState();
  }
}
