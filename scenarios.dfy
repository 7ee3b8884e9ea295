/** Concrete machines from the project's unit tests, checked against the model. */
module Scenarios {
  import opened OrderedKeys
  import opened SimpleStateMachine

  /** Empty or reserved state lists, dangling or malformed transitions and
      an undeclared initial state are refused. */
  lemma RefusedConfigurations()
    ensures Configure([], [], None) == Err(NoStates)
    ensures Configure(["*"], [], None) == Err(ReservedStateName)
    ensures Configure(["one", "two", "three"], [["one"]], None).Err?
    ensures Configure(["one", "two", "three"], [["one", "two", "three"]], None).Err?
    ensures Configure(["one", "two", "three"], [["unknown", "one"]], None).Err?
    ensures Configure(["one", "two", "three"], [["one", "unknown"]], None).Err?
    ensures Configure(["one"], [], Some("two")).Err?
  {
    assert !EndpointsDeclared(["one", "two", "three"], ["one", "unknown"]);
    assert !EndpointsDeclared(["one", "two", "three"], ["unknown", "one"]);
  }

  /** Repeated states are accepted and collapse to one. */
  lemma DuplicateStatesCollapse()
    ensures Configure(["one", "one", "one"], [], None) == Ok(Machine(["one"], [], "one", "one"))
  {
    var xs := ["one", "one", "one"];
    assert Dedup(xs) == ["one"] by {
      assert xs[..2] == ["one", "one"];
      assert xs[..2][..1] == ["one"];
      assert xs[..2][..1][..0] == [];
    }
  }

  const RingStates: seq<string> := ["one", "two", "three"]
  const RingTransitions: seq<seq<string>> := [["one", "two"], ["two", "three"], ["three", "one"]]

  /** The ring machine of the tests is accepted as declared. */
  lemma RingConfigured()
    ensures Configure(RingStates, RingTransitions, Some("two")) == Ok(Machine(RingStates, RingTransitions, "two", "two"))
  {
    assert RingTransitions[0] != RingTransitions[1] by { assert RingTransitions[0][0] != RingTransitions[1][0]; }
    assert RingTransitions[0] != RingTransitions[2] by { assert RingTransitions[0][0] != RingTransitions[2][0]; }
    assert RingTransitions[1] != RingTransitions[2] by { assert RingTransitions[1][0] != RingTransitions[2][0]; }
    assert WellFormed(Machine(RingStates, RingTransitions, "two", "two"));
    AcceptedAsDeclared(Machine(RingStates, RingTransitions, "two", "two"));
  }

  /** In the ring started in two, staying in two is refused and moving on
      to three is allowed. */
  lemma RingVerdicts()
    ensures Verdict(Machine(RingStates, RingTransitions, "two", "two"), "two") == Failure(InvalidTransition("two", "two"))
    ensures Verdict(Machine(RingStates, RingTransitions, "two", "two"), "three") == Success
  {
    assert RingTransitions[1] == ["two", "three"];
  }

  /** The ring one -> two -> three -> one started in two, driven as the
      tests drive it. */
  method RingMachine()
  {
    RingConfigured();
    RingVerdicts();
    var made := StateMachine.Create(RingStates, RingTransitions, Some("two"));
    var sm := made.value;
    var same := sm.TransitionTo("two");
    assert same == Failure(InvalidTransition("two", "two"));
    var wrongSource := sm.TransitionFromTo("one", "two");
    assert wrongSource == Failure(UnexpectedSourceState("two"));
    var step := sm.SetState("three");
    assert step == Success && sm.current == "three";
    sm.Reset();
    assert sm.current == "two";
  }

  /** A record whose current state is not declared is refused. */
  lemma RestoreUnknownState()
    ensures Restore(Record(Some("two"), Some("unknown"), RingStates, RingTransitions)) == Err(UnknownState("unknown"))
  {
    RingConfigured();
  }

  const StarTransitions: seq<seq<string>> := [["one", Wildcard], ["two", "three"], [Wildcard, "one"]]

  /** Wildcard rules: out of one anywhere, into one from anywhere, and an
      undeclared target still refused. */
  lemma StarMachineMoves()
    ensures Verdict(Machine(RingStates, StarTransitions, "one", "one"), "one") == Success
    ensures Verdict(Machine(RingStates, StarTransitions, "one", "one"), "three") == Success
    ensures Verdict(Machine(RingStates, StarTransitions, "one", "three"), "one") == Success
    ensures Verdict(Machine(RingStates, StarTransitions, "one", "three"), "two") == Failure(InvalidTransition("three", "two"))
    ensures Verdict(Machine(RingStates, StarTransitions, "one", "one"), "unknown") == Failure(UnknownState("unknown"))
  {
    assert StarTransitions[0] == ["one", Wildcard];
    assert StarTransitions[2] == [Wildcard, "one"];
  }
}
