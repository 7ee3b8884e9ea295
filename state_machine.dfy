/** A finite-state machine over string-named states: a fixed, de-duplicated
    list of states, a fixed list of allowed transitions in which either end
    may be the wildcard "*", an initial state and one mutable current state.

    The value-level part of this module (Configure, Allowed, Verdict,
    Restore) specifies the machine; the class StateMachine is the object
    whose methods update the current state in place. */
module SimpleStateMachine {
  import opened OrderedKeys

  /** The reserved name that stands for "any state" in a transition. */
  const Wildcard: string := "*"

  datatype Option<T> = None | Some(value: T)

  /** Every failure the machine reports; the messages it raises are given
      beside each kind. */
  datatype Error =
    | NoStates                                        // no states defined
    | ReservedStateName                               // "*" cannot be used as a state name
    | InitialNotInStates                              // initial state must be in states
    | MalformedTransition(transition: seq<string>)    // a transition that is not a pair
    | UnknownState(name: string)                      // state "<name>" not in states
    | InvalidTransition(source: string, target: string) // invalid transition: "<source>" -> "<target>"
    | UnexpectedSourceState(current: string)          // unexpected source state "<current>"

  datatype Result<T> = Ok(value: T) | Err(error: Error)

  /** The outcome of an operation that only updates the current state. */
  datatype Status = Success | Failure(error: Error)

  /** The whole state of a machine, as a value. */
  datatype Machine = Machine(
    states: seq<string>,
    transitions: seq<seq<string>>,
    initial: string,
    current: string)

  /** The serialised form of a machine. A missing `states` or `transitions`
      entry reads as an empty sequence; `initial` and `state` may be absent. */
  datatype Record = Record(
    initial: Option<string>,
    state: Option<string>,
    states: seq<string>,
    transitions: seq<seq<string>>)

  /** An initial state counts as given when it is present and not the empty
      string (the empty string is falsy and means "use the default"). */
  predicate IsSupplied(initial: Option<string>) {
    initial.Some? && initial.value != ""
  }

  /** A transition end is the wildcard or a declared state. */
  predicate IsEndpoint(states: seq<string>, name: string) {
    name == Wildcard || name in states
  }

  /** A transition is a pair whose ends are both acceptable. */
  predicate EndpointsDeclared(states: seq<string>, transition: seq<string>) {
    |transition| == 2 && IsEndpoint(states, transition[0]) && IsEndpoint(states, transition[1])
  }

  /** The invariant of every machine that construction lets through. */
  predicate WellFormed(m: Machine) {
    && |m.states| > 0
    && NoDuplicates(m.states)
    && NoDuplicates(m.transitions)
    && Wildcard !in m.states
    && (forall t :: t in m.transitions ==> EndpointsDeclared(m.states, t))
    && m.initial in m.states
    // an empty-string initial state is only ever the default one
    && (m.initial != "" || m.initial == m.states[0])
    && m.current in m.states
  }

  // ---------------------------------------------------------------------
  // Construction

  /** The error met by checking the transitions one by one, source end
      before destination end, or None when they are all acceptable. */
  function FirstTransitionError(states: seq<string>, transitions: seq<seq<string>>): (r: Option<Error>)
    ensures r == None <==> forall t :: t in transitions ==> EndpointsDeclared(states, t)
    ensures r.Some? ==>
      || (r.value.MalformedTransition? && r.value.transition in transitions && |r.value.transition| != 2)
      || (r.value.UnknownState? && !IsEndpoint(states, r.value.name))
  {
    if transitions == [] then None
    else
      var t := transitions[0];
      assert transitions == [t] + transitions[1..];
      if |t| != 2 then
        assert t in transitions && !EndpointsDeclared(states, t);
        Some(MalformedTransition(t))
      else if !IsEndpoint(states, t[0]) then Some(UnknownState(t[0]))
      else if !IsEndpoint(states, t[1]) then Some(UnknownState(t[1]))
      else FirstTransitionError(states, transitions[1..])
  }

  /** The validation loop over the (already de-duplicated) transitions. */
  method ValidateTransitions(states: seq<string>, transitions: seq<seq<string>>) returns (err: Option<Error>)
    ensures err == FirstTransitionError(states, transitions)
  {
    var i := 0;
    while i < |transitions|
      invariant 0 <= i <= |transitions|
      invariant FirstTransitionError(states, transitions) == FirstTransitionError(states, transitions[i..])
    {
      var t := transitions[i];
      assert transitions[i..][1..] == transitions[i + 1..];
      if |t| != 2 {
        return Some(MalformedTransition(t));
      }
      var source, dest := t[0], t[1];
      if source !in states && source != Wildcard {
        return Some(UnknownState(source));
      }
      if dest !in states && dest != Wildcard {
        return Some(UnknownState(dest));
      }
      i := i + 1;
    }
    return None;
  }

  /** The machine built from the given states, transitions and initial
      state, or the error construction stops at. */
  function Configure(states: seq<string>, transitions: seq<seq<string>>, initial: Option<string>): (r: Result<Machine>)
    ensures r.Ok? <==>
      && |states| > 0
      && Wildcard !in states
      && (IsSupplied(initial) ==> initial.value in states)
      && (forall t :: t in transitions ==> EndpointsDeclared(states, t))
    ensures |states| == 0 ==> r == Err(NoStates)
    ensures |states| > 0 && Wildcard in states ==> r == Err(ReservedStateName)
    ensures r.Ok? ==>
      && WellFormed(r.value)
      && r.value.states == Dedup(states)
      && r.value.transitions == Dedup(transitions)
      && r.value.initial == (if IsSupplied(initial) then initial.value else states[0])
      && r.value.current == r.value.initial
  {
    var uniqueStates := Dedup(states);
    var uniqueTransitions := Dedup(transitions);
    assert forall s :: s in uniqueStates <==> s in states;
    assert forall t :: t in uniqueTransitions <==> t in transitions;
    if |uniqueStates| == 0 then Err(NoStates)
    else if Wildcard in uniqueStates then Err(ReservedStateName)
    else if IsSupplied(initial) && initial.value !in uniqueStates then Err(InitialNotInStates)
    else
      DedupHead(states);
      var start := if IsSupplied(initial) then initial.value else uniqueStates[0];
      match FirstTransitionError(uniqueStates, uniqueTransitions)
      case Some(e) => Err(e)
      case None => Ok(Machine(uniqueStates, uniqueTransitions, start, start))
  }

  // ---------------------------------------------------------------------
  // Transition rules

  /** The three rule forms that allow moving from `source` to `target`:
      the exact pair, any destination from `source`, any source to `target`. */
  predicate Allowed(transitions: seq<seq<string>>, source: string, target: string) {
    || [source, target] in transitions
    || [source, Wildcard] in transitions
    || [Wildcard, target] in transitions
  }

  /** A rule read as a pattern: each end is the state itself or the
      wildcard, and at most one end is the wildcard. */
  predicate RuleMatches(rule: seq<string>, source: string, target: string) {
    && |rule| == 2
    && (rule[0] == source || rule[0] == Wildcard)
    && (rule[1] == target || rule[1] == Wildcard)
    && !(rule[0] == Wildcard && rule[1] == Wildcard)
  }

  /** Between declared states, a move is allowed exactly when some rule
      matches it as a pattern. */
  lemma AllowedIffSomeRuleMatches(transitions: seq<seq<string>>, source: string, target: string)
    requires source != Wildcard && target != Wildcard
    ensures Allowed(transitions, source, target) <==>
      exists rule :: rule in transitions && RuleMatches(rule, source, target)
  {
    if Allowed(transitions, source, target) {
      if [source, target] in transitions {
        assert RuleMatches([source, target], source, target);
      } else if [source, Wildcard] in transitions {
        assert RuleMatches([source, Wildcard], source, target);
      } else {
        assert RuleMatches([Wildcard, target], source, target);
      }
    }
    if exists rule :: rule in transitions && RuleMatches(rule, source, target) {
      var rule :| rule in transitions && RuleMatches(rule, source, target);
      assert rule == [rule[0], rule[1]];
    }
  }

  /** A "*" -> "*" rule allows nothing between declared states. */
  lemma DoubleWildcardAllowsNothing(transitions: seq<seq<string>>, source: string, target: string)
    requires source != Wildcard && target != Wildcard
    ensures Allowed(transitions + [[Wildcard, Wildcard]], source, target) == Allowed(transitions, source, target)
  {
    assert [source, target] != [Wildcard, Wildcard];
    assert [source, Wildcard] != [Wildcard, Wildcard];
    assert [Wildcard, target] != [Wildcard, Wildcard];
  }

  /** What a request to move to `target` yields in machine `m`. */
  function Verdict(m: Machine, target: string): (r: Status)
    ensures r.Success? ==> target in m.states
    ensures r == Failure(UnknownState(target)) <==> target !in m.states
    ensures r.Failure? && target in m.states ==> r == Failure(InvalidTransition(m.current, target))
  {
    if target !in m.states then Failure(UnknownState(target))
    else if !Allowed(m.transitions, m.current, target) then Failure(InvalidTransition(m.current, target))
    else Success
  }

  /** In a well-formed machine, a move succeeds exactly when the target is
      declared and some rule matches the move as a pattern; with no rules
      at all, every move fails, staying put included. */
  lemma VerdictByRules(m: Machine, target: string)
    requires WellFormed(m)
    ensures Verdict(m, target).Success? <==>
      target in m.states && exists rule :: rule in m.transitions && RuleMatches(rule, m.current, target)
    ensures m.transitions == [] ==> Verdict(m, target).Failure?
  {
    if target in m.states {
      AllowedIffSomeRuleMatches(m.transitions, m.current, target);
    }
  }

  // ---------------------------------------------------------------------
  // Serialisation

  /** The machine a record describes, None when the record carries no
      current state, or the error met on the way. The current state is
      restored without consulting the transition rules. */
  function Restore(rec: Record): (r: Result<Option<Machine>>)
    ensures r.Ok? <==>
      Configure(rec.states, rec.transitions, rec.initial).Ok? && (rec.state.Some? ==> rec.state.value in rec.states)
    ensures (r.Ok? && r.value.None?) <==>
      Configure(rec.states, rec.transitions, rec.initial).Ok? && rec.state.None?
    ensures r.Ok? && r.value.Some? ==>
      && WellFormed(r.value.value)
      && r.value.value == Configure(rec.states, rec.transitions, rec.initial).value.(current := rec.state.value)
    ensures Configure(rec.states, rec.transitions, rec.initial).Ok? && rec.state.Some? && rec.state.value !in rec.states ==>
      r == Err(UnknownState(rec.state.value))
  {
    match Configure(rec.states, rec.transitions, rec.initial)
    case Err(e) => Err(e)
    case Ok(m) =>
      match rec.state
      case None => Ok(None)
      case Some(s) =>
        assert forall x :: x in m.states <==> x in rec.states;
        if s !in m.states then Err(UnknownState(s)) else Ok(Some(m.(current := s)))
  }

  /** Restoring the record of a machine gives back the same machine. */
  lemma RoundTrip(m: Machine)
    requires WellFormed(m)
    ensures Restore(Record(Some(m.initial), Some(m.current), m.states, m.transitions)) == Ok(Some(m))
  {
    DedupOfDistinct(m.states);
    DedupOfDistinct(m.transitions);
  }

  /** A well-formed declaration is accepted as it stands and starts in its
      initial state. */
  lemma AcceptedAsDeclared(m: Machine)
    requires WellFormed(m) && m.current == m.initial
    ensures Configure(m.states, m.transitions, Some(m.initial)) == Ok(m)
  {
    RoundTrip(m);
  }

  // ---------------------------------------------------------------------
  // The machine object

  class StateMachine {
    const states: seq<string>
    const transitions: seq<seq<string>>
    const initial: string
    var current: string

    /** The machine as a value. */
    function Model(): Machine
      reads this
    {
      Machine(states, transitions, initial, current)
    }

    ghost predicate Valid()
      reads this
    {
      WellFormed(Model())
    }

    /** Stores already validated parts; `Create` is the checked entry. */
    constructor Assemble(states: seq<string>, transitions: seq<seq<string>>, initial: string)
      ensures Model() == Machine(states, transitions, initial, initial)
    {
      this.states := states;
      this.transitions := transitions;
      this.initial := initial;
      this.current := initial;
    }

    /** Builds a machine: de-duplicates, checks the states, settles the
        initial state, then checks every transition. */
    static method Create(states: seq<string>, transitions: seq<seq<string>>, initial: Option<string>)
      returns (r: Result<StateMachine>)
      ensures r.Err? ==> Configure(states, transitions, initial) == Err(r.error)
      ensures r.Ok? ==>
        fresh(r.value) && r.value.Valid() && Configure(states, transitions, initial) == Ok(r.value.Model())
    {
      var uniqueStates := Dedup(states);
      var uniqueTransitions := Dedup(transitions);
      if |uniqueStates| == 0 {
        return Err(NoStates);
      }
      if Wildcard in uniqueStates {
        return Err(ReservedStateName);
      }
      var start: string;
      if IsSupplied(initial) {
        if initial.value !in uniqueStates {
          return Err(InitialNotInStates);
        }
        start := initial.value;
      } else {
        start := uniqueStates[0];
      }
      var failure := ValidateTransitions(uniqueStates, uniqueTransitions);
      if failure.Some? {
        return Err(failure.value);
      }
      var machine := new StateMachine.Assemble(uniqueStates, uniqueTransitions, start);
      return Ok(machine);
    }

    /** Moves to `target` when it is a declared state and a rule allows the
        move; otherwise reports why and leaves the machine as it was. */
    method TransitionTo(target: string) returns (status: Status)
      requires Valid()
      modifies this
      ensures Valid()
      ensures status == Verdict(old(Model()), target)
      ensures current == if status.Success? then target else old(current)
    {
      if target !in states {
        return Failure(UnknownState(target));
      }
      if !Allowed(transitions, current, target) {
        return Failure(InvalidTransition(current, target));
      }
      current := target;
      return Success;
    }

    /** Assigning the current state: the same as `TransitionTo`. */
    method SetState(state: string) returns (status: Status)
      requires Valid()
      modifies this
      ensures Valid()
      ensures status == Verdict(old(Model()), state)
      ensures current == if status.Success? then state else old(current)
    {
      status := TransitionTo(state);
    }

    /** Moves to `target` only when the machine is in `source` now. */
    method TransitionFromTo(source: string, target: string) returns (status: Status)
      requires Valid()
      modifies this
      ensures Valid()
      ensures status ==
        if old(current) != source then Failure(UnexpectedSourceState(old(current)))
        else Verdict(old(Model()), target)
      ensures current == if status.Success? then target else old(current)
    {
      if current != source {
        return Failure(UnexpectedSourceState(current));
      }
      status := TransitionTo(target);
    }

    /** Goes back to the initial state. */
    method Reset()
      requires Valid()
      modifies this
      ensures Valid()
      ensures current == initial
    {
      current := initial;
    }

    /** The record of this machine; restoring it gives this machine back. */
    function ToRecord(): (r: Record)
      reads this
      requires Valid()
      ensures r.states == states && r.transitions == transitions
      ensures r.initial == Some(initial) && r.state == Some(current)
      ensures Restore(r) == Ok(Some(Model()))
    {
      RoundTrip(Model());
      Record(Some(initial), Some(current), states, transitions)
    }

    /** Builds a machine from a record, then puts it in the recorded state
        (checked only against the states, not the rules). Without a
        recorded state there is no machine to give back. */
    static method FromRecord(rec: Record) returns (r: Result<Option<StateMachine>>)
      ensures r.Err? ==> Restore(rec) == Err(r.error)
      ensures r.Ok? && r.value.None? ==> Restore(rec) == Ok(None)
      ensures r.Ok? && r.value.Some? ==>
        fresh(r.value.value) && r.value.value.Valid() && Restore(rec) == Ok(Some(r.value.value.Model()))
    {
      var made := Create(rec.states, rec.transitions, rec.initial);
      if made.Err? {
        return Err(made.error);
      }
      var machine := made.value;
      if rec.state.Some? {
        var state := rec.state.value;
        if state !in machine.states {
          return Err(UnknownState(state));
        }
        machine.current := state;
        return Ok(Some(machine));
      }
      return Ok(None);
    }
  }
}
