# simplestatemachine, modelled in Dafny

The modelled package is a small finite-state machine. A machine is built from
a list of state names, a list of allowed transitions and an optional initial
state. Construction removes duplicate states and duplicate transitions,
keeping each one where it first occurs. It rejects an empty state list and the
reserved name `"*"`. It settles the initial state: a given one must be
declared, and otherwise the first declared state is used. Then it checks, one
transition at a time, that each transition is a pair whose two ends are
declared states or the wildcard `"*"`.

After construction only the current state changes. `transition_to(t)` moves
to `t` when `t` is declared and one of the rules `(current, t)`,
`(current, "*")` or `("*", t)` is present. `transition_fromto(s, t)` first
demands that the current state is `s`. Assigning to `state` is
`transition_to`. `reset` returns to the initial state. `to_dict` and
`from_dict` serialise a machine and rebuild it, including its current state.

Files:

- `ordered_keys.dfy`, module `OrderedKeys`: the order-preserving
  de-duplication (`OrderedDict.fromkeys`) with its properties. It has no
  duplicates, it keeps exactly the input's elements, it keeps the order of
  first occurrences, its head is the input's head, and it leaves a sequence
  without repetitions unchanged.
- `state_machine.dfy`, module `SimpleStateMachine`: the value-level
  specification and the class.
  - `Configure` is the construction, and `ValidateTransitions` is its
    validation loop.
  - `Allowed` is the rule test, and `Verdict` is the outcome of a move.
  - `Restore` is `from_dict` on values, and `RoundTrip` proves the round trip.
  - The class `StateMachine` keeps the declared parts in `const` fields and
    the current state in a `var`. Its methods update that state in place and
    are proved against the functions above. Every method keeps `Valid()`, the
    machine invariant.
- `scenarios.dfy`, module `Scenarios`: the machines of the unit tests,
  checked against the model. The method `RingMachine` is a client that drives
  the class as the ring-machine tests do.

The machine invariant (`WellFormed`) has these parts:
- the states are non-empty, free of duplicates and do not include `"*"`;
- the transitions are free of duplicates;
- every transition is a pair of declared states or `"*"`;
- the initial and current states are declared;
- the initial state is the empty string only when it is also the first state.

The last part holds because the source treats an empty initial name as
"not given" (lines 28-32). The round trip through `from_dict` needs it.

Two behaviours of the code are kept as written:
- A `("*", "*")` rule allows no move. The current state and the target are
  both declared, so neither is ever `"*"`, and none of the three membership
  tests matches that rule (`DoubleWildcardAllowsNothing`).
- `from_dict` on a record without a `state` entry still validates the
  configuration. It then returns no machine. The model gives `Ok(None)` for
  that case.

## Model

| member | source | states |
|---|---|---|
| OrderedKeys.Dedup | simplestatemachine/__init__.py:15-16 | the de-duplicated sequence has no repeated element; every element of it is in the input, and every input element is in it |
| OrderedKeys.DedupKeepsFirstOccurrenceOrder | simplestatemachine/__init__.py:15-16 | the kept elements appear in the order of their first occurrences in the input |
| OrderedKeys.DedupHead | simplestatemachine/__init__.py:32 | the first de-duplicated state is the first input state, so the default initial state is the first state the caller listed |
| OrderedKeys.DedupOfDistinct | simplestatemachine/__init__.py:15-16 | a sequence without repetitions (such as a machine's stored states) comes back unchanged |
| OrderedKeys.DedupIdempotent | simplestatemachine/__init__.py:15-16 | de-duplicating twice gives the same result as de-duplicating once |
| SimpleStateMachine.FirstTransitionError | simplestatemachine/__init__.py:36-40 | no error exactly when every transition is a pair of declared states or "*"; an error names a transition that is not a pair or an end that is neither declared nor "*" |
| SimpleStateMachine.ValidateTransitions | simplestatemachine/__init__.py:36-40 | the loop reports the first failing transition end, checking source before destination, in transition order |
| SimpleStateMachine.Configure | simplestatemachine/__init__.py:14-40 | construction succeeds iff the states are non-empty, "*" is not among them, a given non-empty initial state is declared, and all transition ends are declared or "*"; on success the machine is well-formed, holds the de-duplicated states and transitions, uses the given initial state or else the first listed state, and starts in the initial state |
| SimpleStateMachine.AllowedIffSomeRuleMatches | simplestatemachine/__init__.py:65-67 | between non-wildcard states, the three membership tests hold iff some rule matches the move as a pattern with at most one wildcard end |
| SimpleStateMachine.DoubleWildcardAllowsNothing | simplestatemachine/__init__.py:65-67 | adding a "*" -> "*" rule changes no verdict between declared states |
| SimpleStateMachine.Verdict | simplestatemachine/__init__.py:62-68 | a move succeeds only to a declared state; the error is "state not in states" exactly when the target is undeclared, and "invalid transition" for a declared target with no rule |
| SimpleStateMachine.VerdictByRules | simplestatemachine/__init__.py:62-68 | in a well-formed machine a move succeeds iff the target is declared and some rule matches it; without rules every move fails, including a move to the current state |
| SimpleStateMachine.Restore | simplestatemachine/__init__.py:87-99 | a record is restored iff its configuration is accepted and its state, when present, is declared; the restored machine is well-formed and is the constructed machine with its current state overwritten, without consulting the rules; with no state there is no machine; an undeclared state gives "state not in states" |
| SimpleStateMachine.RoundTrip | simplestatemachine/__init__.py:79-99 | restoring the record of a well-formed machine gives back the same states, transitions, initial state and current state |
| SimpleStateMachine.AcceptedAsDeclared | simplestatemachine/__init__.py:14-40 | a well-formed declaration whose current state is its initial state is accepted unchanged: de-duplication and validation leave it as it is |
| SimpleStateMachine.StateMachine.Assemble | simplestatemachine/__init__.py:15-33 | a new object holds the given states, transitions and initial state, and starts in the initial state |
| SimpleStateMachine.StateMachine.Create | simplestatemachine/__init__.py:14-40 | fails with exactly the error Configure gives; otherwise returns a fresh valid object whose value is the machine Configure gives |
| SimpleStateMachine.StateMachine.TransitionTo | simplestatemachine/__init__.py:62-69 | returns the verdict for the old state; on success the current state is the target, on failure it is unchanged; the invariant is kept |
| SimpleStateMachine.StateMachine.SetState | simplestatemachine/__init__.py:50-52 | identical outcome and effect to TransitionTo |
| SimpleStateMachine.StateMachine.TransitionFromTo | simplestatemachine/__init__.py:71-74 | when the current state is not the expected source, fails with "unexpected source state" and changes nothing, even for a legal move; otherwise behaves as TransitionTo |
| SimpleStateMachine.StateMachine.Reset | simplestatemachine/__init__.py:76-77 | the current state becomes the initial state, the declared parts are unchanged, and the invariant is kept |
| SimpleStateMachine.StateMachine.ToRecord | simplestatemachine/__init__.py:79-85 | the record carries the initial state, the current state, the states and the transitions, and restoring it gives back this machine |
| SimpleStateMachine.StateMachine.FromRecord | simplestatemachine/__init__.py:87-99 | fails with exactly the error Restore gives, returns no machine exactly when Restore gives none, and otherwise returns a fresh valid object whose value is the machine Restore gives |
| Scenarios.RefusedConfigurations | simplestatemachine/__init__.py:20-40 | each rejection case gives an error: empty states, the state "*", one-element and three-element transitions, an unknown source, an unknown destination, and an undeclared initial state |
| Scenarios.DuplicateStatesCollapse | test_simplestatemachine.py:32-35 | the states one, one, one are accepted and collapse to one state |
| Scenarios.RingConfigured | test_simplestatemachine.py:76-97 | the three-state ring started in two is accepted exactly as declared |
| Scenarios.RestoreUnknownState | test_simplestatemachine.py:206-211 | a record whose state is undeclared gives "state not in states" |
| Scenarios.StarMachineMoves | test_simplestatemachine.py:142-170 | with rules (one,*), (two,three) and (*,one): one -> one, one -> three and three -> one succeed, three -> two fails, and an unknown target is refused |

## Left out

- Logging: the module's logger is never used.
- Identifiers are strings. The `str()` conversion in `to_dict` is the identity on strings, so arbitrary Python objects and their string forms are not modelled.
- Python truthiness of the initial state: "not given" is `None` or the empty string. Other falsy Python values cannot occur for a string.
- Iterating over a bare string as if it were a tuple of transitions or states is not modelled.
- Transitions are sequences of strings. The Python tuple-unpacking error for a transition that is not a pair becomes the `MalformedTransition` error, at the same point in the loop.
- Every failure is one `ValueError` in the source. The model uses an `Error` datatype whose kinds follow the raised messages.
- Exceptions become `Result` and `Status` values. A failed construction yields no object. The source assigns fields before it validates them, but the half-built object never reaches a caller, so the model allocates only after validation.
- Direct writes to the private current-state field from outside the class are not modelled.
- `from_dict` on an absent `states` or `transitions` entry: the source reads `None`, which becomes an empty sequence, and the model uses an empty sequence.
- Concurrency: the class has no synchronisation, and the model is sequential.
