# Repositioning state machine, modelled in Dafny

This project models the repositioning engine of a location SDK. The engine
receives a raw estimate of where the user is: a coordinate, a GPS quality tier,
an optional floor and a containment status. It then decides one of three things:

- routing can go ahead at once;
- the user must answer a clarifying question (indoor or outdoor);
- the user must refine the position, either the floor only (assisted) or the
  whole position (manual).

It ends in a final position with a precision qualifier (user-fixed, degraded or
forced).

The model has four modules:

- `Positions` (`positions.dfy`) holds the immutable `UserPosition` record and its
  copy-with-one-field-changed helpers. It also holds the identity projection hook,
  the hand-written equality and the exact value sequence that `hash(into:)`
  combines. The integer-backed enums, their raw values and their failable
  initialisers are here too.
- `Repositioning` (`machine.dfy`) holds the state and event vocabulary and the
  route mapping `Transition(event?, state) -> state?`. It also holds the delegate
  call each entered state triggers (`Dispatch`) and runs of the machine over event
  sequences (`Apply`, `Run`). The lemmas relate the route mapping to an
  independent rule-by-rule statement (`Rule`). They also prove the listed
  behaviours and an invariant of every reachable state.
- `Manager` (`manager.dfy`) holds the class `RepositioningManager`. It has the
  current `state`, the installed `delegate` and `calls`, the log of delegate calls
  made. Each user entry point turns into an event and is offered through
  `TryEvent`. An accepted event commits the new state and then runs the handler,
  which makes the one delegate call the new state selects. A rejected event
  changes nothing.
- `Scenarios` (`scenarios.dfy`) replays the unit tests' sessions against the
  manager's contracts. They are written for every coordinate, not only the fixed
  ones the tests use.

The coordinate's two components are an opaque type with equality only. Delegates
are identified by a number. A call reaches a delegate only when one is installed,
because the handler uses optional chaining.

Three behaviours of the route mapping are worth stating plainly:

- `confirm` finalises the position held by the `projected` state and ignores the
  event's position (`com.statemachine.repositioning/RepositioningManager.swift:188`).
- `moreInfos(indoor, false)` goes straight to `final(position with inboxOutside,
  degraded)` (line 176, pinned by the test at
  `com.statemachine.repositioningTests/com_statemachine_repositioningTests.swift:397-401`).
- `force` is the last arm of the switch. No earlier arm matches a `force` event, so
  it is accepted in every state.

The hand-written `==` operators on states and positions are modelled as
`StatesEqual`, `PositionsEqual` and `CoordinatesEqual`. Each is proved to coincide
with Dafny's structural equality, which the rest of the model then uses.

## Model

| member | source | states |
|---|---|---|
| Positions.ThresholdRawValue | com.statemachine.repositioning/ResidualStructs.swift:14-17 | a threshold's raw value is 0 or 1; which case has which is stated by RawValuesFollowDeclarationOrder |
| Positions.ThresholdFromRawValue | com.statemachine.repositioning/ResidualStructs.swift:14-17 | the failable initialiser succeeds exactly on 0 and 1, and yields the case whose raw value was given |
| Positions.PositionStatusRawValue | com.statemachine.repositioning/ResidualStructs.swift:20-25 | a status raw value is between 0 and 3; which case has which is stated by RawValuesFollowDeclarationOrder |
| Positions.PositionStatusFromRawValue | com.statemachine.repositioning/ResidualStructs.swift:20-25 | the failable initialiser succeeds exactly on 0 to 3, and yields the case whose raw value was given |
| Positions.RawValuesFollowDeclarationOrder | com.statemachine.repositioning/ResidualStructs.swift:14-25 | the raw values are good=0, bad=1 and outbox=0, inboxUnknown=1, inboxOutside=2, inboxInside=3 |
| Positions.RawValueRoundTrip | com.statemachine.repositioning/ResidualStructs.swift:14-25 | raw value then initialiser gives back the same case, so no two cases share a raw value |
| Positions.WithPositionStatus | com.statemachine.repositioning/ResidualStructs.swift:36-41 | the copy has the new status; coordinate, threshold and floor are unchanged |
| Positions.WithFloor | com.statemachine.repositioning/ResidualStructs.swift:43-48 | the copy's floor is present and equal to the new floor; coordinate, threshold and status are unchanged |
| Positions.WithLastValueWins | com.statemachine.repositioning/ResidualStructs.swift:36-48 | replacing a field twice equals replacing it once with the last value; the two copy helpers commute |
| Positions.Project | com.statemachine.repositioning/ResidualStructs.swift:51-53 | projecting a position returns it unchanged |
| Positions.CoordinatesEqual | com.statemachine.repositioning/ResidualStructs.swift:75-77 | the coordinate `==` (latitude and longitude both equal) holds exactly when the two coordinates are identical |
| Positions.PositionsEqual | com.statemachine.repositioning/ResidualStructs.swift:55-60 | the hand-written `==` (coordinate, threshold, status and floor) holds exactly when the two records are identical |
| Positions.CoordinateHashFeedAgreesWithEquality | com.statemachine.repositioning/ResidualStructs.swift:79-82 | the coordinate's hash feed (longitude, then latitude) is identical for two coordinates exactly when they are `==` |
| Positions.HashFeed | com.statemachine.repositioning/ResidualStructs.swift:62-70 | the feed starts with the coordinate's feed and has 5 values with a floor and 4 without |
| Positions.HashFeedAgreesWithEquality | com.statemachine.repositioning/ResidualStructs.swift:55-82 | two positions are `==` exactly when their hash feeds (longitude, latitude, threshold raw, floor if present, status raw) are identical |
| Positions.HashFeedProperPrefix | com.statemachine.repositioning/ResidualStructs.swift:62-70 | one feed is a proper prefix of another exactly when the first has no floor, the second has one, coordinate and threshold agree, and the second's floor equals the first's status raw value |
| Repositioning.StatesEqual | com.statemachine.repositioning/RepositioningManager.swift:22-38 | the hand-written state `==` (same case, equal associated values, positions by their `==`) holds exactly when the two states are identical |
| Repositioning.TopicFor | com.statemachine.repositioning/RepositioningManager.swift:156 | the question asked is outdoor exactly when the GPS tier is good, indoor otherwise |
| Repositioning.Transition | com.statemachine.repositioning/RepositioningManager.swift:145-197 | the route mapping never yields `initial` or `aborted` |
| Repositioning.TransitionMatchesRules | com.statemachine.repositioning/RepositioningManager.swift:145-197 | the route mapping yields a next state exactly when a rule allows that step; a missing event is rejected in every state |
| Repositioning.RulesAreDeterministic | com.statemachine.repositioning/RepositioningManager.swift:150-194 | at most one next state is allowed for any event and state |
| Repositioning.StartFromInitial | com.statemachine.repositioning/RepositioningManager.swift:151-169 | from `initial`, a reposition start gives needAffine(manual) for inboxInside, needInfos(outdoor if GPS good else indoor) for inboxUnknown, final(userFixed) for outbox, and is rejected for inboxOutside; a routing start gives needInfos for inboxUnknown and final(userFixed) for the other three statuses |
| Repositioning.MoreInfosIgnoresStoredTopic | com.statemachine.repositioning/RepositioningManager.swift:171-181 | in needInfos the stored topic never matters; (indoor, yes) gives needAffine(manual), (indoor, no) gives final(inboxOutside, degraded), (outdoor, yes) gives final(inboxOutside, userFixed), (outdoor, no) gives needAffine(assisted) |
| Repositioning.LocationAffinedHoldsLatest | com.statemachine.repositioning/RepositioningManager.swift:184-187 | in needAffine or projected, a refined position q gives projected(q), whatever the mode |
| Repositioning.ConfirmUsesHeldPosition | com.statemachine.repositioning/RepositioningManager.swift:188-189 | confirming in projected(q) gives final(q, userFixed), whatever position the event carries |
| Repositioning.ForceOverridesEveryState | com.statemachine.repositioning/RepositioningManager.swift:190-191 | force(p) gives final(p, forced) in every state |
| Repositioning.Apply | com.statemachine.repositioning/RepositioningManager.swift:145-197 | one attempted event leaves the state unchanged when the route mapping rejects it, and moves to the mapping's next state when it accepts |
| Repositioning.TransitionPreservesConsistent | com.statemachine.repositioning/RepositioningManager.swift:150-194 | one attempted event keeps the reachable-state invariant: never aborted, and a pending question always concerns an inboxUnknown position and matches its GPS tier |
| Repositioning.RunPreservesConsistent | com.statemachine.repositioning/RepositioningManager.swift:150-194 | any sequence of events keeps that invariant |
| Repositioning.AbortedIsUnreachable | com.statemachine.repositioning/RepositioningManager.swift:13-19 | no sequence of events leads from `initial` to `aborted` |
| Repositioning.RepeatedRefinement | com.statemachine.repositioning/RepositioningManager.swift:184-187 | any non-empty series of refinements from needAffine or projected ends in projected, holding the last refined position |
| Repositioning.FinalIsAbsorbing | com.statemachine.repositioning/RepositioningManager.swift:150-194 | from a final state every run stays final, and a run without force leaves the state unchanged |
| Repositioning.Dispatch | com.statemachine.repositioning/RepositioningManager.swift:210-223 | an entered state produces a delegate call exactly when it is neither initial nor aborted |
| Repositioning.AcceptedTransitionNotifies | com.statemachine.repositioning/RepositioningManager.swift:202-225 | every accepted transition enters a state for which `Dispatch` selects a delegate call, so the handler always makes exactly one |
| Manager.RepositioningManager.constructor | com.statemachine.repositioning/RepositioningManager.swift:141-143 | a new manager is in `initial`, with no delegate and no calls made |
| Manager.RepositioningManager.SystemDelegate | com.statemachine.repositioning/RepositioningManager.swift:242-244 | the getter returns the delegate currently installed |
| Manager.RepositioningManager.SetSystemDelegateAsWritten | com.statemachine.repositioning/RepositioningManager.swift:245-247 | the setter as written keeps the delegate already installed and changes nothing else |
| Manager.RepositioningManager.SetSystemDelegate | com.statemachine.repositioning/RepositioningManager.swift:241-248 | the corrected setter installs the new delegate and changes nothing else |
| Manager.RepositioningManager.Send | com.statemachine.repositioning/RepositioningManager.swift:214-220 | a delegate call is appended to the log only when a delegate is installed |
| Manager.RepositioningManager.DidChangeState | com.statemachine.repositioning/RepositioningManager.swift:202-225 | the handler appends the call that `Dispatch` selects for the current state, and leaves state and delegate alone |
| Manager.RepositioningManager.TryEvent | com.statemachine.repositioning/RepositioningManager.swift:145-225 | an event is accepted exactly when the route mapping has a next state; then the state becomes that state and the log grows by its delegate call; a rejected event leaves state and log unchanged |
| Manager.RepositioningManager.UserAskFor | com.statemachine.repositioning/RepositioningManager.swift:250-252 | the entry point offers start(position, kind), with TryEvent's effect |
| Manager.RepositioningManager.UserRespondsToHelp | com.statemachine.repositioning/RepositioningManager.swift:254-256 | the entry point offers moreInfos(topic, decision), with TryEvent's effect |
| Manager.RepositioningManager.UserRespondsToRepositioning | com.statemachine.repositioning/RepositioningManager.swift:258-260 | the entry point offers locationAffined(mode, position), with TryEvent's effect |
| Manager.RepositioningManager.UserConfirms | com.statemachine.repositioning/RepositioningManager.swift:262-264 | the entry point offers confirm(position), with TryEvent's effect |
| Manager.RepositioningManager.Force | com.statemachine.repositioning/RepositioningManager.swift:190-191 | force, sent to the machine directly, always ends in final(p, forced) and notifies the routing precision |
| Scenarios.TestWellInitialized | com.statemachine.repositioningTests/com_statemachine_repositioningTests.swift:31-33 | a fresh manager is in `initial` |
| Scenarios.TestRepositioningWhenOutbox | com.statemachine.repositioningTests/com_statemachine_repositioningTests.swift:37-53 | repositioning from outbox finalises the position as userFixed |
| Scenarios.TestRepositioningWhenInboxOutside | com.statemachine.repositioningTests/com_statemachine_repositioningTests.swift:56-71 | repositioning from inboxOutside is rejected and the state stays `initial` |
| Scenarios.TestRepositioningWhenInboxUnknown | com.statemachine.repositioningTests/com_statemachine_repositioningTests.swift:73-105 | an unknown containment asks the outdoor question with good GPS and the indoor one with bad GPS |
| Scenarios.TestRepositioningWhenInboxInside | com.statemachine.repositioningTests/com_statemachine_repositioningTests.swift:107-122 | repositioning from inboxInside asks for a manual refinement |
| Scenarios.TestRoutingWhenOutbox | com.statemachine.repositioningTests/com_statemachine_repositioningTests.swift:128-145 | routing from outbox finalises the position as userFixed |
| Scenarios.TestRoutingWithGoodGpsThenReSend | com.statemachine.repositioningTests/com_statemachine_repositioningTests.swift:216-248 | outdoor question, answer no, assisted refinement, floor 1 projected, then floor 4 replaces it |
| Scenarios.TestRoutingWithGoodGpsThenConfirm | com.statemachine.repositioningTests/com_statemachine_repositioningTests.swift:250-279 | that session confirmed ends final(floor 1, userFixed); an installed delegate gets the four calls in order |
| Scenarios.TestRoutingWithGoodGpsThenSaysOutdoor | com.statemachine.repositioningTests/com_statemachine_repositioningTests.swift:281-300 | answering yes to the outdoor question ends final(inboxOutside, userFixed) |
| Scenarios.TestRoutingWithBadGpsThenConfirm | com.statemachine.repositioningTests/com_statemachine_repositioningTests.swift:345-378 | indoor question, answer yes, manual refinement with a new position, projected, confirmed final(userFixed) |
| Scenarios.TestRoutingWithBadGpsThenSaysOutdoor | com.statemachine.repositioningTests/com_statemachine_repositioningTests.swift:382-403 | answering no to the indoor question ends final(inboxOutside, degraded) |
| Scenarios.TestForceDuringRefinement | com.statemachine.repositioning/RepositioningManager.swift:190-191 | forcing while a refinement is pending finalises the forced position |
| Scenarios.TestSetterAsWrittenLosesDelegate | com.statemachine.repositioning/RepositioningManager.swift:241-248 | with the setter as written, no delegate is installed after setting one, and an accepted session makes no delegate call |
| Scenarios.TestSetterInstallsDelegate | com.statemachine.repositioning/RepositioningManager.swift:241-248 | with the corrected setter the delegate is installed and receives the session's notification |

## Findings

| source | as written | input that shows it | evidently intended | confidence | as-written member | corrected member |
|---|---|---|---|---|---|---|
| com.statemachine.repositioning/RepositioningManager.swift:245-247 | the `systemDelegate` setter assigns `systemDelegate`, which is the getter, so it stores the delegate already installed (initially none) and drops the new value | set `systemDelegate` to any delegate, then `userAskFor(routing, outbox position)`: the state becomes final but no delegate is ever called | store `newValue`, so the delegate receives the notifications | high (not executed) | Manager.RepositioningManager.SetSystemDelegateAsWritten, Scenarios.TestSetterAsWrittenLosesDelegate | Manager.RepositioningManager.SetSystemDelegate, Scenarios.TestSetterInstallsDelegate |

The rest of the model, including the scenario with four delegate calls, uses the
corrected setter.

## Left out

- Logging (`Loggable.swift`) is left out. It only prints, and its `details` formats a floating-point time interval.
- The protocol declarations (`RepositioningProtocols.swift`) are left out. They hold no logic; the internal delegate is represented by the `calls` log.
- The state-machine library's internals (route registration, handler registration, its event matching) are not shown, so they are left out. `TryEvent` is modelled as: compute the transition; if there is one, commit it, then run the handler. Nothing more is claimed about the library's ordering.
- The route mapping's `userInfo` argument is left out. The mapping never reads it.
- The event type's `==`, which always returns true, is left out. It only serves the library's matching; the model uses structural equality for events.
- The hashing of states and events, `description`, `debugDescription` and the `print` calls are left out. They are diagnostics only.
- Only the value sequence of `UserPosition`'s hash is modelled. The hasher's mixing and final value are left out.
- The static `instance` singleton, the `weak` delegate reference and the `[weak self]` capture are left out. They concern object lifetime. A delegate that has been deallocated is not modelled separately from an absent one.
- Coordinate numerics are left out. Coordinate components are an opaque equality type, so NaN (never equal to itself) and the equality of +0 and -0 are not modelled.
- The raw values of the repositioning-mode, routing-precision, help-topic and request-kind enums are left out. The core never reads them.
- A delegate that calls back into the manager during its notification is not modelled. The `calls` log records calls; the delegate's own behaviour is left out.
- The test harness itself is left out. Its sessions are the methods in `Scenarios`.
