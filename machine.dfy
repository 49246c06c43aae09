/** The repositioning state machine: the states, the events, the route mapping that
    decides the next state, the delegate call each entered state triggers, and the
    properties of runs of the machine. */
module Repositioning {
  import opened Wrappers
  import opened Positions

  datatype State =
    | Initial
    | NeedInfos(topic: HelpTopic, position: UserPosition)
    | NeedAffine(mode: RepositioningMode, position: UserPosition)
    | Projected(position: UserPosition)
    | Final(position: UserPosition, precision: RoutingPrecision)
    | Aborted

  datatype Event =
    | Start(position: UserPosition, kind: RequestKind)
    | MoreInfos(topic: HelpTopic, decision: bool)
    | LocationAffined(mode: RepositioningMode, position: UserPosition)
    | Confirm(position: UserPosition)
    | Force(position: UserPosition)

  /** The hand-written state `==`: same case and equal associated values, positions
      compared by their own `==`; any two different cases are unequal. */
  predicate StatesEqual(a: State, b: State)
    ensures StatesEqual(a, b) <==> a == b
  {
    match (a, b)
    case (Initial, Initial) => true
    case (Aborted, Aborted) => true
    case (NeedInfos(t1, p1), NeedInfos(t2, p2)) => t1 == t2 && PositionsEqual(p1, p2)
    case (NeedAffine(m1, p1), NeedAffine(m2, p2)) => m1 == m2 && PositionsEqual(p1, p2)
    case (Projected(p1), Projected(p2)) => PositionsEqual(p1, p2)
    case (Final(p1, c1), Final(p2, c2)) => c1 == c2 && PositionsEqual(p1, p2)
    case _ => false
  }

  /** The question asked about an uncertain position: good GPS suggests the user is
      outdoors, bad GPS that they are indoors. */
  function TopicFor(t: Threshold): (r: HelpTopic)
    ensures r == Outdoor <==> t == Good
  {
    if t == Good then Outdoor else Indoor
  }

  /** The route mapping: the next state for an event in a state, or None when the
      event is rejected there. A missing event is always rejected. Arms are tried
      in order; only `Force` matches in every state. */
  function Transition(given: Option<Event>, previous: State): (r: Option<State>)
    ensures r != Some(Initial) && r != Some(Aborted)
  {
    match given
    case None => None
    case Some(event) =>
      match (event, previous)
      case (Start(p, kind), Initial) =>
        (match (kind, p.positionStatus)
         case (Reposition, InboxInside) => Some(NeedAffine(Manual, p))
         case (Reposition, InboxUnknown) => Some(NeedInfos(TopicFor(p.threshold), p))
         case (Reposition, Outbox) => Some(Final(p, UserFixed))
         case (Reposition, InboxOutside) => None
         case (Routing, Outbox) => Some(Final(p, UserFixed))
         case (Routing, InboxInside) => Some(Final(p, UserFixed))
         case (Routing, InboxOutside) => Some(Final(p, UserFixed))
         case (Routing, InboxUnknown) => Some(NeedInfos(TopicFor(p.threshold), p)))
      case (MoreInfos(topic, decision), NeedInfos(_, p)) =>
        (match (topic, decision)
         case (Indoor, true) => Some(NeedAffine(Manual, p))
         case (Indoor, false) => Some(Final(WithPositionStatus(p, InboxOutside), Degraded))
         case (Outdoor, true) => Some(Final(WithPositionStatus(p, InboxOutside), UserFixed))
         case (Outdoor, false) => Some(NeedAffine(Assisted, p)))
      case (LocationAffined(_, q), NeedAffine(_, _)) => Some(Projected(Project(q)))
      case (LocationAffined(_, q), Projected(_)) => Some(Projected(Project(q)))
      case (Confirm(_), Projected(p)) => Some(Final(p, UserFixed))
      case (Force(p), _) => Some(Final(p, Forced))
      case _ => None
  }

  // An independent statement of the rules, one disjunct per rule, the global
  // override first.

  ghost predicate StartRule(p: UserPosition, kind: RequestKind, next: State)
  {
    || (p.positionStatus == Outbox && next == Final(p, UserFixed))
    || (p.positionStatus == InboxUnknown && next == NeedInfos(TopicFor(p.threshold), p))
    || (kind == Reposition && p.positionStatus == InboxInside && next == NeedAffine(Manual, p))
    || (kind == Routing && p.positionStatus == InboxInside && next == Final(p, UserFixed))
    || (kind == Routing && p.positionStatus == InboxOutside && next == Final(p, UserFixed))
  }

  ghost predicate MoreInfosRule(topic: HelpTopic, decision: bool, p: UserPosition, next: State)
  {
    if decision then
      next == (if topic == Indoor then NeedAffine(Manual, p)
               else Final(WithPositionStatus(p, InboxOutside), UserFixed))
    else
      next == (if topic == Indoor then Final(WithPositionStatus(p, InboxOutside), Degraded)
               else NeedAffine(Assisted, p))
  }

  ghost predicate Rule(event: Event, current: State, next: State)
  {
    || (event.Force? && next == Final(event.position, Forced))
    || (event.Start? && current.Initial? && StartRule(event.position, event.kind, next))
    || (event.MoreInfos? && current.NeedInfos?
        && MoreInfosRule(event.topic, event.decision, current.position, next))
    || (event.LocationAffined? && (current.NeedAffine? || current.Projected?)
        && next == Projected(event.position))
    || (event.Confirm? && current.Projected? && next == Final(current.position, UserFixed))
  }

  /** The route mapping accepts exactly the steps the rules allow, and rejects a
      missing event in every state. */
  lemma TransitionMatchesRules(event: Event, current: State, next: State)
    ensures Transition(Some(event), current) == Some(next) <==> Rule(event, current, next)
    ensures Transition(None, current) == None
  {
  }

  /** At most one rule applies to any event and state. */
  lemma RulesAreDeterministic(event: Event, current: State, next1: State, next2: State)
    requires Rule(event, current, next1) && Rule(event, current, next2)
    ensures next1 == next2
  {
    TransitionMatchesRules(event, current, next1);
    TransitionMatchesRules(event, current, next2);
  }

  // The individual rules, as the engine's tests exercise them.

  lemma StartFromInitial(p: UserPosition)
    ensures p.positionStatus == InboxInside ==>
      Transition(Some(Start(p, Reposition)), Initial) == Some(NeedAffine(Manual, p))
    ensures p.positionStatus == InboxUnknown ==>
      && Transition(Some(Start(p, Reposition)), Initial) == Some(NeedInfos(TopicFor(p.threshold), p))
      && Transition(Some(Start(p, Routing)), Initial) == Some(NeedInfos(TopicFor(p.threshold), p))
    ensures p.positionStatus == Outbox ==>
      Transition(Some(Start(p, Reposition)), Initial) == Some(Final(p, UserFixed))
    ensures p.positionStatus == InboxOutside ==>
      Transition(Some(Start(p, Reposition)), Initial) == None
    ensures p.positionStatus != InboxUnknown ==>
      Transition(Some(Start(p, Routing)), Initial) == Some(Final(p, UserFixed))
  {
  }

  /** The answer alone decides: the topic stored in the state is never compared
      with the topic of the answer. */
  lemma MoreInfosIgnoresStoredTopic(topic: HelpTopic, decision: bool, stored: HelpTopic, p: UserPosition)
    ensures Transition(Some(MoreInfos(topic, decision)), NeedInfos(stored, p))
         == Transition(Some(MoreInfos(topic, decision)), NeedInfos(TopicFor(p.threshold), p))
    ensures Transition(Some(MoreInfos(Indoor, true)), NeedInfos(stored, p)) == Some(NeedAffine(Manual, p))
    ensures Transition(Some(MoreInfos(Indoor, false)), NeedInfos(stored, p))
         == Some(Final(WithPositionStatus(p, InboxOutside), Degraded))
    ensures Transition(Some(MoreInfos(Outdoor, true)), NeedInfos(stored, p))
         == Some(Final(WithPositionStatus(p, InboxOutside), UserFixed))
    ensures Transition(Some(MoreInfos(Outdoor, false)), NeedInfos(stored, p)) == Some(NeedAffine(Assisted, p))
  {
  }

  /** A refined position replaces whatever the state held; the mode is ignored. */
  lemma LocationAffinedHoldsLatest(mode: RepositioningMode, q: UserPosition, current: State)
    requires current.NeedAffine? || current.Projected?
    ensures Transition(Some(LocationAffined(mode, q)), current) == Some(Projected(q))
  {
  }

  /** Confirming finalises the position held by the state, not the event's. */
  lemma ConfirmUsesHeldPosition(held: UserPosition, confirmed: UserPosition)
    ensures Transition(Some(Confirm(confirmed)), Projected(held)) == Some(Final(held, UserFixed))
  {
  }

  lemma ForceOverridesEveryState(p: UserPosition, current: State)
    ensures Transition(Some(Force(p)), current) == Some(Final(p, Forced))
  {
  }

  // Runs: what the engine does with a sequence of events.

  /** One attempted event: the next state when it is accepted, the same state when
      it is rejected. */
  function Apply(current: State, given: Option<Event>): (r: State)
    ensures Transition(given, current).None? ==> r == current
    ensures Transition(given, current).Some? ==> Transition(given, current) == Some(r)
  {
    match Transition(given, current)
    case Some(next) => next
    case None => current
  }

  function Run(current: State, events: seq<Event>): State
    decreases |events|
  {
    if events == [] then current else Run(Apply(current, Some(events[0])), events[1..])
  }

  /** What every state reachable from Initial satisfies: a pending question always
      concerns an uncertain position and matches its GPS quality, and the
      engine is never Aborted. */
  ghost predicate Consistent(s: State)
  {
    && !s.Aborted?
    && (s.NeedInfos? ==>
          s.position.positionStatus == InboxUnknown && s.topic == TopicFor(s.position.threshold))
  }

  lemma TransitionPreservesConsistent(given: Option<Event>, current: State)
    requires Consistent(current)
    ensures Consistent(Apply(current, given))
  {
  }

  lemma {:induction false} RunPreservesConsistent(current: State, events: seq<Event>)
    requires Consistent(current)
    ensures Consistent(Run(current, events))
    decreases |events|
  {
    if events != [] {
      TransitionPreservesConsistent(Some(events[0]), current);
      RunPreservesConsistent(Apply(current, Some(events[0])), events[1..]);
    }
  }

  /** No sequence of events leads from Initial to Aborted. */
  lemma AbortedIsUnreachable(events: seq<Event>)
    ensures Run(Initial, events) != Aborted
    ensures Consistent(Run(Initial, events))
  {
    RunPreservesConsistent(Initial, events);
  }

  /** Refinement is re-entrant: any non-empty series of refinements from NeedAffine
      or Projected ends in Projected holding the last refined position. */
  lemma {:induction false} RepeatedRefinement(current: State, events: seq<Event>)
    requires current.NeedAffine? || current.Projected?
    requires events != []
    requires forall i :: 0 <= i < |events| ==> events[i].LocationAffined?
    ensures Run(current, events) == Projected(events[|events| - 1].position)
    decreases |events|
  {
    LocationAffinedHoldsLatest(events[0].mode, events[0].position, current);
    if |events| > 1 {
      assert forall i :: 0 <= i < |events[1..]| ==> events[1..][i] == events[i + 1];
      RepeatedRefinement(Apply(current, Some(events[0])), events[1..]);
    }
  }

  /** A final state is left only through Force, and even then into another final
      state. */
  lemma {:induction false} FinalIsAbsorbing(current: State, events: seq<Event>)
    requires current.Final?
    ensures Run(current, events).Final?
    ensures (forall i :: 0 <= i < |events| ==> !events[i].Force?) ==> Run(current, events) == current
    decreases |events|
  {
    if events != [] {
      assert forall i :: 0 <= i < |events[1..]| ==> events[1..][i] == events[i + 1];
      FinalIsAbsorbing(Apply(current, Some(events[0])), events[1..]);
    }
  }

  // Notification dispatch.

  /** The delegate calls the engine makes, one per kind of delegate method. */
  datatype Notification =
    | AskForHelp(topic: HelpTopic)
    | AskForRepositioning(mode: RepositioningMode, position: UserPosition)
    | NotifyUserPosition(position: UserPosition)
    | NotifyRoutingPrecision(precision: RoutingPrecision, position: UserPosition)

  /** The delegate call for a freshly entered state; Initial and Aborted make none. */
  function Dispatch(entered: State): (r: Option<Notification>)
    ensures r.None? <==> entered.Initial? || entered.Aborted?
  {
    match entered
    case Initial => None
    case NeedInfos(topic, _) => Some(AskForHelp(topic))
    case NeedAffine(mode, p) => Some(AskForRepositioning(mode, p))
    case Projected(p) => Some(NotifyUserPosition(p))
    case Final(p, precision) => Some(NotifyRoutingPrecision(precision, p))
    case Aborted => None
  }

  /** Every accepted transition enters a state that makes exactly one delegate call,
      the one `Dispatch` selects. */
  lemma AcceptedTransitionNotifies(given: Option<Event>, current: State)
    requires Transition(given, current).Some?
    ensures Dispatch(Transition(given, current).value).Some?
  {
  }
}
