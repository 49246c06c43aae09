/** The repositioning manager: it owns the machine's single current state, turns
    each user entry point into an event, commits accepted transitions and then
    makes the one delegate call the entered state asks for. */
module Manager {
  import opened Wrappers
  import opened Positions
  import opened Repositioning

  /** Identity of the object installed as delegate. */
  type DelegateId = nat

  /** One delegate method call, with the delegate it reached. */
  datatype Call = Call(delegate: DelegateId, notification: Notification)

  /** The calls actually made: optional chaining drops the call when there is no
      delegate or nothing to notify. */
  function Delivered(delegate: Option<DelegateId>, note: Option<Notification>): seq<Call>
  {
    if delegate.Some? && note.Some? then [Call(delegate.value, note.value)] else []
  }

  class RepositioningManager {
    var state: State
    var delegate: Option<DelegateId>
    /** Every delegate call made so far, oldest first. */
    var calls: seq<Call>

    /** Only states reachable from Initial occur. */
    ghost predicate Valid()
      reads this
    {
      Consistent(state)
    }

    constructor ()
      ensures Valid()
      ensures state == Initial && delegate == None && calls == []
    {
      state := Initial;
      delegate := None;
      calls := [];
    }

    /** The getter: the delegate currently installed, if any. */
    function SystemDelegate(): (r: Option<DelegateId>)
      reads this
      ensures r == delegate
    {
      delegate
    }

    /** The setter as written: it stores what the getter returns, which is the
        delegate already installed, and discards the new value. */
    method SetSystemDelegateAsWritten(newValue: Option<DelegateId>)
      modifies this
      ensures state == old(state) && calls == old(calls)
      ensures delegate == old(delegate)
    {
      delegate := SystemDelegate();
    }

    /** The setter as evidently intended: it installs the new value. */
    method SetSystemDelegate(newValue: Option<DelegateId>)
      modifies this
      ensures state == old(state) && calls == old(calls)
      ensures delegate == newValue
    {
      delegate := newValue;
    }

    /** The delegate call made through optional chaining, if a delegate is installed. */
    method Send(note: Notification)
      modifies this
      ensures state == old(state) && delegate == old(delegate)
      ensures calls == old(calls) + Delivered(delegate, Some(note))
    {
      if delegate.Some? {
        calls := calls + [Call(delegate.value, note)];
      }
    }

    /** The handler run after every accepted transition, chosen by the entered state. */
    method DidChangeState()
      modifies this
      ensures state == old(state) && delegate == old(delegate)
      ensures calls == old(calls) + Delivered(delegate, Dispatch(state))
    {
      match state
      case Initial =>
      case NeedInfos(topic, _) => Send(AskForHelp(topic));
      case NeedAffine(mode, p) => Send(AskForRepositioning(mode, p));
      case Projected(p) => Send(NotifyUserPosition(p));
      case Final(p, precision) => Send(NotifyRoutingPrecision(precision, p));
      case Aborted =>
    }

    /** Offers an event to the machine: an accepted event replaces the state and
        then runs the handler; a rejected one changes nothing and calls nobody. */
    method TryEvent(given: Option<Event>) returns (accepted: bool)
      requires Valid()
      modifies this
      ensures Valid()
      ensures accepted <==> Transition(given, old(state)).Some?
      ensures state == Apply(old(state), given)
      ensures delegate == old(delegate)
      ensures calls == old(calls) + (if accepted then Delivered(delegate, Dispatch(state)) else [])
    {
      TransitionPreservesConsistent(given, state);
      var next := Transition(given, state);
      if next.Some? {
        state := next.value;
        DidChangeState();
        accepted := true;
      } else {
        accepted := false;
      }
    }

    method UserAskFor(kind: RequestKind, p: UserPosition)
      requires Valid()
      modifies this
      ensures Valid()
      ensures state == Apply(old(state), Some(Start(p, kind))) && delegate == old(delegate)
      ensures calls == old(calls) + (if Transition(Some(Start(p, kind)), old(state)).Some?
                                     then Delivered(delegate, Dispatch(state)) else [])
    {
      var _ := TryEvent(Some(Start(p, kind)));
    }

    method UserRespondsToHelp(topic: HelpTopic, decision: bool)
      requires Valid()
      modifies this
      ensures Valid()
      ensures state == Apply(old(state), Some(MoreInfos(topic, decision))) && delegate == old(delegate)
      ensures calls == old(calls) + (if Transition(Some(MoreInfos(topic, decision)), old(state)).Some?
                                     then Delivered(delegate, Dispatch(state)) else [])
    {
      var _ := TryEvent(Some(MoreInfos(topic, decision)));
    }

    method UserRespondsToRepositioning(mode: RepositioningMode, corrected: UserPosition)
      requires Valid()
      modifies this
      ensures Valid()
      ensures state == Apply(old(state), Some(LocationAffined(mode, corrected))) && delegate == old(delegate)
      ensures calls == old(calls) + (if Transition(Some(LocationAffined(mode, corrected)), old(state)).Some?
                                     then Delivered(delegate, Dispatch(state)) else [])
    {
      var _ := TryEvent(Some(LocationAffined(mode, corrected)));
    }

    method UserConfirms(p: UserPosition)
      requires Valid()
      modifies this
      ensures Valid()
      ensures state == Apply(old(state), Some(Confirm(p))) && delegate == old(delegate)
      ensures calls == old(calls) + (if Transition(Some(Confirm(p)), old(state)).Some?
                                     then Delivered(delegate, Dispatch(state)) else [])
    {
      var _ := TryEvent(Some(Confirm(p)));
    }

    /** Sends `force` to the machine directly; no user entry point does. It is
        accepted in every state. */
    method Force(p: UserPosition)
      requires Valid()
      modifies this
      ensures Valid()
      ensures state == Final(p, Forced) && delegate == old(delegate)
      ensures calls == old(calls) + Delivered(delegate, Some(NotifyRoutingPrecision(Forced, p)))
    {
      var _ := TryEvent(Some(Event.Force(p)));
    }
  }
}
