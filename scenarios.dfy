/** The engine's unit-test scenarios, replayed against the manager's contracts. Each
    method builds a fresh manager, drives it through the entry points and returns
    the states the tests inspect; the tests' fixed coordinates become parameters. */
module Scenarios {
  import opened Wrappers
  import opened Positions
  import opened Repositioning
  import opened Manager

  method TestWellInitialized() returns (s: State)
    ensures s == Initial
  {
    var m := new RepositioningManager();
    s := m.state;
  }

  method TestRepositioningWhenOutbox(c: Coordinate) returns (s: State)
    ensures s == Final(UserPosition(c, Good, None, Outbox), UserFixed)
  {
    var m := new RepositioningManager();
    m.UserAskFor(Reposition, UserPosition(c, Good, None, Outbox));
    s := m.state;
  }

  /** The only start that is rejected: the state stays Initial. */
  method TestRepositioningWhenInboxOutside(c: Coordinate) returns (s: State)
    ensures s == Initial
  {
    var m := new RepositioningManager();
    m.UserAskFor(Reposition, UserPosition(c, Good, None, InboxOutside));
    s := m.state;
  }

  method TestRepositioningWhenInboxUnknown(c: Coordinate) returns (withGoodGps: State, withBadGps: State)
    ensures withGoodGps == NeedInfos(Outdoor, UserPosition(c, Good, None, InboxUnknown))
    ensures withBadGps == NeedInfos(Indoor, UserPosition(c, Bad, None, InboxUnknown))
  {
    var m := new RepositioningManager();
    m.UserAskFor(Reposition, UserPosition(c, Good, None, InboxUnknown));
    withGoodGps := m.state;
    m := new RepositioningManager();
    m.UserAskFor(Reposition, UserPosition(c, Bad, None, InboxUnknown));
    withBadGps := m.state;
  }

  method TestRepositioningWhenInboxInside(c: Coordinate) returns (s: State)
    ensures s == NeedAffine(Manual, UserPosition(c, Bad, None, InboxInside))
  {
    var m := new RepositioningManager();
    m.UserAskFor(Reposition, UserPosition(c, Bad, None, InboxInside));
    s := m.state;
  }

  method TestRoutingWhenOutbox(c: Coordinate) returns (s: State)
    ensures s == Final(UserPosition(c, Good, None, Outbox), UserFixed)
  {
    var m := new RepositioningManager();
    m.UserAskFor(Routing, UserPosition(c, Good, None, Outbox));
    s := m.state;
  }

  /** Good GPS inside the zone, the user answers "no" to the outdoor question,
      sends a floor, then corrects it: the latest floor is held. */
  method TestRoutingWithGoodGpsThenReSend(c: Coordinate)
    returns (asked: State, affine: State, projected: State, reprojected: State)
    ensures asked == NeedInfos(Outdoor, UserPosition(c, Good, None, InboxUnknown))
    ensures affine == NeedAffine(Assisted, UserPosition(c, Good, None, InboxUnknown))
    ensures projected == Projected(UserPosition(c, Good, Some(1), InboxUnknown))
    ensures reprojected == Projected(UserPosition(c, Good, Some(4), InboxUnknown))
  {
    var p := UserPosition(c, Good, None, InboxUnknown);
    var m := new RepositioningManager();
    m.UserAskFor(Routing, p);
    asked := m.state;
    m.UserRespondsToHelp(Outdoor, false);
    affine := m.state;
    var first := WithFloor(p, 1);
    m.UserRespondsToRepositioning(Assisted, first);
    projected := m.state;
    m.UserRespondsToRepositioning(Assisted, WithFloor(first, 4));
    reprojected := m.state;
  }

  /** The same session ending in a confirmation, with a delegate installed: the
      delegate receives the four calls of the session, one per accepted event. */
  method TestRoutingWithGoodGpsThenConfirm(c: Coordinate, d: DelegateId)
    returns (final: State, calls: seq<Call>)
    ensures final == Final(UserPosition(c, Good, Some(1), InboxUnknown), UserFixed)
    ensures calls == [
      Call(d, AskForHelp(Outdoor)),
      Call(d, AskForRepositioning(Assisted, UserPosition(c, Good, None, InboxUnknown))),
      Call(d, NotifyUserPosition(UserPosition(c, Good, Some(1), InboxUnknown))),
      Call(d, NotifyRoutingPrecision(UserFixed, UserPosition(c, Good, Some(1), InboxUnknown)))]
  {
    var p := UserPosition(c, Good, None, InboxUnknown);
    var m := new RepositioningManager();
    m.SetSystemDelegate(Some(d));
    m.UserAskFor(Routing, p);
    m.UserRespondsToHelp(Outdoor, false);
    var first := WithFloor(p, 1);
    m.UserRespondsToRepositioning(Assisted, first);
    m.UserConfirms(first);
    final, calls := m.state, m.calls;
  }

  method TestRoutingWithGoodGpsThenSaysOutdoor(c: Coordinate) returns (s: State)
    ensures s == Final(UserPosition(c, Good, None, InboxOutside), UserFixed)
  {
    var p := UserPosition(c, Good, None, InboxUnknown);
    var m := new RepositioningManager();
    m.UserAskFor(Routing, p);
    m.UserRespondsToHelp(Outdoor, true);
    s := m.state;
  }

  /** Bad GPS inside the zone, the user says "indoor", supplies a whole new position
      and confirms it. */
  method TestRoutingWithBadGpsThenConfirm(c: Coordinate, manual: Coordinate)
    returns (asked: State, affine: State, projected: State, final: State)
    ensures asked == NeedInfos(Indoor, UserPosition(c, Bad, None, InboxUnknown))
    ensures affine == NeedAffine(Manual, UserPosition(c, Bad, None, InboxUnknown))
    ensures projected == Projected(UserPosition(manual, Good, Some(0), InboxInside))
    ensures final == Final(UserPosition(manual, Good, Some(0), InboxInside), UserFixed)
  {
    var m := new RepositioningManager();
    m.UserAskFor(Routing, UserPosition(c, Bad, None, InboxUnknown));
    asked := m.state;
    m.UserRespondsToHelp(Indoor, true);
    affine := m.state;
    var corrected := UserPosition(manual, Good, Some(0), InboxInside);
    m.UserRespondsToRepositioning(Manual, corrected);
    projected := m.state;
    m.UserConfirms(corrected);
    final := m.state;
  }

  /** Answering "not indoor" to the indoor question finalises at once, degraded. */
  method TestRoutingWithBadGpsThenSaysOutdoor(c: Coordinate) returns (s: State)
    ensures s == Final(UserPosition(c, Bad, None, InboxOutside), Degraded)
  {
    var m := new RepositioningManager();
    m.UserAskFor(Routing, UserPosition(c, Bad, None, InboxUnknown));
    m.UserRespondsToHelp(Indoor, false);
    s := m.state;
  }

  /** Forcing mid-session finalises the forced position, whatever the state held. */
  method TestForceDuringRefinement(c: Coordinate, forced: UserPosition) returns (s: State)
    ensures s == Final(forced, Forced)
  {
    var m := new RepositioningManager();
    m.UserAskFor(Reposition, UserPosition(c, Bad, None, InboxInside));
    m.Force(forced);
    s := m.state;
  }

  /** With the setter as written, setting a delegate leaves none installed, so a
      whole accepted session reaches no delegate at all. */
  method TestSetterAsWrittenLosesDelegate(c: Coordinate, d: DelegateId)
    returns (installed: Option<DelegateId>, final: State, calls: seq<Call>)
    ensures installed == None
    ensures final == Final(UserPosition(c, Good, None, Outbox), UserFixed)
    ensures calls == []
  {
    var m := new RepositioningManager();
    m.SetSystemDelegateAsWritten(Some(d));
    installed := m.SystemDelegate();
    m.UserAskFor(Routing, UserPosition(c, Good, None, Outbox));
    final, calls := m.state, m.calls;
  }

  /** With the corrected setter the same session reaches the delegate once. */
  method TestSetterInstallsDelegate(c: Coordinate, d: DelegateId)
    returns (installed: Option<DelegateId>, calls: seq<Call>)
    ensures installed == Some(d)
    ensures calls == [Call(d, NotifyRoutingPrecision(UserFixed, UserPosition(c, Good, None, Outbox)))]
  {
    var m := new RepositioningManager();
    m.SetSystemDelegate(Some(d));
    installed := m.SystemDelegate();
    m.UserAskFor(Routing, UserPosition(c, Good, None, Outbox));
    calls := m.calls;
  }
}
