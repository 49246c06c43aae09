/** The position value the repositioning engine works on: an immutable snapshot of
    where the user is estimated to be, with copy-with-one-field-changed helpers,
    structural equality and the sequence of values its hash combines. */
module Positions {
  import opened Wrappers

  /** One component of a geographic coordinate. The source holds a double; here it
      is an opaque type with equality only. */
  type Degrees(==)

  datatype Coordinate = Coordinate(latitude: Degrees, longitude: Degrees)

  /** GPS quality tier; the raw values follow declaration order. */
  datatype Threshold = Good | Bad

  /** Containment of the estimate with respect to the zone of interest. */
  datatype PositionStatus = Outbox | InboxUnknown | InboxOutside | InboxInside

  /** How the user must reposition: Assisted supplies only the floor, Manual the
      whole position. */
  datatype RepositioningMode = Assisted | Manual

  /** How far a final position can be trusted for routing. */
  datatype RoutingPrecision = UserFixed | Degraded | Forced

  /** Which clarifying question the user is asked. */
  datatype HelpTopic = Indoor | Outdoor

  /** The two ways a session starts. */
  datatype RequestKind = Reposition | Routing

  datatype UserPosition = UserPosition(
    coordinate: Coordinate,
    threshold: Threshold,
    floor: Option<int>,
    positionStatus: PositionStatus)

  // Raw values of the integer-backed enums and their failable initialisers.

  function ThresholdRawValue(t: Threshold): (r: nat)
    ensures r < 2
  {
    match t
    case Good => 0
    case Bad => 1
  }

  /** Swift's `init?(rawValue:)`: defined exactly on the declared raw values. */
  function ThresholdFromRawValue(n: int): (r: Option<Threshold>)
    ensures r.Some? <==> 0 <= n < 2
    ensures r.Some? ==> ThresholdRawValue(r.value) == n
  {
    if n == 0 then Some(Good)
    else if n == 1 then Some(Bad)
    else None
  }

  function PositionStatusRawValue(s: PositionStatus): (r: nat)
    ensures r < 4
  {
    match s
    case Outbox => 0
    case InboxUnknown => 1
    case InboxOutside => 2
    case InboxInside => 3
  }

  function PositionStatusFromRawValue(n: int): (r: Option<PositionStatus>)
    ensures r.Some? <==> 0 <= n < 4
    ensures r.Some? ==> PositionStatusRawValue(r.value) == n
  {
    if n == 0 then Some(Outbox)
    else if n == 1 then Some(InboxUnknown)
    else if n == 2 then Some(InboxOutside)
    else if n == 3 then Some(InboxInside)
    else None
  }

  /** The raw values follow declaration order, starting at 0. */
  lemma RawValuesFollowDeclarationOrder()
    ensures ThresholdRawValue(Good) == 0 && ThresholdRawValue(Bad) == 1
    ensures PositionStatusRawValue(Outbox) == 0 && PositionStatusRawValue(InboxUnknown) == 1
    ensures PositionStatusRawValue(InboxOutside) == 2 && PositionStatusRawValue(InboxInside) == 3
  {
  }

  /** Converting an enum to its raw value and back gives the enum again, so two
      cases never share a raw value. */
  lemma RawValueRoundTrip(t: Threshold, s: PositionStatus)
    ensures ThresholdFromRawValue(ThresholdRawValue(t)) == Some(t)
    ensures PositionStatusFromRawValue(PositionStatusRawValue(s)) == Some(s)
  {
  }

  // Copying with one field replaced.

  function WithPositionStatus(p: UserPosition, status: PositionStatus): (r: UserPosition)
    ensures r.positionStatus == status
    ensures r.coordinate == p.coordinate && r.threshold == p.threshold && r.floor == p.floor
  {
    UserPosition(p.coordinate, p.threshold, p.floor, status)
  }

  function WithFloor(p: UserPosition, floor: int): (r: UserPosition)
    ensures r.floor == Some(floor)
    ensures r.coordinate == p.coordinate && r.threshold == p.threshold
    ensures r.positionStatus == p.positionStatus
  {
    UserPosition(p.coordinate, p.threshold, Some(floor), p.positionStatus)
  }

  /** Replacing a field twice keeps only the last value, and the two copy helpers
      commute. */
  lemma WithLastValueWins(p: UserPosition, s1: PositionStatus, s2: PositionStatus, f1: int, f2: int)
    ensures WithPositionStatus(WithPositionStatus(p, s1), s2) == WithPositionStatus(p, s2)
    ensures WithFloor(WithFloor(p, f1), f2) == WithFloor(p, f2)
    ensures WithFloor(WithPositionStatus(p, s1), f1) == WithPositionStatus(WithFloor(p, f1), s1)
  {
  }

  /** The projection hook applied to a refined position: for now the identity. */
  function Project(p: UserPosition): (r: UserPosition)
    ensures r == p
  {
    p
  }

  // Equality, as the source's `==` operators define it.

  /** The coordinate `==` compares latitude and longitude, so it is structural. */
  predicate CoordinatesEqual(a: Coordinate, b: Coordinate)
    ensures CoordinatesEqual(a, b) <==> a == b
  {
    a.latitude == b.latitude && a.longitude == b.longitude
  }

  /** The hand-written `==` is exactly structural equality over all four fields. */
  predicate PositionsEqual(a: UserPosition, b: UserPosition)
    ensures PositionsEqual(a, b) <==> a == b
  {
    && CoordinatesEqual(a.coordinate, b.coordinate)
    && a.threshold == b.threshold
    && a.positionStatus == b.positionStatus
    && a.floor == b.floor
  }

  // Hash feed: the values `hash(into:)` combines, in order.

  datatype HashWord = DegreesWord(degrees: Degrees) | IntWord(n: int)

  /** Longitude first, then latitude. */
  function CoordinateHashFeed(c: Coordinate): seq<HashWord>
  {
    [DegreesWord(c.longitude), DegreesWord(c.latitude)]
  }

  /** Two coordinates are fed alike exactly when they are `==`. */
  lemma CoordinateHashFeedAgreesWithEquality(c: Coordinate, d: Coordinate)
    ensures CoordinatesEqual(c, d) <==> CoordinateHashFeed(c) == CoordinateHashFeed(d)
  {
    if CoordinateHashFeed(c) == CoordinateHashFeed(d) {
      assert CoordinateHashFeed(c)[0] == CoordinateHashFeed(d)[0];
      assert CoordinateHashFeed(c)[1] == CoordinateHashFeed(d)[1];
    }
  }

  /** Longitude, latitude, threshold raw value, the floor only when present, and the
      status raw value: a feed without a floor is one value shorter than one with a
      floor. */
  function HashFeed(p: UserPosition): (r: seq<HashWord>)
    ensures |r| == if p.floor.Some? then 5 else 4
    ensures r[..2] == CoordinateHashFeed(p.coordinate)
  {
    CoordinateHashFeed(p.coordinate)
    + [IntWord(ThresholdRawValue(p.threshold))]
    + (if p.floor.Some? then [IntWord(p.floor.value)] else [])
    + [IntWord(PositionStatusRawValue(p.positionStatus))]
  }

  /** Hashing agrees with `==`: equal positions give identical feeds, and identical
      feeds only come from equal positions. */
  lemma HashFeedAgreesWithEquality(a: UserPosition, b: UserPosition)
    ensures PositionsEqual(a, b) <==> HashFeed(a) == HashFeed(b)
  {
    if HashFeed(a) == HashFeed(b) {
      var fa, fb := HashFeed(a), HashFeed(b);
      assert a.coordinate.longitude == fa[0].degrees;
      assert a.coordinate.latitude == fa[1].degrees;
      assert ThresholdFromRawValue(fa[2].n) == Some(a.threshold) by { RawValueRoundTrip(a.threshold, a.positionStatus); }
      assert ThresholdFromRawValue(fb[2].n) == Some(b.threshold) by { RawValueRoundTrip(b.threshold, b.positionStatus); }
      assert PositionStatusFromRawValue(fa[|fa| - 1].n) == Some(a.positionStatus) by { RawValueRoundTrip(a.threshold, a.positionStatus); }
      assert PositionStatusFromRawValue(fb[|fb| - 1].n) == Some(b.positionStatus) by { RawValueRoundTrip(b.threshold, b.positionStatus); }
      if a.floor.Some? {
        assert fa[3] == IntWord(a.floor.value);
      }
    }
  }

  /** Because the floor is fed only when present, the feeds are not prefix-free: a
      floorless feed is a proper prefix of another position's feed exactly when the
      other has the same coordinate and threshold and a floor equal to the first
      one's status raw value. */
  lemma HashFeedProperPrefix(a: UserPosition, b: UserPosition)
    ensures (|HashFeed(a)| < |HashFeed(b)| && HashFeed(a) == HashFeed(b)[..|HashFeed(a)|])
        <==> (&& a.floor.None? && b.floor.Some?
              && a.coordinate == b.coordinate && a.threshold == b.threshold
              && b.floor.value == PositionStatusRawValue(a.positionStatus))
  {
    var fa, fb := HashFeed(a), HashFeed(b);
    if |fa| < |fb| && fa == fb[..|fa|] {
      assert fa[0] == fb[0] && fa[1] == fb[1] && fa[2] == fb[2] && fa[3] == fb[3];
      RawValueRoundTrip(a.threshold, a.positionStatus);
      RawValueRoundTrip(b.threshold, b.positionStatus);
      assert ThresholdFromRawValue(fa[2].n) == Some(a.threshold);
    }
  }
}
