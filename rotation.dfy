/**
 * The state of the 27 cubies as a value, and what one `rotate` call does to it:
 * every child of the group has its orientation premultiplied by a quarter turn,
 * nothing else changes.
 */
module Rotation {
  import opened Grid
  import opened Orientation

  /**
   * One cubie mesh: its uuid, its grid position and its orientation. The
   * three.js position is the float image of `position`; `rotateOnWorldAxis`
   * changes only the orientation.
   */
  datatype Cubie = Cubie(uuid: nat, position: Coord, orientation: Mat)

  /** One entry of the list `rotate` returns: a child's uuid and its world position. */
  datatype NewPosition = NewPosition(uuid: nat, position: Coord)

  /** The cubies as creation leaves them: uuid and grid position in creation order, no rotation. */
  function Created(): (s: seq<Cubie>)
    ensures |s| == CELLS
  {
    seq(CELLS, i requires 0 <= i < CELLS => Cubie(i, CoordAt(i), Identity))
  }

  /** Taking one element more appends that element. */
  lemma TakeSnoc<T>(s: seq<T>, n: nat, next: nat)
    // `next` stands for `n + 1`, so callers' goals never hold the term `n + 1` itself.
    requires next == n + 1 <= |s|
    ensures s[..next] == s[..n] + [s[n]]
  {
  }

  /**
   * Creating the `n`-th cubie at the grid coordinate with index `n` extends the
   * creation prefix by it; `next` is the step after `n`.
   */
  lemma CreatedSnoc(n: nat, next: nat, c: Coord)
    // `next` stands for `n + 1`, so the goal never holds the term `n + 1` itself.
    requires next == n + 1 && InGrid(c) && Index(c) == n
    ensures next <= CELLS && Created()[..next] == Created()[..n] + [Cubie(n, c, Identity)]
  {
    CoordAtIndex(c);
    TakeSnoc(Created(), n, next);
  }

  /**
   * The invariant of the cubie list: 27 cubies, the one at index `i` keeps uuid
   * `i` and the `i`-th grid coordinate, and every orientation is a rotation.
   */
  predicate WellFormed(s: seq<Cubie>) {
    Registered(s) && AllRotations(s)
  }

  /**
   * 27 cubies, the one at index `i` with uuid `i` at the grid coordinate the
   * enumeration reaches at step `i`.
   */
  predicate Registered(s: seq<Cubie>) {
    |s| == CELLS &&
    forall i :: 0 <= i < CELLS ==> s[i].uuid == i && InGrid(s[i].position) && Index(s[i].position) == i
  }

  /** `Registered` places the cubie at index `i` at `CoordAt(i)`. */
  lemma RegisteredPosition(s: seq<Cubie>, i: nat)
    requires Registered(s) && i < CELLS
    ensures s[i].position == CoordAt(i)
  {
    CoordAtIndex(s[i].position);
  }

  /** The orientation of the cubie at index `i`. */
  function OrientationAt(s: seq<Cubie>, i: nat): Mat
    requires i < |s|
  {
    s[i].orientation
  }

  /** Every cubie's orientation is a rotation. */
  predicate AllRotations(s: seq<Cubie>) {
    forall i :: 0 <= i < |s| ==> IsRotation(OrientationAt(s, i))
  }

  lemma CreatedWellFormed()
    ensures WellFormed(Created())
  {
    var s := Created();
    forall i | 0 <= i < CELLS
      ensures IsRotation(OrientationAt(s, i))
    {
      assert s[i].orientation == Identity;
      IdentityIsRotation();
    }
  }

  /** Group members that are cubie indices. */
  predicate Indices(members: seq<nat>, n: nat) {
    forall k :: 0 <= k < |members| ==> members[k] < n
  }

  /**
   * The cubie list after `rotateOnWorldAxis(axis, angle)` on every index in
   * `members`: its orientation is premultiplied by the quarter turn.
   */
  function Turned(s: seq<Cubie>, members: seq<nat>, axis: Axis, angle: Angle): (t: seq<Cubie>)
    ensures |t| == |s|
  {
    seq(|s|, i requires 0 <= i < |s| =>
      if i in members then s[i].(orientation := Turn(axis, angle, s[i].orientation)) else s[i])
  }

  /** The records `rotate` collects: one per member, in member order. */
  function Records(s: seq<Cubie>, members: seq<nat>): (r: seq<NewPosition>)
    requires Indices(members, |s|)
    ensures |r| == |members|
  {
    seq(|members|, k requires 0 <= k < |members| => NewPosition(s[members[k]].uuid, s[members[k]].position))
  }

  /**
   * Turning one more member: the prefix turn has not touched `members[k]` yet,
   * and extending the prefix by it updates exactly that cubie.
   */
  lemma TurnedSnoc(s: seq<Cubie>, members: seq<nat>, k: nat, axis: Axis, angle: Angle)
    requires k < |members| && members[k] < |s| && members[k] !in members[..k]
    ensures var i, t := members[k], Turned(s, members[..k], axis, angle);
      && t[i] == s[i]
      && Turned(s, members[..k + 1], axis, angle)
         == t[i := s[i].(orientation := Turn(axis, angle, s[i].orientation))]
  {
    assert members[..k + 1] == members[..k] + [members[k]];
  }

  /** One more member adds its record at the end. */
  lemma RecordsSnoc(s: seq<Cubie>, members: seq<nat>, k: nat)
    requires Indices(members, |s|) && k < |members|
    ensures Indices(members[..k], |s|) && Indices(members[..k + 1], |s|)
    ensures Records(s, members[..k + 1])
         == Records(s, members[..k]) + [NewPosition(s[members[k]].uuid, s[members[k]].position)]
  {
  }

  /** A quarter turn of a group keeps the invariant of the cubie list. */
  lemma TurnedWellFormed(s: seq<Cubie>, members: seq<nat>, axis: Axis, angle: Angle)
    requires WellFormed(s)
    ensures WellFormed(Turned(s, members, axis, angle))
  {
    var t := Turned(s, members, axis, angle);
    forall i | 0 <= i < CELLS
      ensures IsRotation(OrientationAt(t, i))
    {
      assert IsRotation(OrientationAt(s, i));
      TurnKeepsRotation(axis, angle, s[i].orientation);
    }
  }

  /**
   * A quarter turn changes exactly the members: a member's orientation always
   * changes, a non-member is untouched, and no uuid or position changes.
   */
  lemma TurnedChangesExactlyMembers(s: seq<Cubie>, members: seq<nat>, axis: Axis, angle: Angle, i: nat)
    requires WellFormed(s) && i < CELLS
    ensures var t := Turned(s, members, axis, angle);
      && t[i].uuid == s[i].uuid && t[i].position == s[i].position
      && (t[i].orientation != s[i].orientation <==> i in members)
      && (i !in members ==> t[i] == s[i])
  {
    assert IsRotation(OrientationAt(s, i));
    TurnMovesRotation(axis, angle, s[i].orientation);
  }

  /** Turning a group by an angle and then by its negation restores every cubie. */
  lemma TurnedNegatedCancels(s: seq<Cubie>, members: seq<nat>, axis: Axis, angle: Angle)
    ensures Turned(Turned(s, members, axis, angle), members, axis, Negate(angle)) == s
  {
    var t := Turned(Turned(s, members, axis, angle), members, axis, Negate(angle));
    forall i | 0 <= i < |s|
      ensures t[i] == s[i]
    {
      NegatedTurnCancels(axis, angle, s[i].orientation);
    }
  }

  /** Four equal quarter turns of a group restore every cubie. */
  lemma TurnedFourTimes(s: seq<Cubie>, members: seq<nat>, axis: Axis, angle: Angle)
    ensures Turned(Turned(Turned(Turned(s, members, axis, angle), members, axis, angle),
                          members, axis, angle), members, axis, angle) == s
  {
    var t := Turned(Turned(Turned(Turned(s, members, axis, angle), members, axis, angle),
                           members, axis, angle), members, axis, angle);
    forall i | 0 <= i < |s|
      ensures t[i] == s[i]
    {
      FourTurnsIdentity(axis, angle, s[i].orientation);
    }
  }

  /** Turning a group with no children changes nothing. */
  lemma TurnedEmpty(s: seq<Cubie>, axis: Axis, angle: Angle)
    ensures Turned(s, [], axis, angle) == s
  {
  }

  /**
   * Two quarter turns commute when they share no cubie or are about the same
   * axis.
   */
  lemma TurnedCommute(s: seq<Cubie>, m1: seq<nat>, axis1: Axis, angle1: Angle,
                      m2: seq<nat>, axis2: Axis, angle2: Angle)
    requires axis1 == axis2 || forall i :: i in m1 ==> i !in m2
    ensures Turned(Turned(s, m1, axis1, angle1), m2, axis2, angle2)
         == Turned(Turned(s, m2, axis2, angle2), m1, axis1, angle1)
  {
    var t12 := Turned(Turned(s, m1, axis1, angle1), m2, axis2, angle2);
    var t21 := Turned(Turned(s, m2, axis2, angle2), m1, axis1, angle1);
    forall i | 0 <= i < |s|
      ensures t12[i] == t21[i]
    {
      if axis1 == axis2 {
        SameAxisTurnsCommute(axis1, angle1, angle2, s[i].orientation);
      }
    }
  }

  /**
   * The records do not depend on the turn: they carry the children's uuids and
   * their unchanged creation coordinates.
   */
  lemma RecordsOfTurned(s: seq<Cubie>, members: seq<nat>, axis: Axis, angle: Angle)
    requires Registered(s) && Indices(members, CELLS)
    ensures Records(Turned(s, members, axis, angle), members) == Records(s, members)
    ensures forall k :: 0 <= k < |members| ==>
      Records(s, members)[k] == NewPosition(members[k], CoordAt(members[k]))
  {
    var t := Turned(s, members, axis, angle);
    forall k | 0 <= k < |members|
      ensures Records(t, members)[k] == Records(s, members)[k] == NewPosition(members[k], CoordAt(members[k]))
    {
      var i := members[k];
      RegisteredPosition(s, i);
    }
  }
}
