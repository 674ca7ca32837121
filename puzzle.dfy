/**
 * The mutable state of the cube component: the array of cubies and the four
 * group children lists, filled once at construction; `Rotate` turns a group's
 * children in place, and `Execute` runs one of the eight bound commands.
 */
module Puzzle {
  import opened Grid
  import opened Orientation
  import opened Slices
  import opened Rotation
  import opened Commands

  class Cube {
    /** The cubies in creation order; a cubie's uuid is its index. */
    var cubes: array<Cubie>
    /** The children of each group, as cubie indices in the order they were added. */
    var leftVerticalGroup: seq<nat>
    var middleVerticalGroup: seq<nat>
    var rightVerticalGroup: seq<nat>
    var topHorizontalGroup: seq<nat>

    /**
     * The object invariant: the cubie list is well formed and every group
     * still holds exactly the children it received at construction.
     */
    ghost predicate Valid()
      reads this, cubes
    {
      && cubes.Length == CELLS
      && WellFormed(cubes[..])
      && leftVerticalGroup == Members(Left)
      && middleVerticalGroup == Members(Middle)
      && rightVerticalGroup == Members(Right)
      && topHorizontalGroup == Members(Top)
    }

    /** The children list of a group. */
    function Children(g: Group): seq<nat>
      reads this
    {
      match g
      case Left => leftVerticalGroup
      case Middle => middleVerticalGroup
      case Right => rightVerticalGroup
      case Top => topHorizontalGroup
    }

    /**
     * Creates the 27 cubies in x, y, z order, adds each to a group by the
     * `if / else if` chain on its coordinate, and returns the cubies in
     * creation order together with the four children lists.
     */
    static method CreateAndGroupCubes()
      returns (created: seq<Cubie>, left: seq<nat>, middle: seq<nat>, right: seq<nat>, top: seq<nat>)
      ensures left == Members(Left) && middle == Members(Middle)
      ensures right == Members(Right) && top == Members(Top)
      ensures created == Created()
    {
      created := [];
      left, middle, right, top := [], [], [], [];
      var n: nat := 0;
      for x := 0 to 3
        invariant n == 9 * x && created == Created()[..n]
        invariant left == Grouped(created, Left) && middle == Grouped(created, Middle)
        invariant right == Grouped(created, Right) && top == Grouped(created, Top)
      {
        for y := 0 to 3
          invariant n == 9 * x + 3 * y && created == Created()[..n]
          invariant left == Grouped(created, Left) && middle == Grouped(created, Middle)
          invariant right == Grouped(created, Right) && top == Grouped(created, Top)
        {
          for z := 0 to 3
            invariant n == 9 * x + 3 * y + z && created == Created()[..n]
            invariant left == Grouped(created, Left) && middle == Grouped(created, Middle)
            invariant right == Grouped(created, Right) && top == Grouped(created, Top)
          {
            var cube := Cubie(n, Coord(x, y, z), Identity);
            GroupedSnoc(created, cube, Left);
            GroupedSnoc(created, cube, Middle);
            GroupedSnoc(created, cube, Right);
            GroupedSnoc(created, cube, Top);
            if x == 0 {
              left := left + [n];
            } else if x == 1 {
              middle := middle + [n];
            } else if x == 2 {
              right := right + [n];
            } else if y == 2 {
              top := top + [n];
            }
            created := created + [cube];
            ghost var step := n;
            n := n + 1;
            CreatedSnoc(step, n, cube.position);
          }
        }
      }
      CreationFillsMembers(Left, n);
      CreationFillsMembers(Middle, n);
      CreationFillsMembers(Right, n);
      CreationFillsMembers(Top, n);
    }

    /** The component's state after `createAndGroupCubes` has run. */
    constructor ()
      ensures Valid() && fresh(cubes)
      ensures cubes[..] == Created()
    {
      var created, left, middle, right, top := CreateAndGroupCubes();
      cubes := new Cubie[CELLS](i requires 0 <= i < CELLS => created[i]);
      leftVerticalGroup, middleVerticalGroup := left, middle;
      rightVerticalGroup, topHorizontalGroup := right, top;
      new;
      assert cubes[..] == created;
      CreatedWellFormed();
    }

    /**
     * Turns every child of `g` on the world `axis` by `angle`, in child order,
     * and returns one record per child with its uuid and world position.
     */
    method Rotate(g: Group, axis: Axis, angle: Angle) returns (newPositions: seq<NewPosition>)
      requires Valid()
      modifies cubes
      ensures Valid()
      ensures cubes[..] == Turned(old(cubes[..]), Children(g), axis, angle)
      ensures newPositions == Records(cubes[..], Children(g))
      ensures |newPositions| == |Children(g)|
      ensures forall k :: 0 <= k < |newPositions| ==>
        newPositions[k] == NewPosition(Children(g)[k], CoordAt(Children(g)[k]))
    {
      var children := Children(g);
      MembersIncreasing(g);
      ghost var before := cubes[..];
      newPositions := [];
      for k := 0 to |children|
        invariant cubes[..] == Turned(before, children[..k], axis, angle)
        invariant Indices(children[..k], CELLS) && newPositions == Records(before, children[..k])
      {
        var i := children[k];
        IncreasingNotEarlier(children, k);
        TurnedSnoc(before, children, k, axis, angle);
        RecordsSnoc(before, children, k);
        cubes[i] := cubes[i].(orientation := Turn(axis, angle, cubes[i].orientation));
        newPositions := newPositions + [NewPosition(cubes[i].uuid, cubes[i].position)];
      }
      assert children[..|children|] == children;
      TurnedWellFormed(before, children, axis, angle);
      RecordsOfTurned(before, children, axis, angle);
    }

    /** Runs one bound command: its group, axis and angle from the command table. */
    method Execute(c: Command) returns (newPositions: seq<NewPosition>)
      requires Valid()
      modifies cubes
      ensures Valid()
      ensures cubes[..] == Step(old(cubes[..]), c)
      ensures newPositions == Records(cubes[..], Members(BindingOf(c).group))
    {
      var b := BindingOf(c);
      newPositions := Rotate(b.group, b.axis, b.angle);
    }
  }
}
