/**
 * The four slice groups and the rule that fills them once, when the cubies are
 * created: an `if / else if` chain on the creation coordinate.
 */
module Slices {
  import opened Grid
  import opened Rotation

  /** The four groups: three vertical x-layers and the intended top y-layer. */
  datatype Group = Left | Middle | Right | Top

  /** Where the creation chain puts a cubie: into one group, or into none. */
  datatype Placement = AddedTo(group: Group) | NotAdded

  /**
   * The creation chain: x = 0, 1, 2 select left, middle, right; only when x is
   * none of these is `y == 2` tested, selecting top.
   */
  function CreationGroup(c: Coord): Placement {
    if c.x == 0 then AddedTo(Left)
    else if c.x == 1 then AddedTo(Middle)
    else if c.x == 2 then AddedTo(Right)
    else if c.y == 2 then AddedTo(Top)
    else NotAdded
  }

  /** The x-layer a vertical group stands for. */
  function LayerX(g: Group): int
    requires g != Top
  {
    match g
    case Left => 0
    case Middle => 1
    case Right => 2
  }

  /**
   * On the grid the chain is decided by x alone: a cubie goes to exactly the
   * vertical group of its x-layer, never to top and never nowhere.
   */
  lemma CreationGroupByX(c: Coord, g: Group)
    requires InGrid(c)
    ensures CreationGroup(c) == AddedTo(g) <==> g != Top && LayerX(g) == c.x
    ensures CreationGroup(c) != NotAdded
  {
  }

  /** The `y == 2` branch is reached only off the grid; no grid cubie goes to top. */
  lemma TopBranchUnreachable(c: Coord)
    requires CreationGroup(c) == AddedTo(Top)
    ensures !InGrid(c) && c.y == 2
  {
  }

  /**
   * The children lists the chain builds while the cubies in `created` are made,
   * in that order: the index of every cubie the chain puts into `g`.
   */
  function Grouped(created: seq<Cubie>, g: Group): seq<nat>
  {
    if created == [] then []
    else
      var last := |created| - 1;
      Grouped(created[..last], g) + (if CreationGroup(created[last].position) == AddedTo(g) then [last] else [])
  }

  /** Making one more cubie adds its index to `g` exactly when the chain puts its position there. */
  lemma GroupedSnoc(created: seq<Cubie>, cube: Cubie, g: Group)
    ensures Grouped(created + [cube], g)
         == Grouped(created, g) + (if CreationGroup(cube.position) == AddedTo(g) then [|created|] else [])
  {
    assert (created + [cube])[..|created|] == created;
  }

  function Clamp(v: int): nat {
    if v < 0 then 0 else if v > 9 then 9 else v
  }

  /** The consecutive indices `start`, ..., `start + len - 1`. */
  function Range(start: nat, len: nat): seq<nat> {
    seq(len, k requires 0 <= k => start + k)
  }

  lemma RangeSnoc(start: nat, len: nat)
    ensures Range(start, len + 1) == Range(start, len) + [start + len]
  {
  }

  /** One creation step: the `n`-th cubie joins `g` exactly when `g` is its x-layer. */
  lemma GroupedStep(g: Group, n: nat, next: nat)
    // `next` stands for `n + 1`, so the goal never holds the term `n + 1` itself.
    requires next == n + 1 <= CELLS
    ensures Grouped(Created()[..next], g)
         == Grouped(Created()[..n], g) + (if g != Top && LayerX(g) == CoordAt(n).x then [n] else [])
  {
    TakeSnoc(Created(), n, next);
    GroupedSnoc(Created()[..n], Created()[n], g);
    CreationGroupByX(CoordAt(n), g);
  }

  /** The x-layer of the cubie created at step `i` is `i / 9`, written without division. */
  lemma LayerOfStep(i: nat, layer: int)
    requires i < CELLS && 0 <= layer < 3
    ensures CoordAt(i).x == layer <==> 9 * layer <= i < 9 * layer + 9
  {
    var c := CoordAt(i);
    assert InGrid(c) && Index(c) == i;
  }

  /**
   * A group's children as the chain leaves them (see `CreationFillsMembers`):
   * the nine consecutive creation indices of a vertical group's x-layer, and
   * nothing for top.
   */
  function Members(g: Group): seq<nat> {
    if g == Top then [] else Range(9 * LayerX(g), 9)
  }

  /**
   * Closed form of the chain over the first `n` cubies: a vertical group holds a
   * prefix of the nine consecutive indices of its x-layer; top holds nothing.
   */
  lemma {:induction false} GroupedClosedForm(g: Group, n: nat)
    requires n <= CELLS
    ensures g == Top ==> Grouped(Created()[..n], g) == []
    ensures g != Top ==> Grouped(Created()[..n], g) == Range(9 * LayerX(g), Clamp(n - 9 * LayerX(g)))
  {
    if n > 0 {
      GroupedClosedForm(g, n - 1);
      GroupedStep(g, n - 1, n);
      if g != Top {
        var start := 9 * LayerX(g);
        LayerOfStep(n - 1, LayerX(g));
        if start <= n - 1 < start + 9 {
          RangeSnoc(start, n - 1 - start);
        }
      }
    } else {
      assert Created()[..n] == [];
    }
  }

  /** Running the creation chain over all 27 cubies fills each group with exactly `Members`. */
  lemma CreationFillsMembers(g: Group, n: nat)
    // `n` stands for `CELLS`, so the goal never holds the literal `Created()[..27]`.
    requires n == CELLS
    ensures Grouped(Created()[..n], g) == Members(g)
  {
    GroupedClosedForm(g, n);
    if g != Top {
      var start := 9 * LayerX(g);
      assert Clamp(n - start) == 9;
    }
  }

  /**
   * The groups partition the cubies by x: cubie `i` is a child of `g` exactly
   * when `g` is the vertical group of its x-layer.
   */
  lemma MembersPartition(i: nat, g: Group)
    requires i < CELLS
    ensures i in Members(g) <==> g != Top && LayerX(g) == CoordAt(i).x
  {
    if g != Top {
      LayerOfStep(i, LayerX(g));
      var start := 9 * LayerX(g);
      var m := Range(start, 9);
      if start <= i < start + 9 {
        assert m[i - start] == i;
      }
    }
  }

  /** Each vertical group has nine children, top has none. */
  lemma MembersCount(g: Group)
    ensures |Members(g)| == if g == Top then 0 else 9
  {
  }

  /** Cubie indices in strictly increasing order, hence without repetition. */
  predicate IncreasingIndices(s: seq<nat>) {
    && (forall k :: 0 <= k < |s| ==> s[k] < CELLS)
    && (forall j, k :: 0 <= j < k < |s| ==> s[j] < s[k])
  }

  /** In an increasing list, an entry is a cubie index that does not occur before it. */
  lemma IncreasingNotEarlier(m: seq<nat>, k: nat)
    requires IncreasingIndices(m) && k < |m|
    ensures m[k] < CELLS && m[k] !in m[..k]
  {
  }

  /** Every group lists cubie indices in creation order, without repetition. */
  lemma MembersIncreasing(g: Group)
    ensures IncreasingIndices(Members(g))
  {
    if g != Top {
      var m := Range(9 * LayerX(g), 9);
      assert IncreasingIndices(m);
    }
  }
}
