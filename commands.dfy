/**
 * The eight on-screen rotation commands, each bound once to a group, an axis
 * and an angle, and what they do to the cubie list.
 */
module Commands {
  import opened Grid
  import opened Orientation
  import opened Slices
  import opened Rotation

  datatype Command =
    | RightUp | RightDown
    | MiddleUp | MiddleDown
    | LeftUp | LeftDown
    | TopLeft | TopRight

  /** What a command rotates: a group, about a world axis, by an angle. */
  datatype Binding = Binding(group: Group, axis: Axis, angle: Angle)

  /** The command table: "up" and "top left" turn by -pi/2, "down" and "top right" by +pi/2. */
  function BindingOf(c: Command): Binding {
    match c
    case RightUp => Binding(Right, XAxis, MinusHalfPi)
    case RightDown => Binding(Right, XAxis, PlusHalfPi)
    case MiddleUp => Binding(Middle, XAxis, MinusHalfPi)
    case MiddleDown => Binding(Middle, XAxis, PlusHalfPi)
    case LeftUp => Binding(Left, XAxis, MinusHalfPi)
    case LeftDown => Binding(Left, XAxis, PlusHalfPi)
    case TopLeft => Binding(Top, YAxis, MinusHalfPi)
    case TopRight => Binding(Top, YAxis, PlusHalfPi)
  }

  /** The command on the same button pair with the other direction. */
  function Opposite(c: Command): Command {
    match c
    case RightUp => RightDown
    case RightDown => RightUp
    case MiddleUp => MiddleDown
    case MiddleDown => MiddleUp
    case LeftUp => LeftDown
    case LeftDown => LeftUp
    case TopLeft => TopRight
    case TopRight => TopLeft
  }

  /**
   * Opposite commands use the same group and axis with negated angles, and
   * `Opposite` pairs the eight commands into four pairs.
   */
  lemma OppositeBinding(c: Command)
    ensures BindingOf(Opposite(c)).group == BindingOf(c).group
    ensures BindingOf(Opposite(c)).axis == BindingOf(c).axis
    ensures BindingOf(Opposite(c)).angle == Negate(BindingOf(c).angle)
    ensures Opposite(c) != c && Opposite(Opposite(c)) == c
  {
  }

  /** The x-layer groups turn about x, the top group about y. */
  lemma AxisOfGroup(c: Command)
    ensures BindingOf(c).axis == if BindingOf(c).group == Top then YAxis else XAxis
  {
  }

  /**
   * What a command does to the cubie list: it rotates the children the group
   * received at creation (which, since no cubie moves, are its current x-layer).
   */
  function Step(s: seq<Cubie>, c: Command): (t: seq<Cubie>)
    ensures |t| == |s|
  {
    var b := BindingOf(c);
    Turned(s, Members(b.group), b.axis, b.angle)
  }

  /** The cubie list after a sequence of commands, first to last. */
  function Run(s: seq<Cubie>, cmds: seq<Command>): (t: seq<Cubie>)
    ensures |t| == |s|
    decreases |cmds|
  {
    if cmds == [] then s else Run(Step(s, cmds[0]), cmds[1..])
  }

  /** A command followed by its opposite restores every cubie. */
  lemma StepThenOpposite(s: seq<Cubie>, c: Command)
    ensures Step(Step(s, c), Opposite(c)) == s
  {
    OppositeBinding(c);
    var b := BindingOf(c);
    TurnedNegatedCancels(s, Members(b.group), b.axis, b.angle);
  }

  /** Four consecutive runs of one command restore every cubie. */
  lemma FourSteps(s: seq<Cubie>, c: Command)
    ensures Step(Step(Step(Step(s, c), c), c), c) == s
  {
    var b := BindingOf(c);
    TurnedFourTimes(s, Members(b.group), b.axis, b.angle);
  }

  /** The top group is empty, so "top left" and "top right" change nothing. */
  lemma TopCommandsChangeNothing(s: seq<Cubie>)
    ensures Step(s, TopLeft) == s && Step(s, TopRight) == s
  {
    TurnedEmpty(s, YAxis, MinusHalfPi);
    TurnedEmpty(s, YAxis, PlusHalfPi);
  }

  /**
   * A command changes exactly the cubies of its group's creation-time x-layer:
   * their orientations change, every other cubie is untouched, and no uuid or
   * position changes.
   */
  lemma StepChangesExactlyLayer(s: seq<Cubie>, c: Command, i: nat)
    requires WellFormed(s) && i < CELLS
    ensures var b, t := BindingOf(c), Step(s, c);
      && t[i].uuid == s[i].uuid && t[i].position == s[i].position
      && (t[i].orientation != s[i].orientation <==> b.group != Top && CoordAt(i).x == LayerX(b.group))
      && (t[i] != s[i] ==> t[i].orientation != s[i].orientation)
  {
    var b := BindingOf(c);
    TurnedChangesExactlyMembers(s, Members(b.group), b.axis, b.angle, i);
    MembersPartition(i, b.group);
  }

  /**
   * Any two commands commute: the groups never change, distinct groups share
   * no cubie, and a group is always turned about the same axis.
   */
  lemma StepsCommute(s: seq<Cubie>, c1: Command, c2: Command)
    ensures Step(Step(s, c1), c2) == Step(Step(s, c2), c1)
  {
    var b1, b2 := BindingOf(c1), BindingOf(c2);
    if b1.group != b2.group && b1.axis != b2.axis {
      AxisOfGroup(c1);
      AxisOfGroup(c2);
      forall i | i in Members(b1.group)
        ensures i !in Members(b2.group)
      {
        MembersIncreasing(b1.group);
        MembersPartition(i, b1.group);
        MembersPartition(i, b2.group);
      }
    }
    TurnedCommute(s, Members(b1.group), b1.axis, b1.angle, Members(b2.group), b2.axis, b2.angle);
  }

  /** Every sequence of commands keeps the cubie list well formed. */
  lemma {:induction false} RunWellFormed(s: seq<Cubie>, cmds: seq<Command>)
    requires WellFormed(s)
    ensures WellFormed(Run(s, cmds))
    decreases |cmds|
  {
    if cmds != [] {
      var b := BindingOf(cmds[0]);
      TurnedWellFormed(s, Members(b.group), b.axis, b.angle);
      RunWellFormed(Step(s, cmds[0]), cmds[1..]);
    }
  }

  /**
   * Whatever the commands, every cubie stays at its creation coordinate: the
   * cubie with uuid `i` is still at the `i`-th grid coordinate.
   */
  lemma RunKeepsPositions(cmds: seq<Command>, i: nat)
    requires i < CELLS
    ensures Run(Created(), cmds)[i].uuid == i
    ensures Run(Created(), cmds)[i].position == CoordAt(i)
  {
    CreatedWellFormed();
    RunWellFormed(Created(), cmds);
    RegisteredPosition(Run(Created(), cmds), i);
  }

  /**
   * Frozen membership never goes out of date: since no cubie moves, after any
   * commands a group's creation-time children are exactly the cubies now in
   * its x-layer.
   */
  lemma MembersMatchCurrentLayer(cmds: seq<Command>, i: nat, g: Group)
    requires i < CELLS
    ensures i in Members(g) <==> g != Top && Run(Created(), cmds)[i].position.x == LayerX(g)
  {
    RunKeepsPositions(cmds, i);
    MembersPartition(i, g);
  }
}
