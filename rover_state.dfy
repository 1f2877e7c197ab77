/**
 * src/rover/RoverState.java: a rover's position and heading, moved and turned
 * by looking its heading up in the direction table, parsed from and printed as
 * "x y C". The static table references become one immutable Tables value held
 * by every state.
 */
module RoverStates {
  import opened Wrappers
  import opened Utils
  import opened Decimal
  import opened DirectionTables

  /** The fields of a RoverState as a value. */
  datatype Pose = Pose(x: int, y: int, direction: Direction)

  /** Tables a rover can run on: they pass validation, and every code names a heading that has a row. */
  predicate Usable(t: Tables)
  {
    ValidTable(t.states) && forall c :: c in t.directions ==> t.directions[c] in t.states
  }

  /** Every code is a capital letter, and the two code tables invert each other. */
  predicate CodesInvertible(t: Tables)
  {
    forall d :: d in t.codes ==> 'A' <= t.codes[d] <= 'Z' && t.codes[d] in t.directions && t.directions[t.codes[d]] == d
  }

  /** The state performInstruction leaves: 'M' moves by the row's (dx, dy), 'L' and 'R' turn, anything else is ignored. */
  function Step(t: Tables, p: Pose, instruction: char): (r: Pose)
    requires ValidTable(t.states) && p.direction in t.states
    ensures r.direction in t.states
  {
    assert SymmetricAt(t.states, p.direction);
    var row := t.states[p.direction];
    match instruction
    case 'M' => Pose(p.x + row.dx, p.y + row.dy, p.direction)
    case 'L' => Pose(p.x, p.y, row.left)
    case 'R' => Pose(p.x, p.y, row.right)
    case _ => p
  }

  /** stringToDirection: the heading whose code is the first letter of s, upper-cased (None where Java gets null). */
  function StringToDirection(t: Tables, s: string): (r: Option<Direction>)
    requires s != []
    ensures r.Some? <==> ToUpper(s[0]) in t.directions
    ensures r.Some? ==> r.value == t.directions[ToUpper(s[0])]
    ensures Usable(t) && r.Some? ==> r.value in t.states
  {
    var code := UpperCase(s)[0];
    if code in t.directions then Some(t.directions[code]) else None
  }

  /** directionToCode. */
  function DirectionToCode(t: Tables, d: Direction): (c: char)
    requires d in t.codes
    ensures CodesInvertible(t) ==> 'A' <= c <= 'Z' && StringToDirection(t, [c]) == Some(d)
  {
    t.codes[d]
  }

  /**
   * The string constructor: the first three blank-separated fields are x, y and
   * the heading letter; later fields are ignored. None where Java would throw or
   * would store a null heading.
   */
  function ParsePose(t: Tables, startingState: string): (r: Option<Pose>)
    ensures r.Some? <==>
      && |Split(startingState)| >= 3
      && ParseInt(Split(startingState)[0]).Some? && ParseInt(Split(startingState)[1]).Some?
      && StringToDirection(t, Split(startingState)[2]).Some?
    ensures r.Some? ==> r.value.direction in t.directions.Values
    ensures Usable(t) && r.Some? ==> r.value.direction in t.states
  {
    var parts := Split(startingState);
    if |parts| < 3 then None
    else
      match (ParseInt(parts[0]), ParseInt(parts[1]), StringToDirection(t, parts[2]))
      case (Some(x), Some(y), Some(d)) => Some(Pose(x, y, d))
      case _ => None
  }

  /** asString: "x y C". */
  function Format(t: Tables, p: Pose): (s: string)
    requires p.direction in t.codes
    ensures t.codes[p.direction] !in Blanks ==>
      Split(s) == [IntToString(p.x), IntToString(p.y), [t.codes[p.direction]]]
  {
    var code := DirectionToCode(t, p.direction);
    var s := IntToString(p.x) + " " + IntToString(p.y) + " " + [code];
    assert code !in Blanks ==> Split(s) == [IntToString(p.x), IntToString(p.y), [code]] by {
      if code !in Blanks {
        SplitThreeWords(IntToString(p.x), IntToString(p.y), [code]);
      }
    }
    s
  }

  /** The compass rows give tables a rover can run on, whose codes print and parse back. */
  lemma CompassTablesUsable()
    ensures TablesOf(CompassRecords) == Compass
    ensures Usable(Compass) && CodesInvertible(Compass)
  {
    CompassTablesValid();
  }

  /** What each instruction does to a state. */
  lemma StepEffects(t: Tables, p: Pose, instruction: char)
    requires ValidTable(t.states) && p.direction in t.states
    ensures instruction == 'M' ==>
      Step(t, p, instruction) == Pose(p.x + t.states[p.direction].dx, p.y + t.states[p.direction].dy, p.direction)
    ensures instruction == 'L' ==> Step(t, p, instruction) == p.(direction := t.states[p.direction].left)
    ensures instruction == 'R' ==> Step(t, p, instruction) == p.(direction := t.states[p.direction].right)
    ensures instruction !in "MLR" ==> Step(t, p, instruction) == p
  {
  }

  /** With a valid table a left turn followed by a right turn, or the other way round, restores the state. */
  lemma TurnsCancel(t: Tables, p: Pose)
    requires ValidTable(t.states) && p.direction in t.states
    ensures Step(t, Step(t, p, 'L'), 'R') == p
    ensures Step(t, Step(t, p, 'R'), 'L') == p
  {
    TurnsUndoEachOther(t.states, p.direction);
  }

  /** Printing a state and parsing the text gives the state back, when the codes are capital letters that invert. */
  lemma FormatParseRoundTrip(t: Tables, p: Pose)
    requires CodesInvertible(t) && p.direction in t.codes
    ensures ParsePose(t, Format(t, p)) == Some(p)
  {
    var code := t.codes[p.direction];
    SplitThreeWords(IntToString(p.x), IntToString(p.y), [code]);
    ParseIntRoundTrip(p.x);
    ParseIntRoundTrip(p.y);
    assert UpperCase([code]) == [code];
  }

  /** The heading letter is read case-insensitively; indeed the whole description is. */
  lemma ParseIgnoresCase(t: Tables, startingState: string)
    ensures ParsePose(t, UpperCase(startingState)) == ParsePose(t, startingState)
  {
    var parts := Split(startingState);
    var upper := Split(UpperCase(startingState));
    SplitUpperCase(startingState);
    assert |upper| == |parts|;
    if |parts| >= 3 {
      assert upper[0] == UpperCase(parts[0]) && upper[1] == UpperCase(parts[1]) && upper[2] == UpperCase(parts[2]);
      ParseIntUpperCase(parts[0]);
      ParseIntUpperCase(parts[1]);
      HeadingIgnoresCase(t, parts[2]);
    }
  }

  /** The heading part reads the same in upper case. */
  lemma HeadingIgnoresCase(t: Tables, s: string)
    requires s != []
    ensures StringToDirection(t, UpperCase(s)) == StringToDirection(t, s)
  {
    assert UpperCase(UpperCase(s))[0] == UpperCase(s)[0];
  }

  /** "1 2 n" is read as "1 2 N". */
  lemma LowerCaseHeading(t: Tables)
    ensures ParsePose(t, "1 2 n") == ParsePose(t, "1 2 N")
  {
    ParseIgnoresCase(t, "1 2 n");
    UpperCaseOfExample();
  }

  /** Proof step for LowerCaseHeading: the upper-cased example text. */
  lemma UpperCaseOfExample()
    ensures UpperCase("1 2 n") == "1 2 N"
  {
  }

  class RoverState {
    const tables: Tables
    var x: int
    var y: int
    var direction: Direction

    function AsPose(): Pose
      reads this
    {
      Pose(x, y, direction)
    }

    ghost predicate Valid()
      reads this
    {
      Usable(tables) && direction in tables.states
    }

    /** The copy constructor. */
    constructor Copy(state: RoverState)
      ensures tables == state.tables && AsPose() == state.AsPose()
    {
      tables := state.tables;
      x := state.x;
      y := state.y;
      direction := state.direction;
    }

    /**
     * The string constructor. An unknown heading letter makes Java store a null
     * heading, which fails only when move, a turn or asString first uses it; here
     * the heading must be one the code table holds.
     */
    constructor (tables: Tables, startingState: string)
      requires ParsePose(tables, startingState).Some?
      ensures this.tables == tables && AsPose() == ParsePose(tables, startingState).value
      ensures Usable(tables) ==> Valid()
    {
      this.tables := tables;
      var parts := SplitString(startingState);
      x := ParseInt(parts[0]).value;
      y := ParseInt(parts[1]).value;
      direction := StringToDirection(tables, parts[2]).value;
    }

    method PerformInstruction(instruction: char)
      requires Valid()
      modifies this
      ensures Valid() && AsPose() == Step(tables, old(AsPose()), instruction)
    {
      match instruction
      case 'M' => Move();
      case 'L' => TurnLeft();
      case 'R' => TurnRight();
      case _ =>
    }

    method Move()
      requires Valid()
      modifies this
      ensures Valid()
      ensures x == old(x) + tables.states[direction].dx && y == old(y) + tables.states[direction].dy
      ensures direction == old(direction)
    {
      x := x + tables.states[direction].dx;
      y := y + tables.states[direction].dy;
    }

    method TurnLeft()
      requires Valid()
      modifies this
      ensures Valid()
      ensures direction == tables.states[old(direction)].left && x == old(x) && y == old(y)
    {
      assert SymmetricAt(tables.states, direction);
      direction := tables.states[direction].left;
    }

    method TurnRight()
      requires Valid()
      modifies this
      ensures Valid()
      ensures direction == tables.states[old(direction)].right && x == old(x) && y == old(y)
    {
      assert SymmetricAt(tables.states, direction);
      direction := tables.states[direction].right;
    }

    /** asString, whose text parses back to this state. */
    function AsString(): (s: string)
      reads this
      requires direction in tables.codes
      ensures CodesInvertible(tables) ==> ParsePose(tables, s) == Some(AsPose())
    {
      if CodesInvertible(tables) then
        FormatParseRoundTrip(tables, AsPose());
        Format(tables, AsPose())
      else
        Format(tables, AsPose())
    }
  }
}
