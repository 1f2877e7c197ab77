/**
 * src/rover/RoverInstructionProcesser.java: a rover inside a rectangular
 * boundary. Each instruction is tried on a copy of the live state, and the copy
 * replaces the live state only if it lies inside the boundary; the first
 * instruction that would leave the boundary ends the instruction list.
 */
module InstructionProcessing {
  import opened Wrappers
  import opened Utils
  import opened Decimal
  import opened DirectionTables
  import opened RoverStates

  /** RoverInstructionProcesser.Boundary: the rectangle from (x0, y0) to (x1, y1), edges included. */
  datatype Boundary = Boundary(x0: int, y0: int, x1: int, y1: int)
  {
    /** contains: edges and corners included, so only a rectangle with x0 <= x1 and y0 <= y1 holds a cell. */
    predicate Contains(x: int, y: int): (r: bool)
      ensures r ==> x0 <= x1 && y0 <= y1
      ensures (x == x0 || x == x1) && (y == y0 || y == y1) ==> (r <==> x0 <= x1 && y0 <= y1)
    {
      x0 <= x <= x1 && y0 <= y <= y1
    }
  }

  /**
   * The Boundary constructor: the lower-left corner is (0, 0) and the first two
   * blank-separated fields give the upper-right corner. None where Java would throw.
   */
  function ParseBoundary(description: string): (r: Option<Boundary>)
    ensures r.Some? ==> r.value.x0 == 0 && r.value.y0 == 0
    ensures r.Some? <==>
      (|Split(description)| >= 2 && ParseInt(Split(description)[0]).Some? && ParseInt(Split(description)[1]).Some?)
  {
    var parts := Split(description);
    if |parts| < 2 then None
    else
      match (ParseInt(parts[0]), ParseInt(parts[1]))
      case (Some(x1), Some(y1)) => Some(Boundary(0, 0, x1, y1))
      case _ => None
  }

  /** A line "x1 y1" describes the boundary from (0, 0) to (x1, y1). */
  lemma ParseBoundaryOfCorner(x1: int, y1: int)
    ensures ParseBoundary(IntToString(x1) + " " + IntToString(y1)) == Some(Boundary(0, 0, x1, y1))
  {
    var words := [IntToString(x1), IntToString(y1)];
    assert words[1..] == [IntToString(y1)];
    assert IntToString(x1) + " " + IntToString(y1) == Join(words, ' ');
    assert forall i :: 0 <= i < |words| ==> NoneOf(words[i], Blanks);
    PiecesOfJoin(words, Blanks, ' ');
    NonEmptyKeepsWords(words);
    ParseIntRoundTrip(x1);
    ParseIntRoundTrip(y1);
  }

  // ---------------------------------------------------------------------------
  // The instruction list, as a function of the starting state

  /**
   * Where processInstructionList leaves a rover that starts at p: the loop ends
   * with the list, at CharacterIterator.DONE, or at the first instruction that
   * would leave the boundary.
   */
  function Run(t: Tables, b: Boundary, p: Pose, instructions: string): (r: Pose)
    requires ValidTable(t.states) && p.direction in t.states
    ensures r.direction in t.states
    decreases |instructions|
  {
    if instructions == [] || instructions[0] == Done then p
    else
      var candidate := Step(t, p, instructions[0]);
      if b.Contains(candidate.x, candidate.y) then Run(t, b, candidate, instructions[1..]) else p
  }

  /** How many instructions processInstructionList carries out before it stops; none of them is DONE. */
  function Executed(t: Tables, b: Boundary, p: Pose, instructions: string): (n: nat)
    requires ValidTable(t.states) && p.direction in t.states
    ensures n <= |instructions|
    ensures forall i :: 0 <= i < n ==> instructions[i] != Done
    decreases |instructions|
  {
    if instructions == [] || instructions[0] == Done then 0
    else
      var candidate := Step(t, p, instructions[0]);
      if b.Contains(candidate.x, candidate.y) then 1 + Executed(t, b, candidate, instructions[1..]) else 0
  }

  /** The instructions applied one after another with no boundary check. */
  function Replay(t: Tables, p: Pose, instructions: string): (r: Pose)
    requires ValidTable(t.states) && p.direction in t.states
    ensures r.direction in t.states
    decreases |instructions|
  {
    if instructions == [] then p
    else Step(t, Replay(t, p, instructions[..|instructions| - 1]), instructions[|instructions| - 1])
  }

  lemma {:induction false} ReplayFirst(t: Tables, p: Pose, c: char, rest: string)
    requires ValidTable(t.states) && p.direction in t.states
    ensures Replay(t, p, [c] + rest) == Replay(t, Step(t, p, c), rest)
    decreases |rest|
  {
    if rest != [] {
      var front := rest[..|rest| - 1];
      assert ([c] + rest)[..|rest|] == [c] + front;
      ReplayFirst(t, p, c, front);
    } else {
      assert ([c] + rest)[..0] == [];
    }
  }

  /**
   * processInstructionList carries out the first Executed instructions, each of
   * which lands inside the boundary, and stops at the next one, which is DONE or
   * would have left it; nothing after that is applied.
   */
  lemma {:induction false} RunStopsAtFirstRejection(t: Tables, b: Boundary, p: Pose, instructions: string)
    requires ValidTable(t.states) && p.direction in t.states
    ensures var k := Executed(t, b, p, instructions);
      && Run(t, b, p, instructions) == Replay(t, p, instructions[..k])
      && (forall j :: 1 <= j <= k ==>
            b.Contains(Replay(t, p, instructions[..j]).x, Replay(t, p, instructions[..j]).y))
      && (k < |instructions| ==>
            var rejected := Step(t, Replay(t, p, instructions[..k]), instructions[k]);
            instructions[k] == Done || !b.Contains(rejected.x, rejected.y))
    decreases |instructions|
  {
    if instructions != [] && instructions[0] != Done {
      var c, rest := instructions[0], instructions[1..];
      var candidate := Step(t, p, c);
      assert instructions == [c] + rest;
      assert instructions[..0] == [];
      if b.Contains(candidate.x, candidate.y) {
        RunStopsAtFirstRejection(t, b, candidate, rest);
        var k' := Executed(t, b, candidate, rest);
        forall j | 1 <= j <= k' + 1
          ensures Replay(t, p, instructions[..j]) == Replay(t, candidate, rest[..j - 1])
        {
          assert instructions[..j] == [c] + rest[..j - 1];
          ReplayFirst(t, p, c, rest[..j - 1]);
        }
        assert rest[..0] == [];
      }
    }
  }

  /** Every state the rover is left in is the starting state or lies inside the boundary. */
  lemma {:induction false} RunEndsInside(t: Tables, b: Boundary, p: Pose, instructions: string)
    requires ValidTable(t.states) && p.direction in t.states
    ensures var r := Run(t, b, p, instructions); r == p || b.Contains(r.x, r.y)
    decreases |instructions|
  {
    if instructions != [] && instructions[0] != Done {
      var candidate := Step(t, p, instructions[0]);
      if b.Contains(candidate.x, candidate.y) {
        RunEndsInside(t, b, candidate, instructions[1..]);
      }
    }
  }

  /** A rover that starts inside the boundary ends inside it. */
  lemma StaysInside(t: Tables, b: Boundary, p: Pose, instructions: string)
    requires ValidTable(t.states) && p.direction in t.states && b.Contains(p.x, p.y)
    ensures b.Contains(Run(t, b, p, instructions).x, Run(t, b, p, instructions).y)
  {
    RunEndsInside(t, b, p, instructions);
  }

  /** Once an instruction is rejected, or DONE is read, whatever follows does not matter. */
  lemma {:induction false} RestIsDiscarded(t: Tables, b: Boundary, p: Pose, instructions: string, other: string)
    requires ValidTable(t.states) && p.direction in t.states
    requires Executed(t, b, p, instructions) < |instructions|
    ensures var k := Executed(t, b, p, instructions);
      Run(t, b, p, instructions[..k + 1] + other) == Run(t, b, p, instructions)
    decreases |instructions|
  {
    var k := Executed(t, b, p, instructions);
    var candidate := Step(t, p, instructions[0]);
    var changed := instructions[..k + 1] + other;
    assert changed[0] == instructions[0];
    if instructions[0] != Done && b.Contains(candidate.x, candidate.y) {
      assert changed[1..] == instructions[1..][..k] + other;
      RestIsDiscarded(t, b, candidate, instructions[1..], other);
    }
  }

  /**
   * The starting state is never checked: a rover outside the boundary stays put
   * exactly when there is no first instruction, it is DONE, or its result is
   * outside too; otherwise the first step is taken.
   */
  lemma StartIsNotChecked(t: Tables, b: Boundary, p: Pose, instructions: string)
    requires ValidTable(t.states) && p.direction in t.states && !b.Contains(p.x, p.y)
    ensures Run(t, b, p, instructions) == p <==>
      (instructions == [] || instructions[0] == Done
       || !b.Contains(Step(t, p, instructions[0]).x, Step(t, p, instructions[0]).y))
  {
    if instructions != [] && instructions[0] != Done {
      var candidate := Step(t, p, instructions[0]);
      if b.Contains(candidate.x, candidate.y) {
        RunEndsInside(t, b, candidate, instructions[1..]);
      }
    }
  }

  /** A DONE character ends the list: whatever follows it is never read. */
  lemma {:induction false} DoneEndsList(t: Tables, b: Boundary, p: Pose, instructions: string, rest: string)
    requires ValidTable(t.states) && p.direction in t.states
    ensures Run(t, b, p, instructions + [Done] + rest) == Run(t, b, p, instructions)
    decreases |instructions|
  {
    var whole := instructions + [Done] + rest;
    if instructions == [] {
      assert whole[0] == Done;
    } else {
      assert whole[0] == instructions[0];
      if instructions[0] != Done {
        assert whole[1..] == instructions[1..] + [Done] + rest;
        DoneEndsList(t, b, Step(t, p, instructions[0]), instructions[1..], rest);
      }
    }
  }

  /** Instruction k, when it lands inside the boundary, is carried out, and the run goes on from the next one. */
  lemma RunAcceptsAt(t: Tables, b: Boundary, p: Pose, instructions: string, k: nat, q: Pose)
    requires ValidTable(t.states) && p.direction in t.states && k < |instructions| && instructions[k] != Done
    requires q == Step(t, p, instructions[k]) && b.Contains(q.x, q.y)
    ensures Run(t, b, p, instructions[k..]) == Run(t, b, q, instructions[k + 1..])
  {
    assert instructions[k..][0] == instructions[k];
    assert instructions[k..][1..] == instructions[k + 1..];
  }

  /** Tables whose four rows are the compass rows of DirectionBasedStates. */
  predicate CompassRows(t: Tables)
  {
    && North in t.states && East in t.states && South in t.states && West in t.states
    && t.states[North] == DirectionBasedState(North, West, East, 0, 1, 'N')
    && t.states[East] == DirectionBasedState(East, North, South, 1, 0, 'E')
    && t.states[South] == DirectionBasedState(South, East, West, 0, -1, 'S')
    && t.states[West] == DirectionBasedState(West, South, North, -1, 0, 'W')
  }

  /** The first five instructions of the usual example's first rover take "1 2 N" round to (0, 1) facing E. */
  lemma FirstExampleRoverOpening(t: Tables)
    requires ValidTable(t.states) && CompassRows(t)
    ensures Run(t, Boundary(0, 0, 5, 5), Pose(1, 2, North), "LMLMLMLMM")
         == Run(t, Boundary(0, 0, 5, 5), Pose(0, 1, East), "LMLMLMLMM"[5..])
  {
    var b, s := Boundary(0, 0, 5, 5), "LMLMLMLMM";
    RunAcceptsAt(t, b, Pose(1, 2, North), s, 0, Pose(1, 2, West));
    RunAcceptsAt(t, b, Pose(1, 2, West), s, 1, Pose(0, 2, West));
    RunAcceptsAt(t, b, Pose(0, 2, West), s, 2, Pose(0, 2, South));
    RunAcceptsAt(t, b, Pose(0, 2, South), s, 3, Pose(0, 1, South));
    RunAcceptsAt(t, b, Pose(0, 1, South), s, 4, Pose(0, 1, East));
    assert s[0..] == s;
  }

  /** The last four take (0, 1) facing E to (1, 3) facing N. */
  lemma FirstExampleRoverClosing(t: Tables)
    requires ValidTable(t.states) && CompassRows(t)
    ensures Run(t, Boundary(0, 0, 5, 5), Pose(0, 1, East), "LMLMLMLMM"[5..]) == Pose(1, 3, North)
  {
    var b, s := Boundary(0, 0, 5, 5), "LMLMLMLMM";
    RunAcceptsAt(t, b, Pose(0, 1, East), s, 5, Pose(1, 1, East));
    RunAcceptsAt(t, b, Pose(1, 1, East), s, 6, Pose(1, 1, North));
    RunAcceptsAt(t, b, Pose(1, 1, North), s, 7, Pose(1, 2, North));
    RunAcceptsAt(t, b, Pose(1, 2, North), s, 8, Pose(1, 3, North));
    assert s[9..] == [];
  }

  /** The first rover of the usual example: "1 2 N" with "LMLMLMLMM" on a 5 by 5 plateau ends at "1 3 N". */
  lemma FirstExampleRover()
    ensures Usable(Compass)
    ensures Run(Compass, Boundary(0, 0, 5, 5), Pose(1, 2, North), "LMLMLMLMM") == Pose(1, 3, North)
  {
    CompassTablesUsable();
    FirstExampleRoverOpening(Compass);
    FirstExampleRoverClosing(Compass);
  }

  /** "M", DONE, "M" from (1, 1) facing N moves the rover once, to (1, 2): the loop never reads the second M. */
  lemma DoneStopsSecondMove(t: Tables)
    requires ValidTable(t.states) && CompassRows(t)
    ensures Run(t, Boundary(0, 0, 5, 5), Pose(1, 1, North), "M" + [Done] + "M") == Pose(1, 2, North)
  {
    var b := Boundary(0, 0, 5, 5);
    DoneEndsList(t, b, Pose(1, 1, North), "M", "M");
    RunAcceptsAt(t, b, Pose(1, 1, North), "M", 0, Pose(1, 2, North));
    assert "M"[0..] == "M" && "M"[1..] == [];
  }

  // ---------------------------------------------------------------------------
  // The processor object

  class RoverInstructionProcessor {
    const boundary: Boundary
    var state: RoverState

    ghost predicate Valid()
      reads this, state
    {
      state.Valid()
    }

    constructor (boundary: Boundary, tables: Tables, startingState: string)
      requires Usable(tables) && ParsePose(tables, startingState).Some?
      ensures Valid() && this.boundary == boundary && fresh(state)
      ensures state.tables == tables && state.AsPose() == ParsePose(tables, startingState).value
    {
      this.boundary := boundary;
      state := new RoverState(tables, startingState);
    }

    /**
     * processInstruction: the instruction is applied to a copy of the live state;
     * the copy becomes the live state exactly when it lies inside the boundary.
     */
    method ProcessInstruction(instruction: char) returns (canMove: bool)
      requires Valid()
      modifies this
      ensures Valid() && state.tables == old(state.tables)
      ensures var candidate := Step(state.tables, old(state.AsPose()), instruction);
        && canMove == boundary.Contains(candidate.x, candidate.y)
        && state.AsPose() == (if canMove then candidate else old(state.AsPose()))
      ensures canMove ==> fresh(state)
      ensures !canMove ==> state == old(state)
    {
      var newState := new RoverState.Copy(state);
      newState.PerformInstruction(instruction);
      canMove := IsValidPosition(newState);
      if canMove {
        state := newState;
      }
    }

    /** isValidPosition: a state is valid when its cell lies inside the boundary, whatever its heading. */
    method IsValidPosition(s: RoverState) returns (valid: bool)
      ensures valid == boundary.Contains(s.x, s.y)
    {
      valid := boundary.Contains(s.x, s.y);
    }

    /** processInstructionList: the instructions in order, stopping at CharacterIterator.DONE or at the first one that is refused. */
    method ProcessInstructionList(instructionList: string)
      requires Valid()
      modifies this
      ensures Valid() && state.tables == old(state.tables)
      ensures state.AsPose() == Run(state.tables, boundary, old(state.AsPose()), instructionList)
    {
      var i := 0;
      while i < |instructionList| && instructionList[i] != Done
        invariant i <= |instructionList|
        invariant Valid() && state.tables == old(state.tables)
        invariant Run(state.tables, boundary, old(state.AsPose()), instructionList)
               == Run(state.tables, boundary, state.AsPose(), instructionList[i..])
      {
        assert instructionList[i..][1..] == instructionList[i + 1..];
        var canMove := ProcessInstruction(instructionList[i]);
        if !canMove {
          break;
        }
        i := i + 1;
      }
    }

    /** getState. */
    function GetState(): (s: string)
      reads this, state
      requires state.direction in state.tables.codes
      ensures CodesInvertible(state.tables) ==> ParsePose(state.tables, s) == Some(state.AsPose())
    {
      state.AsString()
    }
  }
}
