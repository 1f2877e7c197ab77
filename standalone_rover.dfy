/**
 * src/Rover.java: the standalone rover. A heading is an angle theta in quarter
 * turns anticlockwise from east (0 = E, 1 = N, 2 = W, 3 = S); an instruction is
 * a turn by dtheta followed by a move of `distance` cells. A state is valid when
 * it lies inside the plateau and on no cell where an already completed rover
 * stands. Rovers are processed one after another and each joins the history of
 * completed rovers when it finishes.
 */
module StandaloneRover {
  import opened Wrappers
  import opened Utils
  import opened Decimal

  /** Rover.Xform: turn by dtheta quarter turns, then move `distance` cells. */
  datatype Xform = Xform(distance: int, dtheta: int)

  /** The fields of Rover.State as a value. */
  datatype AnglePose = AnglePose(x: int, y: int, theta: int)

  const CodeAngleMap: map<char, int> := map['E' := 0, 'N' := 1, 'W' := 2, 'S' := 3]
  const AngleCodeMap: map<int, char> := map[0 := 'E', 1 := 'N', 2 := 'W', 3 := 'S']
  const CodeXformMap: map<char, Xform> := map['M' := Xform(1, 0), 'L' := Xform(0, 1), 'R' := Xform(0, -1)]

  /** Java's `a % 4` on int: truncating, so the remainder has the sign of the dividend. */
  function JavaRem4(a: int): (r: int)
    ensures -4 < r < 4 && (a - r) % 4 == 0
    ensures a >= 0 ==> r >= 0
    ensures a <= 0 ==> r <= 0
  {
    if a >= 0 then a % 4 else -((-a) % 4)
  }

  /** Math.round(Math.cos(theta * PI / 2)) for theta in 0..3. */
  function CosQuarter(theta: int): int
    requires 0 <= theta <= 3
  {
    if theta == 0 then 1 else if theta == 2 then -1 else 0
  }

  /** Math.round(Math.sin(theta * PI / 2)) for theta in 0..3. */
  function SinQuarter(theta: int): int
    requires 0 <= theta <= 3
  {
    if theta == 1 then 1 else if theta == 3 then -1 else 0
  }

  /**
   * The state State.xform leaves: theta is turned and brought back into 0..3,
   * then the position moves `distance` cells along the new heading.
   */
  function Xformed(p: AnglePose, m: Xform): (r: AnglePose)
    ensures 0 <= r.theta <= 3 && r.theta == (p.theta + m.dtheta) % 4
  {
    var turned := JavaRem4(p.theta + m.dtheta);
    var theta := if turned < 0 then turned + 4 else turned;
    AnglePose(p.x + CosQuarter(theta) * m.distance, p.y + SinQuarter(theta) * m.distance, theta)
  }

  /**
   * The State(String) constructor: the fields between single spaces are x, y and
   * a heading whose first letter is looked up case-sensitively. None where Java
   * would throw.
   */
  function ParseAnglePose(description: string): (r: Option<AnglePose>)
    ensures r.Some? ==> 0 <= r.value.theta <= 3
  {
    var parts := JavaSplit(description, ' ');
    if |parts| < 3 || parts[2] == [] then None
    else
      match (ParseInt(parts[0]), ParseInt(parts[1]))
      case (Some(x), Some(y)) =>
        if parts[2][0] in CodeAngleMap then Some(AnglePose(x, y, CodeAngleMap[parts[2][0]])) else None
      case _ => None
  }

  /** State.asString: "x y C", three fields between single spaces, the last the heading's letter. */
  function FormatAngle(p: AnglePose): (s: string)
    requires 0 <= p.theta <= 3
    ensures JavaSplit(s, ' ') == [IntToString(p.x), IntToString(p.y), [AngleCodeMap[p.theta]]]
    ensures AngleCodeMap[p.theta] in CodeAngleMap && CodeAngleMap[AngleCodeMap[p.theta]] == p.theta
  {
    var s := IntToString(p.x) + " " + IntToString(p.y) + " " + [AngleCodeMap[p.theta]];
    SplitThreeWords(IntToString(p.x), IntToString(p.y), [AngleCodeMap[p.theta]]);
    s
  }

  /** The two code maps invert each other on the four headings. */
  lemma CodeMapsInvert()
    ensures AngleCodeMap.Keys == {0, 1, 2, 3}
    ensures forall c :: c in CodeAngleMap ==> CodeAngleMap[c] in AngleCodeMap && AngleCodeMap[CodeAngleMap[c]] == c
    ensures forall a :: a in AngleCodeMap ==> AngleCodeMap[a] in CodeAngleMap && CodeAngleMap[AngleCodeMap[a]] == a
  {
  }

  /** Printing a state and parsing the text gives the state back. */
  lemma FormatParseRoundTrip(p: AnglePose)
    requires 0 <= p.theta <= 3
    ensures ParseAnglePose(FormatAngle(p)) == Some(p)
  {
    ParseIntRoundTrip(p.x);
    ParseIntRoundTrip(p.y);
  }

  /** The text "x1 y1" makes the plateau from (0, 0) to (x1, y1). */
  lemma ParseBoundaryOfCorner(x1: int, y1: int)
    ensures ParseBoundary(IntToString(x1) + " " + IntToString(y1)) == Some(Boundary(0, 0, x1, y1))
  {
    var words := [IntToString(x1), IntToString(y1)];
    assert words[1..] == [IntToString(y1)];
    assert IntToString(x1) + " " + IntToString(y1) == Join(words, ' ');
    assert forall i :: 0 <= i < |words| ==> NoneOf(words[i], {' '});
    PiecesOfJoin(words, {' '}, ' ');
    assert JavaSplit(Join(words, ' '), ' ') == words;
    ParseIntRoundTrip(x1);
    ParseIntRoundTrip(y1);
  }

  /** Whatever theta was, an xform leaves it in 0..3. */
  lemma ThetaInRange(p: AnglePose, m: Xform)
    ensures 0 <= Xformed(p, m).theta <= 3
  {
  }

  /** 'M' moves one cell along the heading and does not turn: E is +x, N is +y, W is -x, S is -y. */
  lemma MoveDirections(x: int, y: int)
    ensures Xformed(AnglePose(x, y, 0), CodeXformMap['M']) == AnglePose(x + 1, y, 0)
    ensures Xformed(AnglePose(x, y, 1), CodeXformMap['M']) == AnglePose(x, y + 1, 1)
    ensures Xformed(AnglePose(x, y, 2), CodeXformMap['M']) == AnglePose(x - 1, y, 2)
    ensures Xformed(AnglePose(x, y, 3), CodeXformMap['M']) == AnglePose(x, y - 1, 3)
  {
  }

  /** 'L' then 'R', or 'R' then 'L', restores heading and position. */
  lemma TurnsCancel(p: AnglePose)
    requires 0 <= p.theta <= 3
    ensures Xformed(Xformed(p, CodeXformMap['L']), CodeXformMap['R']) == p
    ensures Xformed(Xformed(p, CodeXformMap['R']), CodeXformMap['L']) == p
  {
  }

  // ---------------------------------------------------------------------------
  // The plateau and the completed rovers

  /** Rover.Boundary: the rectangle from (x0, y0) = (0, 0) to (x1, y1), edges included. */
  datatype Boundary = Boundary(x0: int, y0: int, x1: int, y1: int)
  {
    /** contains: edges and corners included, so only a rectangle with x0 <= x1 and y0 <= y1 holds a cell. */
    predicate Contains(x: int, y: int): (r: bool)
      ensures r ==> x0 <= x1 && y0 <= y1
      ensures (x == x0 || x == x1) && (y == y0 || y == y1) ==> (r <==> x0 <= x1 && y0 <= y1)
    {
      x0 <= x <= x1 && y0 <= y <= y1
    }
  }

  /** The Boundary constructor: the first two fields between single spaces give the upper-right corner. */
  function ParseBoundary(description: string): (r: Option<Boundary>)
    ensures r.Some? ==> r.value.x0 == 0 && r.value.y0 == 0
  {
    var parts := JavaSplit(description, ' ');
    if |parts| < 2 then None
    else
      match (ParseInt(parts[0]), ParseInt(parts[1]))
      case (Some(x1), Some(y1)) => Some(Boundary(0, 0, x1, y1))
      case _ => None
  }

  /** Some completed rover stands on (x, y), whatever its heading. */
  predicate Occupied(completedRovers: seq<AnglePose>, x: int, y: int)
  {
    exists i :: 0 <= i < |completedRovers| && completedRovers[i].x == x && completedRovers[i].y == y
  }

  /** isValidState as a predicate: inside the plateau and on no completed rover's cell, whatever the headings. */
  predicate IsValid(b: Boundary, completedRovers: seq<AnglePose>, p: AnglePose): (r: bool)
    ensures r <==> b.Contains(p.x, p.y) && forall i :: 0 <= i < |completedRovers| ==>
      !(completedRovers[i].x == p.x && completedRovers[i].y == p.y)
  {
    b.Contains(p.x, p.y) && !Occupied(completedRovers, p.x, p.y)
  }

  // ---------------------------------------------------------------------------
  // One rover's instruction list, as a function of its starting state

  /** Every character is an instruction code: one of the characters of _codeXformMap. */
  predicate AllCodes(instructions: string)
  {
    forall i :: 0 <= i < |instructions| ==> instructions[i] in CodeXformMap
  }

  /**
   * The loop of processInstructionList from p: it stops at the end of the list,
   * at CharacterIterator.DONE, or at the first instruction whose result is
   * invalid. None where it reaches a character with no xform, on which
   * performInstruction dereferences a null Xform and Java throws.
   */
  function Advance(b: Boundary, completedRovers: seq<AnglePose>, p: AnglePose, instructions: string): (r: Option<AnglePose>)
    ensures r.Some? ==> r.value == p || (0 <= r.value.theta <= 3 && IsValid(b, completedRovers, r.value))
    decreases |instructions|
  {
    if instructions == [] || instructions[0] == Done then Some(p)
    else if instructions[0] !in CodeXformMap then None
    else
      var candidate := Xformed(p, CodeXformMap[instructions[0]]);
      if IsValid(b, completedRovers, candidate) then Advance(b, completedRovers, candidate, instructions[1..]) else Some(p)
  }

  /**
   * Where processInstructionList leaves a rover that starts at p: nowhere else
   * when p itself is invalid, and None where Java throws.
   */
  function RunRover(b: Boundary, completedRovers: seq<AnglePose>, p: AnglePose, instructions: string): (r: Option<AnglePose>)
    ensures !IsValid(b, completedRovers, p) ==> r == Some(p)
    ensures r.Some? ==> r.value == p || (0 <= r.value.theta <= 3 && IsValid(b, completedRovers, r.value))
    ensures AllCodes(instructions) ==> r.Some?
  {
    if IsValid(b, completedRovers, p) then
      CodesNeverThrow(b, completedRovers, p, instructions);
      Advance(b, completedRovers, p, instructions)
    else Some(p)
  }

  /** A list made only of instruction codes never makes the loop throw. */
  lemma {:induction false} CodesNeverThrow(b: Boundary, completedRovers: seq<AnglePose>, p: AnglePose, instructions: string)
    ensures AllCodes(instructions) ==> Advance(b, completedRovers, p, instructions).Some?
    decreases |instructions|
  {
    if AllCodes(instructions) && instructions != [] {
      var candidate := Xformed(p, CodeXformMap[instructions[0]]);
      CodesNeverThrow(b, completedRovers, candidate, instructions[1..]);
    }
  }

  /** Instruction k, when it is a code whose result q is valid, is carried out, and the run goes on from the next one. */
  lemma AdvanceAccepts(b: Boundary, completedRovers: seq<AnglePose>, p: AnglePose, instructions: string, k: nat, q: AnglePose)
    requires k < |instructions| && instructions[k] in CodeXformMap
    requires q == Xformed(p, CodeXformMap[instructions[k]]) && IsValid(b, completedRovers, q)
    ensures Advance(b, completedRovers, p, instructions[k..]) == Advance(b, completedRovers, q, instructions[k + 1..])
  {
    assert instructions[k..][0] == instructions[k];
    assert instructions[k..][1..] == instructions[k + 1..];
  }

  /** A DONE character ends the list: nothing after it is read, even an unknown code. */
  lemma {:induction false} DoneEndsList(b: Boundary, completedRovers: seq<AnglePose>, p: AnglePose, instructions: string, rest: string)
    ensures RunRover(b, completedRovers, p, instructions + [Done] + rest) == RunRover(b, completedRovers, p, instructions)
  {
    if IsValid(b, completedRovers, p) {
      AdvanceStopsAtDone(b, completedRovers, p, instructions, rest);
    }
  }

  /** The loop stops at a DONE character from any state: nothing after it is read. */
  lemma {:induction false} AdvanceStopsAtDone(b: Boundary, completedRovers: seq<AnglePose>, p: AnglePose, instructions: string, rest: string)
    ensures Advance(b, completedRovers, p, instructions + [Done] + rest) == Advance(b, completedRovers, p, instructions)
    decreases |instructions|
  {
    var whole := instructions + [Done] + rest;
    if instructions == [] {
      assert whole[0] == Done;
    } else {
      assert whole[0] == instructions[0];
      if instructions[0] in CodeXformMap {
        var candidate := Xformed(p, CodeXformMap[instructions[0]]);
        assert whole[1..] == instructions[1..] + [Done] + rest;
        AdvanceStopsAtDone(b, completedRovers, candidate, instructions[1..], rest);
      }
    }
  }

  /** How many instructions processInstructionList carries out; each of them is an instruction code. */
  function Executed(b: Boundary, completedRovers: seq<AnglePose>, p: AnglePose, instructions: string): (n: nat)
    ensures n <= |instructions|
    ensures forall i :: 0 <= i < n ==> instructions[i] in CodeXformMap
    decreases |instructions|
  {
    if instructions == [] || !IsValid(b, completedRovers, p) || instructions[0] !in CodeXformMap then 0
    else
      var candidate := Xformed(p, CodeXformMap[instructions[0]]);
      if IsValid(b, completedRovers, candidate) then 1 + Executed(b, completedRovers, candidate, instructions[1..]) else 0
  }

  /** The instructions applied one after another with no check. */
  function Replay(p: AnglePose, instructions: string): AnglePose
    requires AllCodes(instructions)
    decreases |instructions|
  {
    if instructions == [] then p
    else Xformed(Replay(p, instructions[..|instructions| - 1]), CodeXformMap[instructions[|instructions| - 1]])
  }

  /** Replaying a list of codes is replaying its first code and then the rest. */
  lemma {:induction false} ReplayFirst(p: AnglePose, c: char, rest: string)
    requires c in CodeXformMap && AllCodes(rest)
    ensures AllCodes([c] + rest) && Replay(p, [c] + rest) == Replay(Xformed(p, CodeXformMap[c]), rest)
    decreases |rest|
  {
    if rest != [] {
      var front := rest[..|rest| - 1];
      assert ([c] + rest)[..|rest|] == [c] + front;
      ReplayFirst(p, c, front);
    } else {
      assert ([c] + rest)[..0] == [];
    }
  }

  /** Replaying a prefix of codes is replaying the rest's prefix from the first result. */
  lemma ReplayPrefixes(p: AnglePose, instructions: string, k: nat)
    requires k <= |instructions| && forall i :: 0 <= i < k ==> instructions[i] in CodeXformMap
    ensures forall j :: 1 <= j <= k ==>
      Replay(p, instructions[..j]) == Replay(Xformed(p, CodeXformMap[instructions[0]]), instructions[1..][..j - 1])
  {
    forall j | 1 <= j <= k
      ensures Replay(p, instructions[..j]) == Replay(Xformed(p, CodeXformMap[instructions[0]]), instructions[1..][..j - 1])
    {
      var c, rest := instructions[0], instructions[1..];
      assert instructions[..j] == [c] + rest[..j - 1];
      ReplayFirst(p, c, rest[..j - 1]);
    }
  }

  /**
   * A rover that starts invalid carries out nothing. Otherwise it carries out the
   * first Executed instructions, each a code landing on a valid state, and stops
   * at the next character: DONE, an instruction whose result would be invalid,
   * or a character with no xform, on which Java throws.
   */
  lemma {:induction false} RunStopsAtFirstInvalid(
    b: Boundary, completedRovers: seq<AnglePose>, p: AnglePose, instructions: string)
    ensures !IsValid(b, completedRovers, p) ==>
      Executed(b, completedRovers, p, instructions) == 0 && RunRover(b, completedRovers, p, instructions) == Some(p)
    ensures var k := Executed(b, completedRovers, p, instructions);
      && (forall j :: 1 <= j <= k ==> IsValid(b, completedRovers, Replay(p, instructions[..j])))
      && (IsValid(b, completedRovers, p) && k < |instructions| && instructions[k] in CodeXformMap ==>
            !IsValid(b, completedRovers, Xformed(Replay(p, instructions[..k]), CodeXformMap[instructions[k]])))
      && RunRover(b, completedRovers, p, instructions)
         == if IsValid(b, completedRovers, p) && k < |instructions| && instructions[k] != Done && instructions[k] !in CodeXformMap
            then None
            else Some(Replay(p, instructions[..k]))
    decreases |instructions|
  {
    assert instructions[..0] == [];
    if instructions != [] && IsValid(b, completedRovers, p) && instructions[0] in CodeXformMap {
      var c, rest := instructions[0], instructions[1..];
      var candidate := Xformed(p, CodeXformMap[c]);
      if IsValid(b, completedRovers, candidate) {
        RunStopsAtFirstInvalid(b, completedRovers, candidate, rest);
        ReplayPrefixes(p, instructions, Executed(b, completedRovers, p, instructions));
        assert rest[..0] == [];
      }
    }
  }

  /** A rover that starts valid and does not make Java throw ends valid: inside the plateau and on no completed rover's cell. */
  lemma RunKeepsValid(b: Boundary, completedRovers: seq<AnglePose>, p: AnglePose, instructions: string)
    requires IsValid(b, completedRovers, p) && RunRover(b, completedRovers, p, instructions).Some?
    ensures IsValid(b, completedRovers, RunRover(b, completedRovers, p, instructions).value)
  {
  }

  // ---------------------------------------------------------------------------
  // The objects

  class State {
    var x: int
    var y: int
    var theta: int

    function AsPose(): AnglePose
      reads this
    {
      AnglePose(x, y, theta)
    }

    /** The copy constructor. */
    constructor Copy(state: State)
      ensures AsPose() == state.AsPose()
    {
      x := state.x;
      y := state.y;
      theta := state.theta;
    }

    /** The string constructor. */
    constructor (description: string)
      requires ParseAnglePose(description).Some?
      ensures AsPose() == ParseAnglePose(description).value
    {
      var parts := JavaSplit(description, ' ');
      x := ParseInt(parts[0]).value;
      y := ParseInt(parts[1]).value;
      theta := CodeAngleMap[parts[2][0]];
    }

    /** asString, whose text parses back to this state. */
    function AsString(): (s: string)
      reads this
      requires 0 <= theta <= 3
      ensures ParseAnglePose(s) == Some(AsPose())
    {
      FormatParseRoundTrip(AsPose());
      FormatAngle(AsPose())
    }

    /** xform. */
    method Transform(m: Xform)
      modifies this
      ensures AsPose() == Xformed(old(AsPose()), m)
      ensures 0 <= theta <= 3
    {
      theta := JavaRem4(theta + m.dtheta);
      if theta < 0 {
        theta := theta + 4;
      }
      x := x + CosQuarter(theta) * m.distance;
      y := y + SinQuarter(theta) * m.distance;
    }
  }

  /**
   * isValidState: false when the state lies outside the plateau, or when a
   * completed rover stands on its cell; the scan of the completed rovers stops
   * at the first match.
   */
  method IsValidState(state: State, boundary: Boundary, completedRovers: seq<AnglePose>) returns (valid: bool)
    ensures valid == IsValid(boundary, completedRovers, state.AsPose())
  {
    valid := true;
    if !boundary.Contains(state.x, state.y) {
      valid := false;
    }
    var i := 0;
    while i < |completedRovers|
      invariant 0 <= i <= |completedRovers|
      invariant valid == (boundary.Contains(state.x, state.y)
        && forall j :: 0 <= j < i ==> !(completedRovers[j].x == state.x && completedRovers[j].y == state.y))
    {
      if completedRovers[i].x == state.x && completedRovers[i].y == state.y {
        valid := false;
        break;
      }
      i := i + 1;
    }
  }

  class Rover {
    var state: State

    constructor (description: string)
      requires ParseAnglePose(description).Some?
      ensures fresh(state) && state.AsPose() == ParseAnglePose(description).value
    {
      state := new State(description);
    }

    /**
     * performInstruction: the instruction's xform is applied to a copy of the
     * state, which replaces the state exactly when it is valid.
     */
    method PerformInstruction(code: char, boundary: Boundary, completedRovers: seq<AnglePose>) returns (valid: bool)
      requires code in CodeXformMap
      modifies this
      ensures var candidate := Xformed(old(state.AsPose()), CodeXformMap[code]);
        && valid == IsValid(boundary, completedRovers, candidate)
        && state.AsPose() == (if valid then candidate else old(state.AsPose()))
      ensures valid ==> fresh(state)
      ensures !valid ==> state == old(state)
    {
      var m := CodeXformMap[code];
      var newState := new State.Copy(state);
      newState.Transform(m);
      valid := IsValidState(newState, boundary, completedRovers);
      if valid {
        state := newState;
      }
    }

    /**
     * processInstructionList: nothing when the starting state is invalid, else the
     * instructions up to CharacterIterator.DONE or the first refused one. The caller
     * must not hand it a list on which Java throws: one whose run reaches a
     * character with no xform.
     */
    method ProcessInstructionList(instructionList: string, boundary: Boundary, completedRovers: seq<AnglePose>)
      requires RunRover(boundary, completedRovers, state.AsPose(), instructionList).Some?
      modifies this
      ensures Some(state.AsPose()) == RunRover(boundary, completedRovers, old(state.AsPose()), instructionList)
      ensures state == old(state) || fresh(state)
    {
      var startValid := IsValidState(state, boundary, completedRovers);
      if startValid {
        var i := 0;
        while i < |instructionList| && instructionList[i] != Done
          invariant i <= |instructionList|
          invariant state == old(state) || fresh(state)
          invariant RunRover(boundary, completedRovers, old(state.AsPose()), instructionList)
                 == Advance(boundary, completedRovers, state.AsPose(), instructionList[i..])
        {
          assert instructionList[i..][1..] == instructionList[i + 1..];
          var valid := PerformInstruction(instructionList[i], boundary, completedRovers);
          if !valid {
            break;
          }
          i := i + 1;
        }
      }
    }
  }
}
