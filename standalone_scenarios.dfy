/**
 * The sample session of src/Rover.java worked through the model: a 5 by 5
 * plateau, the rover "1 2 N" with "LMLMLMLMM" and the rover "3 3 E" with
 * "MMRMMRMRRM", whose states "1 3 N" and "5 1 E" are written out; then a rover
 * placed outside the plateau and a rover blocked by a completed one.
 */
module StandaloneScenarios {
  import opened Wrappers
  import opened Utils
  import opened Decimal
  import opened StandaloneRover
  import opened StandaloneFleet

  /** Proof step for FirstRoverPath: instruction 1, 'L', takes (1, 2, 1) to (1, 2, 2). */
  lemma FirstRoverStep1()
    ensures Advance(Boundary(0, 0, 5, 5), [], AnglePose(1, 2, 1), "LMLMLMLMM"[0..])
         == Advance(Boundary(0, 0, 5, 5), [], AnglePose(1, 2, 2), "LMLMLMLMM"[1..])
  {
    AdvanceAccepts(Boundary(0, 0, 5, 5), [], AnglePose(1, 2, 1), "LMLMLMLMM", 0, AnglePose(1, 2, 2));
  }

  /** Proof step for FirstRoverPath: instruction 2, 'M', takes (1, 2, 2) to (0, 2, 2). */
  lemma FirstRoverStep2()
    ensures Advance(Boundary(0, 0, 5, 5), [], AnglePose(1, 2, 2), "LMLMLMLMM"[1..])
         == Advance(Boundary(0, 0, 5, 5), [], AnglePose(0, 2, 2), "LMLMLMLMM"[2..])
  {
    AdvanceAccepts(Boundary(0, 0, 5, 5), [], AnglePose(1, 2, 2), "LMLMLMLMM", 1, AnglePose(0, 2, 2));
  }

  /** Proof step for FirstRoverPath: instruction 3, 'L', takes (0, 2, 2) to (0, 2, 3). */
  lemma FirstRoverStep3()
    ensures Advance(Boundary(0, 0, 5, 5), [], AnglePose(0, 2, 2), "LMLMLMLMM"[2..])
         == Advance(Boundary(0, 0, 5, 5), [], AnglePose(0, 2, 3), "LMLMLMLMM"[3..])
  {
    AdvanceAccepts(Boundary(0, 0, 5, 5), [], AnglePose(0, 2, 2), "LMLMLMLMM", 2, AnglePose(0, 2, 3));
  }

  /** Proof step for FirstRoverPath: instruction 4, 'M', takes (0, 2, 3) to (0, 1, 3). */
  lemma FirstRoverStep4()
    ensures Advance(Boundary(0, 0, 5, 5), [], AnglePose(0, 2, 3), "LMLMLMLMM"[3..])
         == Advance(Boundary(0, 0, 5, 5), [], AnglePose(0, 1, 3), "LMLMLMLMM"[4..])
  {
    AdvanceAccepts(Boundary(0, 0, 5, 5), [], AnglePose(0, 2, 3), "LMLMLMLMM", 3, AnglePose(0, 1, 3));
  }

  /** Proof step for FirstRoverPath: instruction 5, 'L', takes (0, 1, 3) to (0, 1, 0). */
  lemma FirstRoverStep5()
    ensures Advance(Boundary(0, 0, 5, 5), [], AnglePose(0, 1, 3), "LMLMLMLMM"[4..])
         == Advance(Boundary(0, 0, 5, 5), [], AnglePose(0, 1, 0), "LMLMLMLMM"[5..])
  {
    AdvanceAccepts(Boundary(0, 0, 5, 5), [], AnglePose(0, 1, 3), "LMLMLMLMM", 4, AnglePose(0, 1, 0));
  }

  /** Proof step for FirstRoverPath: instruction 6, 'M', takes (0, 1, 0) to (1, 1, 0). */
  lemma FirstRoverStep6()
    ensures Advance(Boundary(0, 0, 5, 5), [], AnglePose(0, 1, 0), "LMLMLMLMM"[5..])
         == Advance(Boundary(0, 0, 5, 5), [], AnglePose(1, 1, 0), "LMLMLMLMM"[6..])
  {
    AdvanceAccepts(Boundary(0, 0, 5, 5), [], AnglePose(0, 1, 0), "LMLMLMLMM", 5, AnglePose(1, 1, 0));
  }

  /** Proof step for FirstRoverPath: instruction 7, 'L', takes (1, 1, 0) to (1, 1, 1). */
  lemma FirstRoverStep7()
    ensures Advance(Boundary(0, 0, 5, 5), [], AnglePose(1, 1, 0), "LMLMLMLMM"[6..])
         == Advance(Boundary(0, 0, 5, 5), [], AnglePose(1, 1, 1), "LMLMLMLMM"[7..])
  {
    AdvanceAccepts(Boundary(0, 0, 5, 5), [], AnglePose(1, 1, 0), "LMLMLMLMM", 6, AnglePose(1, 1, 1));
  }

  /** Proof step for FirstRoverPath: instruction 8, 'M', takes (1, 1, 1) to (1, 2, 1). */
  lemma FirstRoverStep8()
    ensures Advance(Boundary(0, 0, 5, 5), [], AnglePose(1, 1, 1), "LMLMLMLMM"[7..])
         == Advance(Boundary(0, 0, 5, 5), [], AnglePose(1, 2, 1), "LMLMLMLMM"[8..])
  {
    AdvanceAccepts(Boundary(0, 0, 5, 5), [], AnglePose(1, 1, 1), "LMLMLMLMM", 7, AnglePose(1, 2, 1));
  }

  /** Proof step for FirstRoverPath: instruction 9, 'M', takes (1, 2, 1) to (1, 3, 1). */
  lemma FirstRoverStep9()
    ensures Advance(Boundary(0, 0, 5, 5), [], AnglePose(1, 2, 1), "LMLMLMLMM"[8..])
         == Advance(Boundary(0, 0, 5, 5), [], AnglePose(1, 3, 1), "LMLMLMLMM"[9..])
  {
    AdvanceAccepts(Boundary(0, 0, 5, 5), [], AnglePose(1, 2, 1), "LMLMLMLMM", 8, AnglePose(1, 3, 1));
  }

  /** "1 2 N" with "LMLMLMLMM" on a 5 by 5 plateau ends at (1, 3) facing N. */
  lemma FirstRoverPath()
    ensures RunRover(Boundary(0, 0, 5, 5), [], AnglePose(1, 2, 1), "LMLMLMLMM") == Some(AnglePose(1, 3, 1))
  {
    FirstRoverStep1(); FirstRoverStep2(); FirstRoverStep3();
    FirstRoverStep4(); FirstRoverStep5(); FirstRoverStep6();
    FirstRoverStep7(); FirstRoverStep8(); FirstRoverStep9();
    assert "LMLMLMLMM"[0..] == "LMLMLMLMM" && "LMLMLMLMM"[9..] == [];
  }

  /** Proof step for SecondRoverPath: instruction 1, 'M', takes (3, 3, 0) to (4, 3, 0), beside the first rover at (1, 3). */
  lemma SecondRoverStep1()
    ensures Advance(Boundary(0, 0, 5, 5), [AnglePose(1, 3, 1)], AnglePose(3, 3, 0), "MMRMMRMRRM"[0..])
         == Advance(Boundary(0, 0, 5, 5), [AnglePose(1, 3, 1)], AnglePose(4, 3, 0), "MMRMMRMRRM"[1..])
  {
    AdvanceAccepts(Boundary(0, 0, 5, 5), [AnglePose(1, 3, 1)], AnglePose(3, 3, 0), "MMRMMRMRRM", 0, AnglePose(4, 3, 0));
  }

  /** Proof step for SecondRoverPath: instruction 2, 'M', takes (4, 3, 0) to (5, 3, 0), beside the first rover at (1, 3). */
  lemma SecondRoverStep2()
    ensures Advance(Boundary(0, 0, 5, 5), [AnglePose(1, 3, 1)], AnglePose(4, 3, 0), "MMRMMRMRRM"[1..])
         == Advance(Boundary(0, 0, 5, 5), [AnglePose(1, 3, 1)], AnglePose(5, 3, 0), "MMRMMRMRRM"[2..])
  {
    AdvanceAccepts(Boundary(0, 0, 5, 5), [AnglePose(1, 3, 1)], AnglePose(4, 3, 0), "MMRMMRMRRM", 1, AnglePose(5, 3, 0));
  }

  /** Proof step for SecondRoverPath: instruction 3, 'R', takes (5, 3, 0) to (5, 3, 3), beside the first rover at (1, 3). */
  lemma SecondRoverStep3()
    ensures Advance(Boundary(0, 0, 5, 5), [AnglePose(1, 3, 1)], AnglePose(5, 3, 0), "MMRMMRMRRM"[2..])
         == Advance(Boundary(0, 0, 5, 5), [AnglePose(1, 3, 1)], AnglePose(5, 3, 3), "MMRMMRMRRM"[3..])
  {
    AdvanceAccepts(Boundary(0, 0, 5, 5), [AnglePose(1, 3, 1)], AnglePose(5, 3, 0), "MMRMMRMRRM", 2, AnglePose(5, 3, 3));
  }

  /** Proof step for SecondRoverPath: instruction 4, 'M', takes (5, 3, 3) to (5, 2, 3), beside the first rover at (1, 3). */
  lemma SecondRoverStep4()
    ensures Advance(Boundary(0, 0, 5, 5), [AnglePose(1, 3, 1)], AnglePose(5, 3, 3), "MMRMMRMRRM"[3..])
         == Advance(Boundary(0, 0, 5, 5), [AnglePose(1, 3, 1)], AnglePose(5, 2, 3), "MMRMMRMRRM"[4..])
  {
    AdvanceAccepts(Boundary(0, 0, 5, 5), [AnglePose(1, 3, 1)], AnglePose(5, 3, 3), "MMRMMRMRRM", 3, AnglePose(5, 2, 3));
  }

  /** Proof step for SecondRoverPath: instruction 5, 'M', takes (5, 2, 3) to (5, 1, 3), beside the first rover at (1, 3). */
  lemma SecondRoverStep5()
    ensures Advance(Boundary(0, 0, 5, 5), [AnglePose(1, 3, 1)], AnglePose(5, 2, 3), "MMRMMRMRRM"[4..])
         == Advance(Boundary(0, 0, 5, 5), [AnglePose(1, 3, 1)], AnglePose(5, 1, 3), "MMRMMRMRRM"[5..])
  {
    AdvanceAccepts(Boundary(0, 0, 5, 5), [AnglePose(1, 3, 1)], AnglePose(5, 2, 3), "MMRMMRMRRM", 4, AnglePose(5, 1, 3));
  }

  /** Proof step for SecondRoverPath: instruction 6, 'R', takes (5, 1, 3) to (5, 1, 2), beside the first rover at (1, 3). */
  lemma SecondRoverStep6()
    ensures Advance(Boundary(0, 0, 5, 5), [AnglePose(1, 3, 1)], AnglePose(5, 1, 3), "MMRMMRMRRM"[5..])
         == Advance(Boundary(0, 0, 5, 5), [AnglePose(1, 3, 1)], AnglePose(5, 1, 2), "MMRMMRMRRM"[6..])
  {
    AdvanceAccepts(Boundary(0, 0, 5, 5), [AnglePose(1, 3, 1)], AnglePose(5, 1, 3), "MMRMMRMRRM", 5, AnglePose(5, 1, 2));
  }

  /** Proof step for SecondRoverPath: instruction 7, 'M', takes (5, 1, 2) to (4, 1, 2), beside the first rover at (1, 3). */
  lemma SecondRoverStep7()
    ensures Advance(Boundary(0, 0, 5, 5), [AnglePose(1, 3, 1)], AnglePose(5, 1, 2), "MMRMMRMRRM"[6..])
         == Advance(Boundary(0, 0, 5, 5), [AnglePose(1, 3, 1)], AnglePose(4, 1, 2), "MMRMMRMRRM"[7..])
  {
    AdvanceAccepts(Boundary(0, 0, 5, 5), [AnglePose(1, 3, 1)], AnglePose(5, 1, 2), "MMRMMRMRRM", 6, AnglePose(4, 1, 2));
  }

  /** Proof step for SecondRoverPath: instruction 8, 'R', takes (4, 1, 2) to (4, 1, 1), beside the first rover at (1, 3). */
  lemma SecondRoverStep8()
    ensures Advance(Boundary(0, 0, 5, 5), [AnglePose(1, 3, 1)], AnglePose(4, 1, 2), "MMRMMRMRRM"[7..])
         == Advance(Boundary(0, 0, 5, 5), [AnglePose(1, 3, 1)], AnglePose(4, 1, 1), "MMRMMRMRRM"[8..])
  {
    AdvanceAccepts(Boundary(0, 0, 5, 5), [AnglePose(1, 3, 1)], AnglePose(4, 1, 2), "MMRMMRMRRM", 7, AnglePose(4, 1, 1));
  }

  /** Proof step for SecondRoverPath: instruction 9, 'R', takes (4, 1, 1) to (4, 1, 0), beside the first rover at (1, 3). */
  lemma SecondRoverStep9()
    ensures Advance(Boundary(0, 0, 5, 5), [AnglePose(1, 3, 1)], AnglePose(4, 1, 1), "MMRMMRMRRM"[8..])
         == Advance(Boundary(0, 0, 5, 5), [AnglePose(1, 3, 1)], AnglePose(4, 1, 0), "MMRMMRMRRM"[9..])
  {
    AdvanceAccepts(Boundary(0, 0, 5, 5), [AnglePose(1, 3, 1)], AnglePose(4, 1, 1), "MMRMMRMRRM", 8, AnglePose(4, 1, 0));
  }

  /** Proof step for SecondRoverPath: instruction 10, 'M', takes (4, 1, 0) to (5, 1, 0), beside the first rover at (1, 3). */
  lemma SecondRoverStep10()
    ensures Advance(Boundary(0, 0, 5, 5), [AnglePose(1, 3, 1)], AnglePose(4, 1, 0), "MMRMMRMRRM"[9..])
         == Advance(Boundary(0, 0, 5, 5), [AnglePose(1, 3, 1)], AnglePose(5, 1, 0), "MMRMMRMRRM"[10..])
  {
    AdvanceAccepts(Boundary(0, 0, 5, 5), [AnglePose(1, 3, 1)], AnglePose(4, 1, 0), "MMRMMRMRRM", 9, AnglePose(5, 1, 0));
  }

  /** Proof step for SecondRoverPath: its first five instructions take (3, 3, 0) to (5, 1, 3). */
  lemma SecondRoverOpening()
    ensures Advance(Boundary(0, 0, 5, 5), [AnglePose(1, 3, 1)], AnglePose(3, 3, 0), "MMRMMRMRRM"[0..])
         == Advance(Boundary(0, 0, 5, 5), [AnglePose(1, 3, 1)], AnglePose(5, 1, 3), "MMRMMRMRRM"[5..])
  {
    SecondRoverStep1(); SecondRoverStep2(); SecondRoverStep3(); SecondRoverStep4(); SecondRoverStep5();
  }

  /** "3 3 E" with "MMRMMRMRRM" ends at (5, 1) facing E, with the first rover at (1, 3). */
  lemma SecondRoverPath()
    ensures RunRover(Boundary(0, 0, 5, 5), [AnglePose(1, 3, 1)], AnglePose(3, 3, 0), "MMRMMRMRRM") == Some(AnglePose(5, 1, 0))
  {
    SecondRoverOpening();
    SecondRoverStep6(); SecondRoverStep7(); SecondRoverStep8(); SecondRoverStep9(); SecondRoverStep10();
    assert "MMRMMRMRRM"[0..] == "MMRMMRMRRM" && "MMRMMRMRRM"[10..] == [];
  }

  /** A pose line that prints a state parses back to it. */
  lemma PoseText(p: AnglePose, text: string)
    requires 0 <= p.theta <= 3 && FormatAngle(p) == text
    ensures ParseAnglePose(text) == Some(p)
  {
    FormatParseRoundTrip(p);
  }

  /** A plateau line naming the same corner number twice parses to that square. */
  lemma SquareText(n: int, digits: string, text: string)
    requires IntToString(n) == digits && text == digits + " " + digits
    ensures ParseBoundary(text) == Some(Boundary(0, 0, n, n))
  {
    ParseBoundaryOfCorner(n, n);
  }

  lemma Text12N() ensures ParseAnglePose("1 2 N") == Some(AnglePose(1, 2, 1)) && FormatAngle(AnglePose(1, 2, 1)) == "1 2 N"
  {
    assert IntToString(1) == "1";
    assert IntToString(2) == "2";
    assert FormatAngle(AnglePose(1, 2, 1)) == "1 2 N";
    PoseText(AnglePose(1, 2, 1), "1 2 N");
  }

  lemma Text33E() ensures ParseAnglePose("3 3 E") == Some(AnglePose(3, 3, 0))
  {
    assert IntToString(3) == "3";
    assert FormatAngle(AnglePose(3, 3, 0)) == "3 3 E";
    PoseText(AnglePose(3, 3, 0), "3 3 E");
  }

  lemma Text13N() ensures FormatAngle(AnglePose(1, 3, 1)) == "1 3 N"
  {
    assert IntToString(1) == "1" && IntToString(3) == "3";
  }

  lemma Text51E() ensures FormatAngle(AnglePose(5, 1, 0)) == "5 1 E"
  {
    assert IntToString(5) == "5" && IntToString(1) == "1";
  }

  lemma Text55() ensures ParseBoundary("5 5") == Some(Boundary(0, 0, 5, 5))
  {
    SquareText(5, "5", "5 5");
  }

  /** Proof step for the sessions below: list facts stated on variables, so that no literal list is compared. */
  lemma PairOfLines(first: string, second: string)
    ensures [first] + [second] == [first, second]
    ensures [first, second] + [] == [first, second]
  {
  }

  /** Proof step for the sessions below: two rovers' lines in a row. */
  lemma TwoRovers(position1: string, instructions1: string, position2: string, instructions2: string)
    ensures [position1, instructions1] + [position2, instructions2] == [position1, instructions1, position2, instructions2]
  {
  }

  /** Proof step for the sessions below: the plateau line and the rover lines after it. */
  lemma StreamOfTwoRovers(plateau: string, position1: string, instructions1: string, position2: string, instructions2: string)
    ensures [plateau, position1, instructions1, position2, instructions2][0] == plateau
    ensures [plateau, position1, instructions1, position2, instructions2][1..] == [position1, instructions1, position2, instructions2]
  {
  }

  lemma ExampleSecondRoverLines()
    ensures WellFormedRoverLines(["3 3 E", "MMRMMRMRRM"])
    ensures FleetCompletes(Boundary(0, 0, 5, 5), [AnglePose(1, 3, 1)], ["3 3 E", "MMRMMRMRRM"])
    ensures RunFleet(Boundary(0, 0, 5, 5), [AnglePose(1, 3, 1)], ["3 3 E", "MMRMMRMRRM"]).0 == ["5 1 E"]
  {
    Text33E();
    SecondRoverPath();
    FleetCons(Boundary(0, 0, 5, 5), [AnglePose(1, 3, 1)], "3 3 E", "MMRMMRMRRM", [], AnglePose(3, 3, 0), AnglePose(5, 1, 0));
    PairOfLines("3 3 E", "MMRMMRMRRM");
    Text51E();
  }

  lemma ExampleRoverLines()
    ensures WellFormedRoverLines(["1 2 N", "LMLMLMLMM", "3 3 E", "MMRMMRMRRM"])
    ensures FleetCompletes(Boundary(0, 0, 5, 5), [], ["1 2 N", "LMLMLMLMM", "3 3 E", "MMRMMRMRRM"])
    ensures RunFleet(Boundary(0, 0, 5, 5), [], ["1 2 N", "LMLMLMLMM", "3 3 E", "MMRMMRMRRM"]).0 == ["1 3 N", "5 1 E"]
  {
    Text12N();
    FirstRoverPath();
    ExampleSecondRoverLines();
    FleetCons(Boundary(0, 0, 5, 5), [], "1 2 N", "LMLMLMLMM", ["3 3 E", "MMRMMRMRRM"], AnglePose(1, 2, 1), AnglePose(1, 3, 1));
    TwoRovers("1 2 N", "LMLMLMLMM", "3 3 E", "MMRMMRMRRM");
    assert [] + [AnglePose(1, 3, 1)] == [AnglePose(1, 3, 1)];
    Text13N();
    PairOfLines("1 3 N", "5 1 E");
  }

  lemma ExampleStream()
    ensures StreamRuns(["5 5", "1 2 N", "LMLMLMLMM", "3 3 E", "MMRMMRMRRM"], [])
    ensures ProcessStream(["5 5", "1 2 N", "LMLMLMLMM", "3 3 E", "MMRMMRMRRM"]) == ["1 3 N", "5 1 E"]
  {
    Text55();
    ExampleRoverLines();
    StreamOfTwoRovers("5 5", "1 2 N", "LMLMLMLMM", "3 3 E", "MMRMMRMRRM");
  }

  // ---------------------------------------------------------------------------
  // A rover placed outside the plateau stays where it was put

  lemma Text22() ensures ParseBoundary("2 2") == Some(Boundary(0, 0, 2, 2))
  {
    SquareText(2, "2", "2 2");
  }


  lemma Text55N() ensures ParseAnglePose("5 5 N") == Some(AnglePose(5, 5, 1)) && FormatAngle(AnglePose(5, 5, 1)) == "5 5 N"
  {
    assert IntToString(5) == "5";
    assert FormatAngle(AnglePose(5, 5, 1)) == "5 5 N";
    PoseText(AnglePose(5, 5, 1), "5 5 N");
  }

  /** On a 2 by 2 plateau the rover "5 5 N" does not move for "M": "5 5 N" is written. */
  lemma StartOutsidePlateau()
    ensures StreamRuns(["2 2", "5 5 N", "M"], [])
    ensures ProcessStream(["2 2", "5 5 N", "M"]) == ["5 5 N"]
  {
    var lines := ["2 2", "5 5 N", "M"];
    var b, start := Boundary(0, 0, 2, 2), AnglePose(5, 5, 1);
    Text22();
    Text55N();
    assert !IsValid(b, [], start);
    FleetCons(b, [], "5 5 N", "M", [], start, start);
    PairOfLines("5 5 N", "M");
    assert lines[0] == "2 2" && lines[1..] == ["5 5 N", "M"];
  }

  // ---------------------------------------------------------------------------
  // A rover does not drive onto a completed rover

  lemma Text11N() ensures ParseAnglePose("1 1 N") == Some(AnglePose(1, 1, 1)) && FormatAngle(AnglePose(1, 1, 1)) == "1 1 N"
  {
    assert IntToString(1) == "1";
    assert FormatAngle(AnglePose(1, 1, 1)) == "1 1 N";
    PoseText(AnglePose(1, 1, 1), "1 1 N");
  }

  /** "1 1 N" cannot move onto "1 2", where a completed rover stands. */
  lemma BlockedRoverPath()
    ensures RunRover(Boundary(0, 0, 5, 5), [AnglePose(1, 2, 1)], AnglePose(1, 1, 1), "M") == Some(AnglePose(1, 1, 1))
    ensures Executed(Boundary(0, 0, 5, 5), [AnglePose(1, 2, 1)], AnglePose(1, 1, 1), "M") == 0
  {
    var c := [AnglePose(1, 2, 1)];
    assert c[0].x == 1 && c[0].y == 2;
    assert Occupied(c, 1, 2);
  }

  /** An unknown code after a refused instruction is never read: "MX" from "1 1 N" below a completed rover leaves it at "1 1 N". */
  lemma UnreadUnknownCode()
    ensures RunRover(Boundary(0, 0, 5, 5), [AnglePose(1, 2, 1)], AnglePose(1, 1, 1), "MX") == Some(AnglePose(1, 1, 1))
  {
    var c := [AnglePose(1, 2, 1)];
    assert c[0].x == 1 && c[0].y == 2;
    assert Occupied(c, 1, 2);
  }

  /** An unknown code the loop reaches makes Java throw: "XM" from "1 1 N". */
  lemma ReachedUnknownCodeThrows()
    ensures RunRover(Boundary(0, 0, 5, 5), [], AnglePose(1, 1, 1), "XM") == None
  {
    assert IsValid(Boundary(0, 0, 5, 5), [], AnglePose(1, 1, 1));
    assert 'X' !in CodeXformMap;
  }

  lemma CollisionSecondRoverLines()
    ensures WellFormedRoverLines(["1 1 N", "M"])
    ensures FleetCompletes(Boundary(0, 0, 5, 5), [AnglePose(1, 2, 1)], ["1 1 N", "M"])
    ensures RunFleet(Boundary(0, 0, 5, 5), [AnglePose(1, 2, 1)], ["1 1 N", "M"]).0 == ["1 1 N"]
  {
    Text11N();
    BlockedRoverPath();
    FleetCons(Boundary(0, 0, 5, 5), [AnglePose(1, 2, 1)], "1 1 N", "M", [], AnglePose(1, 1, 1), AnglePose(1, 1, 1));
    PairOfLines("1 1 N", "M");
  }

  lemma CollisionRoverLines()
    ensures WellFormedRoverLines(["1 2 N", "", "1 1 N", "M"])
    ensures FleetCompletes(Boundary(0, 0, 5, 5), [], ["1 2 N", "", "1 1 N", "M"])
    ensures RunFleet(Boundary(0, 0, 5, 5), [], ["1 2 N", "", "1 1 N", "M"]).0 == ["1 2 N", "1 1 N"]
  {
    Text12N();
    CollisionSecondRoverLines();
    assert RunRover(Boundary(0, 0, 5, 5), [], AnglePose(1, 2, 1), "") == Some(AnglePose(1, 2, 1));
    FleetCons(Boundary(0, 0, 5, 5), [], "1 2 N", "", ["1 1 N", "M"], AnglePose(1, 2, 1), AnglePose(1, 2, 1));
    TwoRovers("1 2 N", "", "1 1 N", "M");
    assert [] + [AnglePose(1, 2, 1)] == [AnglePose(1, 2, 1)];
    PairOfLines("1 2 N", "1 1 N");
  }

  /**
   * The rover "1 2 N" gets an empty instruction line and stays; the rover
   * "1 1 N" is then refused the move onto it: "1 2 N" and "1 1 N" are written.
   */
  lemma CollisionStream()
    ensures StreamRuns(["5 5", "1 2 N", "", "1 1 N", "M"], [])
    ensures ProcessStream(["5 5", "1 2 N", "", "1 1 N", "M"]) == ["1 2 N", "1 1 N"]
  {
    Text55();
    CollisionRoverLines();
    StreamOfTwoRovers("5 5", "1 2 N", "", "1 1 N", "M");
  }
}
