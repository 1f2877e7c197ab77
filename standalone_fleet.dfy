/**
 * src/Rover.java, the command stream: the first line sets the plateau, then
 * each position line and the instruction line after it make one rover, which
 * runs against the rovers completed before it, joins them, and has its state
 * written out.
 */
module StandaloneFleet {
  import opened Wrappers
  import opened Utils
  import opened Decimal
  import opened StandaloneRover

  /** The position line of rover k: line 2k of the rover lines. */
  function PositionLine(lines: seq<string>, k: nat): string
    requires 2 * k < |lines|
  {
    lines[2 * k]
  }

  /** The instruction line of rover k, empty when the input ends right after its position line. */
  function InstructionsOf(lines: seq<string>, k: nat): string
    requires 2 * k < |lines|
  {
    if 2 * k + 1 < |lines| then lines[2 * k + 1] else []
  }

  /** Rover lines whose every position line parses: the State constructor throws on any other. */
  predicate WellFormedRoverLines(lines: seq<string>)
  {
    forall k :: 0 <= k < |lines| && 2 * k < |lines| ==> ParseAnglePose(PositionLine(lines, k)).Some?
  }

  /** Rover k of the lines after the first rover is rover k + 1 of the lines. */
  lemma ShiftRover(lines: seq<string>, k: nat)
    requires |lines| >= 2 && 2 * (k + 1) < |lines|
    ensures PositionLine(lines[2..], k) == PositionLine(lines, k + 1)
    ensures InstructionsOf(lines[2..], k) == InstructionsOf(lines, k + 1)
  {
  }

  /** A parsable position line and an instruction line in front of well-formed rover lines keep them well formed. */
  lemma WellFormedCons(position: string, instructions: string, rest: seq<string>)
    requires ParseAnglePose(position).Some? && WellFormedRoverLines(rest)
    ensures WellFormedRoverLines([position, instructions] + rest)
  {
    var lines := [position, instructions] + rest;
    assert lines[2..] == rest;
    forall k: nat | 2 * k < |lines|
      ensures ParseAnglePose(PositionLine(lines, k)).Some?
    {
      if k > 0 {
        ShiftRover(lines, k - 1);
      }
    }
  }

  /** The first rover of the lines: the pose its position line parses to and its instruction line. */
  function FirstCommand(lines: seq<string>): (c: RoverCommand)
    requires WellFormedRoverLines(lines) && lines != []
    ensures 0 <= c.start.theta <= 3
  {
    RoverCommand(ParseAnglePose(PositionLine(lines, 0)).value, InstructionsOf(lines, 0))
  }

  /** Where the first rover of the lines ends, run against the completed rovers. */
  function FirstFinal(b: Boundary, completedRovers: seq<AnglePose>, lines: seq<string>): (r: AnglePose)
    requires WellFormedRoverLines(lines) && lines != []
    requires RunRover(b, completedRovers, FirstCommand(lines).start, FirstCommand(lines).instructions).Some?
    ensures 0 <= r.theta <= 3
  {
    RunRover(b, completedRovers, FirstCommand(lines).start, FirstCommand(lines).instructions).value
  }

  /** The lines after the first rover's position line and instruction line. */
  function RestLines(lines: seq<string>): (rest: seq<string>)
    requires WellFormedRoverLines(lines)
    ensures WellFormedRoverLines(rest)
    ensures lines != [] ==> |rest| < |lines|
  {
    if |lines| >= 2 then
      RestWellFormed(lines);
      lines[2..]
    else []
  }

  /** The lines after the first rover's two lines are well formed too. */
  lemma RestWellFormed(lines: seq<string>)
    requires WellFormedRoverLines(lines) && |lines| >= 2
    ensures WellFormedRoverLines(lines[2..])
  {
    forall k | 0 <= k < |lines| - 2 && 2 * k < |lines| - 2
      ensures ParseAnglePose(PositionLine(lines[2..], k)).Some?
    {
      ShiftRover(lines, k);
    }
  }

  /** One rover of the command stream: the pose its position line parses to and its instruction line. */
  datatype RoverCommand = RoverCommand(start: AnglePose, instructions: string)

  /** Commands that start facing a compass direction. */
  predicate CommandsValid(commands: seq<RoverCommand>)
  {
    forall k :: 0 <= k < |commands| ==> 0 <= commands[k].start.theta <= 3
  }

  /** The rovers of the rover lines, in input order. */
  function RoverCommands(lines: seq<string>): (commands: seq<RoverCommand>)
    requires WellFormedRoverLines(lines)
    ensures |commands| == (|lines| + 1) / 2
    ensures CommandsValid(commands)
  {
    seq((|lines| + 1) / 2, k requires 0 <= k < (|lines| + 1) / 2 =>
      RoverCommand(ParseAnglePose(PositionLine(lines, k)).value, InstructionsOf(lines, k)))
  }

  /**
   * No rover of the commands makes Java throw: the run of each, against the
   * rovers completed before it, reaches no character without an xform.
   */
  predicate Completes(b: Boundary, completedRovers: seq<AnglePose>, commands: seq<RoverCommand>)
    decreases |commands|
  {
    commands == [] ||
      var final := RunRover(b, completedRovers, commands[0].start, commands[0].instructions);
      final.Some? && Completes(b, completedRovers + [final.value], commands[1..])
  }

  /** No rover of the lines makes Java throw. */
  predicate FleetCompletes(b: Boundary, completedRovers: seq<AnglePose>, lines: seq<string>)
    requires WellFormedRoverLines(lines)
  {
    Completes(b, completedRovers, RoverCommands(lines))
  }

  /** The commands after the first start with valid headings too. */
  lemma CommandsValidRest(commands: seq<RoverCommand>)
    requires CommandsValid(commands) && commands != []
    ensures CommandsValid(commands[1..])
  {
    var rest := commands[1..];
    forall k | 0 <= k < |rest| ensures 0 <= rest[k].start.theta <= 3 {
      assert rest[k] == commands[k + 1];
    }
  }

  /**
   * The loop of processCommandStream over the rovers: each is run against the
   * rovers completed before it, appended to them, and its state is written
   * out. The result is the output, one line per rover, and the new history,
   * which keeps the old one and grows by one state per rover.
   */
  function RunCommands(b: Boundary, completedRovers: seq<AnglePose>, commands: seq<RoverCommand>): (r: (seq<string>, seq<AnglePose>))
    requires CommandsValid(commands) && Completes(b, completedRovers, commands)
    ensures |r.0| == |commands|
    ensures |r.1| == |completedRovers| + |commands| && r.1[..|completedRovers|] == completedRovers
    decreases |commands|
  {
    if commands == [] then ([], completedRovers)
    else
      var final := RunRover(b, completedRovers, commands[0].start, commands[0].instructions).value;
      CommandsValidRest(commands);
      var (output, history) := RunCommands(b, completedRovers + [final], commands[1..]);
      assert history[..|completedRovers|] == history[..|completedRovers| + 1][..|completedRovers|];
      ([FormatAngle(final)] + output, history)
  }

  /**
   * The loop of processCommandStream over the lines after the plateau line: one
   * line written per position line, even when the input ends without its
   * instruction line; the history keeps what it held and grows by one state per rover.
   */
  function RunFleet(b: Boundary, completedRovers: seq<AnglePose>, lines: seq<string>): (r: (seq<string>, seq<AnglePose>))
    requires WellFormedRoverLines(lines) && FleetCompletes(b, completedRovers, lines)
    ensures |r.0| == (|lines| + 1) / 2
    ensures |r.1| == |completedRovers| + |r.0| && r.1[..|completedRovers|] == completedRovers
  {
    RunCommands(b, completedRovers, RoverCommands(lines))
  }

  /** The commands of the lines are the first rover's, then those of the lines after it. */
  lemma CommandsOfRest(lines: seq<string>)
    requires WellFormedRoverLines(lines) && lines != []
    ensures RoverCommands(lines)[0] == FirstCommand(lines)
    ensures RoverCommands(lines)[1..] == RoverCommands(RestLines(lines))
  {
    var commands, rest := RoverCommands(lines), RestLines(lines);
    forall k | 0 <= k < |RoverCommands(rest)|
      ensures commands[1..][k] == RoverCommands(rest)[k]
    {
      RestShift(lines, k);
    }
    assert commands[1..] == RoverCommands(rest);
  }

  /** A stream runs without an exception exactly when its first rover does and the rest do once it has joined the history. */
  lemma FleetCompletesUnfold(b: Boundary, completedRovers: seq<AnglePose>, lines: seq<string>)
    requires WellFormedRoverLines(lines) && lines != []
    ensures FleetCompletes(b, completedRovers, lines) <==>
      && RunRover(b, completedRovers, FirstCommand(lines).start, FirstCommand(lines).instructions).Some?
      && FleetCompletes(b, completedRovers + [FirstFinal(b, completedRovers, lines)], RestLines(lines))
  {
    CommandsOfRest(lines);
  }

  /** The first rover's state is written first, followed by what the rest of the lines write after it joined the history. */
  lemma FleetUnfold(b: Boundary, completedRovers: seq<AnglePose>, lines: seq<string>, final: AnglePose, rest: seq<string>)
    requires WellFormedRoverLines(lines) && lines != [] && FleetCompletes(b, completedRovers, lines)
    requires RunRover(b, completedRovers, FirstCommand(lines).start, FirstCommand(lines).instructions) == Some(final)
    requires rest == RestLines(lines)
    ensures FleetCompletes(b, completedRovers + [final], rest)
    ensures RunFleet(b, completedRovers, lines).0 == [FormatAngle(final)] + RunFleet(b, completedRovers + [final], rest).0
    ensures RunFleet(b, completedRovers, lines).1 == RunFleet(b, completedRovers + [final], rest).1
  {
    CommandsOfRest(lines);
  }

  /**
   * A position line that parses to start and an instruction line in front of
   * well-formed rover lines: that rover is written first, ending where its
   * instructions take it, and the rest run with it completed.
   */
  lemma FleetCons(b: Boundary, completedRovers: seq<AnglePose>, position: string, instructions: string, rest: seq<string>,
                  start: AnglePose, final: AnglePose)
    requires ParseAnglePose(position) == Some(start) && WellFormedRoverLines(rest)
    requires RunRover(b, completedRovers, start, instructions) == Some(final)
    requires FleetCompletes(b, completedRovers + [final], rest)
    ensures WellFormedRoverLines([position, instructions] + rest)
    ensures FleetCompletes(b, completedRovers, [position, instructions] + rest)
    ensures RunFleet(b, completedRovers, [position, instructions] + rest).0 == [FormatAngle(final)] + RunFleet(b, completedRovers + [final], rest).0
    ensures RunFleet(b, completedRovers, [position, instructions] + rest).1 == RunFleet(b, completedRovers + [final], rest).1
  {
    var lines := [position, instructions] + rest;
    WellFormedCons(position, instructions, rest);
    FirstRoverLines(b, completedRovers, lines);
    assert lines[0] == position && lines[1] == instructions && lines[2..] == rest;
    FleetCompletesUnfold(b, completedRovers, lines);
    FleetUnfold(b, completedRovers, lines, final, rest);
  }

  /**
   * One turn of the command-stream loop at line i: the rover there is written
   * first, and the loop goes on at the line after its instruction line.
   */
  lemma FleetStep(b: Boundary, completedRovers: seq<AnglePose>, lines: seq<string>, i: nat, final: AnglePose, next: nat)
    requires i < |lines| && WellFormedRoverLines(lines[i..]) && FleetCompletes(b, completedRovers, lines[i..])
    requires RunRover(b, completedRovers, FirstCommand(lines[i..]).start, FirstCommand(lines[i..]).instructions) == Some(final)
    requires next == if i + 1 < |lines| then i + 2 else |lines|
    ensures next <= |lines| && WellFormedRoverLines(lines[next..]) && RestLines(lines[i..]) == lines[next..]
    ensures FleetCompletes(b, completedRovers + [final], lines[next..])
    ensures forall output: seq<string> {:trigger output + [FormatAngle(final)]} ::
      output + RunFleet(b, completedRovers, lines[i..]).0
      == output + [FormatAngle(final)] + RunFleet(b, completedRovers + [final], lines[next..]).0
    ensures RunFleet(b, completedRovers, lines[i..]).1 == RunFleet(b, completedRovers + [final], lines[next..]).1
  {
    FleetUnfold(b, completedRovers, lines[i..], final, RestLines(lines[i..]));
    var later := RunFleet(b, completedRovers + [final], RestLines(lines[i..]));
    if i + 1 < |lines| {
      assert RestLines(lines[i..]) == lines[i + 2..];
    } else {
      assert RestLines(lines[i..]) == [];
    }
    forall output: seq<string>
      ensures output + RunFleet(b, completedRovers, lines[i..]).0
           == output + [FormatAngle(final)] + RunFleet(b, completedRovers + [final], lines[next..]).0
    {
      assert output + [FormatAngle(final)] + later.0 == output + ([FormatAngle(final)] + later.0);
    }
  }

  /**
   * An input the program processes without an exception, with these rovers
   * already completed: the plateau line and every position line parse, and no
   * rover's run reaches a character without an xform.
   */
  predicate StreamRuns(lines: seq<string>, completedRovers: seq<AnglePose>)
  {
    lines != [] ==>
      && ParseBoundary(lines[0]).Some? && WellFormedRoverLines(lines[1..])
      && FleetCompletes(ParseBoundary(lines[0]).value, completedRovers, lines[1..])
  }

  /** What the program writes for the whole input: one line per rover, that is per position line. */
  function ProcessStream(lines: seq<string>): (output: seq<string>)
    requires StreamRuns(lines, [])
    ensures |output| == |lines| / 2
  {
    if lines == [] then [] else RunFleet(ParseBoundary(lines[0]).value, [], lines[1..]).0
  }

  /** The first rover of the lines: where it starts, which instructions it gets, and what follows it. */
  lemma FirstRoverLines(b: Boundary, completedRovers: seq<AnglePose>, lines: seq<string>)
    requires WellFormedRoverLines(lines) && lines != []
    ensures ParseAnglePose(lines[0]) == Some(FirstCommand(lines).start)
    ensures |lines| >= 2 ==> FirstCommand(lines).instructions == lines[1] && RestLines(lines) == lines[2..]
    ensures |lines| < 2 ==>
      && RunRover(b, completedRovers, FirstCommand(lines).start, FirstCommand(lines).instructions) == Some(FirstCommand(lines).start)
      && RestLines(lines) == []
  {
    assert PositionLine(lines, 0) == lines[0];
    if |lines| >= 2 {
      assert InstructionsOf(lines, 0) == lines[1];
    }
  }

  /**
   * The rover recorded at place i of the history and written as line j of the
   * output: it ended where its instructions take it from its start against the
   * rovers recorded before it.
   */
  predicate RecordedAt(b: Boundary, history: seq<AnglePose>, output: seq<string>, i: nat, j: nat, start: AnglePose, instructions: string)
  {
    && i < |history| && j < |output|
    && RunRover(b, history[..i], start, instructions) == Some(history[i])
    && 0 <= history[i].theta <= 3
    && output[j] == FormatAngle(history[i])
  }

  /**
   * Command k ends where its own instructions take it against exactly the
   * rovers completed before it, is recorded at that place in the history, and
   * the k-th line written is its state.
   */
  lemma {:induction false} CommandRecorded(b: Boundary, completedRovers: seq<AnglePose>, commands: seq<RoverCommand>, k: nat)
    requires CommandsValid(commands) && Completes(b, completedRovers, commands) && k < |commands|
    ensures RecordedAt(b, RunCommands(b, completedRovers, commands).1, RunCommands(b, completedRovers, commands).0,
                       |completedRovers| + k, k, commands[k].start, commands[k].instructions)
    decreases k, 1
  {
    if k == 0 {
      CommandFirstRecorded(b, completedRovers, commands);
    } else {
      CommandShift(b, completedRovers, commands, k);
    }
  }

  /**
   * Command k is command k - 1 of the commands after the first, which run
   * with the first rover completed; what they write follows the first rover's line.
   */
  lemma {:induction false} CommandShift(b: Boundary, completedRovers: seq<AnglePose>, commands: seq<RoverCommand>, k: nat)
    requires CommandsValid(commands) && Completes(b, completedRovers, commands) && 0 < k < |commands|
    ensures RecordedAt(b, RunCommands(b, completedRovers, commands).1, RunCommands(b, completedRovers, commands).0,
                       |completedRovers| + k, k, commands[k].start, commands[k].instructions)
    decreases k, 0
  {
    var final := RunRover(b, completedRovers, commands[0].start, commands[0].instructions).value;
    CommandsValidRest(commands);
    CommandRecorded(b, completedRovers + [final], commands[1..], k - 1);
    var later := RunCommands(b, completedRovers + [final], commands[1..]);
    assert RunCommands(b, completedRovers, commands) == ([FormatAngle(final)] + later.0, later.1);
    assert commands[1..][k - 1] == commands[k];
    RecordedLater(b, later.1, later.0, |completedRovers| + k, k, FormatAngle(final), commands[k].start, commands[k].instructions);
  }

  /** The first command is recorded right after the rovers completed before it and written first. */
  lemma CommandFirstRecorded(b: Boundary, completedRovers: seq<AnglePose>, commands: seq<RoverCommand>)
    requires CommandsValid(commands) && Completes(b, completedRovers, commands) && commands != []
    ensures RecordedAt(b, RunCommands(b, completedRovers, commands).1, RunCommands(b, completedRovers, commands).0,
                       |completedRovers|, 0, commands[0].start, commands[0].instructions)
  {
    var final := RunRover(b, completedRovers, commands[0].start, commands[0].instructions).value;
    CommandsHead(b, completedRovers, commands, final);
  }

  /** The history after the commands starts with the completed rovers and then the first command's rover, whose state is written first. */
  lemma CommandsHead(b: Boundary, completedRovers: seq<AnglePose>, commands: seq<RoverCommand>, final: AnglePose)
    requires CommandsValid(commands) && Completes(b, completedRovers, commands) && commands != []
    requires RunRover(b, completedRovers, commands[0].start, commands[0].instructions) == Some(final)
    ensures |completedRovers| < |RunCommands(b, completedRovers, commands).1|
    ensures RunCommands(b, completedRovers, commands).1[..|completedRovers|] == completedRovers
    ensures RunCommands(b, completedRovers, commands).1[|completedRovers|] == final
    ensures RunCommands(b, completedRovers, commands).0 != []
    ensures RunCommands(b, completedRovers, commands).0[0] == FormatAngle(final)
  {
    var history := RunCommands(b, completedRovers, commands).1;
    var n := |completedRovers|;
    assert history[..n + 1] == completedRovers + [final];
    assert history[n] == (completedRovers + [final])[n];
  }

  /** A line written in front of the output moves each recorded rover one line down. */
  lemma RecordedLater(b: Boundary, history: seq<AnglePose>, output: seq<string>, i: nat, j: nat, first: string,
                      start: AnglePose, instructions: string)
    requires 0 < j && RecordedAt(b, history, output, i, j - 1, start, instructions)
    ensures RecordedAt(b, history, [first] + output, i, j, start, instructions)
  {
  }

  /**
   * Rover k (the one whose position is line 2k) ends where its own instructions
   * take it from the pose its position line gives against exactly the rovers
   * completed before it, is recorded at that place in the history, and the
   * k-th line written is its state.
   */
  lemma FleetRoverSeesEarlierRovers(b: Boundary, completedRovers: seq<AnglePose>, lines: seq<string>, k: nat)
    requires WellFormedRoverLines(lines) && FleetCompletes(b, completedRovers, lines) && 2 * k < |lines|
    ensures RecordedAt(b, RunFleet(b, completedRovers, lines).1, RunFleet(b, completedRovers, lines).0, |completedRovers| + k, k,
                       ParseAnglePose(PositionLine(lines, k)).value, InstructionsOf(lines, k))
  {
    CommandRecorded(b, completedRovers, RoverCommands(lines), k);
  }

  /** Rover k + 1 of the lines is rover k of the lines after the first rover. */
  lemma RestShift(lines: seq<string>, k: nat)
    requires WellFormedRoverLines(lines) && 2 * (k + 1) < |lines|
    ensures PositionLine(RestLines(lines), k) == PositionLine(lines, k + 1)
    ensures InstructionsOf(RestLines(lines), k) == InstructionsOf(lines, k + 1)
  {
    ShiftRover(lines, k);
  }

  /** The first rover of the lines is written first and is recorded right after the rovers completed before it. */
  lemma FleetFirstRover(b: Boundary, completedRovers: seq<AnglePose>, lines: seq<string>)
    requires WellFormedRoverLines(lines) && FleetCompletes(b, completedRovers, lines) && lines != []
    ensures RunRover(b, completedRovers, FirstCommand(lines).start, FirstCommand(lines).instructions).Some?
    ensures 0 < |RunFleet(b, completedRovers, lines).0|
    ensures |completedRovers| < |RunFleet(b, completedRovers, lines).1|
    ensures RunFleet(b, completedRovers, lines).1[..|completedRovers|] == completedRovers
    ensures RunFleet(b, completedRovers, lines).1[|completedRovers|] == FirstFinal(b, completedRovers, lines)
    ensures RunFleet(b, completedRovers, lines).0[0] == FormatAngle(RunFleet(b, completedRovers, lines).1[|completedRovers|])
  {
    var commands := RoverCommands(lines);
    CommandsOfRest(lines);
    assert commands[0] == FirstCommand(lines);
    var r := RunCommands(b, completedRovers, commands);
    assert r == RunFleet(b, completedRovers, lines);
    CommandRecorded(b, completedRovers, commands, 0);
    assert r.1[..|completedRovers|] == completedRovers;
  }

  /** The static fields of Rover: the plateau and the completed rovers, in the order they finished. */
  class Fleet {
    var boundary: Option<Boundary>
    var completedRovers: seq<AnglePose>

    constructor ()
      ensures boundary == None && completedRovers == []
    {
      boundary := None;
      completedRovers := [];
    }

    /**
     * The body of the command-stream loop for one rover: a rover is made from
     * the position line, runs the instruction line when there is one, joins the
     * completed rovers, and its state is the line written.
     */
    method AddRover(b: Boundary, lines: seq<string>) returns (written: string)
      requires WellFormedRoverLines(lines) && lines != []
      requires RunRover(b, completedRovers, FirstCommand(lines).start, FirstCommand(lines).instructions).Some?
      modifies this
      ensures completedRovers == old(completedRovers) + [FirstFinal(b, old(completedRovers), lines)]
      ensures written == FormatAngle(FirstFinal(b, old(completedRovers), lines))
      ensures boundary == old(boundary)
    {
      FirstRoverLines(b, completedRovers, lines);
      var rover := new Rover(lines[0]);
      if 1 < |lines| {
        rover.ProcessInstructionList(lines[1], b, completedRovers);
      }
      completedRovers := completedRovers + [rover.state.AsPose()];
      written := rover.state.AsString();
    }

    /**
     * processCommandStream over the input lines, returning the lines written.
     * The first line sets the plateau; then each position line makes a rover,
     * the following line (if any) is its instruction list, and the rover is
     * appended to the completed rovers and its state written out.
     */
    method ProcessCommandStream(lines: seq<string>) returns (output: seq<string>)
      requires StreamRuns(lines, completedRovers)
      modifies this
      ensures lines == [] ==> output == [] && boundary == old(boundary) && completedRovers == old(completedRovers)
      ensures lines != [] ==>
        (boundary == ParseBoundary(lines[0])
         && (output, completedRovers) == RunFleet(ParseBoundary(lines[0]).value, old(completedRovers), lines[1..]))
    {
      output := [];
      if lines == [] {
        return;
      }
      var b := ParseBoundary(lines[0]).value;
      boundary := Some(b);
      var i := 1;
      ghost var whole := RunFleet(b, completedRovers, lines[1..]);
      assert output + whole.0 == whole.0;
      while i < |lines|
        invariant 1 <= i <= |lines|
        invariant boundary == Some(b)
        invariant WellFormedRoverLines(lines[i..]) && FleetCompletes(b, completedRovers, lines[i..])
        invariant whole.0 == output + RunFleet(b, completedRovers, lines[i..]).0
        invariant whole.1 == RunFleet(b, completedRovers, lines[i..]).1
        decreases |lines| - i
      {
        FleetCompletesUnfold(b, completedRovers, lines[i..]);
        ghost var final := FirstFinal(b, completedRovers, lines[i..]);
        var next := if i + 1 < |lines| then i + 2 else |lines|;
        FleetStep(b, completedRovers, lines, i, final, next);
        var written := AddRover(b, lines[i..]);
        output := output + [written];
        i := next;
      }
      assert lines[i..] == [];
      assert output + [] == output;
      assert output == whole.0 && completedRovers == whole.1;
    }
  }
}
