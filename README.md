# Mars rover, modelled in Dafny

This project models the two rover implementations of the MarsRover repository and proves properties of them.

Both implementations drive rovers across a rectangular plateau. Each rover has a position `(x, y)` and a heading. The instructions are `M` (move one cell ahead), `L` (turn left) and `R` (turn right).

- **The table-driven rover**, package `rover`. A direction table built from a list of `DirectionBasedState` records says, for each compass point, where a left or right turn leads and how far one move goes along x and y. `Tables_JSON` builds the table and checks its compass symmetries.
  - `RoverState` applies instructions by table lookup. It parses and prints states as `"x y C"`.
  - `RoverInstructionProcesser` tries each instruction on a copy of the live state. It commits the copy only when the copy lies inside the plateau, and stops at the first instruction it refuses.
  - `Utils.splitString` splits text at spaces and tabs and drops the empty pieces.
- **The standalone rover**, `src/Rover.java`. The heading is an angle in quarter turns, 0 to 3, measured from east. An instruction is a turn followed by a move.
  - A state is valid when it lies inside the plateau and on no cell where an already completed rover stands.
  - A rover that starts on an invalid state executes nothing.
  - The command stream gives the plateau, then pairs of lines: a position line and an instruction line. Each rover is run against the rovers that completed before it, then joins them.

Files:

| file | module | source |
|---|---|---|
| `wrappers.dfy` | `Wrappers` | `Option`, standing in for the exceptions the Java code throws on bad input |
| `utils.dfy` | `Utils` | `Utils.splitString`, Java's `String.split` and `toUpperCase` |
| `decimal.dfy` | `Decimal` | `Integer.parseInt` and the decimal rendering of an `int` |
| `direction_tables.dfy` | `DirectionTables` | `DirectionBasedState`, `Tables_JSON` |
| `rover_state.dfy` | `RoverStates` | `RoverState` |
| `instruction_processor.dfy` | `InstructionProcessing` | `RoverInstructionProcesser` |
| `standalone_rover.dfy` | `StandaloneRover` | `src/Rover.java` |
| `standalone_fleet.dfy` | `StandaloneFleet` | the command stream of `src/Rover.java`: `processCommandStream` and the static fields of `Rover` |
| `standalone_scenarios.dfy` | `StandaloneScenarios` | the sample session of `src/Rover.java`, plus two edge cases |

Java objects whose fields change in place are Dafny classes. These are `Tables_JSON`, `RoverState`, `RoverInstructionProcesser`, `Rover.State`, `Rover`, and the static fields of `Rover`, which become the `Fleet` class. Each method is proved against a function of its inputs: `Step`, `Run`, `Xformed`, `RunRover` or `RunFleet`. Lemmas then prove what the source promises about those functions.

The command stream is modelled in two layers. `RoverCommands` reads the rover lines into one command per position line: the pose the line parses to, and the next line as its instructions (none when the input ends). `RunCommands` runs the commands in order, each against the rovers completed before it, and `RunFleet` is the two together.

Both instruction loops read characters until `CharacterIterator.DONE`, the character `'\uFFFF'`. `Done` stands for it, and a loop stops on it even inside the text. In `src/Rover.java` a character that is not `M`, `L` or `R` has no xform, and `performInstruction` throws when the loop reaches it. `Advance` and `RunRover` return `None` there. `Completes` and `FleetCompletes` say that no rover of the stream gets there.

## Model

| member | source | states |
|---|---|---|
| Utils.Split | src/rover/Utils.java:16-31 | every part is non-empty and holds no space or tab |
| Utils.SplitString | src/rover/Utils.java:16-31 | the array holds exactly the non-empty pieces between spaces and tabs, in input order; its length is their count |
| Utils.KeepNonEmpty | src/rover/Utils.java:18-30 | the first pass counts the non-empty parts, the second copies them in order into an array of exactly that length, which then holds NonEmpty of the parts |
| Utils.NonEmptyStep | src/rover/Utils.java:19-29 | one more part adds itself to the kept parts exactly when it is non-empty, and never more than the whole list keeps |
| Utils.Pieces | src/rover/Utils.java:17 | cutting text at delimiters always gives at least one piece |
| Utils.NonEmpty | src/rover/Utils.java:19-29 | keeping the non-empty pieces gives no more pieces than it started with, all non-empty and all from the input |
| Utils.PiecesAvoidDelims | src/rover/Utils.java:17 | no piece of a split holds a delimiter |
| Utils.JoinPieces | src/rover/Utils.java:17 | joining the pieces with one delimiter gives back the input with each delimiter replaced by it |
| Utils.PiecesOfJoin | src/rover/Utils.java:17 | words with no delimiter in them, joined by a delimiter, split back into the same words |
| Utils.PiecesOfWord | src/rover/Utils.java:17 | a word with no delimiter in it is a single piece |
| Utils.PiecesAfterWord | src/rover/Utils.java:17 | a word followed by a delimiter is cut off as the first piece, and the rest is cut on its own |
| Utils.SplitThreeWords | src/rover/RoverState.java:31-35 | three non-empty words with no blanks, joined by single spaces, come back as exactly those three words from splitString and from String.split(" ") |
| Utils.NonEmptyAppend | src/rover/Utils.java:19-29 | dropping the empty pieces works piecewise over a concatenation, so order is kept |
| Utils.NonEmptyKeepsWords | src/rover/Utils.java:19-29 | a list with no empty piece is kept whole |
| Utils.ConcatNonEmpty | src/rover/Utils.java:19-29 | dropping empty pieces does not change their concatenation |
| Utils.ConcatAppend | src/rover/Utils.java:19-29 | concatenation distributes over joining two lists of parts |
| Utils.ConcatPieces | src/rover/Utils.java:17 | concatenating the pieces of a split gives the input with the delimiters removed |
| Utils.RemoveEmptyIff | src/rover/Utils.java:17-30 | removing the delimiters leaves nothing exactly when the input is made only of delimiters |
| Utils.SplitConcat | src/rover/Utils.java:17-29 | concatenating the result of splitString gives the input with all spaces and tabs removed |
| Utils.SplitEmptyIff | src/rover/Utils.java:17-30 | the result is empty exactly when the input is empty or made only of spaces and tabs |
| Utils.DropTrailingEmpty | src/Rover.java:32 | String.split keeps a prefix of the pieces, ending in a non-empty piece, and drops only empty pieces |
| Utils.JavaSplit | src/Rover.java:32 | String.split(" ") gives a prefix of the pieces, none holding the separator, and drops only empty pieces; text without the separator is one piece |
| Utils.UpperCase | src/rover/RoverState.java:62 | upper-casing keeps the length and maps each character on its own |
| Utils.UpperAll | src/rover/RoverState.java:62 | every part is upper-cased in place, the count unchanged |
| Utils.NonEmptyUpperAll | src/rover/Utils.java:19-29 | keeping the non-empty parts commutes with upper-casing them |
| Utils.PiecesUpperCase | src/rover/RoverState.java:62 | upper-casing the text and then splitting gives the upper-cased pieces of the split |
| Utils.SplitUpperCase | src/rover/RoverState.java:31-35 | splitString of the upper-cased text is the upper-cased splitString of the text |
| Decimal.DigitValue | src/rover/RoverState.java:33-34 | a digit's value is below 10 and renders back as the same digit |
| Decimal.DigitChar | src/rover/RoverState.java:57 | a digit below 10 renders as a decimal digit character |
| Decimal.NatToString | src/rover/RoverState.java:57 | the decimal text of a natural number is non-empty, all digits, and begins with 0 only for 0 |
| Decimal.IntToString | src/rover/RoverState.java:57 | the decimal text of an integer is non-empty and made of digits and a minus sign |
| Decimal.ParseInt | src/rover/RoverState.java:33-34 | a number results exactly when the text is a non-empty run of ASCII digits, or a sign followed by one; only a minus sign gives a negative number; plain digits give their decimal value |
| Decimal.DigitsValueOfNatToString | src/rover/RoverState.java:56-57 | reading back the digits of a natural number gives the number |
| Decimal.ParseIntRoundTrip | src/rover/RoverState.java:33-34 | Integer.parseInt of an integer's decimal text gives the integer |
| Decimal.ParseIntUpperCase | src/rover/RoverState.java:33-34 | upper-casing does not change what a number field parses to |
| DirectionTables.LoadedTablesAgree | src/rover/Tables_JSON.java:101-106 | after loading, the three tables have the same keys as the records; each direction maps to a record that has it as ahead; the code table gives that record's code; the code-to-direction table points back into the direction table |
| DirectionTables.LastRowWins | src/rover/Tables_JSON.java:101-105 | a record with no later record of the same ahead is the one filed under that direction, with its code |
| DirectionTables.LastCodeWins | src/rover/Tables_JSON.java:101-105 | a record with no later record of the same code is the one that code maps back to |
| DirectionTables.DistinctRowsLoaded | src/rover/Tables_JSON.java:101-106 | with distinct aheads and codes, every record is filed under its direction and its direction and code map to each other |
| DirectionTables.TurnsUndoEachOther | src/rover/Tables_JSON.java:143-147 | in a validated table, right(left(d)) == d and left(right(d)) == d |
| DirectionTables.RightTurnSwapsAxes | src/rover/Tables_JSON.java:148-159 | in a validated table, a right turn swaps horizontal (dy == 0) and vertical (dx == 0) |
| DirectionTables.LeftTurnSwapsAxes | src/rover/Tables_JSON.java:148-159 | in a validated table, a left turn swaps horizontal (dy == 0) and vertical (dx == 0) |
| DirectionTables.TurnsPermuteHeadings | src/rover/Tables_JSON.java:143-147 | in a validated table, left and right turns are one-to-one on the headings |
| DirectionTables.TablesJson.ValidateTable | src/rover/Tables_JSON.java:141-151 | the check passes exactly when the table has 4 entries and every entry's turns are mutual inverses that swap the axes |
| DirectionTables.TablesJson.ReadFromRecords | src/rover/Tables_JSON.java:89-106 | the three tables are the records inserted in order |
| DirectionTables.TablesJson.constructor | src/rover/Tables_JSON.java:66-69 | the new object's tables are built from the records |
| DirectionTables.TablesSource.constructor | src/rover/Tables_JSON.java:31 | before the first call there is no instance |
| DirectionTables.TablesSource.Get | src/rover/Tables_JSON.java:31-36 | the instance is built once and the same instance is returned afterwards; an invalid table yields none |
| DirectionTables.CompassTablesValid | src/rover/Tables_JSON.java:141-151 | the conventional N, E, S, W records pass validation |
| DirectionTables.LoadOneMore | src/rover/Tables_JSON.java:101-106 | loading one more record puts it under its heading in the row and code tables and its code in the code-to-heading table, overriding what was there |
| DirectionTables.LoadFourRows | src/rover/Tables_JSON.java:101-106 | four records load into the maps with each heading and code filed, later records winning |
| DirectionTables.CompassStatesValid | src/rover/Tables_JSON.java:141-151 | the compass row table has four entries whose turns are mutual inverses that swap the axes |
| RoverStates.Step | src/rover/RoverState.java:38-54 | an instruction applied with a validated table leaves the heading inside the table |
| RoverStates.StringToDirection | src/rover/RoverState.java:61-64 | a heading results exactly when the upper-cased first letter is in the code table, and it is that entry; in a usable table it has a row in the direction table |
| RoverStates.DirectionToCode | src/rover/RoverState.java:66-68 | when the code tables invert each other, the code is an upper-case letter that stringToDirection reads back as the same heading |
| RoverStates.ParsePose | src/rover/RoverState.java:26-36 | a state results exactly when there are at least three fields, the first two parse as integers and the third starts with a known heading letter; its heading is one of the table's |
| RoverStates.Format | src/rover/RoverState.java:56-57 | when the heading's code is not blank, splitString of the text gives exactly the decimal x, the decimal y and that code |
| RoverStates.StepEffects | src/rover/RoverState.java:38-54 | M adds dx and dy and keeps the heading; L and R take the table's left and right entries and keep x and y; any other character changes nothing |
| RoverStates.TurnsCancel | src/rover/RoverState.java:49-54 | with a validated table, L then R and R then L both restore the state |
| RoverStates.CompassTablesUsable | src/rover/Tables_JSON.java:141-151 | the conventional records make a validated table whose code tables invert each other |
| RoverStates.FormatParseRoundTrip | src/rover/RoverState.java:26-36 | with upper-case codes and code tables that invert each other, parsing asString's text gives the state back |
| RoverStates.ParseIgnoresCase | src/rover/RoverState.java:61-64 | parsing upper-cased text gives the same state as parsing the text |
| RoverStates.HeadingIgnoresCase | src/rover/RoverState.java:61-64 | stringToDirection reads a heading the same after upper-casing it |
| RoverStates.LowerCaseHeading | src/rover/RoverState.java:61-64 | "1 2 n" parses to the same state as "1 2 N" |
| RoverStates.RoverState.constructor | src/rover/RoverState.java:26-36 | the new state holds the parsed x, y and heading |
| RoverStates.RoverState.Copy | src/rover/RoverState.java:17-21 | the copy is a new object with the same x, y and heading |
| RoverStates.RoverState.PerformInstruction | src/rover/RoverState.java:38-44 | the state becomes Step of the old state |
| RoverStates.RoverState.Move | src/rover/RoverState.java:45-48 | x and y grow by the heading's dx and dy, and the heading is unchanged |
| RoverStates.RoverState.TurnLeft | src/rover/RoverState.java:49-51 | the heading becomes the table's left entry, and x and y are unchanged |
| RoverStates.RoverState.TurnRight | src/rover/RoverState.java:52-54 | the heading becomes the table's right entry, and x and y are unchanged |
| RoverStates.RoverState.AsString | src/rover/RoverState.java:56-68 | the text parses back to this state when the code tables invert each other |
| InstructionProcessing.ParseBoundary | src/rover/RoverInstructionProcesser.java:17-24 | the lower-left corner is (0, 0); a boundary results exactly when there are two fields that parse as integers |
| InstructionProcessing.ParseBoundaryOfCorner | src/rover/RoverInstructionProcesser.java:17-24 | the text "x1 y1" gives the plateau from (0, 0) to (x1, y1) |
| InstructionProcessing.Boundary.Contains | src/rover/RoverInstructionProcesser.java:26-29 | edges and corners are inside, so a corner is inside exactly when x0 <= x1 and y0 <= y1, and no cell is when they are not |
| InstructionProcessing.Run | src/rover/RoverInstructionProcesser.java:59-67 | the final heading stays inside the table |
| InstructionProcessing.Executed | src/rover/RoverInstructionProcesser.java:61-66 | at most as many instructions are carried out as the list holds, and none of them is CharacterIterator.DONE |
| InstructionProcessing.Replay | src/rover/RoverInstructionProcesser.java:62-77 | applying instructions with no boundary check keeps the heading inside the table |
| InstructionProcessing.ReplayFirst | src/rover/RoverInstructionProcesser.java:62 | replaying a list is replaying its first instruction and then the rest |
| InstructionProcessing.RunStopsAtFirstRejection | src/rover/RoverInstructionProcesser.java:59-83 | the rover ends where the first Executed instructions take it; every state it passes through is inside; the next character is DONE or would leave the plateau |
| InstructionProcessing.RunEndsInside | src/rover/RoverInstructionProcesser.java:78-81 | the rover ends where it started or inside the plateau |
| InstructionProcessing.StaysInside | src/rover/RoverInstructionProcesser.java:78-81 | a rover that starts inside ends inside |
| InstructionProcessing.RestIsDiscarded | src/rover/RoverInstructionProcesser.java:62-65 | after a refused instruction or DONE, whatever follows has no effect |
| InstructionProcessing.DoneEndsList | src/rover/RoverInstructionProcesser.java:62 | a DONE character ends the list: nothing after it is ever applied |
| InstructionProcessing.StartIsNotChecked | src/rover/RoverInstructionProcesser.java:49-67 | a rover starting outside the plateau stays put exactly when the list is empty, starts with DONE, or its first instruction lands outside too |
| InstructionProcessing.RunAcceptsAt | src/rover/RoverInstructionProcesser.java:62-82 | when instruction k is not DONE and lands inside, the run from k goes on from the moved state at k + 1 |
| InstructionProcessing.FirstExampleRoverOpening | src/rover/RoverInstructionProcesser.java:59-67 | with compass rows, the first five instructions of "LMLMLMLMM" take (1, 2) facing N to (0, 1) facing E |
| InstructionProcessing.FirstExampleRoverClosing | src/rover/RoverInstructionProcesser.java:59-67 | with compass rows, the last four take (0, 1) facing E to (1, 3) facing N |
| InstructionProcessing.FirstExampleRover | src/rover/RoverInstructionProcesser.java:59-67 | "1 2 N" with "LMLMLMLMM" on a 5 by 5 plateau ends at "1 3 N" |
| InstructionProcessing.DoneStopsSecondMove | src/rover/RoverInstructionProcesser.java:62 | with compass rows, "M", DONE, "M" from (1, 1) facing N ends at (1, 2): the second M is never read |
| InstructionProcessing.RoverInstructionProcessor.constructor | src/rover/RoverInstructionProcesser.java:49-52 | the processor keeps the boundary and a new state parsed from the text |
| InstructionProcessing.RoverInstructionProcessor.ProcessInstruction | src/rover/RoverInstructionProcesser.java:75-83 | returns true exactly when the candidate is inside; the state becomes the candidate when it is, and is left alone when it is not |
| InstructionProcessing.RoverInstructionProcessor.IsValidPosition | src/rover/RoverInstructionProcesser.java:90-92 | true exactly when the state's cell is inside the boundary, whatever its heading |
| InstructionProcessing.RoverInstructionProcessor.ProcessInstructionList | src/rover/RoverInstructionProcesser.java:59-67 | the state becomes Run of the old state |
| InstructionProcessing.RoverInstructionProcessor.GetState | src/rover/RoverInstructionProcesser.java:97-99 | the text parses back to the live state |
| StandaloneRover.JavaRem4 | src/Rover.java:41 | Java's `% 4` gives a remainder between -3 and 3 that has the dividend's sign and differs from it by a multiple of 4 |
| StandaloneRover.Xformed | src/Rover.java:40-46 | after xform theta is in 0..3 and equals the old theta plus dtheta, taken modulo 4 |
| StandaloneRover.ThetaInRange | src/Rover.java:41-43 | whatever theta was, an xform leaves it in 0..3 |
| StandaloneRover.MoveDirections | src/Rover.java:44-63 | M moves E to +x, N to +y, W to -x and S to -y, and does not turn |
| StandaloneRover.TurnsCancel | src/Rover.java:41-65 | L then R, and R then L, restore theta and position |
| StandaloneRover.ParseAnglePose | src/Rover.java:31-36 | a parsed heading is in 0..3 |
| StandaloneRover.FormatAngle | src/Rover.java:37-39 | String.split(" ") of the text gives exactly the decimal x, the decimal y and the heading letter, and that letter maps back to theta |
| StandaloneRover.CodeMapsInvert | src/Rover.java:50-61 | the two code maps are mutual inverses over the four headings |
| StandaloneRover.FormatParseRoundTrip | src/Rover.java:31-61 | parsing asString's text gives the state back |
| StandaloneRover.ParseBoundary | src/Rover.java:100-106 | the lower-left corner is (0, 0) |
| StandaloneRover.ParseBoundaryOfCorner | src/Rover.java:100-106 | the text "x1 y1" gives the plateau from (0, 0) to (x1, y1) |
| StandaloneRover.Boundary.Contains | src/Rover.java:107-110 | edges and corners are inside, so a corner is inside exactly when x0 <= x1 and y0 <= y1, and no cell is when they are not |
| StandaloneRover.IsValid | src/Rover.java:116-127 | true exactly when the cell is inside the plateau and no completed rover stands on it |
| StandaloneRover.Advance | src/Rover.java:76-92 | unless it reaches a character with no xform, where Java throws, the rover ends where it started or on a valid state with theta in 0..3 |
| StandaloneRover.RunRover | src/Rover.java:86-94 | an invalid start leaves the rover where it is; otherwise it ends where it started or on a valid state; a list of M, L and R only never throws |
| StandaloneRover.CodesNeverThrow | src/Rover.java:76-79 | a list made only of M, L and R never reaches a character without an xform |
| StandaloneRover.AdvanceAccepts | src/Rover.java:76-91 | an instruction code whose result is valid moves the rover on to the rest of the list |
| StandaloneRover.DoneEndsList | src/Rover.java:89 | a DONE character ends the list: nothing after it is read, not even an unknown code |
| StandaloneRover.AdvanceStopsAtDone | src/Rover.java:89 | from any state, the loop reads nothing past a DONE character |
| StandaloneRover.Executed | src/Rover.java:87-92 | at most as many instructions are carried out as the list holds, and each is an instruction code |
| StandaloneRover.ReplayFirst | src/Rover.java:89 | replaying a list is replaying its first instruction and then the rest |
| StandaloneRover.ReplayPrefixes | src/Rover.java:89 | for a prefix of codes, replaying the first j instructions is replaying the first j - 1 of the rest from the first one's result |
| StandaloneRover.RunStopsAtFirstInvalid | src/Rover.java:76-92 | an invalid start carries out nothing; every state passed through is valid; a next code's result would be invalid; the run throws exactly when the next character is neither DONE nor a code, and otherwise ends where the first Executed instructions take it |
| StandaloneRover.RunKeepsValid | src/Rover.java:116-127 | a rover that starts valid and does not throw ends inside the plateau and on no completed rover's cell |
| StandaloneFleet.WellFormedCons | src/Rover.java:133-142 | a position line and an instruction line in front of well-formed rover lines keep them well formed |
| StandaloneFleet.RestWellFormed | src/Rover.java:133-142 | the lines after a rover's two lines are well formed when the lines are |
| StandaloneFleet.RestShift | src/Rover.java:133-142 | rover k + 1 of the lines has the position line and instruction line of rover k of the lines after the first rover |
| StandaloneFleet.FirstCommand | src/Rover.java:135-138 | the first rover starts on a heading in 0..3 |
| StandaloneFleet.FirstFinal | src/Rover.java:135-138 | a rover's final heading is in 0..3 |
| StandaloneFleet.RestLines | src/Rover.java:133-136 | the lines after a rover are well formed and fewer |
| StandaloneFleet.RoverCommands | src/Rover.java:133-138 | one command per position line, each starting on a compass heading |
| StandaloneFleet.RunCommands | src/Rover.java:133-143 | one line is written per rover; the history keeps what it held and grows by exactly one state per rover |
| StandaloneFleet.RunFleet | src/Rover.java:133-143 | one line is written per position line, even when its instruction line is missing; the history keeps what it held and grows by one state per line written |
| StandaloneFleet.CommandsOfRest | src/Rover.java:133-142 | the commands of the lines are the first rover's, then those of the lines after its two lines |
| StandaloneFleet.FleetCompletesUnfold | src/Rover.java:133-142 | no rover of the lines makes Java throw exactly when the first does not and the rest do not once it has joined the completed rovers |
| StandaloneFleet.FirstRoverLines | src/Rover.java:133-138 | the first rover starts at the parsed position line and runs the next line, or nothing when the input ends there |
| StandaloneFleet.FleetUnfold | src/Rover.java:133-142 | the first rover's state is written first, then what the later rovers write once it has joined the history; none of them throws |
| StandaloneFleet.FleetCons | src/Rover.java:133-142 | a parsable position line and an instruction line in front of well-formed lines write the rover's state first, then what the rest write with it completed; no rover throws when none of the rest does |
| StandaloneFleet.FleetStep | src/Rover.java:133-143 | one turn of the loop at line i writes the rover there and goes on at the line after its instruction line, or at the end of the input |
| StandaloneFleet.FleetFirstRover | src/Rover.java:133-142 | the first rover is written first and recorded right after the rovers completed before it |
| StandaloneFleet.CommandRecorded | src/Rover.java:133-143 | command k runs against exactly the rovers completed before it, is recorded at that place in the history and written as line k |
| StandaloneFleet.CommandShift | src/Rover.java:133-143 | for k > 0, command k is recorded and written one place after where the commands after the first put it |
| StandaloneFleet.CommandFirstRecorded | src/Rover.java:135-140 | the first command is recorded right after the completed rovers and written first |
| StandaloneFleet.CommandsHead | src/Rover.java:135-140 | the history after the commands starts with the completed rovers and then the first rover's final state, which is the first line written |
| StandaloneFleet.FleetRoverSeesEarlierRovers | src/Rover.java:133-142 | rover k runs its own instructions against exactly the rovers completed before it; its state is recorded at place k of the history and written as line k |
| StandaloneRover.State.Copy | src/Rover.java:25-29 | the copy has the same x, y and theta |
| StandaloneRover.State.constructor | src/Rover.java:31-36 | the state holds the parsed x, y and theta |
| StandaloneRover.State.AsString | src/Rover.java:37-39 | the text parses back to this state |
| StandaloneRover.State.Transform | src/Rover.java:40-46 | the state becomes the xform of the old state, and theta ends in 0..3 |
| StandaloneRover.IsValidState | src/Rover.java:116-127 | true exactly when the state is inside the plateau and no completed rover stands on its cell, whatever the headings |
| StandaloneRover.Rover.constructor | src/Rover.java:71-73 | the rover gets a new state parsed from the text |
| StandaloneRover.Rover.PerformInstruction | src/Rover.java:76-84 | returns whether the candidate is valid; the state becomes the candidate when it is, and is left alone when it is not |
| StandaloneRover.Rover.ProcessInstructionList | src/Rover.java:86-94 | on a list where Java does not throw, the state becomes RunRover of the old state: nothing happens from an invalid start, and otherwise the rover halts at DONE or at the first invalid candidate |
| StandaloneFleet.Fleet.constructor | src/Rover.java:113-114 | no plateau yet and no completed rovers |
| StandaloneFleet.Fleet.AddRover | src/Rover.java:135-141 | for a rover that does not throw, its final state is appended to the completed rovers and is the line written |
| StandaloneFleet.Fleet.ProcessCommandStream | src/Rover.java:129-144 | on an input where no rover throws, the plateau comes from the first line; the lines written and the new history are RunFleet of the rover lines |
| StandaloneFleet.ProcessStream | src/Rover.java:129-144 | one line is written per rover, that is half the input lines, rounded down |
| StandaloneScenarios.FirstRoverPath | src/Rover.java:86-94 | "1 2 N" with "LMLMLMLMM" on a 5 by 5 plateau ends at (1, 3) facing N |
| StandaloneScenarios.SecondRoverPath | src/Rover.java:86-94 | "3 3 E" with "MMRMMRMRRM" ends at (5, 1) facing E, with the first rover at (1, 3) |
| StandaloneScenarios.Text12N | src/Rover.java:31-36 | "1 2 N" parses to (1, 2) facing N |
| StandaloneScenarios.Text33E | src/Rover.java:31-36 | "3 3 E" parses to (3, 3) facing E |
| StandaloneScenarios.Text13N | src/Rover.java:37-39 | (1, 3) facing N prints as "1 3 N" |
| StandaloneScenarios.Text51E | src/Rover.java:37-39 | (5, 1) facing E prints as "5 1 E" |
| StandaloneScenarios.Text55 | src/Rover.java:102-106 | "5 5" is the plateau up to (5, 5) |
| StandaloneScenarios.ExampleSecondRoverLines | src/Rover.java:133-142 | after the first rover completed at (1, 3), the second rover's two lines write "5 1 E" |
| StandaloneScenarios.ExampleRoverLines | src/Rover.java:133-142 | the four rover lines write "1 3 N" and "5 1 E" |
| StandaloneScenarios.ExampleStream | src/Rover.java:129-144 | the whole sample input writes "1 3 N" and "5 1 E" |
| StandaloneScenarios.Text22 | src/Rover.java:102-106 | "2 2" is the plateau up to (2, 2) |
| StandaloneScenarios.Text55N | src/Rover.java:31-39 | "5 5 N" parses to (5, 5) facing N and prints back the same |
| StandaloneScenarios.StartOutsidePlateau | src/Rover.java:86-94 | a rover placed outside a 2 by 2 plateau ignores its "M" and is written where it was placed |
| StandaloneScenarios.Text11N | src/Rover.java:31-39 | "1 1 N" parses to (1, 1) facing N and prints back the same |
| StandaloneScenarios.BlockedRoverPath | src/Rover.java:116-127 | a rover refuses to move onto a completed rover's cell and carries out no instruction |
| StandaloneScenarios.UnreadUnknownCode | src/Rover.java:86-91 | an unknown code after a refused instruction is never read, so the rover stays where it was and nothing is thrown |
| StandaloneScenarios.ReachedUnknownCodeThrows | src/Rover.java:76-79 | an unknown code that the loop reaches makes Java throw |
| StandaloneScenarios.CollisionSecondRoverLines | src/Rover.java:133-142 | the blocked rover's lines write "1 1 N" |
| StandaloneScenarios.CollisionRoverLines | src/Rover.java:133-142 | the rover lines "1 2 N", "", "1 1 N", "M" write "1 2 N" and "1 1 N" |
| StandaloneScenarios.CollisionStream | src/Rover.java:129-144 | "1 2 N" with no instructions, then "1 1 N" with "M", write "1 2 N" and "1 1 N" |

## Left out

- Reading the direction table from `direction_based_state.json` with Gson (`getFileContents`, `readFromFile`'s parsing). The table is built from a given sequence of records. `CompassRecords` holds the conventional N, E, S, W rows; the JSON file itself is not part of this model.
- `src/CommandProcessor.java`. It is argument handling and stream plumbing, and its per-rover loop duplicates `Rover.processCommandStream` without the history of completed rovers.
- The streams and `main` of `src/Rover.java`. `ProcessCommandStream` takes the input lines and returns the lines written.
- `Integer.parseInt`: overflow past 32 bits and non-ASCII digits are not modelled, and `int` arithmetic is unbounded. A sign and at least one ASCII digit are accepted, as in Java.
- Exceptions on bad input. A missing field, a number that does not parse, or an unknown or missing heading letter in `src/Rover.java` make the Java constructors throw. The parsers return `None` there, and the constructors require that parsing succeeds.
- RoverStates.RoverState.constructor: requires a heading letter that the code table holds. For an unknown letter, `stringToDirection` returns null and Java stores it. Java then fails only when `move`, `turnLeft`, `turnRight` or `asString` first uses that heading. A state with no heading is not modelled.
- StandaloneRover.Rover.ProcessInstructionList: requires a list on which Java does not throw. Java throws only when the loop reaches a character other than `M`, `L`, `R` and DONE. `RunRover` returns `None` exactly then, and `RunStopsAtFirstInvalid` says when.
- StandaloneFleet.Fleet.AddRover: requires a rover that does not throw, for the same reason.
- StandaloneFleet.Fleet.ProcessCommandStream: requires an input on which no rover throws. When a later rover throws, Java has already written and flushed the lines of the earlier rovers. That partial output is not modelled.
- The Java `assert`s in the `RoverState` and `Boundary` constructors. Like the exceptions, they become the requirement that parsing succeeds.
- `DirectionTables.TablesSource.Get`: this models Java with assertions enabled. A table that fails `validateTable` leaves no instance, where Java would throw an `AssertionError`. With assertions disabled, Java would keep the unvalidated table, and that case is not modelled.
- Static state in the package `rover`. `RoverState` re-fetches the three tables from the singleton in every constructor. Here each `RoverState` holds the tables as an immutable value, `tables`.
- `Math.cos`, `Math.sin` and `Math.round` in `Rover.State.xform` are floating point. They become the exact table (1, 0), (0, 1), (-1, 0), (0, -1) for theta 0..3, multiplied by the distance. The Java rounding agrees with it for every distance used (0 and 1).
- `toUpperCase` is modelled for ASCII letters only.
- `src/Rover.java` keeps a `List<Rover>` of completed rovers. Here the history is the sequence of their final states, because a completed rover is never changed again. `Rover.getState` is `State.AsString` of the rover's state and has no member of its own.
- `DirectionBasedState.java` has no behaviour. It is the `DirectionBasedState` datatype, with the `Direction` enum including `Invalid`.
