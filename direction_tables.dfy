/**
 * The direction table of the table-driven rover: the rows of
 * src/rover/DirectionBasedState.java and the loading, validation and
 * single shared instance of src/rover/Tables_JSON.java. The JSON file and its
 * parsing are replaced by the sequence of rows the parser would produce.
 */
module DirectionTables {
  import opened Wrappers

  /** DirectionBasedState.Direction, with its INVALID member. */
  datatype Direction = Invalid | North | East | South | West

  /**
   * One row of the table: facing `ahead`, a left turn faces `left`, a right
   * turn faces `right`, one move adds (dx, dy), and `code` is the letter that
   * stands for `ahead` in the input and output.
   */
  datatype DirectionBasedState = DirectionBasedState(
    ahead: Direction, left: Direction, right: Direction, dx: int, dy: int, code: char)

  /** The three look-up tables Tables_JSON hands out, as one value. */
  datatype Tables = Tables(
    states: map<Direction, DirectionBasedState>,
    codes: map<Direction, char>,
    directions: map<char, Direction>)

  // ---------------------------------------------------------------------------
  // Loading: every row is put into the three maps, in the order of the rows

  function StatesOf(records: seq<DirectionBasedState>): map<Direction, DirectionBasedState>
  {
    if records == [] then map[]
    else
      var last := records[|records| - 1];
      StatesOf(records[..|records| - 1])[last.ahead := last]
  }

  function CodesOf(records: seq<DirectionBasedState>): map<Direction, char>
  {
    if records == [] then map[]
    else
      var last := records[|records| - 1];
      CodesOf(records[..|records| - 1])[last.ahead := last.code]
  }

  function DirectionsOf(records: seq<DirectionBasedState>): map<char, Direction>
  {
    if records == [] then map[]
    else
      var last := records[|records| - 1];
      DirectionsOf(records[..|records| - 1])[last.code := last.ahead]
  }

  function TablesOf(records: seq<DirectionBasedState>): Tables
  {
    Tables(StatesOf(records), CodesOf(records), DirectionsOf(records))
  }

  /**
   * After loading, the row table and the code table have one key per heading
   * that occurs, every row is filed under its own heading, the code table
   * agrees with the rows, and every code names a heading that has a row.
   */
  lemma {:induction false} LoadedTablesAgree(records: seq<DirectionBasedState>)
    ensures var t := TablesOf(records);
      && t.states.Keys == t.codes.Keys == (set i | 0 <= i < |records| :: records[i].ahead)
      && t.directions.Keys == (set i | 0 <= i < |records| :: records[i].code)
      && (forall d :: d in t.states ==> t.states[d].ahead == d && t.codes[d] == t.states[d].code)
      && (forall c :: c in t.directions ==> t.directions[c] in t.states)
    decreases |records|
  {
    if records != [] {
      var front := records[..|records| - 1];
      var last := records[|records| - 1];
      LoadedTablesAgree(front);
      assert (set i | 0 <= i < |records| :: records[i].ahead)
          == (set i | 0 <= i < |front| :: front[i].ahead) + {last.ahead} by {
        forall i | 0 <= i < |records| - 1 ensures records[i].ahead == front[i].ahead {
        }
      }
      assert (set i | 0 <= i < |records| :: records[i].code)
          == (set i | 0 <= i < |front| :: front[i].code) + {last.code} by {
        forall i | 0 <= i < |records| - 1 ensures records[i].code == front[i].code {
        }
      }
    }
  }

  /** A row that no later row shares a heading with is the one filed under that heading. */
  lemma {:induction false} LastRowWins(records: seq<DirectionBasedState>, i: nat)
    requires i < |records|
    requires forall j :: i < j < |records| ==> records[j].ahead != records[i].ahead
    ensures records[i].ahead in StatesOf(records) && records[i].ahead in CodesOf(records)
    ensures StatesOf(records)[records[i].ahead] == records[i]
    ensures CodesOf(records)[records[i].ahead] == records[i].code
    decreases |records|
  {
    if i < |records| - 1 {
      var front := records[..|records| - 1];
      LastRowWins(front, i);
    }
  }

  /** A row that no later row shares a code with is the one its code names. */
  lemma {:induction false} LastCodeWins(records: seq<DirectionBasedState>, i: nat)
    requires i < |records|
    requires forall j :: i < j < |records| ==> records[j].code != records[i].code
    ensures records[i].code in DirectionsOf(records)
    ensures DirectionsOf(records)[records[i].code] == records[i].ahead
    decreases |records|
  {
    if i < |records| - 1 {
      var front := records[..|records| - 1];
      LastCodeWins(front, i);
    }
  }

  /** With distinct headings and distinct codes, every row is filed under its heading and its code, both ways. */
  lemma DistinctRowsLoaded(records: seq<DirectionBasedState>, i: nat)
    requires i < |records|
    requires forall j, k :: 0 <= j < k < |records| ==> records[j].ahead != records[k].ahead
    requires forall j, k :: 0 <= j < k < |records| ==> records[j].code != records[k].code
    ensures records[i].ahead in TablesOf(records).states && records[i].ahead in TablesOf(records).codes
    ensures records[i].code in TablesOf(records).directions
    ensures TablesOf(records).states[records[i].ahead] == records[i]
    ensures TablesOf(records).codes[records[i].ahead] == records[i].code
    ensures TablesOf(records).directions[records[i].code] == records[i].ahead
  {
    LastRowWins(records, i);
    LastCodeWins(records, i);
  }

  // ---------------------------------------------------------------------------
  // Validation

  predicate IsHorizontal(states: map<Direction, DirectionBasedState>, d: Direction)
    requires d in states
  {
    states[d].dy == 0
  }

  predicate IsVertical(states: map<Direction, DirectionBasedState>, d: Direction)
    requires d in states
  {
    states[d].dx == 0
  }

  /** The checks validateTable makes for a heading d of the table. */
  predicate SymmetricAt(states: map<Direction, DirectionBasedState>, d: Direction)
  {
    d in states ==>
      var left := states[d].left;
      var right := states[d].right;
      && left in states && states[left].right == d
      && right in states && states[right].left == d
      && IsHorizontal(states, d) == IsVertical(states, right)
      && IsVertical(states, d) == IsHorizontal(states, right)
  }

  /** A table every assertion of validateTable holds for. */
  predicate ValidTable(states: map<Direction, DirectionBasedState>)
  {
    |states| == 4 && forall d :: SymmetricAt(states, d)
  }

  /** In a valid table a left turn and a right turn undo each other, and both stay in the table. */
  lemma TurnsUndoEachOther(states: map<Direction, DirectionBasedState>, d: Direction)
    requires ValidTable(states) && d in states
    ensures states[d].left in states && states[states[d].left].right == d
    ensures states[d].right in states && states[states[d].right].left == d
  {
    assert SymmetricAt(states, d);
  }

  /** In a valid table a right turn swaps moving along x for moving along y. */
  lemma RightTurnSwapsAxes(states: map<Direction, DirectionBasedState>, d: Direction)
    requires ValidTable(states) && d in states
    ensures states[d].right in states
    ensures IsHorizontal(states, d) <==> IsVertical(states, states[d].right)
    ensures IsVertical(states, d) <==> IsHorizontal(states, states[d].right)
  {
    assert SymmetricAt(states, d);
  }

  /** In a valid table a left turn also swaps the axes: the heading to the left of a horizontal one is vertical. */
  lemma LeftTurnSwapsAxes(states: map<Direction, DirectionBasedState>, d: Direction)
    requires ValidTable(states) && d in states
    ensures states[d].left in states
    ensures IsHorizontal(states, d) <==> IsVertical(states, states[d].left)
    ensures IsVertical(states, d) <==> IsHorizontal(states, states[d].left)
  {
    assert SymmetricAt(states, d);
    assert SymmetricAt(states, states[d].left);
  }

  /** In a valid table a right turn is one-to-one on the headings, and so is a left turn: each permutes the four. */
  lemma TurnsPermuteHeadings(states: map<Direction, DirectionBasedState>, d1: Direction, d2: Direction)
    requires ValidTable(states) && d1 in states && d2 in states
    ensures states[d1].right == states[d2].right ==> d1 == d2
    ensures states[d1].left == states[d2].left ==> d1 == d2
  {
    assert SymmetricAt(states, d1) && SymmetricAt(states, d2);
  }

  // ---------------------------------------------------------------------------
  // The loaded tables (Tables_JSON) and the single shared instance (Tables_JSON.get)

  class TablesJson {
    var directionStateTable: map<Direction, DirectionBasedState>
    var directionCodeTable: map<Direction, char>
    var codeDirectionTable: map<char, Direction>

    function Value(): Tables
      reads this
    {
      Tables(directionStateTable, directionCodeTable, codeDirectionTable)
    }

    /** The private constructor: load the rows (validation is left to Get, which reports its outcome). */
    constructor (records: seq<DirectionBasedState>)
      ensures Value() == TablesOf(records)
    {
      directionStateTable, directionCodeTable, codeDirectionTable := map[], map[], map[];
      new;
      ReadFromRecords(records);
    }

    /** readFromFile after the JSON array has been parsed: three fresh maps filled row by row. */
    method ReadFromRecords(records: seq<DirectionBasedState>)
      modifies this
      ensures Value() == TablesOf(records)
    {
      directionStateTable, directionCodeTable, codeDirectionTable := map[], map[], map[];
      for i := 0 to |records|
        invariant Value() == TablesOf(records[..i])
      {
        assert records[..i + 1][..i] == records[..i];
        var dbs := records[i];
        directionStateTable := directionStateTable[dbs.ahead := dbs];
        directionCodeTable := directionCodeTable[dbs.ahead := dbs.code];
        codeDirectionTable := codeDirectionTable[dbs.code := dbs.ahead];
      }
      assert records[..|records|] == records;
    }

    /**
     * validateTable with assertions enabled: false where an assertion would fail
     * or a missing row would be looked up, true when every check passes.
     */
    method ValidateTable() returns (ok: bool)
      ensures ok == ValidTable(directionStateTable)
    {
      if |directionStateTable| != 4 {
        return false;
      }
      var unchecked := directionStateTable.Keys;
      while unchecked != {}
        invariant unchecked <= directionStateTable.Keys
        invariant forall d :: d !in unchecked ==> SymmetricAt(directionStateTable, d)
        decreases unchecked
      {
        var d :| d in unchecked;
        var left := directionStateTable[d].left;
        var right := directionStateTable[d].right;
        if left !in directionStateTable || directionStateTable[left].right != d {
          assert !SymmetricAt(directionStateTable, d);
          return false;
        }
        if right !in directionStateTable || directionStateTable[right].left != d {
          assert !SymmetricAt(directionStateTable, d);
          return false;
        }
        if IsHorizontal(directionStateTable, d) != IsVertical(directionStateTable, right) {
          assert !SymmetricAt(directionStateTable, d);
          return false;
        }
        if IsVertical(directionStateTable, d) != IsHorizontal(directionStateTable, right) {
          assert !SymmetricAt(directionStateTable, d);
          return false;
        }
        unchecked := unchecked - {d};
      }
      return true;
    }
  }

  /** The static part of Tables_JSON: the rows of the configuration file and the lazily built instance. */
  class TablesSource {
    const records: seq<DirectionBasedState>
    var instance: TablesJson?

    ghost predicate Valid()
      reads this, instance
    {
      instance != null ==> instance.Value() == TablesOf(records) && ValidTable(StatesOf(records))
    }

    constructor (records: seq<DirectionBasedState>)
      ensures this.records == records && instance == null && Valid()
    {
      this.records := records;
      instance := null;
    }

    /**
     * Tables_JSON.get: the first successful call builds and validates the tables;
     * every later call returns that same instance. A table that fails validation
     * makes the call fail (None) and leaves no instance behind.
     */
    method Get() returns (r: Option<TablesJson>)
      requires Valid()
      modifies this
      ensures Valid()
      ensures old(instance) != null ==> instance == old(instance) && r == Some(instance)
      ensures old(instance) == null && ValidTable(StatesOf(records)) ==>
        r.Some? && fresh(r.value) && instance == r.value
      ensures old(instance) == null && !ValidTable(StatesOf(records)) ==> r == None && instance == null
      ensures r.Some? ==> r.value.Value() == TablesOf(records) && ValidTable(StatesOf(records))
    {
      if instance == null {
        var t := new TablesJson(records);
        assert t.directionStateTable == StatesOf(records);
        var ok := t.ValidateTable();
        if !ok {
          return None;
        }
        instance := t;
      }
      r := Some(instance);
    }
  }

  // ---------------------------------------------------------------------------
  // The usual compass table

  /** The four compass rows in the form the configuration file gives them. */
  const CompassRecords: seq<DirectionBasedState> := [
    DirectionBasedState(North, West, East, 0, 1, 'N'),
    DirectionBasedState(East, North, South, 1, 0, 'E'),
    DirectionBasedState(South, East, West, 0, -1, 'S'),
    DirectionBasedState(West, South, North, -1, 0, 'W')
  ]

  /** The tables the compass rows load into. */
  const Compass: Tables := Tables(
    map[North := CompassRecords[0], East := CompassRecords[1], South := CompassRecords[2], West := CompassRecords[3]],
    map[North := 'N', East := 'E', South := 'S', West := 'W'],
    map['N' := North, 'E' := East, 'S' := South, 'W' := West])

  /** Loading four rows files each under its heading and its code, later rows overriding earlier ones. */
  lemma LoadFourRows(a: DirectionBasedState, b: DirectionBasedState, c: DirectionBasedState, d: DirectionBasedState)
    ensures StatesOf([a, b, c, d]) == map[a.ahead := a, b.ahead := b, c.ahead := c, d.ahead := d]
    ensures CodesOf([a, b, c, d]) == map[a.ahead := a.code, b.ahead := b.code, c.ahead := c.code, d.ahead := d.code]
    ensures DirectionsOf([a, b, c, d]) == map[a.code := a.ahead, b.code := b.ahead, c.code := c.ahead, d.code := d.ahead]
  {
    LoadOneMore([], a);
    LoadOneMore([a], b);
    LoadOneMore([a, b], c);
    LoadOneMore([a, b, c], d);
    assert [] + [a] == [a] && [a] + [b] == [a, b] && [a, b] + [c] == [a, b, c] && [a, b, c] + [d] == [a, b, c, d];
  }

  /** Loading one more row updates each table at that row's heading or code. */
  lemma LoadOneMore(records: seq<DirectionBasedState>, row: DirectionBasedState)
    ensures StatesOf(records + [row]) == StatesOf(records)[row.ahead := row]
    ensures CodesOf(records + [row]) == CodesOf(records)[row.ahead := row.code]
    ensures DirectionsOf(records + [row]) == DirectionsOf(records)[row.code := row.ahead]
  {
    assert (records + [row])[..|records|] == records;
  }

  /** The compass row table passes every assertion of validateTable. */
  lemma CompassStatesValid()
    ensures ValidTable(Compass.states)
  {
    var states := Compass.states;
    assert states.Keys == {North, East, South, West};
    forall d ensures SymmetricAt(states, d) {
    }
  }

  /** Loading the compass rows gives the expected maps, and they pass validation. */
  lemma CompassTablesValid()
    ensures TablesOf(CompassRecords) == Compass
    ensures ValidTable(Compass.states)
  {
    var r := CompassRecords;
    assert r == [r[0], r[1], r[2], r[3]];
    LoadFourRows(r[0], r[1], r[2], r[3]);
    CompassStatesValid();
  }
}
