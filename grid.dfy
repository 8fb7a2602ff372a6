/**
 * The fixed 5 x 5 grid of tickets shared by the booking server and its
 * clients. A ticket is named "ticket_<row>_<col>"; both components build the
 * same names from the same row-major double loop.
 */
module Grid {

  const ROWS: nat := 5
  const COLS: nat := 5

  /** The decimal digit character of a number below ten. */
  function Digit(d: nat): (ch: char)
    requires d < 10
    ensures '0' <= ch <= '9'
    ensures ch as int - '0' as int == d
  {
    ('0' as int + d) as char
  }

  /** Whether `s` has the shape of a grid ticket name, with row and column inside the grid. */
  predicate IsGridId(s: string) {
    && |s| == 10
    && s[..7] == "ticket_"
    && s[8] == '_'
    && '0' <= s[7] && s[7] as int < '0' as int + ROWS
    && '0' <= s[9] && s[9] as int < '0' as int + COLS
  }

  /** The row a grid ticket name encodes. */
  function RowOf(s: string): (row: nat)
    requires IsGridId(s)
    ensures row < ROWS
  {
    s[7] as int - '0' as int
  }

  /** The column a grid ticket name encodes. */
  function ColOf(s: string): (col: nat)
    requires IsGridId(s)
    ensures col < COLS
  {
    s[9] as int - '0' as int
  }

  /** The name of the ticket in cell (row, col): f"ticket_{row}_{col}". */
  function TicketId(row: nat, col: nat): (id: string)
    requires row < ROWS && col < COLS
    ensures IsGridId(id) && RowOf(id) == row && ColOf(id) == col
  {
    var id := "ticket_" + [Digit(row)] + "_" + [Digit(col)];
    assert id[..7] == "ticket_";
    id
  }

  /** Every grid ticket name is the name of the cell it encodes. */
  lemma TicketIdOfParts(s: string)
    requires IsGridId(s)
    ensures TicketId(RowOf(s), ColOf(s)) == s
  {
    var id := TicketId(RowOf(s), ColOf(s));
    assert Digit(RowOf(s)) == s[7];
    assert Digit(ColOf(s)) == s[9];
    assert id == s[..7] + [s[7]] + [s[8]] + [s[9]];
    assert s == s[..7] + [s[7]] + [s[8]] + [s[9]];
  }

  /** Whether the row-major double loop reaches cell (r, c) before cell (row, col). */
  predicate Before(r: nat, c: nat, row: nat, col: nat) {
    r < row || (r == row && c < col)
  }

  /**
   * The names the row-major double loop has produced before reaching cell
   * (row, col); (ROWS, 0) is the point where the loop ends.
   */
  function Visited(row: nat, col: nat): set<string>
    requires row <= ROWS && col <= COLS && (row == ROWS ==> col == 0)
    decreases row, col
  {
    if col > 0 then Visited(row, col - 1) + {TicketId(row, col - 1)}
    else if row > 0 then Visited(row - 1, COLS)
    else {}
  }

  /** A name has been produced iff it is a grid name whose cell comes earlier in the loop. */
  lemma {:induction false} VisitedMembership(row: nat, col: nat, t: string)
    requires row <= ROWS && col <= COLS && (row == ROWS ==> col == 0)
    ensures t in Visited(row, col) <==> IsGridId(t) && Before(RowOf(t), ColOf(t), row, col)
    decreases row, col
  {
    if col > 0 {
      VisitedMembership(row, col - 1, t);
      if IsGridId(t) {
        TicketIdOfParts(t);
      }
    } else if row > 0 {
      VisitedMembership(row - 1, COLS, t);
    }
  }

  /** No name is produced twice: every step of the loop adds a new one. */
  lemma {:induction false} VisitedSize(row: nat, col: nat)
    requires row <= ROWS && col <= COLS && (row == ROWS ==> col == 0)
    ensures |Visited(row, col)| == row * COLS + col
    decreases row, col
  {
    if col > 0 {
      VisitedSize(row, col - 1);
      VisitedMembership(row, col - 1, TicketId(row, col - 1));
    } else if row > 0 {
      VisitedSize(row - 1, COLS);
    }
  }

  /** The 25 ticket names of the grid. */
  function GridIds(): (ids: set<string>)
    ensures |ids| == ROWS * COLS
  {
    LoopVisitsGrid(ROWS);
    VisitedSize(ROWS, 0);
    set r: nat, c: nat | r < ROWS && c < COLS :: TicketId(r, c)
  }

  /** The grid holds exactly the well-formed names: "ticket_r_c" with r, c in 0..4. */
  lemma GridIdsAreWellFormed()
    ensures forall t :: t in GridIds() <==> IsGridId(t)
  {
    forall t: string
      ensures t in GridIds() <==> IsGridId(t)
    {
      if IsGridId(t) {
        TicketIdOfParts(t);
      }
    }
  }

  /**
   * The double loop, run to its end, produces exactly the grid's names.
   * `end` stands for ROWS: with the constant written in place of a variable
   * the verifier would unroll `Visited` all the way down to its 25 cells.
   */
  lemma LoopVisitsGrid(end: nat)
    requires end == ROWS
    ensures Visited(end, 0) == set r: nat, c: nat | r < ROWS && c < COLS :: TicketId(r, c)
  {
    forall t: string
      ensures t in Visited(end, 0) <==> exists r: nat, c: nat :: r < ROWS && c < COLS && t == TicketId(r, c)
    {
      VisitedMembership(end, 0, t);
      if IsGridId(t) {
        TicketIdOfParts(t);
      }
    }
  }

  /** Every name in `ids`, unbooked. */
  function FreeTable(ids: set<string>): map<string, bool> {
    map t | t in ids :: false
  }

  /** The table both components start from: every grid ticket, unbooked. */
  function InitialTable(): (table: map<string, bool>)
    ensures table.Keys == GridIds()
    ensures forall t :: t in table ==> !table[t]
  {
    FreeTable(GridIds())
  }

  /** A name outside the grid, such as "ticket_9_9", is not in the table. */
  lemma OutsideGrid()
    ensures "ticket_9_9" !in GridIds()
    ensures "ticket_0_0" in GridIds() && "ticket_4_4" in GridIds()
  {
    GridIdsAreWellFormed();
    assert !IsGridId("ticket_9_9");
    assert IsGridId("ticket_0_0");
    assert IsGridId("ticket_4_4");
  }
}
