/**
 * The client's drawing of the grid, reduced to integers and values: the
 * rectangle each ticket occupies on the 600 x 500 canvas, its fill colour and
 * the text of its label.
 */
module Layout {
  import opened Grid

  const TICKET_WIDTH: int := 80
  const TICKET_HEIGHT: int := 40
  const PADDING: int := 10
  const ROW_GAP: int := 50
  const CANVAS_WIDTH: int := 600
  const CANVAS_HEIGHT: int := 500

  datatype Rect = Rect(x1: int, y1: int, x2: int, y2: int)

  /** Whether two rectangles share an interior point. */
  predicate Overlap(a: Rect, b: Rect) {
    a.x1 < b.x2 && b.x1 < a.x2 && a.y1 < b.y2 && b.y1 < a.y2
  }

  /** The rectangle drawn for cell (row, col). */
  function CellRect(row: nat, col: nat): (r: Rect)
    ensures r.x2 - r.x1 == TICKET_WIDTH && r.y2 - r.y1 == TICKET_HEIGHT
    ensures (r.x1 - PADDING) / (TICKET_WIDTH + PADDING) == col
    ensures (r.y1 - PADDING) / (TICKET_HEIGHT + ROW_GAP) == row
  {
    var x1 := col * (TICKET_WIDTH + PADDING) + PADDING;
    var y1 := row * (TICKET_HEIGHT + ROW_GAP) + PADDING;
    Rect(x1, y1, x1 + TICKET_WIDTH, y1 + TICKET_HEIGHT)
  }

  /** Rectangles of different cells do not overlap, so a click selects at most one ticket. */
  lemma CellsDisjoint(r1: nat, c1: nat, r2: nat, c2: nat)
    requires r1 != r2 || c1 != c2
    ensures !Overlap(CellRect(r1, c1), CellRect(r2, c2))
  {
  }

  /** Every cell of the grid lies inside the canvas, with room for its label below it. */
  lemma CellInsideCanvas(row: nat, col: nat)
    requires row < ROWS && col < COLS
    ensures 0 <= CellRect(row, col).x1 && CellRect(row, col).x2 <= CANVAS_WIDTH
    ensures 0 <= CellRect(row, col).y1 && CellRect(row, col).y2 + 10 <= CANVAS_HEIGHT
  {
  }

  /** The rectangle of every grid name in `ids`, keyed by the name. */
  function CellRects(ids: set<string>): map<string, Rect> {
    map t | t in ids && IsGridId(t) :: CellRect(RowOf(t), ColOf(t))
  }

  /** The rectangle of every grid ticket, keyed by its name. */
  function GridRects(): (rects: map<string, Rect>)
    ensures rects.Keys == GridIds()
    ensures forall t :: t in rects ==> IsGridId(t) && rects[t] == CellRect(RowOf(t), ColOf(t))
  {
    GridIdsAreWellFormed();
    CellRects(GridIds())
  }

  /** No two grid tickets' rectangles overlap. */
  lemma GridRectsDisjoint(s: string, t: string)
    requires s in GridRects() && t in GridRects() && s != t
    ensures !Overlap(GridRects()[s], GridRects()[t])
  {
    GridIdsAreWellFormed();
    TicketIdOfParts(s);
    TicketIdOfParts(t);
    CellsDisjoint(RowOf(s), ColOf(s), RowOf(t), ColOf(t));
  }

  datatype Colour = Green | Red

  /** Fill colour of a ticket: red when booked, green when free. */
  function FillFor(booked: bool): (c: Colour)
    ensures c == Red <==> booked
  {
    if booked then Red else Green
  }

  /** The name shown for the booker of `id`: the recorded client, or "N/A". */
  function BookerOf(id: string, bookings: map<string, string>): string {
    if id in bookings then bookings[id] else "N/A"
  }

  /** What a ticket's label shows: the id alone, or the id and who booked it. */
  datatype Label = Free(id: string) | Taken(id: string, booker: string)

  /**
   * The label of ticket `id`, given whether it is booked and this client's
   * own bookings: it always names the ticket, and it names a booker exactly
   * when the ticket is booked.
   */
  function LabelFor(id: string, booked: bool, bookings: map<string, string>): (l: Label)
    ensures l.id == id
    ensures l.Taken? <==> booked
  {
    if booked then Taken(id, BookerOf(id, bookings)) else Free(id)
  }

  /**
   * The text drawn for a label: "<id>" or "<id> - <booker>". The text can be
   * read back: it starts with the id, it is longer than the id exactly when
   * a booker is shown, and then the booker follows the " - " separator.
   */
  function LabelText(l: Label): (text: string)
    ensures |text| >= |l.id| && text[..|l.id|] == l.id
    ensures l.Taken? <==> |text| > |l.id|
    ensures l.Taken? ==> |text| == |l.id| + 3 + |l.booker|
    ensures l.Taken? ==> text[|l.id|..|l.id| + 3] == " - " && text[|l.id| + 3..] == l.booker
  {
    match l
    case Free(id) => id
    case Taken(id, booker) => id + " - " + booker
  }

  /**
   * The text drawn under a ticket starts with its id, is longer than the id
   * exactly when the ticket is booked, and then shows " - " and the booker
   * (or "N/A").
   */
  lemma LabelShape(id: string, booked: bool, bookings: map<string, string>)
    ensures var text := LabelText(LabelFor(id, booked, bookings));
      && |text| >= |id| && text[..|id|] == id
      && (booked <==> |text| > |id|)
      && (booked ==> text[|id|..|id| + 3] == " - " && text[|id| + 3..] == BookerOf(id, bookings))
  {
  }

  /** A label depends on the bookings only through the entry of its own ticket. */
  lemma LabelReadsOwnBooking(id: string, booked: bool, m1: map<string, string>, m2: map<string, string>)
    requires id in m1 <==> id in m2
    requires id in m1 ==> m1[id] == m2[id]
    ensures LabelFor(id, booked, m1) == LabelFor(id, booked, m2)
  {
  }
}
