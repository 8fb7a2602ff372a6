/**
 * A booking client's local mirror of the ticket table. It draws the grid,
 * books optimistically (marking a ticket locally before the server has
 * answered), and overwrites its view with every table the server sends. The
 * canvas is reduced to two effects per ticket: the fill colour of its
 * rectangle and the text of its labels.
 */
module Client {
  import opened Grid
  import opened Protocol
  import opened Layout

  /** The client's websocket: not yet connected, or connected and open or closed. */
  datatype Link = NoSocket | Socket(open: bool)

  /** A green fill for every ticket in `ids`. */
  function GreenFills(ids: set<string>): map<string, Colour> {
    map t | t in ids :: Green
  }

  /** A label showing only the id, for every ticket in `ids`. */
  function FreeLabels(ids: set<string>): map<string, Label> {
    map t | t in ids :: Free(t)
  }

  /** The fill every known ticket's rectangle should have: red when booked, green when free. */
  function Fills(status: map<string, bool>): (fill: map<string, Colour>)
    ensures fill.Keys == status.Keys
  {
    map u | u in status :: FillFor(status[u])
  }

  /** The label every known ticket should show, given this client's own bookings. */
  function Labels(status: map<string, bool>, bookings: map<string, string>): (labels: map<string, Label>)
    ensures labels.Keys == status.Keys
  {
    map u | u in status :: LabelFor(u, status[u], bookings)
  }

  /** Setting one ticket's status changes its fill and nothing else's. */
  lemma FillsUpdate(status: map<string, bool>, t: string, booked: bool)
    ensures Fills(status[t := booked]) == Fills(status)[t := FillFor(booked)]
  {
  }

  /** Setting one ticket's status changes its label and nothing else's. */
  lemma LabelsUpdate(status: map<string, bool>, bookings: map<string, string>, t: string, booked: bool)
    ensures Labels(status[t := booked], bookings) == Labels(status, bookings)[t := LabelFor(t, booked, bookings)]
  {
  }

  /**
   * Booking ticket `t` under `who` changes its label to name `who`, and no
   * other label: a label depends on the bookings only through its own ticket.
   */
  lemma LabelsBook(status: map<string, bool>, bookings: map<string, string>, t: string, who: string)
    ensures Labels(status[t := true], bookings[t := who]) == Labels(status, bookings)[t := Taken(t, who)]
  {
    forall u | u in status && u != t
      ensures LabelFor(u, status[u], bookings[t := who]) == LabelFor(u, status[u], bookings)
    {
      LabelReadsOwnBooking(u, status[u], bookings, bookings[t := who]);
    }
  }

  /** The four per-ticket tables the client keeps: status, rectangle, fill and label. */
  datatype Tables = Tables(status: map<string, bool>, rects: map<string, Rect>,
                           fill: map<string, Colour>, labels: map<string, Label>)

  /**
   * One pass of the inner loop's body at cell (row, col): record the
   * ticket's rectangle, mark it free, draw it green and label it with its id.
   */
  function DrawTicket(t: Tables, row: nat, col: nat): Tables
    requires row < ROWS && col < COLS
  {
    var id := TicketId(row, col);
    Tables(t.status[id := false], t.rects[id := CellRect(row, col)], t.fill[id := Green], t.labels[id := Free(id)])
  }

  /**
   * The canvas shows the status: every ticket with a status has a rectangle
   * and no other ticket has one, its fill is red iff it is booked, and its
   * label names it and, when it is booked, the booker as this client knows it.
   */
  predicate Shows(t: Tables, bookings: map<string, string>) {
    t.rects.Keys == t.status.Keys && t.fill == Fills(t.status) && t.labels == Labels(t.status, bookings)
  }

  /** One pass of the inner loop keeps the canvas showing the status. */
  lemma DrawTicketKeepsCanvas(t: Tables, bookings: map<string, string>, row: nat, col: nat)
    requires row < ROWS && col < COLS && Shows(t, bookings)
    ensures Shows(DrawTicket(t, row, col), bookings)
  {
    var id := TicketId(row, col);
    FillsUpdate(t.status, id, false);
    LabelsUpdate(t.status, bookings, id, false);
  }

  /** The tables after the double loop has drawn every cell before (row, col) over `base`. */
  function DrawnUpTo(base: Tables, row: nat, col: nat): Tables
    requires row <= ROWS && col <= COLS && (row == ROWS ==> col == 0)
    decreases row, col
  {
    if col > 0 then DrawTicket(DrawnUpTo(base, row, col - 1), row, col - 1)
    else if row > 0 then DrawnUpTo(base, row - 1, COLS)
    else base
  }

  /** The loop's statuses so far: `base`'s, with every visited ticket free. */
  lemma {:induction false} DrawnStatus(base: Tables, row: nat, col: nat)
    requires row <= ROWS && col <= COLS && (row == ROWS ==> col == 0)
    ensures DrawnUpTo(base, row, col).status == base.status + FreeTable(Visited(row, col))
    decreases row, col
  {
    if col > 0 {
      DrawnStatus(base, row, col - 1);
      StatusStep(base.status, Visited(row, col - 1), TicketId(row, col - 1));
    } else if row > 0 {
      DrawnStatus(base, row - 1, COLS);
    } else {
      assert FreeTable({}) == map[];
      assert base.status + map[] == base.status;
    }
  }

  /** The loop's rectangles so far: `base`'s, with every visited ticket at its cell. */
  lemma {:induction false} DrawnRects(base: Tables, row: nat, col: nat)
    requires row <= ROWS && col <= COLS && (row == ROWS ==> col == 0)
    ensures DrawnUpTo(base, row, col).rects == base.rects + CellRects(Visited(row, col))
    decreases row, col
  {
    if col > 0 {
      DrawnRects(base, row, col - 1);
      RectsStep(base.rects, Visited(row, col - 1), row, col - 1);
    } else if row > 0 {
      DrawnRects(base, row - 1, COLS);
    } else {
      assert CellRects({}) == map[];
      assert base.rects + map[] == base.rects;
    }
  }

  /** The loop's fills so far: `base`'s, with every visited ticket green. */
  lemma {:induction false} DrawnFill(base: Tables, row: nat, col: nat)
    requires row <= ROWS && col <= COLS && (row == ROWS ==> col == 0)
    ensures DrawnUpTo(base, row, col).fill == base.fill + GreenFills(Visited(row, col))
    decreases row, col
  {
    if col > 0 {
      DrawnFill(base, row, col - 1);
      FillStep(base.fill, Visited(row, col - 1), TicketId(row, col - 1));
    } else if row > 0 {
      DrawnFill(base, row - 1, COLS);
    } else {
      assert GreenFills({}) == map[];
      assert base.fill + map[] == base.fill;
    }
  }

  /** The loop's labels so far: `base`'s, with every visited ticket labelled by its id. */
  lemma {:induction false} DrawnLabels(base: Tables, row: nat, col: nat)
    requires row <= ROWS && col <= COLS && (row == ROWS ==> col == 0)
    ensures DrawnUpTo(base, row, col).labels == base.labels + FreeLabels(Visited(row, col))
    decreases row, col
  {
    if col > 0 {
      DrawnLabels(base, row, col - 1);
      LabelsStep(base.labels, Visited(row, col - 1), TicketId(row, col - 1));
    } else if row > 0 {
      DrawnLabels(base, row - 1, COLS);
    } else {
      assert FreeLabels({}) == map[];
      assert base.labels + map[] == base.labels;
    }
  }

  /**
   * Once the double loop has run to its end over tables whose canvas shows
   * their status, every grid ticket is free at its cell and the canvas still
   * shows the status: grid tickets green and labelled by their id, every other
   * ticket as before. `end` stands for ROWS, for the reason given at
   * `LoopVisitsGrid`.
   */
  lemma GridDrawn(base: Tables, bookings: map<string, string>, end: nat)
    requires end == ROWS && Shows(base, bookings)
    ensures var t := DrawnUpTo(base, end, 0);
      && t.status == base.status + FreeTable(GridIds())
      && t.rects == base.rects + CellRects(GridIds())
      && Shows(t, bookings)
  {
    DrawnStatus(base, end, 0);
    DrawnRects(base, end, 0);
    DrawnFill(base, end, 0);
    DrawnLabels(base, end, 0);
    LoopVisitsGrid(end);
    FillsOverFree(base.status, GridIds());
    LabelsOverFree(base.status, bookings, GridIds());
    GridKeys(base.status, base.rects);
  }

  /** Adding one more visited ticket to the free entries sets that ticket free on top of the rest. */
  lemma StatusStep(m: map<string, bool>, seen: set<string>, id: string)
    ensures m + FreeTable(seen + {id}) == (m + FreeTable(seen))[id := false]
  {
    assert FreeTable(seen + {id}) == FreeTable(seen)[id := false];
    UnionUpdate(m, FreeTable(seen), id, false);
  }

  /** Adding one more visited ticket to the rectangles records that cell's rectangle on top of the rest. */
  lemma RectsStep(m: map<string, Rect>, seen: set<string>, row: nat, col: nat)
    requires row < ROWS && col < COLS
    ensures m + CellRects(seen + {TicketId(row, col)}) == (m + CellRects(seen))[TicketId(row, col) := CellRect(row, col)]
  {
    var id := TicketId(row, col);
    assert CellRects(seen + {id}) == CellRects(seen)[id := CellRect(row, col)];
    UnionUpdate(m, CellRects(seen), id, CellRect(row, col));
  }

  /** Adding one more visited ticket to the green fills paints that ticket green on top of the rest. */
  lemma FillStep(m: map<string, Colour>, seen: set<string>, id: string)
    ensures m + GreenFills(seen + {id}) == (m + GreenFills(seen))[id := Green]
  {
    assert GreenFills(seen + {id}) == GreenFills(seen)[id := Green];
    UnionUpdate(m, GreenFills(seen), id, Green);
  }

  /** Adding one more visited ticket to the id labels labels that ticket by its id on top of the rest. */
  lemma LabelsStep(m: map<string, Label>, seen: set<string>, id: string)
    ensures m + FreeLabels(seen + {id}) == (m + FreeLabels(seen))[id := Free(id)]
  {
    assert FreeLabels(seen + {id}) == FreeLabels(seen)[id := Free(id)];
    UnionUpdate(m, FreeLabels(seen), id, Free(id));
  }

  /** Fills of a table with free tickets added: those tickets green, the rest as before. */
  lemma FillsOverFree(status: map<string, bool>, ids: set<string>)
    ensures Fills(status + FreeTable(ids)) == Fills(status) + GreenFills(ids)
  {
  }

  /** Labels of a table with free tickets added: those tickets show their id, the rest as before. */
  lemma LabelsOverFree(status: map<string, bool>, bookings: map<string, string>, ids: set<string>)
    ensures Labels(status + FreeTable(ids), bookings) == Labels(status, bookings) + FreeLabels(ids)
  {
  }

  /** Adding the grid's rectangles and the grid's free entries keeps rectangles and statuses on the same names. */
  lemma GridKeys(status: map<string, bool>, rects: map<string, Rect>)
    requires rects.Keys == status.Keys
    ensures (rects + CellRects(GridIds())).Keys == (status + FreeTable(GridIds())).Keys
  {
    GridIdsAreWellFormed();
  }

  /** The entries of `m` whose keys lie in `keys`. */
  function Restrict(m: map<string, bool>, keys: set<string>): map<string, bool> {
    map u | u in m.Keys && u in keys :: m[u]
  }

  /** Taking one more key of `m` adds exactly its entry. */
  lemma RestrictGrow(m: map<string, bool>, keys: set<string>, t: string)
    requires t in m
    ensures Restrict(m, keys + {t}) == Restrict(m, keys)[t := m[t]]
  {
  }

  /** Restricting to all keys gives `m` back. */
  lemma RestrictAll(m: map<string, bool>)
    ensures Restrict(m, m.Keys) == m
  {
  }

  /** Updating a union at one key is the same as updating its right operand there. */
  lemma UnionUpdate<V>(a: map<string, V>, b: map<string, V>, t: string, v: V)
    ensures (a + b)[t := v] == a + b[t := v]
  {
  }

  /** Adding a table to an empty one gives that table. */
  lemma EmptyUnion<V>(m: map<string, V>)
    ensures map[] + m == m
  {
  }

  class TicketClient {
    const name: string
    var status: map<string, bool>       // booked flag per ticket, as this client believes it
    var rects: map<string, Rect>        // the rectangle drawn for each ticket
    var bookings: map<string, string>   // tickets this client booked, with its own name
    var fill: map<string, Colour>       // current fill colour of each ticket's rectangle
    var labels: map<string, Label>      // what each ticket's label currently shows
    var socket: Link
    var outbox: seq<Incoming>           // requests handed to the websocket, in order

    /**
     * Every ticket the client knows has a rectangle, and the rectangle's
     * colour and the label show the ticket's current local status.
     */
    ghost predicate Valid()
      reads this
    {
      Shows(Drawing(), bookings)
    }

    /** The fields `__init__` sets before it draws the grid: empty tables and no websocket yet. */
    constructor (clientName: string)
      ensures Valid()
      ensures name == clientName
      ensures status == map[] && rects == map[] && bookings == map[]
      ensures socket == NoSocket && outbox == []
    {
      name := clientName;
      status := map[];
      rects := map[];
      bookings := map[];
      fill := map[];
      labels := map[];
      socket := NoSocket;
      outbox := [];
    }

    /** The four per-ticket tables as one value. */
    ghost function Drawing(): Tables
      reads this
    {
      Tables(status, rects, fill, labels)
    }

    /** The inner loop of the drawing: the five cells of one row, left to right. */
    method DrawRow(row: nat, ghost base: Tables)
      requires row < ROWS && Drawing() == DrawnUpTo(base, row, 0)
      modifies this`status, this`rects, this`fill, this`labels
      ensures Drawing() == DrawnUpTo(base, row + 1, 0)
    {
      var col := 0;
      while col < COLS
        invariant col <= COLS && Drawing() == DrawnUpTo(base, row, col)
      {
        var id := TicketId(row, col);
        rects := rects[id := CellRect(row, col)];
        status := status[id := false];
        fill := fill[id := Green];
        labels := labels[id := Free(id)];
        col := col + 1;
      }
    }

    /**
     * Visit the 5 x 5 cells row by row: record each ticket's rectangle, mark
     * it free, draw it green and label it with its id. Entries already in the
     * tables for other names stay.
     */
    method CreateTickets()
      requires Valid()
      modifies this`status, this`rects, this`fill, this`labels
      ensures Valid()
      ensures status == old(status) + FreeTable(GridIds())
      ensures rects == old(rects) + CellRects(GridIds())
    {
      ghost var base := Drawing();
      var row := 0;
      while row < ROWS
        invariant row <= ROWS && Drawing() == DrawnUpTo(base, row, 0)
      {
        DrawRow(row, base);
        row := row + 1;
      }
      GridDrawn(base, bookings, row);
    }

    /** Repaint one ticket: its colour and its label follow `booked`. */
    method UpdateTicketColor(t: string, booked: bool)
      requires t in rects
      modifies this`fill, this`labels
      ensures fill == old(fill)[t := FillFor(booked)]
      ensures labels == old(labels)[t := LabelFor(t, booked, bookings)]
    {
      fill := fill[t := FillFor(booked)];
      labels := labels[t := LabelFor(t, booked, bookings)];
    }

    /** Set the local status of one known ticket and repaint it. */
    method SetStatus(t: string, booked: bool)
      requires Valid() && t in status
      modifies this`status, this`fill, this`labels
      ensures Valid()
      ensures status == old(status)[t := booked]
    {
      FillsUpdate(status, t, booked);
      LabelsUpdate(status, bookings, t, booked);
      status := status[t := booked];
      UpdateTicketColor(t, booked);
    }

    /**
     * Overwrite the local status of every ticket in `payload` and repaint it.
     * Tickets outside the payload and the record of own bookings are left
     * alone.
     */
    method SyncTickets(payload: map<string, bool>)
      requires Valid() && payload.Keys <= rects.Keys
      modifies this`status, this`fill, this`labels
      ensures Valid()
      ensures status == old(status) + payload
      ensures status.Keys == old(status).Keys
    {
      var todo := payload.Keys;
      while todo != {}
        invariant todo <= payload.Keys
        invariant Valid() && rects == old(rects)
        invariant status == old(status) + Restrict(payload, payload.Keys - todo)
        decreases todo
      {
        var t :| t in todo;
        ghost var done := payload.Keys - todo;
        assert payload.Keys - (todo - {t}) == done + {t};
        RestrictGrow(payload, done, t);
        UnionUpdate(old(status), Restrict(payload, done), t, payload[t]);
        SetStatus(t, payload[t]);
        todo := todo - {t};
      }
      assert payload.Keys - todo == payload.Keys;
      RestrictAll(payload);
    }

    /**
     * Handle one message from the server: sync its `tickets` field, or
     * nothing when it has none (a status reply).
     */
    method OnServerMessage(m: Outgoing)
      requires Valid() && TicketsField(m).Keys <= rects.Keys
      modifies this`status, this`fill, this`labels
      ensures Valid()
      ensures status == old(status) + TicketsField(m)
      ensures m.StatusReply? ==> status == old(status)
      ensures m.Snapshot? && m.tickets.Keys == old(status).Keys ==> status == m.tickets
    {
      SyncTickets(TicketsField(m));
    }

    /**
     * A click on ticket `t`: nothing when it is already booked locally;
     * otherwise mark it booked under this client's name, repaint it, and ask
     * the server for it if the websocket is open.
     */
    method BookTicket(t: string)
      requires Valid() && t in status
      modifies this`status, this`bookings, this`fill, this`labels, this`outbox
      ensures Valid()
      ensures old(status)[t] ==>
        && status == old(status) && bookings == old(bookings)
        && fill == old(fill) && labels == old(labels) && outbox == old(outbox)
      ensures !old(status)[t] ==>
        && status == old(status)[t := true]
        && bookings == old(bookings)[t := name]
        && fill == old(fill)[t := Red]
        && labels == old(labels)[t := Taken(t, name)]
        && outbox == old(outbox) + (if socket == Socket(true) then [BookRequest(t, name)] else [])
    {
      if status[t] {
        return;
      }
      FillsUpdate(status, t, true);
      LabelsBook(status, bookings, t, name);
      status := status[t := true];
      bookings := bookings[t := name];
      UpdateTicketColor(t, true);
      if socket.Socket? && socket.open {
        outbox := outbox + [BookRequest(t, name)];
      }
    }

    /**
     * A click on a free ticket that the server then refuses: the error reply
     * carries no table, so the ticket stays booked locally under this
     * client's own name.
     */
    method BookRefused(t: string)
      requires Valid() && t in status && !status[t]
      modifies this`status, this`bookings, this`fill, this`labels, this`outbox
      ensures Valid()
      ensures status == old(status)[t := true] && bookings == old(bookings)[t := name]
    {
      BookTicket(t);
      OnServerMessage(StatusReply(Error, AlreadyBookedMessage(t)));
    }

    /**
     * Two clients ask for the same free ticket and this one loses the race.
     * After the refusal, the next table the server sends marks the ticket
     * booked, and from then on its label shows this client's own name,
     * although another client holds the ticket.
     */
    method LoseRace(t: string, table: map<string, bool>)
      requires Valid() && t in status && !status[t]
      requires table.Keys == status.Keys && table[t]
      modifies this`status, this`bookings, this`fill, this`labels, this`outbox
      ensures Valid() && status == table
      ensures labels[t] == Taken(t, name)
    {
      BookRefused(t);
      OnServerMessage(Snapshot(table));
      assert labels == Labels(table, bookings);
    }

    /** The listener thread attaches the websocket, and it is closed when the listener ends. */
    method SetSocket(link: Link)
      modifies this`socket
      ensures socket == link
    {
      socket := link;
    }
  }

  /**
   * A new client, as `__init__` leaves it: no websocket yet, no bookings, and
   * the grid drawn with every ticket free, the table the server starts from.
   */
  method NewClient(clientName: string) returns (c: TicketClient)
    ensures fresh(c) && c.Valid() && c.name == clientName
    ensures c.status == FreeTable(GridIds()) && c.rects == CellRects(GridIds()) && c.bookings == map[]
    ensures c.socket == NoSocket && c.outbox == []
  {
    c := new TicketClient(clientName);
    c.CreateTickets();
    EmptyUnion(FreeTable(GridIds()));
    EmptyUnion(CellRects(GridIds()));
  }
}
