# Ticket booking: server coordinator and client mirror

A small websocket ticket-booking system. The server keeps a table of 25
tickets, named `ticket_<row>_<col>` for a 5 x 5 grid, each with a booked
flag. It keeps the set of connected clients and handles `book` requests. A
request for a free ticket sets the flag, answers the requester with a success
message and broadcasts the whole table to every connected client. A request
for a booked ticket gets an error reply and nothing else. Each client draws
the grid on a canvas. It books optimistically: it marks the ticket red, with
its own name under it, before the server answers. It overwrites its local
view with every table the server sends.

The model has five modules:

- `Grid`: the ticket names and the row-major double loop that both
  components use to build them. `Visited(row, col)` is the set of names the
  loop has produced before cell (row, col). The initial table maps every grid
  name to "free".
- `Layout`: the client's integer geometry: the rectangle of each cell, its
  fill colour and the text of its label.
- `Protocol`: the messages on the wire, as datatypes instead of JSON text.
- `Server`: the class `BookingServer` with its fields `tickets`, `connected`
  and `sent`, the log of every message sent, tagged with its connection.
  `Classify` is the branch structure of the message handler.
  `RunTrace` runs any sequence of connect, message and close events.
- `Client`: the class `TicketClient`. Its status, rectangle, bookings, fill
  and label tables are the dictionaries and canvas items of the client.
  `outbox` is the sequence of requests handed to the websocket.

The model reads each handled message as one atomic step. This is an
abstraction. The test-and-set of a flag (server-test.py:43-44) contains no
`await`, so on asyncio's single thread it is atomic in the source too. The
rest of the handler is not: it pauses at every send (lines 32, 47 and 56) and
at the broadcast (line 52), and other sessions run in those pauses. The
central safety property is proved over every sequence of whole-message events
(`RunTrace`, kept as the invariant `BookingServer.Valid`): every ticket is
announced as booked at most once, and exactly when its flag is set.

Three behaviours of the programs are easy to misread:

- A `book` request for an id the table does not hold, or a message whose
  action is not `book`, is silently ignored (server-test.py:40). There is no
  error reply for an unknown id.
- A message that is not JSON, JSON that is not an object, or a `book` request
  whose `ticket_id` is a list or an object raises inside the handler. That
  ends the session, and the connection is removed from the registry
  (server-test.py:36-40, 62-64). The connection does not stay open.
- The server keeps only a boolean per ticket, never the holder, and
  `client_name` is never read (`Server.ClientNameIgnored`). A client shows
  its own name under every ticket it tried to book, whether the server
  accepted the request or refused it, and "N/A" under tickets booked by
  others. When two clients race for a ticket, the loser keeps showing its
  own name under it (`Client.TicketClient.LoseRace`). The error reply carries
  no table (client-test-1.py:81), and the client never forgets its own
  claim (line 117).

## Model

| member | source | states |
|---|---|---|
| Grid.TicketId | client-test-1.py:45 | the name of cell (row, col) is a well-formed grid name that encodes that row and column |
| Grid.TicketIdOfParts | server-test.py:9 | every well-formed grid name is the name of the cell it encodes, so names and cells correspond one to one |
| Grid.VisitedMembership | client-test-1.py:43-45 | the double loop has produced a name before cell (row, col) iff it is a grid name whose cell comes earlier in row-major order |
| Grid.VisitedSize | server-test.py:9 | the loop never produces a name twice: before (row, col) it has produced row*5+col names |
| Grid.GridIds | server-test.py:8-9 | the grid has exactly 25 ticket names |
| Grid.GridIdsAreWellFormed | server-test.py:8-9 | a name is in the grid iff it is "ticket_r_c" with r and c in 0..4 |
| Grid.LoopVisitsGrid | client-test-1.py:43-45 | run to its end, the double loop has produced exactly the grid's names |
| Grid.InitialTable | server-test.py:9 | the initial table has exactly the grid's 25 names as keys, all unbooked |
| Grid.OutsideGrid | server-test.py:9 | "ticket_9_9" is not a key of the table; "ticket_0_0" and "ticket_4_4" are |
| Layout.CellRect | client-test-1.py:38-49 | a cell's rectangle is 80 wide and 40 high, and its corner determines its column (x1 = col*90+10) and row (y1 = row*90+10) |
| Layout.CellsDisjoint | client-test-1.py:38-49 | the rectangles of two different cells do not overlap, so a click selects at most one ticket |
| Layout.CellInsideCanvas | client-test-1.py:46-60 | every grid cell, and the label 10 pixels below it, lies inside the 600 x 500 canvas |
| Layout.GridRects | client-test-1.py:43-53 | the rectangle table has exactly the grid names as keys, each mapped to its own cell's rectangle |
| Layout.GridRectsDisjoint | client-test-1.py:43-53 | no two tickets in the rectangle table overlap |
| Layout.FillFor | client-test-1.py:98 | the fill is red exactly when the ticket is booked |
| Layout.LabelFor | client-test-1.py:102-105 | a label always names its ticket, and it names a booker exactly when the ticket is booked |
| Layout.LabelText | client-test-1.py:103-105 | the text can be read back: it starts with the id, it is longer than the id exactly when a booker is shown, and then " - " and the booker follow |
| Layout.LabelShape | client-test-1.py:102-105 | a label starts with the ticket id; it is longer than the id iff the ticket is booked, and then " - " and the booker (or "N/A") follow |
| Layout.LabelReadsOwnBooking | client-test-1.py:103 | a ticket's label depends on the bookings only through that ticket's own entry |
| Protocol.BookedMessage | server-test.py:47-50 | the success text is "Ticket <id> booked successfully.", and the id can be read back from it |
| Protocol.AlreadyBookedMessage | server-test.py:56-59 | the error text is "Ticket <id> is already booked.", and the id can be read back from it |
| Protocol.BookedMessageInjective | server-test.py:49 | success replies for different tickets are different messages |
| Server.Classify | server-test.py:36-43 | a message ends the session iff it raises; it reaches the lock iff it is a `book` for a known ticket; it is accepted iff that ticket is free and rejected iff it is booked; everything else is ignored |
| Server.ClientNameIgnored | server-test.py:36-40 | the `client_name` field cannot change the decision |
| Server.BookRequestOutcome | server-test.py:40-59 | a client's request for a grid ticket is accepted iff the ticket is free, and rejected otherwise |
| Server.UnknownTicketIgnored | server-test.py:40 | a request for "ticket_9_9" is ignored, with no reply |
| Server.SuccessCountAppend | server-test.py:47-50 | success replies in a log are counted additively over concatenation |
| Server.SnapshotsCountNothing | server-test.py:20 | a batch of table broadcasts announces no booking |
| Server.BroadcastStep | server-test.py:21 | one more send to a client not yet served extends a broadcast by exactly that client |
| Server.Fanout | server-test.py:19-22 | the batch sends the message exactly once to each given client and to nobody else |
| Server.BookingServer.constructor | server-test.py:9-13 | the table is the initial table, no client is connected, nothing has been sent |
| Server.BookingServer.NotifyClients | server-test.py:15-22 | appends one identical whole-table message per connected client (nothing when none is connected) and changes nothing else |
| Server.BookingServer.Connect | server-test.py:28-32 | the client is registered and the first message it receives is the current table |
| Server.BookingServer.HandleMessage | server-test.py:35-64 | per branch: ignored messages change nothing; a raising message ends the session and unregisters the client; a booked ticket gets only an error reply to the requester; a free ticket is set, the requester gets the success reply, then every connected client gets the new table; flags only go from false to true, keys never change, and every send goes to a registered client |
| Server.BookingServer.Refuse | server-test.py:53-59 | the only effect is one error reply to the requester |
| Server.BookingServer.Book | server-test.py:43-52 | only this flag becomes true; the success reply goes to the requester, then a broadcast of the new table goes to every connected client |
| Server.BookingServer.Disconnect | server-test.py:60-64 | the connection leaves the registry; table and log are unchanged |
| Server.BookingServer.RunTrace | server-test.py:24-64 | over any sequence of connects, messages and closes, flags only go from false to true, the key set never changes, and each ticket gets at most one success reply, exactly when its flag is set |
| Client.Fills | client-test-1.py:98-99 | the fill table has the same tickets as the status table |
| Client.Labels | client-test-1.py:102-105 | the label table has the same tickets as the status table |
| Client.FillsUpdate | client-test-1.py:93-99 | changing one ticket's status changes that ticket's fill and no other |
| Client.LabelsUpdate | client-test-1.py:101-105 | changing one ticket's status changes that ticket's label and no other |
| Client.LabelsBook | client-test-1.py:116-118 | booking a ticket under a name changes that ticket's label to show the name, and no other label |
| Client.DrawTicketKeepsCanvas | client-test-1.py:45-60 | one pass of the inner loop's body (rectangle recorded, ticket free, drawn green, labelled by its id) keeps the canvas showing every ticket's status |
| Client.DrawnStatus | client-test-1.py:43-54 | after the loop reaches (row, col), the status table is the initial one with every visited ticket set free |
| Client.DrawnRects | client-test-1.py:43-53 | after the loop reaches (row, col), every visited ticket has its own cell's rectangle, on top of the initial table |
| Client.DrawnFill | client-test-1.py:43-52 | after the loop reaches (row, col), every visited ticket is drawn green, on top of the initial fills |
| Client.DrawnLabels | client-test-1.py:43-60 | after the loop reaches (row, col), every visited ticket is labelled by its id, on top of the initial labels |
| Client.StatusStep | client-test-1.py:54 | marking one more visited ticket free extends the free entries by that ticket |
| Client.RectsStep | client-test-1.py:53 | recording one more visited cell extends the rectangles by that cell |
| Client.FillStep | client-test-1.py:52 | drawing one more visited ticket green extends the green fills by that ticket |
| Client.LabelsStep | client-test-1.py:60 | labelling one more visited ticket extends the id labels by that ticket |
| Client.FillsOverFree | client-test-1.py:52-54 | the fills of a table with free tickets added are green for those tickets and unchanged for the rest |
| Client.LabelsOverFree | client-test-1.py:54-60 | the labels of a table with free tickets added show the id for those tickets and are unchanged for the rest |
| Client.GridKeys | client-test-1.py:53-54 | after the grid is drawn, the rectangle and status tables still cover the same tickets |
| Client.GridDrawn | client-test-1.py:43-60 | when the double loop ends, every grid ticket is free at its own cell, every other ticket is unchanged, and the canvas still shows each ticket's status |
| Client.TicketClient.constructor | client-test-1.py:13-23 | empty tables, no websocket, nothing sent |
| Client.TicketClient.DrawRow | client-test-1.py:44-60 | the inner loop draws the five cells of one row, left to right, one loop step each |
| Client.TicketClient.CreateTickets | client-test-1.py:34-60 | every grid ticket is added free with its own rectangle, other entries stay, and the canvas keeps showing the status |
| Client.TicketClient.UpdateTicketColor | client-test-1.py:93-105 | only the ticket's fill and label change, to the colour and text for its new status |
| Client.TicketClient.SetStatus | client-test-1.py:90-91 | one ticket's status is set and the canvas follows it |
| Client.TicketClient.SyncTickets | client-test-1.py:85-91 | every payload ticket takes the payload's value, every other ticket keeps its own, the key set and the own bookings are unchanged, and the canvas shows the new status |
| Client.TicketClient.OnServerMessage | client-test-1.py:79-81 | a status reply changes nothing; a table covering the client's tickets becomes the client's status exactly |
| Client.TicketClient.BookTicket | client-test-1.py:107-128 | a ticket already booked locally changes nothing and sends nothing; a free one becomes booked under the client's own name, turns red with the name in its label, other tickets are untouched, and exactly one request is sent iff the websocket exists and is open |
| Client.TicketClient.BookRefused | client-test-1.py:107-118 | a click on a free ticket followed by the server's refusal leaves the ticket booked locally under the client's own name, because the error reply syncs an empty table (line 81) |
| Client.TicketClient.LoseRace | client-test-1.py:81-117 | after losing the race for a ticket, the next table the server sends becomes the local status, and the ticket's label shows the client's own name although another client holds it |
| Client.TicketClient.SetSocket | client-test-1.py:75-76 | the websocket becomes the given one |
| Client.NewClient | client-test-1.py:9-33 | a new client has no websocket and no bookings, and shows the whole grid free, which is the table the server starts from |

## Left out

- Transport and event loop: the websockets library, asyncio tasks and
  `asyncio.gather`, `main`, `serve` and the port. A send always succeeds and
  is an append to a log (`sent` on the server, `outbox` on the client).
  A send that fails during a broadcast, and so raises in the broadcasting
  session, is not modelled.
- Concurrency: the per-ticket locks are read as "each handled message is one
  atomic step". The interleaving of sessions is the order of events in
  `RunTrace`. The client's listener thread is not modelled, and neither is
  its race with the user interface thread: `__init__` starts the thread
  before `create_tickets`, and a snapshot could arrive before the grid exists.
- JSON encoding and decoding: messages are datatypes. A text that is not
  JSON, JSON that is not an object, and an unhashable `ticket_id` are
  abstracted to the request shapes `NotJson`, `NonObject` and `Container`.
- The tkinter canvas, buttons, event bindings, window title and the Stop
  button (`stop`): the canvas becomes two tables, a fill colour and a label
  per ticket. Item handles become the rectangles' coordinates.
- `print` logging in both programs.
- Client.TicketClient.SyncTickets: requires every payload ticket to be one the
  client has drawn. The source raises `KeyError` at client-test-1.py:99
  otherwise, which ends the listener. Every table the server sends satisfies
  this.
- Client.TicketClient.BookTicket: requires a ticket the client has drawn.
  Clicks only reach drawn tickets, and the source would raise `KeyError`
  at client-test-1.py:111 for any other.
- Client.TicketClient.constructor: `__init__` is split into the constructor
  and the call of `CreateTickets`. `Client.NewClient` composes the two, as
  `__init__` does.
- Server.BookingServer.HandleMessage: does not model the interleavings at the
  handler's sends. In the source, other sessions run while the success reply
  (server-test.py:47) or the error reply (line 56) is sent and during the
  broadcast (line 52). They can connect (lines 29, 32), disconnect (line 64)
  or book other tickets. The broadcast after a booking can therefore carry
  bookings made in the meantime and reach a different set of clients. The
  model sends the table as it is right after this booking, to the clients
  registered at that instant. `Server.BookingServer.Book` has the same
  limitation.
- Server.BookingServer.Connect: requires a connection that is not already
  registered. Each websocket is a new object, so the transport never opens
  one twice.
