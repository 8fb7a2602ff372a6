/**
 * The messages exchanged between the booking server and its clients, as
 * values rather than JSON text. A connection (a websocket) is identified by a
 * number.
 */
module Protocol {

  type ClientId = nat

  datatype Status = Success | Error

  /** Server to client: the whole table, or the outcome of one booking request. */
  datatype Outgoing =
    | Snapshot(tickets: map<string, bool>)
    | StatusReply(status: Status, message: string)

  /** One message put on the wire towards one connection. */
  datatype Send = Send(to: ClientId, msg: Outgoing)

  /**
   * What `data.get(key)` yields for one key of a decoded request: nothing
   * (absent or JSON null), a string, another hashable scalar (number or
   * boolean), or a list or object, which cannot be looked up in a dict.
   */
  datatype Field = Missing | Str(s: string) | Scalar | Container

  /**
   * Client to server, after decoding: text that is not JSON, JSON that is not
   * an object (it has no `get`), or an object with its three fields.
   */
  datatype Incoming =
    | NotJson
    | NonObject
    | Object(action: Field, ticketId: Field, clientName: Field)

  /** The request a client sends to book `id` under its own name. */
  function BookRequest(id: string, name: string): Incoming {
    Object(Str("book"), Str(id), Str(name))
  }

  /** Text of the success reply; the ticket id can be read back from it. */
  function BookedMessage(id: string): (text: string)
    ensures |text| == |id| + 28
    ensures text[7..|text| - 21] == id
  {
    "Ticket " + id + " booked successfully."
  }

  /** Text of the already-booked reply; the ticket id can be read back from it. */
  function AlreadyBookedMessage(id: string): (text: string)
    ensures |text| == |id| + 26
    ensures text[7..|text| - 19] == id
  {
    "Ticket " + id + " is already booked."
  }

  /** Success replies for different tickets are different messages. */
  lemma BookedMessageInjective(a: string, b: string)
    requires BookedMessage(a) == BookedMessage(b)
    ensures a == b
  {
    var text := BookedMessage(a);
    assert a == text[7..|text| - 21];
  }

  /** The `tickets` field of a server message, or an empty map when it has none. */
  function TicketsField(m: Outgoing): map<string, bool> {
    match m
    case Snapshot(table) => table
    case StatusReply(_, _) => map[]
  }
}
