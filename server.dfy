/**
 * The booking coordinator: a table of 25 ticket flags, the set of connected
 * clients, and the log of every message sent. Each incoming message is
 * handled as one atomic step, which is what the per-ticket lock guarantees for
 * the test-and-set of a flag.
 */
module Server {
  import opened Grid
  import opened Protocol

  /** What the handler does with one incoming message. */
  datatype Decision =
    | Ignore          // not a booking request for a known ticket: no reply, no change
    | Fatal           // decoding or lookup raises: the session ends
    | Accept(id: string)
    | Reject(id: string)

  /** Whether a decoded request asks to book a ticket the table knows. */
  predicate IsKnownBooking(tickets: map<string, bool>, m: Incoming) {
    m.Object? && m.action == Str("book") && m.ticketId.Str? && m.ticketId.s in tickets
  }

  /** Whether handling `m` raises: not JSON, not an object, or an unhashable ticket id in a booking request. */
  predicate RaisesOn(m: Incoming) {
    m.NotJson? || m.NonObject? || (m.Object? && m.action == Str("book") && m.ticketId.Container?)
  }

  /** The branch `handle_client` takes for one message, given the current table. */
  function Classify(tickets: map<string, bool>, m: Incoming): (d: Decision)
    ensures d.Fatal? <==> RaisesOn(m)
    ensures (d.Accept? || d.Reject?) <==> IsKnownBooking(tickets, m)
    ensures d.Accept? ==> d.id == m.ticketId.s && !tickets[d.id]
    ensures d.Reject? ==> d.id == m.ticketId.s && tickets[d.id]
    ensures d.Ignore? <==> !RaisesOn(m) && !IsKnownBooking(tickets, m)
  {
    match m
    case NotJson => Fatal
    case NonObject => Fatal
    case Object(action, ticketId, _) =>
      if action != Str("book") then Ignore
      else
        match ticketId
        case Container => Fatal
        case Str(id) =>
          if id !in tickets then Ignore
          else if tickets[id] then Reject(id)
          else Accept(id)
        case Missing => Ignore
        case Scalar => Ignore
  }

  /** The requester's name is never read: it cannot change the decision. */
  lemma ClientNameIgnored(tickets: map<string, bool>, action: Field, ticketId: Field, n1: Field, n2: Field)
    ensures Classify(tickets, Object(action, ticketId, n1)) == Classify(tickets, Object(action, ticketId, n2))
  {
  }

  /** A client's booking request for a grid ticket is accepted iff the ticket is free. */
  lemma BookRequestOutcome(tickets: map<string, bool>, id: string, name: string)
    requires tickets.Keys == GridIds() && IsGridId(id)
    ensures id in tickets
    ensures Classify(tickets, BookRequest(id, name)) == if tickets[id] then Reject(id) else Accept(id)
  {
    GridIdsAreWellFormed();
  }

  /** A request for a ticket outside the grid is silently ignored. */
  lemma UnknownTicketIgnored(tickets: map<string, bool>, name: string)
    requires tickets.Keys == GridIds()
    ensures Classify(tickets, BookRequest("ticket_9_9", name)) == Ignore
  {
    OutsideGrid();
  }

  /** Number of success replies in `log` that announce the booking of `id`. */
  function SuccessCount(log: seq<Send>, id: string): nat {
    if log == [] then 0
    else
      var last := if log[|log| - 1].msg == StatusReply(Success, BookedMessage(id)) then 1 else 0;
      SuccessCount(log[..|log| - 1], id) + last
  }

  lemma {:induction false} SuccessCountAppend(a: seq<Send>, b: seq<Send>, id: string)
    ensures SuccessCount(a + b, id) == SuccessCount(a, id) + SuccessCount(b, id)
  {
    if b != [] {
      assert (a + b)[..|a + b| - 1] == a + b[..|b| - 1];
      SuccessCountAppend(a, b[..|b| - 1], id);
    } else {
      assert a + b == a;
    }
  }

  /** A log holding only snapshots announces no booking. */
  lemma {:induction false} SnapshotsCountNothing(log: seq<Send>, id: string)
    requires forall i :: 0 <= i < |log| ==> log[i].msg.Snapshot?
    ensures SuccessCount(log, id) == 0
  {
    if log != [] {
      SnapshotsCountNothing(log[..|log| - 1], id);
    }
  }

  /** The set of connections a batch of sends goes to. */
  function Recipients(batch: seq<Send>): set<ClientId> {
    set s | s in batch :: s.to
  }

  lemma RecipientsAppend(batch: seq<Send>, s: Send)
    ensures Recipients(batch + [s]) == Recipients(batch) + {s.to}
  {
    assert forall x :: x in batch + [s] <==> x in batch || x == s;
  }

  /** `batch` carries `msg` exactly once to each of `clients`, and to nobody else. */
  predicate IsBroadcast(batch: seq<Send>, clients: set<ClientId>, msg: Outgoing) {
    && |batch| == |clients|
    && Recipients(batch) == clients
    && (forall i :: 0 <= i < |batch| ==> batch[i].msg == msg)
    && (forall i, j :: 0 <= i < j < |batch| ==> batch[i].to != batch[j].to)
  }

  /** A broadcast to `done` extended by one send to a client not yet served is a broadcast to one more client. */
  lemma BroadcastStep(batch: seq<Send>, done: set<ClientId>, c: ClientId, msg: Outgoing)
    requires IsBroadcast(batch, done, msg) && c !in done
    ensures IsBroadcast(batch + [Send(c, msg)], done + {c}, msg)
  {
    forall i | 0 <= i < |batch|
      ensures batch[i].to != c
    {
      assert batch[i] in batch;
    }
    RecipientsAppend(batch, Send(c, msg));
  }

  /** One send of `msg` per client, in the arbitrary order of set iteration. */
  method Fanout(clients: set<ClientId>, msg: Outgoing) returns (batch: seq<Send>)
    ensures IsBroadcast(batch, clients, msg)
  {
    batch := [];
    var rest := clients;
    while rest != {}
      invariant rest <= clients && IsBroadcast(batch, clients - rest, msg)
      decreases rest
    {
      var c :| c in rest;
      BroadcastStep(batch, clients - rest, c, msg);
      assert (clients - rest) + {c} == clients - (rest - {c});
      batch := batch + [Send(c, msg)];
      rest := rest - {c};
    }
    assert clients - rest == clients;
  }

  /** One event of the server's life, as the event loop serialises them. */
  datatype Event =
    | Open(client: ClientId)
    | Deliver(client: ClientId, msg: Incoming)
    | Close(client: ClientId)

  class BookingServer {
    var tickets: map<string, bool>
    var connected: set<ClientId>
    var sent: seq<Send>

    /**
     * The log holds one success reply for each booked ticket and none for a
     * free or unknown one. (That the ticket ids never change is stated by
     * each method.)
     */
    ghost predicate Valid()
      reads this
    {
      forall id :: SuccessCount(sent, id) == (if id in tickets && tickets[id] then 1 else 0)
    }

    constructor ()
      ensures Valid()
      ensures tickets == InitialTable() && connected == {} && sent == []
    {
      tickets := InitialTable();
      connected := {};
      sent := [];
    }

    /** Send the whole table to every connected client; nothing when there is none. */
    method NotifyClients()
      modifies this`sent
      ensures |sent| >= |old(sent)| && sent[..|old(sent)|] == old(sent)
      ensures IsBroadcast(sent[|old(sent)|..], connected, Snapshot(tickets))
      ensures forall id :: SuccessCount(sent, id) == SuccessCount(old(sent), id)
    {
      if connected != {} {
        var batch := Fanout(connected, Snapshot(tickets));
        forall id
          ensures SuccessCount(sent + batch, id) == SuccessCount(sent, id)
        {
          SuccessCountAppend(sent, batch, id);
          SnapshotsCountNothing(batch, id);
        }
        assert (sent + batch)[|sent|..] == batch;
        sent := sent + batch;
      } else {
        assert sent[|sent|..] == [];
      }
    }

    /** A new connection is registered, then sent the current table before anything else. */
    method Connect(c: ClientId)
      requires Valid() && c !in connected
      modifies this
      ensures Valid()
      ensures connected == old(connected) + {c}
      ensures tickets == old(tickets)
      ensures sent == old(sent) + [Send(c, Snapshot(tickets))]
    {
      connected := connected + {c};
      var snapshot := Send(c, Snapshot(tickets));
      forall id
        ensures SuccessCount(sent + [snapshot], id) == SuccessCount(sent, id)
      {
        SuccessCountAppend(sent, [snapshot], id);
      }
      sent := sent + [snapshot];
    }

    /**
     * Handle one message of connection `c`. Returns false when the message
     * ends the session, in which case `c` has been unregistered.
     */
    method HandleMessage(c: ClientId, m: Incoming) returns (alive: bool)
      requires Valid() && c in connected
      modifies this
      ensures Valid()
      ensures alive <==> !RaisesOn(m)
      ensures tickets.Keys == old(tickets).Keys
      ensures forall id :: id in old(tickets) && old(tickets)[id] ==> tickets[id]
      ensures |sent| >= |old(sent)| && sent[..|old(sent)|] == old(sent)
      ensures forall i :: |old(sent)| <= i < |sent| ==> sent[i].to in old(connected)
      ensures match Classify(old(tickets), m)
        case Ignore =>
          tickets == old(tickets) && connected == old(connected) && sent == old(sent)
        case Fatal =>
          tickets == old(tickets) && connected == old(connected) - {c} && sent == old(sent)
        case Reject(id) =>
          && tickets == old(tickets) && connected == old(connected)
          && sent == old(sent) + [Send(c, StatusReply(Error, AlreadyBookedMessage(id)))]
        case Accept(id) =>
          && tickets == old(tickets)[id := true] && connected == old(connected)
          && |sent| > |old(sent)|
          && sent[..|old(sent)| + 1] == old(sent) + [Send(c, StatusReply(Success, BookedMessage(id)))]
          && IsBroadcast(sent[|old(sent)| + 1..], connected, Snapshot(tickets))
    {
      match Classify(tickets, m)
      case Ignore =>
        alive := true;
      case Fatal =>
        connected := connected - {c};
        alive := false;
      case Reject(id) =>
        Refuse(c, id);
        alive := true;
      case Accept(id) =>
        Book(c, id);
        alive := true;
    }

    /** The already-booked branch: reply with an error to the requester only. */
    method Refuse(c: ClientId, id: string)
      requires Valid()
      modifies this`sent
      ensures Valid()
      ensures sent == old(sent) + [Send(c, StatusReply(Error, AlreadyBookedMessage(id)))]
    {
      var reply := Send(c, StatusReply(Error, AlreadyBookedMessage(id)));
      forall t
        ensures SuccessCount(sent + [reply], t) == SuccessCount(sent, t)
      {
        SuccessCountAppend(sent, [reply], t);
      }
      sent := sent + [reply];
    }

    /** The free-ticket branch: set the flag, reply success to the requester, then broadcast. */
    method Book(c: ClientId, id: string)
      requires Valid() && id in tickets && !tickets[id]
      modifies this`tickets, this`sent
      ensures Valid()
      ensures tickets == old(tickets)[id := true]
      ensures |sent| > |old(sent)|
      ensures sent[..|old(sent)| + 1] == old(sent) + [Send(c, StatusReply(Success, BookedMessage(id)))]
      ensures IsBroadcast(sent[|old(sent)| + 1..], connected, Snapshot(tickets))
    {
      var reply := Send(c, StatusReply(Success, BookedMessage(id)));
      forall t
        ensures SuccessCount(sent + [reply], t) == SuccessCount(sent, t) + (if t == id then 1 else 0)
      {
        SuccessCountAppend(sent, [reply], t);
        if BookedMessage(id) == BookedMessage(t) {
          BookedMessageInjective(id, t);
        }
      }
      tickets := tickets[id := true];
      sent := sent + [reply];
      ghost var replied := sent;
      assert |replied| == |old(sent)| + 1;
      NotifyClients();
      assert sent[..|replied|] == replied;
      assert IsBroadcast(sent[|replied|..], connected, Snapshot(tickets));
    }

    /** A session that ends (clean close or transport error) unregisters its connection. */
    method Disconnect(c: ClientId)
      requires Valid() && c in connected
      modifies this
      ensures Valid()
      ensures connected == old(connected) - {c}
      ensures tickets == old(tickets) && sent == old(sent)
    {
      connected := connected - {c};
    }

    /**
     * Run a sequence of events. Events the transport cannot produce (a
     * message or close for a connection that is not open, a second open of a
     * live connection) are dropped. Whatever the interleaving, every ticket is
     * announced as booked at most once, and exactly when its flag is set.
     */
    method RunTrace(trace: seq<Event>)
      requires Valid()
      modifies this
      ensures Valid()
      ensures tickets.Keys == old(tickets).Keys
      ensures forall id :: id in old(tickets) && old(tickets)[id] ==> tickets[id]
      ensures forall id :: SuccessCount(sent, id) <= 1
      ensures forall id :: SuccessCount(sent, id) == 1 <==> id in tickets && tickets[id]
    {
      var i := 0;
      while i < |trace|
        invariant 0 <= i <= |trace|
        invariant Valid()
        invariant tickets.Keys == old(tickets).Keys
        invariant forall id :: id in old(tickets) && old(tickets)[id] ==> tickets[id]
      {
        match trace[i] {
          case Open(c) =>
            if c !in connected {
              Connect(c);
            }
          case Deliver(c, m) =>
            if c in connected {
              var alive := HandleMessage(c, m);
            }
          case Close(c) =>
            if c in connected {
              Disconnect(c);
            }
        }
        i := i + 1;
      }
    }
  }
}
