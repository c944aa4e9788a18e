/** The tickets slice: a list of tickets in the order the store returned
    them (newest first), a loading flag for fetches, one flag shared by add
    and update, and the last error. */
module TicketsSlice {
  import opened Thunk

  /** `TicketData`; every field is the string the table store returned. */
  datatype Ticket = Ticket(id: string, customer: string, issue: string, status: string, project: string, date: string)

  const FetchFallback := "Failed to fetch tickets"
  const AddFallback := "Failed to add ticket"
  const UpdateFallback := "Failed to update ticket"
  const DeleteFallback := "Failed to delete ticket"

  /** The store assigns ids; the slice itself never checks this. */
  ghost predicate UniqueIds(tickets: seq<Ticket>) {
    forall i, j :: 0 <= i < j < |tickets| ==> tickets[i].id != tickets[j].id
  }

  predicate HasId(tickets: seq<Ticket>, id: string) {
    exists k :: 0 <= k < |tickets| && tickets[k].id == id
  }

  /** `tickets.findIndex(t => t.id === id)`: the first position holding the
      id, or -1 when there is none. */
  function FindIndex(tickets: seq<Ticket>, id: string): (i: int)
    ensures -1 <= i < |tickets|
    ensures i == -1 <==> !HasId(tickets, id)
    ensures i >= 0 ==> tickets[i].id == id
    ensures forall k :: 0 <= k < i ==> tickets[k].id != id
  {
    if tickets == [] then -1
    else if tickets[0].id == id then 0
    else
      var j := FindIndex(tickets[1..], id);
      if j == -1 then -1 else j + 1
  }

  /** The list after a fulfilled update: the first ticket with the payload's id
      is overwritten in place; without one the list is left as it is. */
  function ReplaceById(tickets: seq<Ticket>, t: Ticket): (r: seq<Ticket>)
    ensures |r| == |tickets|
    ensures !HasId(tickets, t.id) ==> r == tickets
    ensures HasId(tickets, t.id) ==> r[FindIndex(tickets, t.id)] == t
    ensures forall k :: 0 <= k < |r| && k != FindIndex(tickets, t.id) ==> r[k] == tickets[k]
    ensures forall k :: 0 <= k < |r| ==> r[k].id == tickets[k].id
  {
    var i := FindIndex(tickets, t.id);
    if i == -1 then tickets else tickets[i := t]
  }

  /** `tickets.filter(t => t.id !== id)`. */
  function WithoutId(tickets: seq<Ticket>, id: string): (r: seq<Ticket>)
    ensures |r| <= |tickets|
    ensures !HasId(r, id)
    ensures forall t :: t in r <==> t in tickets && t.id != id
  {
    if tickets == [] then []
    else (if tickets[0].id == id then [] else [tickets[0]]) + WithoutId(tickets[1..], id)
  }

  class TicketsStore {
    var tickets: seq<Ticket>
    var isLoading: bool
    var isAddingTicket: bool
    var error: Option<string>

    /** No reducer ever stores an empty error string. */
    ghost predicate Valid()
      reads this
    {
      error != Some("")
    }

    /** `initialState`. */
    constructor ()
      ensures Valid()
      ensures tickets == [] && !isLoading && !isAddingTicket && error == None
    {
      tickets := [];
      isLoading := false;
      isAddingTicket := false;
      error := None;
    }

    method FetchPending()
      modifies this
      ensures Valid()
      ensures isLoading && error == None
      ensures tickets == old(tickets) && isAddingTicket == old(isAddingTicket)
    {
      isLoading := true;
      error := None;
    }

    method FetchFulfilled(payload: seq<Ticket>)
      modifies this
      ensures old(Valid()) ==> Valid()
      ensures tickets == payload && !isLoading
      ensures isAddingTicket == old(isAddingTicket) && error == old(error)
    {
      isLoading := false;
      tickets := payload;
    }

    method FetchRejected(message: Option<string>)
      modifies this
      ensures Valid()
      ensures !isLoading && error == Some(ErrorText(message, FetchFallback))
      ensures tickets == old(tickets) && isAddingTicket == old(isAddingTicket)
    {
      isLoading := false;
      error := Some(ErrorText(message, FetchFallback));
    }

    method AddPending()
      modifies this
      ensures Valid()
      ensures isAddingTicket && error == None
      ensures tickets == old(tickets) && isLoading == old(isLoading)
    {
      isAddingTicket := true;
      error := None;
    }

    /** `state.tickets.unshift(action.payload)`. */
    method AddFulfilled(payload: Ticket)
      modifies this
      ensures old(Valid()) ==> Valid()
      ensures tickets == [payload] + old(tickets) && !isAddingTicket
      ensures isLoading == old(isLoading) && error == old(error)
    {
      isAddingTicket := false;
      tickets := [payload] + tickets;
    }

    method AddRejected(message: Option<string>)
      modifies this
      ensures Valid()
      ensures !isAddingTicket && error == Some(ErrorText(message, AddFallback))
      ensures tickets == old(tickets) && isLoading == old(isLoading)
    {
      isAddingTicket := false;
      error := Some(ErrorText(message, AddFallback));
    }

    /** Update pending raises the same flag as add pending. */
    method UpdatePending()
      modifies this
      ensures Valid()
      ensures isAddingTicket && error == None
      ensures tickets == old(tickets) && isLoading == old(isLoading)
    {
      isAddingTicket := true;
      error := None;
    }

    /** `findIndex` on the payload's id, then an indexed write when found. */
    method UpdateFulfilled(payload: Ticket)
      modifies this
      ensures old(Valid()) ==> Valid()
      ensures tickets == ReplaceById(old(tickets), payload) && !isAddingTicket
      ensures isLoading == old(isLoading) && error == old(error)
    {
      isAddingTicket := false;
      var index := FindIndex(tickets, payload.id);
      if index != -1 {
        tickets := tickets[index := payload];
      }
    }

    method UpdateRejected(message: Option<string>)
      modifies this
      ensures Valid()
      ensures !isAddingTicket && error == Some(ErrorText(message, UpdateFallback))
      ensures tickets == old(tickets) && isLoading == old(isLoading)
    {
      isAddingTicket := false;
      error := Some(ErrorText(message, UpdateFallback));
    }

    /** Delete has no flag of its own; pending only clears the error. */
    method DeletePending()
      modifies this
      ensures Valid()
      ensures error == None
      ensures tickets == old(tickets) && isLoading == old(isLoading) && isAddingTicket == old(isAddingTicket)
    {
      error := None;
    }

    /** The list is reassigned to a filtered copy; the payload is the id the
        thunk was given. */
    method DeleteFulfilled(ticketId: string)
      modifies this
      ensures old(Valid()) ==> Valid()
      ensures tickets == WithoutId(old(tickets), ticketId)
      ensures isLoading == old(isLoading) && isAddingTicket == old(isAddingTicket) && error == old(error)
    {
      tickets := WithoutId(tickets, ticketId);
    }

    method DeleteRejected(message: Option<string>)
      modifies this
      ensures Valid()
      ensures error == Some(ErrorText(message, DeleteFallback))
      ensures tickets == old(tickets) && isLoading == old(isLoading) && isAddingTicket == old(isAddingTicket)
    {
      error := Some(ErrorText(message, DeleteFallback));
    }

    /** `fetchTickets()` dispatched: pending, then the settled case. */
    method FetchTickets(outcome: Settled<seq<Ticket>>)
      modifies this
      ensures Valid() && !isLoading && isAddingTicket == old(isAddingTicket)
      ensures outcome.Fulfilled? ==> tickets == outcome.payload && error == None
      ensures outcome.Rejected? ==> tickets == old(tickets) && error == Some(ErrorText(outcome.message, FetchFallback))
    {
      FetchPending();
      match outcome {
        case Fulfilled(p) => FetchFulfilled(p);
        case Rejected(m) => FetchRejected(m);
      }
    }

    /** `addTicketAsync(data)` dispatched; `outcome` is what the insert returned. */
    method AddTicket(outcome: Settled<Ticket>)
      modifies this
      ensures Valid() && !isAddingTicket && isLoading == old(isLoading)
      ensures outcome.Fulfilled? ==> tickets == [outcome.payload] + old(tickets) && error == None
      ensures outcome.Rejected? ==> tickets == old(tickets) && error == Some(ErrorText(outcome.message, AddFallback))
    {
      AddPending();
      match outcome {
        case Fulfilled(p) => AddFulfilled(p);
        case Rejected(m) => AddRejected(m);
      }
    }

    /** `updateTicketAsync(ticket)` dispatched; `outcome` is what the update returned. */
    method UpdateTicket(outcome: Settled<Ticket>)
      modifies this
      ensures Valid() && !isAddingTicket && isLoading == old(isLoading)
      ensures outcome.Fulfilled? ==> tickets == ReplaceById(old(tickets), outcome.payload) && error == None
      ensures outcome.Rejected? ==> tickets == old(tickets) && error == Some(ErrorText(outcome.message, UpdateFallback))
    {
      UpdatePending();
      match outcome {
        case Fulfilled(p) => UpdateFulfilled(p);
        case Rejected(m) => UpdateRejected(m);
      }
    }

    /** `deleteTicketAsync(ticketId)` dispatched; the removal happens only once
        the store has confirmed it. */
    method DeleteTicket(ticketId: string, outcome: Settled<()>)
      modifies this
      ensures Valid() && isLoading == old(isLoading) && isAddingTicket == old(isAddingTicket)
      ensures outcome.Fulfilled? ==> tickets == WithoutId(old(tickets), ticketId) && error == None
      ensures outcome.Rejected? ==> tickets == old(tickets) && error == Some(ErrorText(outcome.message, DeleteFallback))
    {
      DeletePending();
      match outcome {
        case Fulfilled(_) => DeleteFulfilled(ticketId);
        case Rejected(m) => DeleteRejected(m);
      }
    }
  }

  // ---- Properties of the list operations ----

  /** A fulfilled add puts the new ticket first and shifts every old one by one. */
  lemma PrependShifts(tickets: seq<Ticket>, t: Ticket)
    ensures |[t] + tickets| == |tickets| + 1 && ([t] + tickets)[0] == t
    ensures forall k :: 0 <= k < |tickets| ==> ([t] + tickets)[k + 1] == tickets[k]
  {
  }

  /** Prepending keeps the ids unique exactly when the new id is not in the list. */
  lemma PrependUniqueIds(tickets: seq<Ticket>, t: Ticket)
    ensures UniqueIds([t] + tickets) <==> UniqueIds(tickets) && !HasId(tickets, t.id)
  {
    var r := [t] + tickets;
    if UniqueIds(r) {
      forall i, j | 0 <= i < j < |tickets| ensures tickets[i].id != tickets[j].id {
        assert r[i + 1] == tickets[i] && r[j + 1] == tickets[j];
      }
      forall k | 0 <= k < |tickets| ensures tickets[k].id != t.id {
        assert r[0] == t && r[k + 1] == tickets[k];
        assert r[0].id != r[k + 1].id;
      }
    }
  }

  /** Replacing keeps every id where it was, so it keeps the ids unique, and
      the updated ticket is found where it was put. */
  lemma ReplaceKeepsIds(tickets: seq<Ticket>, t: Ticket)
    requires UniqueIds(tickets)
    ensures UniqueIds(ReplaceById(tickets, t))
    ensures FindIndex(ReplaceById(tickets, t), t.id) == FindIndex(tickets, t.id)
  {
    var r := ReplaceById(tickets, t);
    assert forall k :: 0 <= k < |r| ==> r[k].id == tickets[k].id;
    var i := FindIndex(tickets, t.id);
    var j := FindIndex(r, t.id);
    if i == -1 {
      assert r == tickets;
    } else {
      assert r[i].id == t.id;
      assert j <= i;
      assert tickets[j].id == t.id;
    }
  }

  /** Applying the same fulfilled update twice changes nothing more. */
  lemma ReplaceIdempotent(tickets: seq<Ticket>, t: Ticket)
    ensures ReplaceById(ReplaceById(tickets, t), t) == ReplaceById(tickets, t)
  {
    var r := ReplaceById(tickets, t);
    var i := FindIndex(tickets, t.id);
    if i != -1 {
      var j := FindIndex(r, t.id);
      assert r[i].id == t.id;
      assert j <= i;
      assert forall k :: 0 <= k < |r| ==> r[k].id == tickets[k].id;
      assert j == i;
      assert ReplaceById(r, t) == r[i := t];
    }
  }

  /** Deleting distributes over concatenation: the surviving tickets keep
      their relative order. */
  lemma {:induction false} WithoutIdAppend(a: seq<Ticket>, b: seq<Ticket>, id: string)
    ensures WithoutId(a + b, id) == WithoutId(a, id) + WithoutId(b, id)
  {
    if a == [] {
      assert a + b == b;
    } else {
      assert (a + b)[0] == a[0];
      assert (a + b)[1..] == a[1..] + b;
      WithoutIdAppend(a[1..], b, id);
    }
  }

  /** Deleting an id no ticket carries leaves the list as it is. */
  lemma {:induction false} WithoutAbsentId(tickets: seq<Ticket>, id: string)
    requires !HasId(tickets, id)
    ensures WithoutId(tickets, id) == tickets
  {
    if tickets != [] {
      assert !HasId(tickets[1..], id) by {
        forall k | 0 <= k < |tickets[1..]| ensures tickets[1..][k].id != id {
          assert tickets[1..][k] == tickets[k + 1];
        }
      }
      WithoutAbsentId(tickets[1..], id);
      assert tickets == [tickets[0]] + tickets[1..];
    }
  }

  /** With unique ids, deleting an id that is present removes exactly the
      one ticket holding it and closes the gap. */
  lemma WithoutPresentId(tickets: seq<Ticket>, id: string)
    requires UniqueIds(tickets) && HasId(tickets, id)
    ensures var i := FindIndex(tickets, id);
      WithoutId(tickets, id) == tickets[..i] + tickets[i + 1..]
    ensures |WithoutId(tickets, id)| == |tickets| - 1
  {
    var i := FindIndex(tickets, id);
    var before, after := tickets[..i], tickets[i + 1..];
    assert tickets == before + [tickets[i]] + after;
    assert !HasId(before, id) by {
      forall k | 0 <= k < |before| ensures before[k].id != id {
        assert before[k] == tickets[k];
      }
    }
    UniqueAfter(tickets, i);
    WithoutOne(before, tickets[i], after, id);
  }

  lemma WithoutOne(before: seq<Ticket>, t: Ticket, after: seq<Ticket>, id: string)
    requires t.id == id && !HasId(before, id) && !HasId(after, id)
    ensures WithoutId(before + [t] + after, id) == before + after
  {
    var front := before + [t];
    WithoutIdAppend(front, after, id);
    WithoutIdAppend(before, [t], id);
    WithoutAbsentId(before, id);
    WithoutAbsentId(after, id);
    var single := WithoutId([t], id);
    assert single == [] + WithoutId([t][1..], id);
    assert [t][1..] == [];
    assert WithoutId(front, id) == before;
  }

  /** With unique ids, the id at position i does not occur after it. */
  lemma UniqueAfter(tickets: seq<Ticket>, i: nat)
    requires UniqueIds(tickets) && i < |tickets|
    ensures !HasId(tickets[i + 1..], tickets[i].id)
  {
    var after := tickets[i + 1..];
    forall k | 0 <= k < |after| ensures after[k].id != tickets[i].id {
      assert after[k] == tickets[i + 1 + k];
    }
  }

  /** Deleting keeps the ids unique. */
  lemma {:induction false} WithoutIdKeepsUnique(tickets: seq<Ticket>, id: string)
    requires UniqueIds(tickets)
    ensures UniqueIds(WithoutId(tickets, id))
  {
    if tickets != [] {
      var rest := tickets[1..];
      assert UniqueIds(rest) by {
        forall i, j | 0 <= i < j < |rest| ensures rest[i].id != rest[j].id {
          assert rest[i] == tickets[i + 1] && rest[j] == tickets[j + 1];
        }
      }
      WithoutIdKeepsUnique(rest, id);
      if tickets[0].id != id {
        PrependUniqueIds(WithoutId(rest, id), tickets[0]);
      }
    }
  }
}
