/** The ticket table's state logic: the status colour, the avatar initials,
    and the add / edit dialog whose submit dispatches either an add or an
    update to the tickets slice. */
module LatestTickets {
  import opened Thunk
  import opened Screens
  import opened TicketsSlice
  import Js

  // ---- Status indicator ----

  /** `statusConfig`: the colour class of each status the form offers. */
  const StatusConfig: map<string, string> :=
    map["To do" := "bg-cyan-500", "Completed" := "bg-green-500", "Cancelled" := "bg-red-500"]

  const NeutralColor := "bg-neutral-500"

  /** The colour of a status: its entry in the table, any other string the
      neutral colour. */
  function StatusColor(status: string): (color: string)
    ensures status in StatusConfig ==> color == StatusConfig[status]
    ensures status !in StatusConfig ==> color == NeutralColor
    ensures color == NeutralColor <==> status !in StatusConfig
  {
    if status in StatusConfig && StatusConfig[status] != "" then StatusConfig[status] else NeutralColor
  }

  /** The lookup is total and tells the three statuses apart. */
  lemma StatusColors()
    ensures StatusColor("To do") == "bg-cyan-500"
    ensures StatusColor("Completed") == "bg-green-500"
    ensures StatusColor("Cancelled") == "bg-red-500"
    ensures forall s :: s != "To do" && s != "Completed" && s != "Cancelled" ==> StatusColor(s) == NeutralColor
  {
  }

  /** The members every plain JavaScript object inherits from
      `Object.prototype`; each of them is a function, or, for `__proto__`, an
      object, so each is truthy. */
  const ObjectPrototypeMembers: set<string> :=
    {"constructor", "__defineGetter__", "__defineSetter__", "hasOwnProperty",
     "__lookupGetter__", "__lookupSetter__", "isPrototypeOf", "propertyIsEnumerable",
     "toString", "valueOf", "__proto__", "toLocaleString"}

  /** What `statusConfig[status]` can produce on an object literal. */
  datatype LookupValue = Str(s: string) | InheritedMember(name: string) | Undefined

  function ObjectLiteralLookup(table: map<string, string>, key: string): (r: LookupValue)
    ensures r.Str? <==> key in table
    ensures r.Str? ==> r.s == table[key]
    ensures r.InheritedMember? ==> r.name == key && key in ObjectPrototypeMembers
    ensures r.Undefined? <==> key !in table && key !in ObjectPrototypeMembers
  {
    if key in table then Str(table[key])
    else if key in ObjectPrototypeMembers then InheritedMember(key)
    else Undefined
  }

  /** `statusConfig[status] || "bg-neutral-500"` as written: the lookup also
      finds the inherited members, and a function is truthy. */
  function StatusColorAsWritten(status: string): (v: LookupValue)
    ensures status in StatusConfig ==> v == Str(StatusColor(status))
  {
    match ObjectLiteralLookup(StatusConfig, status)
    case Str(s) => if s != "" then Str(s) else Str(NeutralColor)
    case InheritedMember(n) => InheritedMember(n)
    case Undefined => Str(NeutralColor)
  }

  /** The discrepancy: a status named like an inherited member, such as
      "constructor", is not one of the three statuses, yet the code as written
      does not give it the neutral colour. */
  lemma InheritedStatusNotNeutral()
    ensures "constructor" !in StatusConfig
    ensures StatusColorAsWritten("constructor") != Str(NeutralColor)
    ensures StatusColorAsWritten("toString") == InheritedMember("toString")
  {
  }

  /** Apart from those twelve names, the code as written agrees with StatusColor. */
  lemma AsWrittenAgreesElsewhere(status: string)
    requires status !in ObjectPrototypeMembers
    ensures StatusColorAsWritten(status) == Str(StatusColor(status))
  {
  }

  // ---- Avatar initials ----

  /** `n[0]` joined into a string: the first character, and nothing for an
      empty word (undefined joins as the empty string). */
  function FirstChar(word: string): (r: string)
    ensures |r| <= 1 && (r == [] <==> word == [])
    ensures r != [] ==> r[0] == word[0]
  {
    if word == [] then [] else [word[0]]
  }

  function FirstChars(words: seq<string>): (r: seq<string>)
    ensures |r| == |words|
    ensures forall k :: 0 <= k < |r| ==> r[k] == FirstChar(words[k])
  {
    seq(|words|, k requires 0 <= k < |words| => FirstChar(words[k]))
  }

  /** `customer.split(" ").map((n) => n[0]).join("")`: at most one character
      per space-separated word, and never a space. */
  function Initials(customer: string): (r: string)
    ensures |r| <= |Js.Split(customer, ' ')|
    ensures ' ' !in r
  {
    var heads := FirstChars(Js.Split(customer, ' '));
    JoinOfHeads(heads);
    Js.Join(heads, "")
  }

  /** Joining pieces of at most one character, none of them a space, gives at
      most one character per piece and no space. */
  lemma {:induction false} JoinOfHeads(heads: seq<string>)
    requires forall k :: 0 <= k < |heads| ==> |heads[k]| <= 1 && ' ' !in heads[k]
    ensures |Js.Join(heads, "")| <= |heads| && ' ' !in Js.Join(heads, "")
  {
    if |heads| > 1 {
      JoinOfHeads(heads[1..]);
      assert Js.Join(heads, "") == heads[0] + Js.Join(heads[1..], "");
    }
  }

  lemma {:induction false} JoinEmptyAppend(u: seq<string>, v: seq<string>)
    ensures Js.Join(u + v, "") == Js.Join(u, "") + Js.Join(v, "")
  {
    if u == [] {
      assert u + v == v;
    } else if |u| == 1 {
      if v != [] {
        assert (u + v)[1..] == v;
      }
    } else {
      assert (u + v)[1..] == u[1..] + v;
      JoinEmptyAppend(u[1..], v);
    }
  }

  /** The initials of two space-separated parts are the initials of the first
      followed by those of the second; a run of spaces contributes nothing. */
  lemma InitialsAround(a: string, b: string)
    ensures Initials(a + " " + b) == Initials(a) + Initials(b)
  {
    Js.SplitAround(a, b, ' ');
    var pa, pb := Js.Split(a, ' '), Js.Split(b, ' ');
    assert Js.Split(a + " " + b, ' ') == pa + pb;
    assert Initials(a + " " + b) == Js.Join(FirstChars(pa + pb), "");
    FirstCharsAppend(pa, pb);
    JoinEmptyAppend(FirstChars(pa), FirstChars(pb));
  }

  /** `map` distributes over concatenation. */
  lemma FirstCharsAppend(u: seq<string>, v: seq<string>)
    ensures FirstChars(u + v) == FirstChars(u) + FirstChars(v)
  {
    assert forall k :: 0 <= k < |u + v| ==> FirstChars(u + v)[k] == (FirstChars(u) + FirstChars(v))[k];
  }

  /** A single word contributes its first character; the empty name has no
      initials. */
  lemma InitialsOfWord(word: string)
    requires ' ' !in word
    ensures Initials(word) == FirstChar(word)
  {
    Js.SplitWithoutSeparator(word, ' ');
    assert FirstChars([word]) == [FirstChar(word)];
  }

  /** A first and a last name, one or two spaces apart, give the two first
      letters. */
  lemma InitialsOfFullName(first: string, last: string)
    requires first != "" && last != "" && ' ' !in first && ' ' !in last
    ensures Initials(first + " " + last) == [first[0], last[0]]
    ensures Initials(first + "  " + last) == [first[0], last[0]]
  {
    InitialsAround(first, last);
    assert first + "  " + last == first + " " + (" " + last);
    assert " " + last == "" + " " + last;
    InitialsAround(first, " " + last);
    InitialsAround("", last);
    InitialsOfWord(first);
    InitialsOfWord("");
    InitialsOfWord(last);
  }

  // ---- The add / edit dialog ----

  /** `Omit<TicketData, "id">`, what an add sends to the store. */
  datatype NewTicket = NewTicket(customer: string, issue: string, status: string, project: string, date: string)

  /** `Partial<TicketData>` as the dialog holds it: a ticket being edited has
      its id, a new one has none. */
  datatype TicketDraft = TicketDraft(id: Option<string>, customer: string, issue: string, status: string, project: string, date: string)

  /** `defaultNewTicketState`; `today` is the date part of the clock reading
      taken when the module was loaded. */
  function DefaultNewTicket(today: string): (d: TicketDraft)
    ensures d.id == None && d.customer == "" && d.issue == "" && d.project == ""
    ensures d.status == "To do" && d.date == today
  {
    TicketDraft(None, "", "", "To do", "", today)
  }

  function DraftOf(t: Ticket): (d: TicketDraft)
    ensures d.id == Some(t.id)
  {
    TicketDraft(Some(t.id), t.customer, t.issue, t.status, t.project, t.date)
  }

  /** The named inputs of the dialog (`status` is set through the select). */
  datatype TicketField = Customer | Issue | Status | Project | Date

  function FieldOf(d: TicketDraft, f: TicketField): string {
    match f
    case Customer => d.customer
    case Issue => d.issue
    case Status => d.status
    case Project => d.project
    case Date => d.date
  }

  /** `{ ...prev, [name]: value }`: the named field takes the value and every
      other field, the id included, keeps its own. */
  function WithField(d: TicketDraft, f: TicketField, value: string): (r: TicketDraft)
    ensures FieldOf(r, f) == value
    ensures forall g :: g != f ==> FieldOf(r, g) == FieldOf(d, g)
    ensures r.id == d.id
  {
    match f
    case Customer => d.(customer := value)
    case Issue => d.(issue := value)
    case Status => d.(status := value)
    case Project => d.(project := value)
    case Date => d.(date := value)
  }

  /** The action a submit dispatches. */
  datatype TicketRequest = AddTicketRequest(newTicket: NewTicket) | UpdateTicketRequest(ticket: Ticket)

  /** `isEditing ? updateTicketAsync(currentTicket) : addTicketAsync(currentTicket)`. */
  function RequestFor(isEditing: bool, d: TicketDraft): (r: TicketRequest)
    requires isEditing ==> d.id.Some?
    ensures r.UpdateTicketRequest? <==> isEditing
    ensures r.UpdateTicketRequest? ==> DraftOf(r.ticket) == d
    ensures r.AddTicketRequest? ==> r.newTicket == NewTicket(d.customer, d.issue, d.status, d.project, d.date)
  {
    if isEditing then UpdateTicketRequest(Ticket(d.id.value, d.customer, d.issue, d.status, d.project, d.date))
    else AddTicketRequest(NewTicket(d.customer, d.issue, d.status, d.project, d.date))
  }

  /** Editing a ticket and submitting it unchanged asks the store to update
      that very ticket; a fresh add sends the defaults. */
  lemma SubmitRequests(t: Ticket, today: string)
    ensures RequestFor(true, DraftOf(t)) == UpdateTicketRequest(t)
    ensures RequestFor(false, DefaultNewTicket(today)) == AddTicketRequest(NewTicket("", "", "To do", "", today))
  {
  }

  /** The component's `isDialogOpen`, `currentTicket` and `isEditing` state. */
  class TicketForm {
    const today: string
    var isDialogOpen: bool
    var currentTicket: TicketDraft
    var isEditing: bool

    /** Edit mode holds a ticket with its id; add mode holds a ticket without one. */
    ghost predicate Valid()
      reads this
    {
      isEditing <==> currentTicket.id.Some?
    }

    constructor (today: string)
      ensures Valid() && this.today == today
      ensures !isDialogOpen && currentTicket == DefaultNewTicket(today) && !isEditing
    {
      this.today := today;
      isDialogOpen := false;
      currentTicket := DefaultNewTicket(today);
      isEditing := false;
    }

    /** `handleAdd`. */
    method HandleAdd()
      modifies this
      ensures Valid()
      ensures !isEditing && currentTicket == DefaultNewTicket(today) && isDialogOpen
    {
      isEditing := false;
      currentTicket := DefaultNewTicket(today);
      isDialogOpen := true;
    }

    /** `handleEdit(ticket)`. */
    method HandleEdit(ticket: Ticket)
      modifies this
      ensures Valid()
      ensures isEditing && currentTicket == DraftOf(ticket) && isDialogOpen
    {
      isEditing := true;
      currentTicket := DraftOf(ticket);
      isDialogOpen := true;
    }

    /** `handleInputChange` for the input named `field`. */
    method HandleInputChange(field: TicketField, value: string)
      modifies this
      ensures old(Valid()) ==> Valid()
      ensures currentTicket == WithField(old(currentTicket), field, value)
      ensures isEditing == old(isEditing) && isDialogOpen == old(isDialogOpen)
    {
      currentTicket := WithField(currentTicket, field, value);
    }

    /** `handleSelectChange("status", value)`. */
    method HandleSelectChange(value: string)
      modifies this
      ensures old(Valid()) ==> Valid()
      ensures currentTicket == WithField(old(currentTicket), Status, value)
      ensures isEditing == old(isEditing) && isDialogOpen == old(isDialogOpen)
    {
      currentTicket := WithField(currentTicket, Status, value);
    }

    /** The dialog's `onOpenChange` (the trigger, the Cancel button, a click outside). */
    method OnOpenChange(open: bool)
      modifies this
      ensures old(Valid()) ==> Valid()
      ensures isDialogOpen == open && currentTicket == old(currentTicket) && isEditing == old(isEditing)
    {
      isDialogOpen := open;
    }

    /** `handleSubmit`: dispatch an update in edit mode and an add otherwise;
        `unwrap` closes the dialog only when the store call succeeded. A
        failure leaves `isDialogOpen` set with the same contents, but the
        rejection stores an error, so the component shows the error screen
        in place of the dialog (see FailedEditScenario). */
    method HandleSubmit(store: TicketsStore, outcome: Settled<Ticket>) returns (request: TicketRequest)
      requires Valid()
      modifies this, store
      ensures Valid()
      ensures request == RequestFor(old(isEditing), old(currentTicket))
      ensures isDialogOpen == (old(isDialogOpen) && outcome.Rejected?)
      ensures currentTicket == old(currentTicket) && isEditing == old(isEditing)
      ensures store.Valid() && !store.isAddingTicket && store.isLoading == old(store.isLoading)
      ensures store.tickets ==
        if outcome.Rejected? then old(store.tickets)
        else if old(isEditing) then ReplaceById(old(store.tickets), outcome.payload)
        else [outcome.payload] + old(store.tickets)
      ensures store.error ==
        if outcome.Fulfilled? then None
        else Some(ErrorText(outcome.message, if old(isEditing) then UpdateFallback else AddFallback))
    {
      request := RequestFor(isEditing, currentTicket);
      if isEditing {
        store.UpdateTicket(outcome);
      } else {
        store.AddTicket(outcome);
      }
      if outcome.Fulfilled? {
        isDialogOpen := false;
      }
    }
  }

  /** Editing "t1" from "To do" to "Completed" and saving it: the entry keeps
      its place, the list its length, and the dialog closes. */
  method UpdateStatusScenario(other: Ticket) returns (tickets: seq<Ticket>, dialogOpen: bool)
    requires other.id != "t1"
    ensures tickets == [other, Ticket("t1", "Ann Lee", "Login fails", "Completed", "Portal", "2024-05-01")]
    ensures !dialogOpen
  {
    var t1 := Ticket("t1", "Ann Lee", "Login fails", "To do", "Portal", "2024-05-01");
    var store := new TicketsStore();
    store.FetchTickets(Fulfilled([other, t1]));
    var form := new TicketForm("2024-05-02");
    form.HandleEdit(t1);
    form.HandleSelectChange("Completed");
    var request := form.HandleSubmit(store, Fulfilled(t1.(status := "Completed")));
    assert FindIndex([other, t1], "t1") == 1;
    tickets, dialogOpen := store.tickets, form.isDialogOpen;
  }

  /** What the component shows for a state of the tickets slice. Every state
      the slice reaches stores no empty error, so there the error screen
      appears exactly when not loading and an error is set. */
  function View(store: TicketsStore): (v: Screen<Ticket>)
    reads store
    ensures v.Loading? <==> store.isLoading
    ensures store.Valid() ==> (v.Failure? <==> !store.isLoading && store.error.Some?)
    ensures v.Failure? ==> Some(v.message) == store.error
    ensures v.Content? ==> v.items == store.tickets
  {
    Render(store.isLoading, store.error, store.tickets)
  }

  /** A failed save of an edited ticket leaves `isDialogOpen` set, yet the
      component shows the error in place of the table and its dialog; the
      list keeps the ticket as it was. */
  method FailedEditScenario(t: Ticket, message: Option<string>) returns (dialogOpen: bool, tickets: seq<Ticket>, screen: Screen<Ticket>)
    ensures dialogOpen
    ensures tickets == [t]
    ensures screen == Failure(ErrorText(message, UpdateFallback))
  {
    var store := new TicketsStore();
    store.FetchTickets(Fulfilled([t]));
    var form := new TicketForm("2024-05-02");
    form.HandleEdit(t);
    form.HandleInputChange(Issue, "Fixed");
    var request := form.HandleSubmit(store, Rejected(message));
    dialogOpen, tickets := form.isDialogOpen, store.tickets;
    screen := View(store);
  }

  /** A failed delete keeps the ticket and shows the error instead of the table. */
  method FailedDeleteScenario(t: Ticket, message: Option<string>) returns (tickets: seq<Ticket>, screen: Screen<Ticket>)
    ensures tickets == [t]
    ensures screen == Failure(ErrorText(message, DeleteFallback))
  {
    var store := new TicketsStore();
    store.FetchTickets(Fulfilled([t]));
    store.DeleteTicket(t.id, Rejected(message));
    tickets := store.tickets;
    screen := View(store);
  }
}
