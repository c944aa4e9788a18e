/** The dashboard cards' state logic: the add form, the payload it
    dispatches and the reset that happens only on success. */
module DashboardCards {
  import opened Thunk
  import opened Screens
  import opened CardsSlice

  datatype CardFormData = CardFormData(title: string, value: string, subtitle: string)

  /** `{ title: "", value: "", subtitle: "" }`. */
  const EmptyCardForm := CardFormData("", "", "")

  /** The named inputs of the dialog. */
  datatype CardField = Title | Value | Subtitle

  function FieldOf(f: CardFormData, field: CardField): string {
    match field
    case Title => f.title
    case Value => f.value
    case Subtitle => f.subtitle
  }

  /** `{ ...prev, [e.target.name]: e.target.value }`: only the named field changes. */
  function WithField(f: CardFormData, field: CardField, v: string): (r: CardFormData)
    ensures FieldOf(r, field) == v
    ensures forall g :: g != field ==> FieldOf(r, g) == FieldOf(f, g)
  {
    match field
    case Title => f.(title := v)
    case Value => f.(value := v)
    case Subtitle => f.(subtitle := v)
  }

  /** `Omit<CardData, "id">`, what an add sends to the store. */
  datatype NewCard = NewCard(title: string, value: string, subtitle: string, color: string)

  /** `{ ...formData, color: "text-foreground" }`. */
  function CardPayload(f: CardFormData): (p: NewCard)
    ensures p.color == "text-foreground"
    ensures CardFormData(p.title, p.value, p.subtitle) == f
  {
    NewCard(f.title, f.value, f.subtitle, "text-foreground")
  }

  /** The component's `isOpen` and `formData` state. */
  class CardForm {
    var isOpen: bool
    var formData: CardFormData

    constructor ()
      ensures !isOpen && formData == EmptyCardForm
    {
      isOpen := false;
      formData := EmptyCardForm;
    }

    /** `handleInputChange` for the input named `field`. */
    method HandleInputChange(field: CardField, v: string)
      modifies this
      ensures formData == WithField(old(formData), field, v) && isOpen == old(isOpen)
    {
      formData := WithField(formData, field, v);
    }

    /** The dialog's `onOpenChange`. */
    method OnOpenChange(open: bool)
      modifies this
      ensures isOpen == open && formData == old(formData)
    {
      isOpen := open;
    }

    /** `handleSubmit`: dispatch the add; `unwrap` lets the reset and the close
        run only when the add succeeded. A failure leaves the form and the
        `isOpen` flag as they were, but the stored error makes the component
        show the error screen in place of the dialog (see FailedAddScenario). */
    method HandleSubmit(store: CardsStore, outcome: Settled<Card>) returns (payload: NewCard)
      modifies this, store
      ensures payload == CardPayload(old(formData))
      ensures outcome.Fulfilled? ==> formData == EmptyCardForm && !isOpen
      ensures outcome.Rejected? ==> formData == old(formData) && isOpen == old(isOpen)
      ensures store.Valid() && !store.isAddingCard && store.isLoading == old(store.isLoading)
      ensures store.cards == if outcome.Fulfilled? then [outcome.payload] + old(store.cards) else old(store.cards)
      ensures store.error == if outcome.Fulfilled? then None else Some(ErrorText(outcome.message, CardsSlice.AddFallback))
    {
      payload := CardPayload(formData);
      store.AddCard(outcome);
      if outcome.Fulfilled? {
        formData := EmptyCardForm;
        isOpen := false;
      }
    }
  }

  /** What the component shows for a state of the cards slice; in every state
      the slice reaches, the error screen appears exactly when not loading and
      an error is set. */
  function View(store: CardsStore): (v: Screen<Card>)
    reads store
    ensures v.Loading? <==> store.isLoading
    ensures store.Valid() ==> (v.Failure? <==> !store.isLoading && store.error.Some?)
    ensures v.Failure? ==> Some(v.message) == store.error
    ensures v.Content? ==> v.items == store.cards
  {
    Render(store.isLoading, store.error, store.cards)
  }

  /** A rejected add keeps the typed fields and leaves `isOpen` set, yet the
      component shows the error in place of the grid and its dialog. */
  method FailedAddScenario(message: Option<string>) returns (form: CardFormData, open: bool, screen: Screen<Card>)
    ensures form == CardFormData("Total Clients", "", "") && open
    ensures screen == Failure(ErrorText(message, CardsSlice.AddFallback))
  {
    var store := new CardsStore();
    var f := new CardForm();
    f.OnOpenChange(true);
    f.HandleInputChange(Title, "Total Clients");
    var sent := f.HandleSubmit(store, Rejected(message));
    form, open := f.formData, f.isOpen;
    screen := View(store);
  }

  /** Adding "Total Clients" to an empty grid, the store assigning id "c1":
      the grid then holds exactly that card and the form is empty again. */
  method AddCardScenario() returns (cards: seq<Card>, form: CardFormData, screen: Screen<Card>)
    ensures cards == [Card("c1", "Total Clients", "120", "New Prospects", "text-foreground")]
    ensures form == EmptyCardForm
    ensures screen == Content(cards)
  {
    var store := new CardsStore();
    var f := new CardForm();
    f.OnOpenChange(true);
    f.HandleInputChange(Title, "Total Clients");
    f.HandleInputChange(Value, "120");
    f.HandleInputChange(Subtitle, "New Prospects");
    var p := CardPayload(f.formData);
    var inserted := Card("c1", p.title, p.value, p.subtitle, p.color);
    var sent := f.HandleSubmit(store, Fulfilled(inserted));
    cards, form := store.cards, f.formData;
    screen := View(store);
  }

  /** Fetching twice from an unchanged table gives the same cards both times,
      and a failed fetch keeps the cards but shows the error instead. */
  method FetchScenario(rows: seq<Card>, message: Option<string>) returns (first: seq<Card>, second: seq<Card>, third: seq<Card>, screen: Screen<Card>)
    ensures first == rows && second == rows && third == rows
    ensures screen == Failure(ErrorText(message, CardsSlice.FetchFallback))
  {
    var store := new CardsStore();
    store.FetchCards(Fulfilled(rows));
    first := store.cards;
    store.FetchCards(Fulfilled(rows));
    second := store.cards;
    store.FetchCards(Rejected(message));
    third := store.cards;
    screen := View(store);
  }
}
