/** The services list's state logic: the add form with its numeric coercion
    of `progress`, the payload it dispatches, the reset that follows whatever
    the outcome, and the rank labels of the list. */
module TopServices {
  import opened Thunk
  import opened Screens
  import opened ServicesSlice
  import Js

  /** A form value: the form starts with numbers and stores the raw input
      string for every field except `progress`. */
  datatype FieldValue = Num(n: int) | Str(s: string)

  datatype ServiceFormData = ServiceFormData(name: string, formsSubmitted: FieldValue, progress: int)

  /** `{ name: "", formsSubmitted: 0, progress: 0 }`. */
  const InitialServiceForm := ServiceFormData("", Num(0), 0)

  /** The named inputs of the dialog. */
  datatype ServiceField = Name | Progress | FormsSubmitted

  function FieldOf(f: ServiceFormData, field: ServiceField): FieldValue {
    match field
    case Name => Str(f.name)
    case Progress => Num(f.progress)
    case FormsSubmitted => f.formsSubmitted
  }

  /** `{ ...prev, [name]: name === "progress" ? parseInt(value) || 0 : value }`:
      the named field takes the value, coerced only for `progress`, and every
      other field is unchanged. */
  function Changed(f: ServiceFormData, field: ServiceField, value: string): (r: ServiceFormData)
    ensures FieldOf(r, field) == if field == Progress then Num(Js.ParseIntOrZero(value)) else Str(value)
    ensures forall g :: g != field ==> FieldOf(r, g) == FieldOf(f, g)
  {
    match field
    case Progress => f.(progress := Js.ParseIntOrZero(value))
    case FormsSubmitted => f.(formsSubmitted := Str(value))
    case Name => f.(name := value)
  }

  /** The progress coercion keeps every integer the input reads as, whatever
      its sign or size, and turns text without digits into 0. */
  lemma ProgressNotClamped(f: ServiceFormData, n: int, text: string)
    requires forall k :: 0 <= k < |text| ==> !Js.IsDecimalDigit(text[k])
    ensures Changed(f, Progress, Js.DecimalString(n)).progress == n
    ensures Changed(f, Progress, text).progress == 0
  {
    Js.ParseDecimalString(n);
    Js.NonNumericIsZero(text);
  }

  /** `Omit<ServiceData, "id">` as the form sends it: `formsSubmitted` goes
      out as the form holds it, a string once the input was edited. */
  datatype NewService = NewService(name: string, formsSubmitted: FieldValue, progress: int, color: string)

  /** `{ ...formData, color: "bg-orange-500" }`. */
  function ServicePayload(f: ServiceFormData): (p: NewService)
    ensures p.color == "bg-orange-500"
    ensures ServiceFormData(p.name, p.formsSubmitted, p.progress) == f
  {
    NewService(f.name, f.formsSubmitted, f.progress, "bg-orange-500")
  }

  /** The label before a service: `#` and its position counted from 1. */
  function RankLabel(index: nat): (text: string)
    ensures text != [] && text[0] == '#'
    ensures Js.ParseIntOrZero(text[1..]) == index + 1
  {
    var text := "#" + Js.DecimalString(index + 1);
    assert text[1..] == Js.DecimalString(index + 1);
    Js.ParseDecimalString(index + 1);
    text
  }

  /** The number after `#` is written without a leading zero, as `String(n)`
      writes it: "#1", never "#01". */
  lemma RankLabelNoLeadingZero(index: nat)
    ensures |RankLabel(index)| >= 2
    ensures Js.IsDecimalDigit(RankLabel(index)[1]) && RankLabel(index)[1] != '0'
  {
    assert RankLabel(index) == "#" + Js.Digits(index + 1);
  }

  /** Different positions get different labels, so no two rows share a rank. */
  lemma RankLabelsDistinct(i: nat, j: nat)
    requires i != j
    ensures RankLabel(i) != RankLabel(j)
  {
  }

  /** The rows the list renders: each service with its label, in list order. */
  function RankedRows(services: seq<Service>): (rows: seq<(string, Service)>)
    ensures |rows| == |services|
    ensures forall k :: 0 <= k < |rows| ==> rows[k] == (RankLabel(k), services[k])
  {
    seq(|services|, k requires 0 <= k < |services| => (RankLabel(k), services[k]))
  }

  /** The first row is labelled "#1". */
  lemma FirstRank()
    ensures RankLabel(0) == "#1"
  {
    assert Js.Digits(1) == ['1'];
  }

  /** After a fulfilled add the new service is ranked first and every other one
      moves down by one place. */
  lemma RanksAfterAdd(services: seq<Service>, s: Service)
    ensures RankedRows([s] + services)[0] == ("#1", s)
    ensures forall k :: 0 <= k < |services| ==> RankedRows([s] + services)[k + 1] == (RankLabel(k + 1), services[k])
  {
    FirstRank();
    var rows := RankedRows([s] + services);
    forall k | 0 <= k < |services| ensures rows[k + 1] == (RankLabel(k + 1), services[k]) {
      assert ([s] + services)[k + 1] == services[k];
    }
  }

  /** The component's `isOpen` and `formData` state. */
  class ServiceForm {
    var isOpen: bool
    var formData: ServiceFormData

    constructor ()
      ensures !isOpen && formData == InitialServiceForm
    {
      isOpen := false;
      formData := InitialServiceForm;
    }

    /** `handleInputChange` for the input named `field`. */
    method HandleInputChange(field: ServiceField, value: string)
      modifies this
      ensures formData == Changed(old(formData), field, value) && isOpen == old(isOpen)
    {
      formData := Changed(formData, field, value);
    }

    /** The dialog's `onOpenChange`. */
    method OnOpenChange(open: bool)
      modifies this
      ensures isOpen == open && formData == old(formData)
    {
      isOpen := open;
    }

    /** `handleSubmit`: dispatch the add; without `unwrap`, the promise always
        resolves, so the form is reset and the dialog closed even when the add
        was rejected. */
    method HandleSubmit(store: ServicesStore, outcome: Settled<Service>) returns (payload: NewService)
      modifies this, store
      ensures payload == ServicePayload(old(formData))
      ensures formData == InitialServiceForm && !isOpen
      ensures store.Valid() && !store.isAddingService && store.isLoading == old(store.isLoading)
      ensures store.services == if outcome.Fulfilled? then [outcome.payload] + old(store.services) else old(store.services)
      ensures store.error == if outcome.Fulfilled? then None else Some(ErrorText(outcome.message, ServicesSlice.AddFallback))
    {
      payload := ServicePayload(formData);
      store.AddService(outcome);
      formData := InitialServiceForm;
      isOpen := false;
    }
  }

  /** What the component shows for a state of the services slice; in every
      state the slice reaches, the error screen appears exactly when not
      loading and an error is set. */
  function View(store: ServicesStore): (v: Screen<Service>)
    reads store
    ensures v.Loading? <==> store.isLoading
    ensures store.Valid() ==> (v.Failure? <==> !store.isLoading && store.error.Some?)
    ensures v.Failure? ==> Some(v.message) == store.error
    ensures v.Content? ==> v.items == store.services
  {
    Render(store.isLoading, store.error, store.services)
  }

  /** A rejected add still empties and closes the form; the error then hides
      the list. */
  method RejectedAddScenario(message: Option<string>) returns (form: ServiceFormData, open: bool, screen: Screen<Service>)
    ensures form == InitialServiceForm && !open
    ensures screen == Failure(ErrorText(message, ServicesSlice.AddFallback))
  {
    var store := new ServicesStore();
    var f := new ServiceForm();
    f.OnOpenChange(true);
    f.HandleInputChange(Name, "Website Development");
    f.HandleInputChange(Progress, "150");
    var payload := f.HandleSubmit(store, Rejected(message));
    form, open := f.formData, f.isOpen;
    screen := View(store);
  }
}
