/** The services slice: a list of services (newest first), a loading flag,
    an adding flag and the last error. Services can only be fetched and
    added. */
module ServicesSlice {
  import opened Thunk

  /** `ServiceData` as the store returns it. */
  datatype Service = Service(id: string, name: string, color: string, progress: int, formsSubmitted: int)

  const FetchFallback := "Failed to fetch services"
  const AddFallback := "Failed to add service"

  class ServicesStore {
    var services: seq<Service>
    var isLoading: bool
    var isAddingService: bool
    var error: Option<string>

    /** No reducer ever stores an empty error string. */
    ghost predicate Valid()
      reads this
    {
      error != Some("")
    }

    /** `initialState`. */
    constructor ()
      ensures Valid()
      ensures services == [] && !isLoading && !isAddingService && error == None
    {
      services := [];
      isLoading := false;
      error := None;
      isAddingService := false;
    }

    method FetchPending()
      modifies this
      ensures Valid()
      ensures isLoading && error == None
      ensures services == old(services) && isAddingService == old(isAddingService)
    {
      isLoading := true;
      error := None;
    }

    method FetchFulfilled(payload: seq<Service>)
      modifies this
      ensures old(Valid()) ==> Valid()
      ensures services == payload && !isLoading
      ensures isAddingService == old(isAddingService) && error == old(error)
    {
      isLoading := false;
      services := payload;
    }

    method FetchRejected(message: Option<string>)
      modifies this
      ensures Valid()
      ensures !isLoading && error == Some(ErrorText(message, FetchFallback))
      ensures services == old(services) && isAddingService == old(isAddingService)
    {
      isLoading := false;
      error := Some(ErrorText(message, FetchFallback));
    }

    method AddPending()
      modifies this
      ensures Valid()
      ensures isAddingService && error == None
      ensures services == old(services) && isLoading == old(isLoading)
    {
      isAddingService := true;
      error := None;
    }

    /** `state.services.unshift(action.payload)`. */
    method AddFulfilled(payload: Service)
      modifies this
      ensures old(Valid()) ==> Valid()
      ensures services == [payload] + old(services) && !isAddingService
      ensures isLoading == old(isLoading) && error == old(error)
    {
      isAddingService := false;
      services := [payload] + services;
    }

    method AddRejected(message: Option<string>)
      modifies this
      ensures Valid()
      ensures !isAddingService && error == Some(ErrorText(message, AddFallback))
      ensures services == old(services) && isLoading == old(isLoading)
    {
      isAddingService := false;
      error := Some(ErrorText(message, AddFallback));
    }

    /** `fetchServices()` dispatched: pending, then the settled case. */
    method FetchServices(outcome: Settled<seq<Service>>)
      modifies this
      ensures Valid() && !isLoading && isAddingService == old(isAddingService)
      ensures outcome.Fulfilled? ==> services == outcome.payload && error == None
      ensures outcome.Rejected? ==> services == old(services) && error == Some(ErrorText(outcome.message, FetchFallback))
    {
      FetchPending();
      match outcome {
        case Fulfilled(p) => FetchFulfilled(p);
        case Rejected(m) => FetchRejected(m);
      }
    }

    /** `addServiceAsync(data)` dispatched; `outcome` is what the insert returned. */
    method AddService(outcome: Settled<Service>)
      modifies this
      ensures Valid() && !isAddingService && isLoading == old(isLoading)
      ensures outcome.Fulfilled? ==> services == [outcome.payload] + old(services) && error == None
      ensures outcome.Rejected? ==> services == old(services) && error == Some(ErrorText(outcome.message, AddFallback))
    {
      AddPending();
      match outcome {
        case Fulfilled(p) => AddFulfilled(p);
        case Rejected(m) => AddRejected(m);
      }
    }
  }
}
