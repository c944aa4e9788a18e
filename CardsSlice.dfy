/** The cards slice: a list of cards (newest first), a loading flag,
    an adding flag and the last error. Cards can only be fetched and
    added. */
module CardsSlice {
  import opened Thunk

  /** `CardData` as the store returns it. */
  datatype Card = Card(id: string, title: string, value: string, subtitle: string, color: string)

  const FetchFallback := "Failed to fetch cards"
  const AddFallback := "Failed to add card"

  class CardsStore {
    var cards: seq<Card>
    var isLoading: bool
    var isAddingCard: bool
    var error: Option<string>

    /** No reducer ever stores an empty error string. */
    ghost predicate Valid()
      reads this
    {
      error != Some("")
    }

    /** `initialState`. */
    constructor ()
      ensures Valid()
      ensures cards == [] && !isLoading && !isAddingCard && error == None
    {
      cards := [];
      isLoading := false;
      error := None;
      isAddingCard := false;
    }

    method FetchPending()
      modifies this
      ensures Valid()
      ensures isLoading && error == None
      ensures cards == old(cards) && isAddingCard == old(isAddingCard)
    {
      isLoading := true;
      error := None;
    }

    method FetchFulfilled(payload: seq<Card>)
      modifies this
      ensures old(Valid()) ==> Valid()
      ensures cards == payload && !isLoading
      ensures isAddingCard == old(isAddingCard) && error == old(error)
    {
      isLoading := false;
      cards := payload;
    }

    method FetchRejected(message: Option<string>)
      modifies this
      ensures Valid()
      ensures !isLoading && error == Some(ErrorText(message, FetchFallback))
      ensures cards == old(cards) && isAddingCard == old(isAddingCard)
    {
      isLoading := false;
      error := Some(ErrorText(message, FetchFallback));
    }

    method AddPending()
      modifies this
      ensures Valid()
      ensures isAddingCard && error == None
      ensures cards == old(cards) && isLoading == old(isLoading)
    {
      isAddingCard := true;
      error := None;
    }

    /** `state.cards.unshift(action.payload)`. */
    method AddFulfilled(payload: Card)
      modifies this
      ensures old(Valid()) ==> Valid()
      ensures cards == [payload] + old(cards) && !isAddingCard
      ensures isLoading == old(isLoading) && error == old(error)
    {
      isAddingCard := false;
      cards := [payload] + cards;
    }

    method AddRejected(message: Option<string>)
      modifies this
      ensures Valid()
      ensures !isAddingCard && error == Some(ErrorText(message, AddFallback))
      ensures cards == old(cards) && isLoading == old(isLoading)
    {
      isAddingCard := false;
      error := Some(ErrorText(message, AddFallback));
    }

    /** `fetchCards()` dispatched: pending, then the settled case. */
    method FetchCards(outcome: Settled<seq<Card>>)
      modifies this
      ensures Valid() && !isLoading && isAddingCard == old(isAddingCard)
      ensures outcome.Fulfilled? ==> cards == outcome.payload && error == None
      ensures outcome.Rejected? ==> cards == old(cards) && error == Some(ErrorText(outcome.message, FetchFallback))
    {
      FetchPending();
      match outcome {
        case Fulfilled(p) => FetchFulfilled(p);
        case Rejected(m) => FetchRejected(m);
      }
    }

    /** `addCardAsync(data)` dispatched; `outcome` is what the insert returned. */
    method AddCard(outcome: Settled<Card>)
      modifies this
      ensures Valid() && !isAddingCard && isLoading == old(isLoading)
      ensures outcome.Fulfilled? ==> cards == [outcome.payload] + old(cards) && error == None
      ensures outcome.Rejected? ==> cards == old(cards) && error == Some(ErrorText(outcome.message, AddFallback))
    {
      AddPending();
      match outcome {
        case Fulfilled(p) => AddFulfilled(p);
        case Rejected(m) => AddRejected(m);
      }
    }
  }
}
