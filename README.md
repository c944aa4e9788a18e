# Admin dashboard state: the three slices and their forms, in Dafny

This project models the state logic of an admin dashboard that shows summary
cards, a list of services and a table of tickets. Each list lives in a Redux
slice:

- `TicketsSlice.TicketsStore` holds `tickets`, `isLoading`, `isAddingTicket` and `error`.
- `ServicesSlice.ServicesStore` holds `services`, `isLoading`, `isAddingService` and `error`.
- `CardsSlice.CardsStore` holds `cards`, `isLoading`, `isAddingCard` and `error`.

Every async thunk has a pending, a fulfilled and a rejected reducer case. Each
case is a method that updates the store's fields in place, as the Immer draft
does. A lifecycle method (`FetchTickets`, `AddTicket`, …) runs pending and then
the settled case. The remote table call is a parameter `Thunk.Settled<T>`: it
is either `Fulfilled(payload)` or `Rejected(message)`, where the message is
optional.

A rejection stores `message || fallback` (`Thunk.ErrorText`), so the `error`
field is never the empty string. Each store's `Valid()` says so, and every
reducer case keeps it. Fetch replaces the list. Add prepends the one record the
store returned. A ticket update overwrites the first ticket with the payload's
id, found by `findIndex` (`FindIndex`, `ReplaceById`). A ticket delete filters
by id (`WithoutId`).

The components are modelled as form classes:

- `LatestTickets.TicketForm` has `isDialogOpen`, `currentTicket` and `isEditing`. Its submit dispatches an update in edit mode and an add otherwise. It closes the dialog only on success (`unwrap`).
- `TopServices.ServiceForm` coerces `progress` with `parseInt(value) || 0` (`Js.ParseIntOrZero`). It resets and closes whatever the outcome.
- `DashboardCards.CardForm` resets and closes only on success.

A failed save leaves the dialog flag set, but the dialog is not on screen. The
rejection stores an error, and the component's early error return replaces the
whole card, dialog included. Nothing on the error screen dispatches again, and
the fetch runs only on mount, so the error stays until the page is reloaded
(`LatestTickets.FailedEditScenario`, `DashboardCards.FailedAddScenario`).

The components' pure helpers are functions: the status colour, the avatar
initials (`split(" ")`, first characters, `join("")`), the rank labels and the
loading / error / content precedence of the screens (`Screens.Render`). The
JavaScript built-ins they use are modelled in `Js`: `parseInt` without a radix,
`String(n)` for integers, `split` and `join`.

Four behaviours of the code are easy to miss; the model follows the code:

- An update rejection resets the `isAddingTicket` flag it shares with add; a delete rejection touches only `error`.
- A rejection falls back to a fixed string when the message is missing or empty.
- `status` is a free string, not an enumeration.
- Only `progress` is coerced to a number. `formsSubmitted` keeps the raw input string (`TopServices.FieldValue`).

## Model

| member | source | states |
|---|---|---|
| `Thunk.ErrorText` | src/store/slices/ticketsSlice.ts:99 | the stored error is the message when it is a non-empty string, and the fallback when it is missing or empty; with a non-empty fallback it is never empty |
| `Screens.Render` | src/components/DashboardCards.tsx:54-60 | loading is shown exactly when `isLoading`; the error is shown exactly when not loading and the error is truthy, with that message; otherwise the list |
| `TicketsSlice.FindIndex` | src/store/slices/ticketsSlice.ts:119-121 | -1 exactly when no ticket has the id; otherwise a position holding the id with no earlier one holding it |
| `TicketsSlice.ReplaceById` | src/store/slices/ticketsSlice.ts:117-125 | the length is kept; with a match only the first matching position changes, to the payload; without one the list is unchanged; every position keeps its id |
| `TicketsSlice.WithoutId` | src/store/slices/ticketsSlice.ts:136-138 | no ticket with the id remains; a ticket is kept exactly when it was there and has another id; the list does not grow |
| `TicketsSlice.TicketsStore.constructor` | src/store/slices/ticketsSlice.ts:20-25 | empty list, both flags false, error null |
| `TicketsSlice.TicketsStore.FetchPending` | src/store/slices/ticketsSlice.ts:89-92 | `isLoading` set, error cleared, list and `isAddingTicket` unchanged |
| `TicketsSlice.TicketsStore.FetchFulfilled` | src/store/slices/ticketsSlice.ts:93-96 | list replaced by the payload, `isLoading` cleared, `isAddingTicket` and error unchanged |
| `TicketsSlice.TicketsStore.FetchRejected` | src/store/slices/ticketsSlice.ts:97-100 | `isLoading` cleared, error is the message or "Failed to fetch tickets", list unchanged |
| `TicketsSlice.TicketsStore.AddPending` | src/store/slices/ticketsSlice.ts:101-104 | `isAddingTicket` set, error cleared, list and `isLoading` unchanged |
| `TicketsSlice.TicketsStore.AddFulfilled` | src/store/slices/ticketsSlice.ts:105-108 | the list is the payload followed by the old list; `isAddingTicket` cleared; nothing else changes |
| `TicketsSlice.TicketsStore.AddRejected` | src/store/slices/ticketsSlice.ts:109-112 | `isAddingTicket` cleared, error is the message or "Failed to add ticket", list unchanged |
| `TicketsSlice.TicketsStore.UpdatePending` | src/store/slices/ticketsSlice.ts:113-116 | the flag shared with add is set and the error cleared; list unchanged |
| `TicketsSlice.TicketsStore.UpdateFulfilled` | src/store/slices/ticketsSlice.ts:117-125 | the list is `ReplaceById` of the old list; the shared flag is cleared; `isLoading` and error unchanged |
| `TicketsSlice.TicketsStore.UpdateRejected` | src/store/slices/ticketsSlice.ts:126-129 | the shared flag is cleared, error is the message or "Failed to update ticket", list unchanged |
| `TicketsSlice.TicketsStore.DeletePending` | src/store/slices/ticketsSlice.ts:130-133 | only the error changes, to null |
| `TicketsSlice.TicketsStore.DeleteFulfilled` | src/store/slices/ticketsSlice.ts:134-139 | the list is `WithoutId` of the old list; neither flag nor the error changes |
| `TicketsSlice.TicketsStore.DeleteRejected` | src/store/slices/ticketsSlice.ts:140-143 | only the error changes, to the message or "Failed to delete ticket" |
| `TicketsSlice.TicketsStore.FetchTickets` | src/store/slices/ticketsSlice.ts:89-100 | a whole fetch: not loading afterwards; on success the list is the payload and the error null; on failure the list is kept and the error set |
| `TicketsSlice.TicketsStore.AddTicket` | src/store/slices/ticketsSlice.ts:101-112 | a whole add: flag cleared; on success the payload is first, the old list follows and the error is null; on failure the list is kept and the error set |
| `TicketsSlice.TicketsStore.UpdateTicket` | src/store/slices/ticketsSlice.ts:113-129 | a whole update: flag cleared; on success the matching entry is replaced in place; on failure the list is kept and the error set |
| `TicketsSlice.TicketsStore.DeleteTicket` | src/store/slices/ticketsSlice.ts:130-143 | a whole delete, as dispatched by the table's Delete item: the removal happens only on success; on failure the list is kept and the error set; flags untouched |
| `TicketsSlice.PrependShifts` | src/store/slices/ticketsSlice.ts:105-108 | after an add the payload is at index 0, every old ticket moves up by one, and the length grows by one |
| `TicketsSlice.PrependUniqueIds` | src/store/slices/ticketsSlice.ts:105-108 | prepending keeps the ids unique exactly when the new id is not already in the list |
| `TicketsSlice.ReplaceKeepsIds` | src/store/slices/ticketsSlice.ts:117-125 | with unique ids, an update keeps them unique and the updated ticket is found where it was put |
| `TicketsSlice.ReplaceIdempotent` | src/store/slices/ticketsSlice.ts:117-125 | applying the same fulfilled update twice gives the same list as once |
| `TicketsSlice.WithoutIdAppend` | src/store/slices/ticketsSlice.ts:136-138 | delete distributes over concatenation, so the surviving tickets keep their relative order |
| `TicketsSlice.WithoutAbsentId` | src/store/slices/ticketsSlice.ts:136-138 | deleting an id no ticket carries leaves the list unchanged |
| `TicketsSlice.WithoutPresentId` | src/store/slices/ticketsSlice.ts:136-138 | with unique ids, deleting a present id removes exactly that ticket and closes the gap; the length drops by one |
| `TicketsSlice.WithoutIdKeepsUnique` | src/store/slices/ticketsSlice.ts:136-138 | deleting keeps the ids unique |
| `ServicesSlice.ServicesStore.constructor` | src/store/slices/servicesSlice.ts:19-24 | empty list, both flags false, error null |
| `ServicesSlice.ServicesStore.FetchPending` | src/store/slices/servicesSlice.ts:59-62 | `isLoading` set, error null, list unchanged |
| `ServicesSlice.ServicesStore.FetchFulfilled` | src/store/slices/servicesSlice.ts:63-66 | list replaced wholesale, `isLoading` cleared |
| `ServicesSlice.ServicesStore.FetchRejected` | src/store/slices/servicesSlice.ts:67-70 | `isLoading` cleared, error is the message or "Failed to fetch services", list unchanged |
| `ServicesSlice.ServicesStore.AddPending` | src/store/slices/servicesSlice.ts:71-74 | `isAddingService` set, error cleared |
| `ServicesSlice.ServicesStore.AddFulfilled` | src/store/slices/servicesSlice.ts:75-78 | exactly one record prepended, `isAddingService` cleared |
| `ServicesSlice.ServicesStore.AddRejected` | src/store/slices/servicesSlice.ts:79-82 | `isAddingService` cleared, error is the message or "Failed to add service", list unchanged |
| `ServicesSlice.ServicesStore.FetchServices` | src/store/slices/servicesSlice.ts:59-70 | a whole fetch: success replaces the list and clears the error; failure keeps the list and sets the error |
| `ServicesSlice.ServicesStore.AddService` | src/store/slices/servicesSlice.ts:71-82 | a whole add: success prepends the payload with a null error; failure keeps the list and sets the error |
| `CardsSlice.CardsStore.constructor` | src/store/slices/cardsSlice.ts:19-24 | empty list, both flags false, error null |
| `CardsSlice.CardsStore.FetchPending` | src/store/slices/cardsSlice.ts:57-60 | `isLoading` set, error cleared, list unchanged |
| `CardsSlice.CardsStore.FetchFulfilled` | src/store/slices/cardsSlice.ts:61-64 | list replaced, `isLoading` cleared |
| `CardsSlice.CardsStore.FetchRejected` | src/store/slices/cardsSlice.ts:65-68 | error is the message or "Failed to fetch cards", `isLoading` cleared, list unchanged |
| `CardsSlice.CardsStore.AddPending` | src/store/slices/cardsSlice.ts:69-72 | `isAddingCard` set, error cleared |
| `CardsSlice.CardsStore.AddFulfilled` | src/store/slices/cardsSlice.ts:73-76 | the payload at index 0 with the old list after it |
| `CardsSlice.CardsStore.AddRejected` | src/store/slices/cardsSlice.ts:77-80 | `isAddingCard` cleared, error is the message or "Failed to add card" |
| `CardsSlice.CardsStore.FetchCards` | src/store/slices/cardsSlice.ts:57-68 | a whole fetch: success replaces the list and clears the error; failure keeps the list and sets the error |
| `CardsSlice.CardsStore.AddCard` | src/store/slices/cardsSlice.ts:69-80 | a whole add: success prepends the payload with a null error; failure keeps the list and sets the error |
| `LatestTickets.StatusColor` | src/components/LatestTickets.tsx:55-61 | a status in the table gets its colour; every other string gets the neutral colour, and only those do |
| `LatestTickets.StatusColors` | src/components/LatestTickets.tsx:56-61 | "To do" is cyan, "Completed" green, "Cancelled" red, anything else neutral |
| `LatestTickets.ObjectLiteralLookup` | src/components/LatestTickets.tsx:61 | `statusConfig[status]` on an object literal: an own key gives its string; one of the twelve inherited member names gives that member; any other key is undefined |
| `LatestTickets.StatusColorAsWritten` | src/components/LatestTickets.tsx:56-61 | the lookup as written, on an object literal; it agrees with `StatusColor` on the three statuses |
| `LatestTickets.InheritedStatusNotNeutral` | src/components/LatestTickets.tsx:61 | "constructor" is not a status, yet as written it gets an inherited function rather than the neutral colour |
| `LatestTickets.AsWrittenAgreesElsewhere` | src/components/LatestTickets.tsx:61 | outside the twelve inherited member names, the code as written and `StatusColor` agree |
| `LatestTickets.FirstChar` | src/components/LatestTickets.tsx:305-306 | a word contributes its first character, and an empty word contributes nothing |
| `LatestTickets.FirstChars` | src/components/LatestTickets.tsx:303-305 | the mapped list has one entry per word, in order |
| `LatestTickets.Initials` | src/components/LatestTickets.tsx:303-306 | the fallback text has at most one character per space-separated word and never a space; InitialsAround, InitialsOfWord and InitialsOfFullName give its value |
| `LatestTickets.JoinEmptyAppend` | src/components/LatestTickets.tsx:306 | `join("")` of two lists concatenated is the concatenation of their joins |
| `LatestTickets.InitialsAround` | src/components/LatestTickets.tsx:303-306 | the initials of `a + " " + b` are those of `a` followed by those of `b`, so extra spaces add nothing |
| `LatestTickets.InitialsOfWord` | src/components/LatestTickets.tsx:303-306 | a name without spaces gives its first character, and the empty name gives nothing |
| `LatestTickets.InitialsOfFullName` | src/components/LatestTickets.tsx:303-306 | a first and a last name, one or two spaces apart, give exactly their two first letters |
| `LatestTickets.DefaultNewTicket` | src/components/LatestTickets.tsx:47-53 | empty customer, issue and project, status "To do", no id, and the date taken at load |
| `LatestTickets.DraftOf` | src/components/LatestTickets.tsx:93-95 | the ticket chosen for editing is held with its id |
| `LatestTickets.WithField` | src/components/LatestTickets.tsx:115-122 | the named field takes the new value; every other field and the id are unchanged |
| `LatestTickets.RequestFor` | src/components/LatestTickets.tsx:101-103 | an update exactly in edit mode, carrying the held ticket with its id; otherwise an add carrying the fields without an id |
| `LatestTickets.SubmitRequests` | src/components/LatestTickets.tsx:87-103 | editing a ticket and submitting it unchanged updates that same ticket; a fresh add sends the defaults |
| `LatestTickets.TicketForm.constructor` | src/components/LatestTickets.tsx:77-81 | dialog closed, the default ticket, add mode |
| `LatestTickets.TicketForm.HandleAdd` | src/components/LatestTickets.tsx:87-91 | add mode, the default ticket, dialog open |
| `LatestTickets.TicketForm.HandleEdit` | src/components/LatestTickets.tsx:93-97 | edit mode, the chosen ticket, dialog open |
| `LatestTickets.TicketForm.HandleInputChange` | src/components/LatestTickets.tsx:115-118 | only the named field of the held ticket changes; the mode and the dialog stay |
| `LatestTickets.TicketForm.HandleSelectChange` | src/components/LatestTickets.tsx:120-122 | only the status changes |
| `LatestTickets.TicketForm.OnOpenChange` | src/components/LatestTickets.tsx:145 | only the dialog's visibility changes |
| `LatestTickets.TicketForm.HandleSubmit` | src/components/LatestTickets.tsx:99-113 | in edit mode it dispatches an update, otherwise an add; `isDialogOpen` is cleared only on success, and stays set on failure while the stored error hides the dialog; the store ends as that update or add leaves it |
| `LatestTickets.View` | src/components/LatestTickets.tsx:128-138 | loading exactly when `isLoading`; in every state the slice reaches, the error screen exactly when not loading and an error is set, showing it; otherwise the table with the slice's tickets |
| `LatestTickets.FailedEditScenario` | src/components/LatestTickets.tsx:99-138 | after a rejected save of an edited ticket, `isDialogOpen` is still set, the list keeps the ticket unchanged, and the error screen replaces the table and its dialog |
| `LatestTickets.UpdateStatusScenario` | src/components/LatestTickets.tsx:93-113 | editing t1 from "To do" to "Completed" keeps its place and the length, then closes the dialog |
| `LatestTickets.FailedDeleteScenario` | src/components/LatestTickets.tsx:124-138 | a failed delete keeps the ticket, and the table is replaced by the error |
| `TopServices.Changed` | src/components/TopServices.tsx:46-52 | the named field takes the value: `progress` as `parseInt(value) \|\| 0`, `name` and `formsSubmitted` as the raw string; every other field is unchanged |
| `TopServices.ProgressNotClamped` | src/components/TopServices.tsx:50 | any integer typed, negative or above 100, is stored as it is; text without digits is stored as 0 |
| `TopServices.ServicePayload` | src/components/TopServices.tsx:35-39 | the form's fields plus `color: "bg-orange-500"` |
| `TopServices.RankLabel` | src/components/TopServices.tsx:154-156 | "#" followed by a number that reads back as the index plus one |
| `TopServices.RankLabelNoLeadingZero` | src/components/TopServices.tsx:154-156 | the number after "#" starts with a non-zero digit, as `String(n)` writes it, so the label is "#1" and never "#01" |
| `TopServices.RankLabelsDistinct` | src/components/TopServices.tsx:150-156 | different positions have different labels |
| `TopServices.RankedRows` | src/components/TopServices.tsx:150-156 | one row per service, in list order, each with the label of its index |
| `TopServices.RanksAfterAdd` | src/components/TopServices.tsx:150-156 | after an add the new service is "#1" and every other service moves down one place |
| `TopServices.ServiceForm.constructor` | src/components/TopServices.tsx:22-27 | dialog closed, form `{name: "", formsSubmitted: 0, progress: 0}` |
| `TopServices.ServiceForm.HandleInputChange` | src/components/TopServices.tsx:46-52 | the form becomes `Changed` of the old form; the dialog stays |
| `TopServices.ServiceForm.OnOpenChange` | src/components/TopServices.tsx:73 | only the dialog's visibility changes |
| `TopServices.ServiceForm.HandleSubmit` | src/components/TopServices.tsx:33-44 | dispatches the form plus the colour; resets the form and closes the dialog whether the add succeeded or not |
| `TopServices.View` | src/components/TopServices.tsx:54-60 | loading exactly when `isLoading`; in every state the slice reaches, the error screen exactly when not loading and an error is set; otherwise the list |
| `TopServices.RejectedAddScenario` | src/components/TopServices.tsx:33-60 | after a rejected add the form is empty and closed, and the list is replaced by the error |
| `DashboardCards.WithField` | src/components/DashboardCards.tsx:47-52 | only the named field of `{title, value, subtitle}` changes |
| `DashboardCards.CardPayload` | src/components/DashboardCards.tsx:34-39 | the form's fields plus `color: "text-foreground"` |
| `DashboardCards.CardForm.constructor` | src/components/DashboardCards.tsx:21-26 | dialog closed, all three fields empty |
| `DashboardCards.CardForm.HandleInputChange` | src/components/DashboardCards.tsx:47-52 | the form becomes `WithField` of the old form; the dialog stays |
| `DashboardCards.CardForm.OnOpenChange` | src/components/DashboardCards.tsx:68 | only the dialog's visibility changes |
| `DashboardCards.CardForm.HandleSubmit` | src/components/DashboardCards.tsx:32-45 | dispatches the form plus the colour; resets and closes only on success; a failure leaves the form and the `isOpen` flag as they were, while the stored error hides the dialog |
| `DashboardCards.View` | src/components/DashboardCards.tsx:54-60 | loading exactly when `isLoading`; in every state the slice reaches, the error screen exactly when not loading and an error is set; otherwise the grid |
| `DashboardCards.FailedAddScenario` | src/components/DashboardCards.tsx:32-60 | a rejected add keeps the typed fields and leaves `isOpen` set, yet the error screen replaces the grid and its dialog |
| `DashboardCards.AddCardScenario` | src/components/DashboardCards.tsx:32-45 | adding "Total Clients" to an empty grid, with id "c1" from the store, leaves exactly that card; the form is empty again |
| `DashboardCards.FetchScenario` | src/store/slices/cardsSlice.ts:57-68 | two fetches of an unchanged table give the same cards; a later failed fetch keeps them, and the view shows the error |
| `Js.IsWhiteSpace` | src/components/TopServices.tsx:50 | no contract of its own: the white space `parseInt` skips (tab, line feed, vertical tab, form feed, carriage return, space, the Unicode space separators, line and paragraph separator, byte order mark); TrimStart states what is skipped |
| `Js.TrimStart` | src/components/TopServices.tsx:50 | `parseInt` drops exactly the leading white space, so the rest starts with something else |
| `Js.DigitPrefix` | src/components/TopServices.tsx:50 | `parseInt` reads the longest prefix of digits of the radix |
| `Js.ParseInt` | src/components/TopServices.tsx:50 | no contract of its own: `parseInt(value)`, with NaN as None; ParseDecimalString and NonNumericIsZero give its value on decimal renderings and on text without digits |
| `Js.ParseSigned` | src/components/TopServices.tsx:50 | no contract of its own: the sign step of `parseInt`, where one optional `-` or `+` precedes the number and `-` negates it; NegatedUnsigned states the negation |
| `Js.ParseUnsigned` | src/components/TopServices.tsx:50 | no contract of its own: radix 16 after `0x` / `0X`, radix 10 otherwise, then the longest digit run; ParseDecimalString and NonNumericIsZero state its value through ParseInt |
| `Js.ParseIntOrZero` | src/components/TopServices.tsx:50 | no contract of its own: `parseInt(value) \|\| 0`; ParseDecimalString and NonNumericIsZero give its value on decimal renderings and on text without digits, and ProgressNotClamped on the form |
| `Js.Value` | src/components/TopServices.tsx:50 | no contract of its own: the value of a digit string, most significant digit first; ValueOfDigits reads every number's decimal digits back, and ParseDecimalString states it through `parseInt` |
| `Js.ParseDecimalString` | src/components/TopServices.tsx:50 | `parseInt` reads every integer's decimal rendering back unchanged |
| `Js.NonNumericIsZero` | src/components/TopServices.tsx:50 | a value with no decimal digit is NaN for `parseInt`, and the coercion makes it 0 |
| `Js.DecimalString` | src/components/TopServices.tsx:155 | `String(n)`: a minus sign exactly for a negative number, then only decimal digits, never empty; ParseDecimalString reads it back |
| `Js.Digits` | src/components/TopServices.tsx:155 | a number is rendered as a non-empty string of decimal digits with no leading zero |
| `Js.Split` | src/components/LatestTickets.tsx:304 | `split(" ")` gives at least one piece, and no piece contains the separator |
| `Js.Join` | src/components/LatestTickets.tsx:306 | no contract of its own: `pieces.join(sep)`; JoinSplit shows it undoes Split, and LatestTickets.JoinEmptyAppend that `join("")` distributes over concatenation |
| `Js.JoinSplit` | src/components/LatestTickets.tsx:304 | joining the pieces with the separator gives the name back |
| `Js.SplitAround` | src/components/LatestTickets.tsx:304 | the pieces of `a + " " + b` are those of `a` followed by those of `b` |
| `Js.SplitWithoutSeparator` | src/components/LatestTickets.tsx:304 | a string without the separator splits into itself |

## Findings

| source | as written | input that shows it | evidently intended | confidence | as-written member | corrected member |
|---|---|---|---|---|---|---|
| src/components/LatestTickets.tsx:56-61 | `statusConfig[status] \|\| "bg-neutral-500"` indexes a plain object literal, so it also finds the members inherited from `Object.prototype` | a ticket whose status is "constructor" (or "toString", "valueOf", …) gets a function, which is truthy and then becomes its source text in the class name, instead of the neutral colour | any status other than "To do", "Completed" and "Cancelled" shows the neutral indicator | not executed; follows from the language's property lookup | `LatestTickets.StatusColorAsWritten`, `LatestTickets.InheritedStatusNotNeutral` | `LatestTickets.StatusColor`, `LatestTickets.StatusColors` |

## Left out

- The table store calls inside the thunks (select, insert, update, delete): they are remote I/O. Their result is the `Settled` parameter, and the shape of the returned rows is not checked.
- Redux Toolkit and Immer plumbing (dispatch, action creators, draft proxies, `configureStore` in src/store/store.ts): the reducer cases are methods on the store object.
- Concurrent in-flight requests and the order they resolve in: each lifecycle method runs pending and settled back to back.
- JSX markup and styling, the sidebar, the header, the page assembly, and the decorative search, filter and pagination controls: they hold no state logic.
- The clock reading in `defaultNewTicketState`: it is the `today` argument of `TicketForm`.
- The fetch-on-mount effects, the avatar image URLs and the `console.error` on a failed ticket save: they are side effects with no state.
- The disabled state of the submit buttons while a flag is set, and the HTML `required` checks: they belong to the browser, and any submit can be modelled in any state.
- `LatestTickets.FirstChar`: a string is a sequence of Unicode characters, so the UTF-16 `n[0]` of a name starting with a character outside the Basic Multilingual Plane (half of a surrogate pair) is not modelled.
- `Js.ParseDecimalString`: numbers are exact integers, so the rounding of `parseInt` results beyond 2^53 and the `Infinity` of very long digit strings are not modelled.
- The unhandled promise rejection of a failed card add (no `catch` after `unwrap`): it only reaches the console.
- Unique ids are assumed, not enforced: just like the slices, the model never checks them. The lemmas that need unique ids take them as a hypothesis.
