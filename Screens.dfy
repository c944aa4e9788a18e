/** The loading / error / content precedence every list component renders
    with, on the fields of its slice. */
module Screens {
  import opened Thunk

  /** What a list component shows. */
  datatype Screen<T> = Loading | Failure(message: string) | Content(items: seq<T>)

  /** `if (isLoading) … ; if (error) … ; return …`: loading wins over an error,
      an error wins over the list, and an empty error string shows the list. */
  function Render<T>(isLoading: bool, error: Option<string>, items: seq<T>): (v: Screen<T>)
    ensures v.Loading? <==> isLoading
    ensures v.Failure? <==> !isLoading && Truthy(error)
    ensures v.Failure? ==> Some(v.message) == error
    ensures v.Content? ==> v.items == items
  {
    if isLoading then Loading
    else if Truthy(error) then Failure(error.value)
    else Content(items)
  }
}
