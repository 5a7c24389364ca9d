/** How the diagnosis and market panels turn a failed call into the alert
    they show above their results. */
module ErrorAlert {
  import opened Types

  const UnknownError := "An unknown error occurred."

  /** `e instanceof Error ? e.message : 'An unknown error occurred.'`, the
      text a panel stores for a failed call. */
  function CaughtMessage(e: Thrown): (m: string)
    ensures e.ErrorObject? ==> m == e.message
    ensures e.NonError? ==> m == UnknownError
  {
    match e
    case ErrorObject(message) => message
    case NonError => UnknownError
  }

  /** `{error && ...}`: the alert is rendered for a stored error unless it is
      the empty string, which JavaScript treats as false. */
  function Banner(error: Option<string>): (shown: Option<string>)
    ensures shown.Some? <==> error.Some? && error.value != ""
    ensures shown.Some? ==> shown == error
  {
    if error.Some? && error.value != "" then error else None
  }
}
