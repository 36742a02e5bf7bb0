/**
 * The success callbacks of `_createContact` and `_blockContact`: the service
 * answers with a list of warnings, and a non-empty list turns the call into an
 * error carrying the first warning's message.
 */
module ContactActions {
  import opened Optional

  datatype Warning = Warning(message: string)

  datatype ActionOutcome = ActionFailed(message: string) | ActionSucceeded

  function WarningsOutcome(warnings: Option<seq<Warning>>): (r: ActionOutcome)
    // an error exactly when the warnings array is present and non-empty
    ensures r.ActionFailed? <==> warnings.Some? && |warnings.value| > 0
    // and then it reports the first warning only
    ensures r.ActionFailed? ==> r.message == warnings.value[0].message
  {
    if warnings.Some? && |warnings.value| > 0 then ActionFailed(warnings.value[0].message)
    else ActionSucceeded
  }
}
