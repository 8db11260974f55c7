/** `axios.utils.ts`: turning a thrown value into the message a toast shows. */
module AxiosUtils {
  import opened Js

  const UnknownError := "An unknown error occurred"
  const SomethingWrong := "Something went wrong"

  /** `typeof error === 'object' && error !== null && 'isAxiosError' in error && error.isAxiosError === true` */
  predicate IsAxiosErrorWithMessage(error: Value) {
    error.Obj? && "isAxiosError" in error.fields && error.fields["isAxiosError"] == Bool(true)
  }

  /**
    * `getAxiosErrorMessage(error)`. The axios branch reads
    * `error.response?.data.message`: an absent response falls back to the
    * default, a response without `data` throws.
    */
  function GetAxiosErrorMessage(error: Value): (r: Result<Value, JsError>)
    ensures IsAxiosErrorWithMessage(error) && IsNullish(Field(error, "response")) ==> r == Ok(Str(UnknownError))
    ensures r.Err? <==>
      IsAxiosErrorWithMessage(error) && !IsNullish(Field(error, "response"))
      && IsNullish(Field(Field(error, "response"), "data"))
    ensures !IsAxiosErrorWithMessage(error) && error.Obj? && error.isError ==> r == Ok(Field(error, "message"))
    ensures !IsAxiosErrorWithMessage(error) && !(error.Obj? && error.isError) ==> r == Ok(Str(SomethingWrong))
  {
    if IsAxiosErrorWithMessage(error) then
      var response := Field(error, "response");
      if IsNullish(response) then Ok(Str(UnknownError))
      else
        match Prop(Field(response, "data"), "message")
        case Err(e) => Err(e)
        case Ok(message) => Ok(if Truthy(message) then message else Str(UnknownError))
    else if error.Obj? && error.isError then Ok(Field(error, "message"))
    else Ok(Str(SomethingWrong))
  }

  /** The axios branch never yields an empty or otherwise falsy message. */
  lemma AxiosBranchTruthy(error: Value)
    requires IsAxiosErrorWithMessage(error)
    requires GetAxiosErrorMessage(error).Ok?
    ensures Truthy(GetAxiosErrorMessage(error).value)
    ensures GetAxiosErrorMessage(error).value != Str("")
  {
  }

  /** A server message is shown as sent when it is non-empty. */
  lemma ServerMessageShown(error: Value, message: string)
    requires IsAxiosErrorWithMessage(error) && message != ""
    requires Field(error, "response") == Obj(map["data" := Obj(map["message" := Str(message)], false)], false)
    ensures GetAxiosErrorMessage(error) == Ok(Str(message))
  {
  }

  /** An `AxiosError` is also an `Error`; the axios check is made first. */
  lemma AxiosTakesPrecedence(fields: map<string, Value>)
    requires "isAxiosError" in fields && fields["isAxiosError"] == Bool(true)
    requires "response" !in fields
    ensures GetAxiosErrorMessage(Obj(fields, true)) == Ok(Str(UnknownError))
  {
  }

  /** `isAxiosError` must be exactly `true`: a truthy non-boolean does not pass the guard. */
  lemma GuardNeedsTrue(fields: map<string, Value>, isError: bool)
    requires "isAxiosError" in fields && fields["isAxiosError"] == Str("true")
    ensures !IsAxiosErrorWithMessage(Obj(fields, isError))
    ensures GetAxiosErrorMessage(Obj(fields, isError)) ==
      (if isError then Ok(Field(Obj(fields, isError), "message")) else Ok(Str(SomethingWrong)))
  {
  }

  /** `null`, primitives and arrays give the generic message. */
  lemma NonObjectsGeneric(error: Value)
    requires !error.Obj?
    ensures GetAxiosErrorMessage(error) == Ok(Str(SomethingWrong))
  {
  }
}
