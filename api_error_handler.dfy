/** Turning a failed request into a user-facing error, and normalising the validation errors a
    server may send as a string, a list of field errors or an object. */
module ApiErrorHandler {
  import opened Wrappers
  import opened Domain

  const BadRequest := 400
  const Unauthorized := 401
  const Forbidden := 403
  const NotFound := 404
  const InternalServerError := 500

  const NetworkErrorText := "Network error. Please check your connection."
  const UnauthorizedText := "You are not authorized to perform this action."
  const ForbiddenText := "Access denied."
  const NotFoundText := "The requested resource was not found."
  const ServerErrorText := "Server error. Please try again later."
  const ValidationErrorText := "Please check your input and try again."
  const ValidationFailedText := "Validation failed"
  const GeneralField := "general"

  /** The body of an error response, as far as the handler reads it. */
  datatype ResponseBody = ResponseBody(message: Option<string>)

  /** A failed request: no response at all (a network failure), or a status and maybe a body. */
  datatype RequestError = NoResponse | Response(status: int, data: Option<ResponseBody>)

  /** What `handleApiError` returns; `data` is absent for a network failure. */
  datatype ApiError = ApiError(message: string, status: int, data: Option<ResponseBody>)

  /** The fallback text for a status when the body carries no message. */
  function StatusText(status: int): (text: string)
    ensures status == BadRequest ==> text == ValidationErrorText
    ensures status == Unauthorized ==> text == UnauthorizedText
    ensures status == Forbidden ==> text == ForbiddenText
    ensures status == NotFound ==> text == NotFoundText
    ensures status !in {BadRequest, Unauthorized, Forbidden, NotFound} ==> text == ServerErrorText
  {
    if status == BadRequest then ValidationErrorText
    else if status == Unauthorized then UnauthorizedText
    else if status == Forbidden then ForbiddenText
    else if status == NotFound then NotFoundText
    else ServerErrorText
  }

  /** `handleApiError`: a network failure has status 0 and the network text; otherwise the
      body's message wins when it is non-empty, the status decides the text when it is not, the
      status is passed through and a missing body becomes an empty one. */
  function HandleApiError(error: RequestError): (r: ApiError)
    ensures error.NoResponse? ==> r == ApiError(NetworkErrorText, 0, None)
    ensures error.Response? ==> r.status == error.status
    ensures error.Response? ==> r.data == Some(if error.data.Some? then error.data.value else ResponseBody(None))
    ensures error.Response? && error.data.Some? && Truthy(error.data.value.message) ==>
      r.message == error.data.value.message.value
    ensures error.Response? && !(error.data.Some? && Truthy(error.data.value.message)) ==>
      r.message == StatusText(error.status)
    ensures r.message != ""
  {
    match error
    case NoResponse => ApiError(NetworkErrorText, 0, None)
    case Response(status, data) =>
      var body := if data.Some? then data.value else ResponseBody(None);
      ApiError(OrElse(body.message, StatusText(status)), status, Some(body))
  }

  /** Without a server message, the text tells the four client-error statuses apart and never
      looks like a network failure. */
  lemma FallbackTextsDistinct(s1: int, s2: int)
    requires s1 in {BadRequest, Unauthorized, Forbidden, NotFound}
    requires s2 in {BadRequest, Unauthorized, Forbidden, NotFound}
    ensures StatusText(s1) == StatusText(s2) ==> s1 == s2
    ensures HandleApiError(Response(s1, None)).message != NetworkErrorText
  {
  }

  /** A non-empty server message is shown as it is, whatever the status; a missing response
      reports status 0. */
  lemma ServerMessageWins(status: int, message: string)
    requires message != ""
    ensures HandleApiError(Response(status, Some(ResponseBody(Some(message))))).message == message
    ensures HandleApiError(NoResponse).status == 0
  {
  }

  /** One entry of a list of validation errors. */
  datatype FieldError = FieldError(field: Option<string>, message: Option<string>)

  /** What `formatValidationErrors` may be given. */
  datatype ValidationErrors =
    | Text(text: string)
    | Entries(entries: seq<FieldError>)
    | Object(fields: map<string, Option<string>>)
    | Other

  /** The key an entry is filed under: its field, or "general" when it has none. */
  function KeyOf(e: FieldError): string
  {
    OrElse(e.field, GeneralField)
  }

  /** The map the reduction has built after the given entries: each entry in turn sets its
      key to its message, so a later entry overwrites an earlier one. */
  function Collected(entries: seq<FieldError>): map<string, Option<string>>
  {
    if entries == [] then map[]
    else Collected(entries[..|entries| - 1])[KeyOf(entries[|entries| - 1]) := entries[|entries| - 1].message]
  }

  /** The keys are exactly the entries' keys. */
  lemma {:induction false} CollectedKeys(entries: seq<FieldError>)
    ensures Collected(entries).Keys == set i | 0 <= i < |entries| :: KeyOf(entries[i])
  {
    if entries != [] {
      var n := |entries|;
      var prefix := entries[..n - 1];
      CollectedKeys(prefix);
      assert forall i :: 0 <= i < n - 1 ==> prefix[i] == entries[i];
      assert (set i | 0 <= i < n :: KeyOf(entries[i]))
          == (set i | 0 <= i < n - 1 :: KeyOf(prefix[i])) + {KeyOf(entries[n - 1])};
    }
  }

  /** Every key holds the message of the last entry filed under it. */
  lemma {:induction false} LastEntryWins(entries: seq<FieldError>, i: nat)
    requires i < |entries|
    requires forall j :: i < j < |entries| ==> KeyOf(entries[j]) != KeyOf(entries[i])
    ensures KeyOf(entries[i]) in Collected(entries)
    ensures Collected(entries)[KeyOf(entries[i])] == entries[i].message
  {
    var n := |entries|;
    if i < n - 1 {
      var prefix := entries[..n - 1];
      assert prefix[i] == entries[i];
      LastEntryWins(prefix, i);
      assert KeyOf(entries[n - 1]) != KeyOf(entries[i]);
    }
  }

  /** `formatValidationErrors`: a string becomes the general error; a list is reduced entry by
      entry; an object is returned as it is; anything else gives the general "Validation failed". */
  method FormatValidationErrors(errors: ValidationErrors) returns (r: map<string, Option<string>>)
    ensures errors.Text? ==> r == map[GeneralField := Some(errors.text)]
    ensures errors.Entries? ==> r == Collected(errors.entries)
    ensures errors.Object? ==> r == errors.fields
    ensures errors.Other? ==> r == map[GeneralField := Some(ValidationFailedText)]
  {
    match errors {
      case Text(text) =>
        r := map[GeneralField := Some(text)];
      case Entries(entries) =>
        r := map[];
        var k := 0;
        while k < |entries|
          invariant 0 <= k <= |entries|
          invariant r == Collected(entries[..k])
        {
          assert entries[..k + 1][..k] == entries[..k];
          r := r[KeyOf(entries[k]) := entries[k].message];
          k := k + 1;
        }
        assert entries[..|entries|] == entries;
      case Object(fields) =>
        r := fields;
      case Other =>
        r := map[GeneralField := Some(ValidationFailedText)];
    }
  }
}
