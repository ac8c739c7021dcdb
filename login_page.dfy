/** The login form: field updates, required-field validation, and the error shown when the
    auth context's `login` throws. */
module LoginPage {
  import opened Wrappers
  import opened Domain
  import AuthContext
  import Storage

  const UsernameKey := "username"
  const PasswordKey := "password"
  const GeneralKey := "general"
  const UsernameRequired := "Username is required"
  const PasswordRequired := "Password is required"
  const DefaultLoginError := "Login failed. Please check your credentials."

  /** `formData[key]`, with a missing field read as the empty string (both are falsy). */
  function FieldValue(form: map<string, string>, key: string): string
  {
    if key in form then form[key] else ""
  }

  /** The error map `validateForm` builds: one entry per empty field, nothing else. Values are
      not trimmed, so white space counts as filled in. */
  function FormErrors(form: map<string, string>): (errors: map<string, string>)
    ensures errors.Keys <= {UsernameKey, PasswordKey}
    ensures UsernameKey in errors <==> FieldValue(form, UsernameKey) == ""
    ensures PasswordKey in errors <==> FieldValue(form, PasswordKey) == ""
    ensures UsernameKey in errors ==> errors[UsernameKey] == UsernameRequired
    ensures PasswordKey in errors ==> errors[PasswordKey] == PasswordRequired
  {
    var afterUser := if FieldValue(form, UsernameKey) == "" then map[UsernameKey := UsernameRequired] else map[];
    if FieldValue(form, PasswordKey) == "" then afterUser[PasswordKey := PasswordRequired] else afterUser
  }

  /** A username of spaces passes validation. */
  lemma SpacesPass(form: map<string, string>)
    requires FieldValue(form, UsernameKey) == " " && FieldValue(form, PasswordKey) == "secret"
    ensures FormErrors(form) == map[]
  {
  }

  /** The general error as `handleSubmit` computes it, `error.message || default`, applied to
      what `login` throws: a string or `undefined`. A string has no `message`, so the default
      text is shown; reading `message` of `undefined` throws a `TypeError` before the error map
      is set (`None`). */
  function GeneralErrorAsWritten(thrown: Option<string>): (general: Option<string>)
    ensures thrown.Some? ==> general == Some(DefaultLoginError)
    ensures thrown.None? ==> general == None
  {
    if thrown.Some? then Some(DefaultLoginError) else None
  }

  /** The server's message never reaches the form: a refusal that says "Invalid password"
      is shown as the default text. */
  lemma ServerMessageNeverShown(message: string)
    requires message != DefaultLoginError
    ensures GeneralErrorAsWritten(Some(message)) != Some(message)
    ensures GeneralErrorAsWritten(AuthContext.LoginThrown(AuthContext.RaisedBody(Some("Invalid password"))))
            == Some(DefaultLoginError)
  {
  }

  /** The general error the form evidently means to show: the thrown message when there is a
      non-empty one, the default text otherwise. */
  function GeneralError(thrown: Option<string>): (general: string)
    ensures Truthy(thrown) ==> general == thrown.value
    ensures !Truthy(thrown) ==> general == DefaultLoginError
    ensures general != ""
  {
    OrElse(thrown, DefaultLoginError)
  }

  /** With the corrected text, a refusal's own message reaches the form, and a failure that
      carries no message shows the default text instead of nothing. */
  lemma IntendedShowsServerMessage(message: string, text: string)
    requires message != ""
    ensures GeneralError(AuthContext.LoginThrown(AuthContext.RaisedBody(Some(message)))) == message
    ensures GeneralError(AuthContext.LoginThrown(AuthContext.RaisedText(text))) == DefaultLoginError
    ensures GeneralErrorAsWritten(AuthContext.LoginThrown(AuthContext.RaisedText(text))) == None
  {
  }

  class LoginForm {
    var formData: map<string, string>
    var errors: map<string, string>

    constructor ()
      ensures formData == map[UsernameKey := "", PasswordKey := ""] && errors == map[]
    {
      formData := map[UsernameKey := "", PasswordKey := ""];
      errors := map[];
    }

    /** `handleInputChange`: only the named field changes; its error is blanked only when one
        is showing, and the other errors stay. */
    method HandleInputChange(field: string, value: string)
      modifies this
      ensures formData == old(formData)[field := value]
      ensures errors == if field in old(errors) && old(errors)[field] != "" then old(errors)[field := ""] else old(errors)
    {
      formData := formData[field := value];
      if field in errors && errors[field] != "" {
        errors := errors[field := ""];
      }
    }

    /** `validateForm`: the error map is replaced wholesale; valid iff neither field is empty. */
    method ValidateForm() returns (valid: bool)
      modifies this`errors
      ensures errors == FormErrors(formData)
      ensures valid <==> FieldValue(formData, UsernameKey) != "" && FieldValue(formData, PasswordKey) != ""
    {
      errors := FormErrors(formData);
      valid := |errors.Keys| == 0;
      assert valid ==> UsernameKey !in errors && PasswordKey !in errors;
      if !valid {
        assert UsernameKey in errors || PasswordKey in errors;
      }
    }

    /** `handleSubmit`: an invalid form stops at validation; otherwise the auth context's
        `login` runs and success goes home (`navigated`). A failure shows what the catch block
        computes from the thrown value (GeneralErrorAsWritten): the default text for a thrown
        string; for `undefined` the catch block itself throws, so the empty error map that
        validation left stays. */
    method HandleSubmit(session: AuthContext.Session, store: Storage.LocalStore, reply: AuthContext.LoginReply)
      returns (navigated: bool)
      modifies this`errors, session`user, session`isAuthenticated, session`isLoading,
               store`authToken, store`userId, store`user
      ensures FieldValue(formData, UsernameKey) == "" || FieldValue(formData, PasswordKey) == "" ==>
        && !navigated && errors == FormErrors(formData)
        && session.user == old(session.user) && session.isAuthenticated == old(session.isAuthenticated)
        && session.isLoading == old(session.isLoading)
        && store.authToken == old(store.authToken) && store.userId == old(store.userId) && store.user == old(store.user)
      ensures FieldValue(formData, UsernameKey) != "" && FieldValue(formData, PasswordKey) != "" ==>
        && !session.isLoading
        && (reply.Answered? && reply.status == AuthContext.SuccessStatus ==>
              navigated && errors == map[] && session.isAuthenticated
              && store.authToken == Some(reply.authToken) && store.userId == Some(reply.userId)
              && store.user == Some(AuthContext.ExtractUserInfo(reply.me)) && session.user == store.user)
        && (!(reply.Answered? && reply.status == AuthContext.SuccessStatus) ==>
              !navigated
              && errors == (var shown := GeneralErrorAsWritten(AuthContext.LoginThrown(reply));
                            if shown.Some? then map[GeneralKey := shown.value] else map[])
              && session.user == old(session.user) && session.isAuthenticated == old(session.isAuthenticated)
              && store.authToken == old(store.authToken) && store.userId == old(store.userId)
              && store.user == old(store.user))
    {
      var valid := ValidateForm();
      if !valid {
        return false;
      }
      var end := session.Login(store, reply);
      match end {
        case LoggedIn =>
          navigated := true;
        case LoginThrew(thrown) =>
          var shown := GeneralErrorAsWritten(thrown);
          if shown.Some? {
            errors := map[GeneralKey := shown.value];
          }
          navigated := false;
      }
    }
  }
}
