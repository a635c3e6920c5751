/** The login page: two text fields, and the reduction of whatever error
    value the login action returns to the one message the page shows. */
module LoginForm {
  import opened Common
  import Js
  import AuthContext

  const FallbackMessage := "Invalid email or password"
  const DashboardRoute := "/dashboard"

  /** What the page makes of a failed login's error value: a value to show,
      or a thrown TypeError (`Object.keys(null)`). */
  datatype Shown = Show(message: Js.Value) | Throws

  /** A string is shown as it is; for an object or array the value under
      its first key decides (its first element if it is a non-empty array,
      itself if it is a string, else the fallback); anything else shows the
      fallback. `null`, whose `typeof` is 'object', throws. */
  function ErrorMessage(e: Js.Value): (r: Shown)
    ensures e.Str? ==> r == Show(e)
    ensures e.Null? <==> r == Throws
    ensures (e.Obj? || e.Arr?) && Js.FirstKeyValue(e).Arr? && |Js.FirstKeyValue(e).items| > 0 ==>
              r == Show(Js.FirstKeyValue(e).items[0])
    ensures (e.Obj? || e.Arr?) && Js.FirstKeyValue(e).Str? ==> r == Show(Js.FirstKeyValue(e))
    ensures (e.Obj? || e.Arr?) && !Js.FirstKeyValue(e).Str? && !(Js.FirstKeyValue(e).Arr? && |Js.FirstKeyValue(e).items| > 0)
            ==> r == Show(Js.Str(FallbackMessage))
    ensures e.Undefined? || e.Bool? || e.Num? ==> r == Show(Js.Str(FallbackMessage))
  {
    match e
    case Str(_) => Show(e)
    case Null => Throws
    case Obj(_) => FromFirstKey(e)
    case Arr(_) => FromFirstKey(e)
    case _ => Show(Js.Str(FallbackMessage))
  }

  function FromFirstKey(e: Js.Value): Shown
    requires e.Obj? || e.Arr?
  {
    var v := Js.FirstKeyValue(e);
    if v.Arr? && |v.items| > 0 then Show(v.items[0])
    else if v.Str? then Show(v)
    else Show(Js.Str(FallbackMessage))
  }

  /** The login action's errors are always truthy, so they never make the
      page throw. */
  lemma LoginErrorsAreShown(data: Js.Value)
    ensures ErrorMessage(AuthContext.LoginError(data)).Show?
  {
  }

  /** A per-field error object such as `{email: ["Enter a valid email."]}`
      shows its first field's first message. */
  lemma FieldErrorsShowFirstMessage(field: string, first: string, rest: seq<Js.Value>, more: seq<(string, Js.Value)>)
    ensures ErrorMessage(Js.Obj([(field, Js.Arr([Js.Str(first)] + rest))] + more)) == Show(Js.Str(first))
  {
    assert Js.FirstKeyValue(Js.Obj([(field, Js.Arr([Js.Str(first)] + rest))] + more)) == Js.Arr([Js.Str(first)] + rest);
  }

  class Login {
    /** The form data: `email` and `password`, plus any other input name. */
    var formData: map<string, string>
    /** The error on screen; the empty string shows nothing. */
    var error: Js.Value
    var isLoading: bool
    var showPassword: bool
    var navigatedTo: Option<string>

    constructor ()
      ensures formData == map["email" := "", "password" := ""] && error == Js.Str("")
      ensures !isLoading && !showPassword && navigatedTo == None
    {
      formData := map["email" := "", "password" := ""];
      error := Js.Str("");
      isLoading := false;
      showPassword := false;
      navigatedTo := None;
    }

    predicate Valid()
      reads this
    {
      "email" in formData && "password" in formData
    }

    /** Typing writes the named field and clears the error. */
    method HandleChange(name: string, value: string)
      requires Valid()
      modifies this
      ensures Valid()
      ensures formData == old(formData)[name := value] && error == Js.Str("")
      ensures isLoading == old(isLoading) && showPassword == old(showPassword) && navigatedTo == old(navigatedTo)
    {
      formData := formData[name := value];
      error := Js.Str("");
    }

    method TogglePassword()
      modifies this
      ensures showPassword == !old(showPassword)
      ensures formData == old(formData) && error == old(error) && isLoading == old(isLoading) && navigatedTo == old(navigatedTo)
    {
      showPassword := !showPassword;
    }

    /** Submitting sends the current credentials and, once `result` is in,
      goes to the dashboard or shows the error. `threw` is set when the
      error extraction throws; then the loading flag stays on. */
    method HandleSubmit(result: AuthContext.AuthResult) returns (email: string, password: string, threw: bool)
      requires Valid()
      modifies this
      ensures Valid() && formData == old(formData)
      ensures email == old(formData)["email"] && password == old(formData)["password"]
      ensures result.success ==> navigatedTo == Some(DashboardRoute) && error == Js.Str("") && !threw && !isLoading
      ensures !result.success && result.error.None? ==>
                navigatedTo == old(navigatedTo) && error == Js.Str(FallbackMessage) && !threw && !isLoading
      ensures !result.success && result.error.Some? ==>
                navigatedTo == old(navigatedTo)
                && (threw <==> ErrorMessage(result.error.value) == Throws)
                && (threw ==> isLoading && error == Js.Str(""))
                && (!threw ==> !isLoading && error == ErrorMessage(result.error.value).message)
      ensures showPassword == old(showPassword)
    {
      error := Js.Str("");
      isLoading := true;
      email, password := formData["email"], formData["password"];
      threw := false;
      if result.success {
        navigatedTo := Some(DashboardRoute);
      } else {
        var shown := ErrorMessage(if result.error.Some? then result.error.value else Js.Undefined);
        if shown == Throws {
          return email, password, true;
        }
        error := shown.message;
      }
      isLoading := false;
    }
  }
}
