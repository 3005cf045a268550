/**
 * The sign-up page (app/signup/page.tsx): the form that names the company
 * and its first administrator, and the submit handler that registers both
 * and stores the session token it gets back.
 */
module Signup {
  import opened Wrappers
  import opened Web

  const SignupFallback := "Erro ao criar conta. Tente novamente."

  /** The three inputs, identified by their `name` attribute. */
  datatype Field = CompanyName | Email | Password

  datatype FormData = FormData(companyName: string, email: string, password: string)

  /** `{ ...prev, [name]: value }`. */
  function WithField(f: FormData, field: Field, value: string): FormData {
    match field
    case CompanyName => f.(companyName := value)
    case Email => f.(email := value)
    case Password => f.(password := value)
  }

  function FieldValue(f: FormData, field: Field): string {
    match field
    case CompanyName => f.companyName
    case Email => f.email
    case Password => f.password
  }

  /** A change sets the named input to the new value and leaves the other two as they were. */
  lemma WithFieldOnlyThat(f: FormData, field: Field, value: string)
    ensures FieldValue(WithField(f, field, value), field) == value
    ensures forall other :: other != field ==> FieldValue(WithField(f, field, value), other) == FieldValue(f, other)
  {
  }

  /** The body of `POST /companies/register`: the company, a fixed segment, and the administrator's credentials. */
  function RegisterJson(f: FormData): Json {
    JObject([
      ("companyName", JString(f.companyName)),
      ("segment", JString("General")),
      ("adminEmail", JString(f.email)),
      ("adminPassword", JString(f.password))])
  }

  function RegisterRequest(f: FormData): Request {
    Request(POST, Api("/companies/register"), None, Some(RegisterJson(f)))
  }

  /** The e-mail and password go out as the administrator's, and the segment is always "General". */
  lemma RegisterFields(f: FormData)
    ensures Member(RegisterJson(f), "companyName") == Some(JString(f.companyName))
    ensures Member(RegisterJson(f), "segment") == Some(JString("General"))
    ensures Member(RegisterJson(f), "adminEmail") == Some(JString(f.email))
    ensures Member(RegisterJson(f), "adminPassword") == Some(JString(f.password))
    ensures Member(RegisterJson(f), "email") == None && Member(RegisterJson(f), "password") == None
  {
    var ms := RegisterJson(f).members;
    assert forall a, b :: 0 <= a < b < |ms| ==> ms[a].0 != ms[b].0;
    LookupDistinct(ms, 0);
    LookupDistinct(ms, 1);
    LookupDistinct(ms, 2);
    LookupDistinct(ms, 3);
    LookupAbsent(ms, "email");
    LookupAbsent(ms, "password");
  }

  class SignupPage {
    var isLoading: bool
    /** None is `null`, no message. */
    var error: Option<string>
    var formData: FormData
    const window: Browser

    constructor (window: Browser)
      ensures this.window == window
      ensures !isLoading && error == None && formData == FormData("", "", "")
    {
      this.window := window;
      isLoading := false;
      error := None;
      formData := FormData("", "", "");
    }

    /** `handleChange`: update the named input and clear the error. */
    method HandleChange(field: Field, value: string)
      modifies this
      ensures formData == WithField(old(formData), field, value)
      ensures error == None && isLoading == old(isLoading)
    {
      formData := WithField(formData, field, value);
      error := None;
    }

    /**
     * `handleSubmit`, with `reply` the outcome of the POST. A granted session
     * is stored and leads to /employees with `isLoading` left true for the
     * redirect; a refused one shows its message and ends the loading.
     */
    method HandleSubmit(reply: Fetched<AuthBody>)
      modifies this, window
      ensures window.requests == old(window.requests) + [RegisterRequest(old(formData))]
      ensures formData == old(formData)
      ensures AuthOutcome(reply, SignupFallback).Granted? ==>
        && window.storage == old(window.storage)[TokenKey := AuthOutcome(reply, SignupFallback).token]
        && window.history == old(window.history) + [Push("/employees")]
        && isLoading && error == None
      ensures AuthOutcome(reply, SignupFallback).Refused? ==>
        && window.storage == old(window.storage) && window.history == old(window.history)
        && !isLoading && error == Some(AuthOutcome(reply, SignupFallback).message)
    {
      isLoading := true;
      error := None;
      window.Send(RegisterRequest(formData));
      var outcome := AuthOutcome(reply, SignupFallback);
      if outcome.Granted? {
        window.SetItem(TokenKey, outcome.token);
        window.Navigate(Push("/employees"));
        return;
      }
      error := Some(outcome.message);
      isLoading := false;
    }
  }
}
