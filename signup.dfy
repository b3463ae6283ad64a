/** The sign-up form (src/pages/auth/Signup.tsx): the fields the user fills in, the
    two password checks that run before anything is sent, and the profile handed
    to the sign-up service. The service itself is outside the model; its outcome
    is a parameter. */
module Signup {
  datatype FormData = FormData(
    firstName: string, lastName: string, email: string,
    password: string, confirmPassword: string,
    lifestyle: string, currency: string)

  /** The form as it opens: every field empty except the currency. */
  const InitialForm: FormData := FormData("", "", "", "", "", "", "USD")

  datatype Field = FirstName | LastName | Email | Password | ConfirmPassword | Lifestyle | Currency

  /** The value the form holds in one field. */
  function Get(f: FormData, field: Field): string
  {
    match field
    case FirstName => f.firstName
    case LastName => f.lastName
    case Email => f.email
    case Password => f.password
    case ConfirmPassword => f.confirmPassword
    case Lifestyle => f.lifestyle
    case Currency => f.currency
  }

  /** The form with one field replaced by what the user typed: that field reads
      the new value and every other field reads as before. */
  function WithField(f: FormData, field: Field, value: string): (r: FormData)
    ensures Get(r, field) == value
    ensures forall g :: g != field ==> Get(r, g) == Get(f, g)
  {
    match field
    case FirstName => f.(firstName := value)
    case LastName => f.(lastName := value)
    case Email => f.(email := value)
    case Password => f.(password := value)
    case ConfirmPassword => f.(confirmPassword := value)
    case Lifestyle => f.(lifestyle := value)
    case Currency => f.(currency := value)
  }

  /** A form is determined by what it holds in its fields, so `WithField`'s
      contract fixes its result. */
  lemma FieldsDetermineForm(f: FormData, h: FormData)
    requires forall g :: Get(f, g) == Get(h, g)
    ensures f == h
  {
    assert Get(f, FirstName) == Get(h, FirstName);
    assert Get(f, LastName) == Get(h, LastName);
    assert Get(f, Email) == Get(h, Email);
    assert Get(f, Password) == Get(h, Password);
    assert Get(f, ConfirmPassword) == Get(h, ConfirmPassword);
    assert Get(f, Lifestyle) == Get(h, Lifestyle);
    assert Get(f, Currency) == Get(h, Currency);
  }

  /** The profile sent along with the credentials. */
  datatype UserData = UserData(first_name: string, last_name: string, lifestyle: string, currency: string, full_name: string)

  const MismatchMessage: string := "Passwords don't match"
  const TooShortMessage: string := "Password must be at least 6 characters"
  const MinPasswordLength: nat := 6

  /** The outcome of submitting: an error message, or a request to the sign-up service. */
  datatype SubmitOutcome =
    | Rejected(message: string)
    | SignUpRequested(email: string, password: string, userData: UserData)

  /** The profile built from the form: the names, lifestyle and currency copied, and
      the full name made of the first name, one space and the last name. */
  function Profile(f: FormData): (u: UserData)
    ensures u.first_name == f.firstName && u.last_name == f.lastName
    ensures u.lifestyle == f.lifestyle && u.currency == f.currency
    ensures |u.full_name| == |f.firstName| + 1 + |f.lastName|
    ensures u.full_name[..|f.firstName|] == f.firstName
    ensures u.full_name[|f.firstName|] == ' '
    ensures u.full_name[|f.firstName| + 1..] == f.lastName
  {
    var full := f.firstName + " " + f.lastName;
    assert full[..|f.firstName|] == f.firstName;
    assert full[|f.firstName| + 1..] == f.lastName;
    UserData(f.firstName, f.lastName, f.lifestyle, f.currency, full)
  }

  /** The checks in the order the page runs them: a mismatch is reported first,
      whatever the length; then a password shorter than 6 characters; only a form
      that passes both reaches the sign-up service. */
  function Validate(f: FormData): (r: SubmitOutcome)
    ensures f.password != f.confirmPassword ==> r == Rejected(MismatchMessage)
    ensures f.password == f.confirmPassword && |f.password| < MinPasswordLength ==> r == Rejected(TooShortMessage)
    ensures r.SignUpRequested? <==> f.password == f.confirmPassword && |f.password| >= MinPasswordLength
    ensures r.SignUpRequested? ==> r.email == f.email && r.password == f.password && r.userData == Profile(f)
  {
    if f.password != f.confirmPassword then Rejected(MismatchMessage)
    else if |f.password| < MinPasswordLength then Rejected(TooShortMessage)
    else SignUpRequested(f.email, f.password, Profile(f))
  }

  /** A password that reaches the service is at least 6 characters long and was typed
      identically twice. */
  lemma RequestedPasswordIsConfirmed(f: FormData)
    requires Validate(f).SignUpRequested?
    ensures |Validate(f).password| >= 6 && Validate(f).password == f.confirmPassword
  {
  }

  /** The form's state: the fields and whether a sign-up is in flight. */
  class SignupPage {
    var formData: FormData
    var isLoading: bool

    constructor ()
      ensures formData == InitialForm && !isLoading
      ensures formData.currency == "USD"
    {
      formData := InitialForm;
      isLoading := false;
    }

    /** Records what the user typed into one field. */
    method HandleChange(field: Field, value: string)
      modifies this
      ensures formData == WithField(old(formData), field, value)
      ensures isLoading == old(isLoading)
    {
      formData := WithField(formData, field, value);
    }

    /** Submits the form. A rejected form changes nothing. Otherwise the page marks
        itself loading and calls the service; `serviceFails` is the service's answer,
        and a failure clears the loading mark again. */
    method HandleSubmit(serviceFails: bool) returns (outcome: SubmitOutcome)
      modifies this
      ensures outcome == Validate(old(formData))
      ensures formData == old(formData)
      ensures outcome.Rejected? ==> isLoading == old(isLoading)
      ensures outcome.SignUpRequested? ==> isLoading == !serviceFails
    {
      outcome := Validate(formData);
      if outcome.SignUpRequested? {
        isLoading := true;
        if serviceFails {
          isLoading := false;
        }
      }
    }
  }
}
