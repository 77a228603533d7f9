/** The sign-up page: password checks before the backend `signUp` call. */
module SignUpPage {
  import opened Remote
  import VerifyPage

  datatype SignUpForm = SignUpForm(
    firstName: string,
    lastName: string,
    email: string,
    address: string,
    password: string,
    confirmPassword: string)

  const Mismatch := "Passwords do not match"
  const TooShort := "Password must be at least 6 characters long"
  const MinPasswordLength := 6

  /** The two checks of `handleSubmit`, mismatch first; `None` lets the call go ahead. */
  function ValidatePasswords(password: string, confirm: string): (r: Option<string>)
    ensures r == None <==> password == confirm && |password| >= MinPasswordLength
    ensures password != confirm ==> r == Some(Mismatch)
    ensures password == confirm && |password| < MinPasswordLength ==> r == Some(TooShort)
  {
    if password != confirm then Some(Mismatch)
    else if |password| < MinPasswordLength then Some(TooShort)
    else None
  }

  /** The mismatch check wins: a short pair that differs reports the mismatch, not the length. */
  lemma MismatchReportedFirst(password: string, confirm: string)
    requires password != confirm && |password| < MinPasswordLength
    ensures ValidatePasswords(password, confirm) == Some(Mismatch)
  {
  }

  datatype Metadata = Metadata(firstName: string, lastName: string, address: string, role: string)

  /** The arguments of `supabase.auth.signUp`. */
  datatype SignUpCall = SignUpCall(email: string, password: string, data: Metadata)

  /** The request built from the form; every new account asks for the role `user`. */
  function SignUpRequest(f: SignUpForm): (c: SignUpCall)
    ensures c.data.role == "user"
    ensures c.email == f.email && c.password == f.password
    ensures c.data.firstName == f.firstName && c.data.lastName == f.lastName && c.data.address == f.address
  {
    SignUpCall(f.email, f.password, Metadata(f.firstName, f.lastName, f.address, "user"))
  }

  /** Where a successful sign-up goes: the verify page, carrying the e-mail. */
  function VerifyRoute(email: string): (r: Route)
    ensures r.path == "/verify" && r.query.Keys == {"email"} && r.query["email"] == email
  {
    Route("/verify", map["email" := email])
  }

  /** The verify page opened from that route starts with the e-mail that signed up. */
  lemma VerifyRouteCarriesEmail(f: SignUpForm)
    ensures VerifyPage.EmailFromParam(Some(VerifyRoute(f.email).query["email"])) == f.email
  {
  }

  class SignUp {
    var formData: SignUpForm
    var loading: bool
    var error: string
    /** The `signUp` calls made so far, oldest first. */
    var calls: seq<SignUpCall>
    /** The routes pushed so far, oldest first. */
    var pushed: seq<Route>

    constructor ()
      ensures formData == SignUpForm("", "", "", "", "", "")
      ensures !loading && error == "" && calls == [] && pushed == []
    {
      formData := SignUpForm("", "", "", "", "", "");
      loading, error, calls, pushed := false, "", [], [];
    }

    /**
     * `handleSubmit`; `reply` is what `signUp` would answer. The call is made
     * only when both checks pass; `loading` ends false on every path.
     */
    method HandleSubmit(reply: Reply)
      modifies this
      ensures !loading && formData == old(formData)
      ensures ValidatePasswords(formData.password, formData.confirmPassword).Some? ==>
        && error == ValidatePasswords(formData.password, formData.confirmPassword).value
        && calls == old(calls) && pushed == old(pushed)
      ensures ValidatePasswords(formData.password, formData.confirmPassword) == None ==>
        && calls == old(calls) + [SignUpRequest(formData)]
        && error == (match reply case Ok => "" case Err(m) => m case Threw => "An unexpected error occurred")
        && pushed == old(pushed) + (if reply.Ok? then [VerifyRoute(formData.email)] else [])
    {
      error := "";
      loading := true;
      var invalid := ValidatePasswords(formData.password, formData.confirmPassword);
      if invalid.Some? {
        error := invalid.value;
        loading := false;
        return;
      }
      calls := calls + [SignUpRequest(formData)];
      match reply {
        case Ok => pushed := pushed + [VerifyRoute(formData.email)];
        case Err(m) => error := m;
        case Threw => error := "An unexpected error occurred";
      }
      loading := false;
    }
  }
}
