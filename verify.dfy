/** The e-mail verification page: the one-time-code sanitiser and the verify and resend handlers. */
module VerifyPage {
  import opened Remote
  import opened JsStrings

  predicate IsDigit(c: char) {
    '0' <= c <= '9'
  }

  /** `value.replace(/\D/g, "")`: the digits of `s`, in their order. */
  function DigitsOf(s: string): (r: string)
    ensures |r| <= |s|
    ensures forall i :: 0 <= i < |r| ==> IsDigit(r[i])
    ensures forall c :: c in r <==> c in s && IsDigit(c)
  {
    if s == [] then []
    else if IsDigit(s[0]) then [s[0]] + DigitsOf(s[1..])
    else DigitsOf(s[1..])
  }

  /** Removing non-digits distributes over concatenation, so the digits keep their order. */
  lemma {:induction false} DigitsOfAppend(a: string, b: string)
    ensures DigitsOf(a + b) == DigitsOf(a) + DigitsOf(b)
  {
    if a == [] {
      assert a + b == b;
    } else {
      assert (a + b)[0] == a[0] && (a + b)[1..] == a[1..] + b;
      DigitsOfAppend(a[1..], b);
    }
  }

  /** One character is kept exactly when it is a digit; with `DigitsOfAppend` this fixes `DigitsOf` on every string. */
  lemma DigitsOfChar(c: char)
    ensures DigitsOf([c]) == if IsDigit(c) then [c] else []
  {
    assert [c][1..] == [];
  }

  /** A string of digits only is left as it is. */
  lemma {:induction false} DigitsOfDigits(s: string)
    requires forall i :: 0 <= i < |s| ==> IsDigit(s[i])
    ensures DigitsOf(s) == s
  {
    if s != [] {
      DigitsOfDigits(s[1..]);
    }
  }

  const CodeLength := 6

  /** `handleCodeChange`: `value.replace(/\D/g, "").slice(0, 6)`, the first six digits at most. */
  function SanitiseCode(s: string): (r: string)
    ensures |r| <= CodeLength
    ensures forall i :: 0 <= i < |r| ==> IsDigit(r[i])
    ensures |r| == if |DigitsOf(s)| < CodeLength then |DigitsOf(s)| else CodeLength
    ensures r == DigitsOf(s)[..|r|]
  {
    var d := DigitsOf(s);
    if |d| <= CodeLength then d else d[..CodeLength]
  }

  /** Sanitising a sanitised code changes nothing. */
  lemma SanitiseIdempotent(s: string)
    ensures SanitiseCode(SanitiseCode(s)) == SanitiseCode(s)
  {
    DigitsOfDigits(SanitiseCode(s));
  }

  /** Typing more after six digits does not change the code. */
  lemma SanitiseIgnoresTail(s: string, t: string)
    requires |DigitsOf(s)| >= CodeLength
    ensures SanitiseCode(s + t) == SanitiseCode(s)
  {
    var d, e := DigitsOf(s), DigitsOf(s + t);
    DigitsOfAppend(s, t);
    assert e == d + DigitsOf(t);
    assert e[..CodeLength] == d[..CodeLength];
    assert SanitiseCode(s) == d[..CodeLength];
    assert SanitiseCode(s + t) == e[..CodeLength];
  }

  const BothRequired := "Please enter both email and verification code"
  const SixDigits := "Verification code must be 6 digits"

  /** The two checks of `handleVerify`, in their order; `None` lets the call go ahead. */
  function ValidateVerify(email: string, code: string): (r: Option<string>)
    ensures r == None <==> email != "" && |code| == CodeLength
    ensures email == "" || code == "" ==> r == Some(BothRequired)
    ensures email != "" && code != "" && |code| != CodeLength ==> r == Some(SixDigits)
  {
    if !Truthy(email) || !Truthy(code) then Some(BothRequired)
    else if |code| != CodeLength then Some(SixDigits)
    else None
  }

  /** A code entered through the input passes the checks exactly when six digits were typed. */
  lemma SanitisedCodeAccepted(email: string, typed: string)
    ensures ValidateVerify(email, SanitiseCode(typed)) == None
            <==> email != "" && |DigitsOf(typed)| >= CodeLength
  {
  }

  /** The e-mail the page starts with: the `email` URL parameter when it is present and non-empty. */
  function EmailFromParam(emailParam: Option<string>): (email: string)
    ensures emailParam.Some? && emailParam.value != "" ==> email == emailParam.value
    ensures emailParam == None || emailParam == Some("") ==> email == ""
  {
    match emailParam
    case Some(e) => if Truthy(e) then e else ""
    case None => ""
  }

  /** The backend calls the page makes. */
  datatype AuthCall = VerifyOtp(email: string, token: string, kind: string) | Resend(kind: string, email: string)

  const VerifiedMessage := "Verification successful! Redirecting to dashboard..."
  const ResentMessage := "Verification code resent! Please check your email."

  class Verification {
    var email: string
    var code: string
    var loading: bool
    var error: string
    var success: string
    var resendLoading: bool
    /** The backend calls made so far, oldest first. */
    var calls: seq<AuthCall>

    /** Mounting the page with the `email` URL parameter (its decoding is not modelled). */
    constructor (emailParam: Option<string>)
      ensures email == EmailFromParam(emailParam)
      ensures code == "" && !loading && error == "" && success == "" && !resendLoading && calls == []
    {
      email := EmailFromParam(emailParam);
      code, loading, error, success, resendLoading, calls := "", false, "", "", false, [];
    }

    method HandleCodeChange(typed: string)
      modifies this
      ensures code == SanitiseCode(typed)
      ensures email == old(email) && loading == old(loading) && error == old(error)
      ensures success == old(success) && resendLoading == old(resendLoading) && calls == old(calls)
    {
      code := SanitiseCode(typed);
    }

    /**
     * `handleVerify`; `reply` is what `verifyOtp` would answer. The call is
     * made only when both checks pass, and `loading` ends false on every path.
     */
    method HandleVerify(reply: Reply)
      modifies this
      ensures !loading
      ensures email == old(email) && code == old(code) && resendLoading == old(resendLoading)
      ensures ValidateVerify(old(email), old(code)).Some? ==>
        calls == old(calls) && error == ValidateVerify(old(email), old(code)).value && success == ""
      ensures ValidateVerify(old(email), old(code)) == None ==>
        && calls == old(calls) + [VerifyOtp(old(email), old(code), "signup")]
        && error == (match reply case Ok => "" case Err(m) => m case Threw => "An unexpected error occurred")
        && success == (if reply.Ok? then VerifiedMessage else "")
    {
      error := "";
      success := "";
      loading := true;
      var invalid := ValidateVerify(email, code);
      if invalid.Some? {
        error := invalid.value;
        loading := false;
        return;
      }
      calls := calls + [VerifyOtp(email, code, "signup")];
      match reply {
        case Ok => success := VerifiedMessage;
        case Err(m) => error := m;
        case Threw => error := "An unexpected error occurred";
      }
      loading := false;
    }

    /** The resend button's `disabled` expression; an enabled button always leads to one `resend` call. */
    predicate ResendDisabled()
      reads this
    {
      resendLoading || !Truthy(email)
    }

    /**
     * `handleResendCode`; `reply` is what `resend` would answer. An empty
     * email only sets the error, leaving everything else, and makes no call.
     */
    method HandleResendCode(reply: Reply)
      modifies this
      ensures !resendLoading || (old(resendLoading) && old(email) == "")
      ensures !old(ResendDisabled()) ==> calls == old(calls) + [Resend("signup", old(email))]
      ensures email == old(email) && code == old(code) && loading == old(loading)
      ensures old(email) == "" ==>
        calls == old(calls) && error == "Please enter your email address"
        && success == old(success) && resendLoading == old(resendLoading)
      ensures old(email) != "" ==>
        && calls == old(calls) + [Resend("signup", old(email))]
        && !resendLoading
        && error == (match reply case Ok => "" case Err(m) => m case Threw => "Failed to resend verification code")
        && success == (if reply.Ok? then ResentMessage else "")
    {
      if !Truthy(email) {
        error := "Please enter your email address";
        return;
      }
      resendLoading := true;
      error := "";
      success := "";
      calls := calls + [Resend("signup", email)];
      match reply {
        case Ok => success := ResentMessage;
        case Err(m) => error := m;
        case Threw => error := "Failed to resend verification code";
      }
      resendLoading := false;
    }
  }
}
