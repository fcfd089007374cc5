/** The homeowner authentication endpoints: a table of fixed paths. */
module AuthEndpoints {
  import opened Wrappers

  datatype AuthEndpoint =
    | Login | Register | ForgotPassword | VerifyResetOtp | ResetPassword
    | SendEmailOtp | VerifyEmailOtp | SendPhoneOtp | VerifyPhoneOtp | UpdateProfile

  const Prefix := "/api/homeowners/"

  /** The part of the path after the prefix. */
  function Name(e: AuthEndpoint): string {
    match e
    case Login => "login"
    case Register => "create"
    case ForgotPassword => "forgot-password"
    case VerifyResetOtp => "verify-reset-otp"
    case ResetPassword => "reset-password"
    case SendEmailOtp => "send-email-otp"
    case VerifyEmailOtp => "verify-email-otp"
    case SendPhoneOtp => "send-phone-otp"
    case VerifyPhoneOtp => "verify-phone-otp"
    case UpdateProfile => "update-profile"
  }

  /** `authEndpoints[e]()`: every entry returns its own constant path under the prefix. */
  function Path(e: AuthEndpoint): (p: string)
    ensures Prefix <= p && p[|Prefix|..] == Name(e)
  {
    Prefix + Name(e)
  }

  /** Which endpoint a path names, if any. */
  function EndpointOf(p: string): (r: Option<AuthEndpoint>)
    ensures r.Some? ==> Path(r.value) == p
  {
    if !(Prefix <= p) then None
    else
      var n := p[|Prefix|..];
      assert p == Prefix + n;
      if n == "login" then Some(Login)
      else if n == "create" then Some(Register)
      else if n == "forgot-password" then Some(ForgotPassword)
      else if n == "verify-reset-otp" then Some(VerifyResetOtp)
      else if n == "reset-password" then Some(ResetPassword)
      else if n == "send-email-otp" then Some(SendEmailOtp)
      else if n == "verify-email-otp" then Some(VerifyEmailOtp)
      else if n == "send-phone-otp" then Some(SendPhoneOtp)
      else if n == "verify-phone-otp" then Some(VerifyPhoneOtp)
      else if n == "update-profile" then Some(UpdateProfile)
      else None
  }

  /** Every path names its endpoint back. */
  lemma PathNamesEndpoint(e: AuthEndpoint)
    ensures EndpointOf(Path(e)) == Some(e)
  {
    assert Path(e)[|Prefix|..] == Name(e);
  }

  /** So the ten paths are pairwise distinct. */
  lemma {:induction false} PathsDistinct(e: AuthEndpoint, f: AuthEndpoint)
    requires e != f
    ensures Path(e) != Path(f)
  {
    PathNamesEndpoint(e);
    PathNamesEndpoint(f);
  }

  lemma NamedPaths()
    ensures Path(Register) == "/api/homeowners/create"
    ensures Path(UpdateProfile) == "/api/homeowners/update-profile"
  {
  }
}
