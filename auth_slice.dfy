/** The authentication slice of the store: the state of the signed-in homeowner, one
    status/error pair per request flow, and the reducers that move them. Each async thunk
    posts to one endpoint of the auth table, so the endpoint also names the flow; the
    login flow owns the slice's top-level `status` and `error`. */
module AuthSlice {
  import opened Wrappers
  import opened Json
  import opened AuthEndpoints
  import Client

  // ----- the user record -----

  /** `AuthUser`; `None` in an optional field stands for both `null` and a missing key. */
  datatype AuthUser = AuthUser(
    userId: int,
    firstName: string,
    lastName: string,
    email: string,
    emailVerified: Option<bool>,
    phoneVerified: Option<bool>,
    addressLine1: Option<string>,
    city: Option<string>,
    state: Option<string>,
    zip: Option<string>,
    createdAt: Option<string>,
    lastLoginAt: Option<string>,
    phone: Option<string>)

  /** The fulfilled payload of `updateProfileHomeowner`: an optional full `user`, and the
      same profile fields possibly repeated at the top level. */
  datatype ProfileUpdate = ProfileUpdate(
    user: Option<AuthUser>,
    firstName: Option<string>,
    lastName: Option<string>,
    addressLine1: Option<string>,
    city: Option<string>,
    state: Option<string>,
    zip: Option<string>)

  const NoUpdate := ProfileUpdate(None, None, None, None, None, None, None)

  /** `updated?.f ?? incoming?.f ?? current.f` for a field that may be absent. */
  function Pick(updated: Option<string>, incoming: Option<string>, current: Option<string>): (r: Option<string>)
    ensures updated.Some? ==> r == updated
    ensures updated.None? && incoming.Some? ==> r == incoming
    ensures updated.None? && incoming.None? ==> r == current
  {
    updated.OrElse(incoming).OrElse(current)
  }

  /** The merge applied to a signed-in user when a profile update succeeds. */
  function MergeProfile(current: AuthUser, p: ProfileUpdate): (u: AuthUser)
    // The identity, contact and verification fields are never touched.
    ensures u.userId == current.userId && u.email == current.email && u.phone == current.phone
    ensures u.emailVerified == current.emailVerified && u.phoneVerified == current.phoneVerified
    ensures u.createdAt == current.createdAt && u.lastLoginAt == current.lastLoginAt
    // A returned user wins for the names; otherwise a top-level name, otherwise the old one.
    ensures p.user.Some? ==> u.firstName == p.user.value.firstName && u.lastName == p.user.value.lastName
    ensures p.user.None? ==> u.firstName == p.firstName.GetOr(current.firstName)
    ensures p.user.None? ==> u.lastName == p.lastName.GetOr(current.lastName)
    // Each address field: the returned user's value, else the top-level one, else the old one.
    ensures u.addressLine1 == (if p.user.Some? && p.user.value.addressLine1.Some? then p.user.value.addressLine1
                               else if p.addressLine1.Some? then p.addressLine1 else current.addressLine1)
    ensures u.city == (if p.user.Some? && p.user.value.city.Some? then p.user.value.city
                       else if p.city.Some? then p.city else current.city)
    ensures u.state == (if p.user.Some? && p.user.value.state.Some? then p.user.value.state
                        else if p.state.Some? then p.state else current.state)
    ensures u.zip == (if p.user.Some? && p.user.value.zip.Some? then p.user.value.zip
                      else if p.zip.Some? then p.zip else current.zip)
  {
    var updated := p.user;
    current.(
      firstName := if updated.Some? then updated.value.firstName else p.firstName.GetOr(current.firstName),
      lastName := if updated.Some? then updated.value.lastName else p.lastName.GetOr(current.lastName),
      addressLine1 := Pick(if updated.Some? then updated.value.addressLine1 else None, p.addressLine1, current.addressLine1),
      city := Pick(if updated.Some? then updated.value.city else None, p.city, current.city),
      state := Pick(if updated.Some? then updated.value.state else None, p.state, current.state),
      zip := Pick(if updated.Some? then updated.value.zip else None, p.zip, current.zip))
  }

  /** The user after a successful profile update: merged when someone is signed in,
      otherwise the returned user, if any. */
  function ProfileAfterUpdate(current: Option<AuthUser>, p: ProfileUpdate): (r: Option<AuthUser>)
    ensures current.Some? ==> r.Some? && r.value.userId == current.value.userId
    ensures current.Some? ==> r == Some(MergeProfile(current.value, p))
    ensures current.None? ==> r == p.user
  {
    if current.Some? then Some(MergeProfile(current.value, p))
    else if p.user.Some? then p.user
    else None
  }

  /** A payload without any field leaves the user as it was. */
  lemma EmptyUpdateKeepsUser(current: AuthUser)
    ensures MergeProfile(current, NoUpdate) == current
  {
  }

  /** Applying the same update twice gives what applying it once gives. */
  lemma {:induction false} MergeIdempotent(current: AuthUser, p: ProfileUpdate)
    ensures MergeProfile(MergeProfile(current, p), p) == MergeProfile(current, p)
  {
    var once := MergeProfile(current, p);
    assert Pick(if p.user.Some? then p.user.value.city else None, p.city, once.city) == once.city;
    assert Pick(if p.user.Some? then p.user.value.zip else None, p.zip, once.zip) == once.zip;
  }

  /** A full returned user decides every mergeable field it carries; the top-level copies
      only fill the gaps it leaves. */
  lemma ReturnedUserWins(current: AuthUser, p: ProfileUpdate)
    requires p.user.Some?
    ensures var u := MergeProfile(current, p); var given := p.user.value;
      && (given.addressLine1.Some? ==> u.addressLine1 == given.addressLine1)
      && (given.city.Some? ==> u.city == given.city)
      && (given.state.Some? ==> u.state == given.state)
      && (given.zip.Some? ==> u.zip == given.zip)
  {
  }

  // ----- the thunks' result mapping -----

  /** How a thunk settles: fulfilled with `response.data`, or rejected with a value. */
  datatype Settled = Fulfilled(data: Option<Json>) | Rejected(payload: Json)

  /** The default rejection message of each thunk, which its rejected case repeats. */
  function DefaultError(t: AuthEndpoint): (m: string)
    ensures m != []
    ensures t != Login && t != Register ==> |m| > 10 && m[..10] == "Failed to "
  {
    match t
    case Login => "Login failed"
    case Register => "Registration failed"
    case ForgotPassword => "Failed to send OTP"
    case VerifyResetOtp => "Failed to verify OTP"
    case ResetPassword => "Failed to reset password"
    case SendEmailOtp => "Failed to send email OTP"
    case VerifyEmailOtp => "Failed to verify email OTP"
    case SendPhoneOtp => "Failed to send phone OTP"
    case VerifyPhoneOtp => "Failed to verify phone OTP"
    case UpdateProfile => "Failed to update profile"
  }

  /** No two thunks share a default message, so the message names the operation. */
  lemma DefaultErrorDistinct(t: AuthEndpoint, t': AuthEndpoint)
    requires t != t'
    ensures DefaultError(t) != DefaultError(t')
  {
  }

  /** The request each thunk makes: a POST to its own endpoint; only the profile update
      sends the stored access token. */
  function ThunkRequest(t: AuthEndpoint, body: Json, accessToken: Option<string>): (o: Client.RequestOptions)
    ensures o.httpMethod == Client.POST && o.path == Path(t) && o.body == Some(body)
    ensures o.token.Some? <==> t == UpdateProfile && accessToken.Some?
    ensures t == UpdateProfile ==> o.token == accessToken
  {
    Client.RequestOptions(Client.POST, Path(t), Some(body), if t == UpdateProfile then accessToken else None)
  }

  /** Every thunk but `verifyResetOtpHomeowner`: `!response.success` rejects with
      `response.message ?? <default>`, anything else fulfils with `response.data`. */
  function Settle(t: AuthEndpoint, response: Client.ApiResponse): (s: Settled)
    ensures s.Fulfilled? <==> response.Succeeded()
    ensures s.Fulfilled? ==> s.data == response.Data()
    // A rejection always carries a value: the response's own message when it has one
    // (even an empty or non-string one), the thunk's default otherwise.
    ensures s.Rejected? ==> !IsNullish(Some(s.payload))
    ensures s.Rejected? && !IsNullish(response.Message()) ==> s.payload == response.Message().value
    ensures s.Rejected? && IsNullish(response.Message()) ==> s.payload == JString(DefaultError(t))
  {
    if !response.Succeeded() then
      var message := response.Message();
      Rejected(if IsNullish(message) then JString(DefaultError(t)) else message.value)
    else
      Fulfilled(response.Data())
  }

  const InvalidServerResponse := "Invalid server response"

  /** `raw?.reset_token ? raw : raw?.data`: the reset data may come bare or wrapped once
      more under `data`. */
  function ResetData(raw: Option<Json>): Option<Json> {
    if TruthyOpt(Field(raw, "reset_token")) then raw else Field(raw, "data")
  }

  /** `verifyResetOtpHomeowner`: as `Settle`, then the coerced data must carry a truthy
      `reset_token`. */
  function SettleResetOtp(response: Client.ApiResponse): (s: Settled)
    ensures s.Fulfilled? <==>
      && response.Succeeded()
      && (TruthyOpt(Field(response.Data(), "reset_token"))
          || TruthyOpt(Field(Field(response.Data(), "data"), "reset_token")))
    // What it fulfils with always has the token, and the bare form is preferred.
    ensures s.Fulfilled? ==> TruthyOpt(Field(s.data, "reset_token"))
    ensures s.Fulfilled? && TruthyOpt(Field(response.Data(), "reset_token")) ==> s.data == response.Data()
    ensures s.Fulfilled? && !TruthyOpt(Field(response.Data(), "reset_token")) ==>
      s.data == Field(response.Data(), "data")
    ensures response.Succeeded() && s.Rejected? ==> s.payload == JString(InvalidServerResponse)
    ensures !response.Succeeded() ==> s == Settle(VerifyResetOtp, response)
  {
    if !response.Succeeded() then Settle(VerifyResetOtp, response)
    else
      var data := ResetData(response.Data());
      if !TruthyOpt(Field(data, "reset_token")) then Rejected(JString(InvalidServerResponse))
      else Fulfilled(data)
  }

  /** The thunk mapping for any endpoint. */
  function SettleThunk(t: AuthEndpoint, response: Client.ApiResponse): (s: Settled)
    ensures t != VerifyResetOtp ==> s == Settle(t, response)
    ensures t == VerifyResetOtp ==> s == SettleResetOtp(response)
  {
    if t == VerifyResetOtp then SettleResetOtp(response) else Settle(t, response)
  }

  /** A non-2xx JSON object with a `message` (even an empty string) rejects the thunk with
      that message as text; the thunk's default is not used. */
  lemma {:induction false} ServerMessageRejects(t: AuthEndpoint, parse: string -> Parsed, status: int, text: string)
    requires !Client.IsOk(status) && text != []
    requires parse(text).Parsed? && parse(text).value.JObject?
    requires "message" in parse(text).value.fields && parse(text).value.fields["message"] != JNull
    ensures var a := Client.Execute(parse, Client.Response(status, text));
      a.Returned? && SettleThunk(t, a.response) == Rejected(JString(ToJsString(parse(text).value.fields["message"])))
  {
    var json := parse(text).value;
    assert Truthy(json);
    assert Client.MessageChain(json) == json.fields["message"];
  }

  /** A 2xx envelope `{success: false, …}` rejects like a failed response, with its
      message if it has one. */
  lemma EnvelopeFailureRejects(t: AuthEndpoint, fields: map<string, Json>)
    requires "success" in fields && fields["success"] == JBool(false)
    ensures SettleThunk(t, Client.Envelope(fields)).Rejected?
    ensures "message" in fields && fields["message"] != JNull ==>
      SettleThunk(t, Client.Envelope(fields)) == Rejected(fields["message"])
  {
  }

  /** The reset data wrapped under `data` is unwrapped; a bare one is taken as it is. */
  lemma {:induction false} ResetTokenShapes(token: string, inner: map<string, Json>, outer: map<string, Json>)
    requires token != [] && "reset_token" in inner && inner["reset_token"] == JString(token)
    requires "reset_token" !in outer && "data" in outer && outer["data"] == JObject(inner)
    ensures SettleResetOtp(Client.Normalized(true, None, Some(JObject(inner)))) == Fulfilled(Some(JObject(inner)))
    ensures SettleResetOtp(Client.Normalized(true, None, Some(JObject(outer)))) == Fulfilled(Some(JObject(inner)))
  {
    assert TruthyOpt(Field(Some(JObject(inner)), "reset_token"));
    assert Field(Some(JObject(outer)), "reset_token") == None;
  }

  // ----- the slice state -----

  datatype Status = Idle | Loading | Succeeded | Failed

  /** One flow's `status` and `error`. */
  datatype FlowState = FlowState(status: Status, error: Option<Json>)

  const IdleFlow := FlowState(Idle, None)

  /** Every case that sets a status sets the error with it: there is an error exactly
      when the flow failed. */
  predicate Consistent(s: FlowState) {
    s.status == Failed <==> s.error.Some?
  }

  /** A `fulfilled` action, with the part of its payload its case reads. The data of
      `login`, `register` and `updateProfile` is taken with its declared type. */
  datatype Fulfillment =
    | LoginOk(loginUser: AuthUser, token: string)
    | RegisterOk(registered: AuthUser)
    | ForgotPasswordOk
    | VerifyResetOtpOk(resetData: Json)
    | ResetPasswordOk
    | SendEmailOtpOk
    | VerifyEmailOtpOk
    | SendPhoneOtpOk
    | VerifyPhoneOtpOk
    | UpdateProfileOk(update: ProfileUpdate)
  {
    /** The thunk whose fulfilled action this is. */
    function Thunk(): AuthEndpoint {
      match this
      case LoginOk(_, _) => Login
      case RegisterOk(_) => Register
      case ForgotPasswordOk => ForgotPassword
      case VerifyResetOtpOk(_) => VerifyResetOtp
      case ResetPasswordOk => ResetPassword
      case SendEmailOtpOk => SendEmailOtp
      case VerifyEmailOtpOk => VerifyEmailOtp
      case SendPhoneOtpOk => SendPhoneOtp
      case VerifyPhoneOtpOk => VerifyPhoneOtp
      case UpdateProfileOk(_) => UpdateProfile
    }
  }

  /** The user after a fulfilled action. */
  function UserAfter(user: Option<AuthUser>, a: Fulfillment): (r: Option<AuthUser>)
    ensures a.LoginOk? ==> r == Some(a.loginUser)
    ensures a.RegisterOk? ==> r == Some(a.registered)
    // Verifying marks the signed-in user and never invents one.
    ensures a.VerifyEmailOtpOk? ==> r.Some? == user.Some? && (r.Some? ==> r.value == user.value.(emailVerified := Some(true)))
    ensures a.VerifyPhoneOtpOk? ==> r.Some? == user.Some? && (r.Some? ==> r.value == user.value.(phoneVerified := Some(true)))
    ensures a.UpdateProfileOk? ==> r == ProfileAfterUpdate(user, a.update)
    ensures !(a.LoginOk? || a.RegisterOk? || a.VerifyEmailOtpOk? || a.VerifyPhoneOtpOk? || a.UpdateProfileOk?) ==> r == user
  {
    match a
    case LoginOk(u, _) => Some(u)
    case RegisterOk(u) => Some(u)
    case VerifyEmailOtpOk => if user.Some? then Some(user.value.(emailVerified := Some(true))) else None
    case VerifyPhoneOtpOk => if user.Some? then Some(user.value.(phoneVerified := Some(true))) else None
    case UpdateProfileOk(p) => ProfileAfterUpdate(user, p)
    case _ => user
  }

  /** Only login and register can sign a user in; the other fulfilled cases keep "nobody
      signed in" as it is, unless a profile update returns a user. */
  lemma NoUserFromNothing(a: Fulfillment)
    requires !a.LoginOk? && !a.RegisterOk?
    requires a.UpdateProfileOk? ==> a.update.user.None?
    ensures UserAfter(None, a) == None
  {
  }

  /** The initial state of every flow. */
  const InitialFlows: map<AuthEndpoint, FlowState> := map[
    Login := IdleFlow, Register := IdleFlow, ForgotPassword := IdleFlow,
    VerifyResetOtp := IdleFlow, ResetPassword := IdleFlow, SendEmailOtp := IdleFlow,
    VerifyEmailOtp := IdleFlow, SendPhoneOtp := IdleFlow, VerifyPhoneOtp := IdleFlow,
    UpdateProfile := IdleFlow]

  /** The slice state, updated in place by its reducers. */
  class AuthStore {
    var accessToken: Option<string>
    var user: Option<AuthUser>
    /** `status`/`error` for login, and `<flow>Status`/`<flow>Error` for the others. */
    var flows: map<AuthEndpoint, FlowState>
    var resetToken: Option<Json>
    var resetTokenExpiresAt: Option<Json>

    /** Every flow has a state, and each state is consistent. */
    ghost predicate Valid()
      reads this
    {
      forall t: AuthEndpoint :: t in flows && Consistent(flows[t])
    }

    /** `initialState` */
    constructor ()
      ensures Valid()
      ensures accessToken == None && user == None
      ensures flows == InitialFlows
      ensures resetToken == None && resetTokenExpiresAt == None
    {
      accessToken := None;
      user := None;
      flows := InitialFlows;
      resetToken := None;
      resetTokenExpiresAt := None;
      new;
      forall t: AuthEndpoint ensures t in flows && Consistent(flows[t]) {
        match t
        case Login =>
        case Register =>
        case ForgotPassword =>
        case VerifyResetOtp =>
        case ResetPassword =>
        case SendEmailOtp =>
        case VerifyEmailOtp =>
        case SendPhoneOtp =>
        case VerifyPhoneOtp =>
        case UpdateProfile =>
      }
    }

    /** `setAccessToken` */
    method SetAccessToken(token: Option<string>)
      requires Valid()
      modifies this
      ensures Valid()
      ensures accessToken == token
      ensures user == old(user) && flows == old(flows)
      ensures resetToken == old(resetToken) && resetTokenExpiresAt == old(resetTokenExpiresAt)
    {
      accessToken := token;
    }

    /** `signOut`: only the session and the login flow are reset; every other flow and
        the password-reset token survive. */
    method SignOut()
      requires Valid()
      modifies this
      ensures Valid()
      ensures accessToken == None && user == None
      ensures flows == old(flows)[Login := IdleFlow]
      ensures forall t | t != Login :: flows[t] == old(flows)[t]
      ensures resetToken == old(resetToken) && resetTokenExpiresAt == old(resetTokenExpiresAt)
    {
      accessToken := None;
      user := None;
      flows := flows[Login := IdleFlow];
    }

    /** `clearForgotPasswordState`: the three password-reset flows and the reset token. */
    method ClearForgotPasswordState()
      requires Valid()
      modifies this
      ensures Valid()
      ensures flows == old(flows)[ForgotPassword := IdleFlow][VerifyResetOtp := IdleFlow][ResetPassword := IdleFlow]
      ensures resetToken == None && resetTokenExpiresAt == None
      ensures accessToken == old(accessToken) && user == old(user)
    {
      flows := flows[ForgotPassword := IdleFlow][VerifyResetOtp := IdleFlow][ResetPassword := IdleFlow];
      resetToken := None;
      resetTokenExpiresAt := None;
    }

    /** `clearRegisterState` */
    method ClearRegisterState()
      requires Valid()
      modifies this
      ensures Valid()
      ensures flows == old(flows)[Register := IdleFlow]
      ensures accessToken == old(accessToken) && user == old(user)
      ensures resetToken == old(resetToken) && resetTokenExpiresAt == old(resetTokenExpiresAt)
    {
      flows := flows[Register := IdleFlow];
    }

    /** `clearVerifyEmailState` */
    method ClearVerifyEmailState()
      requires Valid()
      modifies this
      ensures Valid()
      ensures flows == old(flows)[SendEmailOtp := IdleFlow][VerifyEmailOtp := IdleFlow]
      ensures accessToken == old(accessToken) && user == old(user)
      ensures resetToken == old(resetToken) && resetTokenExpiresAt == old(resetTokenExpiresAt)
    {
      flows := flows[SendEmailOtp := IdleFlow][VerifyEmailOtp := IdleFlow];
    }

    /** `clearVerifyPhoneState` */
    method ClearVerifyPhoneState()
      requires Valid()
      modifies this
      ensures Valid()
      ensures flows == old(flows)[SendPhoneOtp := IdleFlow][VerifyPhoneOtp := IdleFlow]
      ensures accessToken == old(accessToken) && user == old(user)
      ensures resetToken == old(resetToken) && resetTokenExpiresAt == old(resetTokenExpiresAt)
    {
      flows := flows[SendPhoneOtp := IdleFlow][VerifyPhoneOtp := IdleFlow];
    }

    /** The `pending` case of any thunk. */
    method Pending(t: AuthEndpoint)
      requires Valid()
      modifies this
      ensures Valid()
      ensures flows == old(flows)[t := FlowState(Loading, None)]
      ensures accessToken == old(accessToken) && user == old(user)
      ensures resetToken == old(resetToken) && resetTokenExpiresAt == old(resetTokenExpiresAt)
    {
      flows := flows[t := FlowState(Loading, None)];
    }

    /** The `rejected` case of any thunk: `error = action.payload ?? <default>`, where
        the payload is missing when the thunk failed without a value. */
    method Rejected(t: AuthEndpoint, payload: Option<Json>)
      requires Valid()
      modifies this
      ensures Valid()
      ensures flows[t].status == Failed
      ensures !IsNullish(payload) ==> flows[t].error == payload
      ensures IsNullish(payload) ==> flows[t].error == Some(JString(DefaultError(t)))
      ensures forall f | f != t :: flows[f] == old(flows)[f]
      ensures accessToken == old(accessToken) && user == old(user)
      ensures resetToken == old(resetToken) && resetTokenExpiresAt == old(resetTokenExpiresAt)
    {
      var error := if IsNullish(payload) then JString(DefaultError(t)) else payload.value;
      flows := flows[t := FlowState(Failed, Some(error))];
    }

    /** The `fulfilled` case of any thunk: the flow succeeds and its payload is applied.
        Login sets the token and the user; register sets the user but no token; the
        verified flags are set only on a signed-in user. */
    method Fulfilled(a: Fulfillment)
      requires Valid()
      modifies this
      ensures Valid()
      ensures flows == old(flows)[a.Thunk() := FlowState(Succeeded, None)]
      ensures accessToken == (if a.LoginOk? then Some(a.token) else old(accessToken))
      ensures user == UserAfter(old(user), a)
      ensures resetToken == (if a.VerifyResetOtpOk? then Field(Some(a.resetData), "reset_token") else old(resetToken))
      ensures resetTokenExpiresAt ==
        (if a.VerifyResetOtpOk? then Field(Some(a.resetData), "expires_at") else old(resetTokenExpiresAt))
    {
      flows := flows[a.Thunk() := FlowState(Succeeded, None)];
      match a
      case LoginOk(u, token) =>
        accessToken := Some(token);
        user := Some(u);
      case RegisterOk(u) =>
        user := Some(u);
      case VerifyResetOtpOk(data) =>
        resetToken := Field(Some(data), "reset_token");
        resetTokenExpiresAt := Field(Some(data), "expires_at");
      case VerifyEmailOtpOk =>
        if user.Some? {
          user := Some(user.value.(emailVerified := Some(true)));
        }
      case VerifyPhoneOtpOk =>
        if user.Some? {
          user := Some(user.value.(phoneVerified := Some(true)));
        }
      case UpdateProfileOk(p) =>
        if user.Some? {
          user := Some(MergeProfile(user.value, p));
        } else if p.user.Some? {
          user := p.user;
        }
      case _ =>
    }
  }
}
