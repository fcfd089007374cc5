/** The quote request screen: the form gate, the two-stage submit (a TrustedForm
    certificate first, then reCAPTCHA), and the lead request sent once reCAPTCHA has
    produced a token. */
module QuoteRequest {
  import opened Wrappers
  import opened JsText
  import opened Json
  import Validators
  import Client
  import ServicesEndpoints
  import AuthSlice
  import ContractorList

  const SignupUrl := "https://dev.allaboutdriveways.com/lead-result"
  const SubmitFailedDefault := "Failed to submit quote request."

  /** The form's fields as typed. */
  datatype Form = Form(
    firstName: string,
    lastName: string,
    email: string,
    phone: string,
    address: string,
    city: string,
    state: string,
    zip: string,
    timeframe: string,
    projectInfo: string,
    agreedToTerms: bool)

  /** The form as the screen opens it: the contact fields from the signed-in user, the
      rest empty. */
  function InitialForm(user: Option<AuthSlice.AuthUser>): (f: Form)
    ensures user.None? ==> f == Form("", "", "", "", "", "", "", "", "", "", false)
    ensures user.Some? ==>
      && f.firstName == user.value.firstName && f.lastName == user.value.lastName
      && f.email == user.value.email && f.phone == user.value.phone.GetOr("")
      && f.address == user.value.addressLine1.GetOr("") && f.city == user.value.city.GetOr("")
      && f.state == user.value.state.GetOr("") && f.zip == user.value.zip.GetOr("")
    ensures f.timeframe == "" && f.projectInfo == "" && !f.agreedToTerms
  {
    if user.None? then Form("", "", "", "", "", "", "", "", "", "", false)
    else
      var u := user.value;
      Form(u.firstName, u.lastName, u.email, u.phone.GetOr(""), u.addressLine1.GetOr(""),
        u.city.GetOr(""), u.state.GetOr(""), u.zip.GetOr(""), "", "", false)
  }

  /** `canSubmit`: nine text fields non-blank once trimmed, a timeframe chosen (it is not
      trimmed), and the terms agreed. */
  function CanSubmit(f: Form): (b: bool)
    ensures b <==>
      && !IsBlank(f.firstName) && !IsBlank(f.lastName) && !IsBlank(f.email)
      && !IsBlank(f.phone) && !IsBlank(f.address) && !IsBlank(f.city)
      && !IsBlank(f.state) && !IsBlank(f.zip) && !IsBlank(f.projectInfo)
      && f.timeframe != [] && f.agreedToTerms
  {
    && Validators.IsNonEmpty(f.firstName) && Validators.IsNonEmpty(f.lastName)
    && Validators.IsNonEmpty(f.email) && Validators.IsNonEmpty(f.phone)
    && Validators.IsNonEmpty(f.address) && Validators.IsNonEmpty(f.city)
    && Validators.IsNonEmpty(f.state) && Validators.IsNonEmpty(f.zip)
    && |f.timeframe| > 0 && Validators.IsNonEmpty(f.projectInfo) && f.agreedToTerms
  }

  /** The lead endpoint: the general one only when asked for by name. */
  function LeadPath(leadEndpoint: string): (path: string)
    ensures path == ServicesEndpoints.GeneralLeadV1() <==> leadEndpoint == ContractorList.GeneralLead
    ensures path != ServicesEndpoints.GeneralLeadV1() ==> path == ServicesEndpoints.MemberLeadBySlug()
  {
    if leadEndpoint == ContractorList.GeneralLead then ServicesEndpoints.GeneralLeadV1()
    else ServicesEndpoints.MemberLeadBySlug()
  }

  /** The body object `onRecaptchaVerify` builds. The route's ids may be `undefined`;
      `member_slugs` is present only for the member endpoint. */
  datatype LeadBody = LeadBody(
    serviceTypeId: Option<int>,
    mainCategoryId: Option<int>,
    categoryId: Option<int>,
    firstName: string,
    lastName: string,
    email: string,
    phone: string,
    address: string,
    city: string,
    state: string,
    zip: string,
    timeframe: string,
    projectInfo: string,
    termsAndCondition: string,
    captchaToken: string,
    signupUrl: string,
    certUrl: string,
    memberSlugs: Option<string>)

  /** The body of the lead request. */
  function BuildLeadBody(route: ContractorList.QuoteParams, f: Form, certUrl: string, token: string): (b: LeadBody)
    // The route's ids pass through, `undefined` or not.
    ensures b.serviceTypeId == route.serviceTypeId && b.mainCategoryId == route.mainCategoryId
    ensures b.categoryId == route.categoryId
    // The typed text is trimmed, except the timeframe, which is a chosen option.
    ensures b.firstName == Trim(f.firstName) && b.lastName == Trim(f.lastName)
    ensures b.email == Trim(f.email) && b.phone == Trim(f.phone)
    ensures b.address == Trim(f.address) && b.city == Trim(f.city)
    ensures b.state == Trim(f.state) && b.zip == Trim(f.zip)
    ensures b.projectInfo == Trim(f.projectInfo) && b.timeframe == f.timeframe
    // The terms flag is sent as an empty string; the rest comes from the two providers.
    ensures b.termsAndCondition == "" && b.captchaToken == token
    ensures b.signupUrl == SignupUrl && b.certUrl == certUrl
    // The slugs go only to the member endpoint, joined with commas.
    ensures b.memberSlugs.Some? <==> route.leadEndpoint != ContractorList.GeneralLead
    ensures b.memberSlugs.Some? ==> b.memberSlugs.value == Join(route.memberSlugs, ",")
  {
    var endpoint := LeadPath(route.leadEndpoint);
    LeadBody(
      route.serviceTypeId, route.mainCategoryId, route.categoryId,
      Trim(f.firstName), Trim(f.lastName), Trim(f.email), Trim(f.phone),
      Trim(f.address), Trim(f.city), Trim(f.state), Trim(f.zip),
      f.timeframe, Trim(f.projectInfo), "", token, SignupUrl, certUrl,
      if endpoint == ServicesEndpoints.MemberLeadBySlug() then Some(Join(route.memberSlugs, ",")) else None)
  }

  /** Every text field but the timeframe goes out as the trim of what was typed, so with
      no whitespace around it: trimming it again changes nothing. */
  lemma LeadBodyTrimmed(route: ContractorList.QuoteParams, f: Form, certUrl: string, token: string)
    ensures var b := BuildLeadBody(route, f, certUrl, token);
      && b.firstName == Trim(f.firstName) && Trim(b.firstName) == b.firstName
      && b.lastName == Trim(f.lastName) && Trim(b.lastName) == b.lastName
      && b.email == Trim(f.email) && Trim(b.email) == b.email
      && b.phone == Trim(f.phone) && Trim(b.phone) == b.phone
      && b.address == Trim(f.address) && Trim(b.address) == b.address
      && b.city == Trim(f.city) && Trim(b.city) == b.city
      && b.state == Trim(f.state) && Trim(b.state) == b.state
      && b.zip == Trim(f.zip) && Trim(b.zip) == b.zip
      && b.projectInfo == Trim(f.projectInfo) && Trim(b.projectInfo) == b.projectInfo
  {
    TrimIdempotent(f.firstName);
    TrimIdempotent(f.lastName);
    TrimIdempotent(f.email);
    TrimIdempotent(f.phone);
    TrimIdempotent(f.address);
    TrimIdempotent(f.city);
    TrimIdempotent(f.state);
    TrimIdempotent(f.zip);
    TrimIdempotent(f.projectInfo);
  }

  /** A body the gate lets through sends no empty text field: each of the nine trimmed
      fields, and the timeframe, is non-empty. */
  lemma SubmittableBodyFilled(route: ContractorList.QuoteParams, f: Form, certUrl: string, token: string)
    requires CanSubmit(f)
    ensures var b := BuildLeadBody(route, f, certUrl, token);
      && b.firstName != [] && b.lastName != [] && b.email != [] && b.phone != []
      && b.address != [] && b.city != [] && b.state != [] && b.zip != []
      && b.projectInfo != [] && b.timeframe != []
  {
    TrimEmptyIffBlank(f.firstName);
    TrimEmptyIffBlank(f.lastName);
    TrimEmptyIffBlank(f.email);
    TrimEmptyIffBlank(f.phone);
    TrimEmptyIffBlank(f.address);
    TrimEmptyIffBlank(f.city);
    TrimEmptyIffBlank(f.state);
    TrimEmptyIffBlank(f.zip);
    TrimEmptyIffBlank(f.projectInfo);
  }

  /** A present id as a JSON number; `JSON.stringify` leaves out a key whose value is
      `undefined`. */
  function WithId(m: map<string, Json>, key: string, id: Option<int>): (r: map<string, Json>)
    ensures key in r <==> id.Some? || key in m
    ensures id.Some? ==> r[key] == JNumber(id.value)
    ensures id.None? ==> r == m
    ensures forall k | k in m && k != key :: k in r && r[k] == m[k]
    ensures forall k | k in r && k != key :: k in m
  {
    if id.Some? then m[key := JNumber(id.value)] else m
  }

  /** The fourteen text members of the body, each the field of the same name. */
  function TextFields(b: LeadBody): (r: map<string, Json>)
    ensures "service_type_id" !in r && "main_category_id" !in r && "category_id" !in r
    ensures "member_slugs" !in r
  {
    map[
      "first_name" := JString(b.firstName), "last_name" := JString(b.lastName),
      "email" := JString(b.email), "phone" := JString(b.phone),
      "address" := JString(b.address), "city" := JString(b.city),
      "state" := JString(b.state), "zip" := JString(b.zip),
      "timeframe" := JString(b.timeframe), "project_info" := JString(b.projectInfo),
      "terms_and_condition" := JString(b.termsAndCondition), "cptcha_token" := JString(b.captchaToken),
      "signup_url" := JString(b.signupUrl), "cert_url" := JString(b.certUrl)]
  }

  /** The name and contact members of the body hold the fields of their names. */
  lemma TextFieldsContact(b: LeadBody)
    ensures var r := TextFields(b);
      && "first_name" in r && r["first_name"] == JString(b.firstName)
      && "last_name" in r && r["last_name"] == JString(b.lastName)
      && "email" in r && r["email"] == JString(b.email)
      && "phone" in r && r["phone"] == JString(b.phone)
  {
  }

  /** The address members of the body hold the fields of their names. */
  lemma TextFieldsAddress(b: LeadBody)
    ensures var r := TextFields(b);
      && "address" in r && r["address"] == JString(b.address)
      && "city" in r && r["city"] == JString(b.city)
      && "state" in r && r["state"] == JString(b.state)
      && "zip" in r && r["zip"] == JString(b.zip)
  {
  }

  /** The project, consent, token and URL members hold the fields of their names. */
  lemma TextFieldsRequest(b: LeadBody)
    ensures var r := TextFields(b);
      && "timeframe" in r && r["timeframe"] == JString(b.timeframe)
      && "project_info" in r && r["project_info"] == JString(b.projectInfo)
      && "terms_and_condition" in r && r["terms_and_condition"] == JString(b.termsAndCondition)
      && "cptcha_token" in r && r["cptcha_token"] == JString(b.captchaToken)
      && "signup_url" in r && r["signup_url"] == JString(b.signupUrl)
      && "cert_url" in r && r["cert_url"] == JString(b.certUrl)
  {
  }

  /** The body as the JSON object `JSON.stringify` serialises. */
  function BodyJson(b: LeadBody): (r: map<string, Json>)
    // An id or the slugs appear exactly when present, with their values.
    ensures "service_type_id" in r <==> b.serviceTypeId.Some?
    ensures "main_category_id" in r <==> b.mainCategoryId.Some?
    ensures "category_id" in r <==> b.categoryId.Some?
    ensures "member_slugs" in r <==> b.memberSlugs.Some?
    ensures b.serviceTypeId.Some? ==> r["service_type_id"] == JNumber(b.serviceTypeId.value)
    ensures b.mainCategoryId.Some? ==> r["main_category_id"] == JNumber(b.mainCategoryId.value)
    ensures b.categoryId.Some? ==> r["category_id"] == JNumber(b.categoryId.value)
    ensures b.memberSlugs.Some? ==> r["member_slugs"] == JString(b.memberSlugs.value)
    // Every text member is sent.
    ensures forall k | k in TextFields(b) :: k in r && r[k] == TextFields(b)[k]
  {
    var withIds := WithId(WithId(WithId(TextFields(b), "service_type_id", b.serviceTypeId),
      "main_category_id", b.mainCategoryId), "category_id", b.categoryId);
    if b.memberSlugs.Some? then withIds["member_slugs" := JString(b.memberSlugs.value)] else withIds
  }

  /** The request `onRecaptchaVerify` makes. */
  function LeadRequest(route: ContractorList.QuoteParams, f: Form, certUrl: string, token: string): (o: Client.RequestOptions)
    ensures o.httpMethod == Client.POST && o.path == LeadPath(route.leadEndpoint) && o.token == None
    ensures o.body == Some(JObject(BodyJson(BuildLeadBody(route, f, certUrl, token))))
  {
    Client.RequestOptions(Client.POST, LeadPath(route.leadEndpoint),
      Some(JObject(BodyJson(BuildLeadBody(route, f, certUrl, token)))), None)
  }

  /** The slugs a member lead sends read back, in order, from the joined text (a slug has
      no comma in it). */
  lemma MemberSlugsRoundTrip(route: ContractorList.QuoteParams, f: Form, certUrl: string, token: string)
    requires route.leadEndpoint != ContractorList.GeneralLead && route.memberSlugs != []
    requires forall i | 0 <= i < |route.memberSlugs| :: Free(route.memberSlugs[i], ',')
    ensures var b := BuildLeadBody(route, f, certUrl, token);
      b.memberSlugs.Some? && Split(b.memberSlugs.value, ',') == route.memberSlugs
  {
    SplitJoin(route.memberSlugs, ',');
  }

  /** A quote requested from the contractor list goes to the member endpoint with the
      chosen contractors' slugs; the "no contractors" prompt's "Yes" goes to the general
      endpoint with no slugs. */
  lemma {:induction false} FromContractorList(route: ContractorList.RouteParams, contractors: seq<ContractorList.Company>,
                                              loading: bool, ids: seq<int>, f: Form, certUrl: string, token: string)
    ensures var a := ContractorList.GetQuote(route, contractors, loading, ids);
      a.Navigate? ==>
        LeadPath(a.params.leadEndpoint) == ServicesEndpoints.MemberLeadBySlug()
        && BuildLeadBody(a.params, f, certUrl, token).memberSlugs
           == Some(Join(ContractorList.Slugs(ContractorList.Selected(contractors, ids)), ","))
    ensures var a := ContractorList.GetQuote(route, contractors, loading, ids);
      a.PromptGeneralLead? ==>
        LeadPath(a.onYes.leadEndpoint) == ServicesEndpoints.GeneralLeadV1()
        && BuildLeadBody(a.onYes, f, certUrl, token).memberSlugs == None
  {
    var a := ContractorList.GetQuote(route, contractors, loading, ids);
    if a.Navigate? {
      assert a.params.leadEndpoint == ContractorList.MemberLead;
    }
  }

  /** What `handleSubmit` does. */
  datatype SubmitStep =
    | MissingFields          // the "fill in all required fields" alert only
    | AwaitCertificate       // the "Generating…" alert and a request to certify
    | OpenRecaptcha

  /** The alert that ends a submission. */
  datatype SubmitOutcome = Submitted | SubmitFailed(message: Json)

  /** The response's verdict: success, or its message with a default. */
  function OutcomeOf(r: Client.ApiResponse): (o: SubmitOutcome)
    ensures o == Submitted <==> r.Succeeded()
    ensures o.SubmitFailed? && !IsNullish(r.Message()) ==> o.message == r.Message().value
    ensures o.SubmitFailed? && IsNullish(r.Message()) ==> o.message == JString(SubmitFailedDefault)
  {
    if r.Succeeded() then Submitted
    else SubmitFailed(if IsNullish(r.Message()) then JString(SubmitFailedDefault) else r.Message().value)
  }

  class QuoteScreen {
    const route: ContractorList.QuoteParams
    var form: Form
    var certUrl: string
    var pendingSubmit: bool
    var submitting: bool

    constructor (route: ContractorList.QuoteParams, user: Option<AuthSlice.AuthUser>)
      ensures this.route == route && form == InitialForm(user)
      ensures certUrl == "" && !pendingSubmit && !submitting
    {
      this.route := route;
      form := InitialForm(user);
      certUrl := "";
      pendingSubmit := false;
      submitting := false;
    }

    /** The text inputs, the picker and the checkbox. */
    method Edit(f: Form)
      modifies this
      ensures form == f && certUrl == old(certUrl) && pendingSubmit == old(pendingSubmit)
      ensures submitting == old(submitting)
    {
      form := f;
    }

    /** `handleSubmit`: an incomplete form only alerts; without a certificate the submit
        waits for one (reCAPTCHA is not opened); with one, reCAPTCHA opens. */
    method HandleSubmit() returns (step: SubmitStep)
      modifies this
      ensures !CanSubmit(form) ==> step == MissingFields && pendingSubmit == old(pendingSubmit)
      ensures CanSubmit(form) && certUrl == [] ==> step == AwaitCertificate && pendingSubmit
      ensures CanSubmit(form) && certUrl != [] ==> step == OpenRecaptcha && pendingSubmit == old(pendingSubmit)
      ensures form == old(form) && certUrl == old(certUrl) && submitting == old(submitting)
    {
      if !CanSubmit(form) {
        return MissingFields;
      }
      if certUrl == [] {
        pendingSubmit := true;
        return AwaitCertificate;
      }
      step := OpenRecaptcha;
    }

    /** `onCertUrl`: keep the certificate; reCAPTCHA opens iff a submit was waiting. */
    method OnCertUrl(url: string) returns (openRecaptcha: bool)
      modifies this
      ensures certUrl == url && openRecaptcha == old(pendingSubmit) && !pendingSubmit
      ensures form == old(form) && submitting == old(submitting)
    {
      certUrl := url;
      openRecaptcha := pendingSubmit;
      if pendingSubmit {
        pendingSubmit := false;
      }
    }

    /** The certificate capture's `onError`: only a waiting submit is cancelled, with an
        alert. */
    method OnCertError() returns (alert: bool)
      modifies this
      ensures alert == old(pendingSubmit) && !pendingSubmit
      ensures form == old(form) && certUrl == old(certUrl) && submitting == old(submitting)
    {
      alert := pendingSubmit;
      if pendingSubmit {
        pendingSubmit := false;
      }
    }

    /** `onRecaptchaVerify`: the lead request goes out while `submitting` is set, and
        `submitting` is cleared afterwards. */
    method OnRecaptchaVerify(token: string, client: Client.ApiClient) returns (outcome: SubmitOutcome)
      requires client.Valid()
      modifies this, client
      ensures !submitting
      ensures outcome == OutcomeOf(Client.RunFrom(Client.TriesFrom(client.attempts, old(client.calls)), 0).response)
      ensures forall k | |old(client.sent)| <= k < |client.sent| ::
        client.sent[k] == Client.RequestFor(client.baseUrl, client.stringify, LeadRequest(route, form, certUrl, token))
      ensures form == old(form) && certUrl == old(certUrl) && pendingSubmit == old(pendingSubmit)
    {
      var request := LeadRequest(route, form, certUrl, token);
      submitting := true;
      var response := client.ApiRequest(request);
      outcome := OutcomeOf(response);
      submitting := false;
    }
  }
}
