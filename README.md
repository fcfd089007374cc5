# TrustPatrick homeowner app: a Dafny model of its core

This project models the logic of the TrustPatrick homeowner mobile app (React Native, TypeScript)
and proves properties of it. The model covers:

- **The API client** (`Client`). `executeRequest` classifies one HTTP exchange into a response
  or a throw. `apiRequest` builds the URL, headers and body, then tries at most three times:
  - after a throw, it waits 200 ms and then 400 ms;
  - after a failed result that carries the "Invalid server response (expected JSON)." message
    (the *sentinel*), it waits 100 ms and then 200 ms.

  The client is a class over a scripted transport. It counts calls and keeps, as ghost state,
  the requests it sent and the delays it waited.
- **Endpoints** (`ServicesEndpoints`, `AuthEndpoints`): the paths and query strings, the query
  encoding (`Uri`, standing for `encodeURIComponent`) and the round trips that read them back.
- **Validators** (`Validators`): every form validator, with the exact message each returns.
- **The auth slice** (`AuthSlice`):
  - every thunk's request and how its result settles (fulfilled or rejected with a payload);
  - the `reset_token` unwrapping of the OTP-verification thunk;
  - a store class whose reducers keep every flow's status consistent with its error;
  - the profile-merge rule.
- **Small stateful helpers**:
  - the alert hook (`AppAlert`);
  - the TrustedForm certificate latch (`TrustedForm`);
  - the contractor selection limit (`ContractorList.Selection`);
  - the quote screen's submit flow (`QuoteRequest.QuoteScreen`).
- **The contractor list screen** (`ContractorList`): loading, search filtering, `onGetQuote`, and
  the automatic "no contractors" prompt (see Findings).
- **Display formatters** (`Profile`) and **layout helpers** (`Layout`).

Strings are sequences of Unicode scalar values. JavaScript's `length` and `slice` count
UTF-16 code units, so `JsText` defines them in those units. `JSON.parse` and
`JSON.stringify` are parameters of the client (`parse`, `stringify`) and are not reimplemented.

A 2xx response whose body is not JSON does not produce the sentinel:
`src/api/client.ts:44-45` rethrows the parse error, so that try takes the 200 ms throw path.
The sentinel can only come from the server's own text (`Client.Execute`,
`Client.SentinelFromServer`, `Client.BlankSuccessThrows`).

Two more behaviours of the code, each stated as a lemma:

- A non-2xx JSON object without a `message` field gets the message `"false"`. The
  `json && … && json.message` chain yields `false`, and `??` keeps it
  (`Client.FailureMessage`). The same happens for any truthy scalar or array. A falsy
  scalar (`0`, `false`, `""`) is its own message, and `null` falls back to the body text
  (`Client.ScalarFailureMessage`).
- `Client.Execute` is total and `apiRequest` always returns. The thunks' `catch` branches
  therefore cannot run inside this model.

## Model

| member | source | states |
|---|---|---|
| Client.Execute | src/api/client.ts:24-80 | A try throws exactly when the transport threw or a 2xx body is not JSON; in that second case it rethrows the parse error, with its message, as an `Error`. A non-2xx response is always a client-built failure that has a message. A 2xx body is passed through unchanged exactly when it is an object with a boolean `success`. |
| Client.RequestFor | src/api/client.ts:83-101 | The URL is base + path. `Accept` is always JSON. `Content-Type` is present iff there is a body. `Authorization: Bearer <token>` is present iff the token is truthy. No other header is sent. The body is the stringified JSON iff one was given. |
| Client.Decide | src/api/client.ts:109-136 | A try is retried iff it threw or returned a non-success carrying the sentinel, and tries remain. The wait is 200·(n+1) ms after a throw and 100·(n+1) ms after the sentinel. When it stops, the result is returned as it is; a final throw becomes a failure with the error's message, or a generic one for a thrown non-`Error`. |
| Client.RunShape | src/api/client.ts:103-137 | A run makes 1 to 3 calls. Every call but the last was retried after its backoff, and the last call's decision gives the response. |
| Client.RunOfTries | src/api/client.ts:103-137 | Conversely, a sequence of retried tries followed by a stopping try determines the response, the call count and the delays. |
| Client.AllThrown | src/api/client.ts:124-135 | When every try throws: three calls, waits of 200 and 400 ms, and the last error's message (or the generic one). |
| Client.AlwaysSentinel | src/api/client.ts:111-123 | When every try returns the sentinel: three calls, waits of 100 and 200 ms, and the third result returned unchanged. |
| Client.SentinelFromServer | src/api/client.ts:24-80 | The client never produces the sentinel itself. It comes from a response, and on a 2xx only from a body that has its own boolean `success` and that message. |
| Client.FailureIsFinal | src/api/client.ts:50-61 | A non-2xx response without the sentinel ends the request after one call and no wait. |
| Client.FailurePreview | src/api/client.ts:36-43 | A non-2xx body that is not JSON: the message is the body cut to its first 300 UTF-16 units (`raw.slice(0, 300)`), so a non-empty prefix of it and the whole body when it fits; the data is null. |
| Client.MessageChain | src/api/client.ts:51-55 | A falsy value ends the `&&` chain and is its value. A truthy value that is not an object holding `message` gives `false`. An object holding `message` gives that field. |
| Client.ScalarFailureMessage | src/api/client.ts:50-61 | A non-2xx JSON body that is not an object: a falsy non-null scalar is the message (as `String` renders it) and the data. A truthy scalar or an array gives `"false"`. `null` gives the trimmed text, cut to 300 units, when there is any, and `Request failed (<status>)` otherwise; the data is then the trimmed text. |
| Json.ToJsString | src/api/client.ts:60 | `String(...)`: a string is itself, a boolean is `true`/`false`, every object is `[object Object]`, an empty array is empty. Only strings and arrays can render as the empty string. |
| Json.NumberStringReadsBack | src/api/client.ts:60 | A non-negative number renders as decimal digits that read back as the number. |
| Json.SingletonArrayString | src/api/client.ts:60 | A one-element array renders as its element, with `null` rendered as the empty string. |
| Client.FailureMessage | src/api/client.ts:50-60 | A non-2xx JSON object: the data is the object. The message is its `message` rendered as a string; when that is null, the trimmed body preview; when it is absent, `"false"`. |
| Client.EmptySuccess | src/api/client.ts:63-66 | A 2xx with an empty body or `null` is a success whose data is `{}`. |
| Client.BlankSuccessThrows | src/api/client.ts:33-45 | A 2xx body made only of whitespace is not JSON, so the try throws. |
| Client.BareSuccess | src/api/client.ts:68-79 | Any other 2xx JSON value becomes the data of a success. |
| Client.ApiClient.constructor | src/api/client.ts:82-145 | The client starts with no calls, no requests sent and no delays, and its attempts are the classified transport outcomes. |
| Client.ApiClient.ExecuteRequest | src/api/client.ts:24-30 | One call sends the request, advances the call counter by one, and gives the classified outcome of that call. |
| Client.ApiClient.Sleep | src/api/client.ts:119 | A wait is appended to the delay log; nothing else changes. |
| Client.ApiClient.ApiRequest | src/api/client.ts:82-145 | The response, the number of calls and the delays equal those of the retry loop over the next three tries. Every request sent is the same `RequestFor` request, and earlier requests are kept. |
| Uri.Encode | src/api/endpoints/services.ts:3 | `encodeURIComponent` output contains only unreserved characters and `%` escapes. |
| Uri.EscapeAll | src/api/endpoints/services.ts:3 | Each byte becomes `%` followed by two upper-case hex digits. |
| Uri.EncodedHasNoDelimiters | src/api/endpoints/services.ts:10-12 | An encoded value never contains `&`, `=`, brackets, a space, `#` or `+`, so it cannot break the query. |
| Uri.EncodeAppend | src/api/endpoints/services.ts:3 | Encoding distributes over concatenation. |
| Uri.EncodeUnreserved | src/api/endpoints/services.ts:3 | A string made only of unreserved characters encodes to itself. |
| ServicesEndpoints.SearchServices | src/api/endpoints/services.ts:2-3 | The path starts with the search-services prefix. |
| ServicesEndpoints.SearchRoundTrip | src/api/endpoints/services.ts:2-3 | The query splits on `&` into exactly the encoded `search` pair and the `limit` pair; the limit defaults to 10. |
| ServicesEndpoints.SearchPairSplit | src/api/endpoints/services.ts:3 | The search pair splits on `=` into the key and the encoded value. |
| ServicesEndpoints.LimitRoundTrip | src/api/endpoints/services.ts:3 | The digits after `limit=` read back as the limit, for a non-negative limit. |
| ServicesEndpoints.FeaturedParts | src/api/endpoints/services.ts:8-12 | One part per category code, in order, then one per zip code. |
| ServicesEndpoints.FeaturedExperts | src/api/endpoints/services.ts:5-14 | The two `forEach` loops push exactly the parts of `FeaturedPath`, and the result is that path. |
| ServicesEndpoints.FeaturedRoundTrip | src/api/endpoints/services.ts:5-14 | After the prefix, the path splits on `&` into the `service_category_codes[]` pairs and then the `zip_codes[]` pairs. Each pair splits on `=` into its literal key and its encoded value. |
| ServicesEndpoints.FeaturedEmpty | src/api/endpoints/services.ts:13 | With no codes, the path is the bare prefix ending in `?`. |
| ServicesEndpoints.MemberLeadBySlug | src/api/endpoints/services.ts:16-18 | The member-lead path is an affiliate path, distinct from the general-lead path. |
| ServicesEndpoints.GeneralLeadV1 | src/api/endpoints/services.ts:18 | The general-lead path is an affiliate path. |
| AuthEndpoints.Path | src/api/endpoints/auth.ts:1-12 | Every auth path is the homeowners prefix followed by the endpoint's own name. |
| AuthEndpoints.EndpointOf | src/api/endpoints/auth.ts:1-12 | Reading a path back gives an endpoint only when that endpoint's path is the given path. |
| AuthEndpoints.PathNamesEndpoint | src/api/endpoints/auth.ts:1-12 | Reading back the path of any endpoint gives that endpoint. |
| AuthEndpoints.PathsDistinct | src/api/endpoints/auth.ts:1-12 | Distinct endpoints have distinct paths. |
| AuthEndpoints.NamedPaths | src/api/endpoints/auth.ts:3-11 | `register` is `/api/homeowners/create` and `updateProfile` is `/api/homeowners/update-profile`. |
| Validators.IsNonEmpty | src/utils/validators.ts:1-3 | True iff the value is not blank after trimming. |
| Validators.ValidateRequired | src/utils/validators.ts:5-7 | No error iff the value is not blank; otherwise "<field> is required.". |
| Validators.MatchesEmailIff | src/utils/validators.ts:10-15 | The scanning email check accepts exactly the strings of the shape local@domain.tld: no whitespace and no second `@`, and a dot inside the domain with something on both sides. |
| Validators.ValidateEmail | src/utils/validators.ts:10-15 | Blank gives "Email is required."; otherwise no error iff the trimmed value has the email shape, else "Enter a valid email address.". |
| Validators.NormalizePhone | src/utils/validators.ts:17-24 | The result keeps exactly the digits of the input, in order. It starts with `+` iff the trimmed input does, and it is otherwise all digits. |
| Validators.NormalizePhoneIdempotent | src/utils/validators.ts:17-24 | Normalising twice is normalising once. |
| Validators.ValidatePhoneOptional | src/utils/validators.ts:26-39 | No error iff the value is blank or has 10 to 15 digits. |
| Validators.ValidateZip | src/utils/validators.ts:41-48 | "Zip Code is required." iff blank; no error iff the trimmed value is 4 to 10 ASCII digits. |
| Validators.ValidateName | src/utils/validators.ts:50-55 | Blank is required; under 2 UTF-16 units is too short; no error iff the trimmed value has at least 2 units. |
| Validators.ValidatePassword | src/utils/validators.ts:57-66 | Empty is required; under 8 units is too short; no error iff at least 8 units with an ASCII letter and an ASCII digit. |
| Validators.ValidateConfirmPassword | src/utils/validators.ts:68-72 | No error iff the confirmation is non-empty and equals the password; otherwise the matching message. |
| Validators.ValidateOtp | src/utils/validators.ts:74-79 | No error iff the trimmed value is exactly 6 ASCII digits. A blank value gets "OTP is required."; any other bad value gets "OTP must be 6 digits.". |
| Validators.TrimmedValueSameVerdict | src/utils/validators.ts:1-79 | Every validator that trims gives the same verdict on the value and on its trim. |
| AuthSlice.Pick | src/store/slices/authSlice.ts:611-616 | The `updated ?? incoming ?? current` chain: the first present value wins. |
| AuthSlice.MergeProfile | src/store/slices/authSlice.ts:610-616 | The id, email, phone, verification flags and dates are unchanged. The names come from the returned user when there is one, else from the top-level fields, else they stay. Each address field (line 1, city, state, zip) is the returned user's value when it has one, else the top-level value when present, else the old value. |
| AuthSlice.ProfileAfterUpdate | src/store/slices/authSlice.ts:601-618 | A signed-in user becomes exactly `MergeProfile` of them and the payload, and keeps their id. With no user, the returned user (if any) is taken. |
| AuthSlice.EmptyUpdateKeepsUser | src/store/slices/authSlice.ts:610-616 | An update that names nothing leaves the user as it was. |
| AuthSlice.MergeIdempotent | src/store/slices/authSlice.ts:610-616 | Applying the same update twice is applying it once. |
| AuthSlice.ReturnedUserWins | src/store/slices/authSlice.ts:610-616 | When the response holds a user, its profile fields win wherever that user has them. |
| AuthSlice.ThunkRequest | src/store/slices/authSlice.ts:66-342 | Every thunk POSTs its body to its own path. Only `updateProfile` sends a token, and it sends the stored access token as it is. |
| AuthSlice.DefaultError | src/store/slices/authSlice.ts:90-334 | Each thunk's `?? '…'` default is non-empty, and every one but login's and registration's starts with "Failed to ". |
| AuthSlice.DefaultErrorDistinct | src/store/slices/authSlice.ts:90-334 | No two thunks share a default message. |
| AuthSlice.Settle | src/store/slices/authSlice.ts:115-119 | Fulfilled iff the response succeeded, with its data. A rejection's payload is never nullish: it is the server message, else the thunk's default text. |
| AuthSlice.SettleResetOtp | src/store/slices/authSlice.ts:166-178 | Fulfilled iff the response succeeded and either the data or its inner `data` has a truthy `reset_token`. The fulfilled value is whichever holds it. A success without one is rejected with "Invalid server response". Failures settle like the other thunks. |
| AuthSlice.SettleThunk | src/store/slices/authSlice.ts:66-342 | OTP verification uses the reset-token rule; every other thunk uses the common rule. |
| AuthSlice.ServerMessageRejects | src/store/slices/authSlice.ts:115-119 | A non-2xx JSON object with a non-null `message` rejects every thunk with that message as text; the default is not used. |
| AuthSlice.EnvelopeFailureRejects | src/store/slices/authSlice.ts:115-119 | A body with its own boolean `success` that is not `true` rejects, with that body's `message` when it has one. |
| AuthSlice.ResetTokenShapes | src/store/slices/authSlice.ts:170-178 | A token at the top level and a token nested under `data` both yield the inner object. |
| AuthSlice.UserAfter | src/store/slices/authSlice.ts:458-622 | Login and register set the user. The email and phone verifications set their flag on an existing user. The profile update merges. Every other thunk leaves the user alone. |
| AuthSlice.NoUserFromNothing | src/store/slices/authSlice.ts:547-594 | With no user, only login, register and a profile update that returns a user create one. |
| AuthSlice.AuthStore.constructor | src/store/slices/authSlice.ts:380-414 | The initial state: no token, no user, every flow idle, no reset token. |
| AuthSlice.AuthStore.SetAccessToken | src/store/slices/authSlice.ts:420-422 | Only the token changes. |
| AuthSlice.AuthStore.SignOut | src/store/slices/authSlice.ts:423-428 | Token and user are cleared and the login flow is reset; nothing else changes. |
| AuthSlice.AuthStore.ClearForgotPasswordState | src/store/slices/authSlice.ts:429-438 | The three password-reset flows and the reset token are cleared. |
| AuthSlice.AuthStore.ClearRegisterState | src/store/slices/authSlice.ts:439-442 | Only the register flow is reset. |
| AuthSlice.AuthStore.ClearVerifyEmailState | src/store/slices/authSlice.ts:443-448 | Only the two email-OTP flows are reset. |
| AuthSlice.AuthStore.ClearVerifyPhoneState | src/store/slices/authSlice.ts:449-454 | Only the two phone-OTP flows are reset. |
| AuthSlice.AuthStore.Pending | src/store/slices/authSlice.ts:458-598 | The thunk's flow becomes loading with no error; nothing else changes. |
| AuthSlice.AuthStore.Rejected | src/store/slices/authSlice.ts:466-622 | The thunk's flow fails, with the payload or the thunk's default message. Other flows, the token and the user are unchanged. |
| AuthSlice.AuthStore.Fulfilled | src/store/slices/authSlice.ts:460-618 | The thunk's flow succeeds. Login stores the token. The user follows `UserAfter`. OTP verification stores the reset token and its expiry. Every reducer keeps each flow's "failed iff it has an error" invariant. |
| AppAlert.AlertHook.constructor | src/components/ui/useAppAlert.ts:24-34 | Hidden, empty title, `info`, `OK`, no callbacks. |
| AppAlert.AlertHook.Close | src/components/ui/useAppAlert.ts:36-40 | Hidden, both callbacks forgotten, the displayed text kept. |
| AppAlert.AlertHook.Show | src/components/ui/useAppAlert.ts:42-54 | Everything is replaced, with `info` and `OK` as defaults, and the new callbacks are stored. |
| AppAlert.AlertHook.OnPrimaryPress | src/components/ui/useAppAlert.ts:56-60 | Hands back the stored primary callback and closes. |
| AppAlert.AlertHook.OnSecondaryPress | src/components/ui/useAppAlert.ts:62-66 | Hands back the stored secondary callback and closes. |
| AppAlert.AlertHook.Props | src/components/ui/useAppAlert.ts:68-80 | The secondary handler is wired iff there is non-empty secondary text. The backdrop never dismisses. |
| AppAlert.AlertHook.PressPrimaryThenShow | src/components/ui/useAppAlert.ts:56-60 | A callback that shows a new alert leaves that alert up, since the press closed the old one first. |
| AppAlert.AlertHook.PressPrimaryTwice | src/components/ui/useAppAlert.ts:56-60 | A second press finds no callback. |
| AppAlert.AlertHook.PressSecondaryTwice | src/components/ui/useAppAlert.ts:62-66 | The same for the secondary button. |
| TrustedForm.Classify | src/components/ui/TrustedFormCertCapture.tsx:133-150 | A certificate iff the message parses to the cert type with a non-empty string `certUrl`; an error report iff it has the error type; a parse error iff it does not parse. |
| TrustedForm.CertCapture.constructor | src/components/ui/TrustedFormCertCapture.tsx:22 | The latch starts open. |
| TrustedForm.CertCapture.OnMessage | src/components/ui/TrustedFormCertCapture.tsx:133-150 | Once a certificate has gone out, every message is dropped. Otherwise the message is classified, and only a certificate closes the latch. |
| TrustedForm.CertCapture.Reset | src/components/ui/TrustedFormCertCapture.tsx:125-128 | The latch opens again. |
| TrustedForm.CertCapture.ResetThenCert | src/components/ui/TrustedFormCertCapture.tsx:125-150 | After a reset, the next certificate is delivered. |
| TrustedForm.CertCapture.CertTwice | src/components/ui/TrustedFormCertCapture.tsx:133-150 | Of two certificates in a row, only the first is delivered. |
| ContractorList.Keep | src/screens/contractors/ContractorListScreen.tsx:165-174 | `filter`: the kept items are exactly the items that satisfy the predicate, each kept as many times as it occurs. |
| ContractorList.KeepIsSubsequence | src/screens/contractors/ContractorListScreen.tsx:165-174 | `filter` keeps the list order. |
| ContractorList.Filtered | src/screens/contractors/ContractorListScreen.tsx:165-174 | A blank query shows the whole list. Otherwise the matching contractors are shown, in order. |
| ContractorList.FilteredIsSubsequence | src/screens/contractors/ContractorListScreen.tsx:165-174 | The filtered list is a subsequence of the loaded one. |
| ContractorList.LoadRequest | src/screens/contractors/ContractorListScreen.tsx:89-110 | A request is made iff the category code and the user's zip are non-empty. It is a GET of the featured-experts path for exactly those two. |
| ContractorList.Loaded | src/screens/contractors/ContractorListScreen.tsx:118-130 | At most 6 contractors: the first ones of a successful response, and none otherwise. |
| ContractorList.Without | src/screens/contractors/ContractorListScreen.tsx:178-179 | Removing an id keeps every other id. |
| ContractorList.WithoutDistinct | src/screens/contractors/ContractorListScreen.tsx:178-179 | Removing an id from a duplicate-free list keeps it duplicate-free and shortens it by one when the id was there. |
| ContractorList.Selection.constructor | src/screens/contractors/ContractorListScreen.tsx:85 | Nothing is selected. |
| ContractorList.Selection.Toggle | src/screens/contractors/ContractorListScreen.tsx:176-191 | A selected id is removed. A new id is appended when fewer than 3 are selected; otherwise the selection is kept and the limit alert shows. An id is selected afterwards iff it was added. |
| ContractorList.Slugs | src/screens/contractors/ContractorListScreen.tsx:224 | The slugs of the chosen contractors, in order. |
| ContractorList.GeneralLeadParams | src/screens/contractors/ContractorListScreen.tsx:201-210 | The "Yes" of the no-contractors prompt opens a general lead with no member slugs, the route's service title and the route's three ids unchanged. |
| ContractorList.GetQuote | src/screens/contractors/ContractorListScreen.tsx:193-238 | With nothing loaded, it prompts for a general lead; with no selection, it asks for one. A selection that matches no listed contractor throws. Otherwise it navigates with the chosen slugs, a member lead, and the first chosen contractor's first category ids, or 1, 1 and 0. |
| ContractorList.GetQuoteWithListedSelection | src/screens/contractors/ContractorListScreen.tsx:223-237 | When every selected id is a listed contractor, it always navigates, and the chosen contractors keep the list order. |
| ContractorList.PromptAsWritten.Commit | src/screens/contractors/ContractorListScreen.tsx:133-163 | A changed dependency, the latch included, cancels the pending timer. The effect then sets the latch and starts a new timer. |
| ContractorList.PromptAsWritten.Elapse | src/screens/contractors/ContractorListScreen.tsx:142-160 | A pending timer shows the prompt once. |
| ContractorList.AsWrittenEmptyVisit | src/screens/contractors/ContractorListScreen.tsx:133-163 | On a focused, loaded, empty screen, the prompt is shown 0 times. |
| ContractorList.PromptCorrected.Commit | src/screens/contractors/ContractorListScreen.tsx:133-163 | The corrected effect starts the timer only while not yet prompted. It keeps the invariant "shown at most once, and prompted iff shown". |
| ContractorList.PromptCorrected.Elapse | src/screens/contractors/ContractorListScreen.tsx:142-160 | The timer sets the latch and shows the prompt, and only for a run whose conditions held. |
| ContractorList.CorrectedEmptyVisit | src/screens/contractors/ContractorListScreen.tsx:133-163 | On the same visit, the corrected effect shows the prompt exactly once. |
| QuoteRequest.InitialForm | src/screens/quote/QuoteRequestScreen.tsx:78-94 | Each of the eight contact and address fields starts as the signed-in user's field of the same meaning (an absent optional one as empty); with no user all are empty. The timeframe, project info and consent start empty. |
| QuoteRequest.CanSubmit | src/screens/quote/QuoteRequestScreen.tsx:96-107 | Submit is enabled iff the nine text fields are non-blank, a timeframe is chosen and the terms are agreed. |
| QuoteRequest.LeadPath | src/screens/quote/QuoteRequestScreen.tsx:160-162 | The general-lead path is used iff the route asks for `generalleadv1`; otherwise the member-lead path. |
| QuoteRequest.BuildLeadBody | src/screens/quote/QuoteRequestScreen.tsx:140-166 | The three ids come from the route unchanged. The nine typed text fields are sent trimmed and the timeframe untrimmed. `terms_and_condition` is empty, `cptcha_token` is the reCAPTCHA token, `signup_url` is the fixed URL and `cert_url` is the certificate. `member_slugs` is present iff the endpoint is not the general one, and it is the slugs joined by commas. |
| QuoteRequest.LeadBodyTrimmed | src/screens/quote/QuoteRequestScreen.tsx:140-158 | Each text field but the timeframe is the trim of what was typed, and trimming it again changes nothing. |
| QuoteRequest.SubmittableBodyFilled | src/screens/quote/QuoteRequestScreen.tsx:96-158 | When the form passes the submit gate, none of the nine trimmed text fields and not the timeframe is empty in the body. |
| QuoteRequest.WithId | src/screens/quote/QuoteRequestScreen.tsx:140-143 | `JSON.stringify` drops an `undefined` id: the key is added with the id as a number exactly when the id is present, and every other key keeps its value. |
| QuoteRequest.TextFields | src/screens/quote/QuoteRequestScreen.tsx:144-157 | The text members include none of the three id keys and not `member_slugs`. |
| QuoteRequest.TextFieldsContact | src/screens/quote/QuoteRequestScreen.tsx:144-147 | `first_name`, `last_name`, `email` and `phone` hold the body's fields of those names. |
| QuoteRequest.TextFieldsAddress | src/screens/quote/QuoteRequestScreen.tsx:148-151 | `address`, `city`, `state` and `zip` hold the body's fields of those names. |
| QuoteRequest.TextFieldsRequest | src/screens/quote/QuoteRequestScreen.tsx:152-157 | `timeframe`, `project_info`, `terms_and_condition`, `cptcha_token`, `signup_url` and `cert_url` hold the body's fields of those names. |
| QuoteRequest.BodyJson | src/screens/quote/QuoteRequestScreen.tsx:140-166 | The wire body: each id key and `member_slugs` is present exactly when its value is, and holds that value; every text member is sent. |
| QuoteRequest.LeadRequest | src/screens/quote/QuoteRequestScreen.tsx:169-173 | A POST of the lead body to the lead path, without a token. |
| QuoteRequest.MemberSlugsRoundTrip | src/screens/quote/QuoteRequestScreen.tsx:164-166 | Splitting `member_slugs` on commas gives back the slugs when none holds a comma. |
| QuoteRequest.FromContractorList | src/screens/quote/QuoteRequestScreen.tsx:140-166 | A quote started from the contractor list sends a member lead with the chosen slugs. One started from the no-contractors prompt sends a general lead without slugs. |
| QuoteRequest.OutcomeOf | src/screens/quote/QuoteRequestScreen.tsx:177-191 | Submitted iff the response succeeded. Otherwise the alert shows the server message, else the default text. |
| QuoteRequest.QuoteScreen.constructor | src/screens/quote/QuoteRequestScreen.tsx:78-94 | The form starts as `InitialForm`, with no certificate, no pending submit and not submitting. |
| QuoteRequest.QuoteScreen.Edit | src/screens/quote/QuoteRequestScreen.tsx:78-90 | Editing changes only the form. |
| QuoteRequest.QuoteScreen.HandleSubmit | src/screens/quote/QuoteRequestScreen.tsx:109-134 | Missing fields are reported. Without a certificate, the submit is parked until one arrives. With one, reCAPTCHA opens. |
| QuoteRequest.QuoteScreen.OnCertUrl | src/screens/quote/QuoteRequestScreen.tsx:447-455 | The certificate is stored, and a parked submit proceeds to reCAPTCHA. |
| QuoteRequest.QuoteScreen.OnCertError | src/screens/quote/QuoteRequestScreen.tsx:456-467 | A parked submit is dropped with an alert. |
| QuoteRequest.QuoteScreen.OnRecaptchaVerify | src/screens/quote/QuoteRequestScreen.tsx:136-202 | The outcome is that of the client's retry run on the lead request. Every request sent is that lead request. Submitting ends false, and the form is untouched. |
| Profile.Initials | src/screens/profile/ProfileScreen.tsx:28-33 | Never empty. With both names blank (or no user), `U`. Otherwise the upper-cased first characters of the trimmed names: 1 or 2 characters, with the second trim removing nothing. |
| Profile.FullName | src/screens/profile/ProfileScreen.tsx:35-40 | Never empty: both trimmed names with one space, one name alone when the other is blank, or `User`. |
| Profile.FullNameTrim | src/screens/profile/ProfileScreen.tsx:38 | The outer trim drops exactly the joining space when a name is blank. |
| Profile.UserIdLabel | src/screens/profile/ProfileScreen.tsx:42 | The placeholder label appears iff there is no user or the id is 0. Otherwise the label is the prefix followed by the id's decimal text. |
| Profile.UserIdLabelReadsBack | src/screens/profile/ProfileScreen.tsx:42 | For a positive id, the label's digits read back as the id. |
| Profile.StateZip | src/screens/profile/ProfileScreen.tsx:49 | State and zip joined by a space, either alone when the other is blank, or nothing. |
| Profile.AddressLineTop | src/screens/profile/ProfileScreen.tsx:44-54 | Never empty: line 1 and state/zip joined by a comma, either alone, or a dash when all are blank. |
| Profile.AddressLineBottom | src/screens/profile/ProfileScreen.tsx:56-59 | Never empty: the trimmed city, or a dash exactly when the city is missing or blank. |
| Layout.Clamp | src/utils/layout.ts:13-16 | When min ≤ max, the result lies in range, and a value already in range is returned unchanged. When min > max, the result is min. |
| Layout.ClampIdempotent | src/utils/layout.ts:13-16 | Clamping twice is clamping once. |
| Layout.ClampMonotone | src/utils/layout.ts:13-16 | Clamping preserves order. |
| Layout.IsTablet | src/utils/layout.ts:4-11 | Tablet iff both window sides are at least 768. |
| Layout.TabletRotation | src/utils/layout.ts:4-11 | Swapping width and height does not change the flag. |

## Left out

- Numbers: JSON numbers are integers, and `Layout` works over reals. Fractions in JSON, `NaN` and infinities are not modelled.
- `JSON.parse` and `JSON.stringify` are given functions. Only `parse` rejecting a blank text is assumed, where a lemma states it as a requirement.
- I/O and clocks: `fetch`, timers and the web views are not modelled. The transport is a function from call number to outcome, and waiting only logs its delay.
- `null` and `undefined` are one `None`. Where the code tells them apart (`options.body !== undefined`), the model treats a `null` body as absent.
- Thunk results are typed values. The JSON of fulfilled data is not decoded into `AuthUser` records, and the login, register and profile-update request bodies are an opaque JSON value.
- The thunks' and `onRecaptchaVerify`'s `catch` branches are not modelled, because `apiRequest` returns on every path of the model.
- Alert callbacks are identifiers. Running one is the caller's job, after the press has closed the alert.
- The TrustedForm web view reload on `reset` is not modelled. The `onError` prop being optional is modelled by the report effect that the caller may ignore.
- The fallback return after the retry loop (src/api/client.ts:139-144) is unreachable, and the model proves it so; its message is therefore never observed.
- `JsText.ToLower` and `JsText.ToUpper` map ASCII letters only; other characters are unchanged.
- `JsText.SliceUnits` never splits a surrogate pair, where JavaScript's `slice` can leave half a pair.
- `Profile.Initials` takes the first character of each name. JavaScript's `[0]` takes the first UTF-16 unit, which is half a pair for characters outside the Basic Multilingual Plane.
- `formatDateLong`/`formatDateShort`, the home screen, every rendering detail, Redux's own machinery, `certify()` and opening reCAPTCHA are not modelled. The last two are returned as `SubmitStep` values.
- `ContractorList.AsWrittenEmptyVisit` assumes that React commits the re-render caused by the latch before the 150 ms timer fires. That is what React does in practice, but it is not guaranteed.
- `ContractorList.GetQuote` models a stale selection, left over after a reload, as `TypeErrorThrown` (src/screens/contractors/ContractorListScreen.tsx:227-228). What follows that throw is not modelled.

## Findings

| source | as written | input that shows it | evidently intended | confidence | as-written member | corrected member |
|---|---|---|---|---|---|---|
| src/screens/contractors/ContractorListScreen.tsx:133-163 | The effect sets `didPromptNoContractors` in state and also depends on it. The re-render re-runs the effect, and its cleanup clears the 150 ms timer before it fires; the latch then stops every later run. | A focused screen whose featured-experts request returns no contractors. | Show the "No contractors found" prompt once, e.g. by setting the latch in the timer callback or keeping it in a ref. | not executed | ContractorList.AsWrittenEmptyVisit | ContractorList.CorrectedEmptyVisit |
