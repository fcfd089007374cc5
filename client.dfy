/** The API client: one HTTP exchange classified into a tagged result, wrapped in a
    bounded retry loop. The transport is a scripted source of outcomes, one per call. */
module Client {
  import opened Wrappers
  import opened Json
  import JsText

  /** The message that marks a result as "retry this". */
  const Sentinel := "Invalid server response (expected JSON)."
  const MaxRetries := 2
  /** Error texts are cut to this many UTF-16 code units. */
  const PreviewUnits := 300
  const NetworkFailed := "Network request failed"

  datatype Method = GET | POST | PUT | PATCH | DELETE

  /** What a caller passes: `body` absent is `undefined`, `token` absent is null or undefined. */
  datatype RequestOptions = RequestOptions(httpMethod: Method, path: string, body: Option<Json>, token: Option<string>)

  /** What is handed to `fetch`. */
  datatype FetchRequest = FetchRequest(url: string, httpMethod: Method, headers: map<string, string>, body: Option<string>)

  /** One transport result: `fetch` and `res.text()` either give a status and the body
      text, or throw (`isError` tells whether the thrown value is an `Error`). */
  datatype Outcome = Response(status: int, text: string) | Throw(isError: bool, message: string)

  /** The normalised result. `Normalized` is an object the client builds; `Envelope` is a
      2xx body that already had a boolean `success` field, returned as it was. */
  datatype ApiResponse =
    | Normalized(success: bool, message: Option<string>, data: Option<Json>)
    | Envelope(fields: map<string, Json>)
  {
    /** `result.success`, as a truth value */
    predicate Succeeded() {
      match this
      case Normalized(s, _, _) => s
      case Envelope(f) => "success" in f && Truthy(f["success"])
    }

    /** `result.message` */
    function Message(): Option<Json> {
      match this
      case Normalized(_, m, _) => if m.Some? then Some(JString(m.value)) else None
      case Envelope(f) => if "message" in f then Some(f["message"]) else None
    }

    /** `result.data` */
    function Data(): Option<Json> {
      match this
      case Normalized(_, _, d) => d
      case Envelope(f) => if "data" in f then Some(f["data"]) else None
    }

    predicate IsSentinel() {
      Message() == Some(JString(Sentinel))
    }
  }

  /** One call of `executeRequest`: it returns a result or throws. */
  datatype Attempt = Returned(response: ApiResponse) | Thrown(isError: bool, message: string)

  /** `res.ok`: the Successful 2xx class (RFC 9110 section 15.3). */
  predicate IsOk(status: int) {
    200 <= status <= 299
  }

  function RequestFailed(status: int): string {
    "Request failed (" + JsText.IntToString(status) + ")"
  }

  /** The value of `json && typeof json === 'object' && 'message' in json && json.message`. */
  function MessageChain(json: Json): (m: Json)
    // A falsy value stops the chain and is its value; a truthy one that is not an
    // object holding `message` gives `false`; otherwise the chain yields the field.
    ensures !Truthy(json) ==> m == json
    ensures Truthy(json) && !(json.JObject? && "message" in json.fields) ==> m == JBool(false)
    ensures json.JObject? && "message" in json.fields ==> m == json.fields["message"]
  {
    if !Truthy(json) then json
    else if !IsObjectLike(json) then JBool(false)
    else if HasKey(json, "message") then json.fields["message"]
    else JBool(false)
  }

  /** `executeRequest` after `fetch`: classify one transport outcome. */
  function Execute(parse: string -> Parsed, o: Outcome): (a: Attempt)
    // It throws exactly when the transport threw or a 2xx body is not JSON.
    ensures a.Thrown? <==> o.Throw? || (IsOk(o.status) && o.text != [] && parse(o.text).SyntaxError?)
    ensures o.Throw? ==> a == Thrown(o.isError, o.message)
    // A 2xx body that is not JSON rethrows the parser's `SyntaxError`, an `Error`.
    ensures o.Response? && IsOk(o.status) && o.text != [] && parse(o.text).SyntaxError? ==>
      a == Thrown(true, parse(o.text).message)
    // A non-2xx response is always a failure the client builds, and it has a message.
    ensures o.Response? && !IsOk(o.status) ==>
      a.Returned? && a.response.Normalized? && !a.response.success && a.response.message.Some?
    // A 2xx body is returned as it was only when it already has a boolean `success`.
    ensures a.Returned? && a.response.Envelope? <==>
      o.Response? && IsOk(o.status) && o.text != [] && parse(o.text).Parsed?
      && parse(o.text).value.JObject? && "success" in parse(o.text).value.fields
      && parse(o.text).value.fields["success"].JBool?
    ensures a.Returned? && a.response.Envelope? ==> a.response.fields == parse(o.text).value.fields
  {
    match o
    case Throw(isError, msg) => Thrown(isError, msg)
    case Response(status, raw) =>
      var parsed := if raw == [] then Parsed(JNull) else parse(raw);
      match parsed
      case SyntaxError(err) =>
        if !IsOk(status) then
          var preview := JsText.SliceUnits(raw, PreviewUnits);
          Returned(Normalized(false, Some(if preview != [] then preview else RequestFailed(status)), Some(JNull)))
        else
          Thrown(true, err)
      case Parsed(json) =>
        var trimmed := JsText.Trim(raw);
        if !IsOk(status) then
          var fromJson := MessageChain(json);
          var message :=
            if fromJson != JNull then ToJsString(fromJson)
            else if trimmed != [] then JsText.SliceUnits(trimmed, PreviewUnits)
            else RequestFailed(status);
          Returned(Normalized(false, Some(message), Some(if json != JNull then json else JString(trimmed))))
        else if json == JNull then
          Returned(Normalized(true, None, Some(JObject(map[]))))
        else if json.JObject? && "success" in json.fields && json.fields["success"].JBool? then
          Returned(Envelope(json.fields))
        else
          Returned(Normalized(true, None, Some(json)))
  }

  /** `token` is truthy: present and not empty. */
  predicate HasToken(token: Option<string>) {
    token.Some? && token.value != []
  }

  /** The request `apiRequest` sends for `opts` (RFC 6750 section 2.1 for the bearer
      header). */
  function RequestFor(baseUrl: string, stringify: Json -> string, opts: RequestOptions): (req: FetchRequest)
    ensures req.url == baseUrl + opts.path && req.httpMethod == opts.httpMethod
    ensures "Accept" in req.headers && req.headers["Accept"] == "application/json"
    ensures ("Content-Type" in req.headers) <==> opts.body.Some?
    ensures "Content-Type" in req.headers ==> req.headers["Content-Type"] == "application/json"
    ensures ("Authorization" in req.headers) <==> HasToken(opts.token)
    ensures "Authorization" in req.headers ==> req.headers["Authorization"] == "Bearer " + opts.token.value
    ensures req.headers.Keys <= {"Accept", "Content-Type", "Authorization"}
    ensures req.body.Some? <==> opts.body.Some?
    ensures req.body.Some? ==> req.body.value == stringify(opts.body.value)
  {
    var h0 := map["Accept" := "application/json"];
    var h1 := if opts.body.Some? then h0["Content-Type" := "application/json"] else h0;
    var h2 := if HasToken(opts.token) then h1["Authorization" := "Bearer " + opts.token.value] else h1;
    FetchRequest(baseUrl + opts.path, opts.httpMethod, h2,
                 if opts.body.Some? then Some(stringify(opts.body.value)) else None)
  }

  /** The backoff `apiRequest` waits after a retryable `attempt`: 200 ms steps after a
      throw, 100 ms steps after the sentinel. */
  function Backoff(step: Attempt, attempt: nat): nat {
    if step.Thrown? then 200 * (attempt + 1) else 100 * (attempt + 1)
  }

  /** An attempt the loop repeats when tries are left: a throw, or a result that is not a
      success and carries the sentinel. */
  predicate Retryable(a: Attempt) {
    a.Thrown? || (!a.response.Succeeded() && a.response.IsSentinel())
  }

  /** What the loop body does with one attempt. */
  datatype Decision = Stop(response: ApiResponse) | Retry(delay: nat)

  /** The body of the retry loop for the `attempt`-th try (counted from 0). */
  function Decide(step: Attempt, attempt: nat): (d: Decision)
    ensures d.Retry? <==> Retryable(step) && attempt < MaxRetries
    ensures d.Retry? ==> d.delay == Backoff(step, attempt)
    ensures d.Stop? && step.Returned? ==> d.response == step.response
    ensures d.Stop? && step.Thrown? ==>
      d.response == Normalized(false, Some(if step.isError then step.message else NetworkFailed), Some(JNull))
  {
    match step
    case Returned(result) =>
      if result.Succeeded() || (TruthyOpt(result.Message()) && !result.IsSentinel()) then Stop(result)
      else if result.IsSentinel() && attempt < MaxRetries then Retry(100 * (attempt + 1))
      else Stop(result)
    case Thrown(isError, msg) =>
      if attempt < MaxRetries then Retry(200 * (attempt + 1))
      else Stop(Normalized(false, Some(if isError then msg else NetworkFailed), Some(JNull)))
  }

  /** The result of a whole `apiRequest`: the response, the number of transport calls and
      the backoff delays (milliseconds) waited between them. */
  datatype Run = Run(response: ApiResponse, calls: nat, delays: seq<nat>)

  /** The retry loop from the `attempt`-th try on, where `steps[k]` is what the `k`-th
      try of `executeRequest` gives. */
  function RunFrom(steps: seq<Attempt>, attempt: nat): Run
    requires attempt <= MaxRetries < |steps|
    decreases MaxRetries - attempt
  {
    match Decide(steps[attempt], attempt)
    case Stop(result) => Run(result, 1, [])
    case Retry(delay) =>
      var rest := RunFrom(steps, attempt + 1);
      Run(rest.response, 1 + rest.calls, [delay] + rest.delays)
  }

  /** The three tries `apiRequest` can make when its first one is the transport's call
      `first`, where `attempts(n)` is what `executeRequest` makes of the n-th call. */
  function TriesFrom(attempts: nat -> Attempt, first: nat): (steps: seq<Attempt>)
    ensures |steps| == MaxRetries + 1
    ensures forall k | 0 <= k < |steps| :: steps[k] == attempts(first + k)
  {
    seq(MaxRetries + 1, k requires 0 <= k => attempts(first + k))
  }

  /** What `executeRequest` makes of each call of the transport. */
  function Classified(parse: string -> Parsed, network: nat -> Outcome): nat -> Attempt {
    (n: nat) => Execute(parse, network(n))
  }

  /** `apiRequest` once the request is built, started on the transport's call `first`. */
  function ApiRun(parse: string -> Parsed, network: nat -> Outcome, first: nat): Run {
    RunFrom(TriesFrom(Classified(parse, network), first), 0)
  }

  /** The delays waited after the tries `from` .. `|seen| - 1`. */
  function Delays(seen: seq<Attempt>, from: nat): seq<nat>
    decreases |seen| - from
  {
    if from >= |seen| then [] else [Backoff(seen[from], from)] + Delays(seen, from + 1)
  }

  lemma {:induction false} DelaysSnoc(seen: seq<Attempt>, step: Attempt, from: nat)
    requires from <= |seen|
    ensures Delays(seen + [step], from) == Delays(seen, from) + [Backoff(step, |seen|)]
    decreases |seen| - from
  {
    if from < |seen| {
      assert (seen + [step])[from] == seen[from];
      DelaysSnoc(seen, step, from + 1);
    }
  }

  /** The loop's full characterisation: a run makes `calls` tries, every try but the last
      is retried after its backoff, and the last one decides the response. */
  lemma {:induction false} RunShape(steps: seq<Attempt>, attempt: nat)
    requires attempt <= MaxRetries < |steps|
    ensures var run := RunFrom(steps, attempt);
      && 1 <= run.calls <= MaxRetries + 1 - attempt
      && |run.delays| == run.calls - 1
      && (forall k | attempt <= k < attempt + run.calls - 1 :: Decide(steps[k], k).Retry?)
      && Decide(steps[attempt + run.calls - 1], attempt + run.calls - 1) == Stop(run.response)
      && run.delays == Delays(steps[..attempt + run.calls - 1], attempt)
    decreases MaxRetries - attempt
  {
    var run := RunFrom(steps, attempt);
    match Decide(steps[attempt], attempt)
    case Stop(result) =>
      assert run == Run(result, 1, []);
    case Retry(delay) =>
      RunShape(steps, attempt + 1);
      var n := attempt + run.calls - 1;
      assert steps[..n][attempt] == steps[attempt];
  }

  /** The converse of `RunShape`: tries that were all retried, then one that stops,
      determine the run. */
  lemma {:induction false} RunOfTries(steps: seq<Attempt>, retried: seq<Attempt>, last: Attempt, attempt: nat)
    requires attempt <= |retried| <= MaxRetries < |steps|
    requires forall k | attempt <= k < |retried| :: retried[k] == steps[k] && Decide(retried[k], k).Retry?
    requires steps[|retried|] == last && Decide(last, |retried|).Stop?
    ensures RunFrom(steps, attempt)
      == Run(Decide(last, |retried|).response, |retried| + 1 - attempt, Delays(retried, attempt))
    decreases |retried| - attempt
  {
    if attempt < |retried| {
      RunOfTries(steps, retried, last, attempt + 1);
    }
  }

  /** Every try throws: the loop waits 200 ms, then 400 ms, and after the third call
      reports the last error's message, or a generic one for a thrown non-`Error`. */
  lemma {:induction false} AllThrown(steps: seq<Attempt>)
    requires |steps| == MaxRetries + 1 && forall k | 0 <= k < |steps| :: steps[k].Thrown?
    ensures RunFrom(steps, 0) == Run(
      Normalized(false, Some(if steps[2].isError then steps[2].message else NetworkFailed), Some(JNull)),
      3, [200, 400])
  {
    RunOfTries(steps, steps[..2], steps[2], 0);
  }

  /** Every try fails with the sentinel: the loop waits 100 ms, then 200 ms, and returns
      the third result as it is. */
  lemma {:induction false} AlwaysSentinel(steps: seq<Attempt>)
    requires |steps| == MaxRetries + 1
    requires forall k | 0 <= k < |steps| ::
      steps[k].Returned? && !steps[k].response.Succeeded() && steps[k].response.IsSentinel()
    ensures RunFrom(steps, 0) == Run(steps[2].response, 3, [100, 200])
  {
    RunOfTries(steps, steps[..2], steps[2], 0);
  }

  /** The sentinel is never made by the client itself: it comes from a response, and on a
      2xx only from a body that had its own boolean `success` and that `message`. */
  lemma SentinelFromServer(parse: string -> Parsed, o: Outcome)
    requires Execute(parse, o).Returned? && Execute(parse, o).response.IsSentinel()
    ensures o.Response?
    ensures IsOk(o.status) ==>
      Execute(parse, o).response.Envelope? && Execute(parse, o).response.fields["message"] == JString(Sentinel)
  {
  }

  /** A non-2xx response that does not carry the sentinel ends the request after one call
      and no wait. */
  lemma {:induction false} FailureIsFinal(parse: string -> Parsed, network: nat -> Outcome, first: nat)
    requires network(first).Response? && !IsOk(network(first).status)
    requires !Execute(parse, network(first)).response.IsSentinel()
    ensures ApiRun(parse, network, first) == Run(Execute(parse, network(first)).response, 1, [])
  {
    var steps := TriesFrom(Classified(parse, network), first);
    assert steps[0] == Execute(parse, network(first));
    RunOfTries(steps, [], steps[0], 0);
  }

  /** A non-2xx body that is not JSON: the message is the body cut to its first 300
      UTF-16 units, the whole of it when it fits, and never empty. */
  lemma {:induction false} FailurePreview(parse: string -> Parsed, status: int, raw: string)
    requires !IsOk(status) && raw != [] && parse(raw).SyntaxError?
    ensures var m := Execute(parse, Response(status, raw)).response.message.value;
      && m == JsText.SliceUnits(raw, PreviewUnits) && JsText.Utf16Length(m) <= PreviewUnits
      && m <= raw && m != [] && (JsText.Utf16Length(raw) <= PreviewUnits ==> m == raw)
    ensures Execute(parse, Response(status, raw)).response.data == Some(JNull)
  {
    JsText.SliceUnitsWhole(raw, PreviewUnits);
  }

  /** A non-2xx JSON object body: its `message` field rendered as a string; a null one
      falls back to the trimmed body text; a missing one gives "false", because the `&&`
      chain yields `false` and `??` keeps it. */
  lemma FailureMessage(parse: string -> Parsed, status: int, raw: string, fields: map<string, Json>)
    requires !IsOk(status) && raw != [] && parse(raw) == Parsed(JObject(fields))
    ensures var r := Execute(parse, Response(status, raw)).response;
      && r.data == Some(JObject(fields))
      && ("message" in fields && fields["message"] != JNull ==> r.message == Some(ToJsString(fields["message"])))
      && ("message" in fields && fields["message"] == JNull && JsText.Trim(raw) != [] ==>
            r.message == Some(JsText.SliceUnits(JsText.Trim(raw), PreviewUnits)))
      && ("message" !in fields ==> r.message == Some("false"))
  {
  }

  /** A non-2xx JSON body that is not an object. A falsy scalar (`0`, `false`, `""`) is
      its own message, rendered by `String`. A truthy scalar or an array gives `"false"`.
      `null` falls back to the trimmed text, which is also the data. */
  lemma ScalarFailureMessage(parse: string -> Parsed, status: int, raw: string, json: Json)
    requires !IsOk(status) && raw != [] && parse(raw) == Parsed(json) && !json.JObject?
    ensures var r := Execute(parse, Response(status, raw)).response;
      && (json != JNull && !Truthy(json) ==> r.message == Some(ToJsString(json)) && r.data == Some(json))
      && (Truthy(json) ==> r.message == Some("false") && r.data == Some(json))
      && (json == JNull && JsText.Trim(raw) != [] ==>
            r.message == Some(JsText.SliceUnits(JsText.Trim(raw), PreviewUnits))
            && r.data == Some(JString(JsText.Trim(raw))))
      && (json == JNull && JsText.Trim(raw) == [] ==>
            r.message == Some(RequestFailed(status)) && r.data == Some(JString([])))
  {
  }

  /** A 2xx response with no body, or with `null`, is a success whose data is `{}`. */
  lemma EmptySuccess(parse: string -> Parsed, status: int, raw: string)
    requires IsOk(status) && (raw == [] || parse(raw) == Parsed(JNull))
    ensures Execute(parse, Response(status, raw)) == Returned(Normalized(true, None, Some(JObject(map[]))))
  {
  }

  /** A 2xx body made only of whitespace is not JSON (RFC 8259 section 2), so the try
      throws and is retried. */
  lemma BlankSuccessThrows(parse: string -> Parsed, status: int, raw: string)
    requires RejectsBlank(parse)
    requires IsOk(status) && raw != [] && JsText.IsBlank(raw)
    ensures Execute(parse, Response(status, raw)).Thrown?
  {
    assert parse(raw).SyntaxError?;
  }

  /** Any other 2xx JSON value becomes the data of a success. */
  lemma BareSuccess(parse: string -> Parsed, status: int, raw: string, json: Json)
    requires IsOk(status) && raw != [] && parse(raw) == Parsed(json) && json != JNull
    requires !(json.JObject? && "success" in json.fields && json.fields["success"].JBool?)
    ensures Execute(parse, Response(status, raw)) == Returned(Normalized(true, None, Some(json)))
  {
  }

  /** The client over a scripted transport: it counts calls and logs, as ghost state, the
      requests it sent and the delays it waited. */
  class ApiClient {
    const baseUrl: string
    const parse: string -> Parsed
    const stringify: Json -> string
    /** The outcome of the transport's n-th call. */
    const network: nat -> Outcome
    /** What `executeRequest` makes of the transport's n-th call. */
    ghost const attempts: nat -> Attempt
    var calls: nat
    ghost var sent: seq<FetchRequest>
    ghost var delays: seq<nat>

    constructor (baseUrl: string, parse: string -> Parsed, stringify: Json -> string, network: nat -> Outcome)
      ensures this.baseUrl == baseUrl && this.parse == parse && this.stringify == stringify
      ensures this.network == network
      ensures attempts == Classified(parse, network) && Valid()
      ensures calls == 0 && sent == [] && delays == []
    {
      this.baseUrl, this.parse, this.stringify, this.network := baseUrl, parse, stringify, network;
      attempts := Classified(parse, network);
      calls, sent, delays := 0, [], [];
    }

    /** `attempts` classifies every call of the transport. */
    ghost predicate Valid() {
      forall n: nat {:trigger Execute(parse, network(n))} :: attempts(n) == Execute(parse, network(n))
    }

    /** `executeRequest`: one `fetch` and the classification of what it gave. */
    method ExecuteRequest(req: FetchRequest) returns (step: Attempt)
      requires Valid()
      modifies this
      ensures step == attempts(old(calls))
      ensures calls == old(calls) + 1 && sent == old(sent) + [req] && delays == old(delays)
    {
      var o := network(calls);
      calls := calls + 1;
      sent := sent + [req];
      step := Execute(parse, o);
    }

    /** `await new Promise(resolve => setTimeout(resolve, ms))` */
    method Sleep(ms: nat)
      modifies this
      ensures delays == old(delays) + [ms] && calls == old(calls) && sent == old(sent)
    {
      delays := delays + [ms];
    }

    /** `apiRequest` */
    method ApiRequest(opts: RequestOptions) returns (r: ApiResponse)
      requires Valid()
      modifies this
      ensures var run := RunFrom(TriesFrom(attempts, old(calls)), 0);
        && r == run.response
        && calls == old(calls) + run.calls
        && delays == old(delays) + run.delays
        && |sent| == |old(sent)| + run.calls
      ensures sent[..|old(sent)|] == old(sent)
      ensures forall k | |old(sent)| <= k < |sent| :: sent[k] == RequestFor(baseUrl, stringify, opts)
    {
      var req := RequestFor(baseUrl, stringify, opts);
      ghost var first := calls;
      // The tries made so far, all of them retried.
      ghost var seen: seq<Attempt> := [];
      var lastErrorMessage: Option<string> := None;
      var attempt := 0;
      while attempt <= MaxRetries
        invariant attempt <= MaxRetries
        invariant calls == first + attempt && |seen| == attempt
        invariant |old(sent)| + attempt == |sent| && sent[..|old(sent)|] == old(sent)
        invariant forall k | |old(sent)| <= k < |sent| :: sent[k] == req
        invariant forall k | 0 <= k < attempt :: seen[k] == attempts(first + k)
        invariant forall k | 0 <= k < attempt :: Decide(seen[k], k).Retry?
        invariant delays == old(delays) + Delays(seen, 0)
      {
        var step := ExecuteRequest(req);
        // `Decide` is the body of the source's loop: return, or wait and continue.
        match Decide(step, attempt) {
          case Stop(result) =>
            RunOfTries(TriesFrom(attempts, first), seen, step, 0);
            return result;
          case Retry(ms) =>
            lastErrorMessage := if step.Thrown? && step.isError then Some(step.message) else None;
            Sleep(ms);
            DelaysSnoc(seen, step, 0);
            seen, attempt := seen + [step], attempt + 1;
        }
      }
      // Every iteration returns or continues with attempt < MaxRetries: the fallback
      // after the loop cannot be reached.
      assert false;
      r := Normalized(false, Some(lastErrorMessage.GetOr("Request failed")), Some(JNull));
    }
  }
}
