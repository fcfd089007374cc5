/** The contractor list screen: the featured-experts load, the search filter, the
    selection of up to three contractors, the "Get A Quote" action, and the automatic
    prompt shown when no contractor was found. */
module ContractorList {
  import opened Wrappers
  import opened JsText
  import Client
  import ServicesEndpoints

  const MaxDisplay := 6
  const MaxSelect := 3
  const MemberLead := "memberleadbyslug"
  const GeneralLead := "generalleadv1"

  /** The first entry of `service_categories`. */
  datatype ServiceCategory = ServiceCategory(typeId: int, mainCategoryId: int, key: int)

  /** A `Company` with the fields the screen's logic reads; a missing
      `service_categories` is the empty list. */
  datatype Company = Company(
    id: int,
    slug: string,
    name: string,
    address: string,
    city: string,
    categories: seq<ServiceCategory>)

  /** The screen's route parameters; the three ids may be missing. */
  datatype RouteParams = RouteParams(
    scCode: string,
    serviceTitle: string,
    serviceTypeId: Option<int>,
    mainCategoryId: Option<int>,
    categoryId: Option<int>)

  /** The parameters of the quote request screen. */
  datatype QuoteParams = QuoteParams(
    memberSlugs: seq<string>,
    serviceTypeId: Option<int>,
    mainCategoryId: Option<int>,
    categoryId: Option<int>,
    serviceTitle: string,
    leadEndpoint: string)

  // ----- sequences kept in order -----

  /** `xs` is `ys` with some elements left out, the rest in their order. */
  predicate IsSubsequence<T(==)>(xs: seq<T>, ys: seq<T>)
    decreases |ys|
  {
    if xs == [] then true
    else if ys == [] then false
    else if xs[0] == ys[0] then IsSubsequence(xs[1..], ys[1..])
    else IsSubsequence(xs, ys[1..])
  }

  /** `Array.prototype.filter` on companies. */
  function Keep(cs: seq<Company>, p: Company -> bool): (r: seq<Company>)
    ensures |r| <= |cs|
    ensures forall c | c in r :: c in cs && p(c)
    ensures forall c | c in cs && p(c) :: c in r
    // Every kept record is kept as many times as it occurs.
    ensures forall c :: multiset(r)[c] == if p(c) then multiset(cs)[c] else 0
  {
    if cs == [] then []
    else
      assert cs == [cs[0]] + cs[1..];
      (if p(cs[0]) then [cs[0]] else []) + Keep(cs[1..], p)
  }

  /** Filtering keeps the order of the list it filters. */
  lemma {:induction false} KeepIsSubsequence(cs: seq<Company>, p: Company -> bool)
    ensures IsSubsequence(Keep(cs, p), cs)
  {
    if cs != [] {
      KeepIsSubsequence(cs[1..], p);
      if p(cs[0]) {
        assert Keep(cs, p) == [cs[0]] + Keep(cs[1..], p);
        assert Keep(cs, p)[1..] == Keep(cs[1..], p);
      } else {
        assert Keep(cs, p) == Keep(cs[1..], p);
        SkipHead(Keep(cs[1..], p), cs);
      }
    }
  }

  /** A subsequence of the tail of `ys` is a subsequence of `ys`. */
  lemma {:induction false} SkipHead<T>(xs: seq<T>, ys: seq<T>)
    requires ys != [] && IsSubsequence(xs, ys[1..])
    ensures IsSubsequence(xs, ys)
    decreases |ys|, 0
  {
    if xs != [] && xs[0] == ys[0] {
      DropHead(xs, ys[1..]);
    }
  }

  /** Dropping the first element of a subsequence keeps it a subsequence. */
  lemma {:induction false} DropHead<T>(xs: seq<T>, ys: seq<T>)
    requires xs != [] && IsSubsequence(xs, ys)
    ensures IsSubsequence(xs[1..], ys)
    decreases |ys|, 1
  {
    if xs[0] == ys[0] {
      SkipHead(xs[1..], ys);
    } else {
      DropHead(xs, ys[1..]);
      SkipHead(xs[1..], ys);
    }
  }

  // ----- search -----

  /** A contractor matches when its name, address or city, lower-cased, contains `q`. */
  predicate Matches(c: Company, q: string) {
    Includes(ToLower(c.name), q) || Includes(ToLower(c.address), q) || Includes(ToLower(c.city), q)
  }

  /** `filteredContractors`: an empty query (after trimming and lower-casing) lists
      everyone; otherwise the matching contractors, in list order. */
  function Filtered(cs: seq<Company>, searchQuery: string): (r: seq<Company>)
    ensures ToLower(Trim(searchQuery)) == [] ==> r == cs
    ensures ToLower(Trim(searchQuery)) != [] ==>
      (forall c | c in cs :: c in r <==> Matches(c, ToLower(Trim(searchQuery))))
  {
    var q := ToLower(Trim(searchQuery));
    if q == [] then cs else Keep(cs, c => Matches(c, q))
  }

  /** Search never reorders: the result is always a subsequence of the list. */
  lemma FilteredIsSubsequence(cs: seq<Company>, searchQuery: string)
    ensures IsSubsequence(Filtered(cs, searchQuery), cs)
  {
    var q := ToLower(Trim(searchQuery));
    if q == [] {
      KeepIsSubsequence(cs, c => true);
      SameList(cs);
    } else {
      KeepIsSubsequence(cs, c => Matches(c, q));
    }
  }

  /** Every list is a subsequence of itself. */
  lemma {:induction false} SameList<T>(cs: seq<T>)
    ensures IsSubsequence(cs, cs)
  {
    if cs != [] {
      SameList(cs[1..]);
    }
  }

  // ----- loading -----

  /** The featured-experts request: none when the service code or the user's zip code is
      missing, otherwise a GET with one code and one zip. */
  function LoadRequest(scCode: string, userZip: Option<string>): (o: Option<Client.RequestOptions>)
    ensures o.Some? <==> scCode != [] && userZip.GetOr("") != []
    ensures o.Some? ==> o.value == Client.RequestOptions(Client.GET,
      ServicesEndpoints.FeaturedPath([scCode], [userZip.value]), None, None)
  {
    var zip := userZip.GetOr("");
    if scCode == [] || zip == [] then None
    else Some(Client.RequestOptions(Client.GET, ServicesEndpoints.FeaturedPath([scCode], [zip]), None, None))
  }

  /** The list shown after a load: the first six `company_details` of a successful
      response, and nothing otherwise. */
  function Loaded(succeeded: bool, details: Option<seq<Company>>): (r: seq<Company>)
    ensures |r| <= MaxDisplay
    ensures succeeded && details.Some? ==>
      r <= details.value && |r| == if |details.value| < MaxDisplay then |details.value| else MaxDisplay
    ensures !(succeeded && details.Some?) ==> r == []
  {
    if succeeded && details.Some? then
      if |details.value| <= MaxDisplay then details.value else details.value[..MaxDisplay]
    else []
  }

  // ----- selection -----

  predicate Distinct(s: seq<int>) {
    forall i, j | 0 <= i < j < |s| :: s[i] != s[j]
  }

  /** `prev.filter((i) => i !== id)` */
  function Without(s: seq<int>, x: int): (r: seq<int>)
    ensures forall y :: y in r <==> y in s && y != x
    ensures |r| <= |s|
  {
    if s == [] then []
    else (if s[0] == x then [] else [s[0]]) + Without(s[1..], x)
  }

  /** Removing an id from a list without repeats removes exactly one entry and leaves no
      repeats. */
  lemma {:induction false} WithoutDistinct(s: seq<int>, x: int)
    requires Distinct(s)
    ensures Distinct(Without(s, x))
    ensures x in s ==> |Without(s, x)| == |s| - 1
    ensures x !in s ==> Without(s, x) == s
  {
    if s != [] {
      assert Distinct(s[1..]) by {
        forall i, j | 0 <= i < j < |s[1..]| ensures s[1..][i] != s[1..][j] {
          assert s[1..][i] == s[i + 1] && s[1..][j] == s[j + 1];
        }
      }
      WithoutDistinct(s[1..], x);
      assert s[0] !in s[1..] by {
        forall k | 0 <= k < |s[1..]| ensures s[1..][k] != s[0] {
          assert s[1..][k] == s[k + 1];
        }
      }
      var rest := Without(s[1..], x);
      if s[0] != x {
        assert s[0] !in rest;
        assert Without(s, x) == [s[0]] + rest;
        forall i, j | 0 <= i < j < |[s[0]] + rest| ensures ([s[0]] + rest)[i] != ([s[0]] + rest)[j] {
          if i == 0 {
            assert ([s[0]] + rest)[j] == rest[j - 1];
          } else {
            assert ([s[0]] + rest)[i] == rest[i - 1] && ([s[0]] + rest)[j] == rest[j - 1];
          }
        }
        if x !in s {
          assert s == [s[0]] + s[1..];
        }
      } else {
        assert x !in s[1..];
      }
    }
  }

  /** The ids picked on the list: distinct and at most three, kept across toggles. */
  class Selection {
    var ids: seq<int>

    ghost predicate Valid()
      reads this
    {
      Distinct(ids) && |ids| <= MaxSelect
    }

    constructor ()
      ensures ids == [] && Valid()
    {
      ids := [];
    }

    /** `toggleSelection`: a picked id is removed; a new id is appended unless three are
        already picked, in which case nothing changes and the limit alert is shown. */
    method Toggle(id: int) returns (limitAlert: bool)
      requires Valid()
      modifies this
      ensures Valid()
      ensures id in old(ids) ==> !limitAlert && ids == Without(old(ids), id) && |ids| == |old(ids)| - 1
      ensures id !in old(ids) && |old(ids)| >= MaxSelect ==> limitAlert && ids == old(ids)
      ensures id !in old(ids) && |old(ids)| < MaxSelect ==> !limitAlert && ids == old(ids) + [id]
      ensures id in ids <==> id !in old(ids) && |old(ids)| < MaxSelect
    {
      if id in ids {
        WithoutDistinct(ids, id);
        ids := Without(ids, id);
        return false;
      }
      if |ids| >= MaxSelect {
        return true;
      }
      ghost var before := ids;
      ids := ids + [id];
      assert forall i | 0 <= i < |before| :: ids[i] == before[i];
      limitAlert := false;
    }
  }

  // ----- "Get A Quote" -----

  /** What pressing "Get A Quote" does. The prompt's "Yes" opens a general lead; a
      selection whose ids match no listed contractor makes the handler read a property
      of `undefined` and throw. */
  datatype QuoteAction =
    | PromptGeneralLead(onYes: QuoteParams)
    | SelectionRequired
    | Navigate(params: QuoteParams)
    | TypeErrorThrown

  /** The contractors whose id is picked, in list order. */
  function Selected(cs: seq<Company>, ids: seq<int>): seq<Company> {
    Keep(cs, (c: Company) => c.id in ids)
  }

  function Slugs(cs: seq<Company>): (r: seq<string>)
    ensures |r| == |cs| && forall i | 0 <= i < |cs| :: r[i] == cs[i].slug
  {
    seq(|cs|, i requires 0 <= i < |cs| => cs[i].slug)
  }

  /** The general-lead request the prompt's "Yes" opens: no slugs, the route's ids. */
  function GeneralLeadParams(route: RouteParams): (p: QuoteParams)
    ensures p.memberSlugs == [] && p.leadEndpoint == GeneralLead && p.serviceTitle == route.serviceTitle
    ensures p.serviceTypeId == route.serviceTypeId && p.mainCategoryId == route.mainCategoryId
    ensures p.categoryId == route.categoryId
  {
    QuoteParams([], route.serviceTypeId, route.mainCategoryId, route.categoryId, route.serviceTitle, GeneralLead)
  }

  /** `onGetQuote` */
  function GetQuote(route: RouteParams, contractors: seq<Company>, loading: bool, ids: seq<int>): (a: QuoteAction)
    ensures a.PromptGeneralLead? <==> !loading && contractors == []
    ensures a.PromptGeneralLead? ==> a.onYes == GeneralLeadParams(route)
    ensures a.SelectionRequired? <==> !(!loading && contractors == []) && ids == []
    ensures a.TypeErrorThrown? <==> !(!loading && contractors == []) && ids != [] && Selected(contractors, ids) == []
    ensures a.Navigate? ==>
      var chosen := Selected(contractors, ids);
      && chosen != []
      && a.params.memberSlugs == Slugs(chosen)
      && a.params.leadEndpoint == MemberLead
      && a.params.serviceTitle == route.serviceTitle
      // The ids come from the first chosen contractor's first category, or 1, 1, 0.
      && (chosen[0].categories == [] ==>
            a.params.serviceTypeId == Some(1) && a.params.mainCategoryId == Some(1) && a.params.categoryId == Some(0))
      && (chosen[0].categories != [] ==>
            var first := chosen[0].categories[0];
            a.params.serviceTypeId == Some(first.typeId) && a.params.mainCategoryId == Some(first.mainCategoryId)
            && a.params.categoryId == Some(first.key))
  {
    if !loading && contractors == [] then PromptGeneralLead(GeneralLeadParams(route))
    else if ids == [] then SelectionRequired
    else
      var chosen := Selected(contractors, ids);
      if chosen == [] then TypeErrorThrown
      else
        var firstCategory := if chosen[0].categories == [] then None else Some(chosen[0].categories[0]);
        Navigate(QuoteParams(
          Slugs(chosen),
          Some(if firstCategory.Some? then firstCategory.value.typeId else 1),
          Some(if firstCategory.Some? then firstCategory.value.mainCategoryId else 1),
          Some(if firstCategory.Some? then firstCategory.value.key else 0),
          route.serviceTitle,
          MemberLead))
  }

  /** When every picked id belongs to a listed contractor (it was toggled on this list
      and the list has not been reloaded since), the handler never throws, and the slugs
      are those of the chosen contractors in list order. */
  lemma {:induction false} GetQuoteWithListedSelection(route: RouteParams, contractors: seq<Company>, loading: bool, ids: seq<int>)
    requires contractors != [] && ids != []
    requires forall id | id in ids :: exists c | c in contractors :: c.id == id
    ensures GetQuote(route, contractors, loading, ids).Navigate?
    ensures IsSubsequence(Selected(contractors, ids), contractors)
  {
    assert ids[0] in ids;
    var c :| c in contractors && c.id == ids[0];
    assert c in Selected(contractors, ids);
    KeepIsSubsequence(contractors, (c: Company) => c.id in ids);
  }

  // ----- the automatic "no contractors" prompt -----

  /** What the prompt effect reads from a render, apart from its latch. */
  datatype ScreenDeps = ScreenDeps(focused: bool, loading: bool, empty: bool)

  /** The effect's own conditions, before the latch. */
  predicate Due(d: ScreenDeps) {
    d.focused && !d.loading && d.empty
  }

  /** The effect as written: the latch is state and one of the effect's dependencies.
      Each commit re-runs the effect when a dependency changed, first running the
      previous run's cleanup, which clears its pending 150 ms timer. */
  class PromptAsWritten {
    var didPrompt: bool
    var timerPending: bool
    var shown: nat
    var lastDeps: Option<(ScreenDeps, bool)>

    constructor ()
      ensures !didPrompt && !timerPending && shown == 0 && lastDeps == None
    {
      didPrompt := false;
      timerPending := false;
      shown := 0;
      lastDeps := None;
    }

    /** A commit with the given screen state. */
    method Commit(d: ScreenDeps)
      modifies this
      ensures old(lastDeps) == Some((d, old(didPrompt))) ==>
        didPrompt == old(didPrompt) && timerPending == old(timerPending) && lastDeps == old(lastDeps)
      ensures old(lastDeps) != Some((d, old(didPrompt))) ==>
        && timerPending == (Due(d) && !old(didPrompt))
        && didPrompt == (old(didPrompt) || timerPending)
        && lastDeps == Some((d, old(didPrompt)))
      ensures shown == old(shown)
    {
      var deps := (d, didPrompt);
      if lastDeps == Some(deps) {
        return;
      }
      timerPending := false;
      lastDeps := Some(deps);
      if Due(d) && !didPrompt {
        didPrompt := true;
        timerPending := true;
      }
    }

    /** The 150 ms timer fires, if it is still pending. */
    method Elapse()
      modifies this
      ensures shown == old(shown) + (if old(timerPending) then 1 else 0)
      ensures !timerPending && didPrompt == old(didPrompt) && lastDeps == old(lastDeps)
    {
      if timerPending {
        timerPending := false;
        shown := shown + 1;
      }
    }
  }

  /** A focused screen that has loaded an empty list: the effect sets the latch and
      starts the timer; setting the latch re-renders; the new run's cleanup clears the
      timer before it fires; the latch then stops every later run. The prompt never
      appears. */
  method AsWrittenEmptyVisit() returns (shown: nat)
    ensures shown == 0
  {
    var effect := new PromptAsWritten();
    var d := ScreenDeps(true, false, true);
    effect.Commit(d);
    effect.Commit(d);
    effect.Elapse();
    effect.Commit(d);
    effect.Elapse();
    shown := effect.shown;
  }

  /** The intended effect: the latch is a reference the timer callback sets as it shows
      the prompt, so it is not a dependency and setting it does not cancel the timer. */
  class PromptCorrected {
    var prompted: bool
    var timerPending: bool
    var shown: nat
    var lastDeps: Option<ScreenDeps>

    /** Shown at most once, and a pending timer always belongs to a run whose
        conditions held and which no later commit has replaced. */
    ghost predicate Valid()
      reads this
    {
      && shown <= 1
      && (prompted <==> shown == 1)
      && (timerPending ==> !prompted && lastDeps.Some? && Due(lastDeps.value))
    }

    constructor ()
      ensures Valid() && !prompted && !timerPending && shown == 0 && lastDeps == None
    {
      prompted := false;
      timerPending := false;
      shown := 0;
      lastDeps := None;
    }

    method Commit(d: ScreenDeps)
      requires Valid()
      modifies this
      ensures Valid()
      ensures old(lastDeps) == Some(d) ==> timerPending == old(timerPending) && lastDeps == old(lastDeps)
      ensures old(lastDeps) != Some(d) ==> timerPending == (Due(d) && !prompted) && lastDeps == Some(d)
      ensures prompted == old(prompted) && shown == old(shown)
    {
      if lastDeps == Some(d) {
        return;
      }
      timerPending := false;
      lastDeps := Some(d);
      if Due(d) && !prompted {
        timerPending := true;
      }
    }

    /** The timer fires: it sets the latch and shows the prompt. */
    method Elapse()
      requires Valid()
      modifies this
      ensures Valid()
      ensures shown == old(shown) + (if old(timerPending) then 1 else 0)
      ensures old(timerPending) ==> lastDeps.Some? && Due(lastDeps.value)
      ensures !timerPending && lastDeps == old(lastDeps)
    {
      if timerPending {
        timerPending := false;
        prompted := true;
        shown := shown + 1;
      }
    }
  }

  /** The same visit with the intended effect shows the prompt exactly once. */
  method CorrectedEmptyVisit() returns (shown: nat)
    ensures shown == 1
  {
    var effect := new PromptCorrected();
    var d := ScreenDeps(true, false, true);
    effect.Commit(d);
    effect.Commit(d);
    effect.Elapse();
    effect.Commit(d);
    effect.Elapse();
    shown := effect.shown;
  }
}
