/** The service endpoints: query-string builders for the search and featured-experts
    calls, and the two fixed lead paths. */
module ServicesEndpoints {
  import opened Wrappers
  import opened JsText
  import Uri

  const SearchPrefix := "/api/homeowners/search-services?"
  const DefaultLimit := 10

  function SearchPair(search: string): string {
    "search=" + Uri.Encode(search)
  }

  function LimitPair(limit: int): string {
    "limit=" + IntToString(limit)
  }

  /** `searchServices(search, limit = 10)`; an omitted `limit` is `None`. */
  function SearchServices(search: string, limit: Option<int>): (path: string)
    ensures SearchPrefix <= path
  {
    SearchPrefix + (SearchPair(search) + "&" + LimitPair(limit.GetOr(DefaultLimit)))
  }

  lemma IntToStringFree(i: int)
    ensures Free(IntToString(i), '&')
  {
    var r := IntToString(i);
    if i < 0 {
      assert r[1..] == NatToString(-i);
      assert forall k | 1 <= k < |r| :: r[k] == r[1..][k - 1];
    }
  }

  /** The search query reads back as its two pairs: the encoded search text, then the
      limit (10 when omitted). */
  lemma SearchRoundTrip(search: string, limit: Option<int>)
    ensures var n := limit.GetOr(DefaultLimit);
      Split(SearchServices(search, limit)[|SearchPrefix|..], '&') == [SearchPair(search), LimitPair(n)]
  {
    var n := limit.GetOr(DefaultLimit);
    Uri.EncodedHasNoDelimiters(search);
    IntToStringFree(n);
    var query := SearchPair(search) + "&" + LimitPair(n);
    assert (SearchPrefix + query)[|SearchPrefix|..] == query;
    assert Join([SearchPair(search), LimitPair(n)], "&") == query;
    SplitJoin([SearchPair(search), LimitPair(n)], '&');
  }

  /** The search pair splits into its key and the encoded text. */
  lemma SearchPairSplit(search: string)
    ensures Split(SearchPair(search), '=') == ["search", Uri.Encode(search)]
  {
    Uri.EncodedHasNoDelimiters(search);
    assert SearchPair(search) == "search" + ['='] + Uri.Encode(search);
    SplitFree("search", Uri.Encode(search), '=');
    SplitFree(Uri.Encode(search), [], '=');
  }

  /** A non-negative limit is sent as decimal digits that give it back exactly. */
  lemma LimitRoundTrip(limit: int)
    requires limit >= 0
    ensures var digits := LimitPair(limit)[|"limit="|..];
      AllDigits(digits) && DecimalValue(digits) == limit
  {
    NatToStringRoundTrip(limit);
    assert LimitPair(limit)[|"limit="|..] == NatToString(limit);
  }

  const FeaturedPrefix := "/api/featured_experts?"
  /** The array keys, with their brackets written literally rather than as `%5B%5D`. */
  const CategoryKey := "service_category_codes[]"
  const ZipKey := "zip_codes[]"

  function CategoryPart(code: string): string {
    CategoryKey + "=" + Uri.Encode(code)
  }

  function ZipPart(zip: string): string {
    ZipKey + "=" + Uri.Encode(zip)
  }

  /** The pairs of the featured-experts query: every category, then every zip code. */
  function FeaturedParts(codes: seq<string>, zips: seq<string>): (parts: seq<string>)
    ensures |parts| == |codes| + |zips|
    ensures forall i | 0 <= i < |codes| :: parts[i] == CategoryPart(codes[i])
    ensures forall j | 0 <= j < |zips| :: parts[|codes| + j] == ZipPart(zips[j])
  {
    seq(|codes|, i requires 0 <= i < |codes| => CategoryPart(codes[i]))
      + seq(|zips|, j requires 0 <= j < |zips| => ZipPart(zips[j]))
  }

  function FeaturedPath(codes: seq<string>, zips: seq<string>): string {
    FeaturedPrefix + Join(FeaturedParts(codes, zips), "&")
  }

  /** `featuredExperts`: two loops push the pairs, which are then joined with `&`. */
  method FeaturedExperts(codes: seq<string>, zips: seq<string>) returns (path: string)
    ensures path == FeaturedPath(codes, zips)
  {
    var parts: seq<string> := [];
    for i := 0 to |codes|
      invariant |parts| == i
      invariant forall k | 0 <= k < i :: parts[k] == CategoryPart(codes[k])
    {
      parts := parts + [CategoryKey + "=" + Uri.Encode(codes[i])];
    }
    for j := 0 to |zips|
      invariant |parts| == |codes| + j
      invariant forall k | 0 <= k < |codes| :: parts[k] == CategoryPart(codes[k])
      invariant forall k | 0 <= k < j :: parts[|codes| + k] == ZipPart(zips[k])
    {
      parts := parts + [ZipKey + "=" + Uri.Encode(zips[j])];
    }
    assert parts == FeaturedParts(codes, zips);
    path := FeaturedPrefix + Join(parts, "&");
  }

  lemma PartSplits(key: string, value: string)
    requires Free(key, '=') && Free(key, '&')
    ensures Free(key + "=" + Uri.Encode(value), '&')
    ensures Split(key + "=" + Uri.Encode(value), '=') == [key, Uri.Encode(value)]
  {
    Uri.EncodedHasNoDelimiters(value);
    SplitFree(key, Uri.Encode(value), '=');
    SplitFree(Uri.Encode(value), [], '=');
  }

  /** The featured-experts query reads back as exactly one `key=value` pair per input, in
      order, categories first: splitting at `&` and then at `=` recovers each key with its
      brackets and the encoded value. */
  lemma FeaturedRoundTrip(codes: seq<string>, zips: seq<string>)
    requires |codes| + |zips| > 0
    ensures FeaturedPrefix <= FeaturedPath(codes, zips)
    ensures var pairs := Split(FeaturedPath(codes, zips)[|FeaturedPrefix|..], '&');
      && |pairs| == |codes| + |zips|
      && (forall i | 0 <= i < |codes| :: Split(pairs[i], '=') == [CategoryKey, Uri.Encode(codes[i])])
      && (forall j | 0 <= j < |zips| :: Split(pairs[|codes| + j], '=') == [ZipKey, Uri.Encode(zips[j])])
  {
    var parts := FeaturedParts(codes, zips);
    forall i | 0 <= i < |codes|
      ensures Free(parts[i], '&') && Split(parts[i], '=') == [CategoryKey, Uri.Encode(codes[i])]
    {
      PartSplits(CategoryKey, codes[i]);
    }
    forall j | 0 <= j < |zips|
      ensures Free(parts[|codes| + j], '&') && Split(parts[|codes| + j], '=') == [ZipKey, Uri.Encode(zips[j])]
    {
      PartSplits(ZipKey, zips[j]);
    }
    assert forall i | 0 <= i < |parts| :: Free(parts[i], '&') by {
      forall i | 0 <= i < |parts| ensures Free(parts[i], '&') {
        if i >= |codes| {
          assert parts[|codes| + (i - |codes|)] == parts[i];
        }
      }
    }
    SplitJoin(parts, '&');
    assert (FeaturedPrefix + Join(parts, "&"))[|FeaturedPrefix|..] == Join(parts, "&");
  }

  /** Empty lists give the bare prefix, with nothing after the `?`. */
  lemma FeaturedEmpty()
    ensures FeaturedPath([], []) == "/api/featured_experts?"
  {
  }

  /** `memberLeadBySlug` */
  function MemberLeadBySlug(): (path: string)
    ensures "/api/affiliate/" <= path && path != GeneralLeadV1()
  {
    "/api/affiliate/memberleadbyslug"
  }

  /** `generalLeadV1` */
  function GeneralLeadV1(): (path: string)
    ensures "/api/affiliate/" <= path
  {
    "/api/affiliate/generalleadv1"
  }
}
