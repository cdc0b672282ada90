/** src/lib/productAgent.ts: normalising SerpAPI hits, preferring shopping
    hits over organic ones, and the guards of the formula agent. The search
    endpoint and the summary step are parameters. */
module ProductAgent {
  import opened Base
  import opened JsonModel

  /** `item as Record<string, unknown>`. */
  type Record = map<string, Json>

  /** `ProductSearchHit`; absent optional fields are `None`. */
  datatype Hit = Hit(
    title: string, link: string, price: Option<string>, snippet: Option<string>,
    source: Option<string>, rating: Option<Num>, reviews: Option<Num>,
    delivery: Option<string>, image: Option<string>)

  /** `typeof item[key] === 'string' ? item[key] : undefined`. */
  function Str(item: Record, key: string): Option<string> {
    AsString(Get(item, key))
  }

  /** `typeof item[key] === 'number' ? item[key] : undefined`. */
  function Number(item: Record, key: string): Option<Num> {
    if key in item && item[key].JNum? then Some(item[key].n) else None
  }

  /** The first of two keys whose value is a string: the test is on the
      type, so an empty string does not fall through. */
  function StrEither(item: Record, first: string, second: string): Option<string> {
    if Str(item, first).Some? then Str(item, first) else Str(item, second)
  }

  function NonEmpty(v: Option<string>): bool {
    v.Some? && v.value != ""
  }

  /** `normalizeShoppingResult`. */
  function NormalizeShoppingResult(item: Record): Option<Hit> {
    var title := StrEither(item, "title", "name");
    var link := StrEither(item, "product_link", "link");
    if !NonEmpty(title) || !NonEmpty(link) then None
    else Some(Hit(title.value, link.value, Str(item, "price"), Str(item, "snippet"),
                  StrEither(item, "source", "store"), Number(item, "rating"),
                  Number(item, "reviews"), Str(item, "shipping"), Str(item, "thumbnail")))
  }

  /** A shopping hit needs a non-empty title (from `title`, or from `name`
      when `title` is not a string) and a non-empty link (`product_link`,
      else `link`); every optional field is copied exactly when it has the
      right type, with `store` standing in for `source`. */
  lemma NormalizeShoppingMeaning(item: Record)
    ensures NormalizeShoppingResult(item).Some? <==>
      NonEmpty(StrEither(item, "title", "name")) && NonEmpty(StrEither(item, "product_link", "link"))
    ensures "title" in item && item["title"] == JStr("") ==> NormalizeShoppingResult(item).None?
    ensures NormalizeShoppingResult(item).Some? ==>
      var h := NormalizeShoppingResult(item).value;
      && h.title == StrEither(item, "title", "name").value
      && h.link == StrEither(item, "product_link", "link").value
      && (h.price.Some? <==> "price" in item && item["price"].JStr?)
      && (h.snippet.Some? <==> "snippet" in item && item["snippet"].JStr?)
      && (h.source.Some? <==> ("source" in item && item["source"].JStr?) || ("store" in item && item["store"].JStr?))
      && (h.rating.Some? <==> "rating" in item && item["rating"].JNum?)
      && (h.reviews.Some? <==> "reviews" in item && item["reviews"].JNum?)
      && (h.delivery.Some? <==> "shipping" in item && item["shipping"].JStr?)
      && (h.image.Some? <==> "thumbnail" in item && item["thumbnail"].JStr?)
      && (h.image.Some? ==> h.image.value == item["thumbnail"].s)
      && (h.delivery.Some? ==> h.delivery.value == item["shipping"].s)
  {
  }

  /** `normalizeOrganicResult`. */
  function NormalizeOrganicResult(item: Record): Option<Hit> {
    var title := Str(item, "title");
    var link := Str(item, "link");
    if !NonEmpty(title) || !NonEmpty(link) then None
    else Some(Hit(title.value, link.value, None, Str(item, "snippet"), Str(item, "source"),
                  None, None, None, None))
  }

  /** An organic hit needs string `title` and `link` (no fallbacks) and
      keeps only the snippet and source besides them. */
  lemma NormalizeOrganicMeaning(item: Record)
    ensures NormalizeOrganicResult(item).Some? <==> NonEmpty(Str(item, "title")) && NonEmpty(Str(item, "link"))
    ensures NormalizeOrganicResult(item).Some? ==>
      var h := NormalizeOrganicResult(item).value;
      && h.title == item["title"].s && h.link == item["link"].s
      && h.price.None? && h.rating.None? && h.reviews.None? && h.delivery.None? && h.image.None?
      && (h.snippet.Some? <==> "snippet" in item && item["snippet"].JStr?)
      && (h.source.Some? <==> "source" in item && item["source"].JStr?)
  {
  }

  // ---------------------------------------------------------------------
  // Hit selection

  /** Reading a property of `null` throws. */
  const NullItemError := "TypeError: Cannot read properties of null (reading 'title')"
  const NullPayloadError := "TypeError: Cannot read properties of null (reading 'shopping_results')"

  /** A normaliser applied to a list element cast to a record: properties
      of a value that is not an object read as `undefined`. (`null` throws;
      the callers rule it out first.) */
  function OnRecord(normalize: Record -> Option<Hit>): Json -> Option<Hit> {
    (item: Json) => if item.JObj? then normalize(item.fields) else if item.JNull? then None else normalize(map[])
  }

  /** `xs.slice(0, n)`. */
  function Take<T>(xs: seq<T>, n: nat): (r: seq<T>)
    ensures r <= xs
    ensures |r| == if |xs| <= n then |xs| else n
  {
    if |xs| <= n then xs else xs[..n]
  }

  /** `items.map(normalize).filter(Boolean).slice(0, limit)`. */
  function HitsFrom(items: seq<Json>, normalize: Record -> Option<Hit>, limit: nat): Result<seq<Hit>> {
    if JNull in items then Err(NullItemError)
    else Ok(Take(MapPresent(items, OnRecord(normalize)), limit))
  }

  /** `Array.isArray(payload[key]) ? payload[key] : []`. */
  function ListProp(payload: Json, key: string): seq<Json> {
    match Prop(payload, key)
    case Some(JArr(items)) => items
    case _ => []
  }

  /** The hits `fetchProductHits` returns for a response body. */
  function SelectHits(payload: Json): Result<seq<Hit>> {
    if payload.JNull? then Err(NullPayloadError)
    else match HitsFrom(ListProp(payload, "shopping_results"), NormalizeShoppingResult, 8)
      case Err(e) => Err(e)
      case Ok(shopping) =>
        if shopping != [] then Ok(shopping)
        else HitsFrom(ListProp(payload, "organic_results"), NormalizeOrganicResult, 6)
  }

  /** The first eight shopping hits, in result order, when any shopping
      result gives one; otherwise the first six organic hits; a `null`
      payload or a `null` element of the list read fails. Every hit is
      normalised from a result of the list it comes from. */
  lemma SelectHitsMeaning(payload: Json)
    ensures payload.JNull? ==> SelectHits(payload) == Err(NullPayloadError)
    ensures var shopping := ListProp(payload, "shopping_results");
      var organic := ListProp(payload, "organic_results");
      var hits := MapPresent(shopping, OnRecord(NormalizeShoppingResult));
      var organicHits := MapPresent(organic, OnRecord(NormalizeOrganicResult));
      !payload.JNull? && JNull !in shopping ==>
        && (hits != [] ==> SelectHits(payload) == Ok(Take(hits, 8)))
        && (hits == [] && JNull in organic ==> SelectHits(payload) == Err(NullItemError))
        && (hits == [] && JNull !in organic ==> SelectHits(payload) == Ok(Take(organicHits, 6)))
    ensures var shopping := ListProp(payload, "shopping_results");
      var organic := ListProp(payload, "organic_results");
      var r := SelectHits(payload);
      && (!payload.JNull? && JNull in shopping ==> r == Err(NullItemError))
      && (r.Ok? && (exists i :: 0 <= i < |shopping| && OnRecord(NormalizeShoppingResult)(shopping[i]).Some?) ==>
            && 0 < |r.value| <= 8
            && forall h :: h in r.value ==>
                 exists i :: 0 <= i < |shopping| && OnRecord(NormalizeShoppingResult)(shopping[i]) == Some(h))
      && (r.Ok? && (forall i :: 0 <= i < |shopping| ==> OnRecord(NormalizeShoppingResult)(shopping[i]).None?) ==>
            && |r.value| <= 6
            && forall h :: h in r.value ==>
                 exists i :: 0 <= i < |organic| && OnRecord(NormalizeOrganicResult)(organic[i]) == Some(h))
  {
    var shopping := ListProp(payload, "shopping_results");
    var organic := ListProp(payload, "organic_results");
    MapPresentMeaning(shopping, OnRecord(NormalizeShoppingResult));
    MapPresentMeaning(organic, OnRecord(NormalizeOrganicResult));
    var all := MapPresent(shopping, OnRecord(NormalizeShoppingResult));
    assert forall h :: h in Take(all, 8) ==> h in all;
    assert all != [] ==> Take(all, 8) != [] by {
      if all != [] && |all| > 8 {
        assert Take(all, 8)[0] == all[0];
      }
    }
    var some := MapPresent(organic, OnRecord(NormalizeOrganicResult));
    assert forall h :: h in Take(some, 6) ==> h in some;
  }

  // ---------------------------------------------------------------------
  // fetchProductHits and runFormulaAgent

  const SerpEndpoint := "https://serpapi.com/search.json"
  const MissingSerpKeyError := "Add VITE_SERP_API_KEY to enable the formula agent web search."
  const SearchFailedError := "Product search failed. Check your SerpAPI key or quota."
  /** Stands for the `SyntaxError` of `response.json()` on a body that is
      not JSON. */
  const BodyNotJsonError := "SyntaxError"
  const BlankBriefError := "Describe the hero ingredients or formula you want to match first."
  const NoHitsError := "Search API did not return any relevant products. Refine the formula and retry."

  /** The search URL's parameters. */
  datatype SerpQuery = SerpQuery(endpoint: string, engine: string, q: string, gl: string,
                                 hl: string, apiKey: string)

  /** `response.ok` and the parsed body (`None` when it is not JSON). */
  datatype SerpReply = SerpReply(ok: bool, body: Option<Json>)

  /** `fetch` on the search URL: the response, or the message of the
      error it rejects with (a network failure). */
  type Fetch = SerpQuery -> Result<SerpReply>

  function QueryFor(formula: string, key: string): SerpQuery {
    SerpQuery(SerpEndpoint, "google_shopping", formula + " skincare product", "us", "en", key)
  }

  /** `fetchProductHits`: the hits, and the query sent (none without a key). */
  function FetchProductHits(formula: string, serpKey: Option<string>, fetch: Fetch)
    : (Result<seq<Hit>>, Option<SerpQuery>)
  {
    if serpKey.None? || serpKey.value == "" then (Err(MissingSerpKeyError), None)
    else
      var q := QueryFor(formula, serpKey.value);
      match fetch(q)
      case Err(e) => (Err(e), Some(q))
      case Ok(reply) =>
        if !reply.ok then (Err(SearchFailedError), Some(q))
        else if reply.body.None? then (Err(BodyNotJsonError), Some(q))
        else (SelectHits(reply.body.value), Some(q))
  }

  /** `runFormulaAgent`; `summarize` stands for `summarizeFormulaHits`. */
  function RunFormulaAgent<R>(formula: string, serpKey: Option<string>, fetch: Fetch,
                              summarize: (string, seq<Hit>) -> Result<R>)
    : (Result<R>, Option<SerpQuery>)
  {
    var brief := JsTrim(formula);
    if brief == "" then (Err(BlankBriefError), None)
    else
      var (hits, sent) := FetchProductHits(brief, serpKey, fetch);
      if hits.Err? then (Err(hits.error), sent)
      else if hits.value == [] then (Err(NoHitsError), sent)
      else (summarize(brief, hits.value), sent)
  }

  /** A blank brief or a missing key fails before any request; otherwise
      exactly one query is made, for the trimmed brief followed by
      " skincare product"; a rejected fetch, a response that is not ok and
      a body that is not JSON fail with their own errors, in that order;
      and an empty hit list is an error rather than a summary. */
  lemma FormulaAgentGuards<R>(formula: string, serpKey: Option<string>, fetch: Fetch,
                              summarize: (string, seq<Hit>) -> Result<R>)
    ensures var (r, sent) := RunFormulaAgent(formula, serpKey, fetch, summarize);
      && (IsBlankJs(formula) ==> r == Err(BlankBriefError) && sent.None?)
      && (!IsBlankJs(formula) && (serpKey.None? || serpKey == Some("")) ==>
            r == Err(MissingSerpKeyError) && sent.None?)
      && (sent.Some? ==> sent.value.q == JsTrim(formula) + " skincare product"
                         && sent.value.apiKey == serpKey.value && sent.value.engine == "google_shopping")
      && (!IsBlankJs(formula) && serpKey.Some? && serpKey != Some("") ==> sent.Some?)
      && (sent.Some? && fetch(sent.value).Err? ==> r == Err(fetch(sent.value).error))
      && (sent.Some? && fetch(sent.value).Ok? && !fetch(sent.value).value.ok ==> r == Err(SearchFailedError))
      && ((sent.Some? && fetch(sent.value).Ok? && fetch(sent.value).value.ok
           && fetch(sent.value).value.body.None?) ==> r == Err(BodyNotJsonError))
      && ((sent.Some? && fetch(sent.value).Ok? && fetch(sent.value).value.ok && fetch(sent.value).value.body.Some?
           && SelectHits(fetch(sent.value).value.body.value) == Ok([])) ==> r == Err(NoHitsError))
  {
    TrimFacts(formula, JsWhitespace);
  }
}
