/** src/lib/parsers.ts, `parseShoppingPayload` and `stripToolArtifacts`:
    reading shopping results (a JSON block, fenced or bare) out of an
    assistant reply, and dropping tool-output lines before rendering. */
module ShoppingPayload {
  import opened Base
  import opened JsonModel

  // ---------------------------------------------------------------------
  // Finding the JSON

  /** `/```json([\s\S]*?)```/i` can match at `p`: an opening fence in any
      case and a closing fence somewhere after it. */
  predicate FenceAt(s: string, p: nat) {
    OpensFence(s, p) && FindFrom(s, "```", p + 7).Some?
  }

  /** "```json" at `p`, the letters in either case (the `i` flag of a
      regular expression without `u` folds ASCII letters only). */
  predicate OpensFence(s: string, p: nat) {
    p + 7 <= |s| && IsOpener(s[p..p + 7])
  }

  predicate IsOpener(w: string)
    requires |w| == 7
  {
    && w[0] == '`' && w[1] == '`' && w[2] == '`'
    && (w[3] == 'j' || w[3] == 'J') && (w[4] == 's' || w[4] == 'S')
    && (w[5] == 'o' || w[5] == 'O') && (w[6] == 'n' || w[6] == 'N')
  }

  /** The leftmost fence match at or after `p`: its start and the start of
      its closing fence (the first one after the opening). */
  function FenceFrom(s: string, p: nat): (r: Option<(nat, nat)>)
    requires p <= |s|
    ensures r.Some? ==> p <= r.value.0 && r.value.0 + 7 <= r.value.1 && r.value.1 + 3 <= |s|
    decreases |s| - p
  {
    if FenceAt(s, p) then Some((p, FindFrom(s, "```", p + 7).value))
    else if p == |s| then None
    else FenceFrom(s, p + 1)
  }

  /** The match found is a fence match with its first closing fence, and
      no fence match starts before it. */
  lemma FenceFromFound(s: string, p: nat)
    requires p <= |s| && FenceFrom(s, p).Some?
    ensures var (a, b) := FenceFrom(s, p).value;
      && FenceAt(s, a) && Some(b) == FindFrom(s, "```", a + 7)
      && forall j :: p <= j < a ==> !FenceAt(s, j)
  {
    FenceFromIsFence(s, p);
    FenceFromLeftmost(s, p);
  }

  lemma {:induction false} FenceFromIsFence(s: string, p: nat)
    requires p <= |s| && FenceFrom(s, p).Some?
    ensures FenceAt(s, FenceFrom(s, p).value.0)
    ensures Some(FenceFrom(s, p).value.1) == FindFrom(s, "```", FenceFrom(s, p).value.0 + 7)
    decreases |s| - p
  {
    if !FenceAt(s, p) {
      assert p < |s| && FenceFrom(s, p) == FenceFrom(s, p + 1);
      FenceFromIsFence(s, p + 1);
    }
  }

  lemma {:induction false} FenceFromLeftmost(s: string, p: nat)
    requires p <= |s| && FenceFrom(s, p).Some?
    ensures forall j :: p <= j < FenceFrom(s, p).value.0 ==> !FenceAt(s, j)
    decreases |s| - p
  {
    if !FenceAt(s, p) {
      assert p < |s| && FenceFrom(s, p) == FenceFrom(s, p + 1);
      FenceFromLeftmost(s, p + 1);
      var a := FenceFrom(s, p + 1).value.0;
      forall j | p <= j < a
        ensures !FenceAt(s, j)
      {
        if j != p {
          assert p + 1 <= j < a;
        }
      }
    }
  }

  /** No match is found only when no position holds a fence match. */
  lemma {:induction false} FenceFromNone(s: string, p: nat)
    requires p <= |s| && FenceFrom(s, p).None?
    ensures forall j :: p <= j ==> !FenceAt(s, j)
    decreases |s| - p
  {
    if p < |s| {
      FenceFromNone(s, p + 1);
      forall j | p <= j
        ensures !FenceAt(s, j)
      {
        if j != p {
          assert p + 1 <= j;
        }
      }
    }
  }

  /** The fenced body trimmed, or else the whole reply trimmed. */
  function Candidate(content: string): (r: string) {
    match FenceFrom(content, 0)
    case Some((p, q)) => JsTrim(content[p + 7..q])
    case None => JsTrim(content)
  }

  /** `tryParse(candidate)`, then the text from the first `{` to the last
      `}` when they are in that order. */
  function ParseCandidate(candidate: string, parse: Parser): (r: Option<Json>)
    ensures parse(candidate).Some? ==> r == parse(candidate)
    ensures parse(candidate).None? && r.Some? ==>
      exists a, b :: 0 <= a < b < |candidate| && candidate[a] == '{' && candidate[b] == '}'
        && r == parse(candidate[a..b + 1])
    ensures parse(candidate).None? && ('{' !in candidate || '}' !in candidate) ==> r.None?
  {
    match parse(candidate)
    case Some(j) => Some(j)
    case None =>
      match (IndexOf(candidate, '{'), LastIndexOf(candidate, '}'))
      case (Some(a), Some(b)) => if b <= a then None else parse(candidate[a..b + 1])
      case _ => None
  }

  /** The retry uses exactly the first `{` and the last `}`: the slice
      between them, both included, when the `}` comes later, and nothing
      otherwise. */
  lemma ParseCandidateRetry(candidate: string, parse: Parser, a: nat, b: nat)
    requires parse(candidate).None?
    requires a < |candidate| && candidate[a] == '{' && forall k :: 0 <= k < a ==> candidate[k] != '{'
    requires b < |candidate| && candidate[b] == '}' && forall k :: b < k < |candidate| ==> candidate[k] != '}'
    ensures a < b ==> ParseCandidate(candidate, parse) == parse(candidate[a..b + 1])
    ensures b <= a ==> ParseCandidate(candidate, parse).None?
  {
    var i := IndexOf(candidate, '{');
    var j := LastIndexOf(candidate, '}');
    assert i.Some? && j.Some?;
    var before, after := candidate[..i.value], candidate[j.value + 1..];
    assert forall k :: 0 <= k < |before| ==> before[k] == candidate[k];
    assert forall k :: 0 <= k < |after| ==> after[k] == candidate[j.value + 1 + k];
    assert i.value == a && j.value == b;
  }

  // ---------------------------------------------------------------------
  // Products

  datatype ShoppingProduct = ShoppingProduct(
    title: string, link: string, source: Option<string>, price: Option<string>,
    imageUrl: Option<string>, rating: Option<Num>, ratingCount: Option<Num>,
    productId: Option<string>, position: Option<Num>)

  /** A candidate `getString` accepts: a string that is not blank. */
  predicate GoodString(v: Option<Json>) {
    v.Some? && v.value.JStr? && HasText(v.value.s)
  }

  /** `s.trim()` is truthy: some character is not white space. */
  predicate HasText(s: string) {
    s != [] && (s[0] !in JsWhitespace || HasText(s[1..]))
  }

  lemma {:induction false} HasTextBlank(s: string)
    ensures HasText(s) <==> !AllIn(s, JsWhitespace)
  {
    if s != [] {
      HasTextBlank(s[1..]);
      assert forall i :: 1 <= i < |s| ==> s[i] == s[1..][i - 1];
    }
  }

  lemma HasTextTrim(s: string)
    ensures HasText(s) <==> JsTrim(s) != ""
  {
    HasTextBlank(s);
    TrimFacts(s, JsWhitespace);
  }

  /** The index of the first acceptable candidate at or after `from`. */
  function FirstGood(cands: seq<Option<Json>>, from: nat): (r: Option<nat>)
    requires from <= |cands|
    ensures r.Some? ==> from <= r.value < |cands|
    ensures r.Some? ==> GoodString(cands[r.value])
    decreases |cands| - from
  {
    if from == |cands| then None
    else if GoodString(cands[from]) then Some(from)
    else FirstGood(cands, from + 1)
  }

  /** The index found is acceptable and no earlier one is; none is found
      only when no candidate is acceptable. */
  lemma {:induction false} FirstGoodFacts(cands: seq<Option<Json>>, from: nat)
    requires from <= |cands|
    ensures FirstGood(cands, from).Some? ==>
      && GoodString(cands[FirstGood(cands, from).value])
      && forall j :: from <= j < FirstGood(cands, from).value ==> !GoodString(cands[j])
    ensures FirstGood(cands, from).None? <==> forall j :: from <= j < |cands| ==> !GoodString(cands[j])
    decreases |cands| - from
  {
    if from < |cands| && !GoodString(cands[from]) {
      FirstGoodFacts(cands, from + 1);
    }
  }

  /** `getString(...candidates)`: the first acceptable candidate, trimmed. */
  function FirstString(cands: seq<Option<Json>>): Option<string> {
    match FirstGood(cands, 0)
    case None => None
    case Some(i) => Some(JsTrim(cands[i].value.s))
  }

  /** The result is absent exactly when no candidate is acceptable, and is
      otherwise the first acceptable one, trimmed, which is never blank. */
  lemma FirstStringMeaning(cands: seq<Option<Json>>)
    ensures FirstString(cands).None? <==> forall i :: 0 <= i < |cands| ==> !GoodString(cands[i])
    ensures FirstString(cands).Some? ==>
      exists i :: && 0 <= i < |cands| && GoodString(cands[i])
                  && FirstString(cands).value == JsTrim(cands[i].value.s)
                  && forall j :: 0 <= j < i ==> !GoodString(cands[j])
    ensures FirstString(cands).Some? ==> FirstString(cands).value != ""
  {
    FirstGoodFacts(cands, 0);
    var g := FirstGood(cands, 0);
    if g.Some? {
      HasTextTrim(cands[g.value].value.s);
    }
  }

  /** `getString`: a loop over the candidates that returns the first one
      accepted. */
  method GetString(cands: seq<Option<Json>>) returns (r: Option<string>)
    ensures r == FirstString(cands)
  {
    var i := 0;
    while i < |cands|
      invariant i <= |cands|
      invariant FirstGood(cands, 0) == FirstGood(cands, i)
    {
      if GoodString(cands[i]) {
        return Some(JsTrim(cands[i].value.s));
      }
      i := i + 1;
    }
    return None;
  }

  /** `Number(s)`: the empty string is 0; otherwise the conversion, which
      is a parameter, with `None` for `NaN`. */
  function NumberOf(s: string, toNumber: string -> Option<Num>): Option<Num> {
    if s == "" then Some(Int(0)) else toNumber(s)
  }

  /** `candidate.replace(/[,\s]+/g, '')`. */
  function DropSeparators(s: string): string {
    if s == [] then []
    else (if s[0] == ',' || s[0] in JsWhitespace then [] else [s[0]]) + DropSeparators(s[1..])
  }

  /** No comma or white space is left, every other character is kept in
      order, and the text never grows. */
  lemma {:induction false} DropSeparatorsFacts(s: string)
    ensures |DropSeparators(s)| <= |s|
    ensures forall k :: 0 <= k < |DropSeparators(s)| ==>
      DropSeparators(s)[k] != ',' && DropSeparators(s)[k] !in JsWhitespace
    ensures (forall k :: 0 <= k < |s| ==> s[k] != ',' && s[k] !in JsWhitespace) ==> DropSeparators(s) == s
    decreases |s|
  {
    if s != [] {
      DropSeparatorsFacts(s[1..]);
      var head := if s[0] == ',' || s[0] in JsWhitespace then [] else [s[0]];
      assert DropSeparators(s) == head + DropSeparators(s[1..]);
      if forall k :: 0 <= k < |s| ==> s[k] != ',' && s[k] !in JsWhitespace {
        assert forall k :: 0 <= k < |s| - 1 ==> s[1..][k] == s[k + 1];
        assert s == [s[0]] + s[1..];
      }
    }
  }

  /** Separators are dropped piece by piece: the result for two runs of
      text is that for the first followed by that for the second, and one
      character is dropped exactly when it is a comma or white space. So
      the characters kept keep their order and their repeats. */
  lemma {:induction false} DropSeparatorsAppend(a: string, b: string)
    ensures DropSeparators(a + b) == DropSeparators(a) + DropSeparators(b)
    ensures |a| == 1 ==> DropSeparators(a) == (if a[0] == ',' || a[0] in JsWhitespace then [] else a)
    decreases |a|
  {
    if a != [] {
      assert (a + b)[0] == a[0];
      assert (a + b)[1..] == a[1..] + b;
      DropSeparatorsAppend(a[1..], b);
      if |a| == 1 {
        assert a[1..] == [];
      }
    } else {
      assert a + b == b;
    }
  }

  /** What `getNumber` makes of one candidate: a finite number as it is, a
      string through `Number` once separators are dropped. */
  function NumberIn(v: Option<Json>, toNumber: string -> Option<Num>): Option<Num> {
    if v.None? then None
    else match v.value
      case JNum(n) => if n.NonFinite? then None else Some(n)
      case JStr(s) => NumberOf(DropSeparators(s), toNumber)
      case _ => None
  }

  /** The index of the first candidate at or after `from` that reads as a
      number. */
  function FirstNumeric(cands: seq<Option<Json>>, from: nat, toNumber: string -> Option<Num>): (r: Option<nat>)
    requires from <= |cands|
    ensures r.Some? ==> from <= r.value < |cands|
    decreases |cands| - from
  {
    if from == |cands| then None
    else if NumberIn(cands[from], toNumber).Some? then Some(from)
    else FirstNumeric(cands, from + 1, toNumber)
  }

  /** The index found reads as a number and no earlier one does; none is
      found only when no candidate reads as a number. */
  lemma {:induction false} FirstNumericFacts(cands: seq<Option<Json>>, from: nat, toNumber: string -> Option<Num>)
    requires from <= |cands|
    ensures FirstNumeric(cands, from, toNumber).Some? ==>
      && NumberIn(cands[FirstNumeric(cands, from, toNumber).value], toNumber).Some?
      && forall j :: from <= j < FirstNumeric(cands, from, toNumber).value ==> NumberIn(cands[j], toNumber).None?
    ensures FirstNumeric(cands, from, toNumber).None? <==>
      forall j :: from <= j < |cands| ==> NumberIn(cands[j], toNumber).None?
    decreases |cands| - from
  {
    if from < |cands| && NumberIn(cands[from], toNumber).None? {
      FirstNumericFacts(cands, from + 1, toNumber);
    }
  }

  /** `getNumber(...candidates)`: the reading of the first candidate that
      reads as a number. */
  function FirstNumber(cands: seq<Option<Json>>, toNumber: string -> Option<Num>): Option<Num> {
    match FirstNumeric(cands, 0, toNumber)
    case None => None
    case Some(i) => NumberIn(cands[i], toNumber)
  }

  /** The result is absent exactly when no candidate reads as a number, and
      is otherwise the reading of the first one that does. */
  lemma FirstNumberMeaning(cands: seq<Option<Json>>, toNumber: string -> Option<Num>)
    ensures FirstNumber(cands, toNumber).None? <==>
      forall i :: 0 <= i < |cands| ==> NumberIn(cands[i], toNumber).None?
    ensures FirstNumber(cands, toNumber).Some? ==>
      exists i :: && 0 <= i < |cands| && FirstNumber(cands, toNumber) == NumberIn(cands[i], toNumber)
                  && forall j :: 0 <= j < i ==> NumberIn(cands[j], toNumber).None?
  {
    FirstNumericFacts(cands, 0, toNumber);
    var g := FirstNumeric(cands, 0, toNumber);
    if g.Some? {
      var i := g.value;
      assert FirstNumber(cands, toNumber) == NumberIn(cands[i], toNumber);
    }
  }

  /** `getNumber`: a loop over the candidates that returns the first one
      that reads as a number. */
  method GetNumber(cands: seq<Option<Json>>, toNumber: string -> Option<Num>) returns (r: Option<Num>)
    ensures r == FirstNumber(cands, toNumber)
  {
    var i := 0;
    while i < |cands|
      invariant i <= |cands|
      invariant FirstNumeric(cands, 0, toNumber) == FirstNumeric(cands, i, toNumber)
    {
      var n := NumberIn(cands[i], toNumber);
      if n.Some? {
        return n;
      }
      i := i + 1;
    }
    return None;
  }

  /** `getString(value['title'], value['name'])`. */
  function TitleOf(v: Json): Option<string> {
    FirstString([Prop(v, "title"), Prop(v, "name")])
  }

  /** `getString(value['link'], value['website'], value.url)`. */
  function LinkOf(v: Json): Option<string> {
    FirstString([Prop(v, "link"), Prop(v, "website"), Prop(v, "url")])
  }

  lemma TitleMeaning(v: Json)
    ensures TitleOf(v).Some? <==> GoodString(Prop(v, "title")) || GoodString(Prop(v, "name"))
  {
    var c := [Prop(v, "title"), Prop(v, "name")];
    assert c[0] == Prop(v, "title") && c[1] == Prop(v, "name");
    FirstGoodFacts(c, 0);
    assert TitleOf(v).Some? <==> FirstGood(c, 0).Some?;
  }

  lemma LinkMeaning(v: Json)
    ensures LinkOf(v).Some? <==>
      GoodString(Prop(v, "link")) || GoodString(Prop(v, "website")) || GoodString(Prop(v, "url"))
  {
    var c := [Prop(v, "link"), Prop(v, "website"), Prop(v, "url")];
    assert c[0] == Prop(v, "link") && c[1] == Prop(v, "website") && c[2] == Prop(v, "url");
    FirstGoodFacts(c, 0);
    assert LinkOf(v).Some? <==> FirstGood(c, 0).Some?;
  }

  /** `toProduct(value)`: a product needs a title and a link; the other
      fields are read from their aliases in order. */
  function ProductOf(v: Json, toNumber: string -> Option<Num>): (r: Option<ShoppingProduct>)
  {
    if !JsTruthy(v) then None
    else
      var title := TitleOf(v);
      var link := LinkOf(v);
      if title.None? || link.None? then None
      else Some(ShoppingProduct(
        title.value, link.value,
        FirstString([Prop(v, "source"), Prop(v, "retailer"), Prop(v, "store")]),
        FirstString([Prop(v, "price"), Prop(v, "offer"), Prop(v, "cost")]),
        FirstString([Prop(v, "imageUrl"), Prop(v, "thumbnail"), Prop(v, "image")]),
        FirstNumber([Prop(v, "rating")], toNumber),
        FirstNumber([Prop(v, "ratingCount"), Prop(v, "reviews")], toNumber),
        FirstString([Prop(v, "productId"), Prop(v, "id")]),
        FirstNumber([Prop(v, "position")], toNumber)))
  }

  /** A product exists exactly when the value is an object with a
      non-blank `title` or `name` and a non-blank `link`, `website` or
      `url`. */
  lemma ProductExists(v: Json, toNumber: string -> Option<Num>)
    ensures ProductOf(v, toNumber).Some? <==>
      && v.JObj?
      && (GoodString(Prop(v, "title")) || GoodString(Prop(v, "name")))
      && (GoodString(Prop(v, "link")) || GoodString(Prop(v, "website")) || GoodString(Prop(v, "url")))
  {
    TitleMeaning(v);
    LinkMeaning(v);
    if !v.JObj? {
      assert Prop(v, "title").None? && Prop(v, "name").None?;
    }
  }

  /** A product's title is the first non-blank of `title` and `name`,
      trimmed, and none of its text fields is ever blank. */
  lemma ProductFields(v: Json, toNumber: string -> Option<Num>)
    ensures ProductOf(v, toNumber).Some? ==>
      var p := ProductOf(v, toNumber).value;
      && p.title == (if GoodString(Prop(v, "title")) then JsTrim(Prop(v, "title").value.s)
                     else JsTrim(Prop(v, "name").value.s))
      && p.title != "" && p.link != ""
      && (p.source.Some? ==> p.source.value != "")
      && (p.price.Some? ==> p.price.value != "")
      && (p.imageUrl.Some? ==> p.imageUrl.value != "")
      && (p.productId.Some? ==> p.productId.value != "")
  {
    if ProductOf(v, toNumber).Some? {
      var title := [Prop(v, "title"), Prop(v, "name")];
      FirstStringMeaning(title);
      FirstStringMeaning([Prop(v, "link"), Prop(v, "website"), Prop(v, "url")]);
      FirstStringMeaning([Prop(v, "source"), Prop(v, "retailer"), Prop(v, "store")]);
      FirstStringMeaning([Prop(v, "price"), Prop(v, "offer"), Prop(v, "cost")]);
      FirstStringMeaning([Prop(v, "imageUrl"), Prop(v, "thumbnail"), Prop(v, "image")]);
      FirstStringMeaning([Prop(v, "productId"), Prop(v, "id")]);
      if !GoodString(title[0]) {
        assert FirstGood(title, 0) == Some(1);
      }
    }
  }

  /** `toProduct`, with its two helper loops. */
  method ToProduct(v: Json, toNumber: string -> Option<Num>) returns (r: Option<ShoppingProduct>)
    ensures r == ProductOf(v, toNumber)
  {
    if !JsTruthy(v) {
      return None;
    }
    var title := GetString([Prop(v, "title"), Prop(v, "name")]);
    var link := GetString([Prop(v, "link"), Prop(v, "website"), Prop(v, "url")]);
    if title.None? || link.None? {
      return None;
    }
    var source := GetString([Prop(v, "source"), Prop(v, "retailer"), Prop(v, "store")]);
    var price := GetString([Prop(v, "price"), Prop(v, "offer"), Prop(v, "cost")]);
    var imageUrl := GetString([Prop(v, "imageUrl"), Prop(v, "thumbnail"), Prop(v, "image")]);
    var rating := GetNumber([Prop(v, "rating")], toNumber);
    var ratingCount := GetNumber([Prop(v, "ratingCount"), Prop(v, "reviews")], toNumber);
    var productId := GetString([Prop(v, "productId"), Prop(v, "id")]);
    var position := GetNumber([Prop(v, "position")], toNumber);
    r := Some(ShoppingProduct(title.value, link.value, source, price, imageUrl, rating,
                              ratingCount, productId, position));
  }

  /** `toProduct` as the value handed to `map`. */
  function ToProductFn(toNumber: string -> Option<Num>): Json -> Option<ShoppingProduct> {
    v => ProductOf(v, toNumber)
  }

  /** `entries.map(toProduct).filter(Boolean)`. */
  function Collect(entries: seq<Json>, toNumber: string -> Option<Num>): seq<ShoppingProduct> {
    MapPresent(entries, ToProductFn(toNumber))
  }

  /** The collected products are exactly the products of the entries, at
      most one per entry. */
  lemma CollectMeaning(entries: seq<Json>, toNumber: string -> Option<Num>)
    ensures |Collect(entries, toNumber)| <= |entries|
    ensures forall p :: p in Collect(entries, toNumber) <==>
      exists i :: 0 <= i < |entries| && ProductOf(entries[i], toNumber) == Some(p)
    ensures Collect(entries, toNumber) == [] <==>
      forall i :: 0 <= i < |entries| ==> ProductOf(entries[i], toNumber).None?
  {
    MapPresentMeaning(entries, ToProductFn(toNumber));
  }

  /** `Collect` keeps the products in entry order, one per entry that is a
      product: it works entry by entry. */
  lemma CollectAppend(a: seq<Json>, b: seq<Json>, toNumber: string -> Option<Num>)
    ensures Collect(a + b, toNumber) == Collect(a, toNumber) + Collect(b, toNumber)
    ensures |b| == 1 ==>
      (Collect(b, toNumber) ==
         if ProductOf(b[0], toNumber).Some? then [ProductOf(b[0], toNumber).value] else [])
  {
    MapPresentAppend(a, b, ToProductFn(toNumber));
  }

  /** The `map(toProduct)` and `filter(Boolean)` pair as a loop that pushes
      each product found. */
  method CollectProducts(entries: seq<Json>, toNumber: string -> Option<Num>) returns (r: seq<ShoppingProduct>)
    ensures r == Collect(entries, toNumber)
  {
    r := [];
    for i := 0 to |entries|
      invariant r == MapPresent(entries[..i], ToProductFn(toNumber))
    {
      assert entries[..i + 1][..i] == entries[..i];
      var product := ToProduct(entries[i], toNumber);
      if product.Some? {
        r := r + [product.value];
      }
    }
    assert entries[..|entries|] == entries;
  }

  /** The products of the array under `key`; none when it is missing or
      not an array. */
  function Listed(raw: Json, key: string, toNumber: string -> Option<Num>): seq<ShoppingProduct> {
    match Prop(raw, key)
    case Some(JArr(items)) => Collect(items, toNumber)
    case _ => []
  }

  /** The product the `knowledgeGraph` value gives, when it is a truthy
      object or array. */
  function HeroOf(raw: Json, toNumber: string -> Option<Num>): Option<ShoppingProduct> {
    var kg := Prop(raw, "knowledgeGraph");
    if kg.Some? && JsTruthy(kg.value) && (kg.value.JObj? || kg.value.JArr?) then ProductOf(kg.value, toNumber)
    else None
  }

  /** The products array: `products` when it yields any, else the
      `knowledgeGraph` object when it is a product, else `organic`. */
  function ProductsOf(raw: Json, toNumber: string -> Option<Num>): seq<ShoppingProduct> {
    var direct := Listed(raw, "products", toNumber);
    var hero := HeroOf(raw, toNumber);
    if direct != [] then direct
    else if hero.Some? then [hero.value]
    else Listed(raw, "organic", toNumber)
  }

  /** The three sources are tried in order: `products` wins when any of its
      entries is a product; the knowledge graph's product is used only
      then; and `organic` only when neither gave a product. The result is
      empty exactly when no source gives a product, and always for a value
      that is not an object. */
  lemma ProductsPrecedence(raw: Json, toNumber: string -> Option<Num>)
    ensures (&& Prop(raw, "products").Some? && Prop(raw, "products").value.JArr?
             && Collect(Prop(raw, "products").value.items, toNumber) != []) ==>
        ProductsOf(raw, toNumber) == Collect(Prop(raw, "products").value.items, toNumber)
    ensures Listed(raw, "products", toNumber) == [] && HeroOf(raw, toNumber).Some? ==>
      && Prop(raw, "knowledgeGraph").Some?
      && ProductOf(Prop(raw, "knowledgeGraph").value, toNumber) == HeroOf(raw, toNumber)
      && ProductsOf(raw, toNumber) == [HeroOf(raw, toNumber).value]
    ensures Listed(raw, "products", toNumber) == [] && HeroOf(raw, toNumber).None? ==>
      ProductsOf(raw, toNumber) ==
        if Prop(raw, "organic").Some? && Prop(raw, "organic").value.JArr?
        then Collect(Prop(raw, "organic").value.items, toNumber) else []
    ensures ProductsOf(raw, toNumber) == [] <==>
      Listed(raw, "products", toNumber) == [] && HeroOf(raw, toNumber).None?
      && Listed(raw, "organic", toNumber) == []
    ensures ProductsOf(raw, toNumber) == [] ==>
      Prop(raw, "knowledgeGraph").None? || ProductOf(Prop(raw, "knowledgeGraph").value, toNumber).None?
      || !JsTruthy(Prop(raw, "knowledgeGraph").value)
    ensures !raw.JObj? ==> ProductsOf(raw, toNumber) == []
  {
  }

  /** The three steps that fill `products`. */
  method ProductsFrom(raw: Json, toNumber: string -> Option<Num>) returns (products: seq<ShoppingProduct>)
    ensures products == ProductsOf(raw, toNumber)
  {
    products := [];
    var listed := Prop(raw, "products");
    if listed.Some? && listed.value.JArr? {
      products := CollectProducts(listed.value.items, toNumber);
    }
    var kg := Prop(raw, "knowledgeGraph");
    if products == [] && kg.Some? && JsTruthy(kg.value) && (kg.value.JObj? || kg.value.JArr?) {
      var hero := ToProduct(kg.value, toNumber);
      if hero.Some? {
        products := [hero.value];
      }
    }
    var organic := Prop(raw, "organic");
    if products == [] && organic.Some? && organic.value.JArr? {
      products := CollectProducts(organic.value.items, toNumber);
    }
  }

  // ---------------------------------------------------------------------
  // The whole parse

  /** The reply with the JSON text removed, before trimming: the fenced
      block cut out when there is one (its first copy is the block itself,
      see `FenceFirstOccurrence`), else the first copy of the candidate removed. */
  function Cut(content: string, candidate: string): string {
    match FenceFrom(content, 0)
    case Some(f) => content[..f.0] + content[f.1 + 3..]
    case None => ReplaceFirst(content, candidate, "")
  }

  /** The reply with the JSON text removed, trimmed. */
  function Remainder(content: string): string {
    JsTrim(Cut(content, Candidate(content)))
  }

  /** `parseShoppingPayload` as a function: `null` when nothing parses, the
      value is not an object or array, or no product comes out; else the
      products and the reply with the JSON block removed, trimmed. */
  function ShoppingPayloadOf(content: string, parse: Parser, toNumber: string -> Option<Num>)
    : (r: Option<(seq<ShoppingProduct>, string)>)
    ensures r.Some? ==> r.value.0 != [] && r.value.1 == Remainder(content)
  {
    var candidate := Candidate(content);
    match ParseCandidate(candidate, parse)
    case None => None
    case Some(raw) =>
      if !JsTruthy(raw) || !(raw.JObj? || raw.JArr?) then None
      else
        var products := ProductsOf(raw, toNumber);
        if products == [] then None
        else Some((products, Remainder(content)))
  }

  /** The text `parseShoppingPayload` keeps beside the products, before
      trimming: the first copy of the whole fenced block removed when there
      is one, else the first copy of the candidate. */
  method CutJson(content: string, candidate: string) returns (cut: string)
    ensures cut == Cut(content, candidate)
  {
    var codeMatch := FenceFrom(content, 0);
    if codeMatch.Some? {
      var (p, q) := codeMatch.value;
      FenceFirstOccurrence(content, p, q);
      CutAt(content, p, q + 3);
      cut := ReplaceFirst(content, content[p..q + 3], "");
    } else {
      cut := ReplaceFirst(content, candidate, "");
    }
  }

  /** `parseShoppingPayload`. */
  method ParseShoppingPayload(content: string, parse: Parser, toNumber: string -> Option<Num>)
    returns (r: Option<(seq<ShoppingProduct>, string)>)
    ensures r == ShoppingPayloadOf(content, parse, toNumber)
  {
    var candidate := Candidate(content);
    var parsed := ParseCandidate(candidate, parse);
    if parsed.None? || !JsTruthy(parsed.value) || !(parsed.value.JObj? || parsed.value.JArr?) {
      return None;
    }
    var products := ProductsFrom(parsed.value, toNumber);
    if products == [] {
      return None;
    }
    var cut := CutJson(content, candidate);
    r := Some((products, JsTrim(cut)));
  }

  /** A copy of a fence match's text is itself a fence match. */
  lemma CopyIsFence(s: string, p: nat, q: nat, j: nat)
    requires FenceAt(s, p) && Some(q) == FindFrom(s, "```", p + 7)
    requires OccursAt(s, s[p..q + 3], j)
    ensures FenceAt(s, j)
  {
    var m := s[p..q + 3];
    OccursAtPart(s, m, j, 0, 7);
    assert s[j..j + 7] == m[..7] == s[p..p + 7];
    OccursAtPart(s, m, j, q - p, q - p + 3);
    OccursAtSlice(s, "```", q);
    assert s[j + (q - p)..j + (q - p) + 3] == m[q - p..q - p + 3] == s[q..q + 3];
    OccursAtSlice(s, "```", j + (q - p));
    FindFromLeftmost(s, "```", j + 7);
  }

  /** The first occurrence of the matched fence text is the match itself:
      an earlier copy would be an earlier match. */
  lemma FenceFirstOccurrence(s: string, p: nat, q: nat)
    requires FenceFrom(s, 0) == Some((p, q))
    ensures FindFrom(s, s[p..q + 3], 0) == Some(p)
  {
    FenceFromFound(s, 0);
    var m := s[p..q + 3];
    OccursAtSlice(s, m, p);
    forall j: nat | j < p
      ensures !OccursAt(s, m, j)
    {
      if OccursAt(s, m, j) {
        CopyIsFence(s, p, q, j);
      }
    }
    FirstOccurrence(s, m, p);
  }

  /** A text that occurs at `i` and nowhere before is found at `i`. */
  lemma FirstOccurrence(s: string, pat: string, i: nat)
    requires OccursAt(s, pat, i)
    requires forall j: nat :: j < i ==> !OccursAt(s, pat, j)
    ensures FindFrom(s, pat, 0) == Some(i)
  {
    FindFromLeftmost(s, pat, 0);
  }

  /** Removing the first occurrence of a text found at `i`. */
  lemma RemoveFirstAt(s: string, pat: string, i: nat)
    requires FindFrom(s, pat, 0) == Some(i)
    ensures i + |pat| <= |s| && ReplaceFirst(s, pat, "") == s[..i] + s[i + |pat|..]
  {
    ReplaceFirstFound(s, pat, "");
    assert s[..i] + "" == s[..i];
  }

  /** Removing the first occurrence of the slice `s[p..e]`, found at `p`,
      leaves what is around it. */
  lemma CutAt(s: string, p: nat, e: nat)
    requires p <= e <= |s| && FindFrom(s, s[p..e], 0) == Some(p)
    ensures ReplaceFirst(s, s[p..e], "") == s[..p] + s[e..]
  {
    RemoveFirstAt(s, s[p..e], p);
  }

  /** Without a fence the candidate is the whole reply trimmed, and its
      first occurrence is right after the leading white space, so the
      remainder is always empty. */
  lemma UnfencedRemainder(content: string)
    requires FenceFrom(content, 0).None?
    ensures Remainder(content) == ""
  {
    var c := JsTrim(content);
    assert Remainder(content) == JsTrim(ReplaceFirst(content, c, ""));
    TrimFacts(content, JsWhitespace);
    TrimSlice(content, JsWhitespace);
    var a := |content| - |TrimStart(content, JsWhitespace)|;
    if c == [] {
      OccursAtSlice(content, c, 0);
      RemoveFirstAt(content, c, 0);
      assert content[..0] + content[0..] == content;
      TrimFacts(content, JsWhitespace);
    } else {
      OccursAtSlice(content, c, a);
      LeadingOccurrence(content, a, c);
      RemoveFirstAt(content, c, a);
      AllInJoin(content[..a], content[a + |c|..], JsWhitespace);
      TrimFacts(content[..a] + content[a + |c|..], JsWhitespace);
    }
  }

  /** A text that starts with a character outside `JsWhitespace` first
      occurs, after a white-space prefix, where it is found. */
  lemma LeadingOccurrence(s: string, a: nat, c: string)
    requires c != [] && c[0] !in JsWhitespace && a <= |s|
    requires AllIn(s[..a], JsWhitespace) && OccursAt(s, c, a)
    ensures FindFrom(s, c, 0) == Some(a)
  {
    forall j: nat | j < a
      ensures !OccursAt(s, c, j)
    {
      assert s[j] in JsWhitespace by { assert s[..a][j] == s[j]; }
      if OccursAt(s, c, j) {
        OccursAtPart(s, c, j, 0, 1);
        assert false;
      }
    }
    FirstOccurrence(s, c, a);
  }

  lemma AllInJoin(x: string, y: string, ws: set<char>)
    requires AllIn(x, ws) && AllIn(y, ws)
    ensures AllIn(x + y, ws)
  {
    forall k | 0 <= k < |x + y|
      ensures (x + y)[k] in ws
    {
      if k >= |x| {
        assert (x + y)[k] == y[k - |x|];
      }
    }
  }

  // ---------------------------------------------------------------------
  // stripToolArtifacts

  /** A line of tool output: once trimmed, dashes and white space, then
      `link:`, `thumbnail:` or `image:` in any case. */
  predicate IsArtifact(line: string) {
    var t := JsTrim(line);
    var i := SkipIn(t, 0, {'-'} + JsWhitespace);
    WordAt(t, i, "link:", true) || WordAt(t, i, "thumbnail:", true) || WordAt(t, i, "image:", true)
  }

  /** A line as the filter sees it: kept unless it is an artifact. */
  function KeptLine(line: string): Option<string> {
    if IsArtifact(line) then None else Some(line)
  }

  /** The lines without the artifact lines, in order. */
  function KeepLines(lines: seq<string>): seq<string> {
    MapPresent(lines, KeptLine)
  }

  /** The kept lines are exactly the lines that are not artifacts, never
      more than the input. */
  lemma KeepLinesMeaning(lines: seq<string>)
    ensures |KeepLines(lines)| <= |lines|
    ensures forall l :: l in KeepLines(lines) <==> l in lines && !IsArtifact(l)
  {
    MapPresentMeaning(lines, KeptLine);
    forall l
      ensures l in KeepLines(lines) <==> l in lines && !IsArtifact(l)
    {
      if l in lines && !IsArtifact(l) {
        var i :| 0 <= i < |lines| && lines[i] == l;
        assert KeptLine(lines[i]) == Some(l);
      }
    }
  }

  /** `KeepLines` keeps the order and the repeats of the lines it keeps:
      it works line by line, a single line kept unless it is an artifact. */
  lemma KeepLinesAppend(a: seq<string>, b: seq<string>)
    ensures KeepLines(a + b) == KeepLines(a) + KeepLines(b)
    ensures |a| == 1 ==> KeepLines(a) == (if IsArtifact(a[0]) then [] else [a[0]])
  {
    MapPresentAppend(a, b, KeptLine);
    MapPresentAppend(b, a, KeptLine);
  }

  /** The Markdown `stripToolArtifacts` hands to the renderer: the reply's
      lines without the tool-output lines, rejoined. */
  function StripToolArtifacts(content: string): string {
    Join(KeepLines(SplitLines(content)), "\n")
  }
}
