/** backend/utils/search.py: the filter, search text and timestamp text sent
    to the vector index, and the conversion of the hits it returns. The
    index client is a parameter. */
module SearchUtils {
  import opened Base
  import opened JsonModel
  import opened DateTimes

  // ---------------------------------------------------------------------
  // Filter literals

  /** `_escape_filter_value`: every single quote is doubled, the rule for
      string literals of the OData filter language. */
  function EscapeFilterValue(value: string): string {
    ReplaceChar(value, '\'', "''")
  }

  function Count(s: string, c: char): nat {
    if s == [] then 0 else (if s[0] == c then 1 else 0) + Count(s[1..], c)
  }

  /** One extra character per quote, and nothing else added. */
  lemma {:induction false} EscapeFilterValueLength(value: string)
    ensures |EscapeFilterValue(value)| == |value| + Count(value, '\'')
    decreases |value|
  {
    if value != [] {
      EscapeFilterValueLength(value[1..]);
    }
  }

  /** Reading a literal back: every `''` becomes one quote. */
  function CollapseQuotes(s: string): string {
    if s == [] then ""
    else if |s| >= 2 && s[0] == '\'' && s[1] == '\'' then "'" + CollapseQuotes(s[2..])
    else [s[0]] + CollapseQuotes(s[1..])
  }

  lemma {:induction false} CollapseEscape(value: string)
    ensures CollapseQuotes(EscapeFilterValue(value)) == value
    decreases |value|
  {
    if value != [] {
      var rest := EscapeFilterValue(value[1..]);
      CollapseEscape(value[1..]);
      if value[0] == '\'' {
        var e := "''" + rest;
        assert EscapeFilterValue(value) == e;
        assert e[2..] == rest;
      } else {
        var e := [value[0]] + rest;
        assert EscapeFilterValue(value) == e;
        assert e[1..] == rest;
      }
    }
  }

  /** The body of a quoted literal whose opening quote has been consumed:
      the decoded text and what follows the closing quote, or `None` when
      the literal is never closed. */
  function ReadLiteral(s: string): Option<(string, string)>
    decreases |s|
  {
    if s == [] then None
    else if s[0] == '\'' then
      if |s| >= 2 && s[1] == '\'' then
        match ReadLiteral(s[2..])
        case None => None
        case Some(p) => Some(("'" + p.0, p.1))
      else Some(("", s[1..]))
    else
      match ReadLiteral(s[1..])
      case None => None
      case Some(p) => Some(([s[0]] + p.0, p.1))
  }

  /** An escaped value followed by a closing quote reads back as exactly
      that value: no value can end its literal early. */
  lemma {:induction false} ReadEscapedLiteral(value: string, rest: string)
    requires rest == [] || rest[0] != '\''
    ensures ReadLiteral(EscapeFilterValue(value) + "'" + rest) == Some((value, rest))
    decreases |value|
  {
    var s := EscapeFilterValue(value) + "'" + rest;
    if value == [] {
      assert s == "'" + rest && s[1..] == rest;
    } else {
      var tail := EscapeFilterValue(value[1..]) + "'" + rest;
      ReadEscapedLiteral(value[1..], rest);
      if value[0] == '\'' {
        assert EscapeFilterValue(value) == "''" + EscapeFilterValue(value[1..]);
        assert s == "''" + tail && s[2..] == tail;
        assert "'" + value[1..] == value;
      } else {
        assert EscapeFilterValue(value) == [value[0]] + EscapeFilterValue(value[1..]);
        assert s == [value[0]] + tail && s[1..] == tail;
        assert s[0] == value[0] && s[0] != '\'';
        assert [value[0]] + value[1..] == value;
      }
    }
  }

  // ---------------------------------------------------------------------
  // Timestamps

  /** `_format_timestamp`: a naive value is taken as UTC, the value is
      converted to UTC and written with `Z` in place of `+00:00`. */
  function FormatTimestamp(t: DateTimeValue): Result<string> {
    var aware := if t.offset.None? then t.(offset := Some(0)) else t;
    match ToUtc(aware)
    case Err(e) => Err(e)
    case Ok(u) => Ok(ReplaceAll(IsoFormat(u), "+00:00", "Z"))
  }

  predicate DigitsAt(s: string, i: nat, j: nat)
    requires i <= j <= |s|
  {
    forall k :: i <= k < j ==> '0' <= s[k] <= '9'
  }

  /** The UTC date-time form of section 5.6 of RFC 3339, with the optional
      six-digit fraction Python writes. */
  predicate IsRfc3339Utc(s: string) {
    && (|s| == 20 || |s| == 27)
    && DigitsAt(s, 0, 4) && s[4] == '-' && DigitsAt(s, 5, 7) && s[7] == '-'
    && DigitsAt(s, 8, 10) && s[10] == 'T' && DigitsAt(s, 11, 13) && s[13] == ':'
    && DigitsAt(s, 14, 16) && s[16] == ':' && DigitsAt(s, 17, 19)
    && (|s| == 27 ==> s[19] == '.' && DigitsAt(s, 20, 26))
    && s[|s| - 1] == 'Z'
  }

  predicate AllDigits(s: string) {
    forall k :: 0 <= k < |s| ==> '0' <= s[k] <= '9'
  }

  /** Three digit fields joined by a separator. */
  lemma DigitFields(a: string, b: string, c: string, sep: char)
    requires AllDigits(a) && AllDigits(b) && AllDigits(c)
    ensures var s := a + [sep] + b + [sep] + c;
      && |s| == |a| + |b| + |c| + 2
      && DigitsAt(s, 0, |a|) && s[|a|] == sep
      && DigitsAt(s, |a| + 1, |a| + 1 + |b|) && s[|a| + 1 + |b|] == sep
      && DigitsAt(s, |a| + |b| + 2, |s|)
  {
    var s := a + [sep] + b + [sep] + c;
    assert forall k :: 0 <= k < |a| ==> s[k] == a[k];
    assert forall k :: |a| + 1 <= k < |a| + 1 + |b| ==> s[k] == b[k - |a| - 1];
    assert forall k :: |a| + |b| + 2 <= k < |s| ==> s[k] == c[k - |a| - |b| - 2];
  }

  function Clock(u: DateTimeValue): string {
    PadNat(u.hour, 2) + ":" + PadNat(u.minute, 2) + ":" + PadNat(u.second, 2)
  }

  function Fraction(u: DateTimeValue): string {
    if u.micro != 0 then "." + PadNat(u.micro, 6) else ""
  }

  lemma DateAndClockShape(u: DateTimeValue)
    ensures var d := DatePart(u.date);
      |d| == 10 && DigitsAt(d, 0, 4) && d[4] == '-' && DigitsAt(d, 5, 7) && d[7] == '-'
      && DigitsAt(d, 8, 10)
    ensures var c := Clock(u);
      |c| == 8 && DigitsAt(c, 0, 2) && c[2] == ':' && DigitsAt(c, 3, 5) && c[5] == ':'
      && DigitsAt(c, 6, 8)
    ensures var f := Fraction(u);
      (f == [] || (|f| == 7 && f[0] == '.' && DigitsAt(f, 1, 7)))
  {
    assert Pow10(2) == 100 && Pow10(4) == 10000 && Pow10(6) == 1000000;
    PadNatLength(u.date.year, 4);
    PadNatLength(u.date.month, 2);
    PadNatLength(u.date.day, 2);
    PadNatLength(u.hour, 2);
    PadNatLength(u.minute, 2);
    PadNatLength(u.second, 2);
    DigitFields(PadNat(u.date.year, 4), PadNat(u.date.month, 2), PadNat(u.date.day, 2), '-');
    DigitFields(PadNat(u.hour, 2), PadNat(u.minute, 2), PadNat(u.second, 2), ':');
    if u.micro != 0 {
      PadNatLength(u.micro, 6);
    }
  }

  lemma UtcTextShape(u: DateTimeValue)
    ensures IsRfc3339Utc(DatePart(u.date) + "T" + TimePart(u) + "Z")
  {
    DateAndClockShape(u);
    var d, c, f := DatePart(u.date), Clock(u), Fraction(u);
    var s := d + "T" + c + f + "Z";
    assert TimePart(u) == c + f;
    assert DatePart(u.date) + "T" + TimePart(u) + "Z" == s;
    assert forall k :: 0 <= k < 10 ==> s[k] == d[k];
    assert s[10] == 'T';
    assert forall k :: 11 <= k < 19 ==> s[k] == c[k - 11];
    assert forall k :: 19 <= k < |s| - 1 ==> s[k] == f[k - 19];
  }

  /** With offset zero, `isoformat` ends in `+00:00`, which becomes `Z`. */
  lemma UtcIsoText(u: DateTimeValue)
    requires u.offset == Some(0)
    ensures ReplaceAll(IsoFormat(u), "+00:00", "Z") == DatePart(u.date) + "T" + TimePart(u) + "Z"
  {
    DateAndClockShape(u);
    var body := DatePart(u.date) + "T" + TimePart(u);
    assert PadNat(0, 2) == "00";
    assert OffsetPart(u.offset) == "+00:00";
    assert IsoFormat(u) == body + "+00:00";
    assert TimePart(u) == Clock(u) + Fraction(u);
    assert '+' !in body;
    ReplaceAllSuffix(body, "+00:00", "Z");
  }

  /** The formatted timestamp names the same instant as the input (a naive
      input read as UTC), in UTC, in RFC 3339 form ending in `Z`. */
  lemma FormatTimestampMeaning(t: DateTimeValue)
    ensures FormatTimestamp(t).Ok? ==>
      exists u: DateTimeValue ::
        && u.offset == Some(0) && u.micro == t.micro
        && Instant(u) == Instant(t)
        && FormatTimestamp(t).value == DatePart(u.date) + "T" + TimePart(u) + "Z"
    ensures FormatTimestamp(t).Ok? ==> IsRfc3339Utc(FormatTimestamp(t).value)
    ensures FormatTimestamp(t).Err? ==> FormatTimestamp(t).error == OverflowMessage
  {
    var aware := if t.offset.None? then t.(offset := Some(0)) else t;
    assert Instant(aware) == Instant(t);
    var r := ToUtc(aware);
    if r.Ok? {
      var u := r.value;
      UtcIsoText(u);
      UtcTextShape(u);
    }
  }

  // ---------------------------------------------------------------------
  // Query construction

  /** The filter: the user's literal, then the timestamp bound. */
  function FilterExpression(uid: string, stamp: string): string {
    Join(["uid eq '" + EscapeFilterValue(uid) + "'", "timestamp le " + stamp], " and ")
  }

  /** Whatever the uid holds, the filter reads as a uid comparison whose
      literal is exactly `uid`, followed by the timestamp clause. */
  lemma FilterExpressionParses(uid: string, stamp: string)
    ensures StartsWith(FilterExpression(uid, stamp), "uid eq '")
    ensures ReadLiteral(FilterExpression(uid, stamp)[8..]) == Some((uid, " and timestamp le " + stamp))
  {
    var f := FilterExpression(uid, stamp);
    var tail := " and timestamp le " + stamp;
    var parts := ["uid eq '" + EscapeFilterValue(uid) + "'", "timestamp le " + stamp];
    assert parts[1..] == ["timestamp le " + stamp];
    assert Join(parts[1..], " and ") == "timestamp le " + stamp;
    assert f == "uid eq '" + (EscapeFilterValue(uid) + "'" + tail);
    assert f[8..] == EscapeFilterValue(uid) + "'" + tail;
    ReadEscapedLiteral(uid, tail);
  }

  /** The text searched for: the stripped query, or `*` (match everything)
      when nothing is left. */
  function SearchText(query: string): (r: string)
    ensures r != []
    ensures AllIn(query, PyWhitespace) ==> r == "*"
    ensures !AllIn(query, PyWhitespace) ==>
      r == PyStrip(query) && r[0] !in PyWhitespace && r[|r| - 1] !in PyWhitespace
  {
    TrimFacts(query, PyWhitespace);
    var s := PyStrip(query);
    if s == [] then "*" else s
  }

  // ---------------------------------------------------------------------
  // Search call and hits

  /** A field of a hit: a JSON value, or a `datetime` the client decoded. */
  datatype Field = Value(j: Json) | Moment(t: DateTimeValue)

  type Hit = map<string, Field>

  datatype SearchRequest = SearchRequest(
    searchText: string, filter: string, top: int,
    orderBy: seq<string>, select: seq<string>)

  const DefaultTopK := 20
  const ConfigError := "Set AZURE_SEARCH_ENDPOINT and AZURE_SEARCH_API_KEY environment variables"

  /** The index client's `search`, as a function of the request. */
  type SearchClient = SearchRequest -> Result<seq<Hit>>

  predicate Configured(endpoint: Option<string>, apiKey: Option<string>) {
    endpoint.Some? && endpoint.value != "" && apiKey.Some? && apiKey.value != ""
  }

  function Request(query: string, uid: string, stamp: string, topK: int): SearchRequest {
    SearchRequest(SearchText(query), FilterExpression(uid, stamp), topK,
                  ["timestamp desc"], ["id", "uid", "timestamp", "content"])
  }

  /** One hit as returned to the caller: a `datetime` timestamp becomes its
      ISO text, every other field is copied. */
  function ConvertHit(hit: Hit): (r: Hit)
    ensures r.Keys == hit.Keys
    ensures forall k :: k in hit && k != "timestamp" ==> r[k] == hit[k]
    ensures "timestamp" in hit && hit["timestamp"].Moment? ==>
      r["timestamp"] == Value(JStr(IsoFormat(hit["timestamp"].t)))
    ensures "timestamp" in hit && hit["timestamp"].Value? ==> r["timestamp"] == hit["timestamp"]
  {
    if "timestamp" in hit && hit["timestamp"].Moment? then
      hit["timestamp" := Value(JStr(IsoFormat(hit["timestamp"].t)))]
    else hit
  }

  /** After conversion no timestamp is a `datetime`, so converting again
      changes nothing. */
  lemma ConvertHitIdempotent(hit: Hit)
    ensures !("timestamp" in ConvertHit(hit) && ConvertHit(hit)["timestamp"].Moment?)
    ensures ConvertHit(ConvertHit(hit)) == ConvertHit(hit)
  {
  }

  /** The loop that copies the hits into the payload. */
  method ConvertHits(results: seq<Hit>) returns (payload: seq<Hit>)
    ensures |payload| == |results|
    ensures forall i :: 0 <= i < |results| ==> payload[i] == ConvertHit(results[i])
  {
    payload := [];
    for i := 0 to |results|
      invariant |payload| == i
      invariant forall j :: 0 <= j < i ==> payload[j] == ConvertHit(results[j])
    {
      payload := payload + [ConvertHit(results[i])];
    }
  }

  /** `search_vector_db`: fails without configuration or on an out-of-range
      timestamp, otherwise sends the request built above and returns every
      hit, in order, converted. */
  method SearchVectorDb(query: string, uid: string, timestamp: DateTimeValue, topK: int,
                        endpoint: Option<string>, apiKey: Option<string>, search: SearchClient)
    returns (r: Result<seq<Hit>>)
    ensures !Configured(endpoint, apiKey) ==> r == Err(ConfigError)
    ensures Configured(endpoint, apiKey) && FormatTimestamp(timestamp).Err? ==>
      r == Err(FormatTimestamp(timestamp).error)
    ensures Configured(endpoint, apiKey) && FormatTimestamp(timestamp).Ok? ==>
      var hits := search(Request(query, uid, FormatTimestamp(timestamp).value, topK));
      && (hits.Err? ==> r == Err(hits.error))
      && (hits.Ok? ==>
            (r.Ok? && |r.value| == |hits.value|
             && forall i :: 0 <= i < |hits.value| ==> r.value[i] == ConvertHit(hits.value[i])))
  {
    if !Configured(endpoint, apiKey) {
      return Err(ConfigError);
    }
    var stamp := FormatTimestamp(timestamp);
    if stamp.Err? {
      return Err(stamp.error);
    }
    var hits := search(Request(query, uid, stamp.value, topK));
    if hits.Err? {
      return Err(hits.error);
    }
    var payload := ConvertHits(hits.value);
    return Ok(payload);
  }
}
