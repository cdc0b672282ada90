/** Shared vocabulary: optional values, results, and the string operations
    (trim, split, join, search, replace, lower-casing) that both the
    TypeScript front end and the Python back end lean on. */
module Base {

  datatype Option<+T> = None | Some(value: T) {
    function GetOr(default: T): T {
      match this
      case Some(v) => v
      case None => default
    }
  }

  /** An operation that either produces a value or fails with an error text
      (a thrown `Error`, a raised exception, an HTTP error detail). */
  datatype Result<+T> = Ok(value: T) | Err(error: string)

  // ---------------------------------------------------------------------
  // Whitespace

  /** Characters removed by JavaScript's `String.prototype.trim` and matched
      by `\s` in JavaScript regular expressions. */
  const JsWhitespace: set<char> := {
    ' ', '\t', '\n', '\r', '\U{000B}', '\U{000C}', '\U{00A0}', '\U{1680}',
    '\U{2000}', '\U{2001}', '\U{2002}', '\U{2003}', '\U{2004}', '\U{2005}',
    '\U{2006}', '\U{2007}', '\U{2008}', '\U{2009}', '\U{200A}', '\U{2028}',
    '\U{2029}', '\U{202F}', '\U{205F}', '\U{3000}', '\U{FEFF}'
  }

  /** Characters removed by Python's `str.strip()` with no argument. */
  const PyWhitespace: set<char> := {
    ' ', '\t', '\n', '\r', '\U{000B}', '\U{000C}', '\U{001C}', '\U{001D}',
    '\U{001E}', '\U{001F}', '\U{0085}', '\U{00A0}', '\U{1680}',
    '\U{2000}', '\U{2001}', '\U{2002}', '\U{2003}', '\U{2004}', '\U{2005}',
    '\U{2006}', '\U{2007}', '\U{2008}', '\U{2009}', '\U{200A}', '\U{2028}',
    '\U{2029}', '\U{202F}', '\U{205F}', '\U{3000}'
  }

  predicate AllIn(s: string, ws: set<char>) {
    forall i :: 0 <= i < |s| ==> s[i] in ws
  }

  function TrimStart(s: string, ws: set<char>): string {
    if s != [] && s[0] in ws then TrimStart(s[1..], ws) else s
  }

  /** What is left after the leading run is a suffix that starts outside
      `ws`, and the run removed lies inside `ws`. */
  lemma {:induction false} TrimStartFacts(s: string, ws: set<char>)
    ensures |TrimStart(s, ws)| <= |s| && TrimStart(s, ws) == s[|s| - |TrimStart(s, ws)|..]
    ensures TrimStart(s, ws) != [] ==> TrimStart(s, ws)[0] !in ws
    ensures AllIn(s[..|s| - |TrimStart(s, ws)|], ws)
  {
    if s != [] && s[0] in ws {
      TrimStartFacts(s[1..], ws);
      var r := TrimStart(s, ws);
      assert s[1..][..|s| - 1 - |r|] == s[1..|s| - |r|];
    }
  }

  function TrimEnd(s: string, ws: set<char>): string {
    if s != [] && s[|s| - 1] in ws then TrimEnd(s[..|s| - 1], ws) else s
  }

  lemma {:induction false} TrimEndFacts(s: string, ws: set<char>)
    ensures |TrimEnd(s, ws)| <= |s| && TrimEnd(s, ws) == s[..|TrimEnd(s, ws)|]
    ensures TrimEnd(s, ws) != [] ==> TrimEnd(s, ws)[|TrimEnd(s, ws)| - 1] !in ws
    ensures AllIn(s[|TrimEnd(s, ws)|..], ws)
  {
    if s != [] && s[|s| - 1] in ws {
      TrimEndFacts(s[..|s| - 1], ws);
      var r := TrimEnd(s, ws);
      assert s[..|s| - 1][|r|..] == s[|r|..|s| - 1];
      forall i | 0 <= i < |s| - |r|
        ensures s[|r|..][i] in ws
      {
        if |r| + i < |s| - 1 {
          assert s[|r|..][i] == s[..|s| - 1][|r|..][i];
        }
      }
    }
  }

  /** Removes leading and trailing characters of `ws`. */
  function Trim(s: string, ws: set<char>): string {
    TrimEnd(TrimStart(s, ws), ws)
  }

  /** The trimmed text neither starts nor ends with a character of `ws`,
      and it is empty exactly when every character is in `ws`. */
  lemma TrimFacts(s: string, ws: set<char>)
    ensures |Trim(s, ws)| <= |s|
    ensures Trim(s, ws) != [] ==> Trim(s, ws)[0] !in ws && Trim(s, ws)[|Trim(s, ws)| - 1] !in ws
    ensures Trim(s, ws) == [] <==> AllIn(s, ws)
  {
    var a := TrimStart(s, ws);
    TrimStartFacts(s, ws);
    TrimEndFacts(a, ws);
    var t := Trim(s, ws);
    assert s == s[..|s| - |a|] + a;
    if t != [] {
      assert t[0] == a[0];
    }
  }

  /** JavaScript `s.trim()`. */
  function JsTrim(s: string): string { Trim(s, JsWhitespace) }

  /** Python `s.strip()`. */
  function PyStrip(s: string): string { Trim(s, PyWhitespace) }

  /** JavaScript truthiness of `s.trim()`: the text has a non-blank character. */
  predicate IsBlankJs(s: string) { AllIn(s, JsWhitespace) }

  // ---------------------------------------------------------------------
  // Case

  /** ASCII lower-casing; the characters matched by the case-insensitive
      patterns of the source are all ASCII letters. */
  function LowerChar(c: char): char {
    if 'A' <= c <= 'Z' then (c as int + 32) as char else c
  }

  function Lower(s: string): (r: string)
    ensures |r| == |s| && forall i :: 0 <= i < |s| ==> r[i] == LowerChar(s[i])
  {
    if s == [] then [] else [LowerChar(s[0])] + Lower(s[1..])
  }

  /** Lower-casing twice is lower-casing once. */
  lemma LowerIdempotent(s: string)
    ensures Lower(Lower(s)) == Lower(s)
  {
    assert forall i :: 0 <= i < |s| ==> Lower(Lower(s))[i] == LowerChar(LowerChar(s[i]));
  }

  // ---------------------------------------------------------------------
  // Prefixes and substrings

  predicate StartsWith(s: string, p: string) {
    |p| <= |s| && s[..|p|] == p
  }

  /** Case-insensitive prefix test against a lower-case pattern. */
  predicate StartsWithCI(s: string, p: string) {
    |p| <= |s| && Lower(s[..|p|]) == p
  }

  /** `sub` occurs in `s` at `i`. Checked character by character so that
      a proof about one occurrence does not unfold into whole slices; the
      slice form is `OccursAtSlice`. */
  predicate OccursAt(s: string, sub: string, i: nat) {
    i + |sub| <= |s| && AgreesFor(s, sub, i, |sub|)
  }

  /** The first `n` characters of `sub` agree with `s` from `i` on. */
  predicate AgreesFor(s: string, sub: string, i: nat, n: nat)
    requires i + n <= |s| && n <= |sub|
    decreases n
  {
    n == 0 || (s[i + n - 1] == sub[n - 1] && AgreesFor(s, sub, i, n - 1))
  }

  lemma {:induction false} AgreesForSlice(s: string, sub: string, i: nat, n: nat)
    requires i + n <= |s| && n <= |sub|
    ensures AgreesFor(s, sub, i, n) <==> s[i..i + n] == sub[..n]
    decreases n
  {
    if n > 0 {
      AgreesForSlice(s, sub, i, n - 1);
      assert s[i..i + n] == s[i..i + n - 1] + [s[i + n - 1]];
      assert sub[..n] == sub[..n - 1] + [sub[n - 1]];
    }
  }

  /** An occurrence is a slice equal to the text. */
  lemma OccursAtSlice(s: string, sub: string, i: nat)
    ensures OccursAt(s, sub, i) <==> i + |sub| <= |s| && s[i..i + |sub|] == sub
  {
    if i + |sub| <= |s| {
      AgreesForSlice(s, sub, i, |sub|);
      assert sub[..|sub|] == sub;
    }
  }

  /** A piece of an occurrence is an occurrence of the piece. */
  lemma OccursAtPart(s: string, sub: string, i: nat, a: nat, b: nat)
    requires OccursAt(s, sub, i) && a <= b <= |sub|
    ensures i + b <= |s| && s[i + a..i + b] == sub[a..b]
  {
    OccursAtSlice(s, sub, i);
    var piece, inner := s[i + a..i + b], s[i..i + |sub|][a..b];
    forall k | 0 <= k < |piece|
      ensures piece[k] == inner[k]
    {
    }
    assert piece == inner;
  }

  /** An occurrence in a slice is an occurrence in the whole text. */
  lemma OccursInSlice(s: string, sub: string, a: nat, b: nat, i: nat)
    requires a <= b <= |s| && OccursAt(s[a..b], sub, i)
    ensures OccursAt(s, sub, a + i)
  {
    var t := s[a..b];
    OccursAtSlice(t, sub, i);
    var piece, whole := t[i..i + |sub|], s[a + i..a + i + |sub|];
    forall k | 0 <= k < |sub|
      ensures whole[k] == piece[k]
    {
    }
    assert whole == piece;
    OccursAtSlice(s, sub, a + i);
  }

  /** Concatenation regroups; kept apart so that proofs about filters do
      not do this step among their own facts. */
  lemma AppendAssoc<T>(x: seq<T>, y: seq<T>, z: seq<T>)
    ensures x + (y + z) == (x + y) + z
  {
  }

  /** Python `sub in s`, JavaScript `s.includes(sub)`. */
  predicate Contains(s: string, sub: string) {
    exists i: nat | i <= |s| :: OccursAt(s, sub, i)
  }

  /** Leftmost position at or after `from` where `sub` occurs. */
  function FindFrom(s: string, sub: string, from: nat): (r: Option<nat>)
    requires from <= |s|
    ensures r.Some? ==> from <= r.value && OccursAt(s, sub, r.value)
    decreases |s| - from
  {
    if OccursAt(s, sub, from) then Some(from)
    else if from == |s| then None
    else FindFrom(s, sub, from + 1)
  }

  /** The position found is the leftmost one: nothing occurs before it,
      and nothing at all when the search fails. */
  lemma {:induction false} FindFromLeftmost(s: string, sub: string, from: nat)
    requires from <= |s|
    ensures FindFrom(s, sub, from).Some? ==>
      forall j: nat :: from <= j < FindFrom(s, sub, from).value ==> !OccursAt(s, sub, j)
    ensures FindFrom(s, sub, from).None? ==> forall j: nat :: from <= j ==> !OccursAt(s, sub, j)
    decreases |s| - from
  {
    if !OccursAt(s, sub, from) && from < |s| {
      FindFromLeftmost(s, sub, from + 1);
    }
  }

  /** Decides `Contains` by search. */
  lemma ContainsByFind(s: string, sub: string)
    ensures Contains(s, sub) <==> FindFrom(s, sub, 0).Some?
  {
    var r := FindFrom(s, sub, 0);
    FindFromLeftmost(s, sub, 0);
    if r.Some? { assert OccursAt(s, sub, r.value); }
  }

  /** JavaScript `s.indexOf(c)` as an option. */
  function IndexOf(s: string, c: char): (r: Option<nat>)
    ensures r.Some? ==> r.value < |s| && s[r.value] == c && c !in s[..r.value]
    ensures r.None? <==> c !in s
  {
    if s == [] then None
    else if s[0] == c then Some(0)
    else match IndexOf(s[1..], c)
      case None => None
      case Some(k) => Some(k + 1)
  }

  /** JavaScript `s.lastIndexOf(c)` as an option. */
  function LastIndexOf(s: string, c: char): (r: Option<nat>)
    ensures r.Some? ==> r.value < |s| && s[r.value] == c && c !in s[r.value + 1..]
    ensures r.None? <==> c !in s
  {
    if s == [] then None
    else if s[|s| - 1] == c then Some(|s| - 1)
    else LastIndexOf(s[..|s| - 1], c)
  }

  // ---------------------------------------------------------------------
  // Join and split

  /** `xs.join(sep)` / `sep.join(xs)`. */
  function Join(xs: seq<string>, sep: string): string {
    if xs == [] then ""
    else if |xs| == 1 then xs[0]
    else xs[0] + sep + Join(xs[1..], sep)
  }

  /** A join starts with its first piece. */
  lemma JoinHead(xs: seq<string>, sep: string)
    requires xs != []
    ensures StartsWith(Join(xs, sep), xs[0])
  {
    if |xs| > 1 {
      assert Join(xs, sep) == xs[0] + (sep + Join(xs[1..], sep));
      assert Join(xs, sep)[..|xs[0]|] == xs[0];
    }
  }

  /** Joining two non-empty lists puts one separator between their joins. */
  lemma {:induction false} JoinAppend(xs: seq<string>, ys: seq<string>, sep: string)
    requires xs != [] && ys != []
    ensures Join(xs + ys, sep) == Join(xs, sep) + sep + Join(ys, sep)
    decreases |xs|
  {
    if |xs| > 1 {
      JoinAppend(xs[1..], ys, sep);
      assert (xs + ys)[1..] == xs[1..] + ys;
    }
  }

  /** A join of pieces drawn from `cs` with a separator drawn from `cs`
      stays within `cs`. */
  lemma {:induction false} JoinAllIn(xs: seq<string>, sep: string, cs: set<char>)
    requires forall k :: 0 <= k < |xs| ==> AllIn(xs[k], cs)
    requires AllIn(sep, cs)
    ensures AllIn(Join(xs, sep), cs)
    decreases |xs|
  {
    if |xs| > 1 {
      JoinAllIn(xs[1..], sep, cs);
      var rest := Join(xs[1..], sep);
      assert AllIn(xs[0], cs);
      forall i | 0 <= i < |xs[0] + sep + rest|
        ensures (xs[0] + sep + rest)[i] in cs
      {
        if i >= |xs[0]| + |sep| {
          assert (xs[0] + sep + rest)[i] == rest[i - |xs[0]| - |sep|];
        }
      }
    }
  }

  /** A character missing from every piece and from the separator is
      missing from the join. */
  lemma {:induction false} JoinAvoids(xs: seq<string>, sep: string, c: char)
    requires forall k :: 0 <= k < |xs| ==> c !in xs[k]
    requires c !in sep
    ensures c !in Join(xs, sep)
    decreases |xs|
  {
    if |xs| > 1 {
      JoinAvoids(xs[1..], sep, c);
      assert c !in xs[0];
    }
  }

  /** Splits on every occurrence of `c`; there is always one more piece than
      there are occurrences. */
  function SplitOn(s: string, c: char): (r: seq<string>)
    ensures |r| >= 1
    ensures forall k :: 0 <= k < |r| ==> c !in r[k]
  {
    match IndexOf(s, c)
    case None => [s]
    case Some(i) => [s[..i]] + SplitOn(s[i + 1..], c)
  }

  lemma {:induction false} JoinSplit(s: string, c: char)
    ensures Join(SplitOn(s, c), [c]) == s
    decreases |s|
  {
    match IndexOf(s, c)
    case None =>
    case Some(i) =>
      JoinSplit(s[i + 1..], c);
      var rest := SplitOn(s[i + 1..], c);
      assert SplitOn(s, c) == [s[..i]] + rest;
      assert Join([s[..i]] + rest, [c]) == s[..i] + [c] + Join(rest, [c]);
      assert s == s[..i] + [c] + s[i + 1..];
  }

  lemma {:induction false} SplitJoin(xs: seq<string>, c: char)
    requires xs != []
    requires forall k :: 0 <= k < |xs| ==> c !in xs[k]
    ensures SplitOn(Join(xs, [c]), c) == xs
    decreases |xs|
  {
    if |xs| == 1 {
    } else {
      SplitJoin(xs[1..], c);
      var j := xs[0] + [c] + Join(xs[1..], [c]);
      assert IndexOf(j, c) == Some(|xs[0]|) by {
        assert j[|xs[0]|] == c;
        assert j[..|xs[0]|] == xs[0];
      }
      assert j[|xs[0]| + 1..] == Join(xs[1..], [c]);
      assert j[..|xs[0]|] == xs[0];
    }
  }

  /** JavaScript `s.split(/\r?\n/)`: split on line feeds, a carriage return
      right before a line feed belonging to the separator. */
  function SplitLines(s: string): (r: seq<string>)
    ensures |r| >= 1
  {
    var pieces := SplitOn(s, '\n');
    seq(|pieces|, k requires 0 <= k < |pieces| =>
      if k < |pieces| - 1 then DropCR(pieces[k]) else pieces[k])
  }

  function DropCR(s: string): string {
    if s != [] && s[|s| - 1] == '\r' then s[..|s| - 1] else s
  }

  // ---------------------------------------------------------------------
  // Replace and numbers

  /** Replaces every occurrence of the character `c` with `rep`
      (`s.replace(/c/g, rep)`, Python `s.replace(c, rep)`). */
  function ReplaceChar(s: string, c: char, rep: string): string {
    if s == [] then ""
    else (if s[0] == c then rep else [s[0]]) + ReplaceChar(s[1..], c, rep)
  }

  lemma ReplaceCharOne(x: char, c: char, rep: string)
    ensures ReplaceChar([x], c, rep) == if x == c then rep else [x]
  {
    assert [x][1..] == [];
  }

  /** A character that does not occur is not replaced. */
  lemma {:induction false} ReplaceCharAbsent(s: string, c: char, rep: string)
    requires c !in s
    ensures ReplaceChar(s, c, rep) == s
    decreases |s|
  {
    if s != [] {
      assert s[0] != c && c !in s[1..];
      ReplaceCharAbsent(s[1..], c, rep);
      assert s == [s[0]] + s[1..];
    }
  }

  lemma {:induction false} ReplaceCharAppend(a: string, b: string, c: char, rep: string)
    ensures ReplaceChar(a + b, c, rep) == ReplaceChar(a, c, rep) + ReplaceChar(b, c, rep)
    decreases |a|
  {
    if a == [] {
      assert a + b == b;
    } else {
      var head := if a[0] == c then rep else [a[0]];
      var x, y := ReplaceChar(a[1..], c, rep), ReplaceChar(b, c, rep);
      assert (a + b)[0] == a[0] && (a + b)[1..] == a[1..] + b;
      assert ReplaceChar(a + b, c, rep) == head + ReplaceChar(a[1..] + b, c, rep);
      ReplaceCharAppend(a[1..], b, c, rep);
      assert ReplaceChar(a, c, rep) == head + x;
      assert head + (x + y) == (head + x) + y;
    }
  }

  function DigitChar(d: nat): char
    requires d < 10
  {
    ('0' as int + d) as char
  }

  /** Decimal rendering of a natural number, as `String(n)` / `str(n)`. */
  function NatToString(n: nat): (r: string)
    ensures r != [] && forall i :: 0 <= i < |r| ==> '0' <= r[i] <= '9'
  {
    if n < 10 then [DigitChar(n)] else NatToString(n / 10) + [DigitChar(n % 10)]
  }

  function IntToString(i: int): (r: string)
    ensures r != []
  {
    if i < 0 then "-" + NatToString(-i) else NatToString(i)
  }

  /** Zero-padded decimal rendering to at least `width` digits (`%0Nd`). */
  function PadNat(n: nat, width: nat): (r: string)
    ensures |r| >= width
    ensures forall i :: 0 <= i < |r| ==> '0' <= r[i] <= '9'
  {
    var d := NatToString(n);
    if |d| >= width then d else seq(width - |d|, _ => '0') + d
  }

  function Pow10(w: nat): nat {
    if w == 0 then 1 else 10 * Pow10(w - 1)
  }

  lemma {:induction false} NatToStringLength(n: nat, w: nat)
    requires 1 <= w && n < Pow10(w)
    ensures |NatToString(n)| <= w
    decreases w
  {
    if n >= 10 {
      NatToStringLength(n / 10, w - 1);
    }
  }

  /** A zero-padded number below `10^width` has exactly `width` digits. */
  lemma PadNatLength(n: nat, width: nat)
    requires 1 <= width && n < Pow10(width)
    ensures |PadNat(n, width)| == width
  {
    NatToStringLength(n, width);
  }

  /** Python `s.replace(pat, rep)`: every non-overlapping occurrence of
      `pat`, scanning from the left, is replaced by `rep`. */
  function ReplaceAll(s: string, pat: string, rep: string): string
    requires pat != []
    decreases |s|
  {
    if |s| < |pat| then s
    else if s[..|pat|] == pat then rep + ReplaceAll(s[|pat|..], pat, rep)
    else [s[0]] + ReplaceAll(s[1..], pat, rep)
  }

  /** When the pattern's first character does not occur in `body`, the only
      occurrence in `body + pat` is the trailing one. */
  lemma {:induction false} ReplaceAllSuffix(body: string, pat: string, rep: string)
    requires pat != [] && pat[0] !in body
    ensures ReplaceAll(body + pat, pat, rep) == body + rep
    decreases |body|
  {
    var s := body + pat;
    if body == [] {
      assert s == pat && s[|pat|..] == [];
    } else {
      assert s[..|pat|][0] == body[0] != pat[0];
      assert s[1..] == body[1..] + pat;
      ReplaceAllSuffix(body[1..], pat, rep);
      assert ReplaceAll(s, pat, rep) == [body[0]] + (body[1..] + rep);
      assert [body[0]] + (body[1..] + rep) == body + rep;
    }
  }

  // ---------------------------------------------------------------------
  // Scanning, as regular expressions step through text

  /** The index after the run of characters of `cs` starting at `i`
      (`[cs]*` matched greedily). */
  function SkipIn(s: string, i: nat, cs: set<char>): (r: nat)
    requires i <= |s|
    ensures i <= r <= |s|
    ensures forall k :: i <= k < r ==> s[k] in cs
    ensures r < |s| ==> s[r] !in cs
    decreases |s| - i
  {
    if i < |s| && s[i] in cs then SkipIn(s, i + 1, cs) else i
  }

  /** The index after the run of characters outside `cs` starting at `i`
      (`[^cs]*` matched greedily). */
  function SkipOut(s: string, i: nat, cs: set<char>): (r: nat)
    requires i <= |s|
    ensures i <= r <= |s|
    ensures forall k :: i <= k < r ==> s[k] !in cs
    ensures r < |s| ==> s[r] in cs
    decreases |s| - i
  {
    if i < |s| && s[i] !in cs then SkipOut(s, i + 1, cs) else i
  }

  /** `w` occurs at `i`; with `ci`, ASCII letters of `s` match either case
      (`w` is lower case). */
  predicate WordAt(s: string, i: nat, w: string, ci: bool) {
    i + |w| <= |s| && WordAgrees(s, i, w, ci, |w|)
  }

  /** The first `n` characters of `w` match `s` from `i` on. */
  predicate WordAgrees(s: string, i: nat, w: string, ci: bool, n: nat)
    requires i + n <= |s| && n <= |w|
    decreases n
  {
    n == 0 || (Fold(s[i + n - 1], ci) == w[n - 1] && WordAgrees(s, i, w, ci, n - 1))
  }

  /** A character as a pattern compares it: lower-cased when case is
      ignored. */
  function Fold(c: char, ci: bool): char {
    if ci then LowerChar(c) else c
  }

  lemma {:induction false} WordAgreesAt(s: string, i: nat, w: string, ci: bool, n: nat, k: nat)
    requires i + n <= |s| && n <= |w| && WordAgrees(s, i, w, ci, n) && k < n
    ensures Fold(s[i + k], ci) == w[k]
    decreases n
  {
    if k < n - 1 {
      WordAgreesAt(s, i, w, ci, n - 1, k);
    }
  }

  /** A word found at `i`, in either case, avoids every character that the
      word avoids and lower-casing leaves alone. */
  lemma WordAtAvoids(s: string, i: nat, w: string, ci: bool, cs: set<char>)
    requires WordAt(s, i, w, ci)
    requires forall c :: c in cs ==> !('A' <= c <= 'Z')
    requires forall k :: 0 <= k < |w| ==> w[k] !in cs
    ensures forall k :: i <= k < i + |w| ==> s[k] !in cs
  {
    forall k | i <= k < i + |w|
      ensures s[k] !in cs
    {
      WordAgreesAt(s, i, w, ci, |w|, k - i);
    }
  }

  /** JavaScript `s.replace(pat, rep)` with a string pattern: only the
      first occurrence is replaced (an empty pattern occurs at 0). */
  function ReplaceFirst(s: string, pat: string, rep: string): string {
    ReplaceFrom(s, pat, rep, 0)
  }

  /** The replacement searching from `from` on, one position at a time
      like `FindFrom`. */
  function ReplaceFrom(s: string, pat: string, rep: string, from: nat): string
    requires from <= |s|
    decreases |s| - from
  {
    if OccursAt(s, pat, from) then s[..from] + rep + s[from + |pat|..]
    else if from == |s| then s
    else ReplaceFrom(s, pat, rep, from + 1)
  }

  /** The replacement happens at the position `FindFrom` reports, and
      nowhere when the text does not occur. */
  lemma ReplaceFirstFound(s: string, pat: string, rep: string)
    ensures FindFrom(s, pat, 0).None? ==> ReplaceFirst(s, pat, rep) == s
    ensures FindFrom(s, pat, 0).Some? ==>
      var i := FindFrom(s, pat, 0).value;
      i + |pat| <= |s| && ReplaceFirst(s, pat, rep) == s[..i] + rep + s[i + |pat|..]
  {
    ReplaceFromFound(s, pat, rep, 0);
  }

  lemma {:induction false} ReplaceFromFound(s: string, pat: string, rep: string, from: nat)
    requires from <= |s|
    ensures FindFrom(s, pat, from).None? ==> ReplaceFrom(s, pat, rep, from) == s
    ensures FindFrom(s, pat, from).Some? ==>
      var i := FindFrom(s, pat, from).value;
      i + |pat| <= |s| && ReplaceFrom(s, pat, rep, from) == s[..i] + rep + s[i + |pat|..]
    decreases |s| - from
  {
    if !OccursAt(s, pat, from) && from < |s| {
      ReplaceFromFound(s, pat, rep, from + 1);
    }
  }

  /** The trimmed text is the slice between a leading and a trailing run
      of characters of `ws`. */
  lemma TrimSlice(s: string, ws: set<char>)
    ensures |TrimStart(s, ws)| <= |s|
    ensures var a := |s| - |TrimStart(s, ws)|;
      && a + |Trim(s, ws)| <= |s|
      && Trim(s, ws) == s[a..a + |Trim(s, ws)|]
      && AllIn(s[..a], ws) && AllIn(s[a + |Trim(s, ws)|..], ws)
  {
    var t := TrimStart(s, ws);
    TrimStartFacts(s, ws);
    var a := |s| - |t|;
    var r := TrimEnd(t, ws);
    TrimEndFacts(t, ws);
    assert r == Trim(s, ws);
    assert t[|r|..] == s[a + |r|..];
  }

  // ---------------------------------------------------------------------
  // Lists

  /** `xs.map(f).filter(Boolean)` for an `f` whose failures are `None`:
      the values present, in order. */
  function MapPresent<A, B>(xs: seq<A>, f: A -> Option<B>): seq<B>
    decreases |xs|
  {
    if xs == [] then []
    else
      var last := f(xs[|xs| - 1]);
      MapPresent(xs[..|xs| - 1], f) + (if last.Some? then [last.value] else [])
  }

  /** The values kept are exactly the values `f` gives, at most one per
      element, and nothing is kept only when `f` fails everywhere. */
  lemma {:induction false} MapPresentMeaning<A, B>(xs: seq<A>, f: A -> Option<B>)
    ensures |MapPresent(xs, f)| <= |xs|
    ensures forall y :: y in MapPresent(xs, f) <==> exists i :: 0 <= i < |xs| && f(xs[i]) == Some(y)
    ensures MapPresent(xs, f) == [] <==> forall i :: 0 <= i < |xs| ==> f(xs[i]).None?
    decreases |xs|
  {
    if xs != [] {
      var n := |xs| - 1;
      var init := xs[..n];
      MapPresentMeaning(init, f);
      forall y
        ensures y in MapPresent(xs, f) <==> exists i :: 0 <= i < |xs| && f(xs[i]) == Some(y)
      {
        if exists i :: 0 <= i < |xs| && f(xs[i]) == Some(y) {
          var i :| 0 <= i < |xs| && f(xs[i]) == Some(y);
          if i < n {
            assert init[i] == xs[i];
          }
        }
        if y in MapPresent(init, f) {
          var i :| 0 <= i < |init| && f(init[i]) == Some(y);
          assert xs[i] == init[i];
        }
      }
      if MapPresent(xs, f) == [] {
        forall i | 0 <= i < |xs|
          ensures f(xs[i]).None?
        {
          if i < n {
            assert init[i] == xs[i];
          }
        }
      }
    }
  }

  /** `MapPresent` keeps order and multiplicity: it works element by
      element, a one-element list giving that element's value if any. */
  lemma {:induction false} MapPresentAppend<A, B>(a: seq<A>, b: seq<A>, f: A -> Option<B>)
    ensures MapPresent(a + b, f) == MapPresent(a, f) + MapPresent(b, f)
    ensures |b| == 1 ==> MapPresent(b, f) == (if f(b[0]).Some? then [f(b[0]).value] else [])
    decreases |b|
  {
    if b == [] {
      assert a + b == a;
    } else {
      var init := b[..|b| - 1];
      MapPresentAppend(a, init, f);
      assert (a + b)[..|a + b| - 1] == a + init;
      assert (a + b)[|a + b| - 1] == b[|b| - 1];
      if |b| == 1 {
        assert init == [];
      }
    }
  }
}
