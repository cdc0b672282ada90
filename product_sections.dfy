/** src/lib/parsers.ts, `parseProductSections`: the line-oriented parser
    that finds product sections (a title line followed by `- ` bullets with
    `link:`, `thumbnail:`/`image:` and `why it fits:` lines) in a reply,
    and the text left once those lines are blanked. */
module ProductSections {
  import opened Base

  // ---------------------------------------------------------------------
  // Reading one line

  /** A trimmed line with its leading `/^-+\s*` removed. */
  function Normalize(t: string): (r: string)
    ensures |r| <= |t| && r == t[|t| - |r|..]
    ensures t == [] || t[0] != '-' ==> r == t
  {
    if t == [] || t[0] != '-' then t
    else t[SkipIn(t, SkipIn(t, 0, {'-'}), JsWhitespace)..]
  }

  predicate IsLink(n: string) { WordAt(n, 0, "link:", true) }

  predicate IsThumb(n: string) { WordAt(n, 0, "thumbnail:", true) || WordAt(n, 0, "image:", true) }

  /** The end of a leading `/why\s+it\s+fits:/i`, if there is one. */
  function ReasonEnd(n: string): (r: Option<nat>)
    ensures r.Some? ==> 10 <= r.value <= |n|
  {
    if !WordAt(n, 0, "why", true) then None
    else
      var a := SkipIn(n, 3, JsWhitespace);
      if a == 3 || !WordAt(n, a, "it", true) then None
      else
        var b := SkipIn(n, a + 2, JsWhitespace);
        if b == a + 2 || !WordAt(n, b, "fits:", true) then None else Some(b + 5)
  }

  /** A reason prefix starts the line with `why`, in any case, and ends
      with `fits:`, in any case. */
  lemma ReasonEndMeaning(n: string)
    requires ReasonEnd(n).Some?
    ensures var e := ReasonEnd(n).value;
      && 10 <= e <= |n| && WordAt(n, 0, "why", true) && WordAt(n, e - 5, "fits:", true)
  {
    var a := SkipIn(n, 3, JsWhitespace);
    var b := SkipIn(n, a + 2, JsWhitespace);
    assert ReasonEnd(n) == Some(b + 5);
  }

  predicate IsReason(n: string) { ReasonEnd(n).Some? }

  /** The end of `https://` or `http://` at `i`. */
  function SchemeEnd(s: string, i: nat, ci: bool): (r: Option<nat>)
    ensures r.Some? ==> i + 7 <= r.value <= |s|
  {
    if WordAt(s, i, "https://", ci) then Some(i + 8)
    else if WordAt(s, i, "http://", ci) then Some(i + 7)
    else None
  }

  /** The scheme words hold no white space, and lower-casing leaves white
      space alone. */
  lemma SchemeWordsPlain()
    ensures forall c :: c in JsWhitespace ==> !('A' <= c <= 'Z')
    ensures forall k :: 0 <= k < |"https://"| ==> "https://"[k] !in JsWhitespace
    ensures forall k :: 0 <= k < |"http://"| ==> "http://"[k] !in JsWhitespace
  {
  }

  /** No character of a URL scheme is white space, in either case. */
  lemma SchemeAvoidsSpace(s: string, j: nat)
    requires SchemeEnd(s, j, true).Some?
    ensures forall x :: j <= x < SchemeEnd(s, j, true).value ==> s[x] !in JsWhitespace
  {
    SchemeWordsPlain();
    if WordAt(s, j, "https://", true) {
      WordAtAvoids(s, j, "https://", true, JsWhitespace);
    } else {
      WordAtAvoids(s, j, "http://", true, JsWhitespace);
    }
  }

  /** `/^link:\s*(https?:\/\/\S+)/i`: the URL of a link line. */
  function LinkUrl(n: string): (r: Option<string>)
    ensures r.Some? ==> IsLink(n) && |r.value| > 7
    ensures r.Some? ==> forall k :: 0 <= k < |r.value| ==> r.value[k] !in JsWhitespace
  {
    if !IsLink(n) then None
    else
      var j := SkipIn(n, 5, JsWhitespace);
      match SchemeEnd(n, j, true)
      case None => None
      case Some(k) =>
        var e := SkipOut(n, k, JsWhitespace);
        if e == k then None
        else
          SchemeAvoidsSpace(n, j);
          Some(n[j..e])
  }

  /** The text after `/^(thumbnail|image):\s*` /i. */
  function ThumbRest(n: string): (r: string)
    ensures |r| <= |n|
  {
    if WordAt(n, 0, "thumbnail:", true) then n[SkipIn(n, 10, JsWhitespace)..]
    else if WordAt(n, 0, "image:", true) then n[SkipIn(n, 6, JsWhitespace)..]
    else n
  }

  /** `/\((https?:\/\/[^)]+)\)/`, leftmost match from `p`: the URL inside
      parentheses. */
  function ExplicitUrl(s: string, p: nat): (r: Option<string>)
    ensures r.Some? ==> ')' !in r.value && |r.value| > 7
    decreases |s| - p
  {
    if p >= |s| then None
    else if s[p] == '(' && SchemeEnd(s, p + 1, false).Some? then
      var b := SchemeEnd(s, p + 1, false).value;
      var q := SkipOut(s, b, {')'});
      if b < q < |s| then
        WordAtAvoids(s, p + 1, if b == p + 9 then "https://" else "http://", false, {')'});
        Some(s[p + 1..q])
      else ExplicitUrl(s, p + 1)
    else ExplicitUrl(s, p + 1)
  }

  /** `/https?:\/\/\S+/`, leftmost match from `p`. */
  function BareUrl(s: string, p: nat): (r: Option<string>)
    ensures r.Some? ==> |r.value| > 7
    decreases |s| - p
  {
    if p >= |s| then None
    else match SchemeEnd(s, p, false)
      case Some(k) =>
        var e := SkipOut(s, k, JsWhitespace);
        if e > k then Some(s[p..e]) else BareUrl(s, p + 1)
      case None => BareUrl(s, p + 1)
  }

  /** `/!\[([^\]]+)\]/`, leftmost match from `p`: the image's alt text. */
  function AltText(s: string, p: nat): (r: Option<string>)
    ensures r.Some? ==> r.value != [] && ']' !in r.value
    decreases |s| - p
  {
    if p + 2 > |s| then None
    else if s[p..p + 2] == "![" then
      var q := SkipOut(s, p + 2, {']'});
      if p + 2 < q < |s| then Some(s[p + 2..q]) else AltText(s, p + 1)
    else AltText(s, p + 1)
  }

  /** The role a line plays, in the order the forEach body tests them. */
  datatype LineKind = Blank | Header | Bullet | LinkLine | ThumbLine | ReasonLine | Other

  /** `hasUpcomingBullet(start)`: one of the six lines from `start` starts
      with `- ` once trimmed. */
  predicate UpcomingBullet(lines: seq<string>, start: nat) {
    exists k: nat | start <= k < start + 6 && k < |lines| :: StartsWith(JsTrim(lines[k]), "- ")
  }

  /** The kind of a line, from its trimmed text and whether a bullet
      follows within six lines. */
  function KindOf(t: string, upcoming: bool): LineKind {
    var n := Normalize(t);
    if t == "" then Blank
    else if !StartsWith(t, "-") && !IsLink(n) && !IsThumb(n) && !IsReason(n) && upcoming then Header
    else if StartsWith(t, "- ") && !IsLink(n) && !IsThumb(n) && !IsReason(n) then Bullet
    else if IsLink(n) then LinkLine
    else if IsThumb(n) then ThumbLine
    else if IsReason(n) then ReasonLine
    else Other
  }

  predicate IsAttachment(k: LineKind) { k == LinkLine || k == ThumbLine || k == ReasonLine }

  /** What a line would contribute as an attachment: the URL of a link
      line, the thumbnail URL and alt text of a thumbnail line, and the text
      of a reason line. */
  datatype Info = Info(link: Option<string>, thumbnail: Option<string>, alt: Option<string>,
                       reason: string)

  function InfoOf(n: string): Info {
    var rest := ThumbRest(n);
    Info(LinkUrl(n),
         if ExplicitUrl(rest, 0).Some? then ExplicitUrl(rest, 0) else BareUrl(rest, 0),
         AltText(rest, 0),
         match ReasonEnd(n) case Some(e) => n[SkipIn(n, e, JsWhitespace)..] case None => n)
  }

  /** A line as the scan sees it: its kind, its trimmed and normalised
      text, and what it would contribute as an attachment. */
  datatype Line = Line(kind: LineKind, trimmed: string, normalized: string, info: Info)

  /** The kind of line `k` of the content. */
  function KindAt(lines: seq<string>, k: nat): LineKind
    requires k < |lines|
  {
    KindOf(JsTrim(lines[k]), UpcomingBullet(lines, k + 1))
  }

  function Classified(lines: seq<string>): (r: seq<Line>)
    ensures |r| == |lines|
  {
    seq(|lines|, k requires 0 <= k < |lines| =>
      Line(KindAt(lines, k), JsTrim(lines[k]), Normalize(JsTrim(lines[k])), InfoOf(Normalize(JsTrim(lines[k])))))
  }

  lemma ClassifiedLine(lines: seq<string>, k: nat)
    requires k < |lines|
    ensures Classified(lines)[k].trimmed == JsTrim(lines[k])
    ensures Classified(lines)[k].kind == KindAt(lines, k)
    ensures Classified(lines)[k].normalized == Normalize(JsTrim(lines[k]))
  {
  }

  // ---------------------------------------------------------------------
  // The scan

  datatype Entry = Entry(retailer: string, link: Option<string>, thumbnail: Option<string>,
                         alt: Option<string>, reason: Option<string>, lineIndexes: seq<nat>)

  datatype Section = Section(startIndex: nat, title: string, entries: seq<Entry>)

  /** Where `currentEntry` lives: nowhere, as the last entry of the last
      section, or outside every section (a bullet before any title). */
  datatype Current = NoEntry | Last | Orphan(entry: Entry)

  datatype Scan = Scan(sections: seq<Section>, current: Current)

  predicate Coherent(st: Scan) {
    st.current.Last? ==> st.sections != [] && st.sections[|st.sections| - 1].entries != []
  }

  function CurrentEntry(st: Scan): Entry
    requires Coherent(st) && !st.current.NoEntry?
  {
    if st.current.Orphan? then st.current.entry
    else
      var last := st.sections[|st.sections| - 1];
      last.entries[|last.entries| - 1]
  }

  /** Replaces the current entry, wherever it lives. */
  function SetCurrent(st: Scan, e: Entry): (r: Scan)
    requires Coherent(st) && !st.current.NoEntry?
    ensures Coherent(r) && !r.current.NoEntry? && r.current.Last? == st.current.Last?
    ensures CurrentEntry(r) == e
    ensures st.current.Orphan? ==> r.sections == st.sections
    ensures st.current.Last? ==>
      var i := |st.sections| - 1;
      var last := st.sections[i];
      r.sections == st.sections[i := last.(entries := last.entries[|last.entries| - 1 := e])]
  {
    if st.current.Orphan? then Scan(st.sections, Orphan(e))
    else
      var i := |st.sections| - 1;
      var last := st.sections[i];
      Scan(st.sections[i := last.(entries := last.entries[|last.entries| - 1 := e])], Last)
  }

  /** A bullet line's entry becomes the current one, added to the last
      section when there is one. */
  function AddBullet(st: Scan, e: Entry): (r: Scan)
    ensures Coherent(r) && !r.current.NoEntry? && CurrentEntry(r) == e
    ensures st.sections == [] ==> r.sections == []
    ensures st.sections != [] ==>
      var i := |st.sections| - 1;
      r.sections == st.sections[i := st.sections[i].(entries := st.sections[i].entries + [e])]
  {
    if st.sections == [] then Scan([], Orphan(e))
    else
      var i := |st.sections| - 1;
      Scan(st.sections[i := st.sections[i].(entries := st.sections[i].entries + [e])], Last)
  }

  /** The current entry after attachment line `l` (line `index`), or
      `None` when a link line holds no URL and nothing changes. */
  function Attached(cur: Entry, l: Line, index: nat): (r: Option<Entry>)
    requires IsAttachment(l.kind)
    ensures r.Some? ==> r.value.retailer == cur.retailer && r.value.lineIndexes == cur.lineIndexes + [index]
    ensures l.kind != LinkLine ==> r.Some?
  {
    if l.kind == LinkLine then
      if l.info.link.None? then None
      else Some(cur.(link := l.info.link, lineIndexes := cur.lineIndexes + [index]))
    else if l.kind == ThumbLine then
      Some(cur.(thumbnail := l.info.thumbnail, alt := if l.info.alt.Some? then l.info.alt else cur.alt,
                lineIndexes := cur.lineIndexes + [index]))
    else
      Some(cur.(reason := Some(l.info.reason), lineIndexes := cur.lineIndexes + [index]))
  }

  /** The body of the forEach for line `index`. */
  function Step(st: Scan, ls: seq<Line>, index: nat): (r: Scan)
    requires Coherent(st) && index < |ls|
    ensures Coherent(r)
  {
    var l := ls[index];
    if l.kind == Header then Scan(st.sections + [Section(index, l.trimmed, [])], NoEntry)
    else if l.kind == Bullet then AddBullet(st, Entry(l.normalized, None, None, None, None, [index]))
    else if IsAttachment(l.kind) && !st.current.NoEntry? then
      match Attached(CurrentEntry(st), l, index)
      case Some(e) => SetCurrent(st, e)
      case None => st
    else st
  }

  /** The state after the first `n` lines. */
  function ScanUpTo(ls: seq<Line>, n: nat): (r: Scan)
    requires n <= |ls|
    ensures Coherent(r)
  {
    if n == 0 then Scan([], NoEntry) else Step(ScanUpTo(ls, n - 1), ls, n - 1)
  }

  // ---------------------------------------------------------------------
  // What the scan records

  /** An entry starts at a bullet line after its section's title, its
      retailer is that line without the leading dashes, and every later
      line it records is a link, thumbnail or reason line seen since. */
  predicate EntryOk(e: Entry, ls: seq<Line>, start: nat, n: nat) {
    && n <= |ls|
    && |e.lineIndexes| >= 1
    && start < e.lineIndexes[0] < n
    && ls[e.lineIndexes[0]].kind == Bullet
    && e.retailer == ls[e.lineIndexes[0]].normalized
    && (forall k :: 1 <= k < |e.lineIndexes| ==>
          e.lineIndexes[0] < e.lineIndexes[k] < n && IsAttachment(ls[e.lineIndexes[k]].kind))
  }

  /** A section starts at a title line and its title is that line trimmed. */
  predicate SectionOk(s: Section, ls: seq<Line>, n: nat) {
    && n <= |ls|
    && s.startIndex < n
    && ls[s.startIndex].kind == Header
    && s.title == ls[s.startIndex].trimmed
    && forall e :: e in s.entries ==> EntryOk(e, ls, s.startIndex, n)
  }

  /** Every recorded section is well formed. */
  predicate WellFormed(st: Scan, ls: seq<Line>, n: nat) {
    forall s :: s in st.sections ==> SectionOk(s, ls, n)
  }

  lemma SectionOkGrows(s: Section, ls: seq<Line>, n: nat)
    requires SectionOk(s, ls, n) && n < |ls|
    ensures SectionOk(s, ls, n + 1)
  {
  }

  lemma WellFormedGrows(st: Scan, ls: seq<Line>, n: nat)
    requires WellFormed(st, ls, n) && n < |ls|
    ensures WellFormed(st, ls, n + 1)
  {
    forall s | s in st.sections
      ensures SectionOk(s, ls, n + 1)
    {
      SectionOkGrows(s, ls, n);
    }
  }

  /** Replacing a section's last entry by a well-formed one keeps the
      section well formed. */
  lemma ReplaceLastOk(s: Section, e: Entry, ls: seq<Line>, n: nat)
    requires SectionOk(s, ls, n) && s.entries != [] && EntryOk(e, ls, s.startIndex, n)
    ensures SectionOk(s.(entries := s.entries[|s.entries| - 1 := e]), ls, n)
  {
    var s' := s.(entries := s.entries[|s.entries| - 1 := e]);
    forall x | x in s'.entries
      ensures EntryOk(x, ls, s.startIndex, n)
    {
      var j :| 0 <= j < |s'.entries| && s'.entries[j] == x;
      if j < |s.entries| - 1 {
        assert x == s.entries[j] && s.entries[j] in s.entries;
      }
    }
  }

  lemma BulletStepOk(st: Scan, ls: seq<Line>, n: nat)
    requires n < |ls| && Coherent(st) && WellFormed(st, ls, n + 1) && ls[n].kind == Bullet
    ensures WellFormed(Step(st, ls, n), ls, n + 1)
  {
    if st.sections != [] {
      var i := |st.sections| - 1;
      var e := Entry(ls[n].normalized, None, None, None, None, [n]);
      assert st.sections[i] in st.sections;
      assert SectionOk(st.sections[i].(entries := st.sections[i].entries + [e]), ls, n + 1);
    }
  }

  lemma AttachStepOk(st: Scan, ls: seq<Line>, n: nat)
    requires n < |ls| && Coherent(st) && WellFormed(st, ls, n + 1) && IsAttachment(ls[n].kind)
    ensures WellFormed(Step(st, ls, n), ls, n + 1)
  {
    if st.current.Last? {
      var last := st.sections[|st.sections| - 1];
      var cur := CurrentEntry(st);
      assert last in st.sections;
      assert cur in last.entries;
      var a := Attached(cur, ls[n], n);
      if a.Some? {
        assert EntryOk(a.value, ls, last.startIndex, n + 1);
        ReplaceLastOk(last, a.value, ls, n + 1);
      }
    }
  }

  /** One step keeps every recorded section and entry well formed. */
  lemma StepWellFormed(st: Scan, ls: seq<Line>, n: nat)
    requires n < |ls| && Coherent(st) && WellFormed(st, ls, n)
    ensures WellFormed(Step(st, ls, n), ls, n + 1)
  {
    WellFormedGrows(st, ls, n);
    if ls[n].kind == Header {
      assert Step(st, ls, n).sections == st.sections + [Section(n, ls[n].trimmed, [])];
    } else if ls[n].kind == Bullet {
      BulletStepOk(st, ls, n);
    } else if IsAttachment(ls[n].kind) {
      AttachStepOk(st, ls, n);
    }
  }

  lemma {:induction false} ScanWellFormed(ls: seq<Line>, n: nat)
    requires n <= |ls|
    ensures WellFormed(ScanUpTo(ls, n), ls, n)
  {
    if n > 0 {
      ScanWellFormed(ls, n - 1);
      StepWellFormed(ScanUpTo(ls, n - 1), ls, n - 1);
    }
  }

  // ---------------------------------------------------------------------
  // The result

  /** An entry survives with a retailer and a link or a thumbnail. */
  predicate Keep(e: Entry) {
    e.retailer != "" && ((e.link.Some? && e.link.value != "") || (e.thumbnail.Some? && e.thumbnail.value != ""))
  }

  function KeptEntries(es: seq<Entry>): (r: seq<Entry>)
    ensures forall e :: e in r <==> e in es && Keep(e)
  {
    if es == [] then []
    else (if Keep(es[0]) then [es[0]] else []) + KeptEntries(es[1..])
  }

  /** Entries filtered, then sections left empty removed. */
  function KeptSections(ss: seq<Section>): (r: seq<Section>)
    ensures forall s :: s in r ==> s.entries != [] && forall e :: e in s.entries ==> Keep(e)
    ensures forall s :: s in r ==> exists t :: t in ss && s == t.(entries := KeptEntries(t.entries))
    ensures forall t :: t in ss && KeptEntries(t.entries) != [] ==> t.(entries := KeptEntries(t.entries)) in r
  {
    if ss == [] then []
    else
      var s := ss[0].(entries := KeptEntries(ss[0].entries));
      (if s.entries != [] then [s] else []) + KeptSections(ss[1..])
  }

  /** The entry filter works piece by piece: two runs of entries give the
      kept entries of the first followed by those of the second, and one
      entry is kept exactly when `Keep` holds; so order and repeats are
      kept. */
  lemma {:induction false} KeptEntriesAppend(a: seq<Entry>, b: seq<Entry>)
    ensures KeptEntries(a + b) == KeptEntries(a) + KeptEntries(b)
    ensures |a| == 1 ==> KeptEntries(a) == (if Keep(a[0]) then a else [])
    decreases |a|
  {
    if a == [] {
      assert a + b == b;
    } else {
      var head := if Keep(a[0]) then [a[0]] else [];
      var ab := a + b;
      assert ab[0] == a[0] && ab[1..] == a[1..] + b;
      assert KeptEntries(ab) == head + KeptEntries(a[1..] + b);
      KeptEntriesAppend(a[1..], b);
      assert KeptEntries(a) == head + KeptEntries(a[1..]);
      AppendAssoc(head, KeptEntries(a[1..]), KeptEntries(b));
      if |a| == 1 {
        assert a[1..] == [];
        assert a == [a[0]];
      }
    }
  }

  /** The section filter works piece by piece in the same way: one section
      survives, with its entries filtered, exactly when a filtered entry is
      left; so the surviving sections keep their order. */
  lemma {:induction false} KeptSectionsAppend(a: seq<Section>, b: seq<Section>)
    ensures KeptSections(a + b) == KeptSections(a) + KeptSections(b)
    ensures |a| == 1 ==>
      (KeptSections(a) ==
         if KeptEntries(a[0].entries) != [] then [a[0].(entries := KeptEntries(a[0].entries))] else [])
    decreases |a|
  {
    if a == [] {
      assert a + b == b;
    } else {
      var t := a[0].(entries := KeptEntries(a[0].entries));
      var head := if t.entries != [] then [t] else [];
      var ab := a + b;
      assert ab[0] == a[0] && ab[1..] == a[1..] + b;
      assert KeptSections(ab) == head + KeptSections(a[1..] + b);
      KeptSectionsAppend(a[1..], b);
      assert KeptSections(a) == head + KeptSections(a[1..]);
      AppendAssoc(head, KeptSections(a[1..]), KeptSections(b));
      if |a| == 1 {
        assert a[1..] == [];
      }
    }
  }

  function EntryIndexes(es: seq<Entry>): (r: set<nat>)
    ensures forall k :: k in r <==> exists e :: e in es && k in e.lineIndexes
  {
    if es == [] then {} else (set k | k in es[0].lineIndexes) + EntryIndexes(es[1..])
  }

  /** `usedIndexes`: each surviving title line and every line its surviving
      entries recorded. */
  function UsedIndexes(ss: seq<Section>): (r: set<nat>)
    ensures forall k :: k in r <==> exists s :: s in ss && (k == s.startIndex || k in EntryIndexes(s.entries))
  {
    if ss == [] then {} else {ss[0].startIndex} + EntryIndexes(ss[0].entries) + UsedIndexes(ss[1..])
  }

  function Blanked(lines: seq<string>, used: set<nat>): (r: seq<string>)
    ensures |r| == |lines|
    ensures forall k :: 0 <= k < |lines| ==> r[k] == if k in used then "" else lines[k]
  {
    seq(|lines|, k requires 0 <= k < |lines| => if k in used then "" else lines[k])
  }

  datatype ProductEntry = ProductEntry(retailer: string, link: Option<string>, thumbnail: Option<string>,
                                       alt: Option<string>, reason: Option<string>)

  datatype ProductSection = ProductSection(title: string, entries: seq<ProductEntry>)

  function Public(s: Section): (r: ProductSection)
    ensures r.title == s.title && |r.entries| == |s.entries|
  {
    ProductSection(s.title, seq(|s.entries|, i requires 0 <= i < |s.entries| =>
      var e := s.entries[i]; ProductEntry(e.retailer, e.link, e.thumbnail, e.alt, e.reason)))
  }

  /** The result once every line is scanned: `null` when no section
      survives, else the sections and the remainder. */
  function Finish(lines: seq<string>, st: Scan): Option<(seq<ProductSection>, string)> {
    var kept := KeptSections(st.sections);
    if kept == [] then None
    else
      Some((seq(|kept|, i requires 0 <= i < |kept| => Public(kept[i])),
            JsTrim(Join(Blanked(lines, UsedIndexes(kept)), "\n"))))
  }

  /** `parseProductSections`, as a function of the content. */
  function ProductSectionsOf(content: string): Option<(seq<ProductSection>, string)> {
    var lines := SplitLines(content);
    var ls := Classified(lines);
    Finish(lines, ScanUpTo(ls, |ls|))
  }

  /** `parseProductSections`: one pass of the forEach over the lines. */
  method ParseProductSections(content: string) returns (r: Option<(seq<ProductSection>, string)>)
    ensures r == ProductSectionsOf(content)
  {
    var lines := SplitLines(content);
    var ls := Classified(lines);
    var st := Scan([], NoEntry);
    for index := 0 to |ls|
      invariant st == ScanUpTo(ls, index)
    {
      st := Step(st, ls, index);
    }
    r := Finish(lines, st);
  }

  /** What the kinds mean: a title line is non-blank, does not start with a
      dash and has a bullet within the next six lines; a bullet line starts
      with `- `; neither is a link, thumbnail or reason line. */
  lemma KindMeaning(t: string, upcoming: bool)
    ensures KindOf(t, upcoming) == Header ==> t != "" && !StartsWith(t, "-") && upcoming
    ensures KindOf(t, upcoming) == Bullet ==> StartsWith(t, "- ") && !IsLink(Normalize(t))
    ensures KindOf(t, upcoming) == Blank <==> t == ""
    ensures KindOf(t, upcoming) == LinkLine ==> IsLink(Normalize(t))
  {
    HeaderKind(t, upcoming);
    BulletKind(t, upcoming);
    BlankKind(t, upcoming);
    LinkKind(t, upcoming);
  }

  lemma HeaderKind(t: string, upcoming: bool)
    ensures KindOf(t, upcoming) == Header ==> t != "" && !StartsWith(t, "-") && upcoming
  {
  }

  lemma BulletKind(t: string, upcoming: bool)
    ensures KindOf(t, upcoming) == Bullet ==> StartsWith(t, "- ") && !IsLink(Normalize(t))
  {
  }

  lemma BlankKind(t: string, upcoming: bool)
    ensures KindOf(t, upcoming) == Blank <==> t == ""
  {
  }

  lemma LinkKind(t: string, upcoming: bool)
    ensures KindOf(t, upcoming) == LinkLine ==> IsLink(Normalize(t))
  {
  }

  /** Filtering keeps sections well formed. */
  lemma KeptSectionsOk(ss: seq<Section>, ls: seq<Line>)
    requires forall s :: s in ss ==> SectionOk(s, ls, |ls|)
    ensures forall s :: s in KeptSections(ss) ==> SectionOk(s, ls, |ls|)
  {
    forall s | s in KeptSections(ss)
      ensures SectionOk(s, ls, |ls|)
    {
      var t :| t in ss && s == t.(entries := KeptEntries(t.entries));
      assert SectionOk(t, ls, |ls|);
    }
  }

  /** Line `k` holds a title, a bullet or an attachment. */
  predicate Marked(ls: seq<Line>, k: nat) {
    k < |ls| && ls[k].kind != Blank && ls[k].kind != Other
  }

  lemma EntryLinesMarked(e: Entry, ls: seq<Line>, start: nat)
    requires EntryOk(e, ls, start, |ls|)
    ensures forall k :: k in e.lineIndexes ==> Marked(ls, k)
  {
    forall k | k in e.lineIndexes
      ensures Marked(ls, k)
    {
      var j :| 0 <= j < |e.lineIndexes| && e.lineIndexes[j] == k;
      if j > 0 {
        assert IsAttachment(ls[e.lineIndexes[j]].kind);
      }
    }
  }

  /** The lines of well-formed sections are title, bullet and attachment
      lines. */
  lemma UsedIndexesOk(ss: seq<Section>, ls: seq<Line>)
    requires forall s :: s in ss ==> SectionOk(s, ls, |ls|)
    ensures forall k :: k in UsedIndexes(ss) ==> Marked(ls, k)
  {
    forall k | k in UsedIndexes(ss)
      ensures Marked(ls, k)
    {
      var s :| s in ss && (k == s.startIndex || k in EntryIndexes(s.entries));
      assert SectionOk(s, ls, |ls|);
      if k != s.startIndex {
        var e :| e in s.entries && k in e.lineIndexes;
        EntryLinesMarked(e, ls, s.startIndex);
      }
    }
  }

  /** Every surviving section starts at a title line and keeps only
      entries with a retailer and a link or thumbnail, each well formed;
      the lines blanked are title, bullet and attachment lines. */
  lemma KeptMeaning(ls: seq<Line>)
    ensures var kept := KeptSections(ScanUpTo(ls, |ls|).sections);
      && (forall s :: s in kept ==>
            && s.entries != []
            && SectionOk(s, ls, |ls|)
            && forall e :: e in s.entries ==> Keep(e))
      && (forall k :: k in UsedIndexes(kept) ==> Marked(ls, k))
  {
    var ss := ScanUpTo(ls, |ls|).sections;
    ScanWellFormed(ls, |ls|);
    KeptSectionsOk(ss, ls);
    UsedIndexesOk(KeptSections(ss), ls);
  }

  /** The sections that survive filtering, for a reply's lines. */
  function KeptOf(lines: seq<string>): seq<Section> {
    KeptSections(ScanUpTo(Classified(lines), |lines|).sections)
  }

  /** Each surviving section comes from a title line: a non-blank line, not
      starting with a dash, with a bullet among the next six lines, trimmed
      into the title. */
  lemma SectionsFromTitles(lines: seq<string>)
    ensures forall s :: s in KeptOf(lines) ==>
      && s.startIndex < |lines|
      && s.title == JsTrim(lines[s.startIndex])
      && s.title != "" && !StartsWith(s.title, "-")
      && UpcomingBullet(lines, s.startIndex + 1)
      && s.entries != []
  {
    var ls := Classified(lines);
    KeptMeaning(ls);
    forall s | s in KeptOf(lines)
      ensures s.startIndex < |lines| && s.title == JsTrim(lines[s.startIndex])
      ensures s.title != "" && !StartsWith(s.title, "-") && UpcomingBullet(lines, s.startIndex + 1)
    {
      assert SectionOk(s, ls, |ls|);
      ClassifiedLine(lines, s.startIndex);
      KindMeaning(JsTrim(lines[s.startIndex]), UpcomingBullet(lines, s.startIndex + 1));
    }
  }

  /** Each surviving entry comes from a later line starting with `- `,
      whose text after the dashes is the retailer, and has a retailer and a
      link or a thumbnail. */
  lemma EntriesFromBullets(lines: seq<string>)
    ensures forall s, e :: s in KeptOf(lines) && e in s.entries ==> EntryFrom(e, lines, s.startIndex)
  {
    var ls := Classified(lines);
    KeptMeaning(ls);
    forall s, e | s in KeptOf(lines) && e in s.entries
      ensures EntryFrom(e, lines, s.startIndex)
    {
      assert SectionOk(s, ls, |ls|);
      assert EntryOk(e, ls, s.startIndex, |ls|);
      var b := e.lineIndexes[0];
      ClassifiedLine(lines, b);
      KindMeaning(JsTrim(lines[b]), UpcomingBullet(lines, b + 1));
    }
  }

  /** `parseProductSections` answers `null` exactly when no section keeps
      an entry, and otherwise returns the surviving sections in order, as
      `SectionsFromTitles` and `EntriesFromBullets` describe them. */
  lemma ProductSectionsMeaning(content: string)
    ensures var kept := KeptOf(SplitLines(content));
      && (ProductSectionsOf(content).None? <==> kept == [])
      && (ProductSectionsOf(content).Some? ==>
            && |ProductSectionsOf(content).value.0| == |kept|
            && forall i :: 0 <= i < |kept| ==> ProductSectionsOf(content).value.0[i] == Public(kept[i]))
  {
  }

  /** An entry kept from a section whose title is line `start`: it begins at
      a later line starting with `- `, names that line's text after the
      dashes as retailer, and has a retailer and a link or a thumbnail. */
  predicate EntryFrom(e: Entry, lines: seq<string>, start: nat) {
    && e.lineIndexes != []
    && start < e.lineIndexes[0] < |lines|
    && StartsWith(JsTrim(lines[e.lineIndexes[0]]), "- ")
    && e.retailer == Normalize(JsTrim(lines[e.lineIndexes[0]]))
    && Keep(e)
  }
}
