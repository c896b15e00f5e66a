/** The RSS 2.0 feed builder (`feeds_site_builder.py`): the date window, text escaping,
    item identity and publication date, the newest-first ordering, and the rendering of
    the channel and its items as lines joined by newlines.

    Date parsing, time zones, RFC 822 date formatting and SHA-1 are supplied from outside
    through `Env`; instants are integers counting microseconds since the epoch, and `now`
    is a parameter. */
module Feed {
  import opened Wrappers
  import opened Strings
  import opened Sequences

  /** One row of the scrape history. A field is None when the key is missing or null. */
  datatype FeedRecord = FeedRecord(
    postedDate: Option<string>,
    scrapeDate: Option<string>,
    council: Option<string>,
    title: Option<string>,
    link: Option<string>,
    band: Option<string>,
    salary: Option<string>,
    closingDate: Option<string>,
    descriptionHtml: Option<string>)

  /** The library calls the builder makes:
      `postedInstant(pd)` is `fromisoformat(pd + "T00:00:00+11:00")` as an instant, None
      when it raises; `scrapeInstant(sd)` is `fromisoformat(sd)` read in UTC+11 when it has
      no zone, None when it raises; `rfc2822(t)` is `formatdate(t, usegmt=True)`;
      `sha1Hex(s)` is the hex SHA-1 digest of the UTF-8 bytes of `s`. */
  datatype Env = Env(
    postedInstant: string -> Option<int>,
    scrapeInstant: string -> Option<int>,
    rfc2822: int -> string,
    sha1Hex: string -> string)

  /** A field is truthy: present and non-empty. */
  predicate Truthy(x: Option<string>) {
    x.Some? && x.value != ""
  }

  /** `rec.get(key) or dflt`. */
  function Or(x: Option<string>, dflt: string): string {
    if Truthy(x) then x.value else dflt
  }

  // ---------------------------------------------------------------------------------------
  // The date window.

  const DAY_MICROS: int := 86_400_000_000

  /** `now - timedelta(days=days)`. */
  function Cutoff(now: int, days: int): int {
    now - days * DAY_MICROS
  }

  /** `within_window(rec, days)`: always true for a non-positive window; otherwise the
      posted date decides when it parses, else the scrape date when it parses, else the
      record is kept. */
  predicate WithinWindow(rec: FeedRecord, days: int, now: int, env: Env) {
    if days <= 0 then true
    else if Truthy(rec.postedDate) && env.postedInstant(rec.postedDate.value).Some? then
      env.postedInstant(rec.postedDate.value).value >= Cutoff(now, days)
    else if Truthy(rec.scrapeDate) && env.scrapeInstant(rec.scrapeDate.value).Some? then
      env.scrapeInstant(rec.scrapeDate.value).value >= Cutoff(now, days)
    else true
  }

  /** The instant a record is dated by: its posted date if that parses, else its scrape
      date if that parses. */
  function RecordInstant(rec: FeedRecord, env: Env): Option<int> {
    if Truthy(rec.postedDate) && env.postedInstant(rec.postedDate.value).Some? then
      env.postedInstant(rec.postedDate.value)
    else if Truthy(rec.scrapeDate) then env.scrapeInstant(rec.scrapeDate.value)
    else None
  }

  /** The window keeps a record exactly when the window is non-positive, the record has no
      usable date, or its date is at or after the cutoff. */
  lemma WithinWindowByInstant(rec: FeedRecord, days: int, now: int, env: Env)
    ensures WithinWindow(rec, days, now, env) <==>
      days <= 0 || RecordInstant(rec, env).None? || RecordInstant(rec, env).value >= Cutoff(now, days)
  {
  }

  /** A usable posted date decides alone: the scrape date is ignored. */
  lemma WithinWindowPosted(rec: FeedRecord, days: int, now: int, env: Env, scrape: Option<string>)
    requires days > 0 && Truthy(rec.postedDate) && env.postedInstant(rec.postedDate.value).Some?
    ensures WithinWindow(rec, days, now, env) <==> env.postedInstant(rec.postedDate.value).value >= Cutoff(now, days)
    ensures WithinWindow(rec.(scrapeDate := scrape), days, now, env) == WithinWindow(rec, days, now, env)
  {
  }

  /** A wider window keeps every record a narrower one keeps. */
  lemma WithinWindowWidens(rec: FeedRecord, days1: int, days2: int, now: int, env: Env)
    requires 0 < days1 <= days2 && WithinWindow(rec, days1, now, env)
    ensures WithinWindow(rec, days2, now, env)
  {
    WithinWindowByInstant(rec, days1, now, env);
    WithinWindowByInstant(rec, days2, now, env);
    assert days1 * DAY_MICROS <= days2 * DAY_MICROS;
  }

  /** The test `main` filters the history with. */
  function InWindow(days: int, now: int, env: Env): FeedRecord -> bool {
    rec => WithinWindow(rec, days, now, env)
  }

  /** The rows `main` keeps: with a fixed `now`, filtering again keeps them all, and a kept
      row is one of the input rows inside the window. */
  lemma WindowFilterIdempotent(rows: seq<FeedRecord>, days: int, now: int, env: Env)
    ensures Filter(InWindow(days, now, env), Filter(InWindow(days, now, env), rows)) == Filter(InWindow(days, now, env), rows)
    ensures forall r :: r in Filter(InWindow(days, now, env), rows) <==> r in rows && WithinWindow(r, days, now, env)
  {
    FilterIdempotent(InWindow(days, now, env), rows);
    FilterMembers(InWindow(days, now, env), rows);
  }

  // ---------------------------------------------------------------------------------------
  // Escaping.

  /** `html.escape(c, quote=False)` for one character. */
  function EscapeChar(c: char): string {
    if c == '&' then "&amp;" else if c == '<' then "&lt;" else if c == '>' then "&gt;" else [c]
  }

  function Escape(s: string): string {
    if s == [] then [] else EscapeChar(s[0]) + Escape(s[1..])
  }

  /** `sanitize_text(x)`: "" for a missing or empty value, otherwise `&`, `<` and `>`
      replaced by their entities; quotes are kept. */
  function Sanitize(x: Option<string>): string {
    if !Truthy(x) then "" else Escape(x.value)
  }

  /** Decoding of the three entities `Escape` writes. */
  function Unescape(s: string): string {
    if s == [] then []
    else if |s| >= 5 && s[..5] == "&amp;" then "&" + Unescape(s[5..])
    else if |s| >= 4 && s[..4] == "&lt;" then "<" + Unescape(s[4..])
    else if |s| >= 4 && s[..4] == "&gt;" then ">" + Unescape(s[4..])
    else [s[0]] + Unescape(s[1..])
  }

  lemma UnescapeStep(c: char, rest: string)
    ensures Unescape(EscapeChar(c) + rest) == [c] + Unescape(rest)
  {
    var e := EscapeChar(c) + rest;
    if c == '&' {
      assert e[..5] == "&amp;" && e[5..] == rest;
    } else if c == '<' {
      assert e[..4] == "&lt;" && e[4..] == rest;
      assert |e| >= 5 ==> e[..5][1] == 'l' && "&amp;"[1] == 'a';
    } else if c == '>' {
      assert e[..4] == "&gt;" && e[4..] == rest;
      assert |e| >= 5 ==> e[..5][1] == 'g' && "&amp;"[1] == 'a';
      assert e[..4][1] == 'g' && "&lt;"[1] == 'l';
    } else {
      assert e[0] == c && e[1..] == rest;
      assert |e| >= 5 ==> e[..5][0] == c;
      assert |e| >= 4 ==> e[..4][0] == c;
    }
  }

  /** Unescaping recovers the text. */
  lemma {:induction false} EscapeRoundTrip(s: string)
    ensures Unescape(Escape(s)) == s
  {
    if s != [] {
      EscapeRoundTrip(s[1..]);
      UnescapeStep(s[0], Escape(s[1..]));
    }
  }

  /** Escaped text holds no angle bracket, and text without `&`, `<` and `>` is kept as it
      is. */
  lemma {:induction false} EscapeShape(s: string)
    ensures '<' !in Escape(s) && '>' !in Escape(s)
    ensures (forall i :: 0 <= i < |s| ==> s[i] != '&' && s[i] != '<' && s[i] != '>') ==> Escape(s) == s
  {
    if s != [] {
      EscapeShape(s[1..]);
    }
  }

  /** `sanitize_text` gives "" exactly for a missing or empty value; otherwise its output
      has no angle bracket and unescapes to the input. */
  lemma SanitizeProperties(x: Option<string>)
    ensures Sanitize(x) == "" <==> !Truthy(x)
    ensures Truthy(x) ==> '<' !in Sanitize(x) && '>' !in Sanitize(x) && Unescape(Sanitize(x)) == x.value
  {
    if Truthy(x) {
      EscapeShape(x.value);
      EscapeRoundTrip(x.value);
    }
  }

  // ---------------------------------------------------------------------------------------
  // Item identity and date.

  /** The text `item_guid` hashes: `council + "|" + link`. */
  function GuidKey(rec: FeedRecord): string {
    Or(rec.council, "") + "|" + Or(rec.link, "")
  }

  /** `item_guid(rec)`. */
  function ItemGuid(rec: FeedRecord, env: Env): string {
    env.sha1Hex(GuidKey(rec))
  }

  /** In `a + "|" + b` with no `|` in `a`, the first `|` is right after `a`. */
  lemma FirstBar(a: string, b: string)
    requires '|' !in a
    ensures (a + "|" + b)[|a|] == '|'
    ensures forall i :: 0 <= i < |a| ==> (a + "|" + b)[i] != '|'
    ensures (a + "|" + b)[..|a|] == a && (a + "|" + b)[|a| + 1..] == b
  {
  }

  lemma SplitAtBar(a: string, b: string, c: string, d: string)
    requires '|' !in a && '|' !in c && a + "|" + b == c + "|" + d
    ensures a == c && b == d
  {
    FirstBar(a, b);
    FirstBar(c, d);
    assert |a| == |c|;
  }

  /** Records whose councils contain no `|` hash the same text exactly when their council
      and link agree. */
  lemma GuidKeyInjective(r1: FeedRecord, r2: FeedRecord)
    requires '|' !in Or(r1.council, "") && '|' !in Or(r2.council, "")
    ensures GuidKey(r1) == GuidKey(r2) <==> Or(r1.council, "") == Or(r2.council, "") && Or(r1.link, "") == Or(r2.link, "")
  {
    if GuidKey(r1) == GuidKey(r2) {
      SplitAtBar(Or(r1.council, ""), Or(r1.link, ""), Or(r2.council, ""), Or(r2.link, ""));
    }
  }

  /** With a `|` in the council the text is ambiguous: council "a|b" with link "c" and council
      "a" with link "b|c" get the same guid. */
  lemma GuidKeyAmbiguous(env: Env)
    ensures var r1 := FeedRecord(None, None, Some("a|b"), None, Some("c"), None, None, None, None);
      var r2 := FeedRecord(None, None, Some("a"), None, Some("b|c"), None, None, None, None);
      r1.council != r2.council && ItemGuid(r1, env) == ItemGuid(r2, env)
  {
    var r1 := FeedRecord(None, None, Some("a|b"), None, Some("c"), None, None, None, None);
    var r2 := FeedRecord(None, None, Some("a"), None, Some("b|c"), None, None, None, None);
    assert GuidKey(r1) == "a|b|c" == GuidKey(r2);
  }

  /** The instant `pubdate_for` formats: the posted date if it parses, else the scrape date
      if it parses, else now. */
  function PubInstant(rec: FeedRecord, now: int, env: Env): int {
    if Truthy(rec.postedDate) && env.postedInstant(rec.postedDate.value).Some? then
      env.postedInstant(rec.postedDate.value).value
    else if Truthy(rec.scrapeDate) && env.scrapeInstant(rec.scrapeDate.value).Some? then
      env.scrapeInstant(rec.scrapeDate.value).value
    else now
  }

  /** `pubdate_for(rec)`. */
  function PubDate(rec: FeedRecord, now: int, env: Env): string {
    env.rfc2822(PubInstant(rec, now, env))
  }

  /** The publication date is the record's dated instant, or now when it has none; so a
      dated record is inside a positive window exactly when its publication date is at or
      after the cutoff. */
  lemma PubInstantIsRecordInstant(rec: FeedRecord, days: int, now: int, env: Env)
    ensures PubInstant(rec, now, env) == RecordInstant(rec, env).GetOr(now)
    ensures days > 0 && RecordInstant(rec, env).Some? ==>
      (WithinWindow(rec, days, now, env) <==> PubInstant(rec, now, env) >= Cutoff(now, days))
  {
    WithinWindowByInstant(rec, days, now, env);
  }

  // ---------------------------------------------------------------------------------------
  // Newest first.

  /** The sort key `posted_date or scrape_date or ""`. */
  function SortKey(rec: FeedRecord): string {
    Or(rec.postedDate, Or(rec.scrapeDate, ""))
  }

  /** Insert `x` before the first element whose key is not greater than its own. */
  function Insert(x: FeedRecord, t: seq<FeedRecord>): (r: seq<FeedRecord>)
    ensures multiset(r) == multiset([x] + t)
  {
    if t == [] then [x]
    else if !LexLess(SortKey(x), SortKey(t[0])) then [x] + t
    else
      var r := [t[0]] + Insert(x, t[1..]);
      assert t == [t[0]] + t[1..];
      r
  }

  /** `sorted(items, key=SortKey, reverse=True)`, which is stable. */
  function SortNewestFirst(s: seq<FeedRecord>): (r: seq<FeedRecord>)
    ensures multiset(r) == multiset(s)
  {
    if s == [] then []
    else
      var r := Insert(s[0], SortNewestFirst(s[1..]));
      assert s == [s[0]] + s[1..];
      r
  }

  /** Keys never increase along `s`. */
  predicate Descending(s: seq<FeedRecord>) {
    forall i, j :: 0 <= i < j < |s| ==> !LexLess(SortKey(s[i]), SortKey(s[j]))
  }

  lemma {:induction false} InsertDescending(x: FeedRecord, t: seq<FeedRecord>)
    requires Descending(t)
    ensures Descending(Insert(x, t))
  {
    if t != [] {
      if !LexLess(SortKey(x), SortKey(t[0])) {
        InsertFront(x, t);
      } else {
        InsertDescending(x, t[1..]);
        InsertBehind(x, t);
      }
    }
  }

  /** `x` goes in front of a descending `t` whose first key is not greater. */
  lemma InsertFront(x: FeedRecord, t: seq<FeedRecord>)
    requires Descending(t) && t != [] && !LexLess(SortKey(x), SortKey(t[0]))
    ensures Descending([x] + t)
  {
    var r := [x] + t;
    forall j | 1 <= j < |r| ensures !LexLess(SortKey(x), SortKey(r[j])) {
      if j > 1 {
        NotLessTransitive(SortKey(x), SortKey(t[0]), SortKey(t[j - 1]));
      }
    }
    assert forall i, j :: 1 <= i < j < |r| ==> r[i] == t[i - 1] && r[j] == t[j - 1];
  }

  /** `x` goes behind the first element of `t` when that element's key is greater. */
  lemma InsertBehind(x: FeedRecord, t: seq<FeedRecord>)
    requires Descending(t) && t != [] && LexLess(SortKey(x), SortKey(t[0]))
    requires Descending(Insert(x, t[1..]))
    ensures Descending([t[0]] + Insert(x, t[1..]))
  {
    var rest := Insert(x, t[1..]);
    forall j | 0 <= j < |rest| ensures !LexLess(SortKey(t[0]), SortKey(rest[j])) {
      assert rest[j] in multiset(rest);
      InsertedBelow(x, t, rest[j]);
    }
    ConsDescending(t[0], rest);
  }

  /** An element whose key is no smaller than any key of a descending `rest` can head it. */
  lemma ConsDescending(h: FeedRecord, rest: seq<FeedRecord>)
    requires Descending(rest)
    requires forall j :: 0 <= j < |rest| ==> !LexLess(SortKey(h), SortKey(rest[j]))
    ensures Descending([h] + rest)
  {
    var r := [h] + rest;
    assert forall i :: 1 <= i < |r| ==> r[i] == rest[i - 1];
  }

  /** Every element of `[x] + t[1..]` has a key no greater than `t[0]`'s, when `x`'s is
      smaller. */
  lemma InsertedBelow(x: FeedRecord, t: seq<FeedRecord>, y: FeedRecord)
    requires Descending(t) && t != [] && LexLess(SortKey(x), SortKey(t[0]))
    requires y in multiset([x] + t[1..])
    ensures !LexLess(SortKey(t[0]), SortKey(y))
  {
    assert y in [x] + t[1..];
    if y == x {
      if LexLess(SortKey(t[0]), SortKey(x)) {
        LexLessTransitive(SortKey(x), SortKey(t[0]), SortKey(x));
        LexLessIrreflexive(SortKey(x));
      }
    } else {
      var k :| 0 <= k < |t[1..]| && t[1..][k] == y;
      assert t[k + 1] == y;
    }
  }

  /** The sorted items are newest first. */
  lemma {:induction false} SortDescending(s: seq<FeedRecord>)
    ensures Descending(SortNewestFirst(s))
  {
    if s != [] {
      SortDescending(s[1..]);
      InsertDescending(s[0], SortNewestFirst(s[1..]));
    }
  }

  /** The test "has sort key `k`". */
  function KeyIs(k: string): FeedRecord -> bool {
    rec => SortKey(rec) == k
  }

  lemma FilterCons<T>(p: T -> bool, x: T, t: seq<T>)
    ensures Filter(p, [x] + t) == (if p(x) then [x] else []) + Filter(p, t)
  {
    assert ([x] + t)[0] == x && ([x] + t)[1..] == t;
  }

  lemma {:induction false} InsertStable(x: FeedRecord, t: seq<FeedRecord>, k: string)
    ensures Filter(KeyIs(k), Insert(x, t)) == Filter(KeyIs(k), [x] + t)
  {
    if t != [] && LexLess(SortKey(x), SortKey(t[0])) {
      var p := KeyIs(k);
      var t1 := t[1..];
      assert t == [t[0]] + t1;
      InsertStable(x, t1, k);
      FilterCons(p, t[0], Insert(x, t1));
      FilterCons(p, x, t1);
      FilterCons(p, x, t);
      FilterCons(p, t[0], t1);
      LexLessIrreflexive(SortKey(x));
      SwapUnlike(if p(t[0]) then [t[0]] else [], if p(x) then [x] else [], Filter(p, t1));
    }
  }

  /** Two pieces of which one is empty can be swapped. */
  lemma SwapUnlike<T>(a: seq<T>, b: seq<T>, c: seq<T>)
    requires a == [] || b == []
    ensures a + (b + c) == b + (a + c)
  {
    if a == [] {
      assert a + (b + c) == b + c;
    } else {
      assert b + (a + c) == a + c;
    }
  }

  /** The sort is stable: the items with any one key keep their input order. */
  lemma {:induction false} SortStable(s: seq<FeedRecord>, k: string)
    ensures Filter(KeyIs(k), SortNewestFirst(s)) == Filter(KeyIs(k), s)
  {
    if s != [] {
      SortStable(s[1..], k);
      StableStep(s[0], SortNewestFirst(s[1..]), s[1..], k);
    }
  }

  /** Inserting `x` into `t` keeps the order of each key's items when `t` has kept it. */
  lemma StableStep(x: FeedRecord, t: seq<FeedRecord>, u: seq<FeedRecord>, k: string)
    requires Filter(KeyIs(k), t) == Filter(KeyIs(k), u)
    ensures Filter(KeyIs(k), Insert(x, t)) == (if KeyIs(k)(x) then [x] else []) + Filter(KeyIs(k), u)
  {
    InsertStable(x, t, k);
    FilterCons(KeyIs(k), x, t);
  }

  /** `s[:n]` with Python's reading of a negative bound: it counts from the end. */
  function PyPrefix<T>(s: seq<T>, n: int): (r: seq<T>)
    ensures |r| == if n >= 0 then (if n < |s| then n else |s|) else (if |s| + n > 0 then |s| + n else 0)
    ensures r == s[..|r|]
  {
    if n >= 0 then (if n < |s| then s[..n] else s)
    else if |s| + n > 0 then s[..|s| + n] else []
  }

  /** A prefix of a descending sequence is descending. */
  lemma PrefixDescending(s: seq<FeedRecord>, n: nat)
    requires Descending(s) && n <= |s|
    ensures Descending(s[..n])
  {
    assert forall i :: 0 <= i < n ==> s[..n][i] == s[i];
  }

  // ---------------------------------------------------------------------------------------
  // Rendering.

  /** `<tag>text</tag>`. */
  function Element(tag: string, text: string): string {
    "<" + tag + ">" + text + "</" + tag + ">"
  }

  const XML_DECL: string := "<?xml version=\"1.0\" encoding=\"UTF-8\"?>"
  const RSS_OPEN: string := "<rss version=\"2.0\">"
  const CHANNEL_OPEN: string := "<channel>"
  const LANGUAGE: string := "<language>en-au</language>"
  const CHANNEL_CLOSE: string := "</channel>"
  const RSS_CLOSE: string := "</rss>"
  const ITEM_OPEN: string := "<" + "item" + ">"
  const ITEM_CLOSE: string := "<" + "/item" + ">"
  const UNTITLED: string := "(untitled)"
  const DESCRIPTION_LIMIT: nat := 4000
  /** The fallback summary's separator " — " (an em dash between blanks). */
  const SUMMARY_SEP: string := " \U{2014} "
  const SUMMARY_TRIM: set<char> := {' ', '\U{2014}'}

  /** The opening tag of the guid line, without its angle brackets. */
  const GUID_TAG: string := "guid isPermaLink=\"false\""

  function GuidLine(guid: string): string {
    "<" + GUID_TAG + ">" + guid + "</guid>"
  }

  /** The channel's opening lines; `built` is the formatted build time. */
  function Header(title: string, link: string, desc: string, built: string): seq<string> {
    [XML_DECL, RSS_OPEN, CHANNEL_OPEN,
     Element("title", Sanitize(Some(title))),
     Element("link", Sanitize(Some(link))),
     Element("description", Sanitize(Some(desc))),
     LANGUAGE,
     Element("lastBuildDate", built)]
  }

  function Footer(built: string): seq<string> {
    [Element("lastBuildDate", built), CHANNEL_CLOSE, RSS_CLOSE]
  }

  /** `s[:n]` for `n >= 0`. */
  function Take(s: string, n: nat): (r: string)
    ensures |r| <= n && |r| <= |s| && r == s[..|r|]
    ensures |s| <= n ==> r == s
  {
    if |s| <= n then s else s[..n]
  }

  function NonEmpty(s: string): bool {
    s != ""
  }

  /** The summary when there is no description: the non-empty values among council,
      salary and band joined by " — ", then stripped of blanks and dashes at both ends,
      then escaped. */
  function FallbackSummary(council: string, salary: string, band: string): string {
    Sanitize(Some(StripOf(JoinWith(Filter(NonEmpty, [council, salary, band]), SUMMARY_SEP), SUMMARY_TRIM)))
  }

  /** The item summary: the description HTML if it is non-empty, else the fallback. */
  function Summary(rec: FeedRecord): string {
    var descHtml := Or(rec.descriptionHtml, "");
    if descHtml != "" then descHtml
    else FallbackSummary(Or(rec.council, ""), Or(rec.salary, ""), Or(rec.band, ""))
  }

  /** `[line]` when `present`, otherwise nothing. */
  function Optional(present: bool, line: string): seq<string> {
    if present then [line] else []
  }

  /** The lines of one item, from the texts `build` computes for it: the five lines every
      item starts with, a line for each of band, salary, closing date and council that is
      non-empty, the description cut to its limit, and the closing tag. */
  function ItemLines(title: string, link: string, guid: string, pubDate: string,
                     band: string, salary: string, closing: string, council: string, summary: string): seq<string> {
    HeadLines(title, link, guid, pubDate) + FieldLines(band, salary, closing, council) + TailLines(summary)
  }

  function HeadLines(title: string, link: string, guid: string, pubDate: string): seq<string> {
    [ITEM_OPEN,
     Element("title", Sanitize(Some(title))),
     Element("link", Sanitize(Some(link))),
     GuidLine(guid),
     Element("pubDate", pubDate)]
  }

  function FieldLines(band: string, salary: string, closing: string, council: string): seq<string> {
    Optional(band != "", Element("category", Sanitize(Some(band))))
    + Optional(salary != "", Element("salary", Sanitize(Some(salary))))
    + Optional(closing != "", Element("closing", Sanitize(Some(closing))))
    + Optional(council != "", Element("council", Sanitize(Some(council))))
  }

  function TailLines(summary: string): seq<string> {
    [Element("description", Sanitize(Some(Take(summary, DESCRIPTION_LIMIT)))), ITEM_CLOSE]
  }

  /** The lines of the item for `rec`. */
  function ItemParts(rec: FeedRecord, now: int, env: Env): seq<string> {
    ItemLines(Or(rec.title, UNTITLED), Or(rec.link, ""), ItemGuid(rec, env), PubDate(rec, now, env),
              Or(rec.band, ""), Or(rec.salary, ""), Or(rec.closingDate, ""), Or(rec.council, ""), Summary(rec))
  }

  /** The lines of the items `recs`, one item after another. */
  function ItemsParts(recs: seq<FeedRecord>, now: int, env: Env): seq<string> {
    if recs == [] then []
    else ItemsParts(recs[..|recs| - 1], now, env) + ItemParts(recs[|recs| - 1], now, env)
  }

  lemma AppendAssoc(a: seq<string>, b: seq<string>, c: seq<string>)
    ensures (a + b) + c == a + (b + c)
  {
  }

  lemma ItemsPartsStep(recs: seq<FeedRecord>, i: nat, now: int, env: Env)
    requires i < |recs|
    ensures ItemsParts(recs[..i + 1], now, env) == ItemsParts(recs[..i], now, env) + ItemParts(recs[i], now, env)
  {
    assert recs[..i + 1][..i] == recs[..i];
  }

  /** The items `build` renders: the newest `maxItems` in the sense of `[:max_items]`. */
  function Selected(items: seq<FeedRecord>, maxItems: int): seq<FeedRecord> {
    PyPrefix(SortNewestFirst(items), maxItems)
  }

  /** The lines `build` joins. */
  function Parts(items: seq<FeedRecord>, title: string, link: string, desc: string, maxItems: int, now: int, env: Env): seq<string> {
    var built := env.rfc2822(now);
    Header(title, link, desc, built) + ItemsParts(Selected(items, maxItems), now, env) + Footer(built)
  }

  /** `build(items, title, link, desc, max_items)`. */
  function Document(items: seq<FeedRecord>, title: string, link: string, desc: string, maxItems: int, now: int, env: Env): string {
    JoinWith(Parts(items, title, link, desc, maxItems, now, env), "\n")
  }

  /** `build`: start with the channel header, append the lines of each selected item,
      close the channel, and join the lines with newlines. */
  method Build(items: seq<FeedRecord>, title: string, link: string, desc: string, maxItems: int, now: int, env: Env)
    returns (xml: string)
    ensures xml == Document(items, title, link, desc, maxItems, now, env)
  {
    var built := env.rfc2822(now);
    var parts := Header(title, link, desc, built);
    var itemsSorted := SortNewestFirst(items);
    parts := AppendItems(parts, PyPrefix(itemsSorted, maxItems), now, env);
    parts := parts + Footer(built);
    xml := JoinWith(parts, "\n");
  }

  /** `build`'s item loop: append the lines of each of `chosen` in turn. */
  method AppendItems(lines: seq<string>, chosen: seq<FeedRecord>, now: int, env: Env) returns (parts: seq<string>)
    ensures parts == lines + ItemsParts(chosen, now, env)
  {
    parts := lines;
    for i := 0 to |chosen|
      invariant parts == lines + ItemsParts(chosen[..i], now, env)
    {
      var item := RenderItem(chosen[i], now, env);
      ItemsPartsStep(chosen, i, now, env);
      AppendAssoc(lines, ItemsParts(chosen[..i], now, env), item);
      parts := parts + item;
    }
    assert chosen[..|chosen|] == chosen;
  }

  /** `if present: lines.append(line)`. */
  method AppendWhen(lines: seq<string>, present: bool, line: string) returns (r: seq<string>)
    ensures r == lines + Optional(present, line)
  {
    r := lines;
    if present {
      r := r + [line];
    } else {
      assert lines + [] == lines;
    }
  }

  /** The body of `build`'s item loop: the five lines every item has, the optional lines
      for band, salary, closing date and council, the description and the closing tag. */
  method RenderItem(rec: FeedRecord, now: int, env: Env) returns (item: seq<string>)
    ensures item == ItemParts(rec, now, env)
  {
    var council := Or(rec.council, "");
    var title := Or(rec.title, UNTITLED);
    var link := Or(rec.link, "");
    var band := Or(rec.band, "");
    var salary := Or(rec.salary, "");
    var closing := Or(rec.closingDate, "");
    var summary := Summary(rec);
    item := [ITEM_OPEN,
             Element("title", Sanitize(Some(title))),
             Element("link", Sanitize(Some(link))),
             GuidLine(ItemGuid(rec, env)),
             Element("pubDate", PubDate(rec, now, env))];
    ghost var head := item;
    item := AppendWhen(item, band != "", Element("category", Sanitize(Some(band))));
    item := AppendWhen(item, salary != "", Element("salary", Sanitize(Some(salary))));
    item := AppendWhen(item, closing != "", Element("closing", Sanitize(Some(closing))));
    item := AppendWhen(item, council != "", Element("council", Sanitize(Some(council))));
    AppendFour(head, Optional(band != "", Element("category", Sanitize(Some(band)))),
               Optional(salary != "", Element("salary", Sanitize(Some(salary)))),
               Optional(closing != "", Element("closing", Sanitize(Some(closing)))),
               Optional(council != "", Element("council", Sanitize(Some(council)))));
    item := item + [Element("description", Sanitize(Some(Take(summary, DESCRIPTION_LIMIT)))), ITEM_CLOSE];
  }

  lemma AppendFour(h: seq<string>, a: seq<string>, b: seq<string>, c: seq<string>, d: seq<string>)
    ensures h + a + b + c + d == h + (a + b + c + d)
  {
  }

  // ---------------------------------------------------------------------------------------
  // The shape of the rendered feed.

  /** The text of `s` before the first `c`. */
  function UpTo(s: string, c: char): (r: string)
    ensures c !in r
  {
    if s == [] || s[0] == c then [] else [s[0]] + UpTo(s[1..], c)
  }

  lemma {:induction false} UpToPrefix(a: string, c: char, rest: string)
    requires c !in a
    ensures UpTo(a + [c] + rest, c) == a
  {
    if a == [] {
      assert (a + [c] + rest)[0] == c;
    } else {
      assert (a + [c] + rest)[1..] == a[1..] + [c] + rest;
      UpToPrefix(a[1..], c, rest);
    }
  }

  /** The tag a line opens with: the text between its leading `<` and the first `>`; ""
      for a line that does not start with `<`. */
  function TagOf(line: string): (t: string)
    ensures '>' !in t
  {
    if line != [] && line[0] == '<' then UpTo(line[1..], '>') else ""
  }

  lemma TagOfLine(tag: string, rest: string)
    requires '>' !in tag
    ensures TagOf("<" + tag + ">" + rest) == tag
  {
    var line := "<" + tag + ">" + rest;
    assert line[1..] == tag + ['>'] + rest;
    UpToPrefix(tag, '>', rest);
  }

  /** An element line opens with its own tag, whatever its text. */
  lemma TagOfElement(tag: string, text: string)
    requires '>' !in tag
    ensures TagOf(Element(tag, text)) == tag
  {
    assert Element(tag, text) == "<" + tag + ">" + (text + "</" + tag + ">");
    TagOfLine(tag, text + "</" + tag + ">");
  }

  /** The tags of the lines `lines`, in order. */
  function Tags(lines: seq<string>): (ts: seq<string>)
    ensures |ts| == |lines|
  {
    if lines == [] then [] else [TagOf(lines[0])] + Tags(lines[1..])
  }

  lemma {:induction false} TagsAppend(a: seq<string>, b: seq<string>)
    ensures Tags(a + b) == Tags(a) + Tags(b)
  {
    if a != [] {
      assert (a + b)[1..] == a[1..] + b;
      TagsAppend(a[1..], b);
    } else {
      assert a + b == b;
    }
  }

  lemma TagsOptional(present: bool, line: string)
    ensures Tags(Optional(present, line)) == Optional(present, TagOf(line))
  {
  }

  /** None of the tags `build` writes holds a `>`. */
  lemma PlainTags()
    ensures '>' !in GUID_TAG
    ensures '>' !in "title" && '>' !in "link" && '>' !in "pubDate" && '>' !in "description"
    ensures '>' !in "category" && '>' !in "salary" && '>' !in "closing" && '>' !in "council"
  {
  }

  /** The tags of the five lines every item starts with. */
  const HEAD_TAGS: seq<string> := ["item", "title", "link", GUID_TAG, "pubDate"]

  lemma HeadTags(title: string, link: string, guid: string, pubDate: string)
    ensures Tags(HeadLines(title, link, guid, pubDate)) == HEAD_TAGS
  {
    var h := HeadLines(title, link, guid, pubDate);
    PlainTags();
    assert ITEM_OPEN == "<" + "item" + ">" + "";
    TagOfLine("item", "");
    TagOfElement("title", Sanitize(Some(title)));
    TagOfElement("link", Sanitize(Some(link)));
    assert GuidLine(guid) == "<" + GUID_TAG + ">" + (guid + "</guid>");
    TagOfLine(GUID_TAG, guid + "</guid>");
    TagOfElement("pubDate", pubDate);
    assert h == [h[0]] + ([h[1]] + ([h[2]] + ([h[3]] + [h[4]])));
    TagsAppend([h[0]], [h[1]] + ([h[2]] + ([h[3]] + [h[4]])));
    TagsAppend([h[1]], [h[2]] + ([h[3]] + [h[4]]));
    TagsAppend([h[2]], [h[3]] + [h[4]]);
    TagsAppend([h[3]], [h[4]]);
  }

  lemma FieldTags(band: string, salary: string, closing: string, council: string)
    ensures Tags(FieldLines(band, salary, closing, council)) ==
      Optional(band != "", "category") + Optional(salary != "", "salary")
      + Optional(closing != "", "closing") + Optional(council != "", "council")
  {
    var l1 := Element("category", Sanitize(Some(band)));
    var l2 := Element("salary", Sanitize(Some(salary)));
    var l3 := Element("closing", Sanitize(Some(closing)));
    var l4 := Element("council", Sanitize(Some(council)));
    var o1 := Optional(band != "", l1);
    var o2 := Optional(salary != "", l2);
    var o3 := Optional(closing != "", l3);
    var o4 := Optional(council != "", l4);
    PlainTags();
    TagOfElement("category", Sanitize(Some(band)));
    TagOfElement("salary", Sanitize(Some(salary)));
    TagOfElement("closing", Sanitize(Some(closing)));
    TagOfElement("council", Sanitize(Some(council)));
    TagsOptional(band != "", l1);
    TagsOptional(salary != "", l2);
    TagsOptional(closing != "", l3);
    TagsOptional(council != "", l4);
    TagsAppend(o1, o2);
    TagsAppend(o1 + o2, o3);
    TagsAppend(o1 + o2 + o3, o4);
  }

  lemma TailTags(summary: string)
    ensures Tags(TailLines(summary)) == ["description", "/item"]
  {
    PlainTags();
    TagOfElement("description", Sanitize(Some(Take(summary, DESCRIPTION_LIMIT))));
    assert ITEM_CLOSE == "<" + "/item" + ">" + "";
    TagOfLine("/item", "");
  }

  /** The tags of an item's lines: the five fixed ones, then `category`, `salary`, `closing`
      and `council` each exactly when that text is non-empty, then `description` and the
      closing `/item`. */
  lemma ItemLinesTags(title: string, link: string, guid: string, pubDate: string,
                      band: string, salary: string, closing: string, council: string, summary: string)
    ensures Tags(ItemLines(title, link, guid, pubDate, band, salary, closing, council, summary)) ==
      HEAD_TAGS
      + (Optional(band != "", "category") + Optional(salary != "", "salary")
         + Optional(closing != "", "closing") + Optional(council != "", "council"))
      + ["description", "/item"]
  {
    var h := HeadLines(title, link, guid, pubDate);
    var f := FieldLines(band, salary, closing, council);
    HeadTags(title, link, guid, pubDate);
    FieldTags(band, salary, closing, council);
    TailTags(summary);
    TagsAppend(h, f);
    TagsAppend(h + f, TailLines(summary));
  }

  /** The field tags are told apart from each other and from the fixed tags. */
  lemma FieldTagsDistinct()
    ensures forall t :: t in ["category", "salary", "closing", "council"] ==> t !in HEAD_TAGS && t !in ["description", "/item"]
    ensures "category" != "salary" && "category" != "closing" && "category" != "council"
    ensures "salary" != "closing" && "salary" != "council" && "closing" != "council"
  {
    assert "closing"[1] != "council"[1];
  }

  lemma InMiddle(x: string, a: seq<string>, b: seq<string>, c: seq<string>)
    requires x !in a && x !in c
    ensures x in a + b + c <==> x in b
  {
  }

  lemma InOptionals(x: string, p1: bool, t1: string, p2: bool, t2: string, p3: bool, t3: string, p4: bool, t4: string)
    ensures x in Optional(p1, t1) + Optional(p2, t2) + Optional(p3, t3) + Optional(p4, t4) <==>
      (p1 && x == t1) || (p2 && x == t2) || (p3 && x == t3) || (p4 && x == t4)
  {
  }

  /** An item has a `title`, `link`, guid, `pubDate` and `description` line, and has a
      `category`, `salary`, `closing` or `council` line exactly when that text is non-empty. */
  lemma ItemLinesTagPresence(title: string, link: string, guid: string, pubDate: string,
                             band: string, salary: string, closing: string, council: string, summary: string)
    ensures forall t :: t in HEAD_TAGS + ["description", "/item"] ==>
      t in Tags(ItemLines(title, link, guid, pubDate, band, salary, closing, council, summary))
    ensures "category" in Tags(ItemLines(title, link, guid, pubDate, band, salary, closing, council, summary)) <==> band != ""
    ensures "salary" in Tags(ItemLines(title, link, guid, pubDate, band, salary, closing, council, summary)) <==> salary != ""
    ensures "closing" in Tags(ItemLines(title, link, guid, pubDate, band, salary, closing, council, summary)) <==> closing != ""
    ensures "council" in Tags(ItemLines(title, link, guid, pubDate, band, salary, closing, council, summary)) <==> council != ""
  {
    ItemLinesTags(title, link, guid, pubDate, band, salary, closing, council, summary);
    FieldTagsDistinct();
    var f := Optional(band != "", "category") + Optional(salary != "", "salary")
      + Optional(closing != "", "closing") + Optional(council != "", "council");
    var tail := ["description", "/item"];
    forall t | t in ["category", "salary", "closing", "council"]
      ensures t in HEAD_TAGS + f + tail <==>
        (band != "" && t == "category") || (salary != "" && t == "salary") || (closing != "" && t == "closing") || (council != "" && t == "council")
    {
      InMiddle(t, HEAD_TAGS, f, tail);
      InOptionals(t, band != "", "category", salary != "", "salary", closing != "", "closing", council != "", "council");
    }
  }

  /** An item always has its title, link, guid, publication date and description lines,
      and has a category, salary, closing or council line exactly when the band, salary,
      closing date or council is non-empty. */
  lemma ItemTagPresence(rec: FeedRecord, now: int, env: Env)
    ensures forall t :: t in HEAD_TAGS + ["description", "/item"] ==> t in Tags(ItemParts(rec, now, env))
    ensures "category" in Tags(ItemParts(rec, now, env)) <==> Truthy(rec.band)
    ensures "salary" in Tags(ItemParts(rec, now, env)) <==> Truthy(rec.salary)
    ensures "closing" in Tags(ItemParts(rec, now, env)) <==> Truthy(rec.closingDate)
    ensures "council" in Tags(ItemParts(rec, now, env)) <==> Truthy(rec.council)
  {
    ItemLinesTagPresence(Or(rec.title, UNTITLED), Or(rec.link, ""), ItemGuid(rec, env), PubDate(rec, now, env),
                         Or(rec.band, ""), Or(rec.salary, ""), Or(rec.closingDate, ""), Or(rec.council, ""), Summary(rec));
  }

  // ---------------------------------------------------------------------------------------
  // Counting items.

  /** No element line is the `<item>` line. */
  lemma ElementNotOpen(tag: string, text: string)
    requires tag != []
    ensures Element(tag, text) != ITEM_OPEN
  {
    assert |Element(tag, text)| >= 7;
  }

  lemma OptionalNotOpen(present: bool, tag: string, text: string)
    requires tag != []
    ensures multiset(Optional(present, Element(tag, text)))[ITEM_OPEN] == 0
  {
    ElementNotOpen(tag, text);
  }

  lemma HeadOpenOnce(title: string, link: string, guid: string, pubDate: string)
    ensures multiset(HeadLines(title, link, guid, pubDate))[ITEM_OPEN] == 1
  {
    ElementNotOpen("title", Sanitize(Some(title)));
    ElementNotOpen("link", Sanitize(Some(link)));
    ElementNotOpen("pubDate", pubDate);
    assert |GuidLine(guid)| > 6;
  }

  lemma FieldsNoOpen(band: string, salary: string, closing: string, council: string)
    ensures multiset(FieldLines(band, salary, closing, council))[ITEM_OPEN] == 0
  {
    OptionalNotOpen(band != "", "category", Sanitize(Some(band)));
    OptionalNotOpen(salary != "", "salary", Sanitize(Some(salary)));
    OptionalNotOpen(closing != "", "closing", Sanitize(Some(closing)));
    OptionalNotOpen(council != "", "council", Sanitize(Some(council)));
  }

  lemma TailNoOpen(summary: string)
    ensures multiset(TailLines(summary))[ITEM_OPEN] == 0
  {
    ElementNotOpen("description", Sanitize(Some(Take(summary, DESCRIPTION_LIMIT))));
  }

  /** Every item has exactly one `<item>` line. */
  lemma ItemLinesOpenOnce(title: string, link: string, guid: string, pubDate: string,
                          band: string, salary: string, closing: string, council: string, summary: string)
    ensures multiset(ItemLines(title, link, guid, pubDate, band, salary, closing, council, summary))[ITEM_OPEN] == 1
  {
    HeadOpenOnce(title, link, guid, pubDate);
    FieldsNoOpen(band, salary, closing, council);
    TailNoOpen(summary);
  }

  lemma ItemOpenOnce(rec: FeedRecord, now: int, env: Env)
    ensures multiset(ItemParts(rec, now, env))[ITEM_OPEN] == 1
  {
    ItemLinesOpenOnce(Or(rec.title, UNTITLED), Or(rec.link, ""), ItemGuid(rec, env), PubDate(rec, now, env),
                      Or(rec.band, ""), Or(rec.salary, ""), Or(rec.closingDate, ""), Or(rec.council, ""), Summary(rec));
  }

  /** The lines of `recs` hold one `<item>` line per record. */
  lemma {:induction false} ItemsOpenCount(recs: seq<FeedRecord>, now: int, env: Env)
    ensures multiset(ItemsParts(recs, now, env))[ITEM_OPEN] == |recs|
  {
    if recs != [] {
      ItemsOpenCount(recs[..|recs| - 1], now, env);
      ItemOpenOnce(recs[|recs| - 1], now, env);
    }
  }

  /** The fixed lines of the channel are longer than the `<item>` line or differ from it
      in their second character. */
  lemma FixedLinesNotOpen()
    ensures XML_DECL != ITEM_OPEN && RSS_OPEN != ITEM_OPEN && CHANNEL_OPEN != ITEM_OPEN && LANGUAGE != ITEM_OPEN
    ensures CHANNEL_CLOSE != ITEM_OPEN && RSS_CLOSE != ITEM_OPEN
  {
    assert |XML_DECL| > 6 && |RSS_OPEN| > 6 && |CHANNEL_OPEN| > 6 && |LANGUAGE| > 6 && |CHANNEL_CLOSE| > 6;
    assert RSS_CLOSE[1] != ITEM_OPEN[1];
  }

  /** The channel's own lines hold no `<item>` line. */
  lemma FrameHasNoItem(title: string, link: string, desc: string, built: string)
    ensures multiset(Header(title, link, desc, built))[ITEM_OPEN] == 0
    ensures multiset(Footer(built))[ITEM_OPEN] == 0
  {
    HeaderHasNoItem(title, link, desc, built);
    AbsentCount(Header(title, link, desc, built), ITEM_OPEN);
    FooterHasNoItem(built);
    AbsentCount(Footer(built), ITEM_OPEN);
  }

  lemma HeaderHasNoItem(title: string, link: string, desc: string, built: string)
    ensures ITEM_OPEN !in Header(title, link, desc, built)
  {
    FixedLinesNotOpen();
    ElementNotOpen("title", Sanitize(Some(title)));
    ElementNotOpen("link", Sanitize(Some(link)));
    ElementNotOpen("description", Sanitize(Some(desc)));
    ElementNotOpen("lastBuildDate", built);
  }

  lemma FooterHasNoItem(built: string)
    ensures ITEM_OPEN !in Footer(built)
  {
    FixedLinesNotOpen();
    ElementNotOpen("lastBuildDate", built);
  }

  /** A line that does not occur is counted zero times. */
  lemma AbsentCount(s: seq<string>, x: string)
    requires x !in s
    ensures multiset(s)[x] == 0
  {
  }

  /** The number of items `build` writes: one `<item>` block per selected record, which is
      `min(len(items), max_items)` for a non-negative `max_items` and, as Python slicing
      reads a negative bound, `max(0, len(items) + max_items)` otherwise. */
  lemma ItemCount(items: seq<FeedRecord>, title: string, link: string, desc: string, maxItems: int, now: int, env: Env)
    ensures multiset(Parts(items, title, link, desc, maxItems, now, env))[ITEM_OPEN] == |Selected(items, maxItems)|
    ensures |Selected(items, maxItems)| ==
      if maxItems >= 0 then (if maxItems < |items| then maxItems else |items|)
      else (if |items| + maxItems > 0 then |items| + maxItems else 0)
  {
    var built := env.rfc2822(now);
    FrameHasNoItem(title, link, desc, built);
    ItemsOpenCount(Selected(items, maxItems), now, env);
    assert |SortNewestFirst(items)| == |items| by {
      assert |multiset(SortNewestFirst(items))| == |multiset(items)|;
    }
  }

  // ---------------------------------------------------------------------------------------
  // The shape of the document.

  /** The document starts with the XML declaration and ends with `</rss>`; its lines are the
      channel header (with the sanitized channel title, link and description), the item
      lines, and the closing lines. */
  lemma DocumentShape(items: seq<FeedRecord>, title: string, link: string, desc: string, maxItems: int, now: int, env: Env)
    ensures |Parts(items, title, link, desc, maxItems, now, env)| >= 11
    ensures Parts(items, title, link, desc, maxItems, now, env)[..8] == Header(title, link, desc, env.rfc2822(now))
    ensures Parts(items, title, link, desc, maxItems, now, env)[|Parts(items, title, link, desc, maxItems, now, env)| - 3..]
      == Footer(env.rfc2822(now))
    ensures StartsWith(Document(items, title, link, desc, maxItems, now, env), XML_DECL)
    ensures |RSS_CLOSE| <= |Document(items, title, link, desc, maxItems, now, env)|
    ensures Document(items, title, link, desc, maxItems, now, env)[|Document(items, title, link, desc, maxItems, now, env)| - |RSS_CLOSE|..] == RSS_CLOSE
  {
    var built := env.rfc2822(now);
    var ps := Parts(items, title, link, desc, maxItems, now, env);
    FrameSlices(Header(title, link, desc, built), ItemsParts(Selected(items, maxItems), now, env), Footer(built));
    JoinWithEnds(ps, "\n");
  }

  /** The first eight lines of header + middle + footer are the header, the last three the
      footer. */
  lemma FrameSlices(h: seq<string>, m: seq<string>, f: seq<string>)
    requires |h| == 8 && |f| == 3
    ensures |h + m + f| >= 11 && (h + m + f)[..8] == h && (h + m + f)[|h + m + f| - 3..] == f
    ensures (h + m + f)[0] == h[0] && (h + m + f)[|h + m + f| - 1] == f[2]
  {
    assert (h + m + f)[..8] == h;
    assert (h + m + f)[|h + m + f| - 3..] == f;
  }

  /** With no records the channel has no items: the header lines and then the closing lines. */
  lemma EmptyFeed(title: string, link: string, desc: string, maxItems: int, now: int, env: Env)
    ensures Parts([], title, link, desc, maxItems, now, env) == Header(title, link, desc, env.rfc2822(now)) + Footer(env.rfc2822(now))
    ensures multiset(Parts([], title, link, desc, maxItems, now, env))[ITEM_OPEN] == 0
  {
    ItemCount([], title, link, desc, maxItems, now, env);
    var h := Header(title, link, desc, env.rfc2822(now));
    assert h + [] == h;
  }

  // ---------------------------------------------------------------------------------------
  // The description.

  /** The text of an item's description line. */
  function DescriptionText(rec: FeedRecord): string {
    Sanitize(Some(Take(Summary(rec), DESCRIPTION_LIMIT)))
  }

  /** The description line is the next to last line of every item. */
  lemma ItemDescriptionLine(rec: FeedRecord, now: int, env: Env)
    ensures |ItemParts(rec, now, env)| >= 7
    ensures ItemParts(rec, now, env)[|ItemParts(rec, now, env)| - 2] == Element("description", DescriptionText(rec))
    ensures ItemParts(rec, now, env)[|ItemParts(rec, now, env)| - 1] == ITEM_CLOSE
  {
  }

  /** The description is the first 4000 characters of the summary, escaped: it decodes to
      that cut and holds no angle bracket. The summary is the description HTML when that is
      non-empty, and otherwise escaped text that decodes to the non-empty values among
      council, salary and band joined by " — " and stripped of blanks and dashes at both
      ends. */
  lemma DescriptionProperties(rec: FeedRecord)
    ensures '<' !in DescriptionText(rec) && '>' !in DescriptionText(rec)
    ensures Unescape(DescriptionText(rec)) == Take(Summary(rec), DESCRIPTION_LIMIT)
    ensures Truthy(rec.descriptionHtml) ==> Summary(rec) == rec.descriptionHtml.value
    ensures !Truthy(rec.descriptionHtml) ==>
      Unescape(Summary(rec)) == StripOf(JoinWith(Filter(NonEmpty, [Or(rec.council, ""), Or(rec.salary, ""), Or(rec.band, "")]), SUMMARY_SEP), SUMMARY_TRIM)
  {
    var cut := Take(Summary(rec), DESCRIPTION_LIMIT);
    CutEscaped(cut);
    if !Truthy(rec.descriptionHtml) {
      FallbackDecodes(Or(rec.council, ""), Or(rec.salary, ""), Or(rec.band, ""));
    }
  }

  lemma CutEscaped(cut: string)
    ensures '<' !in Sanitize(Some(cut)) && '>' !in Sanitize(Some(cut))
    ensures Unescape(Sanitize(Some(cut))) == cut
  {
    SanitizeProperties(Some(cut));
    if cut == "" {
      assert Unescape("") == "";
    }
  }

  lemma FallbackDecodes(council: string, salary: string, band: string)
    ensures Unescape(FallbackSummary(council, salary, band)) ==
      StripOf(JoinWith(Filter(NonEmpty, [council, salary, band]), SUMMARY_SEP), SUMMARY_TRIM)
  {
    CutEscaped(StripOf(JoinWith(Filter(NonEmpty, [council, salary, band]), SUMMARY_SEP), SUMMARY_TRIM));
  }

  /** With no description, council, salary or band, the description is empty. */
  lemma DescriptionEmpty(rec: FeedRecord)
    requires !Truthy(rec.descriptionHtml) && !Truthy(rec.council) && !Truthy(rec.salary) && !Truthy(rec.band)
    ensures DescriptionText(rec) == ""
  {
    assert Filter(NonEmpty, ["", "", ""]) == [];
    assert JoinWith([], SUMMARY_SEP) == "";
  }

  // ---------------------------------------------------------------------------------------
  // The selected items.

  /** The selected records are newest first, come from the input, are all of it when
      `max_items` is at least its length, and none of the records left out has a greater
      key than a selected one. */
  lemma SelectedProperties(items: seq<FeedRecord>, maxItems: int)
    ensures Descending(Selected(items, maxItems))
    ensures multiset(Selected(items, maxItems)) <= multiset(items)
    ensures maxItems >= |items| ==> multiset(Selected(items, maxItems)) == multiset(items)
    ensures forall i, j :: 0 <= i < |Selected(items, maxItems)| <= j < |SortNewestFirst(items)| ==>
      !LexLess(SortKey(Selected(items, maxItems)[i]), SortKey(SortNewestFirst(items)[j]))
  {
    var sorted := SortNewestFirst(items);
    var sel := Selected(items, maxItems);
    SortDescending(items);
    PrefixDescending(sorted, |sel|);
    assert sorted == sel + sorted[|sel|..];
    assert |sorted| == |items| by {
      assert |multiset(sorted)| == |multiset(items)|;
    }
    if maxItems >= |items| {
      assert sel == sorted;
    }
  }

  // ---------------------------------------------------------------------------------------
  // The command: filter the history, build the feed, report the count.

  /** The history rows inside the window. */
  function Rows(history: seq<FeedRecord>, days: int, now: int, env: Env): seq<FeedRecord> {
    Filter(InWindow(days, now, env), history)
  }

  /** The count `main` reports, as written: `min(len(rows), max_items)`. */
  function ReportedCountAsWritten(rows: seq<FeedRecord>, maxItems: int): int {
    if |rows| < maxItems then |rows| else maxItems
  }

  /** For a negative `max_items` the reported count is negative while the feed holds
      `max(0, len(rows) + max_items)` items: ten rows with `max_items` -3 are reported as -3
      items and written as 7. */
  lemma ReportedCountMismatch(rows: seq<FeedRecord>, title: string, link: string, desc: string, maxItems: int, now: int, env: Env)
    requires maxItems < 0
    ensures ReportedCountAsWritten(rows, maxItems) < 0
    ensures ReportedCountAsWritten(rows, maxItems) != multiset(Parts(rows, title, link, desc, maxItems, now, env))[ITEM_OPEN]
  {
    ItemCount(rows, title, link, desc, maxItems, now, env);
  }

  /** The count of items the feed holds: the number of selected rows. */
  function ReportedCount(rows: seq<FeedRecord>, maxItems: int): (n: nat)
    ensures maxItems >= 0 ==> n == ReportedCountAsWritten(rows, maxItems)
  {
    PyPrefixLength(rows, maxItems)
  }

  /** `len(s[:n])` under Python's slicing. */
  function PyPrefixLength<T>(s: seq<T>, n: int): (k: nat)
    ensures k == |PyPrefix(s, n)|
  {
    if n >= 0 then (if n < |s| then n else |s|) else (if |s| + n > 0 then |s| + n else 0)
  }

  /** `main`: keep the rows inside the window, build the feed from them, and report how
      many items it holds. */
  method Publish(history: seq<FeedRecord>, title: string, link: string, desc: string, maxItems: int, days: int, now: int, env: Env)
    returns (xml: string, count: nat)
    ensures xml == Document(Rows(history, days, now, env), title, link, desc, maxItems, now, env)
    ensures count == multiset(Parts(Rows(history, days, now, env), title, link, desc, maxItems, now, env))[ITEM_OPEN]
    ensures maxItems >= 0 ==> count == ReportedCountAsWritten(Rows(history, days, now, env), maxItems)
  {
    var rows := Filter(InWindow(days, now, env), history);
    xml := Build(rows, title, link, desc, maxItems, now, env);
    count := ReportedCount(rows, maxItems);
    ItemCount(rows, title, link, desc, maxItems, now, env);
  }
}
