/** The ApplyNow collector: it walks the listing pages of an ApplyNow portal by following
    "next page" links, collects the job cards of each page, and turns every card into a job
    record, reading the card's detail page when it can.

    The web is a finite map from URL to the page a GET of that URL returns; a URL outside
    the map is a fetch that fails. HTML parsing, CSS selection, the regex engine and URL
    joining are supplied from outside as functions: `Page.select` gives what a selector
    finds, `Regex.search` what `re.search(pattern, text, flags=re.I)` finds, and so on. */
module ApplyNow {
  import opened Wrappers
  import opened Strings
  import opened Sequences

  // ---------------------------------------------------------------------------------------
  // Patterns and selectors (the source's constants; their meaning is the regex engine's).

  const EMPLOYMENT_PATTERNS: seq<string> := [
    "\\b(full[-\\s]?time)\\b",
    "\\b(part[-\\s]?time)\\b",
    "\\b(casual)\\b",
    "\\b(temporary|fixed[-\\s]?term)\\b",
    "\\b(contract)\\b"
  ]

  const LOCATION_PATTERNS: seq<string> := [
    "\\b(location|based\\s+at|work\\s*location)\\s*[:\\-]\\s*(?P<loc>.+)"
  ]

  const SALARY_PATTERNS: seq<string> := [
    "\\b(salary|remuneration|package|band)\\s*[:\\-]\\s*(?P<sal>.+)",
    "\\b(\\$[0-9][\\d,]*(?:\\s*-\\s*\\$?[0-9][\\d,]*)?)\\b"
  ]

  const BAND_PATTERNS: seq<string> := [
    "\\bband\\s*([0-9]{1,2})\\b",
    "\\b(grade|classification)\\s*([0-9A-Z]{1,3})\\b"
  ]

  /** The label that `_guess_location` removes from an extracted location. */
  const LOCATION_LABEL: string := "(?i)\\b(location|based at|work location)\\s*[:\\-]\\s*"

  /** The listing-card selector groups, narrowest first. */
  const CARD_SELECTORS: seq<string> := [
    "ul li a[href*='applynow'], ul li a[href*='/jobs/'], ul li a[href*='/job/']",
    "article a[href*='applynow'], .job-list a[href*='applynow'], .job a[href*='applynow']",
    "a[href*='applynow.net.au/']",
    "a[href*='/applynow/']"
  ]

  const REL_NEXT: string := "a[rel='next']"

  /** Anchor texts (cleaned and lower-cased) that mark a link to the next listing page. */
  const NEXT_TEXTS: set<string> := {"next", "older", "more jobs"}

  // ---------------------------------------------------------------------------------------
  // The outside world.

  /** What `re.search` found: the whole match, and the named groups `loc` and `sal` as
      `m.groupdict()` has them (None when the pattern has no such group or the group did
      not take part in the match). */
  datatype Match = Match(whole: string, loc: Option<string>, sal: Option<string>)

  /** The regex engine: `search(pattern, text)` is `re.search(pattern, text, flags=re.I)`,
      `sub(pattern, repl, text)` is `re.sub(pattern, repl, text)`. */
  datatype Regex = Regex(search: (string, string) -> Option<Match>, sub: (string, string, string) -> string)

  /** URL handling: `join(base, ref)` is `urljoin(base, ref)` for a non-empty `ref`, and
      `netloc(url)` is `urlparse(url).netloc`. */
  datatype Urls = Urls(join: (string, string) -> string, netloc: string -> string)

  /** An `<a>` element: its `href` attribute (None when absent) and its text as
      `get_text(" ", strip=True)` gives it. */
  datatype Anchor = Anchor(href: Option<string>, text: string)

  /** The numeric pager of a listing page: none, a pager without an active/current item, or
      a current item together with the first anchor after it (`find_next("a")`). */
  datatype Pager = NoPager | NoCurrentItem | CurrentItem(following: Option<Anchor>)

  /** What the detail-page parse extracts before the field guessers run: the text blob of
      the main content region, that region's HTML, and the posted and closing dates the
      date heuristics found. */
  datatype DetailView = DetailView(blob: string, html: string, posted: Option<string>, closing: Option<string>)

  /** A fetched page. `select(sel)` is `soup.select(sel)`, `anchors` is `soup.find_all("a")`,
      and `detail` is the page read as a detail page (None when that parse raises). */
  datatype Page = Page(
    select: string -> seq<Anchor>,
    anchors: seq<Anchor>,
    pager: Pager,
    detail: Option<DetailView>)

  /** The portal: what a GET of each URL returns. A URL outside the map fails to fetch. */
  type Site = map<string, Page>

  /** The fields read from a detail page. */
  datatype Detail = Detail(
    descriptionHtml: Option<string>,
    employmentType: Option<string>,
    workArrangement: Option<string>,
    location: Option<string>,
    salary: Option<string>,
    band: Option<string>,
    postedDate: Option<string>,
    closingDate: Option<string>)

  /** A job record as `scrape` emits it. */
  datatype Record = Record(
    title: Option<string>,
    link: string,
    postedDate: Option<string>,
    closingDate: Option<string>,
    salary: Option<string>,
    band: Option<string>,
    employmentType: Option<string>,
    workArrangement: Option<string>,
    location: Option<string>,
    descriptionHtml: Option<string>)

  datatype ScrapeError = ListingFetchFailed(url: string)

  // ---------------------------------------------------------------------------------------
  // Text helpers.

  /** `_clean_text`: the node's text with whitespace runs collapsed to one blank and the
      ends stripped; "" for a missing node. */
  function CleanText(node: Option<string>): string {
    if node.None? then "" else Strip(Squeeze(node.value))
  }

  /** Clean text has no whitespace at its ends and single blanks inside; a missing node
      gives "". */
  lemma CleanTextShape(node: Option<string>)
    ensures Trimmed(CleanText(node)) && SingleSpaced(CleanText(node))
    ensures node.None? ==> CleanText(node) == ""
  {
    if node.Some? {
      SqueezeShape(node.value);
      StripShape(Squeeze(node.value));
      StripSingleSpaced(Squeeze(node.value));
    }
  }

  /** Cleaning keeps every non-whitespace character, in order. */
  lemma CleanTextKeepsContent(text: string)
    ensures NonSpace(CleanText(Some(text))) == NonSpace(text)
  {
    StripKeepsContent(Squeeze(text));
    SqueezeKeepsContent(text);
  }

  /** Cleaning already-clean text changes nothing. */
  lemma CleanTextIdempotent(node: Option<string>)
    ensures CleanText(Some(CleanText(node))) == CleanText(node)
  {
    CleanTextShape(node);
    var c := CleanText(node);
    SqueezeSingleSpaced(c);
    StripTrimmed(c);
  }

  // ---------------------------------------------------------------------------------------
  // First-match extraction.

  /** The match of the first pattern that matches `text`. */
  function FirstHit(search: (string, string) -> Option<Match>, patterns: seq<string>, text: string): (r: Option<Match>)
    ensures r.None? <==> forall i :: 0 <= i < |patterns| ==> search(patterns[i], text).None?
    ensures r.Some? ==>
      exists i :: 0 <= i < |patterns| && search(patterns[i], text) == r &&
        forall j :: 0 <= j < i ==> search(patterns[j], text).None?
  {
    if patterns == [] then None
    else if search(patterns[0], text).Some? then search(patterns[0], text)
    else
      var r := FirstHit(search, patterns[1..], text);
      assert forall i :: 1 <= i < |patterns| ==> patterns[i] == patterns[1..][i - 1];
      r
  }

  /** The value taken from a match: the group `loc` if it is non-empty, else the group
      `sal` if it is non-empty, else the whole match; stripped. */
  function Preferred(m: Match): (r: string)
    ensures Trimmed(r)
  {
    var raw :=
      if m.loc.Some? && m.loc.value != "" then m.loc.value
      else if m.sal.Some? && m.sal.value != "" then m.sal.value
      else m.whole;
    StripShape(raw);
    Strip(raw)
  }

  /** What `_extract_with_patterns(text, patterns)` returns: None when no pattern matches,
      otherwise the preferred value of the first pattern's match. */
  function PatternResult(text: Option<string>, patterns: seq<string>, rx: Regex): (r: Option<string>)
    ensures r.None? <==> forall i :: 0 <= i < |patterns| ==> rx.search(patterns[i], text.GetOr("")).None?
    ensures r.Some? ==>
      exists i :: 0 <= i < |patterns| && rx.search(patterns[i], text.GetOr("")).Some? &&
        (forall j :: 0 <= j < i ==> rx.search(patterns[j], text.GetOr("")).None?) &&
        r.value == Preferred(rx.search(patterns[i], text.GetOr("")).value)
  {
    match FirstHit(rx.search, patterns, text.GetOr(""))
    case None => None
    case Some(m) => Some(Preferred(m))
  }

  /** `_extract_with_patterns`: try the patterns in order and return on the first match. */
  method ExtractWithPatterns(text: Option<string>, patterns: seq<string>, rx: Regex) returns (r: Option<string>)
    ensures r == PatternResult(text, patterns, rx)
  {
    var t := if text.Some? then text.value else "";
    for i := 0 to |patterns|
      invariant FirstHit(rx.search, patterns, t) == FirstHit(rx.search, patterns[i..], t)
    {
      assert patterns[i..][1..] == patterns[i + 1..];
      var m := rx.search(patterns[i], t);
      if m.Some? {
        var g := m.value;
        if g.loc.Some? && g.loc.value != "" {
          return Some(Strip(g.loc.value));
        }
        if g.sal.Some? && g.sal.value != "" {
          return Some(Strip(g.sal.value));
        }
        return Some(Strip(g.whole));
      }
    }
    return None;
  }

  /** `_guess_employment_type`: the first employment pattern's value, title-cased; None
      when nothing matched or the value is empty. */
  function GuessEmploymentType(blob: string, rx: Regex): (r: Option<string>)
    ensures var v := PatternResult(Some(blob), EMPLOYMENT_PATTERNS, rx);
      (r.Some? <==> v.Some? && v.value != "")
      && (r.Some? ==> r.value == TitleCase(v.value) && |r.value| == |v.value| && TitleCase(r.value) == r.value)
  {
    var v := PatternResult(Some(blob), EMPLOYMENT_PATTERNS, rx);
    if v.Some? && v.value != "" then
      TitleCaseIdempotent(v.value);
      Some(TitleCase(v.value))
    else None
  }

  /** `_guess_location`: the first location pattern's value with its label removed and
      stripped; None when nothing matched or the value is empty. */
  function GuessLocation(blob: string, rx: Regex): (r: Option<string>)
    ensures var v := PatternResult(Some(blob), LOCATION_PATTERNS, rx);
      (r.Some? <==> v.Some? && v.value != "")
      && (r.Some? ==> r.value == Strip(rx.sub(LOCATION_LABEL, "", v.value)) && Trimmed(r.value))
  {
    var v := PatternResult(Some(blob), LOCATION_PATTERNS, rx);
    if v.Some? && v.value != "" then
      StripShape(rx.sub(LOCATION_LABEL, "", v.value));
      Some(Strip(rx.sub(LOCATION_LABEL, "", v.value)))
    else None
  }

  /** `_guess_salary`. */
  function GuessSalary(blob: string, rx: Regex): Option<string> {
    PatternResult(Some(blob), SALARY_PATTERNS, rx)
  }

  /** `_guess_band`: the whole match of the first band pattern that matches, stripped. */
  function GuessBand(blob: string, rx: Regex): (r: Option<string>)
    ensures r.None? <==> forall i :: 0 <= i < |BAND_PATTERNS| ==> rx.search(BAND_PATTERNS[i], blob).None?
    ensures r.Some? ==>
      exists i :: 0 <= i < |BAND_PATTERNS| && rx.search(BAND_PATTERNS[i], blob).Some? &&
        (forall j :: 0 <= j < i ==> rx.search(BAND_PATTERNS[j], blob).None?) &&
        r.value == Strip(rx.search(BAND_PATTERNS[i], blob).value.whole)
    ensures r.Some? ==> Trimmed(r.value)
  {
    match FirstHit(rx.search, BAND_PATTERNS, blob)
    case None => None
    case Some(m) => StripShape(m.whole); Some(Strip(m.whole))
  }

  // ---------------------------------------------------------------------------------------
  // Detail pages.

  /** The record fields of a detail page that did not fail: `_parse_detail_page`. */
  function ParseDetail(view: DetailView, rx: Regex): Detail {
    Detail(
      Some(view.html),
      GuessEmploymentType(view.blob, rx),
      None,
      GuessLocation(view.blob, rx),
      GuessSalary(view.blob, rx),
      GuessBand(view.blob, rx),
      view.posted,
      view.closing)
  }

  /** The minimal detail used when fetching or parsing the detail page raises. */
  const MINIMAL_DETAIL: Detail := Detail(None, None, None, None, None, None, None, None)

  /** The detail fields for `link`: parsed from its page, or minimal when the fetch or the
      parse fails. */
  function DetailFor(site: Site, link: string, rx: Regex): (d: Detail)
    ensures d.workArrangement.None?
    ensures link !in site || site[link].detail.None? ==> d == MINIMAL_DETAIL
  {
    if link in site && site[link].detail.Some? then ParseDetail(site[link].detail.value, rx)
    else MINIMAL_DETAIL
  }

  // ---------------------------------------------------------------------------------------
  // Listing cards.

  /** `a.get("href")` is truthy. */
  predicate HasHref(a: Anchor) {
    a.href.Some? && a.href.value != ""
  }

  function HrefOf(a: Anchor): Option<string> {
    a.href
  }

  /** The anchors with an href of the first selector group that has any. */
  function ProductiveGroup(page: Page, selectors: seq<string>): (g: seq<Anchor>)
    ensures g == [] <==> forall k :: 0 <= k < |selectors| ==> Filter(HasHref, page.select(selectors[k])) == []
    ensures g != [] ==>
      exists k :: 0 <= k < |selectors| && g == Filter(HasHref, page.select(selectors[k])) &&
        forall j :: 0 <= j < k ==> Filter(HasHref, page.select(selectors[j])) == []
  {
    if selectors == [] then []
    else
      var here := Filter(HasHref, page.select(selectors[0]));
      if here != [] then here
      else
        var g := ProductiveGroup(page, selectors[1..]);
        assert forall k :: 1 <= k < |selectors| ==> selectors[k] == selectors[1..][k - 1];
        g
  }

  /** What `_find_listing_cards` returns: the first productive selector group, with only
      the first anchor kept for each href. */
  function ListingCards(page: Page): seq<Anchor> {
    DedupeBy(ProductiveGroup(page, CARD_SELECTORS), HrefOf)
  }

  /** Every anchor of a filtered group has a non-empty href. */
  lemma {:induction false} FilterHasHref(s: seq<Anchor>)
    ensures forall i :: 0 <= i < |Filter(HasHref, s)| ==> HasHref(Filter(HasHref, s)[i])
  {
    FilterMembers(HasHref, s);
    forall i | 0 <= i < |Filter(HasHref, s)| ensures HasHref(Filter(HasHref, s)[i]) {
      assert Filter(HasHref, s)[i] in Filter(HasHref, s);
    }
  }

  /** The cards come from the first selector group that yields any anchor with an href
      (there are none only when no group yields one); every card has a non-empty href; no
      two cards share an href; every href of that group has its card, which is the group's
      first anchor with that href; and the cards keep the group's order. */
  lemma ListingCardsProperties(page: Page)
    ensures ListingCards(page) == [] <==>
      forall k :: 0 <= k < |CARD_SELECTORS| ==> Filter(HasHref, page.select(CARD_SELECTORS[k])) == []
    ensures forall i :: 0 <= i < |ListingCards(page)| ==> HasHref(ListingCards(page)[i])
    ensures forall i, j :: 0 <= i < j < |ListingCards(page)| ==> ListingCards(page)[i].href != ListingCards(page)[j].href
    ensures var g := ProductiveGroup(page, CARD_SELECTORS);
      KeysOf(ListingCards(page), HrefOf) == KeysOf(g, HrefOf)
    ensures var g := ProductiveGroup(page, CARD_SELECTORS);
      forall j :: 0 <= j < |ListingCards(page)| ==>
        HrefOf(ListingCards(page)[j]) in KeysOf(g, HrefOf) &&
        ListingCards(page)[j] == g[FirstIndex(g, HrefOf, HrefOf(ListingCards(page)[j]))]
    ensures var g := ProductiveGroup(page, CARD_SELECTORS);
      forall j1, j2 :: 0 <= j1 < j2 < |ListingCards(page)| ==>
        FirstIndex(g, HrefOf, HrefOf(ListingCards(page)[j1])) < FirstIndex(g, HrefOf, HrefOf(ListingCards(page)[j2]))
  {
    ListingCardsShape(page);
    FirstCardsOfGroup(ProductiveGroup(page, CARD_SELECTORS));
  }

  /** Deduplicating a group by href keeps every href, as its first anchor, in order. */
  lemma FirstCardsOfGroup(g: seq<Anchor>)
    ensures KeysOf(DedupeBy(g, HrefOf), HrefOf) == KeysOf(g, HrefOf)
    ensures forall j :: 0 <= j < |DedupeBy(g, HrefOf)| ==>
      HrefOf(DedupeBy(g, HrefOf)[j]) in KeysOf(g, HrefOf) &&
      DedupeBy(g, HrefOf)[j] == g[FirstIndex(g, HrefOf, HrefOf(DedupeBy(g, HrefOf)[j]))]
    ensures forall j1, j2 :: 0 <= j1 < j2 < |DedupeBy(g, HrefOf)| ==>
      FirstIndex(g, HrefOf, HrefOf(DedupeBy(g, HrefOf)[j1])) < FirstIndex(g, HrefOf, HrefOf(DedupeBy(g, HrefOf)[j2]))
  {
    DedupeFirstOccurrences(g, HrefOf);
    DedupeKeys(g, HrefOf);
  }

  /** The cards are empty exactly when no group is productive, and have distinct,
      non-empty hrefs. */
  lemma ListingCardsShape(page: Page)
    ensures ListingCards(page) == [] <==>
      forall k :: 0 <= k < |CARD_SELECTORS| ==> Filter(HasHref, page.select(CARD_SELECTORS[k])) == []
    ensures forall i :: 0 <= i < |ListingCards(page)| ==> HasHref(ListingCards(page)[i])
    ensures forall i, j :: 0 <= i < j < |ListingCards(page)| ==> ListingCards(page)[i].href != ListingCards(page)[j].href
  {
    var g := ProductiveGroup(page, CARD_SELECTORS);
    var cards := DedupeBy(g, HrefOf);
    DedupeEmpty(g, HrefOf);
    DedupeMembers(g, HrefOf);
    DedupeDistinct(g, HrefOf);
    if g != [] {
      var k :| 0 <= k < |CARD_SELECTORS| && g == Filter(HasHref, page.select(CARD_SELECTORS[k]));
      FilterMembers(HasHref, page.select(CARD_SELECTORS[k]));
      forall i | 0 <= i < |cards| ensures HasHref(cards[i]) {
        assert cards[i] in g;
      }
    }
    forall i, j | 0 <= i < j < |cards| ensures cards[i].href != cards[j].href {
      assert HrefOf(cards[i]) != HrefOf(cards[j]);
    }
  }

  /** The anchors of one selector's result that have an href, in document order. */
  method AnchorsWithHref(found: seq<Anchor>) returns (cards: seq<Anchor>)
    ensures cards == Filter(HasHref, found)
  {
    cards := [];
    for j := 0 to |found|
      invariant cards == Filter(HasHref, found[..j])
    {
      assert found[..j + 1] == found[..j] + [found[j]];
      FilterAppend(HasHref, found[..j], [found[j]]);
      if HasHref(found[j]) {
        cards := cards + [found[j]];
      }
    }
    assert found[..|found|] == found;
  }

  /** The first half of `_find_listing_cards`: the anchors with an href of each selector
      group in turn, stopping at the first group that yields some. */
  method CollectCards(page: Page) returns (cards: seq<Anchor>)
    ensures cards == ProductiveGroup(page, CARD_SELECTORS)
    ensures forall i :: 0 <= i < |cards| ==> HasHref(cards[i])
  {
    cards := [];
    var k := 0;
    while k < |CARD_SELECTORS| && cards == []
      invariant 0 <= k <= |CARD_SELECTORS|
      invariant cards == [] ==> ProductiveGroup(page, CARD_SELECTORS) == ProductiveGroup(page, CARD_SELECTORS[k..])
      invariant cards != [] ==> ProductiveGroup(page, CARD_SELECTORS) == cards
      invariant forall i :: 0 <= i < |cards| ==> HasHref(cards[i])
    {
      var found := page.select(CARD_SELECTORS[k]);
      cards := AnchorsWithHref(found);
      FilterHasHref(found);
      assert CARD_SELECTORS[k..][1..] == CARD_SELECTORS[k + 1..];
      k := k + 1;
    }
  }

  /** The second half of `_find_listing_cards`: keep an anchor only when its href is
      truthy and not yet in `seen`. */
  method DedupeCards(cards: seq<Anchor>) returns (uniq: seq<Anchor>)
    requires forall i :: 0 <= i < |cards| ==> HasHref(cards[i])
    ensures uniq == DedupeBy(cards, HrefOf)
  {
    var seen: set<Option<string>> := {};
    uniq := [];
    for i := 0 to |cards|
      invariant uniq == DedupeBy(cards[..i], HrefOf)
      invariant seen == KeysOf(cards[..i], HrefOf)
    {
      var href := cards[i].href;
      assert cards[..i + 1] == cards[..i] + [cards[i]];
      DedupeStep(cards[..i], cards[i], HrefOf);
      if href.Some? && href.value != "" && href !in seen {
        seen := seen + {href};
        uniq := uniq + [cards[i]];
      }
    }
    assert cards[..|cards|] == cards;
  }

  /** `_find_listing_cards`: collect the anchors with an href of each selector group until
      one group yields some, then drop anchors whose href was already seen. */
  method FindListingCards(page: Page) returns (uniq: seq<Anchor>)
    ensures uniq == ListingCards(page)
  {
    var cards := CollectCards(page);
    uniq := DedupeCards(cards);
  }

  // ---------------------------------------------------------------------------------------
  // Pagination.

  /** `urljoin(base, href)`, which returns `base` itself for a missing or empty href. */
  function Resolve(urls: Urls, base: string, href: Option<string>): string {
    if href.None? || href.value == "" then base else urls.join(base, href.value)
  }

  /** An anchor whose cleaned, lower-cased text is "next", "older" or "more jobs" and that
      has an href. */
  predicate IsNextText(a: Anchor) {
    Lower(CleanText(Some(a.text))) in NEXT_TEXTS && HasHref(a)
  }

  /** What `_paginate(base, page)` returns. */
  function NextLink(page: Page, base: string, urls: Urls): Option<string> {
    match FirstWhere(HasHref, page.select(REL_NEXT))
    case Some(a) => Some(urls.join(base, a.href.value))
    case None =>
      match FirstWhere(IsNextText, page.anchors)
      case Some(a) => Some(urls.join(base, a.href.value))
      case None =>
        match page.pager
        case CurrentItem(Some(a)) => Some(Resolve(urls, base, a.href))
        case _ => None
  }

  /** The first rel=next anchor with an href decides the next page. */
  lemma NextLinkRelNext(page: Page, base: string, urls: Urls, i: int)
    requires 0 <= i < |page.select(REL_NEXT)| && HasHref(page.select(REL_NEXT)[i])
    requires forall j :: 0 <= j < i ==> !HasHref(page.select(REL_NEXT)[j])
    ensures NextLink(page, base, urls) == Some(urls.join(base, page.select(REL_NEXT)[i].href.value))
  {
    FirstWhereAt(HasHref, page.select(REL_NEXT), i);
  }

  /** Without a usable rel=next anchor, the first anchor with next-page text and an href
      decides the next page. */
  lemma NextLinkByText(page: Page, base: string, urls: Urls, i: int)
    requires forall j :: 0 <= j < |page.select(REL_NEXT)| ==> !HasHref(page.select(REL_NEXT)[j])
    requires 0 <= i < |page.anchors| && IsNextText(page.anchors[i])
    requires forall j :: 0 <= j < i ==> !IsNextText(page.anchors[j])
    ensures NextLink(page, base, urls) == Some(urls.join(base, page.anchors[i].href.value))
  {
    FirstWhereAt(IsNextText, page.anchors, i);
  }

  /** Without either kind of link, only the anchor after the pager's current item gives a
      next page; that anchor without an href leads back to the current page, which ends
      the crawl. */
  lemma NextLinkByPager(page: Page, base: string, urls: Urls)
    requires forall j :: 0 <= j < |page.select(REL_NEXT)| ==> !HasHref(page.select(REL_NEXT)[j])
    requires forall j :: 0 <= j < |page.anchors| ==> !IsNextText(page.anchors[j])
    ensures page.pager.CurrentItem? && page.pager.following.Some? ==>
      NextLink(page, base, urls) == Some(Resolve(urls, base, page.pager.following.value.href))
    ensures page.pager.CurrentItem? && page.pager.following.Some? && !HasHref(page.pager.following.value) ==>
      NextLink(page, base, urls) == Some(base)
    ensures !(page.pager.CurrentItem? && page.pager.following.Some?) ==> NextLink(page, base, urls).None?
  {
    FirstWhereNone(HasHref, page.select(REL_NEXT));
    FirstWhereNone(IsNextText, page.anchors);
  }

  /** `_paginate`: try rel=next anchors, then anchors by text, then the numeric pager. */
  method Paginate(base: string, page: Page, urls: Urls) returns (next: Option<string>)
    ensures next == NextLink(page, base, urls)
  {
    var rel := page.select(REL_NEXT);
    for i := 0 to |rel|
      invariant FirstWhere(HasHref, rel) == FirstWhere(HasHref, rel[i..])
    {
      assert rel[i..][1..] == rel[i + 1..];
      var href := rel[i].href;
      if href.Some? && href.value != "" {
        return Some(urls.join(base, href.value));
      }
    }
    for i := 0 to |page.anchors|
      invariant FirstWhere(IsNextText, page.anchors) == FirstWhere(IsNextText, page.anchors[i..])
    {
      assert page.anchors[i..][1..] == page.anchors[i + 1..];
      var a := page.anchors[i];
      if IsNextText(a) {
        return Some(urls.join(base, a.href.value));
      }
    }
    if page.pager.CurrentItem? && page.pager.following.Some? {
      return Some(Resolve(urls, base, page.pager.following.value.href));
    }
    return None;
  }

  // ---------------------------------------------------------------------------------------
  // Records of one listing page.

  /** The link guard: the link's host is under applynow.net.au, or the link has an
      "/applynow/" or "/job" path piece. */
  predicate PassesGuard(urls: Urls, link: string) {
    Contains(urls.netloc(link), "applynow.net.au") || Contains(link, "/applynow/") || Contains(link, "/job")
  }

  /** The record one card contributes on the page at `base`, or None when the card is
      skipped (an empty stripped href, or a link that fails the guard). */
  function CardRecord(site: Site, urls: Urls, rx: Regex, base: string, a: Anchor): Option<Record> {
    var title := CleanText(Some(a.text));
    var href := Strip(a.href.GetOr(""));
    if href == "" then None
    else
      var link := urls.join(base, href);
      if !PassesGuard(urls, link) then None
      else
        var d := DetailFor(site, link, rx);
        Some(Record(
          if title == "" then None else Some(title),
          link, d.postedDate, d.closingDate, d.salary, d.band,
          d.employmentType, d.workArrangement, d.location, d.descriptionHtml))
  }

  function OptionToSeq<T>(o: Option<T>): seq<T> {
    if o.Some? then [o.value] else []
  }

  /** The records of `cards`, in card order. */
  function CardRecords(site: Site, urls: Urls, rx: Regex, base: string, cards: seq<Anchor>): seq<Record> {
    if cards == [] then []
    else CardRecords(site, urls, rx, base, cards[..|cards| - 1]) + OptionToSeq(CardRecord(site, urls, rx, base, cards[|cards| - 1]))
  }

  /** The records of the listing page at `url`. */
  function PageRecords(site: Site, urls: Urls, rx: Regex, url: string): seq<Record>
    requires url in site
  {
    CardRecords(site, urls, rx, url, ListingCards(site[url]))
  }

  /** A card's record: it exists exactly when the stripped href is non-empty and the joined
      link passes the guard; its title is the cleaned card text, None when that is empty;
      work_arrangement is always None; and when the detail page fails, the title and link
      are kept and every detail field is None. */
  lemma CardRecordProperties(site: Site, urls: Urls, rx: Regex, base: string, a: Anchor)
    ensures var href := Strip(a.href.GetOr(""));
      CardRecord(site, urls, rx, base, a).Some? <==> href != "" && PassesGuard(urls, urls.join(base, href))
    ensures CardRecord(site, urls, rx, base, a).Some? ==>
      var rec := CardRecord(site, urls, rx, base, a).value;
      var title := CleanText(Some(a.text));
      && rec.link == urls.join(base, Strip(a.href.GetOr("")))
      && rec.title == (if title == "" then None else Some(title))
      && rec.workArrangement.None?
      && (rec.link !in site || site[rec.link].detail.None? ==>
            rec == Record(rec.title, rec.link, None, None, None, None, None, None, None, None))
  {
  }

  /** Every record of a page passes the guard, has no work arrangement and has no empty
      title. */
  predicate WellFormed(urls: Urls, rec: Record) {
    PassesGuard(urls, rec.link) && rec.workArrangement.None? && (rec.title.Some? ==> rec.title.value != "")
  }

  lemma CardRecordWellFormed(site: Site, urls: Urls, rx: Regex, base: string, a: Anchor)
    ensures CardRecord(site, urls, rx, base, a).Some? ==> WellFormed(urls, CardRecord(site, urls, rx, base, a).value)
  {
  }

  lemma {:induction false} CardRecordsWellFormed(site: Site, urls: Urls, rx: Regex, base: string, cards: seq<Anchor>)
    ensures forall rec :: rec in CardRecords(site, urls, rx, base, cards) ==> WellFormed(urls, rec)
  {
    if cards != [] {
      var init := cards[..|cards| - 1];
      CardRecordsWellFormed(site, urls, rx, base, init);
      CardRecordWellFormed(site, urls, rx, base, cards[|cards| - 1]);
      assert CardRecords(site, urls, rx, base, cards)
        == CardRecords(site, urls, rx, base, init) + OptionToSeq(CardRecord(site, urls, rx, base, cards[|cards| - 1]));
    }
  }

  // ---------------------------------------------------------------------------------------
  // The crawl.

  /** What one listing page yields: its records and its next link. */
  datatype PageResult = PageResult(records: seq<Record>, next: Option<string>)

  function ReadPage(site: Site, urls: Urls, rx: Regex, url: string): PageResult
    requires url in site
  {
    PageResult(PageRecords(site, urls, rx, url), NextLink(site[url], url, urls))
  }

  /** The result of every listing page of the portal; a URL without one fails to fetch. */
  function Results(site: Site, urls: Urls, rx: Regex): (res: map<string, PageResult>)
    ensures res.Keys == site.Keys
  {
    map u | u in site :: ReadPage(site, urls, rx, u)
  }

  /** `res` holds the result of every listing page of the portal and nothing else. The
      trigger keeps the page contents out of reasoning that only follows the links. */
  ghost predicate ReadsAs(res: map<string, PageResult>, site: Site, urls: Urls, rx: Regex) {
    && res.Keys == site.Keys
    && forall u {:trigger ReadPage(site, urls, rx, u)} :: u in site ==> res[u] == ReadPage(site, urls, rx, u)
  }

  lemma ResultsReadAs(site: Site, urls: Urls, rx: Regex)
    ensures ReadsAs(Results(site, urls, rx), site, urls, rx)
  {
  }

  /** The crawl goes on with `next`: it is a non-empty URL not visited yet. */
  predicate Continues(next: Option<string>, visited: set<string>) {
    next.Some? && next.value != "" && next.value !in visited
  }

  /** The listing URLs fetched, in order, and the outcome. */
  datatype Crawl = Crawl(visits: seq<string>, outcome: Result<seq<Record>, ScrapeError>)

  lemma VisitShrinks(keys: set<string>, visited: set<string>, url: string)
    requires url in keys && url !in visited
    ensures |keys - (visited + {url})| < |keys - visited|
  {
    assert keys - visited == (keys - (visited + {url})) + {url};
  }

  /** The rest of a crawl that is about to follow `next` having fetched `visited`. */
  function CrawlFrom(res: map<string, PageResult>, next: Option<string>, visited: set<string>): Crawl
    decreases |res.Keys - visited|
  {
    if !Continues(next, visited) then Crawl([], Ok([]))
    else
      var url := next.value;
      if url !in res then Crawl([url], Err(ListingFetchFailed(url)))
      else
        VisitShrinks(res.Keys, visited, url);
        var rest := CrawlFrom(res, res[url].next, visited + {url});
        Crawl([url] + rest.visits, if rest.outcome.Ok? then Ok(res[url].records + rest.outcome.value) else rest.outcome)
  }

  /** What `scrape(start_url)` does. */
  function Crawled(site: Site, urls: Urls, rx: Regex, startUrl: string): Crawl {
    CrawlFrom(Results(site, urls, rx), Some(startUrl), {})
  }

  /** A crawl prefixed with pages already fetched and records already collected. */
  function Prepend(visits: seq<string>, records: seq<Record>, c: Crawl): Crawl {
    Crawl(visits + c.visits, if c.outcome.Ok? then Ok(records + c.outcome.value) else c.outcome)
  }

  /** The records of the listing pages `visits`, page after page. */
  function AllRecords(res: map<string, PageResult>, visits: seq<string>): seq<Record>
    requires AllFetched(res, visits)
  {
    if visits == [] then [] else res[visits[0]].records + AllRecords(res, visits[1..])
  }

  /** No listing URL is fetched twice, and none that was visited before. */
  lemma {:induction false} CrawlVisitsFresh(res: map<string, PageResult>, next: Option<string>, visited: set<string>)
    ensures forall i :: 0 <= i < |CrawlFrom(res, next, visited).visits| ==> CrawlFrom(res, next, visited).visits[i] !in visited
    ensures forall i, j :: 0 <= i < j < |CrawlFrom(res, next, visited).visits| ==>
      CrawlFrom(res, next, visited).visits[i] != CrawlFrom(res, next, visited).visits[j]
    decreases |res.Keys - visited|
  {
    if Continues(next, visited) && next.value in res {
      var url := next.value;
      VisitShrinks(res.Keys, visited, url);
      CrawlVisitsFresh(res, res[url].next, visited + {url});
      var rest := CrawlFrom(res, res[url].next, visited + {url}).visits;
      assert forall i :: 0 <= i < |rest| ==> rest[i] !in visited + {url};
      var v := CrawlFrom(res, next, visited).visits;
      assert v == [url] + rest;
      assert forall i :: 1 <= i < |v| ==> v[i] == rest[i - 1];
      forall i | 0 <= i < |v| ensures v[i] !in visited {
        if i > 0 {
          assert rest[i - 1] !in visited + {url};
        }
      }
      forall i, j | 0 <= i < j < |v| ensures v[i] != v[j] {
        assert rest[j - 1] !in visited + {url};
        if i > 0 {
          assert rest[i - 1] != rest[j - 1];
        }
      }
    }
  }

  /** Each listing page but the last of `v` fetched, and its next link is the page after it. */
  predicate FollowsLinks(res: map<string, PageResult>, v: seq<string>) {
    forall i :: 0 <= i < |v| - 1 ==> v[i] in res && res[v[i]].next == Some(v[i + 1])
  }

  /** The crawl starts at `next` when that link is followed, and each listing page fetched
      after the first is the next link of the page before it. */
  lemma {:induction false} CrawlFollowsLinks(res: map<string, PageResult>, next: Option<string>, visited: set<string>)
    ensures CrawlFrom(res, next, visited).visits == [] <==> !Continues(next, visited)
    ensures CrawlFrom(res, next, visited).visits != [] ==> CrawlFrom(res, next, visited).visits[0] == next.value
    ensures FollowsLinks(res, CrawlFrom(res, next, visited).visits)
    decreases |res.Keys - visited|
  {
    if Continues(next, visited) && next.value in res {
      var url := next.value;
      VisitShrinks(res.Keys, visited, url);
      CrawlFollowsLinks(res, res[url].next, visited + {url});
      var rest := CrawlFrom(res, res[url].next, visited + {url}).visits;
      var v := CrawlFrom(res, next, visited).visits;
      assert v == [url] + rest;
      assert forall i :: 1 <= i < |v| ==> v[i] == rest[i - 1];
    }
  }

  /** Every listing page of `v` fetched. */
  predicate AllFetched(res: map<string, PageResult>, v: seq<string>) {
    forall i :: 0 <= i < |v| ==> v[i] in res
  }

  /** A crawl without error fetched every page it visited and returns their records. */
  predicate OkShape(res: map<string, PageResult>, c: Crawl) {
    c.outcome.Ok? ==> AllFetched(res, c.visits) && c.outcome.value == AllRecords(res, c.visits)
  }

  /** A failed crawl fetched every page it visited but the last, which it names. */
  predicate ErrShape(res: map<string, PageResult>, c: Crawl) {
    c.outcome.Err? ==>
      && c.visits != []
      && AllFetched(res, c.visits[..|c.visits| - 1])
      && c.visits[|c.visits| - 1] !in res
      && c.outcome.error == ListingFetchFailed(c.visits[|c.visits| - 1])
  }

  /** A crawl that ends without error fetched every listing page it visited and returns
      their records in visiting order. */
  lemma {:induction false} CrawlOkOutcome(res: map<string, PageResult>, next: Option<string>, visited: set<string>)
    ensures OkShape(res, CrawlFrom(res, next, visited))
    decreases |res.Keys - visited|
  {
    if Continues(next, visited) && next.value in res {
      var url := next.value;
      VisitShrinks(res.Keys, visited, url);
      CrawlOkOutcome(res, res[url].next, visited + {url});
      var rest := CrawlFrom(res, res[url].next, visited + {url});
      var c := CrawlFrom(res, next, visited);
      if c.outcome.Ok? {
        assert c.visits == [url] + rest.visits;
        assert c.visits[1..] == rest.visits;
        assert forall i :: 1 <= i < |c.visits| ==> c.visits[i] == rest.visits[i - 1];
      }
    }
  }

  /** A crawl that fails stops at the first listing page that does not fetch, after
      fetching all the earlier ones. */
  lemma {:induction false} CrawlErrOutcome(res: map<string, PageResult>, next: Option<string>, visited: set<string>)
    ensures ErrShape(res, CrawlFrom(res, next, visited))
    decreases |res.Keys - visited|
  {
    if Continues(next, visited) && next.value in res {
      var url := next.value;
      VisitShrinks(res.Keys, visited, url);
      CrawlErrOutcome(res, res[url].next, visited + {url});
      var rest := CrawlFrom(res, res[url].next, visited + {url});
      var c := CrawlFrom(res, next, visited);
      if c.outcome.Err? {
        assert c.visits == [url] + rest.visits;
        var init := rest.visits[..|rest.visits| - 1];
        assert c.visits[..|c.visits| - 1] == [url] + init;
        assert forall i :: 1 <= i < |c.visits| - 1 ==> c.visits[i] == init[i - 1];
        assert c.visits[|c.visits| - 1] == rest.visits[|rest.visits| - 1];
      }
    }
  }

  /** The last page of a crawl without error fetched, and its next link is missing, empty
      or already visited. */
  predicate StopsAtEnd(res: map<string, PageResult>, c: Crawl, visited: set<string>) {
    c.outcome.Ok? && c.visits != [] ==>
      && c.visits[|c.visits| - 1] in res
      && !Continues(res[c.visits[|c.visits| - 1]].next, visited + Elems(c.visits))
  }

  /** A crawl that ends without error stops because the last page's next link is missing,
      empty or already visited. */
  lemma {:induction false} CrawlStopsAtEnd(res: map<string, PageResult>, next: Option<string>, visited: set<string>)
    ensures StopsAtEnd(res, CrawlFrom(res, next, visited), visited)
    decreases |res.Keys - visited|
  {
    if Continues(next, visited) && next.value in res {
      var url := next.value;
      VisitShrinks(res.Keys, visited, url);
      CrawlStopsAtEnd(res, res[url].next, visited + {url});
      var rest := CrawlFrom(res, res[url].next, visited + {url});
      var c := CrawlFrom(res, next, visited);
      assert c.visits == [url] + rest.visits;
      assert c.visits[1..] == rest.visits;
      if rest.visits != [] {
        assert c.visits[|c.visits| - 1] == rest.visits[|rest.visits| - 1];
      }
    }
  }

  /** Every listing URL fetched but the last fetched successfully, so the crawl fetches at
      most one URL more than the portal has pages not visited yet. */
  lemma CrawlBounded(res: map<string, PageResult>, next: Option<string>, visited: set<string>)
    ensures |CrawlFrom(res, next, visited).visits| <= |res.Keys - visited| + 1
  {
    var c := CrawlFrom(res, next, visited);
    CrawlVisitsFresh(res, next, visited);
    CrawlOkOutcome(res, next, visited);
    CrawlErrOutcome(res, next, visited);
    if c.visits != [] {
      var init := c.visits[..|c.visits| - 1];
      assert AllFetched(res, init);
      ElemsDistinct(init);
      ElemsMembers(init);
      assert Elems(init) <= res.Keys - visited;
      SubsetCard(Elems(init), res.Keys - visited);
    }
  }

  lemma SubsetCard(a: set<string>, b: set<string>)
    requires a <= b
    ensures |a| <= |b|
  {
    assert b == a + (b - a);
  }

  /** Every record of every page passes the guard, has no work arrangement and no empty
      title. */
  lemma {:induction false} AllRecordsWellFormed(site: Site, urls: Urls, rx: Regex, visits: seq<string>)
    requires AllFetched(Results(site, urls, rx), visits)
    ensures forall rec :: rec in AllRecords(Results(site, urls, rx), visits) ==> WellFormed(urls, rec)
  {
    if visits != [] {
      AllRecordsWellFormed(site, urls, rx, visits[1..]);
      CardRecordsWellFormed(site, urls, rx, visits[0], ListingCards(site[visits[0]]));
    }
  }

  /** Every record `scrape` returns passes the link guard, has no work arrangement and has
      a non-empty title or none. */
  lemma ScrapeRecordsWellFormed(site: Site, urls: Urls, rx: Regex, startUrl: string)
    ensures Crawled(site, urls, rx, startUrl).outcome.Ok? ==>
      forall rec :: rec in Crawled(site, urls, rx, startUrl).outcome.value ==> WellFormed(urls, rec)
  {
    var res := Results(site, urls, rx);
    CrawlOkOutcome(res, Some(startUrl), {});
    var c := Crawled(site, urls, rx, startUrl);
    if c.outcome.Ok? {
      AllRecordsWellFormed(site, urls, rx, c.visits);
    }
  }

  /** A pager whose anchor after the current item has no href sends the crawl back to the
      page it is on, which is visited, so the crawl ends there. */
  lemma HreflessPagerStops(site: Site, urls: Urls, rx: Regex, url: string, visited: set<string>)
    requires url in site && url in visited
    requires forall j :: 0 <= j < |site[url].select(REL_NEXT)| ==> !HasHref(site[url].select(REL_NEXT)[j])
    requires forall j :: 0 <= j < |site[url].anchors| ==> !IsNextText(site[url].anchors[j])
    requires site[url].pager.CurrentItem? && site[url].pager.following.Some?
    requires !HasHref(site[url].pager.following.value)
    ensures CrawlFrom(Results(site, urls, rx), Results(site, urls, rx)[url].next, visited) == Crawl([], Ok([]))
  {
    NextLinkByPager(site[url], url, urls);
  }

  /** One step of the crawl: a page that fetches contributes its records and the crawl
      goes on from its next link. */
  lemma CrawlStep(res: map<string, PageResult>, next: Option<string>, visited: set<string>)
    requires Continues(next, visited) && next.value in res
    ensures CrawlFrom(res, next, visited)
      == Prepend([next.value], res[next.value].records, CrawlFrom(res, res[next.value].next, visited + {next.value}))
  {
  }

  /** The crawl stops at a missing, empty or already visited next link. */
  lemma CrawlStop(res: map<string, PageResult>, next: Option<string>, visited: set<string>)
    requires !Continues(next, visited)
    ensures CrawlFrom(res, next, visited) == Crawl([], Ok([]))
  {
  }

  lemma PrependEnd(visits: seq<string>, records: seq<Record>)
    ensures Prepend(visits, records, Crawl([], Ok([]))) == Crawl(visits, Ok(records))
  {
    assert visits + [] == visits;
    assert records + [] == records;
  }

  lemma PrependNothing(c: Crawl)
    ensures Prepend([], [], c) == c
  {
    assert [] + c.visits == c.visits;
    if c.outcome.Ok? {
      assert [] + c.outcome.value == c.outcome.value;
    }
  }

  lemma PrependPrepend(v1: seq<string>, r1: seq<Record>, v2: seq<string>, r2: seq<Record>, c: Crawl)
    ensures Prepend(v1, r1, Prepend(v2, r2, c)) == Prepend(v1 + v2, r1 + r2, c)
  {
    assert v1 + (v2 + c.visits) == (v1 + v2) + c.visits;
    if c.outcome.Ok? {
      assert r1 + (r2 + c.outcome.value) == (r1 + r2) + c.outcome.value;
    }
  }

  /** One pass of `scrape`'s loop keeps what is fetched so far followed by the rest of the
      crawl unchanged. */
  lemma ScrapeStep(res: map<string, PageResult>, next: Option<string>, visited: set<string>,
                   fetched: seq<string>, results: seq<Record>, here: seq<Record>, following: Option<string>)
    requires Continues(next, visited) && next.value in res
    requires res[next.value] == PageResult(here, following)
    ensures Prepend(fetched, results, CrawlFrom(res, next, visited))
      == Prepend(fetched + [next.value], results + here, CrawlFrom(res, following, visited + {next.value}))
  {
    CrawlStep(res, next, visited);
    PrependPrepend(fetched, results, [next.value], here, CrawlFrom(res, following, visited + {next.value}));
  }

  /** The body of `scrape`'s card loop: the record of each card, skipping the cards that
      give none. */
  method RecordsOfCards(site: Site, urls: Urls, rx: Regex, url: string, cards: seq<Anchor>) returns (recs: seq<Record>)
    ensures recs == CardRecords(site, urls, rx, url, cards)
  {
    recs := [];
    for i := 0 to |cards|
      invariant recs == CardRecords(site, urls, rx, url, cards[..i])
    {
      assert cards[..i + 1][..i] == cards[..i];
      var rec := CardRecord(site, urls, rx, url, cards[i]);
      if rec.Some? {
        recs := recs + [rec.value];
      }
    }
    assert cards[..|cards|] == cards;
  }

  /** One pass of `scrape`'s loop over a listing page that fetched: its cards, their
      records and its next link. */
  method ReadListingPage(site: Site, urls: Urls, rx: Regex, ghost res: map<string, PageResult>, url: string)
    returns (here: seq<Record>, following: Option<string>)
    requires url in site && ReadsAs(res, site, urls, rx)
    ensures res[url] == PageResult(here, following)
  {
    var page := site[url];
    var cards := FindListingCards(page);
    here := RecordsOfCards(site, urls, rx, url, cards);
    following := Paginate(url, page, urls);
    assert res[url] == ReadPage(site, urls, rx, url);
  }

  /** `scrape`'s loop: follow next-page links from `startUrl` until there is none or it
      was already visited, collecting the records of each page. `fetched` lists the listing
      URLs fetched. A listing page that fails to fetch ends the scrape with an error. */
  method FollowListings(site: Site, urls: Urls, rx: Regex, ghost res: map<string, PageResult>, startUrl: string)
    returns (r: Result<seq<Record>, ScrapeError>, ghost fetched: seq<string>)
    requires ReadsAs(res, site, urls, rx)
    ensures r == CrawlFrom(res, Some(startUrl), {}).outcome
    ensures Crawl(fetched, r) == CrawlFrom(res, Some(startUrl), {})
  {
    var results: seq<Record> := [];
    var next: Option<string> := Some(startUrl);
    var visited: set<string> := {};
    fetched := [];
    PrependNothing(CrawlFrom(res, next, visited));
    while Continues(next, visited)
      invariant Prepend(fetched, results, CrawlFrom(res, next, visited)) == CrawlFrom(res, Some(startUrl), {})
      decreases |site.Keys - visited|
    {
      var url := next.value;
      if url !in site {
        fetched := fetched + [url];
        r := Err(ListingFetchFailed(url));
        return;
      }
      VisitShrinks(site.Keys, visited, url);
      var here, following := ReadListingPage(site, urls, rx, res, url);
      ScrapeStep(res, next, visited, fetched, results, here, following);
      results := results + here;
      visited := visited + {url};
      next := following;
      fetched := fetched + [url];
    }
    CrawlStop(res, next, visited);
    PrependEnd(fetched, results);
    r := Ok(results);
  }

  /** `scrape(start_url)`: the crawl of the portal's listing pages from `startUrl`. */
  method Scrape(site: Site, urls: Urls, rx: Regex, startUrl: string)
    returns (r: Result<seq<Record>, ScrapeError>, ghost fetched: seq<string>)
    ensures r == Crawled(site, urls, rx, startUrl).outcome
    ensures Crawl(fetched, r) == Crawled(site, urls, rx, startUrl)
  {
    ResultsReadAs(site, urls, rx);
    r, fetched := FollowListings(site, urls, rx, Results(site, urls, rx), startUrl);
  }
}
