/** The Pulse collector (`collectors/pulse_api.py`): the URLs derived from the start URL,
    the band guessed from a title, the mapping of each job row of the JSON answer to a
    record, and the final deduplication by link.

    The HTTP request and JSON decoding, `urljoin` and `quote` are supplied from outside
    through `PulseEnv`. */
module Pulse {
  import opened Wrappers
  import opened Strings
  import opened Sequences

  /** One record the collector emits; every field is a string. */
  datatype PulseRecord = PulseRecord(
    title: string,
    link: string,
    description: string,
    category: string,
    salary: string,
    closing: string,
    council: string,
    location: string,
    employmentType: string,
    workArrangement: string,
    department: string)

  function LinkOf(r: PulseRecord): string {
    r.link
  }

  // ---------------------------------------------------------------------------------------
  // dedupe_by_link

  /** `dedupe_by_link(rows)`: a row whose link is already in `seen` is skipped, otherwise
      its link is added to `seen` and the row is kept. */
  method DedupeByLink(rows: seq<PulseRecord>) returns (out: seq<PulseRecord>)
    ensures out == DedupeBy(rows, LinkOf)
  {
    var seen: set<string> := {};
    out := [];
    for i := 0 to |rows|
      invariant out == DedupeBy(rows[..i], LinkOf)
      invariant seen == KeysOf(rows[..i], LinkOf)
    {
      assert rows[..i + 1] == rows[..i] + [rows[i]];
      DedupeStep(rows[..i], rows[i], LinkOf);
      out, seen := KeepIfNew(rows[i], out, seen);
    }
    assert rows[..|rows|] == rows;
  }

  /** One row of `dedupe_by_link`: skip it when its link was seen, otherwise remember the
      link and keep the row. */
  method KeepIfNew(r: PulseRecord, out0: seq<PulseRecord>, seen0: set<string>) returns (out: seq<PulseRecord>, seen: set<string>)
    ensures out == out0 + (if LinkOf(r) in seen0 then [] else [r])
    ensures seen == seen0 + {LinkOf(r)}
  {
    if r.link in seen0 {
      assert out0 + [] == out0;
      return out0, seen0;
    }
    seen := seen0 + {r.link};
    out := out0 + [r];
  }

  /** What `dedupe_by_link` promises: no two kept rows share a link; each kept row is the
      first input row with its link, and the kept rows appear in input order (a
      subsequence); the set of links is unchanged; and deduplicating again changes
      nothing. */
  lemma DedupeByLinkProperties(rows: seq<PulseRecord>)
    ensures forall i, j :: 0 <= i < j < |DedupeBy(rows, LinkOf)| ==> DedupeBy(rows, LinkOf)[i].link != DedupeBy(rows, LinkOf)[j].link
    ensures forall j :: 0 <= j < |DedupeBy(rows, LinkOf)| ==>
      DedupeBy(rows, LinkOf)[j].link in KeysOf(rows, LinkOf) &&
      DedupeBy(rows, LinkOf)[j] == rows[FirstIndex(rows, LinkOf, DedupeBy(rows, LinkOf)[j].link)]
    ensures forall j1, j2 :: 0 <= j1 < j2 < |DedupeBy(rows, LinkOf)| ==>
      FirstIndex(rows, LinkOf, DedupeBy(rows, LinkOf)[j1].link) < FirstIndex(rows, LinkOf, DedupeBy(rows, LinkOf)[j2].link)
    ensures KeysOf(DedupeBy(rows, LinkOf), LinkOf) == KeysOf(rows, LinkOf)
    ensures DedupeBy(DedupeBy(rows, LinkOf), LinkOf) == DedupeBy(rows, LinkOf)
  {
    DedupeDistinct(rows, LinkOf);
    DedupeFirstOccurrences(rows, LinkOf);
    DedupeKeys(rows, LinkOf);
    DedupeIdempotent(rows, LinkOf);
  }

  // ---------------------------------------------------------------------------------------
  // guess_band

  function DigitChar(b: int): char
    requires 0 <= b <= 9
  {
    ('0' as int + b) as char
  }

  /** The text `f"band {b}"` the title is searched for. */
  function BandText(b: int): string
    requires 1 <= b <= 8
  {
    "band " + [DigitChar(b)]
  }

  /** The label `f"Band {b}"`. */
  function BandLabel(b: int): string
    requires 1 <= b <= 8
  {
    "Band " + [DigitChar(b)]
  }

  const UNKNOWN_BAND: string := "Unknown"

  /** The first `b` in `from..8` whose text occurs in `tl`, if any. */
  function FirstBand(tl: string, from: int): (r: Option<int>)
    requires 1 <= from <= 9
    ensures r.Some? ==> from <= r.value <= 8
    decreases 9 - from
  {
    if from == 9 then None
    else if Contains(tl, BandText(from)) then Some(from)
    else FirstBand(tl, from + 1)
  }

  /** The band `guess_band(title)` returns. */
  function BandOf(title: string): string {
    match FirstBand(Lower(title), 1)
    case None => UNKNOWN_BAND
    case Some(b) => BandLabel(b)
  }

  /** `guess_band(title)`: try "band 1" to "band 8" in the lower-cased title, in order. */
  method GuessBand(title: string) returns (r: string)
    ensures r == BandOf(title)
  {
    var tl := Lower(title);
    for b := 1 to 9
      invariant FirstBand(tl, b) == FirstBand(tl, 1)
    {
      if Contains(tl, BandText(b)) {
        return BandLabel(b);
      }
    }
    return UNKNOWN_BAND;
  }

  /** `FirstBand` finds the smallest matching band number, and none exactly when no band
      number from `from` to 8 matches. */
  lemma {:induction false} FirstBandSearch(tl: string, from: int)
    requires 1 <= from <= 9
    ensures FirstBand(tl, from).None? <==> forall b :: from <= b <= 8 ==> !Contains(tl, BandText(b))
    ensures FirstBand(tl, from).Some? ==>
      Contains(tl, BandText(FirstBand(tl, from).value)) &&
      forall c :: from <= c < FirstBand(tl, from).value ==> !Contains(tl, BandText(c))
    decreases 9 - from
  {
    if from < 9 {
      FirstBandSearch(tl, from + 1);
    }
  }

  /** `guess_band` returns "Band b" for the smallest b from 1 to 8 whose "band b" occurs in
      the lower-cased title, and "Unknown" exactly when there is none. */
  lemma BandOfProperties(title: string)
    ensures BandOf(title) == UNKNOWN_BAND <==> forall b :: 1 <= b <= 8 ==> !Contains(Lower(title), BandText(b))
    ensures BandOf(title) != UNKNOWN_BAND ==>
      exists b :: 1 <= b <= 8 && BandOf(title) == BandLabel(b) && Contains(Lower(title), BandText(b)) &&
        forall c :: 1 <= c < b ==> !Contains(Lower(title), BandText(c))
  {
    FirstBandSearch(Lower(title), 1);
    match FirstBand(Lower(title), 1)
    case None =>
    case Some(b) =>
      assert |BandLabel(b)| == 6 && |UNKNOWN_BAND| == 7;
  }

  // ---------------------------------------------------------------------------------------
  // URLs.

  const PULSE_MARK: string := "/Pulse"

  /** `start_url.split("/Pulse")[0]`: the start URL up to the first "/Pulse", or all of it. */
  function Root(startUrl: string): (root: string)
    ensures |root| <= |startUrl| && root == startUrl[..|root|]
    ensures forall i :: 0 <= i < |root| ==> !OccursAt(startUrl, PULSE_MARK, i)
    ensures root == startUrl || OccursAt(startUrl, PULSE_MARK, |root|)
  {
    PrefixBefore(startUrl, PULSE_MARK)
  }

  /** The jobs endpoint: `urljoin(urljoin(root + "/", "WebServices/"), "RCM/Jobs/Jobs")`. */
  function ApiUrl(root: string, join: (string, string) -> string): string {
    join(join(root + "/", "WebServices/"), "RCM/Jobs/Jobs")
  }

  /** The part of `s` up to and including its last `/`; "" when it has none. */
  function DirOf(s: string): (d: string)
    ensures |d| <= |s| && d == s[..|d|]
  {
    if s == [] then []
    else if s[|s| - 1] == '/' then s
    else DirOf(s[..|s| - 1])
  }

  /** Resolution of a relative-path reference without dot segments against a base URL with a
      path and no query or fragment, as section 5.2.3 of RFC 3986 merges them: the
      reference replaces what follows the base's last `/`. */
  function Merge(base: string, ref: string): string {
    DirOf(base) + ref
  }

  /** A root on which `urljoin` resolves the two references by plain merging: it does not
      start with a dot or end in `/`, has no query or fragment, and no path segment that is
      empty or starts with a dot (the only `//` is the one after the scheme's `:`). */
  predicate PlainRoot(root: string) {
    && (root == [] || (root[0] != '.' && root[|root| - 1] != '/'))
    && '?' !in root && '#' !in root
    && PlainSegments(root, ' ')
  }

  /** No `/` in `s` is followed by a dot, and none by another `/` unless it comes after a
      `:`; `prev` is the character before `s`. */
  predicate PlainSegments(s: string, prev: char)
    decreases |s|
  {
    |s| < 2 || ((s[0] == '/' ==> s[1] != '.' && (s[1] == '/' ==> prev == ':')) && PlainSegments(s[1..], s[0]))
  }

  /** For a plain root, where `urljoin` merges paths as section 5.2.3 of RFC 3986 does, the
      endpoint is `root + "/WebServices/RCM/Jobs/Jobs"`. */
  lemma ApiUrlByMerge(root: string)
    requires PlainRoot(root)
    ensures ApiUrl(root, (b, r) => Merge(b, r)) == root + "/WebServices/RCM/Jobs/Jobs"
  {
    ApiUrlMerged(root);
    EndpointPath();
  }

  /** Plain merging resolves each reference onto the directory before it. */
  lemma ApiUrlMerged(root: string)
    ensures ApiUrl(root, (b, r) => Merge(b, r)) == root + ("/" + "WebServices/" + "RCM/Jobs/Jobs")
  {
    var base := root + "/";
    MergeOntoDir(base, "WebServices/");
    var apiRoot := base + "WebServices/";
    MergeOntoDir(apiRoot, "RCM/Jobs/Jobs");
  }

  /** The two references spell the endpoint's path. */
  lemma EndpointPath()
    ensures "/" + "WebServices/" + "RCM/Jobs/Jobs" == "/WebServices/RCM/Jobs/Jobs"
  {
  }

  /** Merging onto a base that ends in `/` appends the reference. */
  lemma MergeOntoDir(base: string, ref: string)
    requires base != [] && base[|base| - 1] == '/'
    ensures Merge(base, ref) == base + ref
  {
  }

  /** The slug: the title's words joined by "-", then every "/" made "-" and every "&"
      made "and". */
  function Slug(title: string): string {
    ReplaceChar(ReplaceChar(JoinWith(Split(title), "-"), '/', "-"), '&', "and")
  }

  /** The slug holds no whitespace, no `/` and no `&`. */
  lemma SlugClean(title: string)
    ensures NoSpace(Slug(title)) && '/' !in Slug(title) && '&' !in Slug(title)
  {
    var ws := Split(title);
    var joined := JoinWith(ws, "-");
    var dashed := ReplaceChar(joined, '/', "-");
    var s := Slug(title);
    forall i | 0 <= i < |s| ensures !IsSpace(s[i]) && s[i] != '/' {
      var x := s[i];
      assert x in s;
      if x !in "and" {
        assert x in dashed;
        if x !in "-" {
          assert x in joined;
          JoinWithChars(ws, "-", x);
          var k :| 0 <= k < |ws| && x in ws[k];
          var j :| 0 <= j < |ws[k]| && ws[k][j] == x;
        }
      }
    }
  }

  /** A title that is one word with no `/` or `&` is its own slug. */
  lemma SlugOfPlainTitle(title: string)
    requires title != [] && NoSpace(title) && '/' !in title && '&' !in title
    ensures Slug(title) == title
  {
    assert TrimStart(title) == title;
    var w := TakeWord(title);
    assert w == title;
    assert Split(title) == [title] + Split(title[|w|..]);
    assert title[|w|..] == [];
    ReplaceAbsent(title, '/', "-");
    ReplaceAbsent(title, '&', "and");
  }

  const DETAIL_PATH: string := "/Pulse/job/"
  const DETAIL_QUERY: string := "?source=public"

  /** `f"{root}/Pulse/job/{link_id}/{quote(slug)}?source=public"`. */
  function DetailLink(root: string, linkId: string, quotedSlug: string): string {
    root + DETAIL_PATH + linkId + "/" + quotedSlug + DETAIL_QUERY
  }

  /** The detail link starts with the root and the job path and ends with the query. */
  lemma DetailLinkShape(root: string, linkId: string, quotedSlug: string)
    ensures StartsWith(DetailLink(root, linkId, quotedSlug), root + DETAIL_PATH + linkId + "/")
    ensures |DETAIL_QUERY| <= |DetailLink(root, linkId, quotedSlug)|
    ensures DetailLink(root, linkId, quotedSlug)[|DetailLink(root, linkId, quotedSlug)| - |DETAIL_QUERY|..] == DETAIL_QUERY
  {
    var p := root + DETAIL_PATH + linkId + "/";
    assert DetailLink(root, linkId, quotedSlug) == p + (quotedSlug + DETAIL_QUERY);
  }

  // ---------------------------------------------------------------------------------------
  // Rows of the JSON answer.

  /** One element of the answer's "Jobs" list: its "JobInfo" object (None when the key is
      missing or the value is null) and the text of its "LinkId" (None when missing or
      null). */
  datatype JobRow = JobRow(jobInfo: Option<map<string, string>>, linkId: Option<string>)

  /** `row.get("JobInfo", {}) or {}`. */
  function Info(row: JobRow): map<string, string> {
    row.jobInfo.GetOr(map[])
  }

  /** `ji.get(key, "").strip()`. */
  function Field(ji: map<string, string>, key: string): string {
    if key in ji then Strip(ji[key]) else ""
  }

  /** `row.get("LinkId") or ""`. */
  function LinkIdOf(row: JobRow): string {
    if row.linkId.Some? && row.linkId.value != "" then row.linkId.value else ""
  }

  /** The record the loop appends for `row`. */
  function RecordOf(row: JobRow, councilName: string, root: string, quote: string -> string): PulseRecord {
    var ji := Info(row);
    var title := Field(ji, "Title");
    PulseRecord(
      title,
      DetailLink(root, LinkIdOf(row), quote(Slug(title))),
      "",
      BandOf(title),
      Field(ji, "Compensation"),
      Field(ji, "ClosingDate"),
      councilName,
      Field(ji, "Location"),
      Field(ji, "EmploymentType"),
      Field(ji, "WorkArrangement"),
      Field(ji, "Department"))
  }

  /** A field is "" when its key is absent and otherwise the stripped value: no whitespace
      at either end and the same non-whitespace characters. */
  lemma FieldProperties(ji: map<string, string>, key: string)
    ensures key !in ji ==> Field(ji, key) == ""
    ensures key in ji ==> Trimmed(Field(ji, key)) && NonSpace(Field(ji, key)) == NonSpace(ji[key])
  {
    if key in ji {
      StripShape(ji[key]);
      StripKeepsContent(ji[key]);
    }
  }

  /** Every record carries the council name, an empty description and the band guessed
      from its title; its link is the detail link for its row and the slug of its title. */
  lemma RecordOfProperties(row: JobRow, councilName: string, root: string, quote: string -> string)
    ensures RecordOf(row, councilName, root, quote).council == councilName
    ensures RecordOf(row, councilName, root, quote).description == ""
    ensures RecordOf(row, councilName, root, quote).category == BandOf(RecordOf(row, councilName, root, quote).title)
    ensures StartsWith(RecordOf(row, councilName, root, quote).link, root + DETAIL_PATH + LinkIdOf(row) + "/")
    ensures row.jobInfo.None? ==> RecordOf(row, councilName, root, quote).title == "" && RecordOf(row, councilName, root, quote).salary == ""
    ensures Trimmed(RecordOf(row, councilName, root, quote).title)
  {
    var title := Field(Info(row), "Title");
    DetailLinkShape(root, LinkIdOf(row), quote(Slug(title)));
    FieldProperties(Info(row), "Title");
  }

  /** The records for `rows`, in order. */
  function RecordsOf(rows: seq<JobRow>, councilName: string, root: string, quote: string -> string): (recs: seq<PulseRecord>)
    ensures |recs| == |rows|
  {
    if rows == [] then []
    else RecordsOf(rows[..|rows| - 1], councilName, root, quote) + [RecordOf(rows[|rows| - 1], councilName, root, quote)]
  }

  lemma {:induction false} RecordsOfAt(rows: seq<JobRow>, councilName: string, root: string, quote: string -> string, i: int)
    requires 0 <= i < |rows|
    ensures RecordsOf(rows, councilName, root, quote)[i] == RecordOf(rows[i], councilName, root, quote)
  {
    if i < |rows| - 1 {
      RecordsOfAt(rows[..|rows| - 1], councilName, root, quote, i);
    }
  }

  // ---------------------------------------------------------------------------------------
  // collect_pulse_api

  /** The library calls the collector makes: `join` is `urljoin`, `quote` is
      `urllib.parse.quote`, and `fetchJobs(url)` is the value of "Jobs" in the JSON answer
      to the GET request for `url` — None when the key is missing, an error when the
      request, the status check or the JSON decoding raises. */
  datatype PulseEnv = PulseEnv(
    join: (string, string) -> string,
    quote: string -> string,
    fetchJobs: string -> Result<Option<seq<JobRow>>, string>)

  /** What `collect_pulse_api(start_url, council_name)` returns or raises. */
  function Collected(startUrl: string, councilName: string, env: PulseEnv): Result<seq<PulseRecord>, string> {
    var root := Root(startUrl);
    match env.fetchJobs(ApiUrl(root, env.join))
    case Err(e) => Err(e)
    case Ok(jobs) => Ok(DedupeBy(RecordsOf(jobs.GetOr([]), councilName, root, env.quote), LinkOf))
  }

  /** `collect_pulse_api`: derive the root and the endpoint, fetch the jobs, append a record
      per row, and deduplicate by link. */
  method CollectPulseApi(startUrl: string, councilName: string, env: PulseEnv)
    returns (r: Result<seq<PulseRecord>, string>)
    ensures r == Collected(startUrl, councilName, env)
  {
    var root := Root(startUrl);
    var apiJobsUrl := ApiUrl(root, env.join);
    var answer := env.fetchJobs(apiJobsUrl);
    if answer.Err? {
      return Err(answer.error);
    }
    var rows := answer.value.GetOr([]);
    var items := AppendRecords(rows, councilName, root, env.quote);
    var out := DedupeByLink(items);
    return Ok(out);
  }

  /** The collector's row loop. */
  method AppendRecords(rows: seq<JobRow>, councilName: string, root: string, quote: string -> string)
    returns (items: seq<PulseRecord>)
    ensures items == RecordsOf(rows, councilName, root, quote)
  {
    items := [];
    for i := 0 to |rows|
      invariant items == RecordsOf(rows[..i], councilName, root, quote)
    {
      var rec := BuildRecord(rows[i], councilName, root, quote);
      items := items + [rec];
      assert rows[..i + 1][..i] == rows[..i];
    }
    assert rows[..|rows|] == rows;
  }

  /** The body of the row loop: read the title, the link id and the other fields of the
      row's "JobInfo", build the slug and the detail link, and guess the band. */
  method BuildRecord(row: JobRow, councilName: string, root: string, quote: string -> string)
    returns (rec: PulseRecord)
    ensures rec == RecordOf(row, councilName, root, quote)
  {
    var ji := Info(row);
    var title := Field(ji, "Title");
    var linkId := LinkIdOf(row);
    var slug := Slug(title);
    var detailLink := DetailLink(root, linkId, quote(slug));
    var category := GuessBand(title);
    rec := PulseRecord(
      title, detailLink, "", category,
      Field(ji, "Compensation"), Field(ji, "ClosingDate"), councilName,
      Field(ji, "Location"), Field(ji, "EmploymentType"), Field(ji, "WorkArrangement"), Field(ji, "Department"));
  }

  /** The collector fails exactly when the fetch does; on success every record carries the
      council name, no two records share a link, and deduplicating the result again changes
      nothing. */
  lemma CollectedProperties(startUrl: string, councilName: string, env: PulseEnv)
    ensures Collected(startUrl, councilName, env).Err? <==> env.fetchJobs(ApiUrl(Root(startUrl), env.join)).Err?
    ensures Collected(startUrl, councilName, env).Ok? ==>
      && (forall i :: 0 <= i < |Collected(startUrl, councilName, env).value| ==>
            Collected(startUrl, councilName, env).value[i].council == councilName)
      && (forall i, j :: 0 <= i < j < |Collected(startUrl, councilName, env).value| ==>
            Collected(startUrl, councilName, env).value[i].link != Collected(startUrl, councilName, env).value[j].link)
      && DedupeBy(Collected(startUrl, councilName, env).value, LinkOf) == Collected(startUrl, councilName, env).value
  {
    var root := Root(startUrl);
    var answer := env.fetchJobs(ApiUrl(root, env.join));
    if answer.Ok? {
      var recs := RecordsOf(answer.value.GetOr([]), councilName, root, env.quote);
      var out := DedupeBy(recs, LinkOf);
      DedupeByLinkProperties(recs);
      DedupeMembers(recs, LinkOf);
      forall i | 0 <= i < |out| ensures out[i].council == councilName {
        assert out[i] in recs;
        var k :| 0 <= k < |recs| && recs[k] == out[i];
        RecordsOfAt(answer.value.GetOr([]), councilName, root, env.quote, k);
        RecordOfProperties(answer.value.GetOr([])[k], councilName, root, env.quote);
      }
    }
  }
}
