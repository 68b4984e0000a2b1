/** lib/distributeurs.js: reading the distributors of one recall from its
    fiche on rappel.conso.gouv.fr. The URL parser, the HTML parser and the
    HTTP client are collaborators: the parser is a function from the URL
    text to its parts (or to nothing when `new URL` throws), the page's
    `<dt>` elements are given by a function of the HTML, and the site keeps
    the list of URLs it was asked for. */
module Distributeurs {
  import opened Wrappers
  import opened Lists
  import opened Strings
  import opened Feed

  // ---------------------------------------------------------------------
  // Splitting the distributor text

  /** The separators of `/[;\n\r,]+/`. */
  predicate IsListSep(c: char)
  {
    c == ';' || c == '\n' || c == '\r' || c == ','
  }

  /** `normalizeSplitList(raw)`: the text cut at runs of separators, each
      piece trimmed, empty pieces dropped; empty text gives no entries. */
  function NormalizeSplitList(raw: string): (r: seq<string>)
    ensures raw == "" ==> r == []
  {
    if raw == "" then [] else Tokens(raw, IsListSep)
  }

  /** Every entry is non-empty, trimmed and free of separators, and the
      entries come in the order of their pieces. */
  lemma NormalizeSplitListShape(raw: string)
    ensures forall t :: t in NormalizeSplitList(raw) ==>
      t != "" && Trim(t) == t && forall i :: 0 <= i < |t| ==> !IsListSep(t[i])
    ensures raw != "" ==> IsSubsequence(NormalizeSplitList(raw), Map(Split(raw, IsListSep), Trim))
  {
    if raw != "" {
      TokensShape(raw, IsListSep);
      TokensInOrder(raw, IsListSep);
    }
  }

  /** A list of clean entries written with one separator between them
      splits back into the same list. */
  lemma NormalizeSplitListOfJoin(entries: seq<string>)
    requires entries != []
    requires forall k :: 0 <= k < |entries| ==> IsToken(entries[k], IsListSep)
    ensures NormalizeSplitList(Join(entries, ";")) == entries
  {
    TokensOfJoin(entries, IsListSep, ';');
  }

  // ---------------------------------------------------------------------
  // The URL allow-list

  /** What `new URL(u)` exposes that the check reads. */
  datatype ParsedUrl = ParsedUrl(protocol: string, hostname: string)

  const AllowedProtocol: string := "https:"
  const AllowedHost: string := "rappel.conso.gouv.fr"

  /** `isAllowedUrl(u)`; `parseUrl(u)` is None when `new URL(u)` throws. */
  function IsAllowedUrl(u: string, parseUrl: string -> Option<ParsedUrl>): (r: bool)
    ensures r <==> parseUrl(u).Some? && parseUrl(u).value.protocol == AllowedProtocol
                   && parseUrl(u).value.hostname == AllowedHost
  {
    match parseUrl(u)
    case None => false
    case Some(x) => x.protocol == AllowedProtocol && x.hostname == AllowedHost
  }

  // ---------------------------------------------------------------------
  // The `<dt>` scan

  /** One `<dt>` element: its text, and the text of the element after it
      when that is a `<dd>` ("" when it is not, as cheerio gives for an
      empty selection). */
  datatype DtEntry = DtEntry(dtText: string, ddText: string)

  const DistributeursHeading: string := "Distributeurs"

  /** The `<dt>` reads "Distributeurs" once its whitespace is normalised. */
  predicate IsDistributeursHeading(e: DtEntry)
  {
    NormalizeSpace(e.dtText) == DistributeursHeading
  }

  /** The distributor text of a page: the normalised `<dd>` text after the
      last "Distributeurs" heading, or "" when there is none. */
  function LastDistributeurs(dts: seq<DtEntry>): (r: string)
    decreases |dts|
  {
    if dts == [] then ""
    else if IsDistributeursHeading(dts[|dts| - 1]) then NormalizeSpace(dts[|dts| - 1].ddText)
    else LastDistributeurs(dts[..|dts| - 1])
  }

  /** The last heading wins: whatever the earlier ones say, the text is the
      one after heading `k` when no heading follows it. */
  lemma {:induction false} LastHeadingWins(dts: seq<DtEntry>, k: nat)
    requires k < |dts| && IsDistributeursHeading(dts[k])
    requires forall j :: k < j < |dts| ==> !IsDistributeursHeading(dts[j])
    ensures LastDistributeurs(dts) == NormalizeSpace(dts[k].ddText)
    decreases |dts|
  {
    if k < |dts| - 1 {
      var init := dts[..|dts| - 1];
      assert init[k] == dts[k];
      forall j | k < j < |init| ensures !IsDistributeursHeading(init[j]) {
        assert init[j] == dts[j];
      }
      LastHeadingWins(init, k);
    }
  }

  /** A page without the heading has no distributor text. */
  lemma {:induction false} NoHeadingNoText(dts: seq<DtEntry>)
    requires forall j :: 0 <= j < |dts| ==> !IsDistributeursHeading(dts[j])
    ensures LastDistributeurs(dts) == ""
    decreases |dts|
  {
    if dts != [] {
      var init := dts[..|dts| - 1];
      forall j | 0 <= j < |init| ensures !IsDistributeursHeading(init[j]) {
        assert init[j] == dts[j];
      }
      NoHeadingNoText(init);
    }
  }

  /** The `$("dt").each` loop: every heading met overwrites the text kept
      so far. */
  method ScanDistributeurs(dts: seq<DtEntry>) returns (distributeursRaw: string)
    ensures distributeursRaw == LastDistributeurs(dts)
  {
    distributeursRaw := "";
    ghost var last: int := -1;
    var i := 0;
    while i < |dts|
      invariant 0 <= i <= |dts|
      invariant -1 <= last < i
      invariant last >= 0 ==> IsDistributeursHeading(dts[last])
      invariant forall j :: last < j < i ==> !IsDistributeursHeading(dts[j])
      invariant distributeursRaw == if last < 0 then "" else NormalizeSpace(dts[last].ddText)
    {
      var t := NormalizeSpace(dts[i].dtText);
      if t == DistributeursHeading {
        distributeursRaw := NormalizeSpace(dts[i].ddText);
        last := i;
      }
      i := i + 1;
    }
    if last < 0 {
      NoHeadingNoText(dts);
    } else {
      LastHeadingWins(dts, last);
    }
  }

  // ---------------------------------------------------------------------
  // Fetching a fiche

  /** What `fetch(url)` answers: `res.ok`, `res.status` and the body. */
  datatype HttpPage = HttpPage(ok: bool, status: nat, html: string)

  /** The fiche site: its answer for each URL, and the URLs fetched so far. */
  class DetailSite {
    const pageAt: string -> HttpPage
    var fetched: seq<string>

    constructor (pageAt: string -> HttpPage)
      ensures this.pageAt == pageAt && fetched == []
    {
      this.pageAt := pageAt;
      fetched := [];
    }

    method Fetch(url: string) returns (page: HttpPage)
      modifies this
      ensures page == pageAt(url)
      ensures fetched == old(fetched) + [url]
    {
      page := pageAt(url);
      fetched := fetched + [url];
    }
  }

  const DisallowedUrlError: string := "Invalid or disallowed url"

  function HttpStatusError(status: nat): string
  {
    "detail HTTP " + NatToString(status)
  }

  /** The two fields read from a fetched fiche. */
  function InfoOfPage(html: string, dtsOf: string -> seq<DtEntry>): (info: DistributorInfo)
    ensures info.distributeursRaw == LastDistributeurs(dtsOf(html))
    ensures info.distributeursList == NormalizeSplitList(info.distributeursRaw)
  {
    var raw := LastDistributeurs(dtsOf(html));
    DistributorInfo(raw, NormalizeSplitList(raw))
  }

  /** The kept text is whitespace-normalised: no space at either end, no
      two in a row. */
  lemma InfoOfPageNormalised(html: string, dtsOf: string -> seq<DtEntry>)
    ensures var raw := InfoOfPage(html, dtsOf).distributeursRaw;
      && (raw != [] ==> !IsSpace(raw[0]) && !IsSpace(raw[|raw| - 1]))
      && (forall i :: 0 <= i < |raw| - 1 ==> !(IsSpace(raw[i]) && IsSpace(raw[i + 1])))
  {
    var dts := dtsOf(html);
    if exists k :: 0 <= k < |dts| && IsDistributeursHeading(dts[k]) {
      var k := LastHeadingIndex(dts);
      LastHeadingWins(dts, k);
      NormalizeSpaceShape(dts[k].ddText);
    } else {
      NoHeadingNoText(dts);
    }
  }

  /** The position of the last heading of a page that has one. */
  lemma LastHeadingIndex(dts: seq<DtEntry>) returns (k: nat)
    requires exists k :: 0 <= k < |dts| && IsDistributeursHeading(dts[k])
    ensures k < |dts| && IsDistributeursHeading(dts[k])
    ensures forall j :: k < j < |dts| ==> !IsDistributeursHeading(dts[j])
  {
    var m :| 0 <= m < |dts| && IsDistributeursHeading(dts[m]);
    k := m;
    while k + 1 < |dts| && exists j :: k < j < |dts| && IsDistributeursHeading(dts[j])
      invariant k < |dts| && IsDistributeursHeading(dts[k])
      decreases |dts| - k
    {
      var j :| k < j < |dts| && IsDistributeursHeading(dts[j]);
      k := j;
    }
  }

  /** What `fetchDistributeurInfo(url)` returns or throws. */
  function DistributeurInfoOf(page: HttpPage, dtsOf: string -> seq<DtEntry>): (r: Result<DistributorInfo, string>)
    ensures r.Err? <==> !page.ok
    ensures r.Err? ==> r.error == HttpStatusError(page.status)
    ensures r.Ok? ==> r.value == InfoOfPage(page.html, dtsOf)
  {
    if !page.ok then Err(HttpStatusError(page.status)) else Ok(InfoOfPage(page.html, dtsOf))
  }

  /** `fetchDistributeurInfo(url)`: a URL off the allow-list is refused
      before anything is fetched; otherwise the fiche is fetched once and
      read. */
  method FetchDistributeurInfo(site: DetailSite, url: string, parseUrl: string -> Option<ParsedUrl>,
                               dtsOf: string -> seq<DtEntry>)
    returns (r: Result<DistributorInfo, string>)
    modifies site
    ensures !IsAllowedUrl(url, parseUrl) ==> r == Err(DisallowedUrlError) && site.fetched == old(site.fetched)
    ensures IsAllowedUrl(url, parseUrl) ==>
      site.fetched == old(site.fetched) + [url] && r == DistributeurInfoOf(site.pageAt(url), dtsOf)
  {
    if !IsAllowedUrl(url, parseUrl) {
      return Err(DisallowedUrlError);
    }
    var res := site.Fetch(url);
    if !res.ok {
      return Err(HttpStatusError(res.status));
    }
    var distributeursRaw := ScanDistributeurs(dtsOf(res.html));
    var distributeursList := NormalizeSplitList(distributeursRaw);
    r := Ok(DistributorInfo(distributeursRaw, distributeursList));
  }
}
