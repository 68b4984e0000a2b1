/** The RappelConso RSS reader (lib/rss.js) and the `/api/rss` route that
    serves the same normalised list. The XML parser and the `Date`
    constructor are parameters: `parseXml` yields the parsed document or
    `None` when the parser throws, `parseDate` yields the timestamp and the
    local `YYYY-MM-DD` day of a date string or `None` when it is invalid. */
module Rss {
  import opened Wrappers
  import opened Lists
  import opened Strings
  import opened Feed

  /** The `<guid>` of an item as the XML parser hands it over: absent, plain
      text, or an element with attributes whose text may be missing. */
  datatype Guid = NoGuid | GuidString(text: string) | GuidElement(hashText: Option<string>)

  /** One `<item>` after XML parsing. The `*Url` fields are the `url`
      attributes of `<enclosure>`, `<media:content>` and `<content>`. */
  datatype RawItem = RawItem(
    title: Option<string>,
    link: Option<string>,
    guid: Guid,
    pubDate: Option<string>,
    description: Option<string>,
    enclosureUrl: Option<string>,
    mediaContentUrl: Option<string>,
    contentUrl: Option<string>)

  /** `channel.item`: missing, a single element, or a list of them. */
  datatype ItemField = NoItem | SingleItem(item: RawItem) | ItemArray(items: seq<RawItem>)

  /** The parsed document: `rss.channel` and `feed`, each possibly missing. */
  datatype XmlDoc = XmlDoc(rssChannel: Option<ItemField>, feed: Option<ItemField>)

  datatype ParsedDate = ParsedDate(ts: int, isoDay: string)

  /** The feed server's answer as `fetch` exposes it. */
  datatype HttpResponse = HttpResponse(ok: bool, status: nat, statusText: string, body: string)

  /** `(v ?? "").toString()` for a text field. */
  function OrEmpty(v: Option<string>): string
  {
    if v.Some? then v.value else ""
  }

  /** `it.guid?.["#text"] ?? it.guid ?? ""` rendered as a string; an element
      without text renders as `[object Object]`. */
  function GuidText(g: Guid): string
  {
    match g
    case NoGuid => ""
    case GuidString(t) => t
    case GuidElement(h) => if h.Some? then h.value else "[object Object]"
  }

  /** The item's identifier: its trimmed guid, else its link, else its
      position in the feed. */
  function ItemId(raw: RawItem, link: string, idx: nat): (r: string)
    ensures r != ""
    ensures Trim(GuidText(raw.guid)) != "" ==> r == Trim(GuidText(raw.guid))
    ensures Trim(GuidText(raw.guid)) == "" && link != "" ==> r == link
    ensures Trim(GuidText(raw.guid)) == "" && link == "" ==> r == NatToString(idx)
  {
    var g := Trim(GuidText(raw.guid));
    if g != "" then g else if link != "" then link else NatToString(idx)
  }

  /** Two items that have neither guid nor link get distinct identifiers
      when they sit at distinct positions. */
  lemma PositionalIdsDistinct(a: RawItem, b: RawItem, i: nat, j: nat)
    requires Trim(GuidText(a.guid)) == "" && Trim(GuidText(b.guid)) == ""
    requires i != j
    ensures ItemId(a, "", i) != ItemId(b, "", j)
  {
    if ItemId(a, "", i) == ItemId(b, "", j) {
      NatToStringInjective(i, j);
    }
  }

  /** `x || y` on strings. */
  function OrElse(x: Option<string>, y: string): string
  {
    if x.Some? && x.value != "" then x.value else y
  }

  /** The picture URL: the first non-empty `url` among enclosure,
      `media:content` and `content`. */
  function ImageUrl(raw: RawItem): (r: string)
    ensures r == "" <==>
      OrEmpty(raw.enclosureUrl) == "" && OrEmpty(raw.mediaContentUrl) == "" && OrEmpty(raw.contentUrl) == ""
    ensures OrEmpty(raw.enclosureUrl) != "" ==> r == OrEmpty(raw.enclosureUrl)
    ensures OrEmpty(raw.enclosureUrl) == "" && OrEmpty(raw.mediaContentUrl) != "" ==> r == OrEmpty(raw.mediaContentUrl)
    ensures OrEmpty(raw.enclosureUrl) == "" && OrEmpty(raw.mediaContentUrl) == "" ==> r == OrEmpty(raw.contentUrl)
  {
    OrElse(raw.enclosureUrl, OrElse(raw.mediaContentUrl, OrElse(raw.contentUrl, "")))
  }

  /** The normalised item built from the `idx`-th raw item. */
  function NormalizeItem(raw: RawItem, idx: nat, parseDate: string -> Option<ParsedDate>): (r: FeedItem)
    ensures r.title == Trim(OrEmpty(raw.title)) && r.link == Trim(OrEmpty(raw.link))
    ensures r.pubDate == Trim(OrEmpty(raw.pubDate))
    ensures Trim(r.title) == r.title && Trim(r.link) == r.link && Trim(r.pubDate) == r.pubDate
    ensures r.id == ItemId(raw, r.link, idx) && r.id != ""
    ensures r.enclosureUrl == ImageUrl(raw)
    ensures r.descriptionHtml == OrEmpty(raw.description)
    ensures parseDate(r.pubDate).Some? ==>
      r.pubDateTs == parseDate(r.pubDate).value.ts && r.pubDateISO == parseDate(r.pubDate).value.isoDay
    ensures parseDate(r.pubDate).None? ==> r.pubDateTs == 0 && r.pubDateISO == ""
    ensures r.distributeursRaw == "" && r.distributeursList == [] && r.motifRaw == ""
  {
    TrimIdempotent(OrEmpty(raw.title));
    TrimIdempotent(OrEmpty(raw.link));
    TrimIdempotent(OrEmpty(raw.pubDate));
    var title := Trim(OrEmpty(raw.title));
    var link := Trim(OrEmpty(raw.link));
    var pubDate := Trim(OrEmpty(raw.pubDate));
    var parsed := parseDate(pubDate);
    FeedItem(
      id := ItemId(raw, link, idx),
      title := title,
      link := link,
      pubDate := pubDate,
      pubDateISO := if parsed.Some? then parsed.value.isoDay else "",
      pubDateTs := if parsed.Some? then parsed.value.ts else 0,
      descriptionHtml := OrEmpty(raw.description),
      enclosureUrl := ImageUrl(raw),
      distributeursRaw := "",
      distributeursList := [],
      motifRaw := "")
  }

  /** `channel?.item`, wrapped into a list when it is a single element. */
  function RawItemsOf(f: ItemField): (r: seq<RawItem>)
    ensures f.ItemArray? ==> r == f.items
    ensures f.SingleItem? ==> r == [f.item]
    ensures f.NoItem? ==> r == []
  {
    match f
    case NoItem => []
    case SingleItem(it) => [it]
    case ItemArray(its) => its
  }

  /** `json?.rss?.channel ?? json?.feed ?? null`, reduced to its items. */
  function ChannelItems(doc: XmlDoc): ItemField
  {
    if doc.rssChannel.Some? then doc.rssChannel.value
    else if doc.feed.Some? then doc.feed.value
    else NoItem
  }

  /** Every raw item normalised with its own position. */
  function Normalized(raws: seq<RawItem>, parseDate: string -> Option<ParsedDate>): (r: seq<FeedItem>)
    ensures |r| == |raws|
    ensures forall i :: 0 <= i < |raws| ==> r[i] == NormalizeItem(raws[i], i, parseDate)
  {
    seq(|raws|, i requires 0 <= i < |raws| => NormalizeItem(raws[i], i, parseDate))
  }

  // ---------------------------------------------------------------------
  // Newest-first ordering. `Array.prototype.sort` is stable, so the order
  // it produces for the comparator `b.pubDateTs - a.pubDateTs` is the one
  // insertion sort produces: each element goes after every element with a
  // timestamp at least its own.

  predicate SortedNewestFirst(s: seq<FeedItem>)
  {
    forall i, j :: 0 <= i < j < |s| ==> s[i].pubDateTs >= s[j].pubDateTs
  }

  /** `x` placed after the leading elements at least as recent as it. */
  function InsertByTs(s: seq<FeedItem>, x: FeedItem): (r: seq<FeedItem>)
    ensures |r| == |s| + 1
  {
    if s == [] then [x]
    else if s[0].pubDateTs >= x.pubDateTs then [s[0]] + InsertByTs(s[1..], x)
    else [x] + s
  }

  /** The stable newest-first order of `s`. */
  function SortByTs(s: seq<FeedItem>): (r: seq<FeedItem>)
    ensures |r| == |s|
    decreases |s|
  {
    if s == [] then [] else InsertByTs(SortByTs(s[..|s| - 1]), s[|s| - 1])
  }

  lemma {:induction false} InsertByTsMultiset(s: seq<FeedItem>, x: FeedItem)
    ensures multiset(InsertByTs(s, x)) == multiset(s) + multiset{x}
  {
    if s != [] && s[0].pubDateTs >= x.pubDateTs {
      InsertByTsMultiset(s[1..], x);
      assert s == [s[0]] + s[1..];
    }
  }

  lemma {:induction false} InsertByTsSorted(s: seq<FeedItem>, x: FeedItem)
    requires SortedNewestFirst(s)
    ensures SortedNewestFirst(InsertByTs(s, x))
  {
    if s != [] && s[0].pubDateTs >= x.pubDateTs {
      InsertByTsSorted(s[1..], x);
      InsertByTsMultiset(s[1..], x);
      var t := InsertByTs(s[1..], x);
      assert InsertByTs(s, x) == [s[0]] + t;
      forall k | 0 <= k < |t| ensures s[0].pubDateTs >= t[k].pubDateTs {
        assert t[k] in multiset(t);
        assert t[k] in s[1..] || t[k] == x;
      }
    }
  }

  /** Sorting yields a newest-first permutation of the input. */
  lemma {:induction false} SortByTsProperties(s: seq<FeedItem>)
    ensures multiset(SortByTs(s)) == multiset(s)
    ensures SortedNewestFirst(SortByTs(s))
    decreases |s|
  {
    if s != [] {
      var init := s[..|s| - 1];
      SortByTsProperties(init);
      InsertByTsMultiset(SortByTs(init), s[|s| - 1]);
      InsertByTsSorted(SortByTs(init), s[|s| - 1]);
      assert s == init + [s[|s| - 1]];
    }
  }

  /** A feed that is already newest-first keeps its order. */
  lemma {:induction false} SortByTsOfSorted(s: seq<FeedItem>)
    requires SortedNewestFirst(s)
    ensures SortByTs(s) == s
    decreases |s|
  {
    if s != [] {
      var init := s[..|s| - 1];
      SortByTsOfSorted(init);
      InsertAtEnd(init, s[|s| - 1]);
      assert init + [s[|s| - 1]] == s;
    }
  }

  lemma {:induction false} InsertAtEnd(s: seq<FeedItem>, x: FeedItem)
    requires forall k :: 0 <= k < |s| ==> s[k].pubDateTs >= x.pubDateTs
    ensures InsertByTs(s, x) == s + [x]
  {
    if s != [] {
      InsertAtEnd(s[1..], x);
      assert s == [s[0]] + s[1..];
    }
  }

  /** Where insertion puts `x` in a list: after the first `j` elements. */
  lemma {:induction false} InsertAt(s: seq<FeedItem>, x: FeedItem, j: nat)
    requires j <= |s|
    requires forall k :: 0 <= k < j ==> s[k].pubDateTs >= x.pubDateTs
    requires j < |s| ==> s[j].pubDateTs < x.pubDateTs
    ensures InsertByTs(s, x) == s[..j] + [x] + s[j..]
  {
    if j > 0 {
      InsertAt(s[1..], x, j - 1);
      assert s[1..][..j - 1] == s[1..j];
      assert s[1..][j - 1..] == s[j..];
    }
  }

  /** One step of insertion sort: moves `a[i]` left past the more recent
      elements before it, so that `a[..i + 1]` is `a[..i]` with the old
      `a[i]` inserted. */
  method InsertInPlace(a: array<FeedItem>, i: nat)
    requires i < a.Length
    requires SortedNewestFirst(a[..i])
    modifies a
    ensures a[..i + 1] == InsertByTs(old(a[..i]), old(a[i]))
    ensures a[i + 1..] == old(a[i + 1..])
  {
    ghost var sorted := a[..i];
    var x := a[i];
    var j := i;
    while j > 0 && a[j - 1].pubDateTs < x.pubDateTs
      invariant 0 <= j <= i
      invariant forall k :: 0 <= k < j ==> a[k] == sorted[k]
      invariant forall k :: j < k <= i ==> a[k] == sorted[k - 1]
      invariant a[i + 1..] == old(a[i + 1..])
      invariant forall k :: j <= k < i ==> sorted[k].pubDateTs < x.pubDateTs
    {
      a[j] := a[j - 1];
      j := j - 1;
    }
    a[j] := x;
    PlacedIsInserted(sorted, x, j, a[..i + 1]);
  }

  /** The array state the insertion step leaves behind is the insertion. */
  lemma PlacedIsInserted(sorted: seq<FeedItem>, x: FeedItem, j: nat, r: seq<FeedItem>)
    requires j <= |sorted| && |r| == |sorted| + 1
    requires SortedNewestFirst(sorted)
    requires j > 0 ==> sorted[j - 1].pubDateTs >= x.pubDateTs
    requires j < |sorted| ==> sorted[j].pubDateTs < x.pubDateTs
    requires forall k :: 0 <= k < j ==> r[k] == sorted[k]
    requires r[j] == x
    requires forall k :: j < k < |r| ==> r[k] == sorted[k - 1]
    ensures r == InsertByTs(sorted, x)
  {
    InsertAt(sorted, x, j);
    assert r == sorted[..j] + [x] + sorted[j..];
  }

  /** The in-place sort of the normalised array: insertion sort, which like
      the engine's sort is stable. */
  method SortItemsInPlace(a: array<FeedItem>)
    modifies a
    ensures a[..] == SortByTs(old(a[..]))
  {
    ghost var input := a[..];
    var i := 0;
    while i < a.Length
      invariant 0 <= i <= a.Length
      invariant a[..i] == SortByTs(input[..i])
      invariant a[i..] == input[i..]
    {
      SortByTsProperties(input[..i]);
      InsertInPlace(a, i);
      SortByTsSnoc(input, i);
      i := i + 1;
    }
    assert input[..a.Length] == input;
  }

  /** Sorting one more element is inserting it into the sorted prefix. */
  lemma SortByTsSnoc(s: seq<FeedItem>, i: nat)
    requires i < |s|
    ensures SortByTs(s[..i + 1]) == InsertByTs(SortByTs(s[..i]), s[i])
  {
    var p := s[..i + 1];
    assert p[..|p| - 1] == s[..i];
  }

  /** `normalizeItems(channel)`: the channel's items normalised and sorted
      newest first. */
  method NormalizeItems(field: ItemField, parseDate: string -> Option<ParsedDate>) returns (items: seq<FeedItem>)
    ensures items == SortByTs(Normalized(RawItemsOf(field), parseDate))
  {
    var normalized := Normalized(RawItemsOf(field), parseDate);
    items := SortFeed(normalized);
  }

  /** The normalised list copied into an array, sorted there, and read
      back. */
  method SortFeed(s: seq<FeedItem>) returns (r: seq<FeedItem>)
    ensures r == SortByTs(s)
  {
    var a := new FeedItem[|s|](i requires 0 <= i < |s| => s[i]);
    assert a[..] == s;
    SortItemsInPlace(a);
    r := a[..];
  }

  predicate AllIdentified(s: seq<FeedItem>)
  {
    forall k :: 0 <= k < |s| ==> s[k].id != ""
  }

  lemma NormalizedIdentified(raws: seq<RawItem>, parseDate: string -> Option<ParsedDate>)
    ensures AllIdentified(Normalized(raws, parseDate))
  {
    var n := Normalized(raws, parseDate);
    forall k | 0 <= k < |n| ensures n[k].id != "" {
      assert n[k] == NormalizeItem(raws[k], k, parseDate);
    }
  }

  lemma PermutationIdentified(s: seq<FeedItem>, t: seq<FeedItem>)
    requires multiset(s) == multiset(t) && AllIdentified(s)
    ensures AllIdentified(t)
  {
    forall k | 0 <= k < |t| ensures t[k].id != "" {
      assert t[k] in multiset(s);
      var idx :| 0 <= idx < |s| && s[idx] == t[k];
    }
  }

  /** The normalised list holds exactly the feed's items, newest first, each
      with an identifier. */
  lemma NormalizedFeedShape(field: ItemField, parseDate: string -> Option<ParsedDate>)
    ensures var items := SortByTs(Normalized(RawItemsOf(field), parseDate));
      && |items| == |RawItemsOf(field)|
      && multiset(items) == multiset(Normalized(RawItemsOf(field), parseDate))
      && SortedNewestFirst(items)
      && AllIdentified(items)
  {
    var n := Normalized(RawItemsOf(field), parseDate);
    SortByTsProperties(n);
    NormalizedIdentified(RawItemsOf(field), parseDate);
    PermutationIdentified(n, SortByTs(n));
  }

  /** The error text for a non-2xx answer. */
  function HttpErrorMessage(status: nat, statusText: string): (r: string)
    ensures var d := NatToString(status);
      |r| == 8 + |d| + |statusText| && r[..5] == "HTTP " && r[5..5 + |d|] == d &&
      r[5 + |d|..7 + |d|] == " (" && r[7 + |d|..|r| - 1] == statusText && r[|r| - 1] == ')'
  {
    "HTTP " + NatToString(status) + " (" + statusText + ")"
  }

  lemma DigitNotSpace(d: string, k: nat)
    ensures k < |d| && (forall i :: 0 <= i < |d| ==> IsDigit(d[i])) ==> d[k] != ' '
  {
  }

  /** The message names the status and its text unambiguously. */
  lemma {:induction false} HttpErrorMessageInjective(s1: nat, t1: string, s2: nat, t2: string)
    requires HttpErrorMessage(s1, t1) == HttpErrorMessage(s2, t2)
    ensures s1 == s2 && t1 == t2
  {
    var r := HttpErrorMessage(s1, t1);
    var d1, d2 := NatToString(s1), NatToString(s2);
    if |d1| < |d2| {
      DigitNotSpace(d2, |d1|);
      assert false;
    } else if |d2| < |d1| {
      DigitNotSpace(d1, |d2|);
      assert false;
    }
    assert d1 == r[5..5 + |d1|] == d2;
    NatToStringInjective(s1, s2);
  }

  /** `fetchRssItems()` once the feed has answered with `res`. */
  method FetchRssItems(res: HttpResponse, parseXml: string -> Option<XmlDoc>,
                       parseDate: string -> Option<ParsedDate>)
    returns (r: Result<seq<FeedItem>, string>)
    ensures !res.ok ==> r == Err(HttpErrorMessage(res.status, res.statusText))
    ensures res.ok && parseXml(res.body).None? ==> r == Err("RSS parse error")
    ensures res.ok && parseXml(res.body).Some? ==>
      r == Ok(SortByTs(Normalized(RawItemsOf(ChannelItems(parseXml(res.body).value)), parseDate)))
  {
    if !res.ok {
      return Err(HttpErrorMessage(res.status, res.statusText));
    }
    var doc := parseXml(res.body);
    if doc.None? {
      return Err("RSS parse error");
    }
    var items := NormalizeItems(ChannelItems(doc.value), parseDate);
    return Ok(items);
  }

  datatype RssBody = ItemsBody(items: seq<FeedItem>) | ErrorBody(error: string)

  /** `GET /api/rss`: the reader's outcome as an HTTP answer, 200 with the
      items or 502 with the error text. */
  method RssGet(res: HttpResponse, parseXml: string -> Option<XmlDoc>,
                parseDate: string -> Option<ParsedDate>)
    returns (status: nat, body: RssBody)
    ensures status == 200 || status == 502
    ensures status == 200 <==> body.ItemsBody?
    ensures !res.ok ==> body == ErrorBody(HttpErrorMessage(res.status, res.statusText))
    ensures res.ok && parseXml(res.body).None? ==> body == ErrorBody("RSS parse error")
    ensures res.ok && parseXml(res.body).Some? ==>
      body == ItemsBody(SortByTs(Normalized(RawItemsOf(ChannelItems(parseXml(res.body).value)), parseDate)))
  {
    var r := FetchRssItems(res, parseXml, parseDate);
    if r.Err? {
      status, body := 502, ErrorBody(r.error);
    } else {
      status, body := 200, ItemsBody(r.value);
    }
  }
}
