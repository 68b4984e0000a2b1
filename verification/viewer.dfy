/** The dashboard of components/RappelConsoRssViewer.jsx, without its
    rendering: label helpers, the seen-id bookkeeping of `refresh`, the
    `filtered` memo, the per-day `stats` and the paging of `visible`. The
    browser's storage is the previous seen list handed in and the stored
    list handed back. */
module Viewer {
  import opened Wrappers
  import opened Lists
  import opened Strings
  import opened Feed

  /** An item as the dashboard holds it: the fields the helpers read, with
      `descriptionText` the tag-free description `fetchFeed` computes. */
  datatype ViewItem = ViewItem(id: string, title: string, descriptionText: string,
                               enclosureUrl: string, pubDateISO: string)

  // ---------------------------------------------------------------------
  // Label helpers

  const Ellipsis: string := "\U{2026}"

  /** `pickShortDistributorLabel(list, raw)`; `list` is None when it is not
      an array, and a missing `raw` is "". */
  function PickShortDistributorLabel(list: Option<seq<string>>, raw: string): (r: string)
    ensures list.Some? && |list.value| == 1 ==> r == list.value[0]
    ensures list.Some? && |list.value| > 1 ==>
      r == list.value[0] + " +" + NatToString(|list.value| - 1)
    ensures (list.None? || list.value == []) && |raw| > 40 ==>
      |r| == 38 && r[..37] == raw[..37] && r[37..] == Ellipsis
    ensures (list.None? || list.value == []) && |raw| <= 40 ==> r == raw
  {
    if list.Some? && |list.value| == 1 then list.value[0]
    else if list.Some? && |list.value| > 1 then list.value[0] + " +" + NatToString(|list.value| - 1)
    else if |raw| > 40 then raw[..37] + Ellipsis
    else raw
  }

  /** The dash of `split("-")`. */
  predicate IsDash(c: char)
  {
    c == '-'
  }

  /** `fmtISODateDMY(iso)`: three dash-separated parts are written day,
      month, year with slashes; anything else is kept as it is. */
  function FmtIsoDateDmy(iso: string): (r: string)
    ensures iso == "" ==> r == ""
    ensures |Split(iso, IsDash)| != 3 ==> r == iso
  {
    if iso == "" then ""
    else
      var parts := Split(iso, IsDash);
      if |parts| == 3 then parts[2] + "/" + parts[1] + "/" + parts[0] else iso
  }

  /** A date written year-month-day comes out day/month/year. */
  lemma FmtIsoDateOfParts(y: string, m: string, d: string)
    requires '-' !in y && '-' !in m && '-' !in d
    ensures FmtIsoDateDmy(y + "-" + m + "-" + d) == d + "/" + m + "/" + y
  {
    var iso := Join([y, m, d], "-");
    assert [y, m, d][1..] == [m, d] && [m, d][1..] == [d];
    assert Join([m, d], "-") == m + "-" + d;
    assert iso == y + "-" + (m + "-" + d);
    assert y + "-" + m + "-" + d == iso;
    forall k | 0 <= k < 3 ensures '-' !in [y, m, d][k] {
    }
    SplitJoin([y, m, d], IsDash, '-');
  }

  /** A text with more or fewer than two dashes is left as it is. */
  lemma FmtIsoDateKeepsOthers(iso: string, parts: seq<string>)
    requires parts != [] && |parts| != 3
    requires forall k :: 0 <= k < |parts| ==> '-' !in parts[k]
    requires iso == Join(parts, "-")
    ensures FmtIsoDateDmy(iso) == iso
  {
    SplitJoin(parts, IsDash, '-');
  }

  /** `classNames(...xs)`; a falsy argument is "". */
  function ClassNames(xs: seq<string>): (r: string)
    ensures Filter(xs, NonEmpty) == [] ==> r == ""
  {
    Join(Filter(xs, NonEmpty), " ")
  }

  /** The class list splits back at its spaces into the truthy arguments,
      in order. */
  lemma ClassNamesSplit(xs: seq<string>)
    requires Filter(xs, NonEmpty) != []
    requires forall x :: x in xs ==> ' ' !in x
    ensures Split(ClassNames(xs), c => c == ' ') == Filter(xs, NonEmpty)
    ensures IsSubsequence(Split(ClassNames(xs), c => c == ' '), xs)
  {
    var kept := Filter(xs, NonEmpty);
    forall k | 0 <= k < |kept| ensures ' ' !in kept[k] {
      assert kept[k] in kept;
    }
    SplitJoin(kept, c => c == ' ', ' ');
    FilterIsSubsequence(xs, NonEmpty);
  }

  // ---------------------------------------------------------------------
  // Seen ids

  /** The truthy ids of the feed, in feed order. */
  function IdsOf(parsed: seq<ViewItem>): (r: seq<string>)
    ensures forall x :: x in r ==> x != ""
    decreases |parsed|
  {
    if parsed == [] then []
    else
      var last := parsed[|parsed| - 1];
      IdsOf(parsed[..|parsed| - 1]) + (if last.id != "" then [last.id] else [])
  }

  /** An id is listed exactly when some item carries it. */
  lemma {:induction false} IdsOfMembers(parsed: seq<ViewItem>)
    ensures forall x :: x in IdsOf(parsed) <==> x != "" && exists k :: 0 <= k < |parsed| && parsed[k].id == x
    decreases |parsed|
  {
    if parsed != [] {
      var init := parsed[..|parsed| - 1];
      IdsOfMembers(init);
      forall x | x != "" && (exists k :: 0 <= k < |parsed| && parsed[k].id == x) ensures x in IdsOf(parsed) {
        var k :| 0 <= k < |parsed| && parsed[k].id == x;
        if k < |parsed| - 1 {
          assert init[k] == parsed[k];
        }
      }
      forall x | x in IdsOf(init) ensures exists k :: 0 <= k < |parsed| && parsed[k].id == x {
        var k :| 0 <= k < |init| && init[k].id == x;
        assert parsed[k] == init[k];
      }
    }
  }

  /** `prevSeen` when it is an array, else []. */
  function PrevList(prevSeen: Option<seq<string>>): (r: seq<string>)
    ensures prevSeen.None? ==> r == []
    ensures prevSeen.Some? ==> r == prevSeen.value
  {
    if prevSeen.Some? then prevSeen.value else []
  }

  /** `computedNewIds`: nothing is new without a non-empty previous list;
      otherwise the feed's ids that list does not hold. */
  function NewIds(prevSeen: Option<seq<string>>, parsed: seq<ViewItem>): (r: seq<string>)
    ensures prevSeen.None? || prevSeen.value == [] ==> r == []
  {
    if prevSeen.Some? && |prevSeen.value| != 0 then
      var seenSet := prevSeen.value;
      Filter(IdsOf(parsed), x => x !in seenSet)
    else []
  }

  /** With a previous list, the new ids are exactly the feed's ids it does
      not hold, in feed order. */
  lemma NewIdsExact(prevSeen: Option<seq<string>>, parsed: seq<ViewItem>)
    requires prevSeen.Some? && prevSeen.value != []
    ensures forall x :: x in NewIds(prevSeen, parsed) <==>
      x in IdsOf(parsed) && x !in prevSeen.value
    ensures IsSubsequence(NewIds(prevSeen, parsed), IdsOf(parsed))
  {
    var seenSet := prevSeen.value;
    FilterIsSubsequence(IdsOf(parsed), x => x !in seenSet);
  }

  /** The loop adding the feed's ids to `seenSet2`; the stored array lists
      the set in insertion order. */
  method RecordSeenIds(prevSeen: Option<seq<string>>, parsed: seq<ViewItem>) returns (stored: seq<string>)
    ensures stored == Dedup(PrevList(prevSeen) + IdsOf(parsed))
  {
    var prev := PrevList(prevSeen);
    var seenSet2: set<string> := set x | x in prev;
    stored := Dedup(prev);
    assert prev + IdsOf(parsed[..0]) == prev;
    var i := 0;
    while i < |parsed|
      invariant 0 <= i <= |parsed|
      invariant stored == Dedup(prev + IdsOf(parsed[..i]))
      invariant forall x :: x in seenSet2 <==> x in prev + IdsOf(parsed[..i])
    {
      var x := parsed[i];
      ghost var upto := parsed[..i + 1];
      assert upto[..|upto| - 1] == parsed[..i] && upto[|upto| - 1] == x;
      if x.id != "" {
        assert prev + IdsOf(upto) == (prev + IdsOf(parsed[..i])) + [x.id];
        DedupFromSnoc({}, prev + IdsOf(parsed[..i]), x.id);
        if x.id !in seenSet2 {
          stored := stored + [x.id];
        }
        seenSet2 := seenSet2 + {x.id};
      } else {
        assert IdsOf(upto) == IdsOf(parsed[..i]);
      }
      i := i + 1;
    }
    assert parsed[..i] == parsed;
  }

  /** The stored list never loses an id, adds every id of the feed, holds
      nothing else and holds each id once. */
  lemma SeenIdsGrow(prevSeen: Option<seq<string>>, parsed: seq<ViewItem>)
    ensures var stored := Dedup(PrevList(prevSeen) + IdsOf(parsed));
      && (forall x :: x in stored <==> x in PrevList(prevSeen) || x in IdsOf(parsed))
      && NoDuplicates(stored)
      && (forall x :: x in NewIds(prevSeen, parsed) ==> x in stored)
  {
    DedupProperties(PrevList(prevSeen) + IdsOf(parsed));
  }

  // ---------------------------------------------------------------------
  // The `filtered` memo

  /** The filter controls of the page and the distributor details loaded. */
  datatype Filters = Filters(q: string, onlyWithImages: bool, fromDate: string, toDate: string,
                             selected: seq<string>, details: map<string, DistributorInfo>)

  /** `detailsMap[it.id]?.distributeursList || []`. */
  function DistList(details: map<string, DistributorInfo>, id: string): seq<string>
  {
    if id in details then details[id].distributeursList else []
  }

  /** `detailsMap[it.id]?.distributeursRaw || ""`. */
  function DistRaw(details: map<string, DistributorInfo>, id: string): string
  {
    if id in details then details[id].distributeursRaw else ""
  }

  /** The lower-cased text the query is searched in. */
  function Haystack(it: ViewItem, details: map<string, DistributorInfo>): string
  {
    ToLower(it.title + " " + it.descriptionText + " " + DistRaw(details, it.id))
  }

  /** The callback of `items.filter`, check by check. */
  predicate Keep(f: Filters, it: ViewItem)
  {
    var qq := ToLower(Trim(f.q));
    if f.onlyWithImages && it.enclosureUrl == "" then false
    else if f.fromDate != "" && (it.pubDateISO == "" || Less(it.pubDateISO, f.fromDate)) then false
    else if f.toDate != "" && (it.pubDateISO == "" || Less(f.toDate, it.pubDateISO)) then false
    else if |f.selected| != 0 && !(exists x :: x in DistList(f.details, it.id) && x in f.selected) then false
    else if qq == "" then true
    else Contains(Haystack(it, f.details), qq)
  }

  /** The image filter, when it is on. */
  predicate ImageOk(f: Filters, it: ViewItem)
  {
    f.onlyWithImages ==> it.enclosureUrl != ""
  }

  /** The date range, each bound compared as text when it is set. */
  predicate DatesOk(f: Filters, it: ViewItem)
  {
    && (f.fromDate != "" ==> it.pubDateISO != "" && (it.pubDateISO == f.fromDate || Less(f.fromDate, it.pubDateISO)))
    && (f.toDate != "" ==> it.pubDateISO != "" && (it.pubDateISO == f.toDate || Less(it.pubDateISO, f.toDate)))
  }

  /** A selection of distributors, when there is one, shares a name with
      the item's. */
  predicate DistributorsOk(f: Filters, it: ViewItem)
  {
    f.selected != [] ==> exists x :: x in DistList(f.details, it.id) && x in f.selected
  }

  /** The trimmed, lower-cased query, when there is one, occurs in the item's
      lower-cased text. */
  predicate QueryOk(f: Filters, it: ViewItem)
  {
    ToLower(Trim(f.q)) != "" ==> Contains(Haystack(it, f.details), ToLower(Trim(f.q)))
  }

  /** The callback keeps an item exactly when every active filter holds. */
  lemma KeepIffAllFilters(f: Filters, it: ViewItem)
    ensures Keep(f, it) <==> ImageOk(f, it) && DatesOk(f, it) && DistributorsOk(f, it) && QueryOk(f, it)
  {
    if it.pubDateISO != "" {
      if f.fromDate != "" {
        LessTotal(it.pubDateISO, f.fromDate);
        if Less(it.pubDateISO, f.fromDate) { LessAsymmetric(it.pubDateISO, f.fromDate); }
        if it.pubDateISO == f.fromDate { LessIrreflexive(it.pubDateISO); }
      }
      if f.toDate != "" {
        LessTotal(it.pubDateISO, f.toDate);
        if Less(f.toDate, it.pubDateISO) { LessAsymmetric(f.toDate, it.pubDateISO); }
        if it.pubDateISO == f.toDate { LessIrreflexive(it.pubDateISO); }
      }
    }
  }

  /** `filtered`: the items the callback keeps. */
  function Filtered(items: seq<ViewItem>, f: Filters): (r: seq<ViewItem>)
    ensures IsSubsequence(r, items)
    ensures forall it :: it in r ==> it in items && Keep(f, it)
    ensures forall it :: it in items && Keep(f, it) ==> it in r
  {
    FilterIsSubsequence(items, it => Keep(f, it));
    Filter(items, it => Keep(f, it))
  }

  /** An item is shown exactly when it is in the list and passes every
      active filter. */
  lemma FilteredExact(items: seq<ViewItem>, f: Filters)
    ensures forall it :: it in Filtered(items, f) <==>
      it in items && ImageOk(f, it) && DatesOk(f, it) && DistributorsOk(f, it) && QueryOk(f, it)
  {
    forall it | it in items {
      KeepIffAllFilters(f, it);
    }
  }

  // ---------------------------------------------------------------------
  // Per-day stats

  /** One bar of the chart. */
  datatype DayCount = DayCount(date: string, count: nat)

  /** The number of items published on day `d`. */
  function CountDate(xs: seq<ViewItem>, d: string): nat
    decreases |xs|
  {
    if xs == [] then 0
    else CountDate(xs[..|xs| - 1], d) + (if xs[|xs| - 1].pubDateISO == d then 1 else 0)
  }

  /** Ascending without repetition. */
  predicate StrictlyAscending(s: seq<string>)
  {
    forall i, j :: 0 <= i < j < |s| ==> Less(s[i], s[j])
  }

  /** `x` put in its place in an ascending list. */
  function Insert(x: string, s: seq<string>): (r: seq<string>)
    ensures |r| == |s| + 1
    ensures forall y :: y in r <==> y == x || y in s
    decreases |s|
  {
    if s == [] || !Less(s[0], x) then [x] + s
    else [s[0]] + Insert(x, s[1..])
  }

  /** Inserting a new element keeps a list ascending. */
  lemma {:induction false} InsertAscending(x: string, s: seq<string>)
    requires StrictlyAscending(s) && x !in s
    ensures StrictlyAscending(Insert(x, s))
    decreases |s|
  {
    if s != [] && Less(s[0], x) {
      InsertAscending(x, s[1..]);
      var r := Insert(x, s);
      forall j | 0 < j < |r| ensures Less(r[0], r[j]) {
        assert r[j] in Insert(x, s[1..]);
        if r[j] != x {
          var k :| 1 <= k < |s| && s[k] == r[j];
        }
      }
    } else if s != [] {
      LessTotal(s[0], x);
      forall j | 0 <= j < |s| ensures Less(x, s[j]) {
        if j > 0 { LessTransitive(x, s[0], s[j]); }
      }
    }
  }

  /** `Array.from(counts.keys()).sort()` for distinct keys. */
  function SortDays(days: seq<string>): (r: seq<string>)
    ensures |r| == |days|
    ensures forall y :: y in r <==> y in days
    decreases |days|
  {
    if days == [] then [] else Insert(days[0], SortDays(days[1..]))
  }

  /** Sorting distinct days gives them in strictly ascending order. */
  lemma {:induction false} SortDaysAscending(days: seq<string>)
    requires NoDuplicates(days)
    ensures StrictlyAscending(SortDays(days))
    decreases |days|
  {
    if days != [] {
      assert NoDuplicates(days[1..]) by {
        forall i, j | 0 <= i < j < |days[1..]| ensures days[1..][i] != days[1..][j] {
          assert days[1..][i] == days[i + 1] && days[1..][j] == days[j + 1];
        }
      }
      SortDaysAscending(days[1..]);
      assert days[0] !in days[1..] by {
        forall k | 0 <= k < |days[1..]| ensures days[1..][k] != days[0] {
          assert days[1..][k] == days[k + 1];
        }
      }
      InsertAscending(days[0], SortDays(days[1..]));
    }
  }

  /** `days.slice(-14)`. */
  function LastDays(s: seq<string>): (r: seq<string>)
    ensures |r| <= 14 && (|s| <= 14 ==> r == s)
    ensures |s| > 14 ==> r == s[|s| - 14..]
  {
    if |s| <= 14 then s else s[|s| - 14..]
  }

  /** `tail.map((d) => ({ date: d, count: counts.get(d) || 0 }))`. */
  function Bars(tail: seq<string>, counts: map<string, nat>): (r: seq<DayCount>)
    ensures |r| == |tail|
    ensures forall k :: 0 <= k < |r| ==>
      r[k].date == tail[k] && r[k].count == (if tail[k] in counts then counts[tail[k]] else 0)
    decreases |tail|
  {
    if tail == [] then []
    else [DayCount(tail[0], if tail[0] in counts then counts[tail[0]] else 0)] + Bars(tail[1..], counts)
  }

  /** The counting loop: every dated item adds one to its day. */
  method CountDays(filtered: seq<ViewItem>) returns (counts: map<string, nat>, days: seq<string>)
    ensures forall d :: d in counts <==> d != "" && CountDate(filtered, d) > 0
    ensures forall d :: d in counts ==> counts[d] == CountDate(filtered, d)
    ensures forall d :: d in days <==> d in counts
    ensures NoDuplicates(days)
  {
    counts := map[];
    days := [];
    var i := 0;
    while i < |filtered|
      invariant 0 <= i <= |filtered|
      invariant forall d :: d in counts <==> d != "" && CountDate(filtered[..i], d) > 0
      invariant forall d :: d in counts ==> counts[d] == CountDate(filtered[..i], d)
      invariant forall d :: d in days <==> d in counts
      invariant NoDuplicates(days)
    {
      ghost var upto := filtered[..i + 1];
      assert upto[..|upto| - 1] == filtered[..i] && upto[|upto| - 1] == filtered[i];
      var d := filtered[i].pubDateISO;
      if d != "" {
        if d in counts {
          counts := counts[d := counts[d] + 1];
        } else {
          counts := counts[d := 1];
          days := days + [d];
        }
      }
      i := i + 1;
    }
    assert filtered[..i] == filtered;
  }

  /** `stats`: at most fourteen days, in ascending order, each with the
      number of items of that day; a dated day left out is earlier than
      all shown, and only when fourteen are shown. */
  method Stats(filtered: seq<ViewItem>) returns (stats: seq<DayCount>)
    ensures |stats| <= 14
    ensures forall i, j :: 0 <= i < j < |stats| ==> Less(stats[i].date, stats[j].date)
    ensures forall k :: 0 <= k < |stats| ==>
      stats[k].date != "" && stats[k].count == CountDate(filtered, stats[k].date) && stats[k].count > 0
    ensures forall d :: d != "" && CountDate(filtered, d) > 0 ==>
      (exists k :: 0 <= k < |stats| && stats[k].date == d) || (|stats| == 14 && Less(d, stats[0].date))
  {
    var counts, days := CountDays(filtered);
    var sorted := SortDays(days);
    SortDaysAscending(days);
    var tail := LastDays(sorted);
    stats := Bars(tail, counts);
    forall d | d != "" && CountDate(filtered, d) > 0
      ensures (exists k :: 0 <= k < |stats| && stats[k].date == d) || (|stats| == 14 && Less(d, stats[0].date))
    {
      LastDaysCover(sorted, d);
      if d in tail {
        var k :| 0 <= k < |tail| && tail[k] == d;
        assert stats[k].date == d;
      }
    }
    forall k | 0 <= k < |stats| ensures stats[k].date in counts {
      assert tail[k] in sorted;
    }
  }

  /** A day of an ascending list is among the last fourteen, or earlier
      than all of them. */
  lemma LastDaysCover(sorted: seq<string>, d: string)
    requires StrictlyAscending(sorted) && d in sorted
    ensures d in LastDays(sorted) || (|LastDays(sorted)| == 14 && Less(d, LastDays(sorted)[0]))
  {
    var p :| 0 <= p < |sorted| && sorted[p] == d;
    if |sorted| > 14 && p >= |sorted| - 14 {
      assert LastDays(sorted)[p - (|sorted| - 14)] == d;
    }
  }

  // ---------------------------------------------------------------------
  // Paging

  const PageStep: nat := 30

  /** `filtered.slice(0, pageSize)`. */
  function Visible(filtered: seq<ViewItem>, pageSize: nat): (r: seq<ViewItem>)
    ensures |r| == (if pageSize < |filtered| then pageSize else |filtered|)
    ensures r <= filtered
  {
    if pageSize < |filtered| then filtered[..pageSize] else filtered
  }

  /** The "Load more" click, offered only while some items are hidden. */
  function LoadMore(pageSize: nat, total: nat): (r: nat)
    requires pageSize < total
    ensures pageSize < r <= total
    ensures r == total || r == pageSize + PageStep
    ensures pageSize + PageStep <= total ==> r == pageSize + PageStep
    ensures pageSize + PageStep >= total ==> r == total
  {
    if pageSize + PageStep < total then pageSize + PageStep else total
  }

  /** `Math.max(0, filtered.length - pageSize)`. */
  function Remaining(pageSize: nat, total: nat): (r: nat)
    ensures pageSize < total ==> r == total - pageSize
    ensures pageSize >= total ==> r == 0
  {
    if pageSize < total then total - pageSize else 0
  }

  /** A click shows every item shown before and at least one more, and
      never asks for more items than there are. */
  lemma LoadMoreExtends(filtered: seq<ViewItem>, pageSize: nat)
    requires pageSize < |filtered|
    ensures Visible(filtered, pageSize) < Visible(filtered, LoadMore(pageSize, |filtered|))
    ensures LoadMore(pageSize, |filtered|) <= |filtered|
    ensures Remaining(LoadMore(pageSize, |filtered|), |filtered|) < Remaining(pageSize, |filtered|)
  {
    var next := LoadMore(pageSize, |filtered|);
    assert Visible(filtered, pageSize) == filtered[..pageSize];
    assert Visible(filtered, next) == filtered[..next];
  }

  /** Enough clicks show the whole list: starting from any page size,
      `n` clicks with `n * 30` covering the rest reach the end. */
  function LoadTimes(pageSize: nat, total: nat, n: nat): (r: nat)
    decreases n
  {
    if n == 0 || pageSize >= total then pageSize else LoadTimes(LoadMore(pageSize, total), total, n - 1)
  }

  lemma {:induction false} LoadMoreReachesEnd(pageSize: nat, total: nat, n: nat)
    requires pageSize <= total && pageSize + n * PageStep >= total
    ensures LoadTimes(pageSize, total, n) == total
    decreases n
  {
    if n > 0 && pageSize < total {
      var next := LoadMore(pageSize, total);
      assert next + (n - 1) * PageStep >= total;
      LoadMoreReachesEnd(next, total, n - 1);
    }
  }
}
