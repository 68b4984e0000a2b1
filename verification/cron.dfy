/** The scheduled run of app/api/cron/route.js: read the last snapshot,
    diff the fresh feed against it by id and fingerprint, store the new
    snapshot, and e-mail each configured recipient either the latest ten
    items or the changes, filtered to the recipient's distributors.

    Collaborators are parameters: `sha` is SHA-256 of the JSON payload,
    `parseJson` is `JSON.parse` (`None` when it throws), `filterFor` is the
    distributor filter `filterItemsByDistributeurs`, and `fetchInfo` is the
    outcome of the detail-page scrape for a link. */
module Cron {
  import opened Wrappers
  import opened Lists
  import opened Strings
  import opened Feed
  import opened EmailTemplate
  import opened Email

  // ---------------------------------------------------------------------
  // Previous snapshot

  /** What `JSON.parse` yields for a stored snapshot text. */
  datatype ParsedJson = JsonArray(elems: seq<FeedItem>) | JsonOther

  /** The `items` column of a snapshot row: missing or falsy, an array, a
      JSON text, or some other value. */
  datatype SnapshotItems = ItemsAbsent | ItemsArray(elems: seq<FeedItem>) | ItemsText(text: string) | ItemsOther

  datatype Snapshot = Snapshot(items: SnapshotItems)

  /** `normalizeSnapshotItems`: the previous items, or nothing when the
      snapshot is missing, holds no array, or holds text that does not parse
      to an array. */
  function NormalizeSnapshotItems(snapshot: Option<Snapshot>, parseJson: string -> Option<ParsedJson>): (r: seq<FeedItem>)
    ensures snapshot.None? ==> r == []
    ensures snapshot.Some? && snapshot.value.items.ItemsArray? ==> r == snapshot.value.items.elems
    ensures snapshot.Some? && snapshot.value.items.ItemsText? && snapshot.value.items.text != "" ==>
      (var parsed := parseJson(snapshot.value.items.text);
       parsed.Some? && parsed.value.JsonArray? ==> r == parsed.value.elems)
    ensures snapshot.Some? && (snapshot.value.items.ItemsAbsent? || snapshot.value.items.ItemsOther?) ==> r == []
    ensures r != [] ==>
      (snapshot.Some? &&
       (snapshot.value.items.ItemsArray? ||
        (snapshot.value.items.ItemsText? && parseJson(snapshot.value.items.text) == Some(JsonArray(r)))))
  {
    if snapshot.None? then []
    else match snapshot.value.items
      case ItemsAbsent => []
      case ItemsArray(xs) => xs
      case ItemsText(t) =>
        if t == "" then []
        else (match parseJson(t) case Some(JsonArray(xs)) => xs case _ => [])
      case ItemsOther => []
  }

  // ---------------------------------------------------------------------
  // Fingerprints

  /** The six fields `hashItem` serialises, in its order. */
  datatype Payload = Payload(id: string, title: string, link: string, pubDate: string,
                             descriptionHtml: string, enclosureUrl: string)

  function PayloadOf(item: FeedItem): Payload
  {
    Payload(item.id, item.title, item.link, item.pubDate, item.descriptionHtml, item.enclosureUrl)
  }

  /** `hashItem`. */
  function HashItem(item: FeedItem, sha: Payload -> string): string
  {
    sha(PayloadOf(item))
  }

  /** The fingerprint sees only the six payload fields: the parsed date, the
      timestamp and the distributor fields never change it. */
  lemma HashIgnoresOtherFields(a: FeedItem, b: FeedItem, sha: Payload -> string)
    requires PayloadOf(a) == PayloadOf(b)
    ensures HashItem(a, sha) == HashItem(b, sha)
  {
  }

  /** With a collision-free hash, equal fingerprints mean equal payloads. */
  lemma HashDetectsChanges(a: FeedItem, b: FeedItem, sha: Payload -> string)
    requires forall p, q :: sha(p) == sha(q) ==> p == q
    requires HashItem(a, sha) == HashItem(b, sha)
    ensures a.id == b.id && a.title == b.title && a.link == b.link && a.pubDate == b.pubDate
      && a.descriptionHtml == b.descriptionHtml && a.enclosureUrl == b.enclosureUrl
  {
  }

  /** The ids occurring in `items`. */
  function IdSet(items: seq<FeedItem>): (r: set<string>)
    ensures forall i :: 0 <= i < |items| ==> items[i].id in r
    decreases |items|
  {
    if items == [] then {} else IdSet(items[..|items| - 1]) + {items[|items| - 1].id}
  }

  lemma {:induction false} IdSetWitness(items: seq<FeedItem>, id: string)
    requires id in IdSet(items)
    ensures exists i :: 0 <= i < |items| && items[i].id == id
    decreases |items|
  {
    if items[|items| - 1].id != id {
      IdSetWitness(items[..|items| - 1], id);
      var i :| 0 <= i < |items| - 1 && items[..|items| - 1][i].id == id;
      assert items[i].id == id;
    }
  }

  /** `buildHashMap`: id to fingerprint, later items overwriting earlier
      ones with the same id. */
  function BuildHashMap(items: seq<FeedItem>, sha: Payload -> string): (m: map<string, string>)
    ensures m.Keys == IdSet(items)
    decreases |items|
  {
    if items == [] then map[]
    else
      var last := items[|items| - 1];
      BuildHashMap(items[..|items| - 1], sha)[last.id := HashItem(last, sha)]
  }

  /** Each id maps to the fingerprint of its last occurrence. */
  lemma {:induction false} BuildHashMapLastWins(items: seq<FeedItem>, sha: Payload -> string, i: nat)
    requires i < |items|
    requires forall j :: i < j < |items| ==> items[j].id != items[i].id
    ensures BuildHashMap(items, sha)[items[i].id] == HashItem(items[i], sha)
    decreases |items|
  {
    if i < |items| - 1 {
      var init := items[..|items| - 1];
      assert init[i] == items[i];
      BuildHashMapLastWins(init, sha, i);
    }
  }

  // ---------------------------------------------------------------------
  // Changes

  predicate IsNew(prevMap: map<string, string>, item: FeedItem)
  {
    item.id !in prevMap
  }

  /** `previousMap.has(id) && previousMap.get(id) !== currentMap.get(id)`. */
  predicate IsChanged(prevMap: map<string, string>, curMap: map<string, string>, item: FeedItem)
  {
    item.id in prevMap && (item.id !in curMap || prevMap[item.id] != curMap[item.id])
  }

  predicate IsRemoved(curMap: map<string, string>, item: FeedItem)
  {
    item.id !in curMap
  }

  datatype Diff = Diff(newItems: seq<FeedItem>, changedItems: seq<FeedItem>, removedItems: seq<FeedItem>)

  /** The three filters of the run. */
  function ComputeDiff(prev: seq<FeedItem>, cur: seq<FeedItem>, sha: Payload -> string): Diff
  {
    var prevMap := BuildHashMap(prev, sha);
    var curMap := BuildHashMap(cur, sha);
    Diff(Filter(cur, item => IsNew(prevMap, item)),
         Filter(cur, item => IsChanged(prevMap, curMap, item)),
         Filter(prev, item => IsRemoved(curMap, item)))
  }

  /** What each list holds: new items are current items whose id was not
      there before, changed items are current items whose id was there with
      another fingerprint, removed items are previous items whose id is
      gone. */
  lemma DiffMembership(prev: seq<FeedItem>, cur: seq<FeedItem>, sha: Payload -> string, x: FeedItem)
    ensures var d := ComputeDiff(prev, cur, sha);
      && (x in d.newItems <==> x in cur && x.id !in IdSet(prev))
      && (x in d.changedItems <==>
            (x in cur && x.id in IdSet(prev) && BuildHashMap(prev, sha)[x.id] != BuildHashMap(cur, sha)[x.id]))
      && (x in d.removedItems <==> x in prev && x.id !in IdSet(cur))
  {
    var d := ComputeDiff(prev, cur, sha);
    if x in cur {
      var i :| 0 <= i < |cur| && cur[i] == x;
      assert x.id in IdSet(cur);
    }
  }

  /** New and changed items are disjoint, order-preserving selections of
      the current items; removed items are an order-preserving selection of
      the previous ones. */
  lemma DiffShape(prev: seq<FeedItem>, cur: seq<FeedItem>, sha: Payload -> string)
    ensures var d := ComputeDiff(prev, cur, sha);
      && IsSubsequence(d.newItems, cur)
      && IsSubsequence(d.changedItems, cur)
      && IsSubsequence(d.removedItems, prev)
      && (forall x :: x in d.newItems ==> x !in d.changedItems)
      && |d.newItems| + |d.changedItems| <= |cur|
  {
    var prevMap := BuildHashMap(prev, sha);
    var curMap := BuildHashMap(cur, sha);
    FilterIsSubsequence(cur, item => IsNew(prevMap, item));
    FilterIsSubsequence(cur, item => IsChanged(prevMap, curMap, item));
    FilterIsSubsequence(prev, item => IsRemoved(curMap, item));
    FilterDisjointCount(cur, item => IsNew(prevMap, item), item => IsChanged(prevMap, curMap, item));
  }

  /** A feed compared with itself has no changes. */
  lemma DiffOfSelf(items: seq<FeedItem>, sha: Payload -> string)
    ensures ComputeDiff(items, items, sha) == Diff([], [], [])
  {
    var m := BuildHashMap(items, sha);
    forall x | x in items ensures x.id in m {
      var i :| 0 <= i < |items| && items[i] == x;
    }
    FilterNone(items, item => IsNew(m, item));
    FilterNone(items, item => IsChanged(m, m, item));
    FilterNone(items, item => IsRemoved(m, item));
  }

  /** Without usable previous items everything current is new and nothing
      is changed or removed. */
  lemma DiffFromNothing(cur: seq<FeedItem>, sha: Payload -> string)
    ensures ComputeDiff([], cur, sha) == Diff(cur, [], [])
  {
    var prevMap := BuildHashMap([], sha);
    var curMap := BuildHashMap(cur, sha);
    FilterAll(cur, item => IsNew(prevMap, item));
    FilterNone(cur, item => IsChanged(prevMap, curMap, item));
  }

  /** `hasDiff`. */
  predicate HasDiff(d: Diff)
  {
    |d.newItems| > 0 || |d.changedItems| > 0 || |d.removedItems| > 0
  }

  // ---------------------------------------------------------------------
  // Mode and branch

  /** `process.env.CRON_EMAIL_MODE || "auto"`, an unset variable read as "". */
  function CronModeSetting(env: string): string
  {
    if env != "" then env else "auto"
  }

  /** `normalizeEmailMode`. */
  function NormalizeEmailMode(mode: string): (r: string)
    ensures r == "diff" || r == "latest10" || r == "auto"
    ensures r == "diff" <==> ToLower(Trim(mode)) == "diff"
    ensures r == "latest10" <==> ToLower(Trim(mode)) == "latest10"
  {
    var normalized := ToLower(Trim(mode));
    if normalized == "diff" then "diff"
    else if normalized == "latest10" then "latest10"
    else "auto"
  }

  /** Lower-case letters and digits only. */
  predicate LowerWord(w: string)
  {
    w == [] || ((('a' <= w[0] <= 'z') || ('0' <= w[0] <= '9')) && LowerWord(w[1..]))
  }

  lemma {:induction false} LowerWordChars(w: string)
    requires LowerWord(w)
    ensures forall i :: 0 <= i < |w| ==> 'a' <= w[i] <= 'z' || '0' <= w[i] <= '9'
  {
    if w != [] {
      LowerWordChars(w[1..]);
      forall i | 1 <= i < |w| ensures 'a' <= w[i] <= 'z' || '0' <= w[i] <= '9' {
        assert w[i] == w[1..][i - 1];
      }
    }
  }

  /** A lower-case word is its own trimmed lower-case form. */
  lemma PlainWord(w: string)
    requires LowerWord(w)
    ensures ToLower(Trim(w)) == w
  {
    LowerWordChars(w);
    PlainWordUnspaced(w);
    TrimOfTrimmed(w);
    PlainWordLower(w);
  }

  lemma PlainWordUnspaced(w: string)
    requires forall i :: 0 <= i < |w| ==> 'a' <= w[i] <= 'z' || '0' <= w[i] <= '9'
    ensures w != [] ==> !IsSpace(w[0]) && !IsSpace(w[|w| - 1])
  {
  }

  lemma PlainWordLower(w: string)
    requires forall i :: 0 <= i < |w| ==> 'a' <= w[i] <= 'z' || '0' <= w[i] <= '9'
    ensures ToLower(w) == w
  {
    var l := ToLower(w);
    forall i | 0 <= i < |w| ensures l[i] == w[i] {
      assert l[i] == LowerChar(w[i]);
    }
  }

  /** Normalising twice is normalising once. */
  lemma NormalizeEmailModeIdempotent(mode: string)
    ensures NormalizeEmailMode(NormalizeEmailMode(mode)) == NormalizeEmailMode(mode)
  {
    var r := NormalizeEmailMode(mode);
    if r == "diff" {
      assert LowerWord("diff");
    } else if r == "latest10" {
      assert LowerWord("latest10");
    } else {
      assert LowerWord("auto");
    }
    PlainWord(r);
  }

  /** Case and surrounding whitespace do not matter. */
  lemma NormalizeEmailModeInsensitive(mode: string)
    ensures NormalizeEmailMode(ToLower(mode)) == NormalizeEmailMode(mode)
    ensures NormalizeEmailMode(Trim(mode)) == NormalizeEmailMode(mode)
  {
    TrimToLowerCommute(mode);
    ToLowerIdempotent(Trim(mode));
    TrimIdempotent(mode);
  }

  datatype Branch = Latest10 | DiffEmails | NoEmails

  /** The run's choice: the latest ten items when the mode asks for them or
      there is no previous snapshot, provided the feed is non-empty;
      otherwise the changes, in "diff" or "auto" mode, when a snapshot
      exists and something changed; otherwise no e-mail. */
  function ChooseBranch(desired: string, hasSnapshot: bool, currentCount: nat, hasDiff: bool): (b: Branch)
    ensures b == Latest10 <==> (desired == "latest10" || !hasSnapshot) && currentCount > 0
    ensures b == DiffEmails ==> hasSnapshot && hasDiff && desired != "latest10"
    ensures b == NoEmails <==>
      !((desired == "latest10" || !hasSnapshot) && currentCount > 0) &&
      !((desired == "diff" || desired == "auto") && hasSnapshot && hasDiff)
  {
    var shouldSendLatest10 := desired == "latest10" || !hasSnapshot;
    var shouldSendDiff := desired == "diff" || desired == "auto";
    if shouldSendLatest10 && currentCount > 0 then Latest10
    else if shouldSendDiff && hasSnapshot && hasDiff then DiffEmails
    else NoEmails
  }

  // ---------------------------------------------------------------------
  // Plain-text bodies

  /** `item.title || item.id`. */
  function DisplayName(item: FeedItem): string
  {
    if item.title != "" then item.title else item.id
  }

  /** One line of a text list: `- name (link)` or `- name (no link)`. */
  function ItemLine(item: FeedItem): (r: string)
    ensures r == "- " + (if item.title != "" then item.title else item.id) + " (" +
      (if item.link != "" then item.link else "no link") + ")"
    ensures "- " <= r && r[|r| - 1] == ')'
  {
    "- " + DisplayName(item) + " (" + (if item.link != "" then item.link else "no link") + ")"
  }

  /** `formatList`. */
  function FormatList(items: seq<FeedItem>): string
  {
    Join(Map(items, ItemLine), "\n")
  }

  const NoneLine: string := "- none"

  /** `formatList(items) || "- none"`. */
  function ListOrNone(items: seq<FeedItem>): string
  {
    var list := FormatList(items);
    if list != "" then list else NoneLine
  }

  /** The lines a list contributes to a text body. */
  function SectionLines(items: seq<FeedItem>): (r: seq<string>)
    ensures r != []
  {
    if items == [] then [NoneLine] else Map(items, ItemLine)
  }

  /** A list renders as its lines: "- none" alone when it is empty, one
      line per item otherwise. */
  lemma ListOrNoneLines(items: seq<FeedItem>)
    ensures ListOrNone(items) == Join(SectionLines(items), "\n")
  {
    if items != [] {
      var lines := Map(items, ItemLine);
      if |lines| > 1 {
        assert Join(lines, "\n") == lines[0] + "\n" + Join(lines[1..], "\n");
      }
      assert "- " <= Join(lines, "\n");
    }
  }

  /** A joined group at the front of a join can be spread out. */
  lemma JoinGroupFront(mid: seq<string>, b: seq<string>, sep: string)
    requires mid != []
    ensures Join([Join(mid, sep)] + b, sep) == Join(mid + b, sep)
  {
    if b == [] {
      assert [Join(mid, sep)] + b == [Join(mid, sep)];
      assert mid + b == mid;
    } else {
      JoinAppend([Join(mid, sep)], b, sep);
      JoinAppend(mid, b, sep);
    }
  }

  /** Putting a joined group in place of its lines does not change a join. */
  lemma JoinNested(a: seq<string>, mid: seq<string>, b: seq<string>, sep: string)
    requires mid != []
    ensures Join(a + [Join(mid, sep)] + b, sep) == Join(a + mid + b, sep)
  {
    var j := Join(mid, sep);
    if a == [] {
      assert a + [j] + b == [j] + b;
      assert a + mid + b == mid + b;
      JoinGroupFront(mid, b, sep);
    } else {
      assert a + [j] + b == a + ([j] + b);
      assert a + mid + b == a + (mid + b);
      JoinAppend(a, [j] + b, sep);
      JoinAppend(a, mid + b, sep);
      JoinGroupFront(mid, b, sep);
    }
  }

  /** No title, id or link holds a line break. */
  predicate SingleLineFields(items: seq<FeedItem>)
  {
    forall i :: 0 <= i < |items| ==> '\n' !in items[i].title && '\n' !in items[i].id && '\n' !in items[i].link
  }

  lemma SectionLinesSingle(items: seq<FeedItem>)
    requires SingleLineFields(items)
    ensures forall k :: 0 <= k < |SectionLines(items)| ==> '\n' !in SectionLines(items)[k]
  {
    if items != [] {
      forall k | 0 <= k < |items| ensures '\n' !in ItemLine(items[k]) {
        var it := items[k];
        var line := ItemLine(it);
        assert line == "- " + DisplayName(it) + " (" + (if it.link != "" then it.link else "no link") + ")";
      }
    }
  }

  lemma DigitsSingleLine(n: nat)
    ensures '\n' !in NatToString(n)
  {
    var s := NatToString(n);
    forall i | 0 <= i < |s| ensures s[i] != '\n' {
      assert IsDigit(s[i]);
    }
  }

  function CountHeader(name: string, n: nat): string
  {
    name + " (" + NatToString(n) + "):"
  }

  const FooterText: string := "View the full feed in the RappelConso RSS dashboard."
  const DiffIntro: string := "Latest changes detected in the RappelConso RSS feed."

  /** `change` or `changes`. */
  function Subject(total: nat): (r: string)
  {
    "RappelConso updates: " + NatToString(total) + " change" + (if total == 1 then "" else "s")
  }

  /** The subject states the number of changes, readable back, and uses the
      plural unless there is exactly one. */
  lemma SubjectCounts(total: nat)
    ensures var s := Subject(total);
      var digits := NatToString(total);
      && "RappelConso updates: " <= s
      && ParseNat(s[21..21 + |digits|]) == total
      && (s[|s| - 1] == 's' <==> total != 1)
  {
    var s := Subject(total);
    var digits := NatToString(total);
    assert s[21..21 + |digits|] == digits;
    NatToStringRoundTrip(total);
  }

  /** `buildEmailContent`. */
  function BuildEmailContent(d: Diff): (c: Content)
    ensures c.subject == Subject(|d.newItems| + |d.changedItems| + |d.removedItems|)
    ensures c.html == EmailDocument(DefaultTitle, DiffIntro,
      [Section("New items", d.newItems), Section("Changed items", d.changedItems),
       Section("Removed items", d.removedItems)], FooterText)
  {
    var text := Join([
      CountHeader("New items", |d.newItems|), ListOrNone(d.newItems), "",
      CountHeader("Changed items", |d.changedItems|), ListOrNone(d.changedItems), "",
      CountHeader("Removed items", |d.removedItems|), ListOrNone(d.removedItems)], "\n");
    var html := EmailDocument(DefaultTitle, DiffIntro,
      [Section("New items", d.newItems), Section("Changed items", d.changedItems),
       Section("Removed items", d.removedItems)],
      FooterText);
    Content(Subject(|d.newItems| + |d.changedItems| + |d.removedItems|), text, html)
  }

  /** The change e-mail's page opens with "RappelConso updates" and holds
      the new, changed and removed sections one after the other. */
  lemma DiffHtmlSections(d: Diff)
    ensures var page := RenderDocument(BuildEmailContent(d).html);
      DocumentOpen + DefaultTitle + TitleClose <= page &&
      Contains(page, BuildSection(Section("New items", d.newItems)) +
        BuildSection(Section("Changed items", d.changedItems)) +
        BuildSection(Section("Removed items", d.removedItems)))
  {
    var doc := BuildEmailContent(d).html;
    var s1, s2, s3 := Section("New items", d.newItems), Section("Changed items", d.changedItems),
      Section("Removed items", d.removedItems);
    assert doc.sections == [s1, s2, s3] && doc.title == DefaultTitle;
    DefaultTitleIsPlain();
    ConcatMapThree(s1, s2, s3, BuildSection);
    RenderShowsSections(doc);
  }

  /** The lines of the change e-mail's text: each heading with its count,
      then one line per item or "- none", sections separated by an empty
      line. */
  function DiffLines(d: Diff): (r: seq<string>)
  {
    [CountHeader("New items", |d.newItems|)] + SectionLines(d.newItems)
    + ["", CountHeader("Changed items", |d.changedItems|)] + SectionLines(d.changedItems)
    + ["", CountHeader("Removed items", |d.removedItems|)] + SectionLines(d.removedItems)
  }

  /** The text body is those lines joined with newlines. */
  lemma DiffTextIsJoin(d: Diff)
    ensures BuildEmailContent(d).text == Join(DiffLines(d), "\n")
  {
    ListOrNoneLines(d.newItems);
    ListOrNoneLines(d.changedItems);
    ListOrNoneLines(d.removedItems);
    ThreeSectionsJoin(CountHeader("New items", |d.newItems|), SectionLines(d.newItems),
      CountHeader("Changed items", |d.changedItems|), SectionLines(d.changedItems),
      CountHeader("Removed items", |d.removedItems|), SectionLines(d.removedItems));
  }

  /** Joining three headed sections, each section given already joined, is
      joining all their lines. */
  lemma ThreeSectionsJoin(h1: string, l1: seq<string>, h2: string, l2: seq<string>, h3: string, l3: seq<string>)
    requires l1 != [] && l2 != [] && l3 != []
    ensures Join([h1, Join(l1, "\n"), "", h2, Join(l2, "\n"), "", h3, Join(l3, "\n")], "\n")
      == Join([h1] + l1 + ["", h2] + l2 + ["", h3] + l3, "\n")
  {
    var j1, j2, j3 := Join(l1, "\n"), Join(l2, "\n"), Join(l3, "\n");
    calc {
      Join([h1, j1, "", h2, j2, "", h3, j3], "\n");
      { assert [h1, j1, "", h2, j2, "", h3, j3] == [h1] + [j1] + ["", h2, j2, "", h3, j3];
        JoinNested([h1], l1, ["", h2, j2, "", h3, j3], "\n"); }
      Join([h1] + l1 + ["", h2, j2, "", h3, j3], "\n");
      { assert [h1] + l1 + ["", h2, j2, "", h3, j3] == ([h1] + l1 + ["", h2]) + [j2] + ["", h3, j3];
        JoinNested([h1] + l1 + ["", h2], l2, ["", h3, j3], "\n"); }
      Join([h1] + l1 + ["", h2] + l2 + ["", h3, j3], "\n");
      { assert [h1] + l1 + ["", h2] + l2 + ["", h3, j3] == ([h1] + l1 + ["", h2] + l2 + ["", h3]) + [j3] + [];
        JoinNested([h1] + l1 + ["", h2] + l2 + ["", h3], l3, [], "\n");
        assert [h1] + l1 + ["", h2] + l2 + ["", h3] + l3 + [] == [h1] + l1 + ["", h2] + l2 + ["", h3] + l3; }
      Join([h1] + l1 + ["", h2] + l2 + ["", h3] + l3, "\n");
    }
  }

  /** A heading holds no newline when its name holds none. */
  lemma CountHeaderSingle(name: string, n: nat)
    requires '\n' !in name
    ensures '\n' !in CountHeader(name, n)
  {
    DigitsSingleLine(n);
  }

  /** No line of a list's section holds a newline, as a membership fact. */
  lemma SectionLinesMember(items: seq<FeedItem>)
    requires SingleLineFields(items)
    ensures forall l :: l in SectionLines(items) ==> '\n' !in l
  {
    SectionLinesSingle(items);
  }

  /** None of the lines holds a newline when no item field does. */
  lemma DiffLinesSingle(d: Diff)
    requires SingleLineFields(d.newItems) && SingleLineFields(d.changedItems) && SingleLineFields(d.removedItems)
    ensures forall k :: 0 <= k < |DiffLines(d)| ==> '\n' !in DiffLines(d)[k]
  {
    SectionLinesMember(d.newItems);
    SectionLinesMember(d.changedItems);
    SectionLinesMember(d.removedItems);
    CountHeaderSingle("New items", |d.newItems|);
    CountHeaderSingle("Changed items", |d.changedItems|);
    CountHeaderSingle("Removed items", |d.removedItems|);
    var all := DiffLines(d);
    assert forall l :: l in all ==> '\n' !in l;
    forall k | 0 <= k < |all| ensures '\n' !in all[k] {
      assert all[k] in all;
    }
  }

  /** Splitting the text at newlines gives back exactly those lines. */
  lemma DiffTextLines(d: Diff)
    requires SingleLineFields(d.newItems) && SingleLineFields(d.changedItems) && SingleLineFields(d.removedItems)
    ensures Split(BuildEmailContent(d).text, c => c == '\n') == DiffLines(d)
  {
    DiffTextIsJoin(d);
    DiffLinesSingle(d);
    SplitJoin(DiffLines(d), c => c == '\n', '\n');
  }

  /** The text and markup shared by both "latest items" e-mails. */
  function LatestItemsContent(subject: string, intro: string, items: seq<FeedItem>): (c: Content)
    ensures c.subject == subject
    ensures c.html == EmailDocument("RappelConso latest items", intro, [Section("Latest 10 items", items)], FooterText)
  {
    Content(subject,
      Join([intro, "", ListOrNone(items)], "\n"),
      EmailDocument("RappelConso latest items", intro, [Section("Latest 10 items", items)], FooterText))
  }

  /** Its text is the intro, an empty line, then one line per item or
      "- none", joined with newlines. */
  lemma LatestItemsTextJoin(subject: string, intro: string, items: seq<FeedItem>)
    ensures LatestItemsContent(subject, intro, items).text == Join([intro, ""] + SectionLines(items), "\n")
  {
    var lines := SectionLines(items);
    ListOrNoneLines(items);
    JoinNested([intro, ""], lines, [], "\n");
    assert [intro, ""] + [Join(lines, "\n")] + [] == [intro, "", Join(lines, "\n")];
    assert [intro, ""] + lines + [] == [intro, ""] + lines;
  }

  /** When neither the intro nor any item field holds a newline, splitting
      the text at newlines gives exactly those lines back. */
  lemma LatestItemsTextLines(subject: string, intro: string, items: seq<FeedItem>)
    requires '\n' !in intro && SingleLineFields(items)
    ensures Split(LatestItemsContent(subject, intro, items).text, c => c == '\n') == [intro, ""] + SectionLines(items)
  {
    LatestItemsTextJoin(subject, intro, items);
    var lines := SectionLines(items);
    SectionLinesMember(items);
    var all := [intro, ""] + lines;
    forall k | 0 <= k < |all| ensures '\n' !in all[k] {
      assert all[k] in all;
    }
    SplitJoin(all, c => c == '\n', '\n');
  }

  const CronTestSubject: string := "RappelConso cron test: latest 10 items"
  const CronTestIntro: string := "Cron test email: latest 10 items from the RSS feed."

  /** `buildTestingEmailContent` of the cron route. */
  function CronTestingContent(items: seq<FeedItem>): (c: Content)
    ensures c.subject == CronTestSubject
    ensures c.html == EmailDocument("RappelConso latest items", CronTestIntro, [Section("Latest 10 items", items)], FooterText)
  {
    LatestItemsContent(CronTestSubject, CronTestIntro, items)
  }

  /** Its page holds the one "Latest 10 items" section. */
  lemma LatestItemsHtml(subject: string, intro: string, items: seq<FeedItem>)
    ensures var page := RenderDocument(LatestItemsContent(subject, intro, items).html);
      Contains(page, BuildSection(Section("Latest 10 items", items)))
  {
    var doc := LatestItemsContent(subject, intro, items).html;
    var s := Section("Latest 10 items", items);
    assert doc.sections == [s];
    ConcatMapOne(s, BuildSection);
    RenderShowsSections(doc);
  }

  /** Its text is the cron intro, an empty line, then one line per item, or
      "- none" for an empty list. */
  lemma CronTestingText(items: seq<FeedItem>)
    ensures CronTestingContent(items).text == Join([CronTestIntro, ""] + SectionLines(items), "\n")
    ensures items == [] ==> CronTestingContent(items).text == CronTestIntro + "\n\n" + NoneLine
  {
    LatestItemsTextJoin(CronTestSubject, CronTestIntro, items);
    if items == [] {
      assert [CronTestIntro, ""] + SectionLines(items) == [CronTestIntro, "", NoneLine];
      assert Join([CronTestIntro, "", NoneLine], "\n") == CronTestIntro + "\n" + Join(["", NoneLine], "\n");
      assert Join(["", NoneLine], "\n") == "" + "\n" + Join([NoneLine], "\n");
    }
  }

  // ---------------------------------------------------------------------
  // Enrichment

  /** One item with its detail-page fields: link-less items and failed
      fetches leave the item as it is. */
  function EnrichItem(item: FeedItem, fetchInfo: string -> Result<DistributorInfo, string>): (r: FeedItem)
    ensures item.link == "" ==> r == item
    ensures item.link != "" && fetchInfo(item.link).Err? ==> r == item
    ensures item.link != "" && fetchInfo(item.link).Ok? ==> r == WithInfo(item, fetchInfo(item.link).value)
    ensures r.(distributeursRaw := item.distributeursRaw, distributeursList := item.distributeursList) == item
  {
    if item.link == "" then item
    else match fetchInfo(item.link)
      case Ok(info) => WithInfo(item, info)
      case Err(_) => item
  }

  /** `enrichItemsWithDistributeurs`, the concurrent fetches taken one after
      the other. */
  function Enrich(items: seq<FeedItem>, fetchInfo: string -> Result<DistributorInfo, string>): (r: seq<FeedItem>)
    ensures |r| == |items|
    ensures forall i :: 0 <= i < |items| ==> r[i] == EnrichItem(items[i], fetchInfo)
  {
    if items == [] then [] else [EnrichItem(items[0], fetchInfo)] + Enrich(items[1..], fetchInfo)
  }

  /** Enrichment keeps every item in its place with its id and fingerprint. */
  lemma EnrichKeepsIdentity(items: seq<FeedItem>, fetchInfo: string -> Result<DistributorInfo, string>, sha: Payload -> string)
    ensures var r := Enrich(items, fetchInfo);
      forall i :: 0 <= i < |items| ==> r[i].id == items[i].id && HashItem(r[i], sha) == HashItem(items[i], sha)
  {
    var r := Enrich(items, fetchInfo);
    forall i | 0 <= i < |items| ensures r[i].id == items[i].id && HashItem(r[i], sha) == HashItem(items[i], sha) {
      assert PayloadOf(r[i]) == PayloadOf(items[i]);
    }
  }

  // ---------------------------------------------------------------------
  // Sending

  /** One entry of `getEmailRecipientConfigs()`. */
  datatype RecipientConfig = RecipientConfig(email: string, distributeurs: seq<string>)

  /** One entry of `emailMessages`. */
  datatype SentMessage = SentMessage(email: string, messageId: string)

  /** A recipient that gets an e-mail, with its content. */
  datatype Planned = Planned(email: string, content: Content)

  /** What one recipient adds to the plan: its content, unless that is
      null. */
  function PlanEntry(recipient: RecipientConfig, build: RecipientConfig -> Option<Content>): (r: seq<Planned>)
    ensures |r| <= 1
  {
    if build(recipient).Some? then [Planned(recipient.email, build(recipient).value)] else []
  }

  /** The recipients that get an e-mail, in order: those whose content is
      not null. */
  function Plan(recipients: seq<RecipientConfig>, build: RecipientConfig -> Option<Content>): (r: seq<Planned>)
    ensures |r| <= |recipients|
    decreases |recipients|
  {
    if recipients == [] then []
    else Plan(recipients[..|recipients| - 1], build) + PlanEntry(recipients[|recipients| - 1], build)
  }

  lemma {:induction false} PlanAppend(a: seq<RecipientConfig>, b: seq<RecipientConfig>, build: RecipientConfig -> Option<Content>)
    ensures Plan(a + b, build) == Plan(a, build) + Plan(b, build)
    decreases |b|
  {
    if b == [] {
      assert a + b == a;
    } else {
      var ab := a + b;
      var init := b[..|b| - 1];
      var last := b[|b| - 1];
      assert b == init + [last];
      assert ab == (a + init) + [last];
      assert ab[..|ab| - 1] == a + init;
      PlanAppend(a, init, build);
      var e := PlanEntry(last, build);
      calc {
        Plan(ab, build);
        Plan(a + init, build) + e;
        (Plan(a, build) + Plan(init, build)) + e;
        Plan(a, build) + (Plan(init, build) + e);
        Plan(a, build) + Plan(b, build);
      }
    }
  }

  /** Recipients without content get nothing; when every recipient has
      content, every one of them is planned, in order. */
  lemma {:induction false} PlanSkipsEmpty(recipients: seq<RecipientConfig>, build: RecipientConfig -> Option<Content>)
    ensures (forall k :: 0 <= k < |recipients| ==> build(recipients[k]).None?) ==> Plan(recipients, build) == []
    ensures (forall k :: 0 <= k < |recipients| ==> build(recipients[k]).Some?) ==>
      |Plan(recipients, build)| == |recipients| &&
      forall k :: 0 <= k < |recipients| ==> Plan(recipients, build)[k] == Planned(recipients[k].email, build(recipients[k]).value)
    decreases |recipients|
  {
    if recipients != [] {
      var init := recipients[..|recipients| - 1];
      PlanSkipsEmpty(init, build);
      assert forall k :: 0 <= k < |init| ==> init[k] == recipients[k];
    }
  }

  /** What the mailer sends with: GMAIL_USER, the parsed ALERT_EMAIL_TO
      addressees, and the transport's answers. */
  datatype Sender = Sender(from: string, to: seq<string>, transport: (nat, Message) -> Result<string, string>)

  function SenderOf(mailer: Mailer): Sender
  {
    Sender(mailer.gmailUser, mailer.addressees, mailer.transport)
  }

  /** Sending one more planned message as the transport's message number
      `k`, after the entries `sent`. */
  function SendNext(sender: Sender, k: nat, planned: Planned, sent: seq<SentMessage>): Result<seq<SentMessage>, string>
  {
    if sender.to == [] then Err(NoRecipientError)
    else match sender.transport(k, MessageFor(sender.from, sender.to, planned.content))
      case Err(e) => Err(e)
      case Ok(id) => Ok(sent + [SentMessage(planned.email, id)])
  }

  /** What sending the plan one recipient after the other yields, the
      transport having already been given `start` messages: the sent
      entries, or the first error. */
  function SendOutcome(sender: Sender, start: nat, plan: seq<Planned>): Result<seq<SentMessage>, string>
    decreases |plan|
  {
    if plan == [] then Ok([])
    else
      var before := SendOutcome(sender, start, plan[..|plan| - 1]);
      if before.Err? then before else SendNext(sender, start + |plan| - 1, plan[|plan| - 1], before.value)
  }

  /** The messages the transport receives while the plan is sent. */
  function HandedOver(sender: Sender, start: nat, plan: seq<Planned>): seq<Message>
    decreases |plan|
  {
    if plan == [] then []
    else
      var init := plan[..|plan| - 1];
      if SendOutcome(sender, start, init).Err? || sender.to == [] then HandedOver(sender, start, init)
      else HandedOver(sender, start, init) + [MessageFor(sender.from, sender.to, plan[|plan| - 1].content)]
  }

  /** The message each planned recipient's content becomes. */
  function PlanMessages(sender: Sender, plan: seq<Planned>): (r: seq<Message>)
    ensures |r| == |plan|
    decreases |plan|
  {
    if plan == [] then []
    else PlanMessages(sender, plan[..|plan| - 1]) + [MessageFor(sender.from, sender.to, plan[|plan| - 1].content)]
  }

  /** One more planned message, in terms of the plan before it. */
  lemma SendSnoc(sender: Sender, start: nat, plan: seq<Planned>, planned: Planned)
    ensures var before := SendOutcome(sender, start, plan);
      SendOutcome(sender, start, plan + [planned]) ==
        (if before.Err? then before else SendNext(sender, start + |plan|, planned, before.value))
  {
    SnocSlices(plan, planned);
  }

  lemma HandedOverSnoc(sender: Sender, start: nat, plan: seq<Planned>, planned: Planned)
    ensures HandedOver(sender, start, plan + [planned]) ==
      HandedOver(sender, start, plan) +
      (if SendOutcome(sender, start, plan).Err? || sender.to == [] then [] else [MessageFor(sender.from, sender.to, planned.content)])
  {
    SnocSlices(plan, planned);
  }

  lemma PlanMessagesSnoc(sender: Sender, plan: seq<Planned>, planned: Planned)
    ensures PlanMessages(sender, plan + [planned]) == PlanMessages(sender, plan) + [MessageFor(sender.from, sender.to, planned.content)]
  {
    SnocSlices(plan, planned);
  }

  lemma SnocSlices<T>(xs: seq<T>, x: T)
    ensures var p := xs + [x]; p != [] && p[..|p| - 1] == xs && p[|p| - 1] == x
  {
  }

  /** Once a send has failed, nothing more is sent. */
  lemma {:induction false} ErrPersists(sender: Sender, start: nat, p: seq<Planned>, q: seq<Planned>)
    requires SendOutcome(sender, start, p).Err?
    ensures SendOutcome(sender, start, p + q) == SendOutcome(sender, start, p)
    ensures HandedOver(sender, start, p + q) == HandedOver(sender, start, p)
    decreases |q|
  {
    if q == [] {
      assert p + q == p;
    } else {
      var pq := p + q;
      assert pq[..|pq| - 1] == p + q[..|q| - 1];
      ErrPersists(sender, start, p, q[..|q| - 1]);
    }
  }

  /** Nothing reaches the transport when ALERT_EMAIL_TO names nobody. */
  lemma {:induction false} NoAddressees(sender: Sender, start: nat, plan: seq<Planned>)
    requires sender.to == []
    ensures HandedOver(sender, start, plan) == []
    ensures plan != [] ==> SendOutcome(sender, start, plan) == Err(NoRecipientError)
    decreases |plan|
  {
    if plan != [] {
      NoAddressees(sender, start, plan[..|plan| - 1]);
    }
  }

  /** A fully sent plan gives one entry per planned recipient, in order, and
      every planned message reached the transport. */
  lemma {:induction false} SendOutcomeComplete(sender: Sender, start: nat, plan: seq<Planned>)
    requires SendOutcome(sender, start, plan).Ok?
    ensures var sent := SendOutcome(sender, start, plan).value;
      && |sent| == |plan|
      && (forall k :: 0 <= k < |plan| ==> sent[k].email == plan[k].email)
      && HandedOver(sender, start, plan) == PlanMessages(sender, plan)
    decreases |plan|
  {
    if plan != [] {
      var init := plan[..|plan| - 1];
      var last := plan[|plan| - 1];
      assert plan == init + [last];
      SendSnoc(sender, start, init, last);
      HandedOverSnoc(sender, start, init, last);
      PlanMessagesSnoc(sender, init, last);
      SendOutcomeComplete(sender, start, init);
      var sent := SendOutcome(sender, start, plan).value;
      var before := SendOutcome(sender, start, init).value;
      assert |sent| == |before| + 1 && sent[..|before|] == before && sent[|before|].email == last.email;
      forall k | 0 <= k < |plan| ensures sent[k].email == plan[k].email {
        if k < |init| {
          assert sent[k] == before[k] && init[k] == plan[k];
        }
      }
    }
  }

  /** A failed send stops the run: the transport got the planned messages
      in order up to and including the failing one and none after it; when
      ALERT_EMAIL_TO names nobody, it got nothing. */
  lemma {:induction false} SendOutcomeStops(sender: Sender, start: nat, plan: seq<Planned>)
    requires SendOutcome(sender, start, plan).Err?
    ensures var h := HandedOver(sender, start, plan);
      && h <= PlanMessages(sender, plan)
      && (h == [] <==> sender.to == [])
      && (h != [] ==> sender.transport(start + |h| - 1, h[|h| - 1]).Err?
                      && SendOutcome(sender, start, plan).error == sender.transport(start + |h| - 1, h[|h| - 1]).error)
    decreases |plan|
  {
    var init := plan[..|plan| - 1];
    var last := plan[|plan| - 1];
    assert plan == init + [last];
    SendSnoc(sender, start, init, last);
    HandedOverSnoc(sender, start, init, last);
    PlanMessagesSnoc(sender, init, last);
    if sender.to == [] {
      NoAddressees(sender, start, plan);
    } else if SendOutcome(sender, start, init).Err? {
      SendOutcomeStops(sender, start, init);
    } else {
      SendOutcomeComplete(sender, start, init);
    }
  }

  /** `sendFilteredEmails`: each recipient in order; those whose content is
      null are skipped; the first failure ends the loop. */
  method SendFilteredEmails(mailer: Mailer, recipients: seq<RecipientConfig>, build: RecipientConfig -> Option<Content>)
    returns (r: Result<seq<SentMessage>, string>)
    modifies mailer
    ensures r == SendOutcome(SenderOf(mailer), |old(mailer.handedOver)|, Plan(recipients, build))
    ensures mailer.handedOver == old(mailer.handedOver) + HandedOver(SenderOf(mailer), |old(mailer.handedOver)|, Plan(recipients, build))
  {
    ghost var sender := SenderOf(mailer);
    ghost var start := |mailer.handedOver|;
    ghost var before := mailer.handedOver;
    var emailMessages: seq<SentMessage> := [];
    var i := 0;
    while i < |recipients|
      invariant 0 <= i <= |recipients|
      invariant SendOutcome(sender, start, Plan(recipients[..i], build)) == Ok(emailMessages)
      invariant mailer.handedOver == before + HandedOver(sender, start, Plan(recipients[..i], build))
    {
      ghost var done := Plan(recipients[..i], build);
      var recipient := recipients[i];
      var content := build(recipient);
      PlanStep(recipients, i, build);
      if content.Some? {
        ghost var planned := Planned(recipient.email, content.value);
        ghost var handedBefore := mailer.handedOver;
        var sent := mailer.SendAlertEmail(content.value, [recipient.email]);
        SendStep(sender, start, before, done, planned, emailMessages, handedBefore, mailer.handedOver, sent);
        if sent.Err? {
          PlanSplit(recipients, i + 1, build);
          ErrPersists(sender, start, done + [planned], Plan(recipients[i + 1..], build));
          return Err(sent.error);
        }
        emailMessages := emailMessages + [SentMessage(recipient.email, sent.value)];
      }
      i := i + 1;
    }
    assert recipients[..i] == recipients;
    r := Ok(emailMessages);
  }

  /** One sending turn of `SendFilteredEmails`, stated on the plan: what
      `SendAlertEmail` did to the transport's log and what it answered is
      what sending one more planned message means. */
  lemma SendStep(sender: Sender, start: nat, before: seq<Message>, done: seq<Planned>, planned: Planned,
                 sentSoFar: seq<SentMessage>, handedBefore: seq<Message>, handedAfter: seq<Message>,
                 answer: Result<string, string>)
    requires SendOutcome(sender, start, done) == Ok(sentSoFar)
    requires handedBefore == before + HandedOver(sender, start, done)
    requires |before| == start
    requires sender.to == [] ==> answer == Err(NoRecipientError) && handedAfter == handedBefore
    requires sender.to != [] ==>
      var m := MessageFor(sender.from, sender.to, planned.content);
      handedAfter == handedBefore + [m] && answer == sender.transport(|handedBefore|, m)
    ensures handedAfter == before + HandedOver(sender, start, done + [planned])
    ensures answer.Err? ==> SendOutcome(sender, start, done + [planned]) == Err(answer.error)
    ensures answer.Ok? ==> SendOutcome(sender, start, done + [planned]) == Ok(sentSoFar + [SentMessage(planned.email, answer.value)])
  {
    SendOutcomeComplete(sender, start, done);
    SendSnoc(sender, start, done, planned);
    HandedOverSnoc(sender, start, done, planned);
    if sender.to != [] {
      assert |handedBefore| == start + |done|;
    }
  }

  /** The plan of the first `i + 1` recipients extends that of the first
      `i` by recipient `i`'s entry, if it has content. */
  lemma PlanStep(recipients: seq<RecipientConfig>, i: nat, build: RecipientConfig -> Option<Content>)
    requires i < |recipients|
    ensures build(recipients[i]).None? ==> Plan(recipients[..i + 1], build) == Plan(recipients[..i], build)
    ensures build(recipients[i]).Some? ==>
      Plan(recipients[..i + 1], build) == Plan(recipients[..i], build) + [Planned(recipients[i].email, build(recipients[i]).value)]
  {
    var upto := recipients[..i + 1];
    var done := Plan(recipients[..i], build);
    assert upto[..|upto| - 1] == recipients[..i];
    assert upto[|upto| - 1] == recipients[i];
    assert Plan(upto, build) == done + PlanEntry(recipients[i], build);
    if build(recipients[i]).None? {
      assert done + [] == done;
    }
  }

  /** The plan of all recipients is that of the first `i` followed by that
      of the rest. */
  lemma PlanSplit(recipients: seq<RecipientConfig>, i: nat, build: RecipientConfig -> Option<Content>)
    requires i <= |recipients|
    ensures Plan(recipients, build) == Plan(recipients[..i], build) + Plan(recipients[i..], build)
  {
    var a, b := recipients[..i], recipients[i..];
    assert a + b == recipients;
    PlanAppend(a, b, build);
  }

  /** `emailMessages[0]?.messageId || null`. */
  function FirstMessageId(sent: seq<SentMessage>): (r: Option<string>)
    ensures r.Some? <==> sent != [] && sent[0].messageId != ""
    ensures r.Some? ==> r.value == sent[0].messageId
  {
    if sent != [] && sent[0].messageId != "" then Some(sent[0].messageId) else None
  }

  /** The content one recipient gets on the latest-ten path: null when the
      filter leaves nothing. */
  function TestingContentFor(items: seq<FeedItem>, filterFor: (seq<FeedItem>, seq<string>) -> seq<FeedItem>,
                             recipient: RecipientConfig): (r: Option<Content>)
    ensures r.None? <==> filterFor(items, recipient.distributeurs) == []
    ensures r.Some? ==> r.value == CronTestingContent(filterFor(items, recipient.distributeurs))
  {
    var filtered := filterFor(items, recipient.distributeurs);
    if |filtered| == 0 then None else Some(CronTestingContent(filtered))
  }

  /** The content one recipient gets on the change path: null exactly when
      all three filtered lists are empty. */
  function DiffContentFor(enriched: Diff, filterFor: (seq<FeedItem>, seq<string>) -> seq<FeedItem>,
                          recipient: RecipientConfig): (r: Option<Content>)
    ensures r.None? <==>
      filterFor(enriched.newItems, recipient.distributeurs) == [] &&
      filterFor(enriched.changedItems, recipient.distributeurs) == [] &&
      filterFor(enriched.removedItems, recipient.distributeurs) == []
    ensures r.Some? ==> r.value == BuildEmailContent(Diff(
      filterFor(enriched.newItems, recipient.distributeurs),
      filterFor(enriched.changedItems, recipient.distributeurs),
      filterFor(enriched.removedItems, recipient.distributeurs)))
  {
    var filteredNew := filterFor(enriched.newItems, recipient.distributeurs);
    var filteredChanged := filterFor(enriched.changedItems, recipient.distributeurs);
    var filteredRemoved := filterFor(enriched.removedItems, recipient.distributeurs);
    if |filteredNew| == 0 && |filteredChanged| == 0 && |filteredRemoved| == 0 then None
    else Some(BuildEmailContent(Diff(filteredNew, filteredChanged, filteredRemoved)))
  }

  // ---------------------------------------------------------------------
  // The run

  /** The snapshot table as one run sees it: the latest row, and every
      snapshot the run inserts. */
  class SnapshotStore {
    const latest: Option<Snapshot>
    var inserted: seq<seq<FeedItem>>

    constructor (latest: Option<Snapshot>)
      ensures this.latest == latest && inserted == []
    {
      this.latest := latest;
      inserted := [];
    }

    /** `insertSnapshot`. */
    method Insert(items: seq<FeedItem>)
      modifies this
      ensures inserted == old(inserted) + [items]
    {
      inserted := inserted + [items];
    }
  }

  datatype Counts = Counts(previous: nat, current: nat, newCount: nat, changedCount: nat, removedCount: nat)

  /** The answers of the run. */
  datatype CronResponse =
    | FeedFailed(error: string)
    | NoRecipients
    | SendFailed(message: string)
    | Completed(counts: Counts, emailMessageId: Option<string>, emailMode: string)

  function StatusOf(r: CronResponse): nat
  {
    match r
    case FeedFailed(_) => 502
    case NoRecipients => 400
    case SendFailed(_) => 502
    case Completed(_, _, _) => 200
  }

  function CountsOf(prev: seq<FeedItem>, cur: seq<FeedItem>, d: Diff): Counts
  {
    Counts(|prev|, |cur|, |d.newItems|, |d.changedItems|, |d.removedItems|)
  }

  /** The recipients that get an e-mail on the chosen path. */
  function BranchPlan(b: Branch, cur: seq<FeedItem>, d: Diff, recipients: seq<RecipientConfig>,
                      filterFor: (seq<FeedItem>, seq<string>) -> seq<FeedItem>,
                      fetchInfo: string -> Result<DistributorInfo, string>): seq<Planned>
  {
    match b
    case Latest10 =>
      var enriched := Enrich(Take(cur, 10), fetchInfo);
      Plan(recipients, recipient => TestingContentFor(enriched, filterFor, recipient))
    case DiffEmails =>
      var enriched := Diff(Enrich(d.newItems, fetchInfo), Enrich(d.changedItems, fetchInfo), Enrich(d.removedItems, fetchInfo));
      Plan(recipients, recipient => DiffContentFor(enriched, filterFor, recipient))
    case NoEmails => []
  }

  /** The answer once the chosen path has been sent. */
  function ResponseAfter(b: Branch, outcome: Result<seq<SentMessage>, string>, counts: Counts): CronResponse
  {
    if outcome.Err? then SendFailed(outcome.error)
    else Completed(counts, FirstMessageId(outcome.value),
      if outcome.value == [] then "none" else if b == Latest10 then "test" else "diff")
  }

  /** `GET /api/cron` once authorised, `feed` being what `fetchRssItems`
      returned: a failed feed stops the run before anything is stored; a
      fetched feed is stored as the new snapshot before recipients are even
      looked at; no recipients means 400 and no e-mail; otherwise the chosen
      path is sent and the answer reports the counts, the first message id
      and the e-mail mode. */
  method RunCron(store: SnapshotStore, mailer: Mailer, cronEmailModeEnv: string,
                 feed: Result<seq<FeedItem>, string>, recipients: seq<RecipientConfig>,
                 filterFor: (seq<FeedItem>, seq<string>) -> seq<FeedItem>,
                 fetchInfo: string -> Result<DistributorInfo, string>,
                 sha: Payload -> string, parseJson: string -> Option<ParsedJson>)
    returns (resp: CronResponse)
    modifies store, mailer
    ensures feed.Err? ==>
      resp == FeedFailed(feed.error) && store.inserted == old(store.inserted) && mailer.handedOver == old(mailer.handedOver)
    ensures feed.Ok? ==> store.inserted == old(store.inserted) + [feed.value]
    ensures feed.Ok? && recipients == [] ==> resp == NoRecipients && mailer.handedOver == old(mailer.handedOver)
    ensures feed.Ok? && recipients != [] ==>
      var prev := NormalizeSnapshotItems(store.latest, parseJson);
      var d := ComputeDiff(prev, feed.value, sha);
      var b := ChooseBranch(NormalizeEmailMode(CronModeSetting(cronEmailModeEnv)), store.latest.Some?, |feed.value|, HasDiff(d));
      var plan := BranchPlan(b, feed.value, d, recipients, filterFor, fetchInfo);
      && mailer.handedOver == old(mailer.handedOver) + HandedOver(SenderOf(mailer), |old(mailer.handedOver)|, plan)
      && resp == ResponseAfter(b, SendOutcome(SenderOf(mailer), |old(mailer.handedOver)|, plan), CountsOf(prev, feed.value, d))
  {
    var latestSnapshot := store.latest;
    var previousItems := NormalizeSnapshotItems(latestSnapshot, parseJson);
    if feed.Err? {
      return FeedFailed(feed.error);
    }
    var currentItems := feed.value;
    var d := ComputeDiff(previousItems, currentItems, sha);
    store.Insert(currentItems);

    var desiredEmailMode := NormalizeEmailMode(CronModeSetting(cronEmailModeEnv));
    var b := ChooseBranch(desiredEmailMode, latestSnapshot.Some?, |currentItems|, HasDiff(d));
    if |recipients| == 0 {
      return NoRecipients;
    }
    var counts := CountsOf(previousItems, currentItems, d);
    var outcome: Result<seq<SentMessage>, string> := Ok([]);
    if b == Latest10 {
      var enriched := Enrich(Take(currentItems, 10), fetchInfo);
      outcome := SendFilteredEmails(mailer, recipients, recipient => TestingContentFor(enriched, filterFor, recipient));
    } else if b == DiffEmails {
      var enriched := Diff(Enrich(d.newItems, fetchInfo), Enrich(d.changedItems, fetchInfo), Enrich(d.removedItems, fetchInfo));
      outcome := SendFilteredEmails(mailer, recipients, recipient => DiffContentFor(enriched, filterFor, recipient));
    }
    resp := ResponseAfter(b, outcome, counts);
  }

  /** The first run, with no snapshot yet, never sends the change e-mail;
      with a non-empty feed it sends the latest ten. */
  lemma FirstRunSendsLatest(desired: string, currentCount: nat, hasDiff: bool)
    ensures ChooseBranch(desired, false, currentCount, hasDiff) != DiffEmails
    ensures currentCount > 0 ==> ChooseBranch(desired, false, currentCount, hasDiff) == Latest10
  {
  }
}
