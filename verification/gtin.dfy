/** The GTIN search page, rappel_conso_gtin_search_rappel_conso_v_2.jsx:
    reading GTINs out of free text, the ODSQL `where` clauses, the record
    field helpers and the search with its automatic fallback from the
    one-GTIN-per-row dataset to the spaced one. The records API is a
    collaborator that answers each request and keeps the list of requests
    it received. */
module Gtin {
  import opened Wrappers
  import opened Lists
  import opened Strings

  // ---------------------------------------------------------------------
  // GTINs from free text

  /** The class `[^0-9]`. */
  predicate IsNonDigit(c: char)
  {
    !IsDigit(c)
  }

  /** The pieces of `String(raw).split(/[^0-9]+/g).map(trim).filter(Boolean)`. */
  function GtinParts(raw: string): (r: seq<string>)
  {
    Tokens(raw, IsNonDigit)
  }

  /** `normalizeGtinInput(raw)`: the digit runs of the input, each kept at
      its first occurrence. */
  method NormalizeGtinInput(raw: string) returns (uniq: seq<string>)
    ensures uniq == Dedup(GtinParts(raw))
  {
    var parts := GtinParts(raw);
    uniq := KeepFirstOccurrences(parts);
  }

  /** The `seen` / `uniq` loop of `normalizeGtinInput`. */
  method KeepFirstOccurrences(parts: seq<string>) returns (uniq: seq<string>)
    ensures uniq == Dedup(parts)
  {
    var seen: set<string> := {};
    uniq := [];
    var i := 0;
    while i < |parts|
      invariant 0 <= i <= |parts|
      invariant uniq == Dedup(parts[..i])
      invariant forall p :: p in seen <==> p in parts[..i]
    {
      var p := parts[i];
      assert parts[..i + 1] == parts[..i] + [p];
      DedupFromSnoc({}, parts[..i], p);
      if p !in seen {
        seen := seen + {p};
        uniq := uniq + [p];
      }
      i := i + 1;
    }
    assert parts[..i] == parts;
  }

  /** Every GTIN read is a non-empty string of digits; none is repeated;
      they keep the order of their first occurrence. */
  lemma GtinsShape(raw: string)
    ensures forall g :: g in Dedup(GtinParts(raw)) ==> g != "" && forall i :: 0 <= i < |g| ==> IsDigit(g[i])
    ensures NoDuplicates(Dedup(GtinParts(raw)))
    ensures IsSubsequence(Dedup(GtinParts(raw)), GtinParts(raw))
  {
    TokensShape(raw, IsNonDigit);
    DedupProperties(GtinParts(raw));
  }

  /** Every maximal run of digits of the input is among the GTINs read. */
  lemma DigitRunsKept(raw: string)
    ensures forall p :: p in Split(raw, IsNonDigit) && p != "" ==> p in Dedup(GtinParts(raw))
  {
    DedupProperties(GtinParts(raw));
    forall p | p in Split(raw, IsNonDigit) && p != "" ensures p in GtinParts(raw) {
      DigitRunIsTrimmed(p);
      CleanPieceIsToken(raw, IsNonDigit, p);
    }
  }

  /** A run of digits has no space to trim. */
  lemma DigitRunIsTrimmed(p: string)
    requires forall i :: 0 <= i < |p| ==> !IsNonDigit(p[i])
    ensures Trim(p) == p
  {
    if p != [] {
      assert !IsNonDigit(p[0]) && !IsNonDigit(p[|p| - 1]);
    }
    TrimOfTrimmed(p);
  }

  /** Reading the GTINs of text that is already a comma-separated list of
      distinct GTINs gives that list back. */
  lemma GtinsOfList(gtins: seq<string>)
    requires gtins != [] && NoDuplicates(gtins)
    requires forall k :: 0 <= k < |gtins| ==> gtins[k] != "" && forall i :: 0 <= i < |gtins[k]| ==> IsDigit(gtins[k][i])
    ensures Dedup(GtinParts(Join(gtins, ","))) == gtins
  {
    forall k | 0 <= k < |gtins| ensures IsToken(gtins[k], IsNonDigit) {
      var g := gtins[k];
      assert !IsSpace(g[0]) && !IsSpace(g[|g| - 1]);
      TrimOfTrimmed(g);
    }
    TokensOfJoin(gtins, IsNonDigit, ',');
    DedupOfDistinct({}, gtins);
  }

  /** Reading is idempotent: the GTINs read from their own list are the
      same. */
  lemma NormalizeIdempotent(raw: string)
    requires Dedup(GtinParts(raw)) != []
    ensures Dedup(GtinParts(Join(Dedup(GtinParts(raw)), ","))) == Dedup(GtinParts(raw))
  {
    var gtins := Dedup(GtinParts(raw));
    GtinsShape(raw);
    forall k | 0 <= k < |gtins| ensures gtins[k] != "" && forall i :: 0 <= i < |gtins[k]| ==> IsDigit(gtins[k][i]) {
      assert gtins[k] in gtins;
    }
    GtinsOfList(gtins);
  }

  // ---------------------------------------------------------------------
  // ODSQL clauses

  /** `field = "g"`. */
  function Equality(field: string, g: string): string
  {
    field + " = \"" + g + "\""
  }

  /** `field like "%g%"`: the field, the operator with the opening
      wildcard, the GTIN itself and the closing wildcard, in that order. */
  function BuildWhereContainsGtin(field: string, g: string): (r: string)
    ensures |r| == |field| + |g| + 10
    ensures r[..|field|] == field
    ensures r[|field|..|field| + 8] == " like \"%"
    ensures r[|field| + 8..|r| - 2] == g
    ensures r[|r| - 2..] == "%\""
  {
    field + " like \"%" + g + "%\""
  }

  /** `buildWhereExactGtins(field, gtins)`. */
  function BuildWhereExactGtins(field: string, gtins: seq<string>): (r: string)
    ensures gtins == [] <==> r == ""
    ensures |gtins| == 1 ==> r == Equality(field, gtins[0])
    ensures |gtins| > 1 ==> r == "(" + Join(Map(gtins, g => Equality(field, g)), " OR ") + ")"
    ensures |gtins| > 1 ==> r[0] == '(' && r[|r| - 1] == ')'
  {
    if |gtins| == 0 then ""
    else if |gtins| == 1 then Equality(field, gtins[0])
    else "(" + Join(Map(gtins, g => Equality(field, g)), " OR ") + ")"
  }

  /** The clause tests every GTIN asked for. */
  lemma ExactClauseMentionsEach(field: string, gtins: seq<string>)
    ensures forall k :: 0 <= k < |gtins| ==> Contains(BuildWhereExactGtins(field, gtins), Equality(field, gtins[k]))
  {
    if |gtins| == 1 {
      ContainsAt(Equality(field, gtins[0]), Equality(field, gtins[0]), 0);
    } else if |gtins| > 1 {
      var parts := Map(gtins, g => Equality(field, g));
      var j := Join(parts, " OR ");
      forall k | 0 <= k < |gtins| ensures Contains(BuildWhereExactGtins(field, gtins), Equality(field, gtins[k])) {
        JoinContainsEach(parts, " OR ", k);
        ContainsWithin("(", j, ")", parts[k]);
      }
    }
  }

  /** The fallback clause for several GTINs: the contains clauses, joined
      with OR, in parentheses. */
  function ContainsAny(field: string, gtins: seq<string>): string
  {
    "(" + Join(Map(gtins, g => BuildWhereContainsGtin(field, g)), " OR ") + ")"
  }

  /** The fallback clause looks for every GTIN asked for. */
  lemma ContainsAnyMentionsEach(field: string, gtins: seq<string>, k: nat)
    requires k < |gtins|
    ensures Contains(ContainsAny(field, gtins), BuildWhereContainsGtin(field, gtins[k]))
  {
    var parts := Map(gtins, g => BuildWhereContainsGtin(field, g));
    JoinContainsEach(parts, " OR ", k);
    ContainsWithin("(", Join(parts, " OR "), ")", parts[k]);
  }

  // ---------------------------------------------------------------------
  // Record fields

  /** The values a record field can hold, as far as these helpers look. */
  datatype JsValue =
    | JsUndefined
    | JsNull
    | JsString(s: string)
    | JsNumber(n: int)
    | JsBool(b: bool)
    | JsArray(items: seq<JsValue>)
    | JsObject

  /** `obj[k]` for a present record (`None` is a falsy `obj`). */
  function Field(obj: Option<map<string, JsValue>>, k: string): JsValue
  {
    if obj.Some? && k in obj.value then obj.value[k] else JsUndefined
  }

  /** `obj && obj[k] !== undefined && obj[k] !== null && obj[k] !== ""`. */
  predicate HasValue(obj: Option<map<string, JsValue>>, k: string)
  {
    obj.Some? && Field(obj, k) != JsUndefined && Field(obj, k) != JsNull && Field(obj, k) != JsString("")
  }

  /** `getFirst(obj, keys)`: the value of the first key that holds one, or
      `undefined`. */
  method GetFirst(obj: Option<map<string, JsValue>>, keys: seq<string>) returns (r: JsValue)
    ensures r == JsUndefined <==> forall i :: 0 <= i < |keys| ==> !HasValue(obj, keys[i])
    ensures r != JsUndefined ==>
      exists i :: 0 <= i < |keys| && HasValue(obj, keys[i]) && r == Field(obj, keys[i])
                && forall j :: 0 <= j < i ==> !HasValue(obj, keys[j])
  {
    var i := 0;
    while i < |keys|
      invariant 0 <= i <= |keys|
      invariant forall j :: 0 <= j < i ==> !HasValue(obj, keys[j])
    {
      var k := keys[i];
      if obj.Some? && Field(obj, k) != JsUndefined && Field(obj, k) != JsNull && Field(obj, k) != JsString("") {
        return Field(obj, k);
      }
      i := i + 1;
    }
    return JsUndefined;
  }

  /** The separators of `/\s*[,;\n\r]+\s*\/`; the whitespace around them is
      what the trim of each piece removes anyway. */
  predicate IsArraySep(c: char)
  {
    c == ',' || c == ';' || c == '\n' || c == '\r'
  }

  /** `toArray(v)`. */
  function ToArray(v: JsValue): (r: seq<JsValue>)
    ensures v == JsUndefined || v == JsNull ==> r == []
    ensures v.JsArray? ==> r == v.items
    ensures v.JsString? && Tokens(v.s, IsArraySep) == [] ==> r == [v]
    ensures v.JsString? && Tokens(v.s, IsArraySep) != [] ==>
      |r| == |Tokens(v.s, IsArraySep)| && forall k :: 0 <= k < |r| ==> r[k] == JsString(Tokens(v.s, IsArraySep)[k])
    ensures !(v == JsUndefined || v == JsNull || v.JsArray? || v.JsString?) ==> r == [v]
  {
    match v
    case JsUndefined => []
    case JsNull => []
    case JsArray(items) => items
    case JsString(s) =>
      var parts := Tokens(s, IsArraySep);
      if |parts| != 0 then Map(parts, (t: string) => JsString(t)) else [v]
    case _ => [v]
  }

  /** A text listing clean entries with commas gives those entries back. */
  lemma ToArrayOfList(entries: seq<string>)
    requires entries != []
    requires forall k :: 0 <= k < |entries| ==> IsToken(entries[k], IsArraySep)
    ensures ToArray(JsString(Join(entries, ","))) == Map(entries, (t: string) => JsString(t))
  {
    TokensOfJoin(entries, IsArraySep, ',');
  }

  // ---------------------------------------------------------------------
  // The search

  const TrieDataset: string := "rappelconso-v2-gtin-trie"
  const EspacesDataset: string := "rappelconso-v2-gtin-espaces"
  const GtinField: string := "gtin"
  const MissingGtinError: string := "GTIN requis (ex: 3250391234567)"

  /** The JSON body of a records answer: `total_count`, `nhits`,
      `results` and `records`, each possibly missing. */
  datatype RecordsData = RecordsData(totalCount: Option<int>, nhits: Option<int>,
                                     results: Option<seq<JsValue>>, records: Option<seq<JsValue>>)

  /** What `fetchRecords` returns. */
  datatype RecordsPage = RecordsPage(total: int, results: seq<JsValue>)

  /** `data?.total_count ?? data?.nhits ?? 0` and
      `data?.results ?? data?.records ?? []`. */
  function PageOf(d: RecordsData): (p: RecordsPage)
    ensures d.totalCount.Some? ==> p.total == d.totalCount.value
    ensures d.totalCount.None? && d.nhits.Some? ==> p.total == d.nhits.value
    ensures d.totalCount.None? && d.nhits.None? ==> p.total == 0
    ensures d.results.Some? ==> p.results == d.results.value
    ensures d.results.None? && d.records.Some? ==> p.results == d.records.value
    ensures d.results.None? && d.records.None? ==> p.results == []
  {
    RecordsPage(
      if d.totalCount.Some? then d.totalCount.value else if d.nhits.Some? then d.nhits.value else 0,
      if d.results.Some? then d.results.value else if d.records.Some? then d.records.value else [])
  }

  /** One call of `fetchRecords`: the dataset, the clause and the limit. */
  datatype RecordsRequest = RecordsRequest(datasetId: string, where: string, limit: int)

  /** The records API: its answer to each request (the JSON body, or the
      error message thrown for a non-OK answer), and the requests made. */
  class RecordsApi {
    const answer: RecordsRequest -> Result<RecordsData, string>
    var requests: seq<RecordsRequest>

    constructor (answer: RecordsRequest -> Result<RecordsData, string>)
      ensures this.answer == answer && requests == []
    {
      this.answer := answer;
      requests := [];
    }

    /** `fetchRecords(datasetId, whereClause)`. */
    method FetchRecords(datasetId: string, where: string, limit: int) returns (r: Result<RecordsPage, string>)
      modifies this
      ensures requests == old(requests) + [RecordsRequest(datasetId, where, limit)]
      ensures var a := answer(RecordsRequest(datasetId, where, limit));
        r == if a.Err? then Err(a.error) else Ok(PageOf(a.value))
    {
      var req := RecordsRequest(datasetId, where, limit);
      requests := requests + [req];
      var a := answer(req);
      if a.Err? {
        return Err(a.error);
      }
      r := Ok(PageOf(a.value));
    }
  }

  /** The page state `search` leaves: error, hits, records, dataset used. */
  datatype SearchState = SearchState(error: string, hits: int, records: seq<JsValue>, datasetUsed: Option<string>)

  /** The request of `tryTrie`. */
  function TrieRequest(gtins: seq<string>, limit: int): RecordsRequest
  {
    RecordsRequest(TrieDataset, BuildWhereExactGtins(GtinField, gtins), limit)
  }

  /** The request of `tryEspaces`. */
  function EspacesRequest(gtins: seq<string>, limit: int): RecordsRequest
  {
    RecordsRequest(EspacesDataset,
      if |gtins| == 1 then BuildWhereContainsGtin(GtinField, gtins[0]) else ContainsAny(GtinField, gtins),
      limit)
  }

  /** The answer of one request, as `fetchRecords` returns it. */
  function Answered(api: RecordsApi, req: RecordsRequest): Result<RecordsPage, string>
    reads api
  {
    var a := api.answer(req);
    if a.Err? then Err(a.error) else Ok(PageOf(a.value))
  }

  /** The requests `search` makes: none without GTINs; in auto mode the
      spaced dataset is asked only when the sorted one answered with a
      falsy total. */
  function SearchRequests(api: RecordsApi, mode: string, gtins: seq<string>, limit: int): seq<RecordsRequest>
    reads api
  {
    if gtins == [] then []
    else if mode == "trie" then [TrieRequest(gtins, limit)]
    else if mode == "espaces" then [EspacesRequest(gtins, limit)]
    else
      var first := Answered(api, TrieRequest(gtins, limit));
      if first.Ok? && first.value.total == 0 then [TrieRequest(gtins, limit), EspacesRequest(gtins, limit)]
      else [TrieRequest(gtins, limit)]
  }

  /** The state after a failure, a success with `page` from `dataset`, or a
      fallback that failed after the sorted dataset had answered. */
  function StateAfter(out: Result<RecordsPage, string>, dataset: string, previous: Option<string>): SearchState
  {
    if out.Err? then SearchState(out.error, 0, [], previous)
    else SearchState("", out.value.total, out.value.results, Some(dataset))
  }

  /** The page state `search` leaves. */
  function SearchResult(api: RecordsApi, mode: string, gtins: seq<string>, limit: int): SearchState
    reads api
  {
    if gtins == [] then SearchState(MissingGtinError, 0, [], None)
    else if mode == "trie" then StateAfter(Answered(api, TrieRequest(gtins, limit)), "trie", None)
    else if mode == "espaces" then StateAfter(Answered(api, EspacesRequest(gtins, limit)), "espaces", None)
    else
      var first := Answered(api, TrieRequest(gtins, limit));
      if first.Err? then StateAfter(first, "trie", None)
      else if first.value.total == 0 then StateAfter(Answered(api, EspacesRequest(gtins, limit)), "espaces", Some("trie"))
      else StateAfter(first, "trie", None)
  }

  /** `search()` with the GTINs of the input, the chosen mode and limit. */
  method Search(api: RecordsApi, mode: string, gtins: seq<string>, limit: int) returns (state: SearchState)
    modifies api
    ensures api.requests == old(api.requests) + SearchRequests(api, mode, gtins, limit)
    ensures state == SearchResult(api, mode, gtins, limit)
  {
    state := SearchState("", 0, [], None);
    if |gtins| == 0 {
      return SearchState(MissingGtinError, 0, [], None);
    }
    var out: Result<RecordsPage, string>;
    if mode == "trie" {
      out := api.FetchRecords(TrieDataset, BuildWhereExactGtins(GtinField, gtins), limit);
      if out.Ok? { state := state.(datasetUsed := Some("trie")); }
    } else if mode == "espaces" {
      out := TryEspaces(api, gtins, limit);
      if out.Ok? { state := state.(datasetUsed := Some("espaces")); }
    } else {
      out := api.FetchRecords(TrieDataset, BuildWhereExactGtins(GtinField, gtins), limit);
      if out.Ok? {
        state := state.(datasetUsed := Some("trie"));
        if out.value.total == 0 {
          out := TryEspaces(api, gtins, limit);
          if out.Ok? { state := state.(datasetUsed := Some("espaces")); }
        }
      }
    }
    if out.Err? {
      return state.(error := out.error);
    }
    state := state.(hits := out.value.total, records := out.value.results);
  }

  /** `tryEspaces` without the dataset bookkeeping. */
  method TryEspaces(api: RecordsApi, gtins: seq<string>, limit: int) returns (out: Result<RecordsPage, string>)
    requires gtins != []
    modifies api
    ensures api.requests == old(api.requests) + [EspacesRequest(gtins, limit)]
    ensures out == Answered(api, EspacesRequest(gtins, limit))
  {
    if |gtins| == 1 {
      var where := BuildWhereContainsGtin(GtinField, gtins[0]);
      out := api.FetchRecords(EspacesDataset, where, limit);
    } else {
      var where := ContainsAny(GtinField, gtins);
      out := api.FetchRecords(EspacesDataset, where, limit);
    }
  }

  /** The page state is the outcome of the last request made: its page and
      dataset on success; on failure its error, with the sorted dataset
      recorded only when that one had answered before the fallback. */
  lemma SearchResultOfLastRequest(api: RecordsApi, mode: string, gtins: seq<string>, limit: int)
    requires gtins != []
    ensures var reqs := SearchRequests(api, mode, gtins, limit);
      var r := SearchResult(api, mode, gtins, limit);
      reqs != [] &&
      var last := Answered(api, reqs[|reqs| - 1]);
      && (last.Ok? ==> r.error == "" && r.hits == last.value.total && r.records == last.value.results &&
                       r.datasetUsed == Some(if reqs[|reqs| - 1].datasetId == TrieDataset then "trie" else "espaces"))
      && (last.Err? ==> r.error == last.error && r.hits == 0 && r.records == [] &&
                        (r.datasetUsed == Some("trie") <==> |reqs| == 2) && (r.datasetUsed.Some? ==> |reqs| == 2))
  {
  }

  /** No GTIN means no request and the "GTIN requis" error; otherwise at
      most two requests, the spaced dataset coming second only in auto
      mode after an empty answer of the sorted one. */
  lemma SearchRequestsShape(api: RecordsApi, mode: string, gtins: seq<string>, limit: int)
    ensures gtins == [] ==>
      SearchRequests(api, mode, gtins, limit) == [] && SearchResult(api, mode, gtins, limit).error == MissingGtinError
    ensures gtins != [] ==> 1 <= |SearchRequests(api, mode, gtins, limit)| <= 2
    ensures |SearchRequests(api, mode, gtins, limit)| == 2 <==>
      gtins != [] && mode != "trie" && mode != "espaces" &&
      Answered(api, TrieRequest(gtins, limit)).Ok? && Answered(api, TrieRequest(gtins, limit)).value.total == 0
    ensures |SearchRequests(api, mode, gtins, limit)| == 2 ==>
      SearchRequests(api, mode, gtins, limit)[1].datasetId == EspacesDataset
  {
  }
}
