/** The settings page of app/config/page.jsx without its rendering: the
    summary formatters, the distributor option search, the list of
    recipients being edited and the payload it saves. */
module ConfigPage {
  import opened Wrappers
  import opened Lists
  import opened Strings

  // ---------------------------------------------------------------------
  // Formatters

  /** `formatRecipients(list)`; `list` is None when it is not an array. */
  function FormatRecipients(list: Option<seq<string>>): (r: string)
    ensures list.None? || list.value == [] ==> r == "None"
    ensures list.Some? && |list.value| == 1 ==> r == list.value[0]
    ensures list.Some? && |list.value| >= 1 ==> r == Join(list.value, ", ")
  {
    if list.None? || |list.value| == 0 then "None" else Join(list.value, ", ")
  }

  /** Every recipient of a non-empty list shows in its summary. */
  lemma FormatRecipientsShowsEach(list: seq<string>)
    requires list != []
    ensures forall k :: 0 <= k < |list| ==> Contains(FormatRecipients(Some(list)), list[k])
  {
    forall k | 0 <= k < |list| ensures Contains(FormatRecipients(Some(list)), list[k]) {
      JoinContainsEach(list, ", ", k);
    }
  }

  /** A stored recipient as the page reads it: `distributeurs` is None when
      it is not an array; `onlyNewItems` is its truthiness. */
  datatype RecipientView = RecipientView(email: string, distributeurs: Option<seq<string>>, onlyNewItems: bool)

  const NewOnlySuffix: string := " · new only"
  const LatestSuffix: string := " · latest 10 + new first"
  const AllDistributeurs: string := " (all distributeurs)"

  function ModeSuffix(onlyNewItems: bool): string
  {
    if onlyNewItems then NewOnlySuffix else LatestSuffix
  }

  /** The distributor part of the summary line. */
  function DistributeursPart(distributeurs: seq<string>): (r: string)
    ensures distributeurs == [] ==> r == AllDistributeurs
    ensures distributeurs != [] ==> r == " (" + Join(distributeurs, ", ") + ")"
    ensures distributeurs != [] ==> |r| >= 3 && r[..2] == " (" && r[|r| - 1] == ')'
  {
    if |distributeurs| == 0 then AllDistributeurs else " (" + Join(distributeurs, ", ") + ")"
  }

  /** `formatRecipientConfig(entry)`: the address, the distributors in
      parentheses (or all of them), then the mode. */
  function FormatRecipientConfig(entry: Option<RecipientView>): (r: string)
    ensures entry.None? || entry.value.email == "" ==> r == ""
    ensures entry.Some? && entry.value.email != "" ==>
      r == entry.value.email
           + DistributeursPart(if entry.value.distributeurs.Some? then entry.value.distributeurs.value else [])
           + ModeSuffix(entry.value.onlyNewItems)
  {
    if entry.None? || entry.value.email == "" then ""
    else
      var e := entry.value;
      var distributeurs := if e.distributeurs.Some? then e.distributeurs.value else [];
      var modeSuffix := ModeSuffix(e.onlyNewItems);
      if |distributeurs| == 0 then e.email + AllDistributeurs + modeSuffix
      else e.email + " (" + Join(distributeurs, ", ") + ")" + modeSuffix
  }

  /** Every chosen distributor shows in the summary line. */
  lemma FormatRecipientConfigShowsEach(e: RecipientView)
    requires e.email != "" && e.distributeurs.Some? && e.distributeurs.value != []
    ensures forall k :: 0 <= k < |e.distributeurs.value| ==>
      Contains(FormatRecipientConfig(Some(e)), e.distributeurs.value[k])
  {
    var ds := e.distributeurs.value;
    var line := FormatRecipientConfig(Some(e));
    assert line == e.email + " (" + Join(ds, ", ") + (")" + ModeSuffix(e.onlyNewItems));
    forall k | 0 <= k < |ds| ensures Contains(line, ds[k]) {
      JoinContainsEach(ds, ", ", k);
      ContainsWithin(e.email + " (", Join(ds, ", "), ")" + ModeSuffix(e.onlyNewItems), ds[k]);
    }
  }

  /** The mail settings summary the page shows; `recipients` is None when
      it is not an array, `service` is "" when absent. */
  datatype EmailConfigView = EmailConfigView(user: string, recipients: Option<seq<string>>,
                                             appPasswordConfigured: bool, appPasswordLength: Option<nat>,
                                             service: string)

  /** The user, recipients and password parts, which are always there,
      with their "missing"/"no"/0 defaults. */
  function FixedParts(c: EmailConfigView): (parts: seq<string>)
    ensures |parts| == 4 && forall k :: 0 <= k < 4 ==> parts[k] != ""
    ensures parts[0] == if c.user != "" then "user=" + c.user else "user=missing"
    ensures c.recipients.None? || Join(c.recipients.value, ", ") == "" ==> parts[1] == "recipients=missing"
    ensures c.recipients.Some? && Join(c.recipients.value, ", ") != "" ==>
      parts[1] == "recipients=" + Join(c.recipients.value, ", ")
    ensures parts[2] == if c.appPasswordConfigured then "appPasswordConfigured=yes" else "appPasswordConfigured=no"
    ensures c.appPasswordLength.None? ==> parts[3] == "appPasswordLength=0"
    ensures c.appPasswordLength.Some? ==> parts[3] == "appPasswordLength=" + NatToString(c.appPasswordLength.value)
  {
    var recipients := if c.recipients.Some? then Join(c.recipients.value, ", ") else "";
    assert NatToString(0) == "0";
    [ if c.user != "" then "user=" + c.user else "user=missing",
      "recipients=" + (if recipients != "" then recipients else "missing"),
      "appPasswordConfigured=" + (if c.appPasswordConfigured then "yes" else "no"),
      "appPasswordLength=" + NatToString(if c.appPasswordLength.Some? then c.appPasswordLength.value else 0) ]
  }

  /** The service part, "" standing for the `null` of a missing service. */
  function ServicePart(c: EmailConfigView): string
  {
    if c.service != "" then "service=" + c.service else ""
  }

  const ConfigSeparator: string := " · "

  /** `formatEmailConfig(config)`. */
  function FormatEmailConfig(config: Option<EmailConfigView>): (r: string)
    ensures config.None? ==> r == ""
  {
    if config.None? then ""
    else Join(Filter(FixedParts(config.value) + [ServicePart(config.value)], NonEmpty), ConfigSeparator)
  }

  /** `filter(Boolean)` drops only a missing service: the summary joins the
      four fixed parts, then the service when there is one. */
  lemma EmailConfigPartsKept(c: EmailConfigView)
    ensures FormatEmailConfig(Some(c)) ==
      Join(FixedParts(c) + (if c.service != "" then ["service=" + c.service] else []), ConfigSeparator)
  {
    FilterKeepsFixed(FixedParts(c), ServicePart(c));
  }

  /** Non-empty parts followed by one optional part: only that one can be
      dropped. */
  lemma FilterKeepsFixed(fixed: seq<string>, last: string)
    requires forall k :: 0 <= k < |fixed| ==> fixed[k] != ""
    ensures Filter(fixed + [last], NonEmpty) == fixed + (if last != "" then [last] else [])
  {
    FilterConcat(fixed, [last], NonEmpty);
    FilterAll(fixed, NonEmpty);
    assert [last][1..] == [];
  }

  /** `filterDistributeurOptions(options, query)`: a blank query keeps all
      options; otherwise those containing the trimmed lower-cased query,
      compared lower-cased, in their order. */
  function FilterDistributeurOptions(options: seq<string>, query: string): (r: seq<string>)
    ensures ToLower(Trim(query)) == "" ==> r == options
    ensures IsSubsequence(r, options)
    ensures ToLower(Trim(query)) != "" ==>
      forall o :: o in r <==> o in options && Contains(ToLower(o), ToLower(Trim(query)))
  {
    if query == "" then
      assert Trim(query) == "";
      SubsequenceRefl(options); options
    else
      var normalized := ToLower(Trim(query));
      if normalized == "" then SubsequenceRefl(options); options
      else
        FilterIsSubsequence(options, o => Contains(ToLower(o), normalized));
        Filter(options, o => Contains(ToLower(o), normalized))
  }

  // ---------------------------------------------------------------------
  // The recipient list being edited

  /** One row of the editor: address, chosen distributors, the option
      search text and the mode. */
  datatype EditorEntry = EditorEntry(email: string, distributeurs: seq<string>, filter: string, onlyNewItems: bool)

  /** The row the page starts with and falls back to. */
  const BlankEntry: EditorEntry := EditorEntry("", [], "", false)

  /** A recipient of a loaded or saved configuration. */
  datatype StoredRecipient = StoredRecipient(email: string, distributeurs: Option<seq<string>>, onlyNewItems: bool)

  /** The editor row for a loaded recipient. */
  function EntryOf(r: StoredRecipient): (e: EditorEntry)
    ensures e.email == r.email && e.filter == "" && e.onlyNewItems == r.onlyNewItems
    ensures e.distributeurs == if r.distributeurs.Some? then r.distributeurs.value else []
  {
    EditorEntry(r.email, if r.distributeurs.Some? then r.distributeurs.value else [], "", r.onlyNewItems)
  }

  /** The rows of `payload.config.recipients`, [] when it is not an array. */
  function LoadedEntries(recipients: Option<seq<StoredRecipient>>): (r: seq<EditorEntry>)
    ensures recipients.None? ==> r == []
    ensures recipients.Some? ==>
      |r| == |recipients.value| && forall k :: 0 <= k < |r| ==> r[k] == EntryOf(recipients.value[k])
  {
    if recipients.None? then [] else Map(recipients.value, EntryOf)
  }

  /** `recipientConfigs.filter((_, i) => i !== index)`. */
  function RemoveAt(s: seq<EditorEntry>, index: nat): (r: seq<EditorEntry>)
    requires index < |s|
    ensures |r| == |s| - 1
    ensures forall j :: 0 <= j < index ==> r[j] == s[j]
    ensures forall j :: index <= j < |r| ==> r[j] == s[j + 1]
  {
    s[..index] + s[index + 1..]
  }

  /** `next.length ? next : [blank]`. */
  function OrBlank(next: seq<EditorEntry>): (r: seq<EditorEntry>)
    ensures r != []
    ensures next != [] ==> r == next
    ensures next == [] ==> r == [BlankEntry]
  {
    if |next| != 0 then next else [BlankEntry]
  }

  /** One entry of the saved payload. */
  datatype PayloadEntry = PayloadEntry(email: string, distributeurs: seq<string>, onlyNewItems: bool)

  function PayloadOf(e: EditorEntry): PayloadEntry
  {
    PayloadEntry(Trim(e.email), e.distributeurs, e.onlyNewItems)
  }

  predicate HasEmail(p: PayloadEntry)
  {
    p.email != ""
  }

  /** `recipientsPayload` of `saveConfig`. */
  function SavePayload(entries: seq<EditorEntry>): (r: seq<PayloadEntry>)
  {
    Filter(Map(entries, PayloadOf), HasEmail)
  }

  /** The payload holds one trimmed, non-empty address per row that has
      one, in row order, with the row's distributors and mode; the option
      search text is dropped. */
  lemma SavePayloadExact(entries: seq<EditorEntry>)
    ensures forall p :: p in SavePayload(entries) ==> p.email != "" && Trim(p.email) == p.email
    ensures forall k :: 0 <= k < |entries| && Trim(entries[k].email) != "" ==> PayloadOf(entries[k]) in SavePayload(entries)
    ensures forall p :: p in SavePayload(entries) ==> exists k :: 0 <= k < |entries| && p == PayloadOf(entries[k])
    ensures IsSubsequence(SavePayload(entries), Map(entries, PayloadOf))
  {
    FilterIsSubsequence(Map(entries, PayloadOf), HasEmail);
    SavePayloadSound(entries);
    SavePayloadComplete(entries);
  }

  lemma SavePayloadSound(entries: seq<EditorEntry>)
    ensures forall p :: p in SavePayload(entries) ==>
      Trim(p.email) == p.email && exists k :: 0 <= k < |entries| && p == PayloadOf(entries[k])
  {
    forall p | p in SavePayload(entries)
      ensures Trim(p.email) == p.email && exists k :: 0 <= k < |entries| && p == PayloadOf(entries[k])
    {
      PayloadEntryTrimmed(entries, p);
    }
  }

  lemma SavePayloadComplete(entries: seq<EditorEntry>)
    ensures forall k :: 0 <= k < |entries| && Trim(entries[k].email) != "" ==> PayloadOf(entries[k]) in SavePayload(entries)
  {
    var mapped := Map(entries, PayloadOf);
    forall k | 0 <= k < |entries| && Trim(entries[k].email) != "" ensures PayloadOf(entries[k]) in SavePayload(entries) {
      assert mapped[k] == PayloadOf(entries[k]);
      assert HasEmail(mapped[k]);
    }
  }

  /** An entry of the payload comes from a row, with its address trimmed. */
  lemma PayloadEntryTrimmed(entries: seq<EditorEntry>, p: PayloadEntry)
    requires p in Map(entries, PayloadOf)
    ensures Trim(p.email) == p.email
    ensures exists k :: 0 <= k < |entries| && p == PayloadOf(entries[k])
  {
    var mapped := Map(entries, PayloadOf);
    var k :| 0 <= k < |mapped| && mapped[k] == p;
    TrimIdempotent(entries[k].email);
  }

  /** The recipient rows of the page. */
  class RecipientEditor {
    var entries: seq<EditorEntry>

    /** The page always shows at least one row. */
    predicate Valid()
      reads this
    {
      entries != []
    }

    constructor ()
      ensures Valid() && entries == [BlankEntry]
    {
      entries := [BlankEntry];
    }

    /** The address field of row `index`. */
    method SetEmail(index: nat, value: string)
      requires index < |entries|
      modifies this
      ensures entries == old(entries)[index := old(entries)[index].(email := value)]
      ensures Valid()
    {
      entries := entries[index := entries[index].(email := value)];
    }

    /** The option search field of row `index`. */
    method SetFilter(index: nat, value: string)
      requires index < |entries|
      modifies this
      ensures entries == old(entries)[index := old(entries)[index].(filter := value)]
      ensures Valid()
    {
      entries := entries[index := entries[index].(filter := value)];
    }

    /** The distributor selection of row `index`; "Clear selection" is the
        empty one. */
    method SetDistributeurs(index: nat, selected: seq<string>)
      requires index < |entries|
      modifies this
      ensures entries == old(entries)[index := old(entries)[index].(distributeurs := selected)]
      ensures Valid()
    {
      entries := entries[index := entries[index].(distributeurs := selected)];
    }

    /** The "Only new items" box of row `index`. */
    method SetOnlyNewItems(index: nat, checked: bool)
      requires index < |entries|
      modifies this
      ensures entries == old(entries)[index := old(entries)[index].(onlyNewItems := checked)]
      ensures Valid()
    {
      entries := entries[index := entries[index].(onlyNewItems := checked)];
    }

    /** "Remove": the row goes; the last one is replaced by a blank row. */
    method Remove(index: nat)
      requires index < |entries|
      modifies this
      ensures entries == OrBlank(RemoveAt(old(entries), index))
      ensures Valid()
    {
      var next := RemoveAt(entries, index);
      entries := OrBlank(next);
    }

    /** "Add recipient": a blank row at the end. */
    method Add()
      modifies this
      ensures entries == old(entries) + [BlankEntry]
      ensures Valid()
    {
      entries := entries + [BlankEntry];
    }

    /** A loaded configuration replaces the rows, a blank row standing in
        for none. */
    method Load(recipients: Option<seq<StoredRecipient>>)
      modifies this
      ensures entries == OrBlank(LoadedEntries(recipients))
      ensures Valid()
    {
      var loadedRecipients := LoadedEntries(recipients);
      entries := OrBlank(loadedRecipients);
    }

    /** After a save the stored rows replace the edited ones, which stay
        when the answer lists none. */
    method AfterSave(recipients: Option<seq<StoredRecipient>>)
      requires Valid()
      modifies this
      ensures LoadedEntries(recipients) != [] ==> entries == LoadedEntries(recipients)
      ensures LoadedEntries(recipients) == [] ==> entries == old(entries)
      ensures Valid()
    {
      var savedRecipients := LoadedEntries(recipients);
      if |savedRecipients| != 0 {
        entries := savedRecipients;
      }
    }
  }

  /** An edit of one row leaves the others as they were. */
  lemma EditTouchesOneRow(s: seq<EditorEntry>, index: nat, e: EditorEntry)
    requires index < |s|
    ensures |s[index := e]| == |s| && s[index := e][index] == e
    ensures forall j :: 0 <= j < |s| && j != index ==> s[index := e][j] == s[j]
  {
  }
}
