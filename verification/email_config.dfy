/** The recipient configuration API of app/api/email-config/route.js: the
    shape it answers recipients in, the choice of the raw recipient payload
    and the guard before the configuration is stored. Reading and storing
    go through the database code of lib/email-config.js, which is not part
    of this model, and `normalizeRecipientConfigs` is imported from there
    without being defined in it: the normaliser is a parameter and the
    store a collaborator that keeps what it was asked to save. */
module EmailConfig {
  import opened Wrappers
  import opened Lists
  import opened Cron

  /** A stored recipient as the route reads it: `distributeurs` is None
      when it is not an array; any other field is carried but not read. */
  datatype StoredEntry = StoredEntry(email: string, distributeurs: Option<seq<string>>, onlyNewItems: bool)

  /** The two fields the route answers with. */
  datatype FormattedEntry = FormattedEntry(email: string, distributeurs: seq<string>)

  /** `formatRecipientConfigEntry(entry)`; `None` is a null or undefined
      entry. */
  function FormatRecipientConfigEntry(entry: Option<StoredEntry>): (r: Option<FormattedEntry>)
    ensures entry.None? <==> r.None?
    ensures entry.Some? ==> r.value.email == entry.value.email
    ensures entry.Some? && entry.value.distributeurs.None? ==> r.value.distributeurs == []
    ensures entry.Some? && entry.value.distributeurs.Some? ==> r.value.distributeurs == entry.value.distributeurs.value
  {
    if entry.None? then None
    else if entry.value.distributeurs.None? then Some(FormattedEntry(entry.value.email, []))
    else Some(FormattedEntry(entry.value.email, entry.value.distributeurs.value))
  }

  /** Only the address and the distributors survive: two entries that
      differ in anything else answer the same. */
  lemma FormatDropsOtherFields(a: StoredEntry, b: StoredEntry)
    requires a.email == b.email && a.distributeurs == b.distributeurs
    ensures FormatRecipientConfigEntry(Some(a)) == FormatRecipientConfigEntry(Some(b))
  {
  }

  /** The recipients of a configuration as answered: each entry formatted,
      [] when they are not an array. */
  function AnsweredRecipients(recipients: Option<seq<Option<StoredEntry>>>): (r: seq<Option<FormattedEntry>>)
    ensures recipients.None? ==> r == []
    ensures recipients.Some? ==>
      |r| == |recipients.value| && forall k :: 0 <= k < |r| ==> r[k] == FormatRecipientConfigEntry(recipients.value[k])
  {
    if recipients.None? then [] else Map(recipients.value, FormatRecipientConfigEntry)
  }

  /** A JSON value where the route looks for recipients. */
  datatype RawValue =
    | Absent
    | NullValue
    | TextValue(s: string)
    | ListValue(v: seq<Option<StoredEntry>>)

  /** The parsed body: `recipients` and `alertEmailTo`. */
  datatype Payload = Payload(recipients: RawValue, alertEmailTo: RawValue)

  /** `payload?.recipients ?? (typeof payload?.alertEmailTo === "string" ?
      payload.alertEmailTo : null)`. */
  function RawRecipientConfigs(payload: Payload): (r: RawValue)
    ensures !(payload.recipients.Absent? || payload.recipients.NullValue?) ==> r == payload.recipients
    ensures (payload.recipients.Absent? || payload.recipients.NullValue?) && payload.alertEmailTo.TextValue? ==>
      r == payload.alertEmailTo
    ensures (payload.recipients.Absent? || payload.recipients.NullValue?) && !payload.alertEmailTo.TextValue? ==> r == NullValue
  {
    if !(payload.recipients.Absent? || payload.recipients.NullValue?) then payload.recipients
    else if payload.alertEmailTo.TextValue? then payload.alertEmailTo
    else NullValue
  }

  /** The answers of `POST`. */
  datatype PostResponse =
    | InvalidJson
    | NoAddress
    | Saved(recipients: seq<Option<FormattedEntry>>)

  const InvalidJsonError: string := "Invalid JSON body"
  const NoAddressError: string := "Provide at least one email address."

  function StatusOf(r: PostResponse): (status: nat)
    ensures status == 200 <==> r.Saved?
    ensures !r.Saved? ==> status == 400
  {
    if r.Saved? then 200 else 400
  }

  /** The `error` field of a refusal. */
  function ErrorOf(r: PostResponse): (e: Option<string>)
    ensures e.None? <==> r.Saved?
    ensures r.InvalidJson? ==> e == Some(InvalidJsonError)
    ensures r.NoAddress? ==> e == Some(NoAddressError)
  {
    match r
    case InvalidJson => Some(InvalidJsonError)
    case NoAddress => Some(NoAddressError)
    case Saved(_) => None
  }

  /** `GET`: a missing configuration answers `null`; a present one answers
      its recipients formatted. */
  function GetConfig(config: Option<Option<seq<Option<StoredEntry>>>>): (r: Option<seq<Option<FormattedEntry>>>)
    ensures config.None? <==> r.None?
    ensures config.Some? ==> r.value == AnsweredRecipients(config.value)
  {
    if config.None? then None else Some(AnsweredRecipients(config.value))
  }

  /** The configuration store: what it answers for each save, and the
      recipient lists it was asked to save. */
  class ConfigStore {
    const savedAs: seq<RecipientConfig> -> Option<seq<Option<StoredEntry>>>
    var upserts: seq<seq<RecipientConfig>>

    constructor (savedAs: seq<RecipientConfig> -> Option<seq<Option<StoredEntry>>>)
      ensures this.savedAs == savedAs && upserts == []
    {
      this.savedAs := savedAs;
      upserts := [];
    }

    /** `upsertEmailConfig(recipients)`: the stored configuration's
        recipients, None when they are not an array. */
    method Upsert(recipients: seq<RecipientConfig>) returns (stored: Option<seq<Option<StoredEntry>>>)
      modifies this
      ensures upserts == old(upserts) + [recipients]
      ensures stored == savedAs(recipients)
    {
      upserts := upserts + [recipients];
      stored := savedAs(recipients);
    }
  }

  /** `POST` once authorised; `payload` is None when the body is not JSON.
      A bad body or an empty recipient list is refused with 400 and nothing
      is stored; otherwise the normalised list is stored once and the
      stored recipients are answered formatted. */
  method Post(store: ConfigStore, payload: Option<Payload>, normalize: RawValue -> seq<RecipientConfig>)
    returns (resp: PostResponse)
    modifies store
    ensures payload.None? ==> resp == InvalidJson && store.upserts == old(store.upserts)
    ensures payload.Some? && normalize(RawRecipientConfigs(payload.value)) == [] ==>
      resp == NoAddress && store.upserts == old(store.upserts)
    ensures payload.Some? && normalize(RawRecipientConfigs(payload.value)) != [] ==>
      var recipients := normalize(RawRecipientConfigs(payload.value));
      && store.upserts == old(store.upserts) + [recipients]
      && resp == Saved(AnsweredRecipients(store.savedAs(recipients)))
  {
    if payload.None? {
      return InvalidJson;
    }
    var rawRecipientConfigs := RawRecipientConfigs(payload.value);
    var recipients := normalize(rawRecipientConfigs);
    if |recipients| == 0 {
      return NoAddress;
    }
    var updated := store.Upsert(recipients);
    resp := Saved(AnsweredRecipients(updated));
  }
}
