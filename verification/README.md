# RappelConso recall watcher — a Dafny model

NewRecallChecker watches the French product-recall feed RappelConso. It is
a Next.js application with four parts:

* a **cron route** (`app/api/cron/route.js`). It reads the RSS feed
  (`lib/rss.js`), compares it with the last stored snapshot through a
  per-item hash, and stores the new snapshot. It then e-mails each
  configured recipient either the ten latest items or the
  new/changed/removed items, filtered by the recipient's distributors.
  Items are enriched beforehand with the distributor list scraped from
  their detail page (`lib/distributeurs.js`). The e-mails are rendered by
  `lib/email-template.js` and sent by `lib/email.js`.
* the companion API routes: `app/api/rss` (the feed as JSON),
  `app/api/detail` (one item's distributors), `app/api/test-email` (a
  manual ten-item test mail) and `app/api/email-config` (the recipient
  configuration).
* two browser pages: the **RSS dashboard**
  (`components/RappelConsoRssViewer.jsx`: filters, "new since last
  visit", daily counts, paging) and the **configuration page**
  (`app/config/page.jsx`: the recipient editor and its save payload).
* a stand-alone **GTIN search** page
  (`rappel_conso_gtin_search_rappel_conso_v_2.jsx`). It normalises typed
  barcodes, builds ODSQL `where` clauses, and queries the "trie" dataset
  with a fallback to the "espaces" dataset.

The model follows the source file by file, one Dafny module each:

| module | file | what it models |
|---|---|---|
| `Wrappers` | `wrappers.dfy` | `Option`, `Result`, JSON values |
| `Lists` | `lists.dfy` | `filter`, `map`, `slice`, and first-occurrence de-duplication (the `Set` + push loops) |
| `Strings` | `strings.dfy` | `trim`, `toLowerCase`, `split`/`join` and `includes`; the split-trim-drop-empties idiom as `Tokens`; string order and decimal numbers |
| `Feed` | `feed.dfy` | the normalised item |
| `Rss` | `rss.dfy` | `normalizeItems` and `fetchRssItems`, and the copy in `app/api/rss/route.js` |
| `EmailTemplate` | `email_template.dfy` | `lib/email-template.js` |
| `Email` | `email.dfy` | `lib/email.js` |
| `Cron` | `cron.dfy` | `app/api/cron/route.js` |
| `TestEmail` | `test_email.dfy` | `app/api/test-email/route.js` |
| `Distributeurs`, `Detail` | `distributeurs.dfy`, `detail.dfy` | the detail-page scraper in its library form and its route form |
| `Gtin` | `gtin.dfy` | the GTIN search page |
| `Viewer` | `viewer.dfy` | the dashboard's pure helpers and computed views |
| `ConfigPage` | `config_page.dfy` | the configuration page |
| `EmailConfig` | `email_config.dfy` | the configuration API |

Some code appears twice in the repository, and each copy is modelled once:

* `normalizeItems` appears in both `lib/rss.js` and `app/api/rss/route.js`.
* `normalizeSplitList`, `isAllowedUrl` and the `dt` scan appear in both
  `lib/distributeurs.js` and `app/api/detail/route.js`.
* `enrichItemsWithDistributeurs` appears in the cron route and in the
  test-email route.
* `formatEmailConfig` appears on the configuration page and in the
  dashboard.

What a state-changing operation does is modelled imperatively:

* The database snapshot store, the SMTP transport, the detail site, the
  open-data API and the configuration store are classes. Each one records
  what it was asked to do and answers through a function fixed when it is
  created.
* The recipient editor is a class whose row list each handler reassigns.
* The loops of the source become `while` loops. They are proved against
  specification functions: the send loop, the GTIN and seen-id
  de-duplication, the `dt` scan, `getFirst`, the day counts and the
  in-place newest-first sort.

One behaviour is worth knowing when reading the cron and test-email
models. `sendAlertEmail` ignores the `recipients` it is given (the
`[recipient.email]` the routes pass) and always addresses ALERT_EMAIL_TO.
So each filtered per-recipient mail goes to every configured address.
`Email.Mailer.SendAlertEmail` states exactly that.

The separator pattern `/\s*[,;\n\r]+\s*/` of `toArray` is modelled as
a split at every single separator character, followed by trimming each
piece and dropping the empty ones. The two give the same parts: the
whitespace the pattern absorbs around a separator is exactly the
whitespace that trimming removes, and a run of separators leaves only
empty pieces between them.

## Model

| member | source | states |
|---|---|---|
| `Feed.WithInfo` | app/api/cron/route.js:127 | `{ ...item, ...info }` overwrites the two distributor fields with the scraped ones and leaves every other field of the item as it was |
| `Lists.DedupProperties` | rappel_conso_gtin_search_rappel_conso_v_2.jsx:26-33 | first-occurrence de-duplication keeps exactly the elements of the input, without repeats, in their original order (a subsequence) |
| `Lists.DedupFromSnoc` | rappel_conso_gtin_search_rappel_conso_v_2.jsx:28-33 | appending one element to the input appends it to the de-duplicated output exactly when it was not seen before |
| `Lists.DedupIdempotent` | rappel_conso_gtin_search_rappel_conso_v_2.jsx:26-33 | de-duplicating an already de-duplicated list changes nothing |
| `Strings.TokensOfJoin` | lib/email.js:19-24 | splitting a separator-joined list of clean entries, trimming and dropping empties gives the list back |
| `Rss.ItemId` | lib/rss.js:24 | the id is never empty; it is the trimmed guid when that is non-empty, else the link when that is non-empty, else the position |
| `Rss.PositionalIdsDistinct` | lib/rss.js:24 | two guid-less, link-less items at different positions get different ids |
| `Rss.ImageUrl` | lib/rss.js:34-38 | the enclosure url when there is one, else the `media:content` url, else the `content` url; empty iff all three are |
| `Rss.NormalizeItem` | lib/rss.js:20-49 | title, link and pubDate are the trimmed fields ("" when missing); the id is `ItemId` of the trimmed link and is non-empty; the image is `ImageUrl`; the description is kept raw; a parsed date gives its timestamp and ISO day, an unparseable one timestamp 0 and no ISO day; no distributor data yet |
| `Rss.RawItemsOf` | lib/rss.js:18 | a missing `item` gives no items; an item array is used as it is; a single `item` element is wrapped into a one-element list |
| `Rss.Normalized` | lib/rss.js:20-50 | each raw item is normalised with its own position, and the length is kept |
| `Rss.InsertByTsMultiset` | lib/rss.js:52 | inserting one item adds exactly that item to the multiset |
| `Rss.InsertByTsSorted` | lib/rss.js:52 | inserting into a newest-first list keeps it newest-first |
| `Rss.SortByTs` | lib/rss.js:52 | the newest-first sort keeps the number of items (its order and permutation are `SortByTsProperties`) |
| `Rss.SortByTsProperties` | lib/rss.js:52 | the newest-first sort is a permutation and its result is ordered by descending timestamp |
| `Rss.SortByTsOfSorted` | lib/rss.js:52 | sorting a list that is already newest-first leaves it unchanged |
| `Rss.InsertInPlace` | lib/rss.js:52 | one in-place insertion step on an array: the sorted prefix grows by the next element and the rest of the array is untouched |
| `Rss.SortItemsInPlace` | lib/rss.js:52 | `items.sort(...)` in place: the array ends up holding the stable newest-first order of its old contents |
| `Rss.NormalizeItems` | lib/rss.js:17-54 | the normalised items of the channel, sorted newest first |
| `Rss.NormalizedFeedShape` | lib/rss.js:17-54 | the feed has one item per raw item, is a permutation of the normalised items, is sorted newest first and every id is non-empty |
| `Rss.HttpErrorMessage` | lib/rss.js:63 | the message is `HTTP `, the status in decimal, ` (`, the status text and `)`, each at its position |
| `Rss.HttpErrorMessageInjective` | lib/rss.js:63 | the message determines the status and the status text: different answers never give the same message |
| `Rss.FetchRssItems` | lib/rss.js:56-86 | a non-OK answer gives the HTTP error; a parser failure gives "RSS parse error"; otherwise the sorted normalised items of `rss.channel ?? feed` |
| `Rss.RssGet` | app/api/rss/route.js:56-86 | the same three outcomes as the library, with status 200 exactly for the item list and 502 otherwise |
| `EmailTemplate.EscapeHtmlProperties` | lib/email-template.js:5-12 | the escaped text contains no `<`, `>`, double quote or apostrophe, it decodes back to the input, and it is empty only for empty input |
| `EmailTemplate.EscapeHtmlInjective` | lib/email-template.js:5-12 | two different texts never escape to the same markup |
| `EmailTemplate.EscapeHtmlPerChar` | lib/email-template.js:6-11 | the five chained `replace` calls equal escaping each character on its own, `&` first so no entity is escaped twice |
| `EmailTemplate.EscapeHtmlAppend` | lib/email-template.js:5-12 | escaping distributes over concatenation |
| `EmailTemplate.EscapeHtml` | lib/email-template.js:5-12 | (no contract of its own) the five chained replacements; `EscapeHtmlProperties`, `EscapeHtmlInjective` and `EscapeHtmlPerChar` state what they give |
| `EmailTemplate.EscapeAmpersand` | lib/email-template.js:7 | `&` becomes `&amp;` |
| `EmailTemplate.EscapeLess` | lib/email-template.js:8 | `<` becomes `&lt;` |
| `EmailTemplate.EscapeGreater` | lib/email-template.js:9 | `>` becomes `&gt;` |
| `EmailTemplate.EscapeQuote` | lib/email-template.js:10 | `"` becomes `&quot;` |
| `EmailTemplate.EscapeApostrophe` | lib/email-template.js:11 | `'` becomes `&#39;` |
| `EmailTemplate.EscapePlainChar` | lib/email-template.js:5-12 | any other character is kept as it is |
| `EmailTemplate.StripHtml` | lib/email-template.js:14-19 | (no contract of its own) tags to spaces, whitespace runs to one space, then trim; `StripHtmlShape` states the result's shape |
| `EmailTemplate.StripHtmlShape` | lib/email-template.js:14-19 | no `<` of the stripped text is followed later by a `>` (a lone bracket may remain), there is no leading or trailing whitespace and no two whitespace characters in a row |
| `EmailTemplate.ReplaceTagsKeepsChars` | lib/email-template.js:16 | replacing tags by spaces adds no character other than a space |
| `EmailTemplate.CollapseSpacesKeepsChars` | lib/email-template.js:17 | collapsing whitespace runs adds no non-space character |
| `EmailTemplate.TruncateTextAsWritten` | lib/email-template.js:21-25 | the function as written: a text within the limit is kept; a longer one is its first `limit - 1` characters followed by the three characters U+00E2 U+20AC U+00A6, so `limit + 2` long |
| `EmailTemplate.TruncateAsWrittenOverflows` | lib/email-template.js:24 | as written, an 81-character text truncated to 80 comes out at 82 characters |
| `EmailTemplate.TruncateText` | lib/email-template.js:21-25 | a text within the limit is kept; a longer one becomes a prefix of it plus a one-character ellipsis, exactly `limit` long (at least 1), never longer than the text, and empty only for empty text |
| `EmailTemplate.TruncateReadings` | lib/email-template.js:21-25 | the written and the intended truncation agree on short texts, and on long ones differ only in the suffix: three characters instead of U+2026 |
| `EmailTemplate.FormatDate` | lib/email-template.js:27-29 | the raw date when there is one, else the ISO day; empty iff both are empty |
| `EmailTemplate.FormatDistributeur` | lib/email-template.js:31-36 | a non-empty distributor list joined with ", ", else the raw distributor text |
| `EmailTemplate.FormatDistributeurNamesEach` | lib/email-template.js:32-34 | each listed distributor appears in the label |
| `EmailTemplate.FormatMotif` | lib/email-template.js:38-40 | the motif shown is the item's motif text ("" when there is none) |
| `EmailTemplate.DisplayTitle` | lib/email-template.js:43 | the title when there is one, else the id when there is one, else "Untitled"; never empty |
| `EmailTemplate.ImageBlock` | lib/email-template.js:52-54 | without an image the placeholder block is used; with one, the block starts with an `img` tag on that url |
| `EmailTemplate.DateBlock` | lib/email-template.js:56-58 | the date block is present iff there is a date label |
| `EmailTemplate.MotifBlock` | lib/email-template.js:60-62 | the motif block is present iff there is a motif |
| `EmailTemplate.DistributeurBlock` | lib/email-template.js:64-66 | the distributor badge is present iff there is distributor text |
| `EmailTemplate.LinkBlock` | lib/email-template.js:68-70 | the link button is present iff there is a link |
| `EmailTemplate.ActionRow` | lib/email-template.js:72-74 | the action row is present iff the badge or the button is |
| `EmailTemplate.CardPartsOf` | lib/email-template.js:43-50 | the title is the escaped display title; the link and image are the escaped fields; the date label is the escaped `FormatDate`; the distributor and motif texts are `TruncateTextAsWritten` of the distributor label at 80 and of the motif at 140, escaped, "" when empty; every piece is markup-safe |
| `EmailTemplate.CardPartsReadBack` | lib/email-template.js:43-50 | decoding the escaped pieces gives back the display title, the date label and the distributor and motif texts as cut to 80 and 140 characters |
| `EmailTemplate.BuildItemCard` | lib/email-template.js:42-89 | the card opens its table and holds the image block (or the "No image" placeholder), the title line, the date block, the motif block and the action row, each built from the card's parts |
| `EmailTemplate.Cards` | lib/email-template.js:94 | the cards of a section are empty iff it has no items |
| `EmailTemplate.CardsShowEveryItem` | lib/email-template.js:94 | every item of a section has its card in the section's markup |
| `EmailTemplate.CardsAppend` | lib/email-template.js:94 | the cards follow the items' order: the cards of two lists in a row are the cards of the joined list |
| `EmailTemplate.SectionHead` | lib/email-template.js:100 | the heading line holds the escaped title followed by ` (count)` |
| `EmailTemplate.BuildSection` | lib/email-template.js:91-103 | a section is its heading line (escaped title and count), then its cards in order, or the "- none" line when it has no items, then the closing whitespace |
| `EmailTemplate.SectionNoneOnlyWhenEmpty` | lib/email-template.js:94-101 | the "- none" line follows the heading iff the section is empty; otherwise a card's table follows it |
| `EmailTemplate.Paragraph` | lib/email-template.js:108-116 | the intro or footer paragraph is empty iff its text is; otherwise a `<p>` of the given style whose content is exactly the escaped text |
| `EmailTemplate.ParagraphReadBack` | lib/email-template.js:108-116 | the paragraph holds the escaped text, and decoding its content gives the text back |
| `EmailTemplate.BuildEmailHtml` | lib/email-template.js:105-141 | the page opens with the escaped title ("RappelConso updates" by default) directly followed by the intro paragraph; it holds every section's markup; it ends with the footer paragraph and the closing markup |
| `EmailTemplate.RenderShowsSections` | lib/email-template.js:105-141 | a rendered document opens with its escaped title (or the default one) and holds its intro paragraph, all its sections' markup and its footer paragraph |
| `Email.ParseRecipientsShape` | lib/email.js:19-24 | each parsed address is non-empty, trimmed and comma-free, and the addresses come in the order of their segments |
| `Email.ParseRecipientsOfJoin` | lib/email.js:19-24 | a comma-joined list of clean addresses parses back to itself |
| `Email.MessageFor` | lib/email.js:32-38 | the message carries the sender, the addressees and the content unchanged |
| `Email.ParseRecipients` | lib/email.js:19-24 | every parsed address is non-empty, trimmed and comma-free |
| `Email.Mailer.constructor` | lib/email.js:5-17 | the mailer is set up from GMAIL_USER and ALERT_EMAIL_TO with nothing handed over yet |
| `Email.Mailer.SendAlertEmail` | lib/email.js:26-41 | with no addressee it fails before the transport is touched; otherwise exactly one message to the ALERT_EMAIL_TO addressees is handed over and the transport's answer is returned |
| `Cron.NormalizeSnapshotItems` | app/api/cron/route.js:21-33 | no snapshot, a missing or other value gives no items; an item array is used as it is; a non-empty text that parses to an array gives that array; items can only come from an array or such a text |
| `Cron.HashItem` | app/api/cron/route.js:35-45 | (no contract of its own) the digest of the six-field payload; `HashIgnoresOtherFields` and `HashDetectsChanges` state what it depends on |
| `Cron.HashIgnoresOtherFields` | app/api/cron/route.js:35-45 | the hash depends only on id, title, link, pubDate, description and image |
| `Cron.HashDetectsChanges` | app/api/cron/route.js:35-45 | with a collision-free digest, equal hashes mean those six fields are equal |
| `Cron.BuildHashMap` | app/api/cron/route.js:47-49 | the map's keys are exactly the item ids |
| `Cron.BuildHashMapLastWins` | app/api/cron/route.js:47-49 | for a repeated id the last item's hash is kept |
| `Cron.ComputeDiff` | app/api/cron/route.js:181-185 | (no contract of its own) the three filters of the run; `DiffMembership` and `DiffShape` state what each list holds |
| `Cron.DiffMembership` | app/api/cron/route.js:181-185 | an item is new iff its id was not in the snapshot; changed iff its id was there with a different hash; removed iff it was in the snapshot and its id is gone |
| `Cron.DiffShape` | app/api/cron/route.js:181-185 | new and changed items are subsequences of the feed and are disjoint; removed items are a subsequence of the snapshot |
| `Cron.DiffOfSelf` | app/api/cron/route.js:181-185 | comparing a feed with itself finds nothing |
| `Cron.DiffFromNothing` | app/api/cron/route.js:181-185 | against an empty snapshot every item is new |
| `Cron.NormalizeEmailMode` | app/api/cron/route.js:90-97 | the mode is one of diff, latest10 and auto; it is diff or latest10 exactly when the trimmed lower-cased setting says so |
| `Cron.NormalizeEmailModeIdempotent` | app/api/cron/route.js:90-97 | normalising a normalised mode changes nothing |
| `Cron.NormalizeEmailModeInsensitive` | app/api/cron/route.js:91-93 | case and surrounding whitespace do not matter |
| `Cron.ChooseBranch` | app/api/cron/route.js:191-231 | the ten latest are sent iff (latest10 is asked or there is no snapshot) and the feed is non-empty; the diff is sent only with a snapshot, a difference and a mode other than latest10; nothing is sent otherwise |
| `Cron.FirstRunSendsLatest` | app/api/cron/route.js:193 | on the first run (no snapshot) the diff is never sent, and a non-empty feed sends the ten latest |
| `Cron.ItemLine` | app/api/cron/route.js:56 | an item line is `- `, the title or else the id, ` (`, the link or else "no link", and `)` |
| `Cron.ListOrNoneLines` | app/api/cron/route.js:55-60 | a section's text is its lines joined by newlines, "- none" when it has no items |
| `Cron.SubjectCounts` | app/api/cron/route.js:52-53 | the subject starts with "RappelConso updates: ", shows the total number of changes as a decimal number, and ends in "s" unless the total is 1 |
| `Cron.Subject` | app/api/cron/route.js:52-53 | (no contract of its own) the subject line; `SubjectCounts` states what it shows |
| `Cron.BuildEmailContent` | app/api/cron/route.js:51-81 | the diff mail's subject counts the new, changed and removed items; its document is titled "RappelConso updates" with the diff intro, the three sections "New items", "Changed items", "Removed items" with their lists, and the feed footer |
| `Cron.DiffHtmlSections` | app/api/cron/route.js:69-78 | the rendered diff page opens with "RappelConso updates" and holds the new, changed and removed sections one after the other |
| `Cron.DiffTextIsJoin` | app/api/cron/route.js:58-67 | the diff mail's text is its three headed sections, each item on its own line |
| `Cron.DiffTextLines` | app/api/cron/route.js:58-67 | when no field holds a newline, splitting the text at newlines gives those lines back |
| `Cron.LatestItemsTextJoin` | app/api/cron/route.js:104-108 | a ten-latest mail's text is the intro, a blank line and one line per item |
| `Cron.LatestItemsTextLines` | app/api/cron/route.js:104-108 | splitting that text at newlines gives those lines back |
| `Cron.CronTestingContent` | app/api/cron/route.js:99-118 | the cron's ten-latest mail has the cron test subject and a document titled "RappelConso latest items" with the cron intro, one "Latest 10 items" section of the items, and the feed footer |
| `Cron.CronTestingText` | app/api/cron/route.js:104-108 | its text is the cron intro, a blank line and the item lines ("- none" when empty) |
| `Cron.LatestItemsHtml` | app/api/cron/route.js:110-115 | the rendered ten-latest page holds the "Latest 10 items" section of the items |
| `Cron.EnrichItem` | app/api/cron/route.js:123-130 | an item without a link, or whose scrape fails, is kept; otherwise it gets the scraped distributor fields and nothing else changes |
| `Cron.Enrich` | app/api/cron/route.js:120-134 | every item is enriched in place, in order |
| `Cron.EnrichKeepsIdentity` | app/api/cron/route.js:120-134 | enrichment changes neither an item's id nor its hash |
| `Cron.PlanEntry` | app/api/cron/route.js:139-140 | a recipient gives at most one mail |
| `Cron.Plan` | app/api/cron/route.js:138-140 | there are never more mails than recipients |
| `Cron.PlanAppend` | app/api/cron/route.js:138-140 | the plan of two recipient lists is the two plans one after the other |
| `Cron.PlanSkipsEmpty` | app/api/cron/route.js:139-140 | recipients without content are skipped; when all have content, one mail per recipient in order |
| `Cron.ErrPersists` | app/api/cron/route.js:141-145 | after a failed send, later recipients send nothing and the error stays the result |
| `Cron.NoAddressees` | lib/email.js:27-30 | with no ALERT_EMAIL_TO addressee nothing is handed over and any planned mail fails with that error |
| `Cron.SendOutcomeComplete` | app/api/cron/route.js:138-147 | a successful run returns one entry per planned mail, in order, and every planned message was handed over |
| `Cron.SendOutcomeStops` | app/api/cron/route.js:141-145 | a failed run handed over a prefix of the planned messages, and its error is the transport's answer to the last one |
| `Cron.SendStep` | app/api/cron/route.js:139-145 | one loop iteration extends the hand-over and the outcome by that recipient's mail |
| `Cron.PlanStep` | app/api/cron/route.js:139-140 | one more recipient extends the plan by its mail, or by nothing |
| `Cron.SendFilteredEmails` | app/api/cron/route.js:136-148 | the loop's result and the messages it hands over are those of the plan, stopping at the first failure |
| `Cron.FirstMessageId` | app/api/cron/route.js:223 | the id is the first sent mail's message id, present iff that id is non-empty |
| `Cron.TestingContentFor` | app/api/cron/route.js:214-221 | a recipient gets no ten-latest mail iff its filtered items are empty, and otherwise the mail of those items |
| `Cron.DiffContentFor` | app/api/cron/route.js:240-261 | a recipient gets no diff mail iff all three filtered lists are empty, and otherwise the diff mail of the three filtered lists |
| `Cron.SnapshotStore.constructor` | app/api/cron/route.js:168 | the store starts with its latest snapshot and nothing inserted |
| `Cron.SnapshotStore.Insert` | app/api/cron/route.js:187 | one snapshot of the current items is inserted |
| `Cron.RunCron` | app/api/cron/route.js:156-312 | a feed error answers 502 and changes nothing; otherwise the snapshot is stored first; no recipients answers 400 without mail; otherwise the chosen branch's plan is sent and the response follows its outcome |
| `TestEmail.ManualTestingContent` | app/api/test-email/route.js:23-42 | the manual test mail has its subject, and its document has the title "RappelConso latest items", the manual-test intro, one "Latest 10 items" section of the given items and the dashboard footer |
| `TestEmail.ManualTestingText` | app/api/test-email/route.js:28-32 | its text is the manual intro, a blank line and the item lines ("- none" when empty) |
| `TestEmail.RecipientContent` | app/api/test-email/route.js:91-96 | a recipient is skipped iff its filtered items are empty, and otherwise gets the test mail of them |
| `TestEmail.StatusOf` | app/api/test-email/route.js:66-113 | 200 exactly when the mails were sent; 502 for a feed or send error, 404 for an empty feed, 400 when no recipient is configured |
| `TestEmail.AnswerOf` | app/api/test-email/route.js:97-128 | a send error gives the error answer; a success gives the first message id, all sent entries and the mode "manual-test" |
| `TestEmail.TestItemsAreLatestTen` | app/api/test-email/route.js:71-76 | at most the ten first feed items are enriched, each one in its place |
| `TestEmail.PostTestEmail` | app/api/test-email/route.js:60-133 | a feed error, an empty feed or no recipients answer without mail; otherwise each recipient's filtered test mail is sent in order and the answer follows the outcome |
| `Distributeurs.NormalizeSplitList` | lib/distributeurs.js:5-11 | empty text gives no entries |
| `Distributeurs.NormalizeSplitListShape` | lib/distributeurs.js:5-11 | each entry is non-empty, trimmed and free of `;`, `,` and line breaks, and the entries come in order |
| `Distributeurs.NormalizeSplitListOfJoin` | lib/distributeurs.js:5-11 | a `;`-joined list of clean entries splits back to itself |
| `Distributeurs.IsAllowedUrl` | lib/distributeurs.js:13-20 | a url is allowed iff it parses with protocol `https:` and host `rappel.conso.gouv.fr` |
| `Distributeurs.LastHeadingWins` | lib/distributeurs.js:39-45 | the text kept is the whitespace-normalised `dd` of the last "Distributeurs" heading |
| `Distributeurs.NoHeadingNoText` | lib/distributeurs.js:39-45 | without such a heading the text is empty |
| `Distributeurs.ScanDistributeurs` | lib/distributeurs.js:39-45 | the `dt` loop computes that last-heading text |
| `Distributeurs.DetailSite.Fetch` | lib/distributeurs.js:27-30 | one fetch of the url is recorded and the site's page for it is answered |
| `Distributeurs.InfoOfPage` | lib/distributeurs.js:36-49 | the info is the last heading's text and its split list |
| `Distributeurs.InfoOfPageNormalised` | lib/distributeurs.js:41-43 | the distributor text has no outer whitespace and no whitespace runs |
| `Distributeurs.DistributeurInfoOf` | lib/distributeurs.js:32-49 | a non-OK page fails with `detail HTTP <status>`; otherwise the info of its html |
| `Distributeurs.FetchDistributeurInfo` | lib/distributeurs.js:22-50 | a disallowed url fails before any fetch; an allowed one is fetched once and gives the page's info or its HTTP error |
| `Detail.StatusOf` | app/api/detail/route.js:26-52 | 200 exactly for a found page; 400 for a disallowed url, 502 for an upstream failure |
| `Detail.UrlParam` | app/api/detail/route.js:24 | a missing `url` parameter counts as empty |
| `Detail.GetDetail` | app/api/detail/route.js:22-53 | a disallowed url answers 400 without a fetch; otherwise one fetch, answering what the library returns or throws for that page |
| `Gtin.NormalizeGtinInput` | rappel_conso_gtin_search_rappel_conso_v_2.jsx:19-35 | the result is the first-occurrence de-duplication of the digit runs of the input |
| `Gtin.KeepFirstOccurrences` | rappel_conso_gtin_search_rappel_conso_v_2.jsx:26-33 | the `seen`/`uniq` loop computes the first-occurrence de-duplication |
| `Gtin.GtinsShape` | rappel_conso_gtin_search_rappel_conso_v_2.jsx:19-35 | every GTIN is a non-empty run of digits, none twice, in input order |
| `Gtin.DigitRunsKept` | rappel_conso_gtin_search_rappel_conso_v_2.jsx:21-24 | every non-empty digit run of the input is among the GTINs |
| `Gtin.GtinsOfList` | rappel_conso_gtin_search_rappel_conso_v_2.jsx:19-35 | a comma-joined list of distinct GTINs normalises back to itself |
| `Gtin.NormalizeIdempotent` | rappel_conso_gtin_search_rappel_conso_v_2.jsx:19-35 | normalising the comma-joined normal form gives it back |
| `Gtin.BuildWhereContainsGtin` | rappel_conso_gtin_search_rappel_conso_v_2.jsx:44-48 | the clause is the field, ` like "%`, the GTIN and `%"`, in that order |
| `Gtin.BuildWhereExactGtins` | rappel_conso_gtin_search_rappel_conso_v_2.jsx:37-42 | no GTIN gives the empty clause and only then; one GTIN gives the bare equality; several give their equalities joined with ` OR ` inside parentheses |
| `Gtin.ExactClauseMentionsEach` | rappel_conso_gtin_search_rappel_conso_v_2.jsx:41 | every GTIN's equality appears in the exact clause |
| `Gtin.ContainsAny` | rappel_conso_gtin_search_rappel_conso_v_2.jsx:167 | (no contract of its own) the LIKE clauses joined with ` OR ` in parentheses; `ContainsAnyMentionsEach` states that it tests every GTIN |
| `Gtin.ContainsAnyMentionsEach` | rappel_conso_gtin_search_rappel_conso_v_2.jsx:167 | every GTIN's LIKE clause appears in the fallback clause |
| `Gtin.GetFirst` | rappel_conso_gtin_search_rappel_conso_v_2.jsx:50-55 | undefined iff no key holds a value; otherwise the value of the first key that holds one |
| `Gtin.ToArray` | rappel_conso_gtin_search_rappel_conso_v_2.jsx:57-69 | null/undefined give no element; an array is kept; a string gives its separated trimmed non-empty parts, or itself when there are none; anything else is wrapped |
| `Gtin.ToArrayOfList` | rappel_conso_gtin_search_rappel_conso_v_2.jsx:57-69 | a comma-joined list of clean entries gives those entries back as strings |
| `Gtin.PageOf` | rappel_conso_gtin_search_rappel_conso_v_2.jsx:131-132 | the total is `total_count`, else `nhits`, else 0; the results are `results`, else `records`, else none |
| `Gtin.RecordsApi.constructor` | rappel_conso_gtin_search_rappel_conso_v_2.jsx:107-134 | the API starts with no request made |
| `Gtin.RecordsApi.FetchRecords` | rappel_conso_gtin_search_rappel_conso_v_2.jsx:107-134 | one request with that dataset, clause and limit is recorded; an error answer is passed on and a data answer becomes its page |
| `Gtin.TryEspaces` | rappel_conso_gtin_search_rappel_conso_v_2.jsx:159-171 | one request is made to the espaces dataset with the LIKE clause, or the OR of LIKE clauses |
| `Gtin.Search` | rappel_conso_gtin_search_rappel_conso_v_2.jsx:136-191 | the requests made and the final error, hits, records and dataset are those of the search's specification |
| `Gtin.SearchRequests` | rappel_conso_gtin_search_rappel_conso_v_2.jsx:142-181 | (no contract of its own) the requests `search` makes; `SearchRequestsShape` states their number and order |
| `Gtin.SearchResult` | rappel_conso_gtin_search_rappel_conso_v_2.jsx:136-191 | (no contract of its own) the page state `search` leaves; `SearchResultOfLastRequest` ties it to the requests made |
| `Gtin.SearchRequestsShape` | rappel_conso_gtin_search_rappel_conso_v_2.jsx:142-181 | no GTIN makes no request and sets the "GTIN requis" error; otherwise one or two requests, two exactly in auto mode after a successful trie search with total 0, the second going to espaces |
| `Gtin.SearchResultOfLastRequest` | rappel_conso_gtin_search_rappel_conso_v_2.jsx:173-187 | with GTINs, the state is the outcome of the last request: its total, records and dataset on success; its error with no hits on failure, the sorted dataset recorded only when it had answered before the fallback |
| `Viewer.PickShortDistributorLabel` | components/RappelConsoRssViewer.jsx:116-121 | one distributor is shown alone, several as the first and `+n`; raw text over 40 characters is cut to 37 plus an ellipsis, and shorter raw text is kept |
| `Viewer.FmtIsoDateDmy` | components/RappelConsoRssViewer.jsx:30-35 | empty stays empty; a date without exactly three dash parts is kept |
| `Viewer.FmtIsoDateOfParts` | components/RappelConsoRssViewer.jsx:32-33 | `y-m-d` becomes `d/m/y` |
| `Viewer.FmtIsoDateKeepsOthers` | components/RappelConsoRssViewer.jsx:32-34 | any other number of dash parts is kept as it is |
| `Viewer.ClassNames` | components/RappelConsoRssViewer.jsx:69-71 | no truthy class gives the empty string |
| `Viewer.ClassNamesSplit` | components/RappelConsoRssViewer.jsx:69-71 | splitting the class string at spaces gives back exactly the non-empty classes, in order |
| `Viewer.IdsOf` | components/RappelConsoRssViewer.jsx:422-424 | every recorded id is non-empty |
| `Viewer.IdsOfMembers` | components/RappelConsoRssViewer.jsx:422-424 | the recorded ids are exactly the non-empty ids of the parsed items |
| `Viewer.PrevList` | components/RappelConsoRssViewer.jsx:421 | a missing stored list counts as empty |
| `Viewer.NewIds` | components/RappelConsoRssViewer.jsx:415-419 | on a first visit (no stored ids) nothing is new |
| `Viewer.NewIdsExact` | components/RappelConsoRssViewer.jsx:415-419 | otherwise an id is new iff it is a parsed id not seen before, in feed order |
| `Viewer.RecordSeenIds` | components/RappelConsoRssViewer.jsx:421-426 | the stored ids are the insertion-ordered set of the old ids followed by the parsed ids |
| `Viewer.SeenIdsGrow` | components/RappelConsoRssViewer.jsx:415-426 | the stored ids hold exactly the old and the parsed ids, without repeats, including every new id |
| `Viewer.KeepIffAllFilters` | components/RappelConsoRssViewer.jsx:363-384 | the early-return checks keep an item iff it passes the image, date-range, distributor and text filters |
| `Viewer.Filtered` | components/RappelConsoRssViewer.jsx:361-385 | the filtered list is a subsequence of the items holding exactly the kept ones |
| `Viewer.FilteredExact` | components/RappelConsoRssViewer.jsx:361-385 | an item is shown iff it passes all four filters |
| `Viewer.SortDaysAscending` | components/RappelConsoRssViewer.jsx:396 | sorting distinct days gives a strictly ascending list of the same days |
| `Viewer.LastDays` | components/RappelConsoRssViewer.jsx:397 | at most 14 days, the last ones |
| `Viewer.Bars` | components/RappelConsoRssViewer.jsx:398 | one bar per day, with that day's count or 0 |
| `Viewer.CountDays` | components/RappelConsoRssViewer.jsx:390-395 | the counts map holds exactly the non-empty days of the items, each with its number of items, and the key list lists them once each |
| `Viewer.Stats` | components/RappelConsoRssViewer.jsx:389-399 | at most 14 bars in ascending date order, each with its true positive count; a day left out is older than every day shown, and only when 14 are shown |
| `Viewer.LastDaysCover` | components/RappelConsoRssViewer.jsx:396-397 | a sorted day is either among the last 14 or older than all of them |
| `Viewer.Visible` | components/RappelConsoRssViewer.jsx:387 | the visible page is the first `pageSize` items (all when there are fewer) |
| `Viewer.LoadMore` | components/RappelConsoRssViewer.jsx:932 | "Load more" sets the page size to `min(pageSize + 30, total)`, so it grows without passing the total |
| `Viewer.Remaining` | components/RappelConsoRssViewer.jsx:934 | the remaining count is the items not yet shown, never negative |
| `Viewer.LoadMoreExtends` | components/RappelConsoRssViewer.jsx:929-934 | each click shows strictly more items and leaves fewer remaining |
| `Viewer.LoadMoreReachesEnd` | components/RappelConsoRssViewer.jsx:929-932 | enough clicks show everything |
| `ConfigPage.FormatRecipients` | app/config/page.jsx:10-13 | a missing or empty list shows "None"; otherwise the addresses joined with ", " (a single one alone) |
| `ConfigPage.FormatRecipientsShowsEach` | app/config/page.jsx:10-13 | every address of the list appears |
| `ConfigPage.DistributeursPart` | app/config/page.jsx:17-20 | no distributor shows " (all distributeurs)"; otherwise ` (`, the distributors joined with ", ", and `)` |
| `ConfigPage.FormatRecipientConfig` | app/config/page.jsx:15-21 | an entry without an address shows nothing; otherwise the address, the distributor part and the mode suffix |
| `ConfigPage.FormatRecipientConfigShowsEach` | app/config/page.jsx:15-21 | every selected distributor appears in the line |
| `ConfigPage.FixedParts` | app/config/page.jsx:33-37 | always four non-empty parts: `user=` the user or "missing"; `recipients=` the ", "-joined list, or "missing" when that is empty; `appPasswordConfigured=` yes or no; `appPasswordLength=` the length, 0 when absent |
| `ConfigPage.FormatEmailConfig` | app/config/page.jsx:30-42 | no config shows nothing |
| `ConfigPage.EmailConfigPartsKept` | app/config/page.jsx:30-42 | the summary is the four fixed fields, then `service=` only when a service is set, joined by " · " |
| `ConfigPage.FilterKeepsFixed` | app/config/page.jsx:38-40 | `filter(Boolean)` keeps the always-present fields and drops only the absent service |
| `ConfigPage.FilterDistributeurOptions` | app/config/page.jsx:44-49 | a blank query keeps every option; otherwise exactly the options containing the trimmed lower-cased query, in order |
| `ConfigPage.EntryOf` | app/config/page.jsx:126-131 | a loaded entry keeps the address and the flag, has an empty filter, and a non-array distributor field becomes [] |
| `ConfigPage.LoadedEntries` | app/config/page.jsx:125-132 | non-array recipients load nothing; otherwise one row per recipient in order |
| `ConfigPage.RemoveAt` | app/config/page.jsx:367 | removing row `index` keeps all other rows in order |
| `ConfigPage.OrBlank` | app/config/page.jsx:368-372 | an empty row list is replaced by one blank row |
| `ConfigPage.SavePayloadSound` | app/config/page.jsx:155-161 | every saved entry is the trimmed payload of some row |
| `ConfigPage.SavePayloadComplete` | app/config/page.jsx:155-161 | every row with a non-blank address is saved |
| `ConfigPage.SavePayloadExact` | app/config/page.jsx:155-161 | saved addresses are non-empty and trimmed; the saved entries are exactly the rows with an address, in order |
| `ConfigPage.RecipientEditor.constructor` | app/config/page.jsx:78-80 | the editor starts with one blank row |
| `ConfigPage.RecipientEditor.SetEmail` | app/config/page.jsx:284-287 | only that row's address changes |
| `ConfigPage.RecipientEditor.SetFilter` | app/config/page.jsx:295-298 | only that row's filter text changes |
| `ConfigPage.RecipientEditor.SetDistributeurs` | app/config/page.jsx:306-312 | only that row's selection changes (Clear is the empty selection, lines 355-358) |
| `ConfigPage.RecipientEditor.SetOnlyNewItems` | app/config/page.jsx:338-341 | only that row's flag changes |
| `ConfigPage.RecipientEditor.Remove` | app/config/page.jsx:366-372 | the row is removed; removing the only row leaves one blank row |
| `ConfigPage.RecipientEditor.Add` | app/config/page.jsx:384-388 | a blank row is appended |
| `ConfigPage.RecipientEditor.Load` | app/config/page.jsx:125-137 | the rows become the loaded recipients, or one blank row |
| `ConfigPage.RecipientEditor.AfterSave` | app/config/page.jsx:177-185 | the rows become the saved recipients, or stay as they were when none came back |
| `ConfigPage.EditTouchesOneRow` | app/config/page.jsx:285-286 | replacing one row keeps the length and every other row |
| `EmailConfig.FormatRecipientConfigEntry` | app/api/email-config/route.js:20-29 | a null entry stays null; otherwise the address and the distributors ([] when not an array) |
| `EmailConfig.FormatDropsOtherFields` | app/api/email-config/route.js:25-28 | entries that differ only in other fields (such as onlyNewItems) answer the same |
| `EmailConfig.AnsweredRecipients` | app/api/email-config/route.js:40-42 | non-array recipients answer []; otherwise each entry formatted, in order |
| `EmailConfig.GetConfig` | app/api/email-config/route.js:37-44 | no config answers null; a config answers its formatted recipients |
| `EmailConfig.RawRecipientConfigs` | app/api/email-config/route.js:72-74 | `recipients` unless it is null/undefined, else a string `alertEmailTo`, else null |
| `EmailConfig.StatusOf` | app/api/email-config/route.js:65-101 | 200 exactly for a saved configuration, 400 for either refusal |
| `EmailConfig.ErrorOf` | app/api/email-config/route.js:69-78 | the two refusals carry their own messages and a saved configuration none |
| `EmailConfig.ConfigStore.Upsert` | app/api/email-config/route.js:83 | one save of the recipient list is recorded, and the stored recipients are answered |
| `EmailConfig.Post` | app/api/email-config/route.js:60-103 | an unreadable body or an empty normalised list is refused with nothing stored; otherwise the list is stored once and its stored recipients are answered formatted |

## Left out

- Authorisation (`isAuthorized` and the 401 answers), logging, run ids and timestamps: they do not affect what is computed.
- The environment-variable checks that throw at module load, the catch-all 500 answers and database exceptions: the stores here always answer.
- Concurrency: `Promise.all` in enrichment and in the configuration page's loading is modelled as sequential, in order; the routes do not depend on the order.
- Foreign parsers and primitives are parameters: the XML parser (`parseXml`), `new Date(...)` (`parseDate`), `new URL(...)` (`parseUrl`), cheerio's `dt`/`dd` extraction (`dtsOf`), `JSON.parse` (`parseJson`), sha256 (`sha`) and the SMTP transport (`transport`).
- `getEmailRecipientConfigs`, `filterItemsByDistributeurs`, `getEmailConfigSummary` and `normalizeRecipientConfigs` are imported but defined in none of the repository's files; they are parameters. The database code of lib/db.js and lib/email-config.js is not part of this model. As shipped, `upsertEmailConfig` stores a single `alertEmailTo` string and returns no `recipients` field, so the configuration route would answer []. The store's `savedAs` answer covers that case (`None`).
- The e-mail HTML is kept as a document value (title, intro, sections, footer) inside `Email.Content`; `EmailTemplate.BuildEmailHtml` renders it.
- `Email.Mailer.constructor`: ALERT_EMAIL_TO is parsed once, when the mailer is set up, rather than on each call; the environment does not change between calls.
- String lengths count Unicode code points rather than UTF-16 units (this matters only for `truncateText` and `pickShortDistributorLabel` on astral characters).
- `Strings.ToLower`: lower-cases only ASCII and Latin-1 capitals, not the whole Unicode case mapping.
- `Rss.NormalizedFeedShape`: states a sorted permutation; stability among equal timestamps is built into `SortByTs`, not stated as its own lemma.
- `EmailTemplate.BuildItemCard`: states that the card opens its table and holds each of its five blocks, not the order in which they follow one another (image, title, date, motif, actions); the content of each block is stated on `CardPartsOf` and the block functions.
- `EmailTemplate.BuildEmailHtml`: states that the sections' markup is in the page, not that it sits between the intro and the footer paragraphs.
- `Gtin.RecordsApi.FetchRecords`: the query-string encoding (`buildRecordsUrl`, `URLSearchParams`), the `order_by` parameter and the text of the HTTP error are not modelled; the error is an abstract string from the API's answer.
- The GTIN page's `AbortError` handling, the abort of a running request and `prettyDate`: browser plumbing and locale formatting.
- The dashboard's `localStorage` writes of the refresh time, the last new ids and the item cache, the `isNew` flag on items, the detail fetching with its cache, and the sorted distributor option list: side effects and UI state.
- The dashboard's `fmtDateDMY`, `stripHtml` (DOM based) and the configuration page's `formatDate`: locale and DOM formatting.
- `Viewer.ClassNames`: its arguments are modelled as strings, with "" for a falsy value.
- The `onlyNewItems` flag is carried through the configuration page and the store but read by no route, so it selects nothing here.

## Findings

The card is modelled as the code is written: `CardPartsOf` cuts the
distributor and motif texts with `TruncateTextAsWritten`, so the mails
carry the three-character suffix. `TruncateText` is the corrected
definition, and `TruncateReadings` relates the two.

| source | as written | input that shows it | evidently intended | confidence | as-written member | corrected member |
|---|---|---|---|---|---|---|
| lib/email-template.js:24 | the ellipsis is written as the three characters `â€¦` (the UTF-8 bytes of U+2026 read as Windows-1252), so a truncated text ends in those three characters | an 81-character distributor text with limit 80 comes out at 82 characters, longer than the text | one `…` (U+2026): exactly `limit` characters, never longer than the input | not executed | `EmailTemplate.TruncateTextAsWritten`, `EmailTemplate.TruncateAsWrittenOverflows` | `EmailTemplate.TruncateText` |
