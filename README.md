# iLEAPP: iCloud Shared Photo Library assets and Kleinanzeigen.de extractors in Dafny

This project models two groups of forensic artifact extractors of iLEAPP, the
iOS logs, events and plists parser, and proves what their output rows promise.

**Photos.sqlite, iCloud Shared Photo Library assets with contributors**
(`get_ph32icldsplassetsphdapsql`). The extractor reads the iOS version and
picks a branch. Up to 15.8.2 it only logs "Unsupported version". From 16 up
to 18 it runs a 52-column query (layout A), and from 18 on a 55-column one
(layout B). A version strictly between 15.8.2 and 16 matches no branch at all.
Each query selects the assets whose active-library-scope participation state
is 1. It left-joins additional attributes, extended attributes, the cloud
master, the share, the asset contributors and their share participants, and
orders the rows by creation date. Enumerated columns go through SQL `CASE`
tables; each listed code gets a fixed label, any other code gets
`Unknown-New-Value!: <code>`, and NULL stays NULL. Date columns are Cocoa
second counts shifted by 978307200 to the Unix epoch. The fetched rows are
copied column by column into the report, or the extractor logs "No assets …"
when there are none.

- `Versions`: dotted versions as `seq<nat>`, compared with zero padding, and the dispatch.
- `PhotoTables`: every `CASE` table, written once and shared by both layouts, with the
  label function and its inverse `RecoverCode`.
- `PhotoQuery`: the records, the primary-key left joins, the contributor fan-out, the
  filter and a stable sort by creation date.
- `PhotoLayouts`: the two SELECT lists, built from shared column groups.
- `PhotoHeaders`: the two header rows.
- `PhotoRows`: what the projections promise.
- `PhotoExtractor`: the row-copy loop and one whole run.

**Kleinanzeigen.de.** There are four flatteners of decoded app data:

- The message cache (`get_kleinanzeigenmessagecache`) gives one 11-column row per
  message. The user's own identity depends on their role. Direction comes from
  `sender`, attachments are joined with ", ", and a missing ad status reads "UNKNOWN".
- A conversation with no messages gets a fallback row from its client data. That
  row reuses the attachment and message id left over from the last message of an
  earlier conversation. If no message has been seen yet, or a key is missing, the
  error is swallowed and the conversation gives no row. The imperative model keeps
  these leftover variables as loop state (`stale`), and a lemma ties them to the
  last earlier message.
- The last search query gives one row per location.
- The user profile gives seven property rows.
- The search history gives one row per keyword.

Modules: `KleinanzeigenMessages` and `UrlList` (", " joining and the split that undoes
it) cover the message cache; `KleinanzeigenPrefs` covers the other three.

`Common` holds the cell type (`Value`), tables, the Cocoa epoch shift, and decimal
rendering with its parser.

Inputs are decoded records: SQLite rows, JSON objects and plist entries become
datatypes. A key that the source reads with no error handling is a record field,
so the model does not cover its absence, where the source raises and the artifact
yields nothing. The message cache's `clientData` is a `map`, because the source
reads some of its keys only for one role or inside a `try`. The missing-key
failures that abort the artifact are modelled as `Err(MissingKey(k))`.

## Model

| member | source | states |
|---|---|---|
| Common.UnixFromCocoa | scripts/artifacts/Ph32AssetsIniCldSPLwContrib.py:42 | Shifting a Cocoa second count by 978307200 is undone by `CocoaFromUnix`: no stored date is lost. |
| Common.DateCell | scripts/artifacts/Ph32AssetsIniCldSPLwContrib.py:114-120 | A date column is NULL exactly when the stored value is NULL; otherwise it is a Unix time whose Cocoa offset is the stored value. |
| Common.NatToString | scripts/artifacts/Ph32AssetsIniCldSPLwContrib.py:46 | The decimal rendering of a code is a non-empty digit string that parses back to the code. |
| Common.IntToStringRoundTrip | scripts/artifacts/Ph32AssetsIniCldSPLwContrib.py:46 | Any integer code, negative ones included, renders as text that parses back to it. |
| Versions.Compare | scripts/artifacts/Ph32AssetsIniCldSPLwContrib.py:32-35 | The version comparison is three-valued (-1, 0, 1). |
| Versions.CompareAntisymmetric | scripts/artifacts/Ph32AssetsIniCldSPLwContrib.py:32-35 | Swapping the operands negates the comparison. |
| Versions.CompareZeroMeansPaddedEqual | scripts/artifacts/Ph32AssetsIniCldSPLwContrib.py:32-35 | Two versions compare equal if and only if they agree on every component once padded with zeros (16 == 16.0). |
| Versions.CompareTransitive | scripts/artifacts/Ph32AssetsIniCldSPLwContrib.py:32-35 | The ordering is transitive, strictly so when either step is strict. |
| Versions.CompareAtFirstDifference | scripts/artifacts/Ph32AssetsIniCldSPLwContrib.py:32-35 | The order is ascending: at the first component where the zero-padded versions differ, the smaller component makes the smaller version (so 15.8.2 < 16 and 17.9 < 18). |
| Versions.Dispatch | scripts/artifacts/Ph32AssetsIniCldSPLwContrib.py:32-37 | Layout B is chosen if and only if the version is at least 18. |
| Versions.UnsupportedOpensNothing | scripts/artifacts/Ph32AssetsIniCldSPLwContrib.py:32-37 | A version logged as unsupported (at most 15.8.2) never selects a layout. |
| Versions.GapMatchesNothing | scripts/artifacts/Ph32AssetsIniCldSPLwContrib.py:302-304 | A version strictly between 15.8.2 and 16 neither logs nor selects a layout. |
| Versions.SupportedOpensOneLayout | scripts/artifacts/Ph32AssetsIniCldSPLwContrib.py:35-37 | Every version from 16 on selects a layout and is not logged as unsupported. |
| Versions.DispatchCases | scripts/artifacts/Ph32AssetsIniCldSPLwContrib.py:32-37 | The whole branch table: "Unsupported version" is logged exactly up to 15.8.2; layout A exactly for 16 up to but not including 18; layout B exactly from 18 on; no layout below 16; a logged version never opens a layout. |
| Versions.DispatchExamples | scripts/artifacts/Ph32AssetsIniCldSPLwContrib.py:32-37 | 15.9 does nothing, 15.8.2.0 is unsupported, 16.0 and 17.7.1 take layout A, 18 takes layout B. |
| PhotoTables.Lookup | scripts/artifacts/Ph32AssetsIniCldSPLwContrib.py:43-47 | A code has a label exactly when some WHEN arm lists it, and the label is that of the first arm listing it, as CASE takes the first matching WHEN. |
| PhotoTables.LabelCases | scripts/artifacts/Ph32AssetsIniCldSPLwContrib.py:43-47 | A CASE cell is NULL exactly when the code is NULL. A listed code gets the label of the first WHEN arm listing it. Any other code gets `Unknown-New-Value!: ` followed by the code in decimal. |
| PhotoTables.LabelRecoversCode | scripts/artifacts/Ph32AssetsIniCldSPLwContrib.py:43-47 | For every table, the CASE cell determines the code: listed labels, the unknown sentinel and NULL never collide. |
| PhotoTables.UnlistedCodeIsSentinel | scripts/artifacts/Ph32AssetsIniCldSPLwContrib.py:46 | A code no arm lists yields `Unknown-New-Value!: ` followed by the code, which reads back as the code. |
| PhotoQuery.FindByKey | scripts/artifacts/Ph32AssetsIniCldSPLwContrib.py:202-205 | A left join by primary key finds a record carrying the foreign key, or there is no such record (or no key) and the columns are NULL. |
| PhotoQuery.Contributors | scripts/artifacts/Ph32AssetsIniCldSPLwContrib.py:206 | The contributor join keeps exactly the contributors that point at the asset, each as often as the table holds it: k matching rows give k contributors. |
| PhotoQuery.JoinAsset | scripts/artifacts/Ph32AssetsIniCldSPLwContrib.py:201-207 | An asset gives at least one joined row. Every row carries the asset and, each by its primary key, its additional attributes, extended attributes, cloud master and share. Its contributor points at the asset and is NULL only when the asset has none; the participant is the contributor's, and NULL without a contributor. |
| PhotoQuery.JoinAssetShape | scripts/artifacts/Ph32AssetsIniCldSPLwContrib.py:206-207 | One asset gives max(1, k) rows for k contributors; row i carries contributor i and the participant it points to, and an asset without contributors has NULL contributor and participant. |
| PhotoQuery.JoinAll | scripts/artifacts/Ph32AssetsIniCldSPLwContrib.py:201-208 | Every joined row belongs to an asset of the input whose participation state is 1. |
| PhotoQuery.SortByDate | scripts/artifacts/Ph32AssetsIniCldSPLwContrib.py:209 | The ORDER BY yields a permutation of its input sorted by creation date, NULL first. |
| PhotoQuery.Query | scripts/artifacts/Ph32AssetsIniCldSPLwContrib.py:201-209 | The fetched rows are the filtered join, as a permutation, ordered by creation date with NULL first; only qualifying assets appear. |
| PhotoQuery.JoinAllCount | scripts/artifacts/Ph32AssetsIniCldSPLwContrib.py:201-208 | The joined rows number one per contributor of each qualifying asset, or one when it has none. |
| PhotoQuery.JoinAllKeepsAsset | scripts/artifacts/Ph32AssetsIniCldSPLwContrib.py:201-208 | All rows of a qualifying asset appear in the join. |
| PhotoQuery.QueryContract | scripts/artifacts/Ph32AssetsIniCldSPLwContrib.py:201-209 | The query returns only qualifying assets, sorted by creation date, as a permutation of the joined rows, with the expected count. |
| PhotoQuery.QualifyingAssetAppears | scripts/artifacts/Ph32AssetsIniCldSPLwContrib.py:201-208 | Every qualifying asset has a row even with no share or contributor, and one row per matching contributor. |
| PhotoLayouts.ProjectA | scripts/artifacts/Ph32AssetsIniCldSPLwContrib.py:41-200 | A layout A row has 52 columns; column 0 is the creation date and columns 17 and 31 are the same Share Type label. |
| PhotoLayouts.ProjectB | scripts/artifacts/Ph32AssetsIniCldSPLwContrib.py:308-475 | A layout B row has 55 columns; column 0 is the creation date and columns 18 and 35 are the same Share Type label. |
| PhotoHeaders.HeaderArities | scripts/artifacts/Ph32AssetsIniCldSPLwContrib.py:235-564 | The header rows have 52 and 55 names (lines 235-286 and 510-564), the widths of the two layouts. |
| PhotoRows.LayoutsShareLeadingColumns | scripts/artifacts/Ph32AssetsIniCldSPLwContrib.py:42-95 | Both layouts open with the same sixteen asset columns. |
| PhotoRows.ActiveScopeColumnIsConstant | scripts/artifacts/Ph32AssetsIniCldSPLwContrib.py:43-47 | In every fetched row of both layouts, column 1 reads `1-Asset-In-Active-SPL-1`. |
| PhotoRows.ActiveScopeLabel | scripts/artifacts/Ph32AssetsIniCldSPLwContrib.py:310-314 | A row of an asset in the active scope has `1-Asset-In-Active-SPL-1` in column 1 of both layouts. |
| PhotoRows.CreationDatesAscend | scripts/artifacts/Ph32AssetsIniCldSPLwContrib.py:209 | Column 0 of the fetched rows never goes back in time, in both layouts: NULL dates first, then ascending Unix times. |
| PhotoRows.AssetColumnsRecoverCodes | scripts/artifacts/Ph32AssetsIniCldSPLwContrib.py:43-95 | The enumerated asset columns (participation, syndication, bundle scope, importer, visibility) determine their codes. |
| PhotoRows.SavedAndBurstRecoverCodes | scripts/artifacts/Ph32AssetsIniCldSPLwContrib.py:96-150 | Saved asset type, share type, both burst pick types and trashed state determine their codes. |
| PhotoRows.ContributionRecoversCodes | scripts/artifacts/Ph32AssetsIniCldSPLwContrib.py:162-171 | The participant's current-user and role columns determine their codes, NULL for an absent participant. |
| PhotoRows.LayoutAGroups | scripts/artifacts/Ph32AssetsIniCldSPLwContrib.py:41-200 | Where each shared column group and the hidden and share columns sit in layout A. |
| PhotoRows.LayoutAAssetEnums | scripts/artifacts/Ph32AssetsIniCldSPLwContrib.py:43-95 | Layout A columns 1, 8, 9, 10 and 15 give back their codes. |
| PhotoRows.LayoutASavedEnums | scripts/artifacts/Ph32AssetsIniCldSPLwContrib.py:96-125 | Layout A columns 16, 17 and 25 give back their codes. |
| PhotoRows.LayoutABurstEnums | scripts/artifacts/Ph32AssetsIniCldSPLwContrib.py:126-150 | Layout A columns 26, 27, 28 and 31 (the second Share Type) give back their codes. |
| PhotoRows.LayoutAShareEnums | scripts/artifacts/Ph32AssetsIniCldSPLwContrib.py:162-200 | Layout A columns 36, 37, 49, 50 and 51 give back their codes. |
| PhotoRows.LayoutBGroups | scripts/artifacts/Ph32AssetsIniCldSPLwContrib.py:308-475 | Where each shared column group and the iOS 18 columns sit in layout B. |
| PhotoRows.LayoutBOwnEnums | scripts/artifacts/Ph32AssetsIniCldSPLwContrib.py:363-474 | The iOS 18 columns (recently saved, screenshot, hidden, adjustments, burst kind, generative AI) give back their codes. |
| PhotoRows.LayoutBSharedEnums | scripts/artifacts/Ph32AssetsIniCldSPLwContrib.py:310-459 | Layout B's copies of the asset and contribution enumerated columns, 1, 8, 9, 10, 15, 40 and 41, give back their codes. |
| PhotoRows.LayoutBSavedAndBurstEnums | scripts/artifacts/Ph32AssetsIniCldSPLwContrib.py:368-445 | Layout B's copies of the saved, burst and trash enumerated columns, 17, 18, 30, 31, 32 and 35 (both Share Type positions), give back their codes. |
| PhotoRows.HiddenAssetWithoutShareOrContributor | scripts/artifacts/Ph32AssetsIniCldSPLwContrib.py:121-125 | A hidden qualifying asset with no contributor and no matching share (a NULL or dangling ZLIBRARYSCOPE) gives one row. Hidden reads `1-Asset Hidden-1` (layout A column 25, layout B column 27), and the participant and share columns are NULL (A: 36-51, B: 40-52). |
| PhotoRows.NoShareNoShareColumns | scripts/artifacts/Ph32AssetsIniCldSPLwContrib.py:162-200 | Without contributor, participant and share, every participant and share column of layout A (36-51) is NULL. |
| PhotoRows.NoShareNoShareColumnsB | scripts/artifacts/Ph32AssetsIniCldSPLwContrib.py:450-470 | Without contributor, participant and share, every participant and share column of layout B (40-52) is NULL. |
| PhotoExtractor.CopyRows | scripts/artifacts/Ph32AssetsIniCldSPLwContrib.py:214-500 | Both branches' copy loops (lines 214-225 and 489-500): `data_list` holds each fetched row's first width columns, in fetch order, and `counter` ends at the row count. |
| PhotoExtractor.ExpectedRun | scripts/artifacts/Ph32AssetsIniCldSPLwContrib.py:31-578 | A run opens the database exactly when the version selects a layout. A report is aligned and has one row per fetched row, at least one. The logs are the unsupported line when the version is at most 15.8.2, then "No assets …" exactly when the database was opened and nothing was reported. |
| PhotoExtractor.ExtractSharedLibraryAssets | scripts/artifacts/Ph32AssetsIniCldSPLwContrib.py:31-578 | One run, through both the iOS 16-17 and the iOS 18 branch, logs, opens and reports exactly as `ExpectedRun` says. |
| PhotoExtractor.ReportMatchesQuery | scripts/artifacts/Ph32AssetsIniCldSPLwContrib.py:212-235 | A report has the layout's headers and one aligned row per query row, in order, and at least one row. |
| PhotoExtractor.UnsupportedRunOnlyLogs | scripts/artifacts/Ph32AssetsIniCldSPLwContrib.py:32-34 | A version up to 15.8.2 logs "Unsupported version … from iOS <version>" and does nothing else. |
| PhotoExtractor.GapRunIsSilent | scripts/artifacts/Ph32AssetsIniCldSPLwContrib.py:302-304 | A version between 15.8.2 and 16 logs nothing, opens nothing and reports nothing. |
| PhotoExtractor.SupportedRunReportsOrLogs | scripts/artifacts/Ph32AssetsIniCldSPLwContrib.py:216-297 | A supported version opens the database, and either reports (when rows were fetched) or logs only "No assets …", never both. |
| PhotoExtractor.ReportRowCount | scripts/artifacts/Ph32AssetsIniCldSPLwContrib.py:201-225 | A report has one row per contributor of each qualifying asset, or one for an asset with none. |
| UrlList.Join | scripts/artifacts/kleinanzeigen.de.py:115 | Joining a single URL gives that URL itself; `UrlList.SplitJoin` states that splitting undoes joining. |
| UrlList.Split | scripts/artifacts/kleinanzeigen.de.py:115 | Splitting yields at least one piece; it is the inverse of `Join` (see `UrlList.SplitJoin`). |
| UrlList.SplitJoin | scripts/artifacts/kleinanzeigen.de.py:115 | Splitting on ", " undoes joining with ", " for any non-empty list of parts without ", ". |
| UrlList.SplitAfterPart | scripts/artifacts/kleinanzeigen.de.py:115 | The first separator of a joined string is the one after its first part. |
| UrlList.SplitWithoutSeparator | scripts/artifacts/kleinanzeigen.de.py:115 | A part without ", " splits to itself. |
| KleinanzeigenMessages.ShiftedTime | scripts/artifacts/kleinanzeigen.de.py:88 | The fallback date is a time exactly when the stored value is numeric: an integer is shifted by the Cocoa offset, a bool as 0 or 1, and a float after flooring to the whole second. |
| KleinanzeigenMessages.OwnIdentity | scripts/artifacts/kleinanzeigen.de.py:79-84 | The identity is sellerName/userIdSeller when the role is "Seller" and buyerName/userIdBuyer otherwise. It is found exactly when `role` and the role's two keys are present; a failure names a missing key. |
| KleinanzeigenMessages.Row | scripts/artifacts/kleinanzeigen.de.py:99 | A row is as wide as the 11 headers. |
| KleinanzeigenMessages.AttachmentCell | scripts/artifacts/kleinanzeigen.de.py:109-115 | The Attachment cell is text: "none" for no attachments, the URL itself for one (`AttachmentRoundTrip` states the general round trip). |
| KleinanzeigenMessages.FallbackRow | scripts/artifacts/kleinanzeigen.de.py:85-102 | The fallback row exists exactly when an earlier message bound the variables and the short text, boundness and a numeric received date are there. It holds the ad's title and id, the shifted date, the parties in the order boundness gives, the short text, the leftover attachment and id, and the ad status. |
| KleinanzeigenMessages.MessageRow | scripts/artifacts/kleinanzeigen.de.py:126-130 | A message row is as wide as the 11 headers. |
| KleinanzeigenMessages.ConversationRows | scripts/artifacts/kleinanzeigen.de.py:71-126 | A conversation yields rows exactly when its identity keys are present, and leaves the leftover variables as its last message sets them. |
| KleinanzeigenMessages.MessageCache | scripts/artifacts/kleinanzeigen.de.py:63-131 | The conversation loop, with its leftover attachment and id variables, computes `CacheRows`. |
| KleinanzeigenMessages.CacheRows | scripts/artifacts/kleinanzeigen.de.py:63-131 | The cache gives rows exactly when every conversation has its identity keys. The rows are then those of each conversation in turn, each started from the variables the earlier ones left (`RowsThrough`), and every row has 11 columns. |
| KleinanzeigenMessages.CacheRowsSplit | scripts/artifacts/kleinanzeigen.de.py:70-126 | After any prefix of conversations with their identity keys, the output is the prefix's rows followed by the rest's, started from the prefix's leftover variables. |
| KleinanzeigenMessages.ConversationStep | scripts/artifacts/kleinanzeigen.de.py:71-126 | The loop body (identity reads, fallback block or message loop) computes `ConversationRows`. |
| KleinanzeigenMessages.MessageRows | scripts/artifacts/kleinanzeigen.de.py:104-126 | The message loop yields one row per message in order, and leaves the last message's attachment and id. |
| KleinanzeigenMessages.CollectImageURLs | scripts/artifacts/kleinanzeigen.de.py:109-111 | The attachment loop collects every image URL in order. |
| KleinanzeigenMessages.OneRowPerMessage | scripts/artifacts/kleinanzeigen.de.py:104-126 | A conversation with messages gives one 11-column row per message, in order. Row k is `MessageRow` of message k, so `DirectionBySender` applies to the output; it carries the message's time, text, attachments and id, and the ad's title, id and status. |
| KleinanzeigenMessages.DirectionBySender | scripts/artifacts/kleinanzeigen.de.py:116-125 | When the sender is 0, From is the user and To the counterparty; any other sender swaps them. |
| KleinanzeigenMessages.OwnSideByRole | scripts/artifacts/kleinanzeigen.de.py:79-84 | In every message row, whatever came before, the user's side holds the seller keys when the role is "Seller" and the buyer keys otherwise: From for a message the user sent, To for one they received. |
| KleinanzeigenMessages.AttachmentRoundTrip | scripts/artifacts/kleinanzeigen.de.py:109-115 | The Attachment column gives back the image URLs in order: "none" for none, the ", "-joined list otherwise. |
| KleinanzeigenMessages.AdStatusInEveryRow | scripts/artifacts/kleinanzeigen.de.py:73-76 | Every row of a conversation carries its ad status: the stored adStatus when the client data has one, and "UNKNOWN" otherwise. |
| KleinanzeigenMessages.FallbackRowShape | scripts/artifacts/kleinanzeigen.de.py:85-102 | A conversation without messages gives at most one row and leaves the variables alone. The row exists exactly when an earlier message exists and the keys are present with a numeric date. It is fully determined: the ad title and id, the date, names and ids ordered by boundness, the short text, the leftover attachment and id, and the ad status. |
| KleinanzeigenMessages.StaleIsLastEarlierMessage | scripts/artifacts/kleinanzeigen.de.py:99-115 | The leftover attachment and id are those of the last message of all earlier conversations, and are unbound when there was none. |
| KleinanzeigenMessages.NoFallbackBeforeFirstMessage | scripts/artifacts/kleinanzeigen.de.py:85-102 | A conversation without messages that comes before any message gives no row. |
| KleinanzeigenMessages.FallbackTakesLastEarlierMessage | scripts/artifacts/kleinanzeigen.de.py:85-115 | In the output, the fallback row of conversation i carries the attachment and message id of the last message of conversations 0 to i-1. |
| KleinanzeigenMessages.CacheRowsCount | scripts/artifacts/kleinanzeigen.de.py:70-131 | The cache gives rows exactly when every conversation has its identity keys. Every row has 11 columns. There is one row per message, plus at most one per conversation without messages. |
| KleinanzeigenPrefs.LastSearch | scripts/artifacts/kleinanzeigen.de.py:138-153 | One 7-column row per location, in stored order, each repeating keywords and category and giving back its location. |
| KleinanzeigenPrefs.ProfileRows | scripts/artifacts/kleinanzeigen.de.py:170-176 | Seven two-column rows whose property names come in the fixed order. |
| KleinanzeigenPrefs.ProfileRoundTrip | scripts/artifacts/kleinanzeigen.de.py:162-176 | The profile can be read back from its rows, both dates included. |
| KleinanzeigenPrefs.UserAccount | scripts/artifacts/kleinanzeigen.de.py:160-179 | The seven appends produce exactly the profile rows under the (Property, Property Value) headers. |
| KleinanzeigenPrefs.SearchHistory | scripts/artifacts/kleinanzeigen.de.py:186-195 | One (keyword, time) row per searched keyword, in stored order, each giving back its keyword and stored time stamp. |

## Left out

- Opening the SQLite database, the files and the plists, running the query text, and
  JSON/plist decoding. Inputs are decoded records; the SQL engine is replaced by the
  query's meaning over sequences.
- Report output (HTML report, TSV, timeline), `logfunc` plumbing and `get_file_path`.
  A run records its log lines, whether the database was opened, and the report table.
- Calendar rendering of dates (`DateTime(..., 'UNIXEPOCH')`, `strftime`). A date cell
  is `Time(unix)`, with the Unix second count left to the report layer.
- Fractional time stamps are integers: the Photos date columns (ZDATECREATED,
  ZADDEDDATE, ZMODIFICATIONDATE, ZLASTSHAREDDATE, ZTRASHEDDATE, ZSORTTOKEN,
  ZCLOUDMASTER.ZCREATIONDATE, ZSHARE.ZCREATIONDATE and ZEXPIRYDATE) and the Kleinanzeigen
  fields `sentDate`, `userSince`, `lastModified` and `timeStamp`. So ORDER BY
  ZDATECREATED is modelled on whole seconds: two dates within the same second, such as
  5.3 and 5.7, compare equal and keep join order. In the fallback, a float `receivedDate` is read to the
  whole second, without `fromtimestamp`'s microsecond rounding. Out-of-range dates,
  which raise in `fromtimestamp`, are not modelled.
- Common.DateCell: SQLite's `DateTime(x + 978307200, 'UNIXEPOCH')` returns NULL when
  the shifted value is outside SQLite's date range, that is for a stored x of at least
  252423993600 (on or after 10000-01-01) or below -211845067200. The model gives
  `Time` for such a value, so its "NULL exactly when the stored value is NULL" holds
  only within that range.
- PhotoRows.CreationDatesAscend: the same range limit applies. The source sorts on the
  raw ZDATECREATED, so a row whose creation date is past that range would show NULL in
  column 0 at the end of the report. The model's "NULL dates first" assumes every
  stored creation date is within the range.
- Pre-release and local version tags of `packaging.version`. Versions are dotted
  numeric components.
- Parsing the iOS version string. The extractor takes the parsed version and its text
  as two inputs; the model assumes the text is what the version was parsed from, and
  uses the text only in the "Unsupported version" log line.
- The file-selection loop at lines 23-27 of Ph32AssetsIniCldSPLwContrib.py, whose
  result is overwritten before use, and the `report_folder` trimming at lines 29-30.
- Header suffix numbering. Some suffixes differ from the column position, and the
  model makes no claim about them.
- The order of rows with equal creation dates. SQL leaves it unspecified; the model
  sorts stably, and no property depends on it.
- Primary-key joins take the first matching record. Z_PK is unique, so at most one
  matches.
- Codes stored as REAL or TEXT in SQLite, which `CASE` and `||` treat differently from
  integers. Codes are integers.
- Every listed label is modelled as its code, a dash and the rest of the label text,
  which is how each label in the tables is written.
- The Kleinanzeigen message loop body, message loop and attachment loop are separate
  methods (`ConversationStep`, `MessageRows`, `CollectImageURLs`). The source runs
  them inline in one function.
- Keys read with no error handling (`ad`, `counterParty`, `messages`, message fields,
  search and profile fields) are record fields. Their absence, where the source
  raises, is outside the input type.
