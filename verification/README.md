# Expiry Alert Agent — compliance scan engine in Dafny

This project models the compliance scan engine of the Expiry Alert Agent, a
halal-certificate tracker for raw materials. Each tracked material has an
expiry date and a stored risk tier (`SAFE`, `WARNING`, `EXPIRED`, or the
sentinel `UNKNOWN`). A daily scan does four things:

- it reclassifies every material by the number of days left before expiry;
- it writes the new tiers back to the in-memory store;
- it records a change record for every material whose tier moved;
- it asks the Gemini language model for a summary and per-item advice, and
  falls back to fixed advice when the model is unavailable or answers badly.

The dashboard counts the materials per tier. A reset puts the seed snapshot
back.

The model uses immutable datatypes and pure functions:

- `Types`: the records of `types.ts` (`Status`, `Material` for
  `RawMaterial`, `ScanResultDetail`, `ScanResult`, `DashboardStats`).
- `Classifier`: the tier rule (`calculateStatus`), days until expiry
  (`getDaysUntil`), and the fallback advice (`getDefaultAction`).
- `ChangeDetector`: the reclassification pass of `runDailyScan`. It returns
  the snapshot to store and the pending change records.
- `Fence`: the regular expression that finds a fenced JSON block in a model
  reply. It follows backtracking semantics and JavaScript's `\s` class.
- `Decimal`: the decimal text of a count, as a template literal prints it,
  and the digits-only reading of an action-map key.
- `GeminiService`: `generateScanSummary`. It covers the order of
  client / shortcut / call, the empty-body check, the parse-then-fence retry,
  key normalisation, the summary default and the catch-all fallback.
- `MockDatabase`: the merge of advice into the records, `runDailyScan` as a
  whole, and `resetMockData`.
- `Constants`: the seven seed materials of `constants.ts`.
- `Stats`: the dashboard fold `calculateStats` of `App.tsx`.
- `SeedScenario`: the first scan of the seed, worked out in full.

Inputs that the source reads from its environment are parameters here:

- the reference day `today`;
- the day `loadDay` on which the seed dates were computed;
- the report timestamp;
- the outcome of reaching the model: `ClientMissing`, `CallFails(thrown)`
  or `Text(body)`;
- `JSON.parse`, as a function `parse: string -> Option<JsonValue>`. `None`
  means that parsing throws.

An expiry date is the number of the day it falls on. Days until expiry is
`expiryDay - today`. A seed material listed with offset `k` therefore expires
on `loadDay + k`.

The model follows the code as written:

- The fallback advice for `SAFE` and `UNKNOWN` is "Schedule renewal
  discussion."; the fallback advice is never empty.
- The advice is urgent only below 15 days (`days < 15`). The classifier's
  inner branch and the table badge treat 15 itself as urgent.
  `FifteenDaysIsNotUrgentAdvice` pins this down.
- The stored snapshot does not depend on the reply or the timestamp:
  `StoredSnapshotIgnoresReply` states this.
- The client is built before the empty-list shortcut. With no API key, a
  scan with no changes still reports "AI Analysis unavailable".
- On the seed, the first scan on the seed's own day yields exactly four
  records: 102, 103, 104 and 107.

## Model

| member | source | states |
|---|---|---|
| Types.StatusNameInjective | types.ts:1-6 | the four tiers carry four distinct run-time strings, so comparing names is comparing tiers |
| Classifier.DaysUntil | services/mockDatabase.ts:20-25 | the day count is signed: adding it to the reference day gives the expiry day, and it is at most 0 exactly when the expiry day is not after the reference day |
| Classifier.CalculateStatus | services/mockDatabase.ts:8-18 | the classifier never yields UNKNOWN; EXPIRED iff days ≤ 0, WARNING iff 0 < days ≤ 30, SAFE iff days > 30 |
| Classifier.ClassifierMonotone | services/mockDatabase.ts:8-18 | fewer days left never gives a less severe tier (SAFE < WARNING < EXPIRED) |
| Classifier.DefaultAction | services/mockDatabase.ts:85-89 | the fallback advice is never empty; it is the quarantine text iff the tier name is EXPIRED, the urgent text iff it is WARNING with fewer than 15 days, and the scheduling text otherwise |
| Classifier.DefaultActionOfClassified | services/mockDatabase.ts:85-89 | for a freshly classified item the advice depends on the days alone: quarantine at ≤ 0, urgent from 1 to 14, scheduling from 15 on |
| Classifier.DefaultActionOfCalmTiers | services/mockDatabase.ts:88 | SAFE and UNKNOWN get "Schedule renewal discussion.", and the advice is never empty |
| Classifier.FifteenDaysIsNotUrgentAdvice | services/mockDatabase.ts:87 | at exactly 15 days an item is WARNING but its advice is not the urgent one; at 14 it is |
| ChangeDetector.ScanOne | services/mockDatabase.ts:53-65 | each item comes out with only its stored tier replaced by its current tier, whether or not it moved |
| ChangeDetector.Snapshot | services/mockDatabase.ts:41-66 | the stored snapshot has the input's length and order, and item i is item i with its tier replaced by the classifier's result |
| ChangeDetector.PendingChanges | services/mockDatabase.ts:53-61 | the pass pushes at most one record per material |
| ChangeDetector.Detect | services/mockDatabase.ts:41-66 | the pass returns a snapshot of the input's length with every item reclassified in place, at most one record per item, and no record iff no item's tier moves |
| ChangeDetector.PendingChangesIffMoves | services/mockDatabase.ts:53-61 | every record is the placeholder record of an item whose tier moved, every moving item has its record, and there are no records iff no tier moves |
| ChangeDetector.PendingChangesAppend | services/mockDatabase.ts:41-66 | records of an earlier part of the snapshot precede those of a later part, so records follow item order |
| ChangeDetector.DetectAppend | services/mockDatabase.ts:41-66 | the whole pass (snapshot and records) distributes over concatenation of the input |
| ChangeDetector.DetectSingle | services/mockDatabase.ts:53-61 | one item yields one record if its tier moves and none otherwise; an item stored WARNING that is still WARNING yields nothing |
| ChangeDetector.RecordsAreTransitions | services/mockDatabase.ts:54-61 | every record has old tier ≠ new tier, a new tier other than UNKNOWN, and the "Analyzing..." placeholder |
| ChangeDetector.DetectIsIdempotent | services/mockDatabase.ts:41-65 | a second pass on the same day over the stored snapshot emits no record and stores the same snapshot |
| Decimal.NatToString | services/geminiService.ts:24 | a count prints as a non-empty string of decimal digits with no leading zero |
| Decimal.DigitsValueOfNatToString | services/geminiService.ts:84 | reading back the printed form of a count gives the count |
| Decimal.NatToStringInjective | services/geminiService.ts:100 | different counts print differently |
| Fence.ExtractFence | services/geminiService.ts:68 | the captured block never contains a closing fence and neither starts nor ends with whitespace |
| Fence.ExtractFenceSomeIff | services/geminiService.ts:68-69 | a block is found iff the text holds a "```json" opener followed, after it, by a "```" closer |
| Fence.ExtractFenceOfFencedBody | services/geminiService.ts:68-71 | a body holding no "```" and neither starting nor ending with whitespace, written between "```json" plus one line break and one line break plus "```", after prose holding no "```json", is captured exactly |
| GeminiService.MessageOf | services/geminiService.ts:100 | a thrown Error contributes its message; any other thrown value contributes "Unknown error" |
| GeminiService.NoChangesSummary | services/geminiService.ts:24 | the no-change summary starts with "Scanned " followed by the decimal count of scanned materials; `NoChangesIsNotFallback` shows it never equals a fallback summary |
| GeminiService.FallbackSummary | services/geminiService.ts:100 | the fallback summary starts with "Scanned " followed by the decimal count of scanned materials; `FallbackSummaryShowsUpdates` shows the count of updates follows "materials. Found " |
| GeminiService.DefaultSummary | services/geminiService.ts:92 | the default summary starts with "Scan completed. " followed by the decimal count of updates |
| GeminiService.DefaultSummaryIsDistinct | services/geminiService.ts:24-100 | the default summary of a parsed reply never equals a no-change or a fallback summary |
| GeminiService.FallbackSummaryShowsUpdates | services/geminiService.ts:100 | the fallback summary prints the decimal count of updates right after "Scanned N materials. Found " |
| GeminiService.NoChangesIsNotFallback | services/geminiService.ts:24-100 | a no-change summary never equals a fallback summary, whatever the counts and the reason: one ends with '.', the other with ')' |
| GeminiService.FallbackSummaryEndsWithReason | services/geminiService.ts:100 | the fallback summary ends with "(AI Analysis unavailable: " followed by the reason and ")" |
| GeminiService.FallbackSummaryDeterminesReason | services/geminiService.ts:100 | two fallback summaries with the same counts are equal only if their reasons are equal |
| GeminiService.ParseKey | services/geminiService.ts:84-85 | a key is kept iff it consists of decimal digits, and it then reads as a non-negative number |
| GeminiService.ParseKeyOfRendered | services/geminiService.ts:84-85 | the decimal text of a material id coerces back to that id |
| GeminiService.NormalizeActionItems | services/geminiService.ts:80-89 | the normalised map has only non-negative numeric keys |
| GeminiService.NormalizeLookup | services/geminiService.ts:80-89 | an id is in the map iff some entry's key coerces to it, and it then holds the value of the last such entry |
| GeminiService.NormalizeDropsNonNumericKeys | services/geminiService.ts:84-87 | entries whose keys are all non-numeric yield an empty map |
| GeminiService.NormalizeExample | services/geminiService.ts:80-89 | {"101": "renew now", "abc": "x"} normalises to {101: "renew now"} |
| GeminiService.Decode | services/geminiService.ts:62-78 | a body that parses is used as is; otherwise the first fenced block is parsed; no block fails with "Invalid JSON response from Gemini", a bad block with "Invalid JSON structure in response" |
| GeminiService.DecodeFencedReply | services/geminiService.ts:62-78 | a reply that does not parse as a whole but is prose holding no "```json", then "```json" and one line break, then valid JSON holding no "```" and not bounded by whitespace, then one line break and "```", decodes to that JSON |
| GeminiService.DecodeFailsIff | services/geminiService.ts:62-78 | decoding fails iff neither the body nor its first fenced block parses |
| GeminiService.AnalyseText | services/geminiService.ts:57-94 | an empty body degrades with "Empty response from Gemini"; a decode failure degrades with its message; a parsed null degrades with the TypeError text; otherwise the summary (or "Scan completed. M items updated." when it is missing or empty) and the normalised advice are returned |
| GeminiService.GenerateScanSummary | services/geminiService.ts:14-104 | the summary is never empty; a missing key degrades even with no changes; with a client and no changes the no-change summary and no advice; a failed call degrades with its message; advice is present only from a decoded reply |
| GeminiService.NoTransitionsSkipsModel | services/geminiService.ts:19-27 | with a client and no changes the answer does not depend on the reply or the parser: the model is not consulted |
| GeminiService.AnswerIsOneOfThree | services/geminiService.ts:14-104 | every answer is the shortcut, a degraded answer with some reason, or, for a text reply to a scan with transitions that decodes to an object, that object's normalised advice with its own summary or the default one: the adapter never throws |
| MockDatabase.ActionFor | services/mockDatabase.ts:74 | a record's advice is the model's entry for its id when present and non-empty, otherwise the fallback advice for its new tier and days; it is never empty |
| MockDatabase.MergeActions | services/mockDatabase.ts:72-75 | the merge keeps the number, order and every field of the records except the action; the action is the model's non-empty entry for the id, else the fallback advice for the new tier and days, and is never empty |
| MockDatabase.MergeWithoutAdvice | services/mockDatabase.ts:74 | with no advice every record gets its fallback advice |
| MockDatabase.MergeUsesAdviceForRenderedId | services/mockDatabase.ts:74 | non-empty advice keyed by the decimal text of an id (as the last entry) reaches the record with that id |
| MockDatabase.RunDailyScan | services/mockDatabase.ts:33-83 | the stored snapshot has every item reclassified in order; the report counts every item, carries the timestamp and a non-empty summary, and lists the detector's records in order with only their action filled in, never empty; the summary is the adapter's summary, and each action is the adapter's non-empty entry for the id, else the fallback advice for the new tier and days |
| MockDatabase.StoredSnapshotIgnoresReply | services/mockDatabase.ts:41-69 | the stored snapshot does not depend on the reply or the timestamp |
| MockDatabase.RescanOnSameDayIsQuiet | services/mockDatabase.ts:33-83 | a second scan on the same day reports no change, stores the same snapshot, and with a client gives the no-change summary |
| MockDatabase.ScanWithoutModel | services/mockDatabase.ts:72-75 | with no key or a failed call every record carries its fallback advice and the summary gives the reason |
| MockDatabase.ScannedStoreIsFullyCounted | App.tsx:26-28 | after a scan no stored tier is UNKNOWN, so the dashboard's three tier counters add up to its total |
| MockDatabase.ResetMockData | services/mockDatabase.ts:91-93 | after a reset the store is the seed snapshot, whatever it held |
| MockDatabase.ResetIsIdempotent | services/mockDatabase.ts:91-93 | resetting twice equals resetting once, and a reset erases every scan |
| Constants.MockMaterials | constants.ts:10-88 | the seed holds 7 materials with ids 101 to 107 in order, all SAFE except 106 which is WARNING |
| Constants.SeedIdsDistinct | constants.ts:10-88 | the seed ids are pairwise distinct |
| SeedScenario.SeedPendingChanges | constants.ts:20-86 | on the seed's own day the first pass records exactly 102 (SAFE→WARNING, 8 days), 103 (SAFE→WARNING, 20), 104 (SAFE→EXPIRED, −2) and 107 (SAFE→WARNING, 28), in that order; 106 is not recorded |
| SeedScenario.SeedMerge | services/mockDatabase.ts:72-75 | merging advice without entries for 103, 104 and 107 into the seed's records gives 102 the advice or "Urgent renewal required.", 104 the quarantine text, and 103 and 107 the scheduling text |
| SeedScenario.SeedFirstScanWithoutModel | services/mockDatabase.ts:33-83 | a failed call on the first seed scan gives 7 scanned, four records with fallback advice, and the fallback summary for 7 and 4 with the error's message |
| SeedScenario.SeedFirstScanWithAdvice | services/mockDatabase.ts:33-83 | a JSON reply advising only "102" (plus a key "abc") gives 102 that advice, the others their fallback, and "Scan completed. 4 items updated." |
| SeedScenario.SeedDashboardBeforeScan | App.tsx:22-34 | the dashboard over the seed shows 7 materials: 6 SAFE, 1 WARNING, 0 EXPIRED |
| SeedScenario.SeedSnapshotTiers | constants.ts:18-86 | the first pass on the seed's day stores SAFE, WARNING, WARNING, EXPIRED, SAFE, WARNING, WARNING for 101 to 107 |
| SeedScenario.SeedDashboardAfterScan | App.tsx:22-34 | after the first scan on the seed's day the dashboard shows 7 materials: 2 SAFE, 4 WARNING, 1 EXPIRED, whatever the model replied |
| Stats.CountOne | App.tsx:25-28 | one reducer step raises the total by one and exactly the counter of the item's tier, none for UNKNOWN |
| Stats.Tally | App.tsx:22-34 | the fold from the zero accumulator counts every item in total, and in safe, warning and expired the items of that tier |
| Stats.CalculateStats | App.tsx:22-34 | the total equals the number of materials, safe, warning and expired each count the materials stored with that tier, and together they never exceed the total |
| Stats.TierCountsPartition | App.tsx:26-28 | every item has exactly one of the four tiers |
| Stats.TallyPartition | App.tsx:26-28 | safe + warning + expired ≤ total, with equality iff no item is UNKNOWN |
| Stats.TallyAppend | App.tsx:23-32 | the fold over a concatenation adds up the folds of the parts |
| Stats.TallyOneMore | App.tsx:25-28 | one more item raises the total by one and at most one tier counter, the one that matches its tier |

## Left out

- Date arithmetic is not modelled: `new Date`, `getTime`, `Math.ceil` over milliseconds, time zones, and the local-versus-UTC date shift of the seed's `getDate` helper (constants.ts:4-8). Expiry dates are whole day numbers, and the reference day is an input.
- `calculateStatus` and `getDaysUntil` each read the clock separately. The model uses one reference day for both.
- `getMaterials` is not modelled: the 300 ms `setTimeout` delay and the defensive copy. The store is a value passed in and returned.
- The ISO timestamp of the report is an input.
- Two overlapping scans can race on the store. Concurrency is not modelled.
- The Gemini client, the prompt text, the model name and `process.env` are foreign calls. They appear only through the reply outcome. A reply with no text is `Text("")`.
- `JSON.parse` is a parameter. `JsonValue` keeps only what the adapter reads.
- JsonValue: a `summary` that is truthy but not a string is treated as missing, whereas the source would pass it through.
- GeminiService.AnalyseText: `String(value)` on an action entry is assumed never to throw. In the source a parsed value whose conversion to a primitive fails (for example an object with a non-callable `toString`) throws a TypeError, and the catch turns the whole answer into the fallback summary; `JsonValue` holds every entry already as a string, so that path is not modelled.
- JsonValue: the order of the `actionItems` entries is taken as given. The JavaScript enumeration order and duplicate keys within the JSON text are not modelled.
- GeminiService.ParseKey: accepts only ASCII-digit keys, with "" read as 0 as `Number` does. Keys that `Number` also accepts are dropped: signs, decimals, exponents, hex, surrounding whitespace, "Infinity". Such keys could only collide with material ids through exotic spellings. Digit strings of any length are read exactly, whereas `Number` rounds values above 2^53 and turns strings of about 309 or more digits into `Infinity`.
- GeminiService.NullResultMessage: the message of the TypeError raised when a decoded `null` is read is fixed to V8's wording, "Cannot read properties of null (reading 'actionItems')". The source does not spell it out, and other engines word it differently; the fallback summary embeds it.
- MockDatabase.StoredSnapshotIgnoresReply: the source writes the snapshot to the store before awaiting the model. That order is observable only by a concurrent reader, and concurrency is not modelled, so the lemma states only that the stored snapshot does not depend on the reply or the timestamp.
- JavaScript strings are UTF-16. Dafny characters are Unicode scalar values. This makes no difference to the ASCII fence markers.
- The React UI is not modelled: rendering, hooks, `MaterialTable`, `Terminal` and `StatCard`. Only the `calculateStats` fold of App.tsx is modelled.
- The `SQL_QUERY_PREVIEW` display string is not modelled.
- `console.error` logging is not modelled.
