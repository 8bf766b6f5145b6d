# Market Sensor Engine — a verified model of its core

The Market Sensor Engine watches competitor web pages. It compares each new capture
(a *snapshot*: hero text, subheads, pricing blocks) with an older baseline, scores the
*language drift* from 0 to 100, lists tone shifts and *implications*, and turns each
implication into an *action item*.

The action items pass a safety gate, "no claim without proof". An item is `VALIDATED`
only when the *proof vault* holds evidence that carries the implication's narrative tag,
persona and stage. Otherwise it is `INSUFFICIENT_DATA`, and its next step asks for proof.

The engine keeps snapshots, analyses, proofs and reports in a key-value store. Lists there
are kept newest first and trimmed to a fixed length. An HTTP route creates, looks up,
searches and deletes proofs. Another route exports every analysis as CSV.

The model has one module per part of the system:

- `Types` (`types.dfy`): the tag enumerations with their literals, and the record shapes.
- `Db` (`db.dfy`): the store.
  - Its state is a class `Db.Store`, whose fields mirror the store's keys.
  - Its methods update those fields in place.
  - The store's list commands are pure functions, with the server's semantics of negative indices.
  - The proof search is a filter over all proofs.
- `Analyzer` (`analyzer.dfy`): the drift analysis.
  - word extraction, keyword categories and the drift score;
  - tone shifts and the implication rules;
  - the action-item gate;
  - the subject line and the status partition of the report e-mail.
  - Where the source builds a list with a loop, the model has a method with that loop. Each such method is proved equal to a specification function, and the function's properties are proved as lemmas.
- `ProofRoute` (`proofroute.dfy`): the proof handlers.
  - the `POST` validation and the ProofID template, which reads back into its parts;
  - the `GET` dispatch between lookup, search and listing;
  - the `DELETE` validation;
  - each handler run against a `Db.Store`.
- `Export` (`export.dfy`): the CSV export.
  - the header, and one row per implication;
  - the cell escaping, with its inverse;
  - the joined file;
  - the handler's nested loop, proved equal to the specification.
- `Seqs`, `Strings` and `Wrappers` (`seqs.dfy`, `strings.dfy`, `wrappers.dfy`): generic helpers.
  - filtering, flattening, joining and splitting;
  - whitespace runs and case mapping;
  - base-36 numerals;
  - `Option` and `Result`.

Clocks, random ids and the analysis date are parameters. A ProofID's timestamp is a
`nat` of milliseconds, and a `Date` is kept as its ISO text.

## Model

| member | source | states |
|---|---|---|
| Types.ParseNarrative | lib/types.ts:3 | a literal that parses names the tag it parses to |
| Types.ParsePersona | lib/types.ts:4 | a literal that parses names the persona it parses to |
| Types.ParseStage | lib/types.ts:5 | a literal that parses names the stage it parses to |
| Types.NarrativeTagsAreSix | lib/types.ts:3 | there are exactly six narrative tags, all distinct; a string parses to a tag exactly when it is that tag's literal |
| Types.PersonasAreFive | lib/types.ts:4 | there are exactly five personas, all distinct; a string parses to a persona exactly when it is that persona's literal |
| Types.StagesAreThree | lib/types.ts:5 | there are exactly three stages, all distinct; a string parses to a stage exactly when it is that stage's literal |
| Types.NamesInjective | lib/types.ts:3-5 | two tags, personas or stages have the same literal only when they are the same value |
| Types.NamesNonEmpty | lib/types.ts:3-5 | no literal is empty, so a tag used as a search filter is always an active filter |
| Db.LRange | lib/db.ts:31-32 | `LRANGE`/`LTRIM` with the server's negative-index rules never return more elements than the list holds |
| Db.LRangeFront | lib/db.ts:82 | `LRANGE 0 k-1` returns the first `k` elements |
| Db.LRangeLast | lib/db.ts:90 | `LRANGE -1 -1` returns the last element, or nothing for an empty list |
| Db.PushTrimMembers | lib/db.ts:76-78 | after `LPUSH` and `LTRIM`, every listed id is the pushed one or was listed before |
| Db.PushTrimFront | lib/db.ts:76-78 | after `LPUSH` and `LTRIM 0 keep-1` the pushed id is first; the list holds `min(keep, n+1)` ids, followed by the older ids in their order |
| Db.PushAllNewestFirst | lib/db.ts:76-78 | after any sequence of pushes the list holds the newest `keep` ids, newest first |
| Db.BaselineIsOldestRetained | lib/db.ts:88-94 | starting from an empty list, `LRANGE -1 -1` returns the oldest of the newest `keep` pushed ids; once more than `keep` were pushed, the baseline moves forward with every push |
| Db.LastNewest | lib/db.ts:88-94 | the last of the newest `keep` ids, listed newest first, is the oldest of them |
| Db.HistoryRangeAsWritten | lib/db.ts:96-97 | `LRANGE 0 limit-1` returns a prefix of the list: the first `min(limit, n)` ids for a positive limit, and all but the last `-limit` ids for a limit of 0 or less |
| Db.HistoryAsWrittenIgnoresZeroLimit | lib/db.ts:96-97 | for every list, a limit of 0 reads `LRANGE 0 -1` and returns the whole list, which differs from the corrected range on every non-empty list (see Findings) |
| Db.HistoryRange | lib/db.ts:96-97 | the corrected range gives the newest `min(limit, n)` ids, none for a limit below 1, as a prefix of the list |
| Db.DefaultHistoryReadsTen | lib/db.ts:96-97 | with the default limit of 10 the history reads the first ten ids |
| Db.HistoryRangeAgreesForPositiveLimit | lib/db.ts:184-185 | for every positive limit the corrected range equals the code's |
| Db.Lookup | lib/db.ts:136-138 | `get` finds a value exactly when the key is stored, and then it is the stored value |
| Db.Resolve | lib/db.ts:100-104 | after dropping the nulls, every stored id's value is in the result and nothing else is; the result is no longer than the id list |
| Db.ResolveAllStored | lib/db.ts:100-104 | when every id is stored nothing is dropped, and value `k` belongs to id `k` |
| Db.MatchingProofs | lib/db.ts:151-166 | the search keeps, in order, exactly the proofs that pass every active filter |
| Db.ExactMatches | lib/analyzer-simple.ts:212-216 | the tag search returns exactly the proofs that carry all three given tags |
| Db.NoMatchIffNoTaggedProof | lib/analyzer-simple.ts:212-219 | the tag search is empty exactly when no proof carries the three tags |
| Db.NoCriteriaMatchesAll | lib/db.ts:160-165 | with no active filter the search returns every proof, in order |
| Db.SatisfiesTagCriteria | lib/db.ts:161-163 | a proof passes the filters built from three tags' literals exactly when it carries those tags |
| Db.TagSearchIsExactMatch | lib/analyzer-simple.ts:212-216 | searching with three tags' literals returns exactly the proofs that carry those tags |
| Db.ApplyUpdate | lib/db.ts:70 | `{ ...existing, ...updates }`: each field the update gives overwrites; every other field keeps its old value |
| Db.Store.constructor | lib/db.ts:36-47 | a fresh store has every key empty, and every invariant holds |
| Db.Store.AddCompetitorConfig | lib/db.ts:50-53 | the configuration is stored under its url and the url joins the set; other configurations stay as they were |
| Db.Store.GetCompetitorConfigs | lib/db.ts:55-64 | the result holds exactly the stored configurations of the registered urls, and is no longer than the url set |
| Db.Store.UpdateCompetitorConfig | lib/db.ts:66-71 | an unknown url fails and changes nothing; a known url gets the merged configuration and nothing else changes |
| Db.Store.SaveSnapshot | lib/db.ts:74-79 | the snapshot is stored; its id heads its competitor's list, trimmed to ten; the latest snapshot is now this one; the invariants hold |
| Db.Store.LatestSnapshot | lib/db.ts:81-86 | none for an empty list, otherwise the stored snapshot of the first id |
| Db.Store.BaselineSnapshot | lib/db.ts:88-94 | none for an empty list, otherwise the stored snapshot of the last retained id |
| Db.Store.SnapshotHistory | lib/db.ts:96-105 | reads `LRANGE 0 limit-1` as the code does: at most `limit` snapshots for a positive limit, never more than the list holds, each stored under an id of the competitor's list; when all ids are stored, snapshot `k` is that of id `k`, there are as many as the range holds, and a limit of 0 returns the whole list; in a valid store every listed id is stored, so `Valid()` alone gives the exact length and snapshot `k` |
| Db.Store.SaveDriftAnalysis | lib/db.ts:108-112 | the analysis is stored; its id heads its competitor's list, trimmed to fifty; the latest analysis is now this one |
| Db.Store.LatestDriftAnalysis | lib/db.ts:114-119 | none for an empty list, otherwise the stored analysis of the first id |
| Db.Store.GetAllDriftAnalyses | lib/db.ts:121-128 | an analysis is returned exactly when it is the latest one of some configured competitor |
| Db.Store.SaveProofRecord | lib/db.ts:131-134 | the proof is stored under its id and the id joins the set; a lookup now finds the proof |
| Db.Store.ProofRecordById | lib/db.ts:136-138 | the record is found exactly when its id is stored, and it is the stored record |
| Db.Store.DeleteProofRecord | lib/db.ts:168-171 | the record is gone and every other record stays; the id leaves the set and every other id stays, except for the id `all`, whose `del` removes the whole set, so that afterwards no proof is listed |
| Db.ProofKeyIsIndexOnlyForAll | lib/db.ts:43-44 | the record key `proof:<id>` is the id set's key `proof:all` exactly when the id is `all` |
| Db.IdsAfterDelete | lib/db.ts:168-171 | after the `del` and the `srem`, the id set is part of the old one and no longer holds the id |
| Db.DeleteAllClearsIndex | lib/db.ts:168-171 | with the source's keys, deleting `all` empties the id set and any other id leaves only itself out; so deleting `all` drops every other id too |
| Db.SeparateIndexKeepsOtherIds | lib/db.ts:43-44 | with the id set at `proofs:all` no record key is the set's key, and every delete removes exactly its own id |
| Db.Store.GetAllProofRecords | lib/db.ts:140-149 | the result holds exactly the stored records of the ids in the set, and is no longer than the id set |
| Db.Store.SearchProofRecords | lib/db.ts:151-166 | the result holds exactly the stored proofs that pass every active filter |
| Db.Store.SaveMarketPulseReport | lib/db.ts:174-178 | the report is stored; its id heads the report list, trimmed to a hundred |
| Db.Store.MarketPulseReportById | lib/db.ts:180-182 | the report is found exactly when its id is stored, and it is the report stored under that id |
| Db.Store.RecentMarketPulseReports | lib/db.ts:184-193 | reads `LRANGE 0 limit-1` as the code does: at most `limit` reports for a positive limit, never more than the list holds, each stored under a listed id; when all ids are stored, report `k` is that of id `k`, there are as many as the range holds, and a limit of 0 returns the whole list; in a valid store every listed id is stored, so `Valid()` alone gives the exact length and report `k` |
| Analyzer.WordsOf | lib/analyzer-simple.ts:65-67 | a word is kept exactly when it is longer than two characters and some run cleans to it; kept words use only letters, digits and `-`; they keep the runs' order and each occurs as often as among the cleaned runs |
| Analyzer.ExtractWords | lib/analyzer-simple.ts:62-68 | every word of the joined texts has more than two characters, all letters, digits or `-` |
| Analyzer.RunsOfTexts | lib/analyzer-simple.ts:63-65 | a run of the space-joined texts is exactly a whitespace-separated run of one of the texts |
| Analyzer.ExtractWordsMembers | lib/analyzer-simple.ts:62-68 | a word is extracted exactly when it is longer than two characters and some whitespace-separated run of some text cleans to it |
| Analyzer.WordsOfAppend | lib/analyzer-simple.ts:65-67 | the words of two lists of runs are the words of the first, then those of the second |
| Analyzer.ExtractWordsAppend | lib/analyzer-simple.ts:62-68 | joining with a space never fuses words: the words of `a + b` are those of `a`, then those of `b` |
| Analyzer.NewWords | lib/analyzer-simple.ts:23 | a word is new exactly when it occurs in the current text and not in the baseline; a new word keeps all its repetitions, and the current order |
| Analyzer.NounLike | lib/analyzer-simple.ts:24-26 | exactly the words longer than four characters that start with a capital, in order |
| Analyzer.VerbLike | lib/analyzer-simple.ts:27-29 | exactly the words ending in `ing`, `ed`, `ify` or `ize`, in order |
| Analyzer.NoNewWordsAgainstItself | lib/analyzer-simple.ts:23 | a text compared with itself has no new words |
| Analyzer.OccurrencesOfWord | lib/analyzer-simple.ts:103-109 | a one-word term is counted once per token equal to it, as a `\b…\b` match counts each whole word |
| Analyzer.SingleWordVocabularyCount | lib/analyzer-simple.ts:103-109 | a vocabulary of one-word terms counts every token that is one of its words |
| Analyzer.SingleWordVocabularies | lib/analyzer-simple.ts:105-109 | the enterprise, security and cost vocabularies hold single words only |
| Analyzer.CategoryWordCounts | lib/analyzer-simple.ts:95-111 | `categorizeKeywords` (an approximation of its regular expressions, see "## Left out"): the enterprise, security and cost counts are the numbers of lower-cased word tokens that are one of the category's words |
| Analyzer.PositionalChanges | lib/analyzer-simple.ts:126-128 | the number of changed positions is at most the current length, and is zero exactly when the current list is a prefix of the baseline |
| Analyzer.AnyChangeIffNotPrefix | lib/analyzer-simple.ts:132-134 | some position differs exactly when the current list is not a prefix of the baseline, that is, exactly when the change count is positive |
| Analyzer.ReorderingCountsAsChange | lib/analyzer-simple.ts:126-134 | swapping two different entries counts both positions, and counts as a pricing change |
| Analyzer.DriftScore | lib/analyzer-simple.ts:113-143 | the score is at most 100; it is 0 exactly when nothing changed; a changed hero alone gives at least 30 |
| Analyzer.CalculateDriftScore | lib/analyzer-simple.ts:113-143 | the running score of the source equals the drift score |
| Analyzer.HeroOnlyScoresThirty | lib/analyzer-simple.ts:121-123 | a change of the hero alone scores exactly 30 |
| Analyzer.PricingOnlyScoresTwenty | lib/analyzer-simple.ts:132-137 | a change of the pricing alone, with no new word, scores exactly 20 |
| Analyzer.PrefixListsAddNothing | lib/analyzer-simple.ts:126-140 | lists that only shrank add nothing: the score is the hero's 30 plus 2 per new word, up to 20 |
| Analyzer.HeroShift | lib/analyzer-simple.ts:75 | the hero message starts with its fixed opening |
| Analyzer.ShiftMessagesDiffer | lib/analyzer-simple.ts:75-89 | the four shift messages start with four different letters, so none is mistaken for another |
| Analyzer.CategoryShiftRules | lib/analyzer-simple.ts:82-90 | each category message appears exactly when its own threshold rule holds, in the fixed order AI, enterprise, speed |
| Analyzer.ToneShiftRules | lib/analyzer-simple.ts:70-93 | at most four shifts; the hero message comes first exactly when the hero changed; each category message is present exactly when its rule fires on the two snapshots' keyword counts, and they follow in the order AI, enterprise, speed |
| Analyzer.PushCategoryShifts | lib/analyzer-simple.ts:82-90 | the pushes leave the earlier messages, followed by the category messages |
| Analyzer.DetectToneShifts | lib/analyzer-simple.ts:70-93 | the imperative detection returns exactly the tone shifts of the specification |
| Analyzer.RuleImplications | lib/analyzer-simple.ts:154-188 | no rule entry has low severity; there is none exactly when hero, nouns and shifts are all unchanged or empty |
| Analyzer.Implications | lib/analyzer-simple.ts:145-203 | one to five entries; a changed hero gives a high-severity first entry; the low-severity fallback appears exactly when no rule fired, and then it is alone |
| Analyzer.FewShiftsAreAllKept | lib/analyzer-simple.ts:202 | with at most three shifts the cut to five drops nothing, and every shift has its entry |
| Analyzer.PushShiftImplications | lib/analyzer-simple.ts:179-188 | the loop appends one entry per shift, in order |
| Analyzer.GenerateBasicImplications | lib/analyzer-simple.ts:145-203 | the imperative rules return exactly the implications of the specification |
| Analyzer.AnalyzeDrift | lib/analyzer-simple.ts:5-60 | the id, date, url and name are carried over; score ≤ 100; trajectory call exactly when score ≥ 30; ≤ 10 nouns and ≤ 10 verbs, all new noun- or verb-like words; ≤ 4 shifts; one to five implications; the nouns and verbs are the first ten of the new words' noun-like and verb-like ones, and the score, shifts and implications are those of the two snapshots and their new words |
| Analyzer.FirstTenNewTerms | lib/analyzer-simple.ts:22-52 | the first ten noun-like (verb-like) new words are noun-like (verb-like), current and not in the baseline; when at most ten exist, none is lost to the cut |
| Analyzer.IdenticalSnapshotsHaveNoDrift | lib/analyzer-simple.ts:5-60 | equal snapshots give score 0, no trajectory call, no new nouns or verbs, no shifts, and the fallback implication alone |
| Analyzer.NothingNewFallsBack | lib/analyzer-simple.ts:113-202 | with an unchanged hero, subheads and pricing and no new word or shift, the score is 0 and the implications are the fallback alone |
| Analyzer.NoNewWordsInSameTexts | lib/analyzer-simple.ts:9-23 | snapshots equal in hero, subheads and pricing have no new word |
| Analyzer.NoToneShiftsInSameTexts | lib/analyzer-simple.ts:70-93 | snapshots equal in hero, subheads and pricing have no tone shift |
| Analyzer.ToneShiftsAtMostFour | lib/analyzer-simple.ts:70-93 | there are at most four tone shifts |
| Analyzer.HeroChangeIsMaterial | lib/analyzer-simple.ts:5-60 | a changed hero scores at least 30, so a trajectory call is always made; the first implication is the high-severity Trust, CTO, Awareness hero entry |
| Analyzer.SafetyStopCarriesMarker | lib/analyzer-simple.ts:225-227 | the safety-stop step shows the `INSUFFICIENT DATA` marker and differs from the review step |
| Analyzer.ActionFor | lib/analyzer-simple.ts:219-233 | the item copies the line and the tags; it is `VALIDATED` exactly when it has a proof id, and asks for proof exactly when it is not validated |
| Analyzer.ActionItems | lib/analyzer-simple.ts:205-236 | one item per implication, in order, each built from that implication |
| Analyzer.NoClaimWithoutProof | lib/analyzer-simple.ts:212-220 | an item is `VALIDATED` exactly when some proof carries its three tags; its proof id is then that of the first such proof |
| Analyzer.UnprovenImplicationIsInsufficient | lib/analyzer-simple.ts:219-227 | without a matching proof the item is `INSUFFICIENT_DATA`, has no proof id, and asks for proof |
| Analyzer.SearchTagged | lib/analyzer-simple.ts:212-216 | the awaited search returns the proofs of the tag search |
| Analyzer.GenerateActionItems | lib/analyzer-simple.ts:205-236 | the loop returns exactly the action items of the specification |
| Analyzer.KeyChanges | lib/analyzer-simple.ts:243-245 | an implication is a key change exactly when some analysis lists it and its severity is high or medium; the key changes are a subsequence of the flattened implications and hold each high- or medium-severity one exactly as often as the flattened list does, so they are that list filtered, in its order |
| Analyzer.TopImplications | lib/analyzer-simple.ts:243-246 | the first `min(5, n)` key changes, in order, each of high or medium severity and listed by some analysis; when there are at most five, every high- or medium-severity implication of every analysis is there |
| Analyzer.StatusPartition | lib/analyzer-simple.ts:248-249 | every action item lands in exactly one of the two e-mail sections |
| Analyzer.SubjectNamesCount | lib/analyzer-simple.ts:251 | the subject opens with "Market Pulse: " followed by the count in decimal |
| Analyzer.SubjectPluralisation | lib/analyzer-simple.ts:251 | the subject says "Changes" exactly when the count is not 1 |
| Strings.RemoveWhitespace | app/api/proof/route.ts:72 | the result holds exactly the non-whitespace characters, in order, and a text without whitespace is unchanged |
| Strings.RemoveSpaceBetween | app/api/proof/route.ts:72 | removing whitespace from two space-free words separated by a space joins the words |
| Strings.RunsAreSeparatorFree | lib/analyzer-simple.ts:65 | the runs `split(/\s+/)` keeps are never empty and hold no separator |
| Strings.RunsOfJoin | lib/analyzer-simple.ts:63-65 | joining texts with a separator and splitting again gives the runs of each text, in order |
| Strings.SplitOnJoin | app/api/proof/route.ts:72 | cutting a join of dash-free parts at its dashes gives back the parts |
| Strings.Radix | app/api/proof/route.ts:72 | `toString(36)`: a non-empty numeral of radix digits that reads back as the number |
| Strings.UpperRadixRoundTrip | app/api/proof/route.ts:72 | the upper-cased base-36 numeral still reads back as the number |
| ProofRoute.PersonaSegment | app/api/proof/route.ts:72 | the persona segment holds no whitespace |
| ProofRoute.NarrativeSegmentSpelled | app/api/proof/route.ts:72 | the upper-cased narrative segments read TRUST, SPEED, CONTROL, INNOVATION, COST, SECURITY |
| ProofRoute.SegmentOfTwoWords | app/api/proof/route.ts:72 | a two-word persona loses the space between its words |
| ProofRoute.DataEngineerSegment | app/api/proof/route.ts:72 | "Data Engineer" becomes "DataEngineer" |
| ProofRoute.VPEngineeringSegment | app/api/proof/route.ts:72 | "VP Engineering" becomes "VPEngineering" |
| ProofRoute.ProductManagerSegment | app/api/proof/route.ts:72 | "Product Manager" becomes "ProductManager" |
| ProofRoute.PersonaSegmentSpelled | app/api/proof/route.ts:72 | every persona segment is the persona's literal without spaces |
| ProofRoute.ParseNarrativeSegment | app/api/proof/route.ts:72 | an upper-case segment that parses is the segment of the tag it parses to |
| ProofRoute.ParsePersonaSegment | app/api/proof/route.ts:72 | a space-free segment that parses is the spelling of the persona it parses to |
| ProofRoute.ParseProofId | app/api/proof/route.ts:72 | an id that parses has the four dash-separated segments of the parts it parses to |
| ProofRoute.NarrativeSegmentRoundTrip | app/api/proof/route.ts:72 | every narrative segment reads back as its tag and holds no dash |
| ProofRoute.PersonaSpellingRoundTrip | app/api/proof/route.ts:72 | every persona spelling reads back as its persona and holds no dash |
| ProofRoute.PersonaSegmentRoundTrip | app/api/proof/route.ts:72 | every persona segment reads back as its persona and holds no dash |
| ProofRoute.TimestampSegmentRoundTrip | app/api/proof/route.ts:72 | the timestamp segment uses only `0-9` and `A-Z` and decodes in base 36 to the timestamp |
| ProofRoute.ProofIdSegments | app/api/proof/route.ts:72 | cutting a ProofID at its dashes gives `PROOF`, the narrative, the persona and the timestamp segments |
| ProofRoute.ProofIdRoundTrip | app/api/proof/route.ts:72 | a ProofID reads back as the narrative tag, persona and timestamp it was built from |
| ProofRoute.ProofIdsCollideOnlyOnSameInputs | app/api/proof/route.ts:72 | two ProofIDs are equal exactly when the tag, the persona and the millisecond are the same |
| ProofRoute.CreateProof | app/api/proof/route.ts:64-84 | 400 "Missing required fields" exactly when one of the five fields is missing; otherwise a record with the body's fields, an id built from its tags and millisecond that reads back as them, an expiry date exactly when one was given and then that date, and `createdAt` and `updatedAt` from the two clock reads |
| ProofRoute.CreatedProofKeyIsNoIndex | app/api/proof/route.ts:72 | a generated ProofID starts with `PROOF-`, so it is never `all` and its record key is never the id set's key |
| ProofRoute.HandlePost | app/api/proof/route.ts:52-96 | the reply is the created record with status 201, or the 400, and 201 comes exactly when the five fields are present; a rejected body leaves the vault as it was; an accepted one is saved and then found by its id |
| ProofRoute.OrUndefined | app/api/proof/route.ts:33-35 | `x \|\| undefined` keeps the value exactly when it is non-empty |
| ProofRoute.PlanGet | app/api/proof/route.ts:20-41 | a non-empty `proofId` means a lookup; otherwise a non-empty filter means a search with the non-empty filters; otherwise list everything |
| ProofRoute.HandleGet | app/api/proof/route.ts:12-49 | a lookup returns the stored proof or 404 "Proof record not found"; a search returns its matches; the listing returns every stored proof |
| ProofRoute.PlanDelete | app/api/proof/route.ts:104-109 | 400 "proofId is required" exactly when no non-empty id is given, otherwise the given id |
| ProofRoute.HandleDelete | app/api/proof/route.ts:99-121 | without an id the reply is the 400 and the vault is unchanged; with one the proof is gone, every other record stays, and the id set is that of `Db.Store.DeleteProofRecord`, so `proofId=all` leaves no proof listed |
| Export.DatePartOfIso | app/api/export/route.ts:37 | the date cell of an ISO timestamp is its calendar date |
| Export.ProofIdCell | app/api/export/route.ts:46 | the proof id cell is empty for a missing id, otherwise the id |
| Export.RowCells | app/api/export/route.ts:36-48 | a row has the eleven cells under the header, column by column |
| Export.Blocks | app/api/export/route.ts:29-50 | one block of rows per analysis, in order |
| Export.AnalysisRowCount | app/api/export/route.ts:30-32 | an analysis has one row and one action item per implication |
| Export.AnalysisRowAt | app/api/export/route.ts:32-48 | row `i` of an analysis pairs implication `i` with action item `i` |
| Export.DataRowsSnoc | app/api/export/route.ts:29-50 | the rows of one more analysis are the earlier rows followed by that analysis's rows |
| Export.RowsBefore | app/api/export/route.ts:29-50 | the analyses before `k` contribute as many rows as they hold implications |
| Export.RowCount | app/api/export/route.ts:26-50 | the export has one header row plus one row per implication |
| Export.RowPosition | app/api/export/route.ts:29-50 | implication `i` of analysis `k` comes right after the rows of the earlier analyses |
| Export.ExportRowAt | app/api/export/route.ts:26-50 | the export row at that position pairs implication `i` of analysis `k` with its action item |
| Export.ImplicationRow | app/api/export/route.ts:36-48 | the row carries the implication's fields and its action item's proof id and status; the status is `VALIDATED` exactly when a proof carries its tags |
| Export.ExportedRow | app/api/export/route.ts:26-50 | export row `1 + (implications before analysis k) + i` has eleven cells: the competitor name, the implication's text and tags, and a status `VALIDATED` exactly when a proof carries those tags, with the first match's id or an empty cell |
| Export.AnalysisRowsHaveElevenCells | app/api/export/route.ts:36-48 | every row of an analysis has eleven cells |
| Export.RowsHaveElevenCells | app/api/export/route.ts:12-50 | every row, header included, has as many cells as the header, which has eleven |
| Export.DoubleQuotes | app/api/export/route.ts:57 | doubling quotes never shortens a cell or adds another character, and leaves a cell without quotes unchanged |
| Export.Escape | app/api/export/route.ts:55-60 | an escaped cell is never shorter than the cell |
| Export.HalveDoubled | app/api/export/route.ts:57 | halving doubled quotes undoes the doubling |
| Export.EscapeRoundTrip | app/api/export/route.ts:55-60 | decoding an escaped cell gives the cell back |
| Export.QuotedExactlyWhenNeeded | app/api/export/route.ts:58-60 | a cell is quoted exactly when it holds a comma, a quote or a line feed, and then it is its doubled text between quotes |
| Export.PlainCellUnchanged | app/api/export/route.ts:58-60 | a cell with no comma, quote or line feed is written unchanged |
| Export.CarriageReturnIsNotQuoted | app/api/export/route.ts:58 | a lone carriage return is written bare |
| Export.JoinSnoc | app/api/export/route.ts:61-63 | a join of two or more parts ends with the separator and the last part |
| Export.JoinEndsWithLastPart | app/api/export/route.ts:61-63 | a join ends with its last part's last character |
| Export.EscapeEndsClean | app/api/export/route.ts:55-60 | no escaped cell ends in a line feed |
| Export.LineEndsClean | app/api/export/route.ts:61 | a line of two or more cells is non-empty and does not end in a line feed |
| Export.CsvEndsClean | app/api/export/route.ts:53-63 | a file whose last row has two or more cells does not end in a line feed |
| Export.NoTrailingNewline | app/api/export/route.ts:53-63 | the exported file is non-empty and does not end in a line feed |
| Export.PushAnalysisRows | app/api/export/route.ts:32-49 | the inner loop appends exactly the rows of one analysis |
| Export.ExportCsv | app/api/export/route.ts:6-63 | the handler's loops produce exactly the CSV of the header and the data rows |
| Export.JsonRoundTrip | lib/db.ts:109-118 | a `Date` saved through the JSON client is read back as its ISO text, not as a `Date` |
| Export.ToIsoString | app/api/export/route.ts:37 | `toISOString` gives the ISO text of a `Date` and throws on a string |
| Export.StoredDates | lib/db.ts:109-118 | every analysis read back from the store has its date as a string holding its ISO text |
| Export.ExportReplyAsWritten | app/api/export/route.ts:29-77 | as written, the route answers 500 "Failed to export data" exactly when an analysis with an implication has a date that is not a `Date`; otherwise the CSV |
| Export.StoredAnalysisBreaksExport | app/api/export/route.ts:37 | as written, the export of analyses read back from the store fails with 500 as soon as one of them has an implication (see Findings) |
| Export.ExportReply | app/api/export/route.ts:29-63 | reading each date as `new Date(analyzedAt)` never fails and gives the CSV of the analyses so dated |
| Export.StoredAnalysesExportAsSaved | app/api/export/route.ts:37 | with that reading, analyses read back from the store export exactly as `Export.ExportCsv` exports the typed analyses |

## Left out

- The key-value server is modelled by its semantics. The server, its network, its credentials and the lazy client setup are left out. Every `await` becomes a plain call.
- The store methods are sequential, with no concurrency. Two requests that interleave their `set` and `lpush` calls are not modelled.
- `smembers` returns a set in an order the server chooses. `Db.Store.GetCompetitorConfigs` and `Db.Store.GetAllProofRecords` use whatever order the set's elements come in. Their contracts state which elements come back, not in what order.
- Db.Store.SaveProofRecord: a record whose id is `all` would be written to `proof:all`, the id set's key. The source's `set` replaces the set with the record and the `sadd` after it fails. The model stores it like any other id. The only caller, the `POST` handler, never passes such an id (`ProofRoute.CreatedProofKeyIsNoIndex`).
- Db.Store.ProofRecordById: a `GET` with `proofId=all` reads the set's key as a record, which the server refuses, and the route answers 500 from its catch branch. The model finds no record.
- Db.Store: analysis ids and competitor urls share the `drift:` key prefix, so an analysis id that equals a url would overwrite that url's list. The model keeps the two in separate fields and cannot express that clash.
- Db.Store.UpdateCompetitorConfig: the thrown "Competitor not found" becomes a `false` result.
- Db.Store.SnapshotHistory and Db.Store.RecentMarketPulseReports: they read the code's range, `LRANGE 0 limit-1`, including its behaviour for a limit below 1. The default parameter `limit = 10` is the constant `Db.DefaultHistoryLimit`, which a caller passes. A key the server evicts on its own is not modelled: in a valid store every listed snapshot and report id is stored.
- `Math.random()` and `Date.now()` are parameters. So are the analysis id and the dates in `analyzeDrift`, as well as the ProofID's millisecond and the two `new Date()` reads of the `POST` handler, one for `createdAt` and one for `updatedAt`.
- A `Date` is kept as its ISO text. Parsing and formatting dates, and the `expiryDate` conversion, are left out. A given expiry text is kept as it is.
- Analyzer.CategorizeKeywords: the word-boundary regular expressions are approximated.
  - The lower-cased text is cut into runs of `[A-Za-z0-9_]`, and the vocabulary phrases are counted as consecutive runs.
  - "real-time", "machine learning" and "artificial intelligence" therefore also match when the words are separated by other non-word characters.
  - Lower-casing covers ASCII only.
- Analyzer.DriftScore: the final cap of 100 never binds, since the parts add up to at most 100. It is kept as the source writes it.
- Analyzer.PricingOnlyScoresTwenty: it is stated with no new word. A changed price such as "$9/mo" to "$19/mo" also adds the new word "19mo", so the full analysis scores 22, not 20. The model follows the code.
- An `ActionItem`'s next step is the enumeration `NextStep`. `Analyzer.NextStepText` spells out its two fixed texts, with the source's characters kept as written.
- The HTML body of the report e-mail is left out. Only its subject, its key-change list and its two action sections are modelled.
- Export.ExportCsv: the analyses are taken as typed values, with `analyzedAt` a `Date`. The JSON round trip of the store and the route's 500 branch are modelled beside it, by `Export.ExportReplyAsWritten` (see Findings); `ExportCsv` itself is the path where every date is a `Date`. That `new Date(t).toISOString()` gives back an ISO text `t` is taken as given.
- Export.ExportCsv: the list of all proofs is passed in as `vault`, and the generated action items search it. The handler's own call to `getAllProofRecords` discards its result. The inner loop is the separate method `Export.PushAnalysisRows`.
- Export: the reply headers, the file name and its date are left out. CSV is only written. `Export.Unescape` decodes a single cell, and no parser for a whole file is modelled.
- Export.Escape: a lone carriage return is not quoted, which departs from RFC 4180, section 2. The model keeps the source's test.
- Analyzer.HeroShift and Analyzer.HeroImplication: `substring` counts UTF-16 code units, and the model's cut to 50 (or 100) counts characters. A text with characters outside the Basic Multilingual Plane is cut at a different place.
- ProofRoute.CreateProof: the body's tags are enumeration values or absent. The route does not check at run time that a given string is one of the literals, and that path is not modelled.
- ProofRoute: every handler's `catch` branch returns HTTP 500. Those branches answer thrown store errors, which the model does not have, so they are left out. So is the JSON encoding of the replies.

## Findings

| source | as written | input that shows it | evidently intended | confidence | as-written member | corrected member |
|---|---|---|---|---|---|---|
| app/api/export/route.ts:37 | the date cell is `drift.analyzedAt.toISOString()` | any analysis with an implication, saved by `saveDriftAnalysis` and read back by `getLatestDriftAnalysis`: the JSON client returns `analyzedAt` as a string, `toISOString` throws, and the route answers 500 | the date cell of every row, for instance through `new Date(drift.analyzedAt).toISOString()` | not executed; rests on the client deserialising JSON without reviving dates | Export.StoredAnalysisBreaksExport | Export.StoredAnalysesExportAsSaved |
| lib/db.ts:43-44, lib/db.ts:168-171 | proof records live at `proof:<id>` and the id set at `proof:all` | `DELETE /api/proof?proofId=all` passes the non-empty check, `del proof:all` removes the whole id set, and from then on the listing, the search and the action gate see no proof, although every record is still stored | an id set outside the record keys, such as `proofs:all` after the pattern of `reports:all`, so that a delete removes only its own id | not executed | Db.DeleteAllClearsIndex | Db.SeparateIndexKeepsOtherIds |
| lib/db.ts:96-97, lib/db.ts:184-185 | the history reads `lrange(key, 0, limit - 1)` | `limit = 0` reads `LRANGE 0 -1`, which returns the whole list; a negative limit returns all but the last few | a limit below 1 returns nothing, and any other limit returns the newest `limit` entries | not executed | Db.HistoryAsWrittenIgnoresZeroLimit | Db.HistoryRange |

The store keeps the source's proof keys, so `Db.Store.DeleteProofRecord` and `ProofRoute.HandleDelete` show the wiped set; `Db.SeparateIndexKeepsOtherIds` shows that the separate key removes the clash. The export keeps `Export.ExportCsv` on typed analyses, which is the corrected reading of the stored ones. The store's `SnapshotHistory` and `RecentMarketPulseReports` keep the code's range, so that they report what the server returns. `Db.HistoryRangeAgreesForPositiveLimit` shows that, for every positive limit, they return what the corrected range would give.
