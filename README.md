# Copilot rating and popularity engine, in Dafny

This project models the rating and ranking core of the MAA copilot-sharing backend. It covers:

- **Copilots.** Uploading, updating, deleting and viewing copilots.
- **Listings.** The paged copilot listing, with its selective home-page cache.
- **Rating submission.** Submitting a like or dislike. The vote goes into a normalised rating-record store, and the copilot's counts, level and ratio are recomputed from that store.
- **Legacy migration.** Copilots rated under the old system carry an embedded rating blob. Three places migrate it lazily into rating records: the display of a copilot, a rating submission and the daily job.
- **The daily hot-score job.** It migrates the remaining blobs in bulk, counts each live copilot's likes and dislikes of the trailing week, and rewrites every live copilot's hot score. Then it evicts the cached pages of the `hot` listing dimension.

The stores are in-memory state of one class `Stores.Db`:

- the copilot collection, a map from copilot id to document;
- the rating records, a sequence;
- the legacy blobs, a sequence;
- the key/value cache, with the TTL recorded per key.

Two classes use that store:

- the service `CopilotService.CopilotService`;
- the job `ScoreRefresh.CopilotScoreRefreshTask`.

Their methods update the store in place. Their contracts are stated against pure specification functions. That includes `RatesEffect`, the whole effect of one rating submission on the three collections, and the lemmas about it.

Values outside the core are parameters:

- `decode`: the rating-string decoder `RatingType.fromRatingType`.
- `parsed`: whether the JSON content parses.
- `now`: the clock, in seconds.
- `run`: the document store's query execution. It yields the match count and the requested page.
- `levels`: the level service.
- `hash`: the request's hash code.
- `hot`: the floating-point part of the hot score.

Some lemmas need the decoder to map exactly `"Like"` to LIKE and exactly `"Dislike"` to DISLIKE. They require that as `Migration.FaithfulDecoder`.

The model follows the code, including behaviour a reader of the code might not expect:

- **Lost view on legacy display.** When a copilot is shown in the legacy format and its blob is migrated, the copilot is saved as it was read before the view was counted. That counted view is therefore overwritten (`GetCopilotById`).
- **Mixed listing pages.** A listing page is formatted in the legacy format for every copilot on it as soon as one copilot on the page has a live blob.
- **"Not enough ratings" in the legacy format.** It tests the number of blob entries (`<= 5`). When the blob has no user list, the flag keeps the converter's value, which the model assumes to be false (see `CopilotService.BaseInfo` under Left out).
- **Empty user lists.** A rating submission and a display migrate a blob only when its user list is non-empty, and never mark an empty one consumed. The daily job marks every blob that has a user list consumed, even an empty one (`ScoreRefresh.MarkedBy`).
- **Migration overwrites or adds.** A submission's migration overwrites the copilot's counts. The daily job adds the blob's counts onto the stored ones.
- **Deleted copilots in a submission.** The final recount skips a deleted copilot, but the migration step before it does not.
- **Deleted blobs in a submission.** A submission looks the copilot's blob up without regard to its delete flag. It migrates when some blob of that copilot is live, even if the blob it finds is a deleted one.
- **Several blobs per copilot.** The daily job keeps the first live blob per copilot. A repeated identical vote changes nothing when the copilot has at most one blob (`RatesIdempotent`). With two live blobs that have entries, a repeated vote migrates the first blob again, although the first vote already marked it deleted: the lookup finds it regardless of its flag, while the second blob is still live.
- **Defaults in the daily job.** A copilot without likes in the window counts one like. The score's own floor at one like makes that default change nothing (`DefaultsMatchFloors`).

Some further facts about the code:

- **Rating level.** It is the like share in tenths, an integer from 0 to 10 (`Recount`).
- **View-guard lifetime.** When a view guard already exists, the code updates it with a lifetime of 60 minutes. It writes a new guard with the two-argument call, which passes no lifetime (`GetCopilotById`).
- **Upserts.** A rating upsert writes the record and reports no result to its caller (`RatingStore.Upsert`).

## Model

| member | source | states |
|---|---|---|
| Text.StripQuotesNoQuotes | src/main/java/plus/maa/backend/service/CopilotService.java:305 | removing the ASCII and curly quotes changes nothing in a string that has none, so the cleaning is idempotent |
| Text.StripQuotesAppend | src/main/java/plus/maa/backend/service/CopilotService.java:305 | removing quotes works piecewise: the result for a concatenation is the concatenation of the results |
| Text.StripQuotesSnoc | src/main/java/plus/maa/backend/service/CopilotService.java:305 | each character is kept, in order, exactly when it is not a quote, which with the empty string fixes the result on every input |
| Text.JoinFields | src/main/java/plus/maa/backend/service/CopilotService.java:306 | splitting on a separator and joining the fields back gives the original string |
| Text.JavaSplitTokens | src/main/java/plus/maa/backend/service/CopilotService.java:306 | `split(",")` yields a prefix of all the fields, and every field it drops is an empty trailing one |
| Query.ConfigKeys | src/main/java/plus/maa/backend/service/CopilotService.java:73-77 | the cached dimensions are exactly hot, views and id, none blank |
| Query.CacheSlotFor | src/main/java/plus/maa/backend/service/CopilotService.java:240-251 | a request gets cache keys iff it is on page 3 or earlier, has no document, level, uploader or operator filter, and orders by a configured dimension; the slot's TTL is that dimension's and its keys are `home:<dim>:copilotIds` and `home:<dim>:<hash>` |
| Query.CacheSlotKeys | src/main/java/plus/maa/backend/service/CopilotService.java:248-249 | both cache keys of an eligible request lie under the dimension's `home:<dim>:` eviction prefix |
| Query.SortField | src/main/java/plus/maa/backend/service/CopilotService.java:259-267 | a blank order means copilotId, hot means hotScore, id means copilotId, anything else is used as given, and the field is never blank |
| Query.PageOrDefault | src/main/java/plus/maa/backend/service/CopilotService.java:269 | a positive page is kept and any other becomes 1 |
| Query.LimitOrDefault | src/main/java/plus/maa/backend/service/CopilotService.java:270 | a positive limit is kept and any other becomes 10 |
| Query.PageCount | src/main/java/plus/maa/backend/service/CopilotService.java:375 | the least number of pages of `limit` items that holds `count` items |
| Query.HasNextIffBeforeLastPage | src/main/java/plus/maa/backend/service/CopilotService.java:375-378 | there is a next page exactly when the current page is before the last one |
| Query.InclusionsMember | src/main/java/plus/maa/backend/service/CopilotService.java:307-315 | an operator is required exactly when it is a token not starting with `~` |
| Query.ExclusionsMember | src/main/java/plus/maa/backend/service/CopilotService.java:307-311 | an operator is excluded exactly when `~` followed by it is a token |
| Query.OperatorFilters | src/main/java/plus/maa/backend/service/CopilotService.java:302-317 | a blank operator string adds no filter; otherwise the and/nor filters are the inclusions and exclusions of the quote-stripped comma tokens |
| Query.UploaderFilter | src/main/java/plus/maa/backend/service/CopilotService.java:319-328 | no filter for a blank uploader; "me" filters by the logged-in user, or not at all without one; any other value filters by that uploader |
| Query.MakePlan | src/main/java/plus/maa/backend/service/CopilotService.java:259-340 | the plan sorts by the mapped order field in the requested direction, pages with the defaulted page and limit, and-filters exactly the not-deleted filter, the stage filter, the operator inclusions and the uploader filter, nor-filters exactly the operator exclusions, and has or-filters iff a document is given |
| HotScore.Floors | src/main/java/plus/maa/backend/service/CopilotService.java:546-552 | ups = max(like, 1), downs = max(dislike, 0), the like share is ups / (ups + downs), lies in (0, 1] and is 1 iff there are no downs, and the penalty applies iff ups + downs >= 5 and downs >= ups, and then the share is at most 1/2 |
| HotScore.DefaultNotPenalized | src/main/java/plus/maa/backend/task/CopilotScoreRefreshTask.java:98-100 | the job's default (1 like, 0 dislikes) has share 1 and no penalty |
| HotScore.PenaltyNeedsThreeDislikes | src/main/java/plus/maa/backend/service/CopilotService.java:546-549 | the penalty needs at least three dislikes |
| HotScore.MoreDislikesNoBetter | src/main/java/plus/maa/backend/service/CopilotService.java:546-552 | one more dislike keeps a penalty in force and strictly lowers the like share |
| RatingStore.TotalIsSumOfKinds | src/main/java/plus/maa/backend/service/CopilotService.java:514-518 | a copilot's record count is its LIKE plus DISLIKE plus NONE records |
| RatingStore.FindUser | src/main/java/plus/maa/backend/service/CopilotService.java:488-489 | the index found holds a record of that user for that copilot, the first one under the assumption stated under Left out, and none means there is no such record |
| RatingStore.UpsertFinds | src/main/java/plus/maa/backend/service/CopilotService.java:488-511 | after setting a vote the user's record holds it with the given time, and every other record is unchanged |
| RatingStore.UpsertKeepsUnique | src/main/java/plus/maa/backend/service/CopilotService.java:488-511 | setting a vote never creates a second record for the same copilot and user |
| RatingStore.UpsertTwice | src/main/java/plus/maa/backend/service/CopilotService.java:488-511 | setting two votes in a row is the same as setting only the second |
| RatingStore.UpsertCounts | src/main/java/plus/maa/backend/service/CopilotService.java:488-518 | after setting a vote, each count loses the user's old record and gains the new one |
| RatingStore.RatingTenths | src/main/java/plus/maa/backend/service/CopilotService.java:520-523 | the level is the like share in tenths, rounded half up: within half a tenth of 10·like/total, 0 without likes or ratings, 10 when every rating is a like |
| RatingStore.RatingRatio | src/main/java/plus/maa/backend/service/CopilotService.java:520-533 | the stored ratio is in [0, 1], 0 without ratings, and within 1/20 of the exact like share |
| Migration.ConvertLegacy | src/main/java/plus/maa/backend/service/CopilotService.java:586-602 | the loop yields one record per legacy entry, in order, plus the numbers of "Like" and "Dislike" entries |
| Migration.MigrateForSubmission | src/main/java/plus/maa/backend/service/CopilotService.java:433-472 | the submitter's changed entries take the new vote and time, and the counts move by their deltas in the same pass and are clamped at 0 |
| Migration.NoChangeIsPlainConversion | src/main/java/plus/maa/backend/service/CopilotService.java:438-466 | without a changed entry of the submitter, the submission's conversion is the plain one with zero deltas |
| Migration.SubmitRecordsTotal | src/main/java/plus/maa/backend/service/CopilotService.java:438-473 | a migrated copilot gains exactly one record per legacy entry |
| Migration.LegacyCountsMatchRecords | src/main/java/plus/maa/backend/service/CopilotService.java:589-602 | under a faithful decoder, the counts read off the strings equal the LIKE and DISLIKE records written |
| Migration.SubmitCountsMatchRecords | src/main/java/plus/maa/backend/service/CopilotService.java:438-472 | under a faithful decoder, the counts with the submitter's deltas equal the records written, so the clamp never fires |
| Stores.RemovePrefix | src/main/java/plus/maa/backend/service/CopilotService.java:181 | removal by pattern drops exactly the keys with the prefix and keeps the other values |
| Stores.PrefixesDisjoint | src/main/java/plus/maa/backend/service/CopilotService.java:177-183 | two different dimensions' key prefixes never overlap |
| Stores.EvictForDeleteKeys | src/main/java/plus/maa/backend/service/CopilotService.java:177-183 | after a delete, a key of dimension d survives iff d's index does not hold the id, and keys outside the dimensions always survive |
| Stores.GuardAfter | src/main/java/plus/maa/backend/service/CopilotService.java:196-211 | after a counted view the actor's guard holds the id, so the next view is not counted, and no other cache key changes |
| Stores.GuardMonotone | src/main/java/plus/maa/backend/service/CopilotService.java:196-211 | a view suppressed once stays suppressed after any other counted view |
| Stores.GuardNotUnderDim | src/main/java/plus/maa/backend/service/CopilotService.java:195 | view guards never lie under a listing dimension, so no listing eviction removes them |
| CopilotService.FindLegacy | src/main/java/plus/maa/backend/service/CopilotService.java:215 | the blob found belongs to that copilot, deleted or not, and is its first one under the assumption stated under Left out; none means the copilot has none |
| CopilotService.FindLiveLegacy | src/main/java/plus/maa/backend/service/CopilotService.java:355-358 | the blob found is the first live one of that copilot, and none means it has no live blob |
| CopilotService.LegacyInfo | src/main/java/plus/maa/backend/service/CopilotService.java:564-583 | legacy format: ratio and level from the blob, "not enough" iff the blob has a list of at most 5 entries, and a vote shown iff the actor has an entry, namely the decoded rating of the actor's first entry |
| CopilotService.NewInfo | src/main/java/plus/maa/backend/service/CopilotService.java:623-642 | new format: the copilot's ratio and level, "not enough" iff likes + dislikes <= 5, and a vote shown iff the actor has a record, namely that record's rating |
| CopilotService.SubmissionBlob | src/main/java/plus/maa/backend/service/CopilotService.java:427-433 | a submission migrates a blob iff the copilot has a live blob and its first blob, deleted or not, has a non-empty user list; the blob migrated is that first one |
| CopilotService.AfterMigration | src/main/java/plus/maa/backend/service/CopilotService.java:425-486 | without a blob to migrate nothing changes; otherwise the records gain exactly the submission's conversion of that blob, only that blob is marked deleted, only the rated copilot changes, and it takes the blob's level and ratio |
| CopilotService.Recount | src/main/java/plus/maa/backend/service/CopilotService.java:513-534 | likes are the LIKE records and dislikes the rest; the level is in 0..10 with ratio level/10, 0 without likes, 10 when all are likes; no other field changes |
| CopilotService.RatesEffect | src/main/java/plus/maa/backend/service/CopilotService.java:420-535 | an unknown copilot is NotFound with nothing changed; otherwise Pass, and an early return leaves everything as it was |
| CopilotService.RatesRecordsVote | src/main/java/plus/maa/backend/service/CopilotService.java:488-511 | after a submission the submitter's record holds the submitted vote; without a migration every other record is unchanged |
| CopilotService.RatesRecounts | src/main/java/plus/maa/backend/service/CopilotService.java:513-534 | after a submission without an early return, a live copilot's counts are the store's, with at least one record and the level bounds |
| CopilotService.RatesIdempotent | src/main/java/plus/maa/backend/service/CopilotService.java:488-495 | submitting the same vote a second time returns early with nothing changed, when the copilot has at most one blob |
| CopilotService.DisplayAgreesAfterMigration | src/main/java/plus/maa/backend/service/CopilotService.java:564-642 | once a blob is migrated the new format shows the same ratio and level as the legacy one did, the same "not enough" flag when all entries are likes or dislikes, and, for an actor without an earlier record of that copilot, the same vote |
| CopilotService.FindUserAfterMigration | src/main/java/plus/maa/backend/service/CopilotService.java:580-603 | after appending the migrated records, an actor without an earlier record is found at its first legacy entry, or not found without one |
| CopilotService.LikesAndDislikesCoverAll | src/main/java/plus/maa/backend/service/CopilotService.java:597-601 | when every entry is "Like" or "Dislike", the two counts add up to the number of entries |
| CopilotService.NewCopilot | src/main/java/plus/maa/backend/service/CopilotService.java:157-160 | an uploaded copilot has the given id, uploader, content and time, no views, ratings or score, notifications off, and is live; the defaults are assumed (see Left out) |
| CopilotService.CopilotService.constructor | src/main/java/plus/maa/backend/service/CopilotService.java:66 | the id allocator starts at 20000 |
| CopilotService.CopilotService.Init | src/main/java/plus/maa/backend/service/CopilotService.java:80-85 | with copilots stored, the next id is one more than the largest stored id; with none, it is unchanged; every stored id is then below it |
| CopilotService.CopilotService.Upload | src/main/java/plus/maa/backend/service/CopilotService.java:154-163 | unparsable content is a validation error with nothing changed; otherwise the next id is handed out, the allocator advances, and a fresh copilot with that id is stored |
| CopilotService.CopilotService.Delete | src/main/java/plus/maa/backend/service/CopilotService.java:168-185 | an unknown id does nothing; another user's copilot is refused; otherwise it is marked deleted and every dimension whose index holds it loses all its cache keys |
| CopilotService.CopilotService.FormatLegacy | src/main/java/plus/maa/backend/service/CopilotService.java:564-617 | returns the legacy info; a blob with a non-empty list has its entries appended as records and is marked deleted, and the copilot is saved with the blob's ratio, level and counts; copilots stay keyed by their ids |
| CopilotService.CopilotService.GetCopilotById | src/main/java/plus/maa/backend/service/CopilotService.java:190-224 | an unknown or deleted copilot gives nothing; otherwise a view is counted unless the actor's guard holds the id; the info is in the legacy format iff the first blob is live; a migrating display saves the copilot as read, losing the counted view |
| CopilotService.CopilotService.FormatPage | src/main/java/plus/maa/backend/service/CopilotService.java:354-372 | each page entry gets the info of the chosen format against the blobs as they were before the page was formatted; only copilots on the page change, none disappears, none is added when the page's copilots are stored, and copilots stay keyed by their ids (`PageFramed`) |
| CopilotService.CopilotService.QueriesCopilot | src/main/java/plus/maa/backend/service/CopilotService.java:234-395 | a cached page is returned with nothing changed; otherwise total, page count, next-page flag and infos follow the query result, and an eligible request's page and index union are cached with the dimension's TTL; the copilot collection changes only as `PageFramed` allows, and stays keyed by ids |
| CopilotService.CopilotService.Update | src/main/java/plus/maa/backend/service/CopilotService.java:402-412 | an unknown id does nothing; unparsable content and another user's copilot are refused; otherwise the content and upload time are replaced |
| CopilotService.CopilotService.MigrateOnSubmission | src/main/java/plus/maa/backend/service/CopilotService.java:425-486 | the collections become those of the submission's migration step, and it reports no migration iff there was no blob to migrate |
| CopilotService.CopilotService.Rates | src/main/java/plus/maa/backend/service/CopilotService.java:420-535 | the collections and outcome are exactly those of RatesEffect, and the cache is untouched |
| CopilotService.CopilotService.NotificationStatus | src/main/java/plus/maa/backend/service/CopilotService.java:644-651 | an unknown copilot is NotFound; another user's copilot is refused; otherwise only its notification flag is set |
| ScoreRefresh.CountWindow | src/main/java/plus/maa/backend/task/CopilotScoreRefreshTask.java:110-117 | the window count of a copilot and rating is zero exactly when no record matches, and equals the number of records exactly when every record matches |
| ScoreRefresh.CountWindowBound | src/main/java/plus/maa/backend/task/CopilotScoreRefreshTask.java:110-117 | the window count never exceeds the copilot's count of that rating |
| ScoreRefresh.CountWindowAll | src/main/java/plus/maa/backend/task/CopilotScoreRefreshTask.java:110-117 | when every record lies inside the window, the window count is the copilot's count of that rating |
| ScoreRefresh.Counts | src/main/java/plus/maa/backend/task/CopilotScoreRefreshTask.java:110-123 | the grouped counts hold a requested key iff it has a match in the window, with its window count |
| ScoreRefresh.DefaultsMatchFloors | src/main/java/plus/maa/backend/task/CopilotScoreRefreshTask.java:94-100 | with the defaults, the scored like count is max(window likes, 1) and the dislike count is the window count, so the score's floors see exactly the window counts |
| ScoreRefresh.BatchCountsMatchRecords | src/main/java/plus/maa/backend/task/CopilotScoreRefreshTask.java:64-81 | under a faithful decoder, the likes and dislikes the batch adds onto a copilot are the LIKE and DISLIKE records it inserts for it |
| ScoreRefresh.RecordsOfTotal | src/main/java/plus/maa/backend/task/CopilotScoreRefreshTask.java:64-81 | a blob with a user list gives exactly one record per entry; no blob or no list gives none |
| ScoreRefresh.BatchCopilotsAt | src/main/java/plus/maa/backend/task/CopilotScoreRefreshTask.java:59-86 | each loaded copilot is migrated against its own first live blob, independently of the others |
| ScoreRefresh.BatchLegacyMarks | src/main/java/plus/maa/backend/task/CopilotScoreRefreshTask.java:57-84 | the batch marks deleted exactly the first live blob of each loaded copilot that has a user list, and leaves every other blob as it was |
| ScoreRefresh.MarkStep | src/main/java/plus/maa/backend/task/CopilotScoreRefreshTask.java:82-83 | processing one more copilot marks only that copilot's first live blob |
| ScoreRefresh.SavedEffect | src/main/java/plus/maa/backend/task/CopilotScoreRefreshTask.java:105 | saving the scored copilots by id replaces each live copilot by its scored version and leaves the deleted ones and the key set as they were |
| ScoreRefresh.HotEvictionSparesOthers | src/main/java/plus/maa/backend/task/CopilotScoreRefreshTask.java:107 | evicting `home:hot:*` removes the hot index and keeps every views and id key |
| ScoreRefresh.CopilotScoreRefreshTask.MigrateOne | src/main/java/plus/maa/backend/task/CopilotScoreRefreshTask.java:60-85 | one copilot takes its first live blob's level and ratio; a blob with a user list adds its counts, inserts its records and is written back deleted |
| ScoreRefresh.CopilotScoreRefreshTask.MigrateAll | src/main/java/plus/maa/backend/task/CopilotScoreRefreshTask.java:54-87 | the migration loop yields the batch-migrated copilots, appends the batch records and marks the batch's blobs |
| ScoreRefresh.CopilotScoreRefreshTask.ScoreAll | src/main/java/plus/maa/backend/task/CopilotScoreRefreshTask.java:97-103 | every loaded copilot gets the hot score of its window counts, defaulted to 1 like and 0 dislikes |
| ScoreRefresh.CopilotScoreRefreshTask.RefreshHotScores | src/main/java/plus/maa/backend/task/CopilotScoreRefreshTask.java:49-108 | each live copilot is saved migrated and scored from the trailing week's counts (including the records just migrated); deleted copilots are untouched; the records gain the batch's; exactly the batch's blobs are marked; and only `home:hot:*` keys are evicted |

## Left out

- JSON parsing of copilot content is the `parsed` flag. The converter that maps content into the stored document and the stored document into the display record is not part of this model. Its mapping is assumed, as the NewCopilot and BaseInfo lines below state. The model keeps only the rating fields, the content string, the owner and the times.
- The name cleaning of operators, groups and actions (`correctCopilot`) is modelled only as `Text.StripQuotes` on a string. The stage-name resolution through the level service is not modelled.
- The level service, the document store's regular-expression matching and the query execution are parameters (`levels`, `run`). The model trusts `run` to return the match count and the requested page.
- The request's hash code is a parameter.
- User names, comment counts and the display id string are not modelled. They do not affect ratings or ranking.
- Cache expiry over time is not modelled, only the TTL each write records.
- Stores.GuardAfter: the cache helper behind the two-argument write of a new view guard is not part of this model. The model assumes that write sets no expiry and records no TTL for the guard. A default lifetime the helper might apply is not captured.
- RatingStore.FindUser: the source looks the user's record up with a single-result repository query. What that query does when several records match is not visible in the code; such stores normally throw. The model assumes it returns the first match. Several matches can arise: a legacy list that names a user twice becomes two records.
- CopilotService.FindLegacy: the same assumption for the single-result blob lookup by copilot id used by the display and by a submission. When a copilot has several blobs, the model takes the first.
- CopilotService.SubmissionBlob: inherits the first-blob assumption of FindLegacy.
- Several source crashes are not modelled:
  - a missing uploader in the user lookup;
  - a guard value without an id set;
  - a page whose copilots have duplicate live blobs, on which `Maps.uniqueIndex` throws. The model uses the first live blob instead.
- Exceptions from the source's assertions become `Outcome`/`Result` errors: a missing copilot gives NotFound, a wrong owner PermissionDenied, unparsable content ValidationError. Store-unavailable errors are not modelled.
- HotScore.Floors: the floating-point formula is not modelled. That covers the logarithms, the week count since upload and the view factor from `getHotScore`. It is the parameter `hot`, which receives the discrete inputs this function computes.
- RatingStore.RatingTenths: the rounding is exact rational half-up. The source rounds the binary double, and on ties such as 3/20 that double can land on the other side.
- 64-bit overflow of ids and counts is not modelled; integers are unbounded.
- Concurrency is not modelled: the atomic id allocator, the cron schedule and interleaving with other requests.
- The copilot collection is a map whose every document sits under its own copilot id (`Stores.Db.Keyed`), so `save` writes by copilot id. GetCopilotById and RefreshHotScores require it. The listing methods FormatLegacy, FormatPage and QueriesCopilot keep it.
- CopilotService.CopilotService.QueriesCopilot: on the legacy path the contract states the migrations only loosely. Records are only appended and blobs only marked deleted, not which ones. No copilot disappears, a copilot not on the page is unchanged, and no copilot is added when `run` returns only stored copilots. The new state of the page's copilots is not stated. FormatLegacy states the exact effect of each migration.
- CopilotService.CopilotService.FormatPage: same as QueriesCopilot. Records are only appended, blobs only marked deleted, and only copilots on the page may change, in a way not stated. No copilot is added when the page's copilots are all stored.
- CopilotService.NewCopilot: the converter's mapping of an upload into the stored document is not part of this model. The model assumes it sets the views, the like and dislike counts, the level, the ratio and the hot score to zero, and the notification and delete flags to false.
- CopilotService.BaseInfo: the converter from a copilot to its display record is not part of this model. The model assumes it copies the copilot's id, ratio and level, sets "not enough ratings" to false and shows no vote. That assumption decides the legacy display of a copilot without a live blob, or of a blob without a user list.
- CopilotService.DisplayAgreesAfterMigration: the vote is shown to agree only for an actor without an earlier record of that copilot. An actor who already has one sees that record after the migration, not its legacy entry.
- ScoreRefresh.CopilotScoreRefreshTask.RefreshHotScores: the list of live copilots is a parameter, `copilotIds`, in the order the repository returns them. The method requires that it lists every live copilot exactly once. The source's early skip when no blob is live is not modelled separately: the loop has no effect then.
