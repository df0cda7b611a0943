# Study backend game logic in Dafny

This project models the game logic of the backend of a behavioural study
in which people and an AI guess where a street-view picture was taken. The
backend does five things:

- It picks the image for each round. Round 15 is a control round and always
  shows the first control image. Every other round indexes the study images
  with its number compacted past the control slot.
- It records each submitted score. The record goes into an in-memory score
  tracker (one entry per player) and is persisted in a document store under
  a fresh key.
- It answers whether a player has completed a number of rounds. It asks the
  tracker first. If the tracker has no entry, it falls back once to the
  player's newest stored score record.
- It computes the final score. Only the newest record of each checkpoint
  round (4, 12 and 17) is counted.
- It runs the attention check: the two newest control-round records must carry
  different player scores.

The document store is a sequence of keyed entries (`Store`). A query is a
selection of score documents followed by a sort on `created_at`, newest
first; the query's field projection is left out. The tracker and the store
are the fields of the class `StudyBackend.Backend`. Its methods change them
as the source changes its global dictionary and database. The clock is a
parameter `now` (whole seconds). The UUID of a new score document is a
parameter `id`, which must not already be a key of the store and must differ
from the player id. The lists of image hashes and control hashes come from
the study data file and are constructor parameters.

Files: `records.dfy` (data and errors), `store.dfy` (key lookup, upsert,
score queries, the newest-first sort), `rounds.dfy` (image selection),
`aggregation.dfy` (first-seen de-duplication, sums and maximum of
`final_score`), `backend.dfy` (the backend class and the as-written
completion check).

Where the specification and the code disagree, the model follows the code.
The specification says the final score must not fail when no checkpoint
record exists. The code calls `max` of an empty list in that case (backend/main.py:247).
That raises ValueError, and `FinalScore` returns `Err(ValueError)`.

## Model

| member | source | states |
|---|---|---|
| `RoundSequencer.SelectImage` | backend/main.py:97-100 | Round 15 yields the first control image, or IndexError when there are no control images. A round r in 1..29 other than 15 yields image r-1 before the control round and r-2 after it when the list is long enough, and IndexError when that index runs past the list. Round 0 wraps to the last image, as Python's negative index does. Every result is a known hash, and every failure is IndexError. |
| `RoundSequencer.ImageIndexClosedForm` | backend/main.py:100 | For rounds 1..29 other than 15 the index is r-1 or r-2, and it lies in 0..27. |
| `RoundSequencer.ImageIndexInjective` | backend/main.py:100 | Distinct non-control rounds in 1..29 get distinct image indices. |
| `Store.Find` | backend/main.py:93 | A found position holds the key, and None means no entry has that key. |
| `Store.FindUnique` | backend/main.py:93 | In a store with distinct keys, lookup by an entry's key finds exactly that entry. |
| `Store.Upsert` | backend/main.py:105 | `repo[key] = doc` keeps the keys distinct. The key then maps to `doc`, and every other key keeps its document. Entries under other keys stay at their place. The store grows by one exactly when the key was new. |
| `Store.LookupAppend` | backend/main.py:75 | Appending an entry under a new key makes it findable under that key and changes no other lookup. |
| `Store.SelectedSpec` | backend/main.py:158-163 | A score query returns only score documents matching the player and round selector. It returns every such document in the store. |
| `Store.SelectedAppend` | backend/main.py:75 | A new score document appears at the end of exactly the queries whose selector it matches. |
| `Store.SelectedOverwrite` | backend/main.py:105 | Overwriting a non-score document with a non-score document changes no score query. |
| `Store.SelectedUpsert` | backend/main.py:105 | Writing an experiment record under a key that held no score changes no score query. |
| `Store.InsertSpec` | backend/main.py:174-178 | Inserting into a newest-first list keeps it newest first and adds exactly the inserted record. |
| `Store.SortSpec` | backend/main.py:174-178 | The sort on `created_at` descending is a newest-first permutation of its input. |
| `Store.QueryIsSortedSelection` | backend/main.py:158-182 | A query result is newest first and holds exactly the selected records, with the same count. Its first record is at least as new as every selected record. |
| `Aggregation.MaxOf` | backend/main.py:247 | `max` of a non-empty list is an element of the list and no smaller than any element. |
| `Aggregation.FirstSeenRounds` | backend/main.py:230-237 | The rounds the loop records are exactly the rounds of its input. |
| `Aggregation.FirstSeenDistinct` | backend/main.py:231-237 | `recorded_rounds` never holds a round twice, so no two counted records share a round. |
| `Aggregation.FirstSeenAreFirst` | backend/main.py:230-237 | Each counted record is the first record of its round number in the scan order. |
| `Aggregation.FirstsAreCounted` | backend/main.py:230-237 | The first record of each round number in the scan order is counted. |
| `Aggregation.FirstSeenKeepsNewest` | backend/main.py:213-232 | On newest-first input, a counted record is at least as new as every record of its round, so older resubmissions are skipped. |
| `Aggregation.FirstSeenAtMostThree` | backend/main.py:228-237 | When only rounds 4, 12 and 17 occur, at most three records are counted. |
| `Aggregation.MaxCountedRound` | backend/main.py:237-247 | Something is counted exactly when the input is non-empty. The maximum counted round is a round of the input, and no input round exceeds it. |
| `Aggregation.CheckpointTally` | backend/main.py:228-247 | Over checkpoint records, at most three are counted. The result round is a checkpoint round that no input record exceeds. |
| `Aggregation.FirstSeenOfDistinct` | backend/main.py:230-240 | Without resubmissions every record is counted, in order, so the totals are the plain sums. |
| `StudyBackend.PriorExperiment` | backend/main.py:92-102 | A missing key gives a new record for the player, stamped `now`, with no images. A stored experiment record is returned as stored. Any other document under the player's key gives KeyError, because that dictionary has no `images` field. |
| `StudyBackend.HasFinishedAsWritten` | backend/main.py:149-190 | The completion check as written. On a tracker hit it compares `rounds` with `total_rounds`. With no stored record it answers false. Otherwise it seeds the tracker with the player's newest stored record (the first query result, greatest `created_at`), leaves every other tracker entry as it was, and fails with TypeError. |
| `StudyBackend.AsWrittenFailsOnce` | backend/main.py:185-187 | With a cold tracker and one stored record, the first call raises TypeError. A retry then answers from the tracker the first call seeded. |
| `StudyBackend.TallyFirstSeen` | backend/main.py:221-251 | The loop and result of `final_score` on a given query result. It fails with ValueError exactly when the list is empty. Otherwise the result carries the sums over the first-seen records, their largest round, and the time stamp and city fields of the last record counted. |
| `StudyBackend.CheckpointTotals` | backend/main.py:196-247 | Over the store: nothing is counted exactly when the player has no checkpoint record. At most three records are counted. The largest counted round is a checkpoint round that no stored checkpoint record of the player exceeds. |
| `StudyBackend.Backend.constructor` | backend/main.py:37 | At process start the tracker is empty and the store holds what was persisted. |
| `StudyBackend.Backend.RecordScore` | backend/main.py:61-76 | The returned record copies the request's fields, with the player id and the timestamp added. The player's tracker entry becomes that record, and every other player's entry is unchanged. The store is the old store plus one entry under the fresh key. The invariant is kept. |
| `StudyBackend.Backend.Streetview` | backend/main.py:90-107 | An IndexError from image selection or a KeyError from a foreign document under the player's key changes nothing. The call succeeds exactly when image selection and the experiment lookup both succeed. On success the result is the selected hash and the score is recorded. The player's experiment record becomes the old one (or a new empty one) with the hash appended, and no other key changes. |
| `StudyBackend.Backend.HasFinished` | backend/main.py:148-190 | On a tracker hit the answer is `rounds >= total_rounds` and nothing changes. On a miss with no stored record the answer is false. Otherwise the tracker is seeded with the newest stored record (greatest `created_at`), and the answer is the hit answer for that record. The recursion stops after one fallback. |
| `StudyBackend.Backend.FinalScore` | backend/main.py:193-251 | It fails with ValueError exactly when the player has no checkpoint record. Otherwise the totals are the sums over the first-seen records in newest-first order. `rounds` is their largest round, a checkpoint that no stored checkpoint record exceeds. `created_at` and the city fields come from the last record counted, and `player_id` is the queried player. At most three records are counted. |
| `StudyBackend.Backend.AttentionCheck` | backend/main.py:263-296 | With fewer than two control-round records the answer is false. Otherwise the two first query results are the newest two. The answer is true exactly when their player scores differ. |
| `StudyBackend.CompletionAfterScore` | backend/main.py:139-155 | After a score for round 5 is recorded, the player has completed 5 rounds but not 6. |

## Left out

- CouchDB itself is not modelled: Mango query syntax, the `use_index` hint, the field projection and the `$exists` test become a filter on the `Score` document kind.
- A query returns every matching record. CouchDB's `_find` returns at most 25 documents when the query sets no `limit`, and none of the three queries sets one. The sort comes before the cut-off, so `has_finished` and `attention_check`, which read only the first one or two results, answer the same. `final_score` with more than 25 checkpoint records scans only the 25 newest, and the model does not capture that cut-off.
- Records with equal `created_at` come out of the sort in store order. CouchDB leaves their order open, so the model fixes one order.
- `created_at` is an integer parameter `now` rather than a float from `time.time()`. One `streetview` call uses the same `now` for the experiment record and the score record, where the source reads the clock twice.
- `uuid.uuid4()` is the parameter `id`. It is required to be absent from the store and to differ from the player id, which is what a random UUID gives in practice.
- Each operation is atomic. Concurrent requests are not modelled, nor a crash between the tracker write and the store write.
- `get_streetview` (reading and base64-encoding the image file) is left out, so `Streetview` returns the chosen hash.
- `predict`, `explain` and their `asyncio.sleep`, `get_document_by_tracked_id`, `msg`, and the FastAPI routing, CORS and tracing set-up are left out. Request-log documents from `predict`/`explain` can still sit in the store, and no score query selects them.
- `print(record)` in `has_finished` is output only and is left out.
- backend/prerecorded.py is not part of this model (file loading, SHA-1 hashing, the collector fetch, the LRU memoisation); the image and control hash lists are constructor parameters.
- generate.py, query.py and backend/config.py are offline scripts and settings; they are not part of this model.
- Store errors other than a missing key (an unavailable database) are not modelled.

## Findings

| source | as written | input that shows it | evidently intended | confidence | as-written member | corrected member |
|---|---|---|---|---|---|---|
| backend/main.py:187 | On a tracker miss, the re-check `has_finished(player)` leaves out `total_rounds`. Python raises TypeError after the tracker has been seeded. | A cold tracker, one stored score record for the player, any `total_rounds`. The first call fails, and a retry answers. | Re-check once with the same `total_rounds`, and answer from the newest stored record. | high (reading of the code; not executed) | `StudyBackend.HasFinishedAsWritten`, `StudyBackend.AsWrittenFailsOnce` | `StudyBackend.Backend.HasFinished` |
