# Nest Mini play-count exporter and top-10 relay, modelled in Dafny

This project models the two pieces of bookkeeping in the Nest Mini Prometheus
exporter for Grafana.

- **The now-playing exporter's poll loop** (`nest_exporter.py`). Each poll
  normalises the cast's media status into a snapshot and builds the song key
  `title::artist::album`. When the key differs from `last_song_id` and the
  title is not `"Unknown"`, it counts a play in the play-stats ledger and saves
  the ledger. It then rebuilds the now-playing gauges, the play-count gauge and
  the `/nowplaying` record.
- **The top-10 relay's scan loop** (`nest_top10_image_relay.py`). Each tick
  ranks the ledger's entries by (-play_count, title) with a stable sort and
  keeps the first ten. When the ordered key list differs from the previous
  tick's, it walks every new rank. For each rank it removes the previously
  published label set, tries to refresh the cached cover image, and publishes
  and records the new label set. The per-rank image route decides between 400,
  404 and the cached file.

Files and modules:

- `songs.dfy`, module `Songs`: the ledger entry, the label tuple, and the
  `"::"`-joined song key with a concrete collision.
- `exporter.dfy`, module `NestExporter`:
  - normalisation;
  - the ledger as a dict in insertion order (`order` plus `entries`);
  - one counting step (`Observe`) and a run of polls (`Replay`);
  - the class `Exporter`, whose `Poll` is one loop iteration.
- `ranking.dfy`, module `Ranking`:
  - Python's `<` on `str`;
  - the sort key and its total-order lemmas;
  - the stable insertion sort;
  - `Rank` (the sort cut to ten) and `TopKeys`;
  - sortedness, top-k and stability lemmas.
- `relay.dfy`, module `ImageRelay`:
  - the nondeterministic image fetch and the image cache;
  - the `/current_art_<rank>.jpg` decision;
  - the class `TopTenRelay` with `Tick`, `Apply` and `ApplyRank`.

Abstract inputs:

- **Poll outcome.** `Exporter.Poll` takes the poll outcome, which is None when
  reading the cast raised.
- **Save outcome.** `Exporter.Poll` also takes `saveSucceeds`, which says
  whether `save_play_stats` raises.
- **Stats document.** `TopTenRelay.Tick` takes the document's values in order,
  or None when reading the file raised. `ImageRelay.RankOfLedger` connects the
  ranking of a ledger's values (`NestExporter.Values`) back to the ledger.
- **Image fetches.** `TopTenRelay.Tick` takes `fetch(rank)`, the outcome of
  downloading that rank's cover.
- **Sinks.** Gauges are maps from label values to numbers. The relay's gauge
  for rank `i + 1` is `topSeries[i]`.

`last_song_id` moves only inside the counting branch, after the save
succeeded (`nest_exporter.py:114`), so:

- an `"Unknown"` snapshot does not reset it, so [A, Unknown, A] counts A once
  (`ScenarioUnknownFlicker`);
- a save that raises leaves it behind, so the same song is counted again on the
  next poll (`SaveFailureRecounts`).

## Model

| member | source | states |
|---|---|---|
| Songs.SongKey | nest_exporter.py:99 | The key is the title, artist and album joined by "::". Its length is their lengths plus 4. The title can be read back from its front and the album from its end. |
| Songs.KeyCollision | nest_exporter.py:99 | The key is not injective: ("a::b", "c", "d") and ("a", "b::c", "d") are different songs with one key. |
| NestExporter.Normalize | nest_exporter.py:93-97 | A missing or empty title, artist or album becomes "Unknown". A missing or empty player state becomes "UNKNOWN". The image is the first image URL, or "" when there are none. Present values pass through unchanged, and every text field but the image is non-empty. |
| NestExporter.LoadPlayStats | nest_exporter.py:48-52 | With no stats file the ledger is empty; otherwise it is the stored document. |
| NestExporter.Values | nest_top10_image_relay.py:91-92 | `values()` yields one entry per key, in the dict's insertion order. |
| NestExporter.RecordPlay | nest_exporter.py:103-112 | A new key is appended with play_count 1 and the current image URL. A known key gets play_count + 1 and keeps its stored title, artist, album and image. No other entry changes, and the ledger stays a dict (distinct keys, map and order agree). |
| NestExporter.RecordPlayGrows | nest_exporter.py:102-114 | Counting adds exactly 1 to the snapshot's key and changes no other count. It removes no key and keeps the earlier key order. |
| NestExporter.RecordPlayWellKeyed | nest_exporter.py:103-112 | Counting keeps every entry stored under the key built from its own fields. |
| NestExporter.Observe | nest_exporter.py:99-114 | A snapshot that does not qualify changes nothing. A qualifying one records the play. last_song_id moves to the key only when the save succeeded. |
| NestExporter.UnknownNeverCounts | nest_exporter.py:102 | A snapshot titled "Unknown" leaves the ledger and last_song_id unchanged. |
| NestExporter.RepeatNeverCounts | nest_exporter.py:102-114 | The same snapshot right after a successfully saved count is not counted again. |
| NestExporter.SaveFailureRecounts | nest_exporter.py:102-114 | When the save raises after a count, the next poll of the same song counts it again: its count rises by 2 over the two polls. |
| NestExporter.CollidingSongsShareEntry | nest_exporter.py:99-112 | A different song with a colliding key is taken as a repeat when it directly follows the first. After another song it increments the first song's entry, which keeps the first song's title, artist and album. |
| NestExporter.Replay | nest_exporter.py:88-114 | A run of polls, each with its own save outcome, keeps the ledger a well-formed dict. |
| NestExporter.ReplayCounts | nest_exporter.py:102-114 | After any run of polls, failed saves included, each key's count is its starting count plus the number of counted transitions into it. |
| NestExporter.CountedKeysChange | nest_exporter.py:102-114 | A counted play whose save succeeded is followed by a counted play of a different key, and the first counted key differs from the starting last_song_id. |
| NestExporter.ReplayLastSongId | nest_exporter.py:113-114 | last_song_id ends at the last counted key whose save succeeded. It stays put when no counted play was saved. |
| NestExporter.ReplayMonotone | nest_exporter.py:102-114 | Over any run of polls, failed saves included, counts never decrease, entries are never removed and the key order only grows. |
| NestExporter.ScenarioRepeatsAndReturn | nest_exporter.py:102-114 | Snapshots [A, A, B, A] with every save succeeding give A = 2 and B = 1. |
| NestExporter.ScenarioUnknownFlicker | nest_exporter.py:102-114 | Snapshots [A, Unknown, A] with every save succeeding give A = 1. |
| NestExporter.ScenarioFailedSaveRepeats | nest_exporter.py:102-114 | After a failed save the same key is counted again: snapshots [A, A] whose first save fails count A on both polls. |
| NestExporter.WellKeyedLabelsDistinct | nest_exporter.py:132-137 | In a ledger whose entries sit under their own keys, different entries publish different label sets. |
| NestExporter.ExportPlayCounts | nest_exporter.py:122-137 | The play-count gauge, rebuilt from empty, holds exactly the label sets of the ledger's entries. When entries sit under their own keys, each series equals its entry's play_count. |
| NestExporter.Exporter.constructor | nest_exporter.py:39-60 | Start-up loads the ledger (empty with no file). The gauges are empty and the now-playing record is blank. |
| NestExporter.Exporter.Publish | nest_exporter.py:116-147 | Each now-playing gauge holds the single series for the snapshot. The play-count gauge exports the ledger, and the now-playing record equals the snapshot. |
| NestExporter.Exporter.CountPlay | nest_exporter.py:99-114 | A play is counted iff the snapshot qualifies. The save is called exactly when counting, and the stored document becomes the ledger only when the save succeeds. The counting state follows `Observe`. |
| NestExporter.Exporter.Poll | nest_exporter.py:88-152 | When reading the cast raises, nothing changes. Otherwise the counting state follows `Observe` and the save is called exactly on a count. A failed save leaves every gauge and the record as they were. In every other case the exporter shows the snapshot and the ledger. |
| NestExporter.RestartAfterSave | nest_exporter.py:48-60 | A restarted exporter loads whatever the stats file holds. After a poll that counted and saved, the file holds exactly the in-memory ledger, so every count survives a restart. |
| Ranking.TitleLessIrreflexive | nest_top10_image_relay.py:93 | No title sorts before itself. |
| Ranking.TitleLessTransitive | nest_top10_image_relay.py:93 | Title order is transitive. |
| Ranking.TitleLessTotal | nest_top10_image_relay.py:93 | Any two different titles are ordered one way or the other. |
| Ranking.PrecedesIrreflexive | nest_top10_image_relay.py:91-94 | No entry sorts strictly before itself under (-play_count, title). |
| Ranking.PrecedesTransitive | nest_top10_image_relay.py:91-94 | The sort key's strict order is transitive. |
| Ranking.PrecedesAsymmetric | nest_top10_image_relay.py:91-94 | The sort key's strict order is asymmetric. |
| Ranking.PrecedesTotal | nest_top10_image_relay.py:91-94 | Any two entries tie on (play_count, title) or one sorts first. |
| Ranking.NotAfterTransitive | nest_top10_image_relay.py:91-94 | "Not sorted after" is transitive. |
| Ranking.Insert | nest_top10_image_relay.py:91-93 | Inserting adds exactly the one entry: the result is the input plus it, as a multiset. |
| Ranking.Sort | nest_top10_image_relay.py:91-93 | The sort is a permutation of the ledger's values. |
| Ranking.InsertSorted | nest_top10_image_relay.py:91-93 | Inserting into a sorted list keeps it sorted. |
| Ranking.SortSorted | nest_top10_image_relay.py:91-93 | The sort's output is ordered by play_count descending, then title ascending. |
| Ranking.Rank | nest_top10_image_relay.py:91-94 | The ranking has exactly min(10, number of entries) entries, all drawn from the ledger without duplication or invention. |
| Ranking.RankSorted | nest_top10_image_relay.py:91-94 | The ranking is ordered by play_count descending, then title ascending. |
| Ranking.RankIsTopK | nest_top10_image_relay.py:91-94 | No entry left out of the ranking sorts strictly before one that is in it. |
| Ranking.KeyClassAppend | nest_top10_image_relay.py:91-93 | Filtering by sort key distributes over concatenation. |
| Ranking.KeyClassInsert | nest_top10_image_relay.py:91-93 | Inserting puts the new entry first among the entries with its sort key. |
| Ranking.SortStable | nest_top10_image_relay.py:91-93 | Entries with equal (play_count, title) keep their document order through the sort. |
| Ranking.RankStable | nest_top10_image_relay.py:91-94 | The ranked entries of one sort key are the first of that key's entries in the document, in document order. |
| Ranking.SortTiesByTitle | nest_top10_image_relay.py:91-93 | Sorting [a:5, b:2, a':2] gives [a:5, a':2, b:2]. |
| Ranking.ScenarioTiesByTitle | nest_top10_image_relay.py:91-94 | The higher play_count ranks first. Ties on play_count rank by ascending title, whatever the document order. |
| Ranking.TopKeys | nest_top10_image_relay.py:96-99 | One `title::artist::album` key per ranked entry, rank by rank. |
| Ranking.ScenarioCountChangeKeepsKeys | nest_top10_image_relay.py:96-106 | A play_count change that does not reorder the ranking changes the ranking but not its key list, so nothing is republished. |
| ImageRelay.CachedImage | nest_top10_image_relay.py:129-157 | A rank's image changes only for a non-empty URL answered with status 200. A full response replaces the file. A stream that breaks leaves the part already written. |
| ImageRelay.StoreFetched | nest_top10_image_relay.py:129-157 | A fetch affects only its own rank's file, as `CachedImage` says. |
| ImageRelay.ServeTopImage | nest_top10_image_relay.py:58-65 | A rank outside 1..10 gives 400. A valid rank without a file gives 404. Otherwise the response is 200 with the cached bytes. |
| ImageRelay.FailedFetchServesStale | nest_top10_image_relay.py:129-157 | After an empty URL, an exception or a non-200 response, the image route answers for that rank exactly as before. |
| ImageRelay.RemoveSeries | nest_top10_image_relay.py:116-127 | Removing a label set drops only it. Removing an absent one leaves the gauge as it was. |
| ImageRelay.TopTenRelay.AtMostOneLabelSetPerRank | nest_top10_image_relay.py:116-163 | Each rank's gauge carries at most one label set. |
| ImageRelay.TopTenRelay.constructor | nest_top10_image_relay.py:39-52 | Every rank starts with no recorded labels and an empty gauge, with the image files already on disk. |
| ImageRelay.TopTenRelay.ApplyRank | nest_top10_image_relay.py:109-163 | One rank: the gauge ends with exactly the new label set at its play_count, previous_labels records it, and the image follows the fetch. No other rank changes. |
| ImageRelay.TopTenRelay.Apply | nest_top10_image_relay.py:108-163 | Every rank of the new ranking ends with exactly its label set at its play_count, recorded in previous_labels. Its image follows its own fetch, and a failed fetch stops nothing. Ranks beyond the ranking keep their labels, gauges and images. |
| ImageRelay.TopTenRelay.Tick | nest_top10_image_relay.py:86-106 | The walk runs iff the new key list differs from the previous one, and the key list is then recorded. With no change nothing else moves. A failed read of the document changes nothing. |
| ImageRelay.TickAgain | nest_top10_image_relay.py:96-106 | Once a tick has recorded a document's key list, ticking again on the same document reports no change and leaves the key list, the recorded labels, the gauges and the images as they were. |
| ImageRelay.RankOfLedger | nest_top10_image_relay.py:88-99 | Ranking a ledger's values gives min(10, number of keys) entries, each an entry of the ledger. When entries sit under their own keys, each ranked key leads back to its entry. |

## Left out

- Chromecast discovery, `cast.wait()` and the device lookup by name (`nest_exporter.py:68-87`) belong to the cast library and the network. The poll's outcome is an input.
- Flask serving, app start-up and the background-image route `serve_background_image` (`nest_top10_image_relay.py:68-73`) are HTTP plumbing. Only the rank decision of `serve_top_image` is modelled.
- Prometheus client internals (`_metrics.clear`, `labels`, `remove`, the HTTP exposition) are replaced by maps from label values to numbers.
- JSON reading and writing are abstract, and a stats document is a ledger. A malformed document at the exporter's start-up is not modelled: the load at `nest_exporter.py:60` has no fallback, and the exception ends the program. In the relay, the read at `nest_top10_image_relay.py:89` sits inside the loop's `try`, so a malformed document is caught at line 165. That case is `TopTenRelay.Tick` with `data == None`, which is modelled.
- A save that raises is modelled as leaving the stored document as it was. A real failure part-way through `json.dump` can leave a truncated file.
- The wait for the stats file to appear (`nest_top10_image_relay.py:77-82`) is a sleep loop on the filesystem. The relay starts with `lastTopKeys == []`.
- Threads, `time.sleep`, the environment and `.env` configuration, and `print` logging are scheduling and output only. One loop iteration is modelled per `Poll` or `Tick`.
- Entries are typed, so a document entry missing a field is not modelled separately. In the relay, any entry missing `title` or `play_count` raises in the sort key (line 93), and a ranked entry missing `artist` or `album` raises while the key list is built (line 97). Both happen before anything is recorded, so the tick is the `data == None` case. A missing `album_art_url` reads as "" (line 134), which is the empty-URL case of `CachedImage`.
- ImageRelay.CachedImage does not claim the image write is atomic: `BrokenStream` models a stream that fails after part of the file has been written.
- NestExporter.ExportPlayCounts: for a ledger whose entries are not stored under their own keys (a hand-edited document), it states which series exist but not which value wins. In the code, the last such entry in document order wins.
- The media status field `imageUrls` stands for `status.images`. A missing list is taken as empty, and an image is taken as its `url`.
