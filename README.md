# Instagram DM repost bot — decision logic, modelled and proved in Dafny

The repository holds many rewrites of an Instagram direct-message repost
bot. This model covers two of them, `repost_bot.py` and `bot.py`. Both read
the inbox, pick out shared reels and photos, and post them again from the
bot's account. The model covers the logic between the client library calls:

- `repost_bot.py`, class `InstagramRepostBot`:
  - `extract_shortcode_from_url`, a search with two regular expressions;
  - `extract_media_id_from_clip`, seven lookups tried in a fixed order;
  - `find_reels_in_messages`: the inbox scan, the precedence chain over
    share kinds, the candidate records, and the newest-first sort;
  - the visible part of `run`: the quota check and the failed-download
    bookkeeping;
  - the retry and backoff loop of `make_api_request`.
- `bot.py`, class `InstagramBot`:
  - the processed-messages file, capped at 1000 ids;
  - `is_repostable_content`;
  - the URL and caption choice of `repost_content`;
  - `process_messages`: ten messages per thread, a snapshot taken at the
    start, a save for every visited message, and a stop at five reposts.

Every library call is a parameter. Each one is a fixed but unspecified
function of its arguments:
- the shortcode and media lookups;
- the inbox fetch;
- the downloads and uploads;
- the request a retry loop repeats.

Python values are a datatype. It covers None, bools, ints, strings, lists,
and dicts as ordered association lists. Truthiness, `str()`, `in`,
iteration and hashing are modelled as Python defines them. An exception
that escapes `find_reels_in_messages` is a `Raised` outcome, because that
method has no `try`.

Files:

| file | module | what it models |
|---|---|---|
| py_values.dfy | `PyValues` | Python values and the built-ins the bot uses |
| shortcodes.dfy | `Shortcodes` | `extract_shortcode_from_url` and `re.search` |
| media_ids.dfy | `MediaIds` | `extract_media_id_from_clip` |
| reels.dfy | `Reels` | the candidate record and `reels.sort(..., reverse=True)` |
| repost_bot.dfy | `RepostBot` | `find_reels_in_messages`, `run`, the processed-id set |
| retry.dfy | `Retry` | `make_api_request` |
| dm_bot.dfy | `DmBot` | bot.py: the processed file, content choice, `process_messages` |

Behaviour of the code a reader may not expect:
- `find_reels_in_messages` does not skip a malformed item; the exception
  ends the scan. Examples are a non-dict item, an unhashable `item_id`, a
  non-dict `reel_share`, and a URL field of a clip holding a non-string.
- A `media_share` whose `media_type` is not 2 is still taken. The check on
  the type only guards a log line.
- Step 3 of the clip lookup needs a truthy id from the shortcode oracle;
  an id that is present but falsy does not win.
- The pruning of the processed-messages file keeps 1000 entries in the
  set's own iteration order, not the newest ones. The id just added can be
  the one dropped (`DmBot.PruneMayDropNewest`).

## Model

| member | source | states |
|---|---|---|
| PyValues.Lookup | repost_bot.py:427-429 | `key in d` fails exactly when no entry has the key; a hit returns the value of an entry with that key |
| PyValues.UpToUnderscore | repost_bot.py:429 | `s.split('_')[0]` is a prefix of s with no `_`, and it ends at the first `_` of s |
| PyValues.PyStr | repost_bot.py:429 | `str(v)` is v for a string, and it is empty only for the empty string |
| PyValues.Hash | repost_bot.py:655 | a list or dict is unhashable, and every other value hashes |
| PyValues.InSet | repost_bot.py:655 | `item_id in self.processed_ids` raises exactly for an unhashable id; for a hashable id it answers whether its hash is in the set |
| PyValues.KeyValue | bot.py:129 | the JSON value written for a set element hashes back to that element |
| Shortcodes.RunLength | repost_bot.py:375 | `[A-Za-z0-9_-]+` is greedy: the run is all id characters and ends at the text's end or a non-id character |
| Shortcodes.MatchAt | repost_bot.py:375-377 | a match anchored at a position captures a non-empty group |
| Shortcodes.MatchFromAlternative | repost_bot.py:375 | a match at i comes from an alternative that occurs at i, and captures the run after it |
| Shortcodes.NoMatchMeansNoRun | repost_bot.py:375 | no match at i means every alternative occurring at i is followed by no id character (the regex backtracks through `p`, `reel`, `tv`) |
| Shortcodes.SearchIsLeftmost | repost_bot.py:385 | `re.search` returns the group of the first position that matches, and None only when no position matches |
| Shortcodes.ExtractShortcodeFromUrl | repost_bot.py:361-393 | an empty or None URL gives None; a truthy non-string raises and a string never does; None exactly when neither pattern matches anywhere; otherwise the leftmost instagram.com match, or, when that pattern matches nowhere, the leftmost instagr.am match |
| Shortcodes.MatchIsRunAfterPrefix | repost_bot.py:385-389 | a captured group is a non-empty maximal identifier run directly after one of the pattern's literals |
| Shortcodes.ShortcodeFollowsPrefix | repost_bot.py:361-393 | every shortcode returned is a non-empty maximal run of `[A-Za-z0-9_-]` right after `instagram.com/p/`, `/reel/`, `/tv/` or `instagr.am/p/` |
| Shortcodes.InstagramPatternTriedFirst | repost_bot.py:383-389 | an instagram.com link anywhere in the URL decides the result, even when an instagr.am link stands before it |
| MediaIds.FirstPresentField | repost_bot.py:475-483 | nested lookup: None exactly when no field is present; otherwise the first present field's value, as `str` and cut at the first `_` |
| MediaIds.UrlFieldsIdFirstHit | repost_bot.py:489-507 | URL lookup: None exactly when every URL field misses; otherwise the first field that is truthy and (as a string) holds a shortcode with a truthy oracle id decides: it raises when that field is not a string, else gives the oracle's id for its shortcode |
| MediaIds.IdLikeScan | repost_bot.py:525-533 | generic key scan: None exactly when no entry has an id-like key and a str or int value; otherwise the first such entry's value, as `str` and cut at the first `_` |
| MediaIds.ExtractMediaIdFromClip | repost_bot.py:417-539 | a non-dict raises; each of the seven lookups decides when every earlier one found nothing: `id` split at `_`, `pk` as `str`, the oracle id of a truthy `code`, the nested media's fields, the URL fields, `fbid` as `str`, the id-like key scan; None exactly when none finds anything; the only other exception is a truthy non-string URL field; an id from lookups 1, 4 or 7 contains no `_` |
| MediaIds.PkIdKeepsUnderscore | repost_bot.py:439-445 | a `pk` id is returned as `str(pk)` without the `_` split of lookup 1 |
| RepostBot.ClipUrlFallback | repost_bot.py:735-757 | the fallback over `clip_data.items()` gives a non-empty id, and None exactly when no value is a resolvable Instagram URL |
| RepostBot.FallbackTakesFirstHit | repost_bot.py:737-751 | the fallback's id is that of the first hit in dict order (the `break`) |
| RepostBot.ReelShareId | repost_bot.py:675-679 | `reel_share.get('media', {}).get('id')`: raises for a non-dict share or media; a missing media gives None; otherwise the media's `id` or None |
| RepostBot.MediaShareId | repost_bot.py:695-697 | `media_share.get('id')`: raises for a non-dict share; otherwise the `id` entry or None |
| RepostBot.ClipId | repost_bot.py:713-757 | the clip branch succeeds only on a dict and raises exactly when the lookups raise; a truthy lookup id is taken, otherwise the URL fallback's; an id it gives is non-empty |
| RepostBot.LinkId | repost_bot.py:765-781 | `link_url or url`: a non-dict link raises, a falsy URL gives nothing, a string URL never raises; a truthy non-string raises exactly when the host test does not answer False (its `in` raises, or the regex search of a list or dict naming a host does); an id is recorded exactly for an Instagram URL holding a shortcode, and it is the oracle's answer for that shortcode |
| RepostBot.Classify | repost_bot.py:673-781 | no share field gives no share; the first truthy share field decides: a reel or media share gives its `id`, a clip its `ClipId` or a skip, a link its `LinkId` or nothing, and an exception in that branch is the item's exception |
| RepostBot.OnlyFirstShareFieldMatters | repost_bot.py:673-763 | two items agreeing on their first truthy share field and its value classify alike, whatever their other share fields hold |
| RepostBot.ClipSkippedExactly | repost_bot.py:723-757 | a clip item is skipped exactly when neither the lookups nor the URL fallback give a truthy id |
| RepostBot.ItemStep | repost_bot.py:643-831 | a non-dict item raises; a falsy or already processed `item_id` gives no record; a truthy unhashable one raises; an unprocessed item raises exactly when its classification does, and gives a record exactly when its share has a truthy media id; a record is admitted, carries the item's hash, the share's kind and `item.get('timestamp', 0)`, and is verified exactly when the media lookup knows the id, with the lookup's id, type and code, or else the id as `str` and type 2 |
| RepostBot.ScanItemsAdmits | repost_bot.py:643-831 | the item loop appends only admitted records |
| RepostBot.ScanThreadsAdmits | repost_bot.py:635-831 | the thread loop appends only admitted records |
| RepostBot.CollectedAdmits | repost_bot.py:625-831 | every record of the unsorted list is admitted: an unprocessed truthy item id, verified details from the lookup or media type 2 |
| RepostBot.SortKeepsAdmitted | repost_bot.py:837 | sorting keeps every record admitted |
| RepostBot.FindReels | repost_bot.py:621-841 | empty or None threads give `[]`; every record is admitted; the list is newest first, a permutation of the records found, with equal timestamps in the order found; it raises exactly when the scan raises or the timestamps cannot be compared |
| RepostBot.FirstDownloaded | repost_bot.py:1211-1237 | the index of the first record whose download gives a path; every earlier download failed |
| RepostBot.FirstDownloadedAt | repost_bot.py:1211-1237 | the first success is at i when every download before i failed and the one at i succeeds |
| RepostBot.InstagramRepostBot.constructor | repost_bot.py:115-121 | the processed ids start as the loaded set |
| RepostBot.InstagramRepostBot.SaveProcessedIds | repost_bot.py:145-151 | the file holds the processed ids; the ids are unchanged |
| RepostBot.InstagramRepostBot.ScanItem | repost_bot.py:643-831 | the item loop body, step by step, equals `ItemStep` and changes nothing |
| RepostBot.InstagramRepostBot.ClipFallback | repost_bot.py:735-757 | the mutating loop over `clip_data.items()` finds a truthy id exactly when `ClipUrlFallback` does, and the same one |
| RepostBot.InstagramRepostBot.FindReelsInMessages | repost_bot.py:621-841 | the nested loops and the sort compute `FindReels` and never modify the processed ids |
| RepostBot.InstagramRepostBot.Run | repost_bot.py:1147-1247 | no login stops at once; no threads or no records save and return before any download; a failed scan changes nothing; otherwise the processed ids gain the ids of the failed downloads before the first success, and the result names that success; the processed set only grows |
| RepostBot.InstagramRepostBot.RepostLoop | repost_bot.py:1209-1237 | downloads are tried in list order; each failure adds its item id to the processed set; the loop ends at the first success |
| Reels.InsertPermutes | repost_bot.py:837 | inserting a record adds exactly that record |
| Reels.InsertKeepsOrder | repost_bot.py:837 | inserting into a newest-first list keeps it newest first |
| Reels.InsertIsStable | repost_bot.py:837 | the inserted record follows every record with the same timestamp |
| Reels.SortIsStableNewestFirst | repost_bot.py:837 | the sort is newest first, a permutation, and stable |
| Reels.SortNewestFirst | repost_bot.py:837 | `reels.sort(key=..., reverse=True)` raises exactly for two or more records whose timestamps are neither all numbers nor all strings; otherwise it returns a newest-first, stable permutation |
| Reels.IntTimestampsNonIncreasing | repost_bot.py:805-837 | with int timestamps the sorted list is non-increasing |
| Retry.Backoff | repost_bot.py:281-287 | the waits after the first n failures are 1, 2, 4, and so on |
| Retry.BackoffTotal | repost_bot.py:281-287 | after n failures the waits total 2^n - 1 seconds |
| Retry.WorstCaseWait | repost_bot.py:267-293 | four waits total 15 seconds, and fewer than five waits, all a request can make, never total more |
| Retry.MakeApiRequest | repost_bot.py:267-293 | 1 to 5 calls; every call but the last raised; the response is the last call's exactly when it returned; None only after 5 failures; the waits are `2**k` after failure k, none after the fifth |
| DmBot.LoadProcessed | bot.py:108-116 | no file, an unreadable file, a non-iterable value or an unhashable element all give the empty set |
| DmBot.Encode | bot.py:129 | `json.dump(list(...))` writes one value per id, and each hashes back to its id |
| DmBot.StoredSetRoundTrip | bot.py:113-129 | loading a file written from a list gives back that list's set |
| DmBot.Prune | bot.py:125-126 | `list(processed)[-1000:]` is the last `min(n, 1000)` entries, in order |
| DmBot.PruneKeepsLast | bot.py:124-126 | pruning a list of distinct ids adds none and keeps `min(n, 1000)` of them |
| DmBot.PruneMayDropNewest | bot.py:124-126 | beyond 1000 ids, some listing order of the set drops the id just added |
| DmBot.InstagramBot.constructor | bot.py:23-29 | the bot starts on the given processed file |
| DmBot.InstagramBot.SaveProcessedMessage | bot.py:118-131 | the stored set becomes a subset of the old set plus the id, with `min(|old ∪ {id}|, 1000)` entries, and equal to that union when it fits |
| DmBot.IsRepostableContent | bot.py:133-155 | `clip_media` first, as a reel with that media; then `visual_media`, as a photo with that media; then the `media_share` itself, as a reel when it has a truthy `video_url`, else as a photo when it has a truthy `thumbnail_url`; None exactly when none applies; the media returned is truthy |
| DmBot.FirstCandidateUrl | bot.py:178-181 | `image_versions2.get('candidates', [])[0].get('url')`: a non-dict raises; a missing or empty candidates value gives None; a truthy non-list, or a first candidate that is not a dict, raises; otherwise the first candidate's `url` |
| DmBot.UploadRequest | bot.py:157-190 | the caption is the text or `"📱 Shared via DM"`; a reel needs a truthy `video_url` and uploads it; a present `thumbnail_url` decides a photo's URL however empty it is; a URL uploaded is truthy |
| DmBot.RepostContent | bot.py:157-197 | a reel returns True exactly when `video_url` is truthy and its upload returns; a photo with a `thumbnail_url` attribute exactly when it is truthy and its upload returns, so an empty one gives False; a photo without it uploads the first version candidate's URL; the caption is the text or the default |
| DmBot.SharedMediaHasUploadUrl | bot.py:145-190 | a `media_share` classified as repostable always reaches an upload call |
| DmBot.FirstMessages | bot.py:212 | the first `min(n, 10)` messages of a thread, in order |
| DmBot.ThreadsFoldVisitsVisible | bot.py:209-212 | the nested loops visit exactly the first ten messages of each thread, in order |
| DmBot.StepSaves | bot.py:213-247 | one visit saves exactly the message's id when it is outside the snapshot, and keeps the count under the limit or stops at it |
| DmBot.MessagesFoldSaves | bot.py:212-247 | over any run of messages, only ids outside the snapshot are saved, the limit holds, and unless the loop stopped every such id is saved |
| DmBot.ProcessedMessagesSaved | bot.py:199-250 | at most 5 reposts, exactly 5 when it stops; only visible ids outside the snapshot are saved; without a stop every one of them is saved, reposted or not |
| DmBot.InstagramBot.ProcessMessages | bot.py:199-254 | a failed fetch returns 0 and changes nothing; otherwise the count is that of the message fold over the snapshot, and the file holds at most the old ids plus the saved ones, all of them while that fits in 1000 |
| DmBot.InstagramBot.VisitThread | bot.py:212-247 | the inner loop over a thread's messages computes the message fold, stops at the limit, and keeps the file tracking the saved ids |
| DmBot.InstagramBot.TryRepost | bot.py:220-230 | the `try` body reposts exactly when the message classifies and `repost_content` returns True |
| DmBot.InstagramBot.VisitMessage | bot.py:213-247 | the loop body makes exactly the step of the message fold, and the file keeps tracking the saved ids |
| DmBot.InstagramBot.SaveOne | bot.py:232-243 | one `save_processed_message` call keeps the file tracking the saved ids |

Pure definitions that carry no contract of their own, each with the rows
that state its meaning:
- `Shortcodes.Search` (the `re.search` at repost_bot.py:385):
  `SearchIsLeftmost`, `ExtractShortcodeFromUrl`.
- `MediaIds.UrlFieldsId` (lookup 5): `UrlFieldsIdFirstHit`,
  `ExtractMediaIdFromClip`.
- `RepostBot.FirstShare` (the elif chain over share fields): `Classify`,
  `OnlyFirstShareFieldMatters`.
- `RepostBot.MentionsInstagram` (the host test of the clip fallback and the
  link branch), `FallbackHit` and `FallbackId` (one entry of the fallback):
  `ClipUrlFallback`, `FallbackTakesFirstHit`, `ClipSkippedExactly`,
  `LinkId`.
- `RepostBot.LinkUrl`: `LinkId`. `RepostBot.Unprocessed` and
  `MakeCandidate`: `ItemStep`.
- `RepostBot.ThreadItems` (`thread.get('items', [])`), `ScanItems`,
  `ScanThreads`, `Collected`: `ScanItemsAdmits`, `ScanThreadsAdmits`,
  `CollectedAdmits`, `FindReels`, `FindReelsInMessages`.
- `DmBot.PhotoUrl`: `UploadRequest`, `RepostContent`.
- `DmBot.MessageId` (`str(message.id)`), `CaptionOf` (the message text as
  caption), `Reposted`: `TryRepost`, `StepSaves`, `VisitMessage`.
- `DmBot.Visible` (the first ten messages of every thread), `MessageStep`,
  `Record`, `MessagesFold`, `ThreadsFold`: `ThreadsFoldVisitsVisible`,
  `StepSaves`, `MessagesFoldSaves`, `ProcessedMessagesSaved`,
  `VisitThread`, `VisitMessage`, `ProcessMessages`.
- `Reels.Sort`, `Insert`: the `Reels` lemmas.
- `PyValues.Truthy`, `Iterate`, `Contains`: the contracts of every row that
  tests a value.

## Left out

- Login, sessions, two-factor challenges and the credential check (repost_bot.py:185-259, bot.py:34-106): they are library calls. `Run` takes the login result as a parameter.
- The library-backed lookups and transfers are parameters: fixed but unspecified functions of their arguments. So the URL fallback of the clip branch, which can ask the shortcode oracle again about a shortcode the URL lookup already failed on, gets the same answer, and two downloads with the same id and type succeed or fail alike. A real service could answer differently on a second call; the model does not capture that. The parameters are `shortcode_to_media_id`, `get_media_info_by_any_id`, `get_direct_messages`, `download_media`, `upload_reel`, `direct_threads`, and the `*_upload_by_url` calls.
- Delays, randomness and user-agent rotation (`random_delay`, `rotate_user_agent`, `time.sleep`, `random.uniform`): `make_api_request` records its waits instead of sleeping.
- Logging, the pip auto-install, `DOWNLOADS_DIR.mkdir`, and errors while writing a file. A write always succeeds.
- repost_bot.py past line 1247, where the file ends inside the upload branch of `run`. The model stops at the first successful download and returns `UploadReached`. The `except` that matches the `try` at line 1169 is not in the text: `ScanFailed` stands for "the exception left the scan".
- RepostBot.InstagramRepostBot.RepostLoop: `processed_count` is never incremented in the visible code. The quota test is modelled, but it can never fire, so no run reaches `QuotaReached`.
- The file formats of repost_bot.py's `load_processed_ids` and `save_processed_ids`: the processed ids are an abstract set, loaded when the bot is built.
- bot.py `run` and `login_with_retry`: they are the driver and login code.
- PyValues.PyStr: `repr` does not escape quotes or special characters inside strings.
- PyValues.LowerAscii: only ASCII letters are lowered.
- Floats are not values. Lists, dicts and None as timestamps are treated as incomparable. Python compares two lists element by element; the model makes the sort raise instead.
- Dict keys are taken to be distinct, as decoded JSON has them; a lookup takes the first entry.
- Python's set iteration order is unspecified. `SaveProcessedMessage` picks some listing of the set, and the contracts hold for every listing. `PruneMayDropNewest` states what the choice can lose.
- Objects of the client library (messages, media, threads) are attribute maps: `hasattr` is key presence. A thread's `messages` is a list.
