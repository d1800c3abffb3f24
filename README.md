# Media-caching backend: download queue, quality normaliser and cache rules

This project is a Dafny model of the core of a FastAPI backend. The backend
searches YouTube, describes videos and playlists, caches what it learns in a
Supabase database, and queues downloads. The model covers three parts.

- **`Downloads`: the download manager** (`download_manager.dfy`).
  - The model is a class holding the manager's fields:
    - the `_running` flag;
    - the FIFO work queue and its count of tasks not yet marked done;
    - the `active_downloads` registry of keys `"<video_id>_<quality_tag>"`;
    - the workers;
    - the free permits of the semaphore.
  - Each stretch of `add_download`, `_worker`, `_download_file`, `start` and `shutdown` that runs between two `await`s is one atomic method.
  - Every method keeps the class invariant `Valid`. It says:
    - the registry is exactly the set of keys of the tasks queued or executing;
    - no key is in flight twice;
    - the queue's counter counts both;
    - the semaphore's free permits are what the executing workers leave over.
  - The bundled script at the end of the source file is replayed as a method with a proved outcome.
- **`YoutubeService`: the service layer** (`yt_service.dfy`).
  - The URL builders and their inverses.
  - The `max_results` clamps and the search terms handed to yt-dlp.
  - The result comprehensions of the three searches, including the shorts filter.
  - The quality-tier normaliser, which picks, for each tier, the first raw format whose `format_note` contains the tier's label.
  - The audio size adjustment.
  - `_extract_thumbnail`.
  - The cache-or-fetch logic of `get_video_info` and `get_playlist_info`. Here the cache lookup, the extractor's answer and the store's answer are inputs.
- **`Database`: the database manager's rules** (`database_manager.dfy`). Tables are sequences of rows, and a query's `.eq` filter is a filter over those rows. The model covers:
  - the `is_cached` flags of `get_video`;
  - the access-count increment of `get_cached_format`;
  - the required-field validation of `store_cached_format`;
  - the user-plan merges `{**user_plan, **plan_without_id}` (Dafny's right-biased map `+`);
  - the integer statistics of `get_cache_stats`;
  - the guards of `cleanup_expired_cache`, including the cutoff date's range.

`Enums` (`enums.dfy`) holds the two tier enumerations the normaliser walks. `Common` (`common.dfy`) holds the shared vocabulary:
- Python values as they travel in dicts and rows;
- truthiness, `dict.get`, the blank-string test `not s or not s.strip()`, and `in` on strings, lists and dicts;
- `Option`, and `Result` carrying an `ApiError(status, code)`.

Collaborators become inputs:
- what yt-dlp reports, with None when it raises;
- the rows a Supabase query returns, or the failure it raises (a postgrest `APIError` or any other exception);
- whether a download succeeded;
- the current UTC date `cleanup_expired_cache` reads from the clock.

Error handling follows the source's `try`/`except` structure. An `ApiError` raised inside a `try` whose only handlers are `except APIError` (postgrest's) and `except Exception` is caught by the second. It leaves as 500 `UNEXPECTED_ERROR`.

Two raises are hit by this. They get both an as-written and a corrected member (see "## Findings"):
- the STORAGE_FAILED raise of `store_cached_format`: `Database.StoreCachedFormatAsWritten` and `Database.InsertReplyAsWritten` as written; `Database.StoreCachedFormat` and `Database.InsertReply` corrected;
- the USER_PLAN_NOT_FOUND and PLAN_NOT_FOUND raises of `get_user_plan`: `Database.GetUserPlanAsWritten` as written; `Database.GetUserPlan` corrected.

The corrected members let those errors pass through, and the rest of the model uses them.

## Model

| member | source | states |
|---|---|---|
| Enums.VideoListIsExact | server/app/enums/video_qualities.py:4-16 | `VideoQuality.list()` is exactly 144p, 240p, 360p, 480p, 720p, 1080p, 1440p, 2160p, Premium, in declaration order |
| Enums.VideoListDistinct | server/app/enums/video_qualities.py:4-12 | there are nine video values and they are pairwise distinct |
| Enums.ResolutionsAreHeights | server/app/enums/video_qualities.py:4-11 | the first eight labels are a decimal height followed by `p`, the heights being 144 … 2160 |
| Enums.HeightOf | server/app/enums/video_qualities.py:4-11 | the i-th resolution label reads as the i-th height |
| Enums.VideoTiersIncrease | server/app/enums/video_qualities.py:4-12 | the resolution tiers strictly increase along the list and `Premium`, which has no resolution, is the last tier |
| Enums.VideoLabelsSubstringFree | server/app/enums/video_qualities.py:4-12 | no video label occurs inside another (e.g. 144p inside 1440p), so matching by substring cannot confuse two tiers |
| Enums.AudioListIsExact | server/app/enums/audio_qualities.py:4-10 | `AudioQuality.list()` is exactly low, medium, high, in declaration order |
| Enums.ValuesOf | server/app/enums/video_qualities.py:14-16 | the comprehension `[quality.value for quality in cls]` lists each member's value, one per member, in member order |
| Enums.AudioListDistinct | server/app/enums/audio_qualities.py:4-6 | there are three audio values and they are pairwise distinct |
| Enums.HighIsLastAudioTier | server/app/enums/audio_qualities.py:6 | the last audio tier, the one `audio_qualities[-1]` reads, is `high` |
| Enums.AudioLabelsDisjointAndSubstringFree | server/app/enums/audio_qualities.py:4-6 | no audio label equals a video label and no audio label occurs inside another |
| Downloads.DownloadKeyParts | server/app/utils/download_manager.py:99 | the key is the video id, one `_`, then the quality tag |
| Downloads.DownloadKeyNotInjective | server/app/utils/download_manager.py:35 | two different pairs, ("a_b","c") and ("a","b_c"), share one key |
| Downloads.DownloadKeyInjectiveForEqualIdLength | server/app/utils/download_manager.py:99-103 | for video ids of equal length two submissions have the same key iff they have the same id and tag |
| Downloads.DownloadManager.constructor | server/app/utils/download_manager.py:15-24 | a positive `max_workers` yields a valid, stopped manager with an empty queue, an empty registry, no workers and a semaphore of `max_workers` permits |
| Downloads.DownloadManager.Create | server/app/utils/download_manager.py:15-24 | construction fails iff `max_workers <= 0`; otherwise the new manager is as the constructor states |
| Downloads.DownloadManager.ExecutingBounded | server/app/utils/download_manager.py:62-74 | under the invariant at most `max_workers` tasks execute at once, and a stopped manager has nothing in flight |
| Downloads.DownloadManager.GateNeverBlocks | server/app/utils/download_manager.py:66-67 | a worker waiting at `queue.get()` always finds a free semaphore permit, since there are as many permits as workers |
| Downloads.DownloadManager.Start | server/app/utils/download_manager.py:76-81 | starting a running manager changes nothing; starting a stopped one sets it running with `max_workers` waiting workers and leaves the queue and registry alone |
| Downloads.YdlOptions.AddHook | server/app/utils/download_manager.py:107-108 | the hook is appended to `progress_hooks`, which starts as an empty list when absent; the other options are untouched |
| Downloads.DownloadManager.AddDownload | server/app/utils/download_manager.py:94-119 | keeping the invariant, a submission is accepted iff the manager runs and its key is not registered; acceptance registers the key, appends exactly this task to the back of the queue and appends the hook to `progress_hooks` (creating the list if absent); a refusal changes nothing |
| Downloads.DownloadManager.BeginDownload | server/app/utils/download_manager.py:62-68 | a waiting worker with a non-empty queue takes the front task and one permit; otherwise nothing changes; the registry is untouched |
| Downloads.DownloadManager.FinishDownload | server/app/utils/download_manager.py:56-69 | whether the download succeeded or raised, finishing removes exactly the task's key from the registry, returns the permit, marks the task done and leaves the queue alone |
| Downloads.DownloadManager.Shutdown | server/app/utils/download_manager.py:83-92 | a stopped manager is left as it is; a running one stops and cancels its workers only once nothing is unfinished, and otherwise keeps running (the `join` still waits) |
| Downloads.RunUntilIdle | server/app/utils/download_manager.py:62-74 | one worker taking and finishing every queued task drains the queue and empties the registry |
| Downloads.Submit | server/app/utils/download_manager.py:94-119 | a hookless submission to a running manager is accepted iff its key was free, and the key is registered afterwards either way |
| Downloads.SubmitFirstVideo | server/app/utils/download_manager.py:125-137 | of 1080p, 1080p again and 720p of one video, the repeated 1080p is refused and the others accepted |
| Downloads.SubmitSecondVideo | server/app/utils/download_manager.py:138-146 | a second video's 480p and `medium` requests are both accepted |
| Downloads.BundledScript | server/app/utils/download_manager.py:122-157 | the script's five requests are answered accepted, refused, accepted, accepted, accepted, and its shutdown completes |
| Downloads.DrainAndShutdown | server/app/utils/download_manager.py:83-92 | once a worker has drained the queue, `shutdown` completes with the manager stopped and the registry empty |
| Downloads.SubmitThenStart | server/app/utils/download_manager.py:76-97 | a submission before `start` is refused; after `start` the manager runs with `max_workers` waiting workers and nothing in flight |
| Downloads.StopThenSubmit | server/app/utils/download_manager.py:83-97 | after the queue has drained and `shutdown` has returned, a submission is refused |
| Downloads.SubmitDuringDrain | server/app/utils/download_manager.py:83-97 | a submission before `start` is refused, one made while `shutdown` waits for the queue is accepted, and one after shutdown has returned is refused |
| YoutubeService.AfterPrefix | server/app/services/yt_service.py:580-614 | a URL is parsed back iff it starts with the prefix, and then it is the prefix followed by the result |
| YoutubeService.UrlsRoundTrip | server/app/services/yt_service.py:580-614 | parsing a built watch, playlist, shorts or thumbnail URL gives back its id |
| YoutubeService.UrlsFromIds | server/app/services/yt_service.py:580-614 | every URL that parses is the one built from the parsed id |
| YoutubeService.UrlKindsDisjoint | server/app/services/yt_service.py:580-614 | watch, playlist and shorts URLs never coincide |
| YoutubeService.ShortUrlPassesShortsFilter | server/app/services/yt_service.py:604-614 | every URL `get_short_video_url` builds passes the shorts filter's `"/shorts/" in url` test |
| YoutubeService.ClampMaxResults | server/app/services/yt_service.py:194 | the clamp lies in [1, limit], keeps any value already inside, maps values below 1 to 1 and values above the limit to the limit |
| Common.DecimalRoundTrip | server/app/services/yt_service.py:210 | the decimal rendering of the count in the search term reads back as the count |
| YoutubeService.SearchTermsBounded | server/app/services/yt_service.py:194-267 | the video search term is `ytsearch<n>:<query>` with n in [1,50]; the shorts term is `ytsearch<n>:<query> #shorts` with n in [11,60], ten more than the clamp |
| YoutubeService.FirstMatch | server/app/services/yt_service.py:448 | the `next(...)` scan finds the first format whose `format_note` contains the tier label, and None only when none does |
| YoutubeService.SelectTiersOrdered | server/app/services/yt_service.py:445-458 | the chosen tiers are an order-preserving subsequence of the tier list |
| YoutubeService.TierEntryListed | server/app/services/yt_service.py:449-455 | one tier's step contributes exactly that tier, and only when some format's `format_note` contains its label |
| YoutubeService.SelectTiersListed | server/app/services/yt_service.py:445-458 | a tier is chosen iff it is in the list and some format's `format_note` contains its label |
| YoutubeService.SelectTiersSizes | server/app/services/yt_service.py:445-458 | each chosen tier's size is the first matching format's `filesize`, 0 when absent |
| YoutubeService.SelectTiersDistinct | server/app/services/yt_service.py:445-458 | no tier is chosen twice when the tier list is distinct |
| YoutubeService.SelectTiersLastIsHighest | server/app/services/yt_service.py:460-473 | the last chosen tier is the highest tier offered |
| YoutubeService.HighAudioIsLast | server/app/services/yt_service.py:423-424 | with `high` offered, `audio_qualities[-1]` is the `high` entry |
| YoutubeService.ExtractVideoQualities | server/app/services/yt_service.py:445-458 | the loop produces the selection over `VideoQuality.list()` |
| YoutubeService.ExtractAudioQualities | server/app/services/yt_service.py:460-473 | the loop produces the selection over `AudioQuality.list()` |
| YoutubeService.WithAudioSize | server/app/services/yt_service.py:423-424 | every video size grows by the last audio entry's size (by nothing without audio), formats and order unchanged |
| YoutubeService.AddAudioSize | server/app/services/yt_service.py:423-424 | the in-place loop over the video list computes that adjustment |
| YoutubeService.AudioSizeExample | server/app/services/yt_service.py:423-424 | audio 500 turns videos of 1000 and 2000 into 1500 and 2500 |
| YoutubeService.AudioSizeKeepsFormats | server/app/services/yt_service.py:423-424 | the adjustment keeps the formats and, without audio, the whole list |
| YoutubeService.FirstUrlNone | server/app/services/yt_service.py:568-578 | the thumbnail is "" when no element is a dict with a truthy `url` |
| YoutubeService.FirstUrlAt | server/app/services/yt_service.py:574-576 | otherwise it is the `url` of the first element that is a dict with a truthy `url` |
| YoutubeService.ExtractThumbnail | server/app/services/yt_service.py:568-578 | the scanning loop with its early return computes that thumbnail, "" for an empty or non-list input |
| YoutubeService.BestThumbnailTruthyOrEmpty | server/app/services/yt_service.py:568-578 | the thumbnail is "" or a truthy value |
| YoutubeService.FirstUrlIndex | server/app/services/yt_service.py:574-576 | a non-empty result comes from an element with a truthy url preceded only by elements without one |
| YoutubeService.SearchRow | server/app/services/yt_service.py:216-227 | an entry gives a row iff it is a dict with a string id; the row names the id, its thumbnail URL, the entry's url and an upload date defaulting to "" |
| YoutubeService.SearchRows | server/app/services/yt_service.py:216-227 | the comprehension succeeds iff every entry gives a row, and then maps the entries one to one |
| YoutubeService.SearchVideos | server/app/services/yt_service.py:176-231 | MISSING_QUERY iff the query is blank; otherwise a failed search is SEARCH_ERROR, and the call succeeds iff the search answers with list `entries` (default []) that all give rows; then the result is one row per entry, in order |
| YoutubeService.SearchThumbnailsMatchIds | server/app/services/yt_service.py:220 | every search row's thumbnail URL names that row's own video id |
| YoutubeService.ShortsTest | server/app/services/yt_service.py:273-275 | the test fails iff the entry is not a dict or its `url` is None, a bool or an int; it holds iff the `url` is a string containing "/shorts/", a list holding that string or a dict with that key |
| YoutubeService.ShortsOnlyKeepsPassing | server/app/services/yt_service.py:273-275 | the filter keeps, in order, exactly the entries whose url contains "/shorts/", each as often as in the input |
| YoutubeService.SearchShorts | server/app/services/yt_service.py:233-288 | MISSING_QUERY iff the query is blank; a failed search is SEARCH_ERROR; the call succeeds iff the search answers, the filter applies to every entry and the first `min(clamp, kept)` kept entries give rows; then the result is exactly those rows, in order |
| YoutubeService.ShortsAreShorts | server/app/services/yt_service.py:273-285 | every shorts row comes from a search entry whose url contains "/shorts/" |
| YoutubeService.PlaylistHit | server/app/services/yt_service.py:336-344 | an entry gives a playlist row iff it is a dict; the row carries the entry's id and a thumbnail |
| YoutubeService.PlaylistHits | server/app/services/yt_service.py:336-344 | the comprehension succeeds iff every entry is a dict, and then maps them one to one |
| YoutubeService.SearchPlaylists | server/app/services/yt_service.py:290-348 | MISSING_QUERY iff the query is blank; a failed search is SEARCH_PROCESS_ERROR; falsy `entries` give []; otherwise the call succeeds iff every entry is a dict, giving one playlist row per entry in order; the search asks for the clamp to 20 |
| YoutubeService.VideoRecordNamesVideo | server/app/services/yt_service.py:408-426 | the stored video record carries the requested id, the adjusted video qualities and the audio qualities |
| YoutubeService.VideoQualitiesListed | server/app/services/yt_service.py:421-426 | the record's video qualities are exactly the offered video tiers, in order, with no tier twice, and likewise for audio |
| YoutubeService.GetVideoInfo | server/app/services/yt_service.py:351-443 | a blank id is INVALID_ID with nothing fetched; a cache error passes through; a non-empty cache hit is returned with no extraction and no store; otherwise the watch URL is extracted, a failure is EXTRACTION_ERROR, no formats NO_FORMATS with nothing stored, and else the record with adjusted sizes is stored and returned, a falsy store answer being STORAGE_ERROR |
| YoutubeService.EntryVideoId | server/app/services/yt_service.py:537-538 | a playlist entry yields an id iff it is a dict whose `id` (default "") is a string |
| YoutubeService.PlaylistVideosShape | server/app/services/yt_service.py:535-551 | the videos are one row per truthy entry, each with its own id and thumbnail URL, and the list fails iff some truthy entry has no string id |
| YoutubeService.PlaylistVideosPrefix | server/app/services/yt_service.py:535-551 | the videos of a prefix of the entries are a prefix of all the videos |
| YoutubeService.PlaylistVideosAt | server/app/services/yt_service.py:535-551 | a truthy entry contributes the video row of its own id and fields, at the position counting the truthy entries before it |
| YoutubeService.PlaylistThumbnailIsFirstVideos | server/app/services/yt_service.py:540-541 | whenever entry 0 is truthy the playlist thumbnail is the first video's thumbnail, whatever yt-dlp reported |
| YoutubeService.GetPlaylistInfo | server/app/services/yt_service.py:475-566 | the same cache-or-fetch cases as for videos; the record counts every entry in `total_videos`, null ones included, and lists the non-null ones in order |
| YoutubeService.PlaylistVideosPrefixFails | server/app/services/yt_service.py:535-551 | a bad entry early in the list makes the whole list fail, so the loop may stop there |
| Database.Handled | server/app/db/database_manager.py:474-487 | a postgrest failure becomes 500 DATABASE_ERROR and any other 500 UNEXPECTED_ERROR |
| Database.Where | server/app/db/database_manager.py:430-432 | the `.eq` filter keeps, in order, exactly the rows whose column equals the value |
| Database.WhereOrdered | server/app/db/database_manager.py:430-432 | the `.eq` answer is an order-preserving subsequence of the table |
| Database.WhereCounts | server/app/db/database_manager.py:430-432 | a matching row occurs in the answer exactly as often as in the table, and no other row occurs |
| Database.FirstWhereSpec | server/app/db/database_manager.py:214-228 | the lookup `response.data[0]` of an `.eq` select is None iff no row matches, and otherwise the row at the first matching index |
| Database.WhereHead | server/app/db/database_manager.py:214-228 | the `.eq` answer is empty iff that lookup finds nothing, and its head is the row the lookup finds |
| Database.WhereFirst | server/app/db/database_manager.py:434-438 | the first row of a non-empty answer is the first matching row of the table |
| Database.HasTag | server/app/db/database_manager.py:448-465 | a quality is cached iff some cached-format row carries its tag |
| Database.FlaggedMeaning | server/app/db/database_manager.py:440-465 | every quality keeps its fields and gets `is_cached`, true iff a cached row has tag `<prefix>` followed by `str()` of its `format` (default ""); a list or dict format counts as uncached |
| Common.PyStr | server/app/db/database_manager.py:457-463 | `str()` gives a string back as it is and an int as decimal digits that read back as its value, with a leading `-` when negative; it is defined for every value but lists and dicts |
| Database.IntFormatIsCached | server/app/db/database_manager.py:457-460 | a quality whose `format` is the integer 720 is cached by a `video_720` row and not by a `video_72` row |
| Database.FlaggedWithoutFormats | server/app/db/database_manager.py:467-469 | when no cached formats are known every flag is false, whatever the prefix |
| Database.ClearFlags | server/app/db/database_manager.py:440-445 | the loop sets every flag to false |
| Database.SetFlags | server/app/db/database_manager.py:448-465 | the loop sets the flags by the cached tags |
| Database.ClearThenSet | server/app/db/database_manager.py:440-465 | clearing and then setting gives the flags setting alone gives |
| Database.FlaggedVideoKeepsFields | server/app/db/database_manager.py:440-465 | the flagged record keeps every field other than the two quality lists, and no key is added |
| Database.GetVideo | server/app/db/database_manager.py:409-487 | a blank id is INVALID_VIDEO_ID; a failed select is handled; no row gives None; else the first row with flags from that video's cached formats, all false when reading them raises |
| Database.WhereTwiceEmpty | server/app/db/database_manager.py:575-581 | the `.eq("video_id").eq("tag")` answer is empty iff no row has both the id and the tag |
| Database.WhereTwiceFirst | server/app/db/database_manager.py:575-583 | the head of a non-empty answer is the first table row having both the id and the tag |
| Database.PlusOne | server/app/db/database_manager.py:587-591 | `current_count + 1` adds one to an int, counts a bool as 0 or 1, and raises for any other value |
| Database.GetCachedFormat | server/app/db/database_manager.py:546-614 | blank id or tag fail in that order; a failed select is handled; otherwise the call succeeds, with None iff no row has both the id and the tag and else the first such row; None or an error leaves the table unchanged |
| Database.AccessCountIncremented | server/app/db/database_manager.py:574-599 | whenever some row has the id and the tag, the first one is returned; every row with both has its `access_count` set to that row's count plus one (0 when absent); a raising write, or a count that cannot be incremented, leaves the table unchanged |
| Database.FirstMissing | server/app/db/database_manager.py:636-643 | nothing is missing iff every required field is truthy; else the error names the first falsy field in order |
| Database.RequiredFieldsInOrder | server/app/db/database_manager.py:636-643 | `video_id`, `tag` and `path` are checked in that order, giving MISSING_VIDEO_ID, MISSING_TAG or MISSING_PATH |
| Database.CheckRequiredFields | server/app/db/database_manager.py:636-643 | the loop reports the first missing field |
| Database.WithAccessCountZero | server/app/db/database_manager.py:647-650 | the stored row keeps every other field and has `access_count` 0, overriding any input value |
| Database.InsertReplyAsWritten | server/app/db/database_manager.py:652-679 | as written: a non-empty insert answer is returned, a raised failure is handled, and an empty answer ends as 500 UNEXPECTED_ERROR, never STORAGE_FAILED |
| Database.InsertReply | server/app/db/database_manager.py:652-661 | corrected, see "## Findings": an empty insert answer is STORAGE_FAILED, a non-empty one is returned, a raised failure is handled |
| Database.StorageFailedIsRewrapped | server/app/db/database_manager.py:656-679 | the as-written and corrected insert replies agree on every answer but the empty one, where they give UNEXPECTED_ERROR and STORAGE_FAILED |
| Database.StoreCachedFormatAsWritten | server/app/db/database_manager.py:616-679 | as written: a falsy or non-dict input is INVALID_FORMAT_INFO and a missing field is reported, both before the `try`; success iff the input is valid and the insert answers rows, which are returned; an empty answer is UNEXPECTED_ERROR |
| Database.StoreCachedFormat | server/app/db/database_manager.py:616-679 | corrected, see "## Findings": a falsy or non-dict input is INVALID_FORMAT_INFO; a missing field is reported; otherwise the row with `access_count` 0 is sent to the insert |
| Database.MergePlanFields | server/app/db/database_manager.py:242-244 | the merge has every user-plan key and every plan key but `id`; plan fields win, and the user plan's id survives |
| Database.GetUserPlanAsWritten | server/app/db/database_manager.py:192-262 | as written: USER_PLAN_NOT_FOUND and PLAN_NOT_FOUND both end as 500 UNEXPECTED_ERROR; every other outcome, success included, is the corrected one |
| Database.GetUserPlan | server/app/db/database_manager.py:192-262 | corrected, see "## Findings": a blank id is INVALID_USER_PLAN_ID and a failed lookup is handled; USER_PLAN_NOT_FOUND iff no user plan has the id; a first match without `plan_id` is UNEXPECTED_ERROR; PLAN_NOT_FOUND iff no plan has that `plan_id`; otherwise the call succeeds iff that plan has an `id`, and the result merges the first matching user plan with the first matching plan |
| Database.NotFoundIsRewrapped | server/app/db/database_manager.py:218-224 | an unknown user plan id is USER_PLAN_NOT_FOUND when corrected and UNEXPECTED_ERROR as written |
| Database.MergedPlansShape | server/app/db/database_manager.py:155-175 | the list fails iff some user plan lacks `plan_id` (UNEXPECTED_ERROR); otherwise it holds one merge per user plan whose plan lookup found a row |
| Database.MergedPlansPrefix | server/app/db/database_manager.py:155-172 | the merges of a prefix of the user plans are a prefix of the merges of all, so the list grows front to back |
| Database.MergedPlansAt | server/app/db/database_manager.py:155-172 | a user plan whose plan is found contributes its merge with the first matching plan, at the position counting the earlier user plans that contributed |
| Database.GetUserPlans | server/app/db/database_manager.py:122-190 | a blank id is INVALID_USER_ID, a failed list is handled, and otherwise the loop gives the merges of that user's plans, [] for none |
| Database.MergedPlansFailFromPrefix | server/app/db/database_manager.py:155-172 | a user plan without `plan_id` early in the list fails the whole list, so the loop may stop there |
| Database.VideoIdsAreTruthyIds | server/app/db/database_manager.py:904-906 | `unique_videos` counts exactly the distinct truthy `video_id`s, at most one per row |
| Database.BreakdownCounts | server/app/db/database_manager.py:919-932 | each tag's count in `format_breakdown` (default `unknown`) is its number of rows, the keys are the tags that occur, and the counts sum to `total_formats` |
| Database.StatsBounded | server/app/db/database_manager.py:891-932 | each count is at most `total_formats`, and the breakdown sums to it |
| Database.GetCacheStats | server/app/db/database_manager.py:878-944 | the loop gives the statistics of all cached rows, and any error becomes UNEXPECTED_ERROR |
| Database.CleanupExpiredCache | server/app/db/database_manager.py:946-1008 | `days_old <= 0` is INVALID_DAYS; a cutoff before year 1 or beyond `timedelta`'s range is UNEXPECTED_ERROR; otherwise the call succeeds iff no select fails, and then the four counts are all zero |

## Left out

- The yt-dlp calls, the Supabase client, httpx and the random User-Agent are foreign code. Their answers, or their failures, are parameters.
- asyncio scheduling, semaphore blocking, the executor and `queue.join` are modelled as atomic steps. `Shutdown` answers "not done" while tasks are unfinished, where the source waits.
- `get_suggestions` is left out: it depends on the network and on `json.loads`.
- The `COOKIE_PATH` file test and all logging are left out.
- The MB/GB figures of `get_cache_stats` are left out: they are floating point.
- `cleanup_expired_cache` reads the wall clock for its cutoff. The model takes that date as the input `today`, its proleptic Gregorian ordinal. The clock arithmetic of `add_user_plan` is left out with that method.
- Floats are not among the modelled values. A field such as `duration` is carried as whatever other value yt-dlp reports.
- `store_video_info`, `store_playlist_info`, `get_playlist`, `remove_cached_format`, `add_user_plan`, `remove_user_plan` and the plan getters are left out. They are table calls this model does not specify; `remove_user_plan` calls a method the client does not have.
- The routes, middleware, payment code and websocket manager are left out. They are framework plumbing or foreign crypto.
- The URL builders do not percent-encode. The ids are inserted as given, as the source does.
- YoutubeService.SelectTiersSizes: a format whose `filesize` is present but None is not modelled, so a size is an integer or absent (then 0).
- YoutubeService.SelectTiersListed: a format whose `format_note` is not a string is not modelled. An absent note is "".
- Database.GetCacheStats: a row whose `filesize` is not an integer (a float, a bool) counts as a failing row, so the statistics become UNEXPECTED_ERROR. Python would add floats and bools.
- Database.VideoIdsAreTruthyIds: Python's equality of `True` with `1` is not modelled for the id set either. A row with `video_id` True and one with 1 count as two ids here and as one in Python.
- Database.BreakdownCounts: Python's equality of `True` with `1` as dict keys is not modelled. A tag is hashable when it is None, a bool, an int or a string.
- YoutubeService.GetPlaylistInfo: a non-empty dict or string `entries` value is treated as a failure. Python iterates its keys or characters. A non-empty one fails on `.get`. But a dict whose only key is "" succeeds in Python: that key is skipped as falsy, so there are no videos and `total_videos` is 1. The model reports a failure for it.
- Downloads.DownloadManager.AddDownload: the options are typed, so the AttributeError path is not modelled. That path is a `ydl_opts` that is not a dict, or a `progress_hooks` that is None or not a list. In Python it raises after the key is registered, and the key then stays in `active_downloads` with nothing queued, so later submissions of it are refused.
- Database.FlaggedMeaning: a quality whose `format` is a list or a dict is treated as uncached. Its `str()` rendering, the Python repr, is not modelled; a row tagged with that rendering would mark it cached in Python.
- Database.GetVideo: the flags come from Database.FlaggedMeaning, so the same list or dict `format` case is treated as uncached.
- Database.GetUserPlans: a failed plan lookup is keyed by the plan id (`unreachable`), not by the call. Two user plans with the same `plan_id` therefore both find their plan or both skip it. The source makes one call per user plan, and those calls could answer differently.
- Downloads.DownloadManager.Start: the workers are modelled by their state, not as coroutine objects.

## Findings

| source | as written | input that shows it | evidently intended | confidence | as-written member | corrected member |
|---|---|---|---|---|---|---|
| server/app/db/database_manager.py:656-661 | `raise ApiError(..., "STORAGE_FAILED")` inside a `try` whose handlers are `except APIError` (postgrest) and `except Exception`, so it is caught and re-raised as 500 UNEXPECTED_ERROR | an insert that answers with no rows | the caller sees 500 STORAGE_FAILED | not executed | Database.StoreCachedFormatAsWritten (shown by Database.StorageFailedIsRewrapped) | Database.InsertReply |
| server/app/db/database_manager.py:218-239 | both 404s, USER_PLAN_NOT_FOUND and PLAN_NOT_FOUND, are raised inside the same `try` and caught by `except Exception`, ending as 500 UNEXPECTED_ERROR | a user plan id that is not in `user_plans` | 404 USER_PLAN_NOT_FOUND (or 404 PLAN_NOT_FOUND) | not executed | Database.GetUserPlanAsWritten (shown by Database.NotFoundIsRewrapped) | Database.GetUserPlan |
