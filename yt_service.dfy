/** The YouTube service: URL builders, the `max_results` clamps and search
    requests, the quality-tier normaliser over yt-dlp's format list, the
    thumbnail picker, the search result mappings and the cache-or-fetch logic
    of `get_video_info` and `get_playlist_info`. What yt-dlp and the cache
    tables answer is passed in as values. */
module YoutubeService {
  import opened Common
  import opened Enums

  // ---------------------------------------------------------------- URLs

  const WatchPrefix: string := "https://www.youtube.com/watch?v="
  const PlaylistPrefix: string := "https://www.youtube.com/playlist?list="
  const ShortsPrefix: string := "https://www.youtube.com/shorts/"
  const ThumbnailPrefix: string := "https://img.youtube.com/vi/"
  const ThumbnailSuffix: string := "/hqdefault.jpg"

  /** `get_video_url`. */
  function VideoUrl(videoId: string): string {
    WatchPrefix + videoId
  }

  /** `get_playlist_url`. */
  function PlaylistUrl(playlistId: string): string {
    PlaylistPrefix + playlistId
  }

  /** `get_short_video_url`. */
  function ShortVideoUrl(videoId: string): string {
    ShortsPrefix + videoId
  }

  /** The high-quality thumbnail URL built for a video id. */
  function ThumbnailUrl(videoId: string): string {
    ThumbnailPrefix + videoId + ThumbnailSuffix
  }

  /** The rest of `s` after `prefix`, if `s` starts with it. */
  function AfterPrefix(prefix: string, s: string): (r: Option<string>)
    ensures r.Some? <==> prefix <= s
    ensures r.Some? ==> s == prefix + r.value
  {
    if prefix <= s then Some(s[|prefix|..]) else None
  }

  /** The video id of a watch URL. */
  function VideoIdOfUrl(url: string): Option<string> {
    AfterPrefix(WatchPrefix, url)
  }

  /** The playlist id of a playlist URL. */
  function PlaylistIdOfUrl(url: string): Option<string> {
    AfterPrefix(PlaylistPrefix, url)
  }

  /** The video id of a shorts URL. */
  function ShortIdOfUrl(url: string): Option<string> {
    AfterPrefix(ShortsPrefix, url)
  }

  /** The video id of a thumbnail URL. */
  function VideoIdOfThumbnail(url: string): Option<string> {
    if |ThumbnailPrefix| + |ThumbnailSuffix| <= |url| && ThumbnailPrefix <= url && url[|url| - |ThumbnailSuffix|..] == ThumbnailSuffix
    then Some(url[|ThumbnailPrefix|..|url| - |ThumbnailSuffix|])
    else None
  }

  /** Every builder can be undone: its id is recovered from the URL. */
  lemma UrlsRoundTrip(id: string)
    ensures VideoIdOfUrl(VideoUrl(id)) == Some(id)
    ensures PlaylistIdOfUrl(PlaylistUrl(id)) == Some(id)
    ensures ShortIdOfUrl(ShortVideoUrl(id)) == Some(id)
    ensures VideoIdOfThumbnail(ThumbnailUrl(id)) == Some(id)
  {
    assert VideoUrl(id)[|WatchPrefix|..] == id;
    assert PlaylistUrl(id)[|PlaylistPrefix|..] == id;
    assert ShortVideoUrl(id)[|ShortsPrefix|..] == id;
    var u := ThumbnailUrl(id);
    assert u[|u| - |ThumbnailSuffix|..] == ThumbnailSuffix;
    assert u[|ThumbnailPrefix|..|u| - |ThumbnailSuffix|] == id;
  }

  /** ... and every URL an id was recovered from is the one the builder makes. */
  lemma UrlsFromIds(url: string)
    ensures VideoIdOfUrl(url).Some? ==> VideoUrl(VideoIdOfUrl(url).value) == url
    ensures PlaylistIdOfUrl(url).Some? ==> PlaylistUrl(PlaylistIdOfUrl(url).value) == url
    ensures ShortIdOfUrl(url).Some? ==> ShortVideoUrl(ShortIdOfUrl(url).value) == url
    ensures VideoIdOfThumbnail(url).Some? ==> ThumbnailUrl(VideoIdOfThumbnail(url).value) == url
  {
    ThumbnailFromId(url);
  }

  lemma ThumbnailFromId(url: string)
    ensures VideoIdOfThumbnail(url).Some? ==> ThumbnailUrl(VideoIdOfThumbnail(url).value) == url
  {
    if VideoIdOfThumbnail(url).Some? {
      var id := VideoIdOfThumbnail(url).value;
      assert url == url[..|ThumbnailPrefix|] + id + url[|url| - |ThumbnailSuffix|..];
    }
  }

  /** Watch, playlist and shorts URLs never coincide, whatever the ids. */
  lemma UrlKindsDisjoint(a: string, b: string)
    ensures VideoUrl(a) != PlaylistUrl(b)
    ensures VideoUrl(a) != ShortVideoUrl(b)
    ensures PlaylistUrl(a) != ShortVideoUrl(b)
  {
    assert VideoUrl(a)[24] == 'w' && PlaylistUrl(b)[24] == 'p' && ShortVideoUrl(b)[24] == 's';
  }

  /** A shorts URL passes the shorts filter of `search_shorts`. */
  lemma ShortUrlPassesShortsFilter(id: string)
    ensures Contains(ShortVideoUrl(id), "/shorts/")
  {
    var u := ShortVideoUrl(id);
    assert OccursAt(u, "/shorts/", 23) by {
      assert u[23..31] == "/shorts/";
    }
    ContainsIffOccurs(u, "/shorts/");
  }

  // ------------------------------------------------- max_results and requests

  const VideoSearchLimit: int := 50
  const PlaylistSearchLimit: int := 20
  /** Extra results requested by `search_shorts` to make up for filtered-out videos. */
  const ShortsHeadroom: int := 10

  /** `max(1, min(n, limit))`. */
  function ClampMaxResults(n: int, limit: int): (r: int)
    requires 1 <= limit
    ensures 1 <= r <= limit
    ensures 1 <= n <= limit ==> r == n
    ensures n < 1 ==> r == 1
    ensures limit < n ==> r == limit
  {
    Max(1, Min(n, limit))
  }

  /** The yt-dlp search term of `search_videos`: `f"ytsearch{max_results}:{query}"`. */
  function VideoSearchTerm(query: string, maxResults: int): string {
    "ytsearch" + NatToDecimal(ClampMaxResults(maxResults, VideoSearchLimit)) + ":" + query
  }

  /** The yt-dlp search term of `search_shorts`, asking for ten more results. */
  function ShortsSearchTerm(query: string, maxResults: int): string {
    "ytsearch" + NatToDecimal(ClampMaxResults(maxResults, VideoSearchLimit) + ShortsHeadroom) + ":" + query + " #shorts"
  }

  /** A video search asks yt-dlp for between 1 and 50 results, a shorts
      search for between 11 and 60. */
  lemma SearchTermsBounded(query: string, maxResults: int)
    ensures exists d: string ::
      (VideoSearchTerm(query, maxResults) == "ytsearch" + d + ":" + query
       && (forall i :: 0 <= i < |d| ==> IsDigit(d[i])) && 1 <= DecimalValue(d) <= 50)
    ensures exists d: string ::
      (ShortsSearchTerm(query, maxResults) == "ytsearch" + d + ":" + query + " #shorts"
       && (forall i :: 0 <= i < |d| ==> IsDigit(d[i])) && 11 <= DecimalValue(d) <= 60)
  {
    var n := ClampMaxResults(maxResults, VideoSearchLimit);
    DecimalRoundTrip(n);
    DecimalRoundTrip(n + ShortsHeadroom);
    var d1, d2 := NatToDecimal(n), NatToDecimal(n + ShortsHeadroom);
    assert VideoSearchTerm(query, maxResults) == "ytsearch" + d1 + ":" + query;
    assert ShortsSearchTerm(query, maxResults) == "ytsearch" + d2 + ":" + query + " #shorts";
  }

  // ------------------------------------------------------ quality selection

  /** One entry of yt-dlp's `formats` list; None is a missing key. */
  datatype RawFormat = RawFormat(formatNote: Option<string>, filesize: Option<int>)

  /** One entry of `video_qualities` / `audio_qualities`. */
  datatype Quality = Quality(format: string, filesize: int)

  /** `tier in fmt.get("format_note", "")`. */
  predicate Matches(f: RawFormat, tier: string) {
    Contains(f.formatNote.GetOr(""), tier)
  }

  /** Some format offers the tier. */
  ghost predicate Offered(fs: seq<RawFormat>, tier: string) {
    exists k :: 0 <= k < |fs| && Matches(fs[k], tier)
  }

  /** `next((fmt for fmt in formats if tier in ...), None)`, as an index. */
  function FirstMatch(fs: seq<RawFormat>, tier: string): (r: Option<nat>)
    ensures r.Some? ==> r.value < |fs| && Matches(fs[r.value], tier)
    ensures r.Some? ==> forall k :: 0 <= k < r.value ==> !Matches(fs[k], tier)
    ensures r.None? ==> forall k :: 0 <= k < |fs| ==> !Matches(fs[k], tier)
  {
    if fs == [] then None
    else if Matches(fs[0], tier) then Some(0)
    else match FirstMatch(fs[1..], tier)
      case None => None
      case Some(i) => Some(i + 1)
  }

  /** The entry for one tier, if some format offers it. */
  function TierEntry(tier: string, fs: seq<RawFormat>): seq<Quality> {
    match FirstMatch(fs, tier)
    case None => []
    case Some(i) => [Quality(tier, fs[i].filesize.GetOr(0))]
  }

  /** The entries `_extract_*_qualities` collects for the given tiers. */
  function SelectTiers(tiers: seq<string>, fs: seq<RawFormat>): seq<Quality> {
    if tiers == [] then [] else TierEntry(tiers[0], fs) + SelectTiers(tiers[1..], fs)
  }

  function Formats(qs: seq<Quality>): (r: seq<string>)
    ensures |r| == |qs| && forall i :: 0 <= i < |qs| ==> r[i] == qs[i].format
  {
    if qs == [] then [] else [qs[0].format] + Formats(qs[1..])
  }

  lemma {:induction false} SelectTiersAppend(a: seq<string>, b: seq<string>, fs: seq<RawFormat>)
    ensures SelectTiers(a + b, fs) == SelectTiers(a, fs) + SelectTiers(b, fs)
  {
    if a != [] {
      assert (a + b)[1..] == a[1..] + b;
      SelectTiersAppend(a[1..], b, fs);
    } else {
      assert a + b == b;
    }
  }

  /** The selected formats are the given tiers in their own order, some left out. */
  lemma {:induction false} SelectTiersOrdered(tiers: seq<string>, fs: seq<RawFormat>)
    ensures IsSubsequence(Formats(SelectTiers(tiers, fs)), tiers)
  {
    if tiers != [] {
      SelectTiersOrdered(tiers[1..], fs);
      var rest := SelectTiers(tiers[1..], fs);
      if FirstMatch(fs, tiers[0]).Some? {
        assert Formats(SelectTiers(tiers, fs)) == [tiers[0]] + Formats(rest) by {
          assert SelectTiers(tiers, fs) == TierEntry(tiers[0], fs) + rest;
        }
      } else {
        assert SelectTiers(tiers, fs) == rest;
      }
    }
  }

  /** A tier is listed iff it is one of the tiers and some format's note
      contains its tier. */
  lemma {:induction false} SelectTiersListed(tiers: seq<string>, fs: seq<RawFormat>, t: string)
    ensures t in Formats(SelectTiers(tiers, fs)) <==> t in tiers && Offered(fs, t)
  {
    if tiers != [] {
      SelectTiersListed(tiers[1..], fs, t);
      var e, rest := TierEntry(tiers[0], fs), SelectTiers(tiers[1..], fs);
      assert SelectTiers(tiers, fs) == e + rest;
      FormatsAppend(e, rest);
      TierEntryListed(tiers[0], fs, t);
      assert t in tiers <==> t == tiers[0] || t in tiers[1..];
    }
  }

  /** The entry for one tier names it iff some format offers it. */
  lemma TierEntryListed(tier: string, fs: seq<RawFormat>, t: string)
    ensures t in Formats(TierEntry(tier, fs)) <==> t == tier && Offered(fs, tier)
  {
    match FirstMatch(fs, tier)
    case Some(i) =>
      assert Formats(TierEntry(tier, fs)) == [tier];
    case None =>
      assert Formats(TierEntry(tier, fs)) == [];
  }

  /** Each listed tier carries the size of the first format offering it, 0
      when that format has no size. */
  lemma {:induction false} SelectTiersSizes(tiers: seq<string>, fs: seq<RawFormat>, j: nat)
    requires j < |SelectTiers(tiers, fs)|
    ensures var q := SelectTiers(tiers, fs)[j];
      FirstMatch(fs, q.format).Some? && q.filesize == fs[FirstMatch(fs, q.format).value].filesize.GetOr(0)
  {
    var head := TierEntry(tiers[0], fs);
    assert SelectTiers(tiers, fs) == head + SelectTiers(tiers[1..], fs);
    if j >= |head| {
      SelectTiersSizes(tiers[1..], fs, j - |head|);
    }
  }

  lemma {:induction false} FormatsAppend(a: seq<Quality>, b: seq<Quality>)
    ensures Formats(a + b) == Formats(a) + Formats(b)
  {
  }

  lemma DistinctTail(s: seq<string>)
    requires s != [] && Distinct(s)
    ensures Distinct(s[1..]) && s[0] !in s[1..]
  {
    var rest := s[1..];
    forall i, j | 0 <= i < |rest| && 0 <= j < |rest| && i != j ensures rest[i] != rest[j] {
      assert rest[i] == s[i + 1] && rest[j] == s[j + 1];
    }
    forall i | 0 <= i < |rest| ensures rest[i] != s[0] {
      assert rest[i] == s[i + 1];
    }
  }

  lemma DistinctPrepend(h: seq<string>, s: seq<string>)
    requires |h| <= 1 && Distinct(s) && forall k :: 0 <= k < |h| ==> h[k] !in s
    ensures Distinct(h + s)
  {
    var f := h + s;
    forall i, j | 0 <= i < |f| && 0 <= j < |f| && i != j ensures f[i] != f[j] {
      if i < |h| {
        assert f[j] == s[j - |h|];
      } else if j < |h| {
        assert f[i] == s[i - |h|];
      } else {
        assert f[i] == s[i - |h|] && f[j] == s[j - |h|];
      }
    }
  }

  /** With distinct tiers, as the enumerations are, each tier is listed at most once. */
  lemma {:induction false} SelectTiersDistinct(tiers: seq<string>, fs: seq<RawFormat>)
    requires Distinct(tiers)
    ensures Distinct(Formats(SelectTiers(tiers, fs)))
  {
    if tiers != [] {
      var rest := tiers[1..];
      DistinctTail(tiers);
      SelectTiersDistinct(rest, fs);
      SelectTiersListed(rest, fs, tiers[0]);
      var head := TierEntry(tiers[0], fs);
      FormatsAppend(head, SelectTiers(rest, fs));
      assert Formats(head) == [] || Formats(head) == [tiers[0]];
      DistinctPrepend(Formats(head), Formats(SelectTiers(rest, fs)));
    }
  }

  /** The last listed tier is the highest tier offered: no later tier is. */
  lemma {:induction false} SelectTiersLastIsHighest(tiers: seq<string>, fs: seq<RawFormat>)
    requires SelectTiers(tiers, fs) != []
    ensures var r := SelectTiers(tiers, fs);
      exists j :: 0 <= j < |tiers| && r[|r| - 1].format == tiers[j] && Offered(fs, tiers[j])
        && forall j' :: j < j' < |tiers| ==> !Offered(fs, tiers[j'])
  {
    var r := SelectTiers(tiers, fs);
    var head := TierEntry(tiers[0], fs);
    var rest := SelectTiers(tiers[1..], fs);
    assert r == head + rest;
    if rest != [] {
      SelectTiersLastIsHighest(tiers[1..], fs);
      var j :| 0 <= j < |tiers[1..]| && rest[|rest| - 1].format == tiers[1..][j] && Offered(fs, tiers[1..][j])
        && forall j' :: j < j' < |tiers[1..]| ==> !Offered(fs, tiers[1..][j']);
      assert r[|r| - 1] == rest[|rest| - 1];
      forall j' | j + 1 < j' < |tiers| ensures !Offered(fs, tiers[j']) {
        assert tiers[j'] == tiers[1..][j' - 1];
      }
      assert r[|r| - 1].format == tiers[j + 1] && Offered(fs, tiers[j + 1]);
    } else {
      forall j' | 0 < j' < |tiers| ensures !Offered(fs, tiers[j']) {
        SelectTiersListed(tiers[1..], fs, tiers[j']);
        assert tiers[j'] == tiers[1..][j' - 1];
      }
      match FirstMatch(fs, tiers[0])
      case Some(i) =>
        assert r[|r| - 1].format == tiers[0] && Matches(fs[i], tiers[0]);
      case None =>
    }
  }

  /** When "high" audio is offered it is the last audio entry, so the size
      adjustment uses the highest audio tier. */
  lemma HighAudioIsLast(fs: seq<RawFormat>)
    requires Offered(fs, "high")
    ensures var r := SelectTiers(AudioQualityList(), fs);
      r != [] && r[|r| - 1].format == "high"
  {
    AudioListIsExact();
    var tiers := AudioQualityList();
    SelectTiersListed(tiers, fs, "high");
    var r := SelectTiers(tiers, fs);
    assert "high" in Formats(r);
    SelectTiersLastIsHighest(tiers, fs);
    var j :| 0 <= j < |tiers| && r[|r| - 1].format == tiers[j] && Offered(fs, tiers[j])
      && forall j' :: j < j' < |tiers| ==> !Offered(fs, tiers[j']);
    assert j == 2;
  }

  /** `_extract_video_qualities` / `_extract_audio_qualities`: for each tier
      in order, the first format whose note contains the tier gives an
      entry with that format's size (0 when absent). */
  method ExtractQualities(tiers: seq<string>, fs: seq<RawFormat>) returns (qualities: seq<Quality>)
    ensures qualities == SelectTiers(tiers, fs)
  {
    qualities := [];
    var i := 0;
    while i < |tiers|
      invariant 0 <= i <= |tiers|
      invariant qualities == SelectTiers(tiers[..i], fs)
    {
      var tier := tiers[i];
      var matched := FirstMatch(fs, tier);
      assert tiers[..i + 1] == tiers[..i] + [tier];
      SelectTiersAppend(tiers[..i], [tier], fs);
      assert SelectTiers([tier], fs) == TierEntry(tier, fs) by {
        assert [tier][1..] == [];
      }
      if matched.Some? {
        qualities := qualities + [Quality(tier, fs[matched.value].filesize.GetOr(0))];
      }
      i := i + 1;
    }
    assert tiers[..|tiers|] == tiers;
  }

  method ExtractVideoQualities(fs: seq<RawFormat>) returns (qualities: seq<Quality>)
    ensures qualities == SelectTiers(VideoQualityList(), fs)
  {
    qualities := ExtractQualities(VideoQualityList(), fs);
  }

  method ExtractAudioQualities(fs: seq<RawFormat>) returns (qualities: seq<Quality>)
    ensures qualities == SelectTiers(AudioQualityList(), fs)
  {
    qualities := ExtractQualities(AudioQualityList(), fs);
  }

  /** What is added to every video size: the last audio entry's size, or 0. */
  function AudioExtra(audio: seq<Quality>): int {
    if audio == [] then 0 else audio[|audio| - 1].filesize
  }

  /** The video entries after the size adjustment of `get_video_info`. */
  function WithAudioSize(video: seq<Quality>, audio: seq<Quality>): (r: seq<Quality>)
    ensures |r| == |video|
    ensures forall i :: 0 <= i < |video| ==> r[i].format == video[i].format && r[i].filesize == video[i].filesize + AudioExtra(audio)
  {
    seq(|video|, i requires 0 <= i < |video| => Quality(video[i].format, video[i].filesize + AudioExtra(audio)))
  }

  /** The loop adding the last audio size to each video entry in turn. */
  method AddAudioSize(video: seq<Quality>, audio: seq<Quality>) returns (adjusted: seq<Quality>)
    ensures adjusted == WithAudioSize(video, audio)
  {
    adjusted := video;
    var i := 0;
    while i < |adjusted|
      invariant 0 <= i <= |adjusted| == |video|
      invariant forall k :: 0 <= k < i ==> adjusted[k] == Quality(video[k].format, video[k].filesize + AudioExtra(audio))
      invariant forall k :: i <= k < |video| ==> adjusted[k] == video[k]
    {
      var extra := if audio != [] then audio[|audio| - 1].filesize else 0;
      adjusted := adjusted[i := adjusted[i].(filesize := adjusted[i].filesize + extra)];
      i := i + 1;
    }
  }

  /** Audio 500 with videos 1000 and 2000 gives 1500 and 2500. */
  method AudioSizeExample() returns (adjusted: seq<Quality>)
    ensures adjusted == [Quality("720p", 1500), Quality("1080p", 2500)]
  {
    var video := [Quality("720p", 1000), Quality("1080p", 2000)];
    var audio := [Quality("medium", 300), Quality("high", 500)];
    adjusted := AddAudioSize(video, audio);
    assert adjusted[0] == Quality("720p", 1500) && adjusted[1] == Quality("1080p", 2500);
  }

  /** The adjustment changes sizes only: the formats, their order and, with no
      audio entry, the sizes too stay as they were. */
  lemma AudioSizeKeepsFormats(video: seq<Quality>, audio: seq<Quality>)
    ensures Formats(WithAudioSize(video, audio)) == Formats(video)
    ensures audio == [] ==> WithAudioSize(video, audio) == video
  {
  }

  // -------------------------------------------------------------- thumbnails

  /** A dict whose "url" is truthy. */
  predicate HasUrl(v: Value) {
    v.Dict? && HasTruthy(v.fields, "url")
  }

  /** The url of the first dict element with a truthy url, or "". */
  function FirstUrl(items: seq<Value>): Value {
    if items == [] then Str("")
    else if HasUrl(items[0]) then items[0].fields["url"]
    else FirstUrl(items[1..])
  }

  /** With no element carrying a truthy url the result is "". */
  lemma {:induction false} FirstUrlNone(items: seq<Value>)
    requires forall i :: 0 <= i < |items| ==> !HasUrl(items[i])
    ensures FirstUrl(items) == Str("")
  {
    if items != [] {
      assert forall i :: 0 <= i < |items| - 1 ==> items[1..][i] == items[i + 1];
      FirstUrlNone(items[1..]);
    }
  }

  /** The first element carrying a truthy url supplies the result. */
  lemma {:induction false} FirstUrlAt(items: seq<Value>, i: nat)
    requires i < |items| && HasUrl(items[i]) && forall j :: 0 <= j < i ==> !HasUrl(items[j])
    ensures FirstUrl(items) == items[i].fields["url"]
    decreases i
  {
    if i > 0 {
      assert items[1..][i - 1] == items[i];
      assert forall j :: 0 <= j < i - 1 ==> items[1..][j] == items[j + 1];
      FirstUrlAt(items[1..], i - 1);
    }
  }

  /** `_extract_thumbnail`, as a value: "" for anything but a list. */
  function BestThumbnail(thumbnails: Value): Value {
    if thumbnails.List? then FirstUrl(thumbnails.items) else Str("")
  }

  /** `_extract_thumbnail`: the scan with an early return. */
  method ExtractThumbnail(thumbnails: Value) returns (url: Value)
    ensures url == BestThumbnail(thumbnails)
  {
    if !thumbnails.List? || thumbnails.items == [] {
      return Str("");
    }
    var items := thumbnails.items;
    var i := 0;
    while i < |items|
      invariant 0 <= i <= |items|
      invariant FirstUrl(items) == FirstUrl(items[i..])
    {
      assert items[i..][1..] == items[i + 1..];
      if items[i].Dict? && HasTruthy(items[i].fields, "url") {
        return items[i].fields["url"];
      }
      i := i + 1;
    }
    return Str("");
  }

  /** The picked thumbnail is "" or a truthy url. */
  lemma BestThumbnailTruthyOrEmpty(thumbnails: Value)
    ensures BestThumbnail(thumbnails) == Str("") || Truthy(BestThumbnail(thumbnails))
  {
    if thumbnails.List? {
      var items := thumbnails.items;
      if exists i :: 0 <= i < |items| && HasUrl(items[i]) {
        var i := FirstUrlIndex(items);
      } else {
        FirstUrlNone(items);
      }
    }
  }

  /** The index of the first element with a truthy url. */
  lemma FirstUrlIndex(items: seq<Value>) returns (i: nat)
    requires exists i :: 0 <= i < |items| && HasUrl(items[i])
    ensures i < |items| && HasUrl(items[i]) && forall j :: 0 <= j < i ==> !HasUrl(items[j])
    ensures FirstUrl(items) == items[i].fields["url"]
  {
    var k :| 0 <= k < |items| && HasUrl(items[k]);
    i := 0;
    while !HasUrl(items[i])
      invariant i <= k && forall j :: 0 <= j < i ==> !HasUrl(items[j])
      decreases k - i
    {
      i := i + 1;
    }
    FirstUrlAt(items, i);
  }

  // ----------------------------------------------------------------- search

  const MissingQuery := ApiError(400, "MISSING_QUERY")
  const SearchError := ApiError(500, "SEARCH_ERROR")
  const SearchProcessError := ApiError(500, "SEARCH_PROCESS_ERROR")

  /** The result row `search_videos` / `search_shorts` make of one entry; None
      when that raises: the entry is not a dict, or its "id" is not a string
      (the thumbnail is built by concatenating it). */
  function SearchRow(d: Value): (r: Option<Row>)
    ensures r.Some? <==> d.Dict? && "id" in d.fields && d.fields["id"].Str?
    ensures r.Some? ==> "video_id" in r.value && "thumbnail" in r.value && "video_url" in r.value && "upload_date" in r.value
    ensures r.Some? ==>
      (r.value["video_id"] == d.fields["id"]
       && r.value["thumbnail"] == Str(ThumbnailUrl(d.fields["id"].s))
       && r.value["video_url"] == Get(d.fields, "url", Null)
       && r.value["upload_date"] == Get(d.fields, "upload_date", Str("")))
  {
    if d.Dict? && "id" in d.fields && d.fields["id"].Str? then
      var f := d.fields;
      Some(map[
        "video_id" := f["id"],
        "title" := Get(f, "title", Null),
        "video_url" := Get(f, "url", Null),
        "description" := Get(f, "description", Null),
        "thumbnail" := Str(ThumbnailUrl(f["id"].s)),
        "duration" := Get(f, "duration", Null),
        "uploader" := Get(f, "uploader", Null),
        "upload_date" := Get(f, "upload_date", Str(""))])
    else None
  }

  /** The list comprehension over the entries: it fails as soon as one row does. */
  function SearchRows(ds: seq<Value>): (r: Option<seq<Row>>)
    ensures r.Some? <==> forall i :: 0 <= i < |ds| ==> SearchRow(ds[i]).Some?
    ensures r.Some? ==> |r.value| == |ds| && forall i :: 0 <= i < |ds| ==> SearchRow(ds[i]) == Some(r.value[i])
  {
    if ds == [] then Some([])
    else match (SearchRow(ds[0]), SearchRows(ds[1..]))
      case (Some(row), Some(rows)) =>
        assert forall i :: 1 <= i < |ds| ==> ds[i] == ds[1..][i - 1];
        Some([row] + rows)
      case (None, _) => None
      case (_, None) =>
        assert forall i :: 1 <= i < |ds| ==> ds[i] == ds[1..][i - 1];
        None
  }

  /** `search_videos`. `search` stands for the yt-dlp call on a search term:
      the info dict it returns, or None when it raises. */
  function SearchVideos(query: string, maxResults: int, search: string -> Option<Row>): (r: Result<seq<Row>>)
    ensures r == Err(MissingQuery) <==> IsBlank(query)
    ensures !IsBlank(query) && search(VideoSearchTerm(query, maxResults)).None? ==> r == Err(SearchError)
    ensures r.Err? ==> r.error == MissingQuery || r.error == SearchError
    ensures r.Ok? <==>
      (!IsBlank(query) && search(VideoSearchTerm(query, maxResults)).Some?
       && var es := Elements(Get(search(VideoSearchTerm(query, maxResults)).value, "entries", List([])));
          es.Some? && forall i :: 0 <= i < |es.value| ==> SearchRow(es.value[i]).Some?)
    ensures r.Ok? ==>
      (!IsBlank(query) && search(VideoSearchTerm(query, maxResults)).Some?
       && var es := Elements(Get(search(VideoSearchTerm(query, maxResults)).value, "entries", List([])));
          es.Some? && |r.value| == |es.value| && forall i :: 0 <= i < |es.value| ==> SearchRow(es.value[i]) == Some(r.value[i]))
  {
    if IsBlank(query) then Err(MissingQuery)
    else match search(VideoSearchTerm(query, maxResults))
      case None => Err(SearchError)
      case Some(info) =>
        match Elements(Get(info, "entries", List([])))
        case None => Err(SearchError)
        case Some(es) =>
          match SearchRows(es)
          case None => Err(SearchError)
          case Some(rows) => Ok(rows)
  }

  /** Every search result's thumbnail is the one of its own video id. */
  lemma SearchThumbnailsMatchIds(query: string, maxResults: int, search: string -> Option<Row>)
    requires SearchVideos(query, maxResults, search).Ok?
    ensures var rows := SearchVideos(query, maxResults, search).value;
      forall i :: 0 <= i < |rows| ==>
        (rows[i]["video_id"].Str? && VideoIdOfThumbnail(rows[i]["thumbnail"].s) == Some(rows[i]["video_id"].s))
  {
    var rows: seq<Row> := SearchVideos(query, maxResults, search).value;
    var es := Elements(Get(search(VideoSearchTerm(query, maxResults)).value, "entries", List([]))).value;
    forall i | 0 <= i < |rows|
      ensures rows[i]["video_id"].Str? && VideoIdOfThumbnail(rows[i]["thumbnail"].s) == Some(rows[i]["video_id"].s)
    {
      assert SearchRow(es[i]) == Some(rows[i]);
      UrlsRoundTrip(rows[i]["video_id"].s);
    }
  }

  /** `"/shorts/" in entry.get("url", "")`; None when that raises. */
  function ShortsTest(d: Value): (r: Option<bool>)
    ensures r.None? <==> !d.Dict? || var u := Get(d.fields, "url", Str("")); u.Null? || u.Bool? || u.Int?
    ensures r == Some(true) <==> d.Dict? && var u := Get(d.fields, "url", Str(""));
      || (u.Str? && Contains(u.s, "/shorts/"))
      || (u.List? && Str("/shorts/") in u.items)
      || (u.Dict? && "/shorts/" in u.fields)
  {
    if d.Dict? then In("/shorts/", Get(d.fields, "url", Str(""))) else None
  }

  /** The filtering comprehension of `search_shorts`. */
  function ShortsOnly(ds: seq<Value>): (r: Option<seq<Value>>)
    ensures r.Some? <==> forall i :: 0 <= i < |ds| ==> ShortsTest(ds[i]).Some?
  {
    if ds == [] then Some([])
    else match (ShortsTest(ds[0]), ShortsOnly(ds[1..]))
      case (Some(keep), Some(rest)) =>
        assert forall i :: 1 <= i < |ds| ==> ds[i] == ds[1..][i - 1];
        Some(if keep then [ds[0]] + rest else rest)
      case (None, _) => None
      case (_, None) =>
        assert forall i :: 1 <= i < |ds| ==> ds[i] == ds[1..][i - 1];
        None
  }

  /** The kept entries are exactly those that pass the test, in their order. */
  lemma {:induction false} ShortsOnlyKeepsPassing(ds: seq<Value>)
    requires ShortsOnly(ds).Some?
    ensures IsSubsequence(ShortsOnly(ds).value, ds)
    ensures forall d :: d in ShortsOnly(ds).value <==> d in ds && ShortsTest(d) == Some(true)
    ensures forall d :: multiset(ShortsOnly(ds).value)[d] == if ShortsTest(d) == Some(true) then multiset(ds)[d] else 0
  {
    if ds != [] {
      ShortsOnlyKeepsPassing(ds[1..]);
      assert ds == [ds[0]] + ds[1..];
      assert multiset(ds) == multiset{ds[0]} + multiset(ds[1..]);
      var rest := ShortsOnly(ds[1..]).value;
      if ShortsTest(ds[0]) == Some(true) {
        assert ShortsOnly(ds).value == [ds[0]] + rest;
        assert ([ds[0]] + rest)[1..] == rest;
      }
    }
  }

  /** `search_shorts`: ten more results are asked for, the non-shorts are
      dropped and the rest is cut to `max_results`. */
  function SearchShorts(query: string, maxResults: int, search: string -> Option<Row>): (r: Result<seq<Row>>)
    ensures r == Err(MissingQuery) <==> IsBlank(query)
    ensures !IsBlank(query) && search(ShortsSearchTerm(query, maxResults)).None? ==> r == Err(SearchError)
    ensures r.Err? ==> r.error == MissingQuery || r.error == SearchError
    ensures r.Ok? ==> |r.value| <= ClampMaxResults(maxResults, VideoSearchLimit)
    ensures r.Ok? <==>
      (!IsBlank(query) && search(ShortsSearchTerm(query, maxResults)).Some?
       && var es := Elements(Get(search(ShortsSearchTerm(query, maxResults)).value, "entries", List([])));
          es.Some? && ShortsOnly(es.value).Some?
          && var shorts := ShortsOnly(es.value).value;
             forall i :: 0 <= i < Min(ClampMaxResults(maxResults, VideoSearchLimit), |shorts|) ==> SearchRow(shorts[i]).Some?)
    ensures r.Ok? ==>
      var shorts := ShortsOnly(Elements(Get(search(ShortsSearchTerm(query, maxResults)).value, "entries", List([]))).value).value;
      && |r.value| == Min(ClampMaxResults(maxResults, VideoSearchLimit), |shorts|)
      && forall i :: 0 <= i < |r.value| ==> SearchRow(shorts[i]) == Some(r.value[i])
  {
    if IsBlank(query) then Err(MissingQuery)
    else match search(ShortsSearchTerm(query, maxResults))
      case None => Err(SearchError)
      case Some(info) =>
        match Elements(Get(info, "entries", List([])))
        case None => Err(SearchError)
        case Some(es) =>
          match ShortsOnly(es)
          case None => Err(SearchError)
          case Some(shorts) =>
            var n := ClampMaxResults(maxResults, VideoSearchLimit);
            var kept := if |shorts| > n then shorts[..n] else shorts;
            match SearchRows(kept)
            case None => Err(SearchError)
            case Some(rows) => Ok(rows)
  }

  /** Every short found keeps the url of an entry that passed the filter, and
      all passing entries are returned when there are at most `max_results`. */
  lemma ShortsAreShorts(query: string, maxResults: int, search: string -> Option<Row>)
    requires SearchShorts(query, maxResults, search).Ok?
    ensures var info := search(ShortsSearchTerm(query, maxResults)).value;
      var es := Elements(Get(info, "entries", List([]))).value;
      var rows := SearchShorts(query, maxResults, search).value;
      forall i :: 0 <= i < |rows| ==> exists d :: d in es && ShortsTest(d) == Some(true) && SearchRow(d) == Some(rows[i])
    ensures var info := search(ShortsSearchTerm(query, maxResults)).value;
      var es := Elements(Get(info, "entries", List([]))).value;
      var rows := SearchShorts(query, maxResults, search).value;
      |ShortsOnly(es).value| <= ClampMaxResults(maxResults, VideoSearchLimit) ==> |rows| == |ShortsOnly(es).value|
  {
    var info := search(ShortsSearchTerm(query, maxResults)).value;
    var es := Elements(Get(info, "entries", List([]))).value;
    var shorts := ShortsOnly(es).value;
    ShortsOnlyKeepsPassing(es);
    var n := ClampMaxResults(maxResults, VideoSearchLimit);
    var kept := if |shorts| > n then shorts[..n] else shorts;
    var rows := SearchShorts(query, maxResults, search).value;
    assert SearchRows(kept) == Some(rows);
    forall i | 0 <= i < |rows| ensures exists d :: d in es && ShortsTest(d) == Some(true) && SearchRow(d) == Some(rows[i]) {
      assert kept[i] in shorts;
      assert SearchRow(kept[i]) == Some(rows[i]);
    }
  }

  /** A result row of `search_playlists`. */
  function PlaylistHit(d: Value): (r: Option<Row>)
    ensures r.Some? <==> d.Dict?
    ensures r.Some? ==> "playlist_id" in r.value && "thumbnail" in r.value
    ensures r.Some? ==>
      (r.value["playlist_id"] == Get(d.fields, "id", Str(""))
       && r.value["thumbnail"] == BestThumbnail(Get(d.fields, "thumbnails", List([]))))
  {
    if d.Dict? then
      var f := d.fields;
      Some(map[
        "playlist_id" := Get(f, "id", Str("")),
        "title" := Get(f, "title", Str("")),
        "thumbnail" := BestThumbnail(Get(f, "thumbnails", List([]))),
        "playlist_url" := Get(f, "url", Str(""))])
    else None
  }

  function PlaylistHits(ds: seq<Value>): (r: Option<seq<Row>>)
    ensures r.Some? <==> forall i :: 0 <= i < |ds| ==> ds[i].Dict?
    ensures r.Some? ==> |r.value| == |ds| && forall i :: 0 <= i < |ds| ==> PlaylistHit(ds[i]) == Some(r.value[i])
  {
    if ds == [] then Some([])
    else match (PlaylistHit(ds[0]), PlaylistHits(ds[1..]))
      case (Some(row), Some(rows)) =>
        assert forall i :: 1 <= i < |ds| ==> ds[i] == ds[1..][i - 1];
        Some([row] + rows)
      case (None, _) => None
      case (_, None) =>
        assert forall i :: 1 <= i < |ds| ==> ds[i] == ds[1..][i - 1];
        None
  }

  /** `search_playlists`. `search` stands for the yt-dlp call on the results
      page of the query with `playlistend` set to the clamped count; None when
      it raises. An empty info dict or missing or empty entries give []. */
  function SearchPlaylists(query: string, maxResults: int, search: (string, int) -> Option<Row>): (r: Result<seq<Row>>)
    ensures r == Err(MissingQuery) <==> IsBlank(query)
    ensures !IsBlank(query) && search(query, ClampMaxResults(maxResults, PlaylistSearchLimit)).None? ==> r == Err(SearchProcessError)
    ensures r.Err? ==> r.error == MissingQuery || r.error == SearchProcessError
    ensures (!IsBlank(query) && search(query, ClampMaxResults(maxResults, PlaylistSearchLimit)).Some?
      && !HasTruthy(search(query, ClampMaxResults(maxResults, PlaylistSearchLimit)).value, "entries")) ==> r == Ok([])
    ensures r.Ok? && r.value != [] ==> var info := search(query, ClampMaxResults(maxResults, PlaylistSearchLimit)).value;
      HasTruthy(info, "entries") && info["entries"].List? && |r.value| == |info["entries"].items|
    ensures r.Ok? <==>
      (!IsBlank(query) && search(query, ClampMaxResults(maxResults, PlaylistSearchLimit)).Some?
       && var info := search(query, ClampMaxResults(maxResults, PlaylistSearchLimit)).value;
          !HasTruthy(info, "entries")
          || (Elements(info["entries"]).Some? && forall i :: 0 <= i < |Elements(info["entries"]).value| ==> Elements(info["entries"]).value[i].Dict?))
    ensures r.Ok? && HasTruthy(search(query, ClampMaxResults(maxResults, PlaylistSearchLimit)).value, "entries") ==>
      var ds := Elements(search(query, ClampMaxResults(maxResults, PlaylistSearchLimit)).value["entries"]).value;
      |r.value| == |ds| && forall i :: 0 <= i < |ds| ==> PlaylistHit(ds[i]) == Some(r.value[i])
  {
    if IsBlank(query) then Err(MissingQuery)
    else match search(query, ClampMaxResults(maxResults, PlaylistSearchLimit))
      case None => Err(SearchProcessError)
      case Some(info) =>
        if info == map[] || !HasTruthy(info, "entries") then Ok([])
        else match Elements(info["entries"])
          case None => Err(SearchProcessError)
          case Some(ds) =>
            match PlaylistHits(ds)
            case None => Err(SearchProcessError)
            case Some(rows) => Ok(rows)
  }

  // ------------------------------------------------------ cache-or-fetch

  const InvalidId := ApiError(400, "INVALID_ID")
  const NoFormats := ApiError(404, "NO_FORMATS")
  const StorageError := ApiError(500, "STORAGE_ERROR")
  const ExtractionError := ApiError(500, "EXTRACTION_ERROR")

  /** What yt-dlp reports for one video: its top-level fields and its format
      list (a missing "formats" key is the empty list). */
  datatype VideoMeta = VideoMeta(fields: Row, formats: seq<RawFormat>)

  /** `{"format": ..., "filesize": ...}`. */
  function QualityValue(q: Quality): Value {
    Dict(map["format" := Str(q.format), "filesize" := Int(q.filesize)])
  }

  function QualitiesValue(qs: seq<Quality>): Value {
    List(seq(|qs|, i requires 0 <= i < |qs| => QualityValue(qs[i])))
  }

  /** The `video_info` dict `get_video_info` stores and returns. */
  function VideoRecord(videoId: string, meta: VideoMeta, video: seq<Quality>, audio: seq<Quality>): Row {
    map[
      "video_id" := Str(videoId),
      "title" := Get(meta.fields, "title", Str("Unknown")),
      "thumbnail" := Str(ThumbnailUrl(videoId)),
      "duration" := Get(meta.fields, "duration", Int(0)),
      "uploader" := Get(meta.fields, "uploader", Str("Unknown")),
      "upload_date" := Get(meta.fields, "upload_date", Str("")),
      "description" := Get(meta.fields, "description", Str("")),
      "video_qualities" := QualitiesValue(video),
      "audio_qualities" := QualitiesValue(audio)]
  }

  /** The stored record names its own video, and its thumbnail leads back to it. */
  lemma VideoRecordNamesVideo(videoId: string, meta: VideoMeta, video: seq<Quality>, audio: seq<Quality>)
    ensures var rec := VideoRecord(videoId, meta, video, audio);
      rec["video_id"] == Str(videoId) && rec["thumbnail"].Str? && VideoIdOfThumbnail(rec["thumbnail"].s) == Some(videoId)
  {
    UrlsRoundTrip(videoId);
  }

  /** The adjusted video entries keep the selected formats: the tiers yt-dlp
      offers, in enumeration order, each once; so do the audio entries. */
  lemma VideoQualitiesListed(fs: seq<RawFormat>, video: seq<Quality>)
    requires WithAudioSize(SelectTiers(VideoQualityList(), fs), SelectTiers(AudioQualityList(), fs)) == video
    ensures Formats(video) == Formats(SelectTiers(VideoQualityList(), fs))
    ensures forall t :: t in Formats(video) <==> t in VideoQualityList() && Offered(fs, t)
    ensures Distinct(Formats(video)) && Distinct(Formats(SelectTiers(AudioQualityList(), fs)))
  {
    var sel := SelectTiers(VideoQualityList(), fs);
    assert Formats(video) == Formats(sel);
    forall t ensures t in Formats(video) <==> t in VideoQualityList() && Offered(fs, t) {
      SelectTiersListed(VideoQualityList(), fs, t);
    }
    VideoListDistinct();
    AudioListDistinct();
    SelectTiersDistinct(VideoQualityList(), fs);
    SelectTiersDistinct(AudioQualityList(), fs);
  }

  /** `get_video_info`. `cached` is what `db.get_video` answers (its errors
      pass through, as that call is outside the try block), `extracted` what
      yt-dlp reports for the watch URL (None when it raises) and `store` what
      `db.store_video_info` answers. `requested` is the URL handed to yt-dlp,
      `stored` the record handed to the store. */
  method GetVideoInfo(videoId: string, cached: Result<Option<Row>>, extracted: Option<VideoMeta>, store: Result<bool>)
    returns (res: Result<Row>, requested: Option<string>, stored: Option<Row>)
    ensures IsBlank(videoId) ==> res == Err(InvalidId) && requested == None && stored == None
    ensures !IsBlank(videoId) && cached.Err? ==> res == Err(cached.error) && requested == None && stored == None
    ensures !IsBlank(videoId) && cached.Ok? && cached.value.Some? && cached.value.value != map[] ==>
      res == Ok(cached.value.value) && requested == None && stored == None
    ensures requested.Some? <==> !IsBlank(videoId) && cached.Ok? && (cached.value.None? || cached.value.value == map[])
    ensures requested.Some? ==> requested.value == VideoUrl(videoId)
    ensures requested.Some? && extracted.None? ==> res == Err(ExtractionError) && stored == None
    ensures requested.Some? && extracted.Some? && extracted.value.formats == [] ==> res == Err(NoFormats) && stored == None
    ensures requested.Some? && extracted.Some? && extracted.value.formats != [] ==>
      var fs := extracted.value.formats;
      var audio := SelectTiers(AudioQualityList(), fs);
      var video := WithAudioSize(SelectTiers(VideoQualityList(), fs), audio);
      && stored == Some(VideoRecord(videoId, extracted.value, video, audio))
      && res == match store
                case Ok(true) => Ok(stored.value)
                case Ok(false) => Err(StorageError)
                case Err(e) => Err(e)
  {
    requested, stored := None, None;
    if IsBlank(videoId) {
      return Err(InvalidId), requested, stored;
    }
    if cached.Err? {
      return Err(cached.error), requested, stored;
    }
    if cached.value.Some? && cached.value.value != map[] {
      return Ok(cached.value.value), requested, stored;
    }
    requested := Some(VideoUrl(videoId));
    if extracted.None? {
      return Err(ExtractionError), requested, stored;
    }
    var info := extracted.value;
    if info.formats == [] {
      return Err(NoFormats), requested, stored;
    }
    var audio := ExtractAudioQualities(info.formats);
    var video := ExtractVideoQualities(info.formats);
    video := AddAudioSize(video, audio);
    var record := VideoRecord(videoId, info, video, audio);
    stored := Some(record);
    match store
    case Ok(true) => res := Ok(record);
    case Ok(false) => res := Err(StorageError);
    case Err(e) => res := Err(e);
  }

  /** The id `entry.get("id", "")` of a playlist entry; None when the entry is
      not a dict or the id is not a string (concatenating it raises). */
  function EntryVideoId(e: Value): (r: Option<string>)
    ensures r.Some? <==> e.Dict? && Get(e.fields, "id", Str("")).Str?
    ensures r.Some? ==> Str(r.value) == Get(e.fields, "id", Str(""))
  {
    if e.Dict? && Get(e.fields, "id", Str("")).Str? then Some(Get(e.fields, "id", Str("")).s) else None
  }

  /** The row `get_playlist_info` appends for one entry. */
  function PlaylistVideo(videoId: string, f: Row): Row {
    map[
      "video_id" := Str(videoId),
      "title" := Get(f, "title", Str("Unknown Video")),
      "thumbnail" := Str(ThumbnailUrl(videoId)),
      "duration" := Get(f, "duration", Int(0)),
      "uploader" := Get(f, "uploader", Str("Unknown")),
      "upload_date" := Get(f, "upload_date", Str("")),
      "description" := Get(f, "description", Str(""))]
  }

  /** The rows of the truthy entries; None when one of them fails. */
  function PlaylistVideos(es: seq<Value>): Option<seq<Row>>
    decreases |es|
  {
    if es == [] then Some([])
    else
      match PlaylistVideos(es[..|es| - 1])
      case None => None
      case Some(rows) =>
        var e := es[|es| - 1];
        if !Truthy(e) then Some(rows)
        else match EntryVideoId(e)
          case None => None
          case Some(id) => Some(rows + [PlaylistVideo(id, e.fields)])
  }

  /** The number of truthy entries. */
  function TruthyCount(es: seq<Value>): (n: nat)
    ensures n <= |es|
  {
    if es == [] then 0 else TruthyCount(es[..|es| - 1]) + (if Truthy(es[|es| - 1]) then 1 else 0)
  }

  /** One row per truthy entry, each naming its own video and thumbnail; the
      whole list fails iff some truthy entry is no dict or has a non-string id. */
  lemma {:induction false} PlaylistVideosShape(es: seq<Value>)
    ensures PlaylistVideos(es).Some? <==> forall i :: 0 <= i < |es| && Truthy(es[i]) ==> EntryVideoId(es[i]).Some?
    ensures PlaylistVideos(es).Some? ==> |PlaylistVideos(es).value| == TruthyCount(es)
    ensures PlaylistVideos(es).Some? ==> forall k :: 0 <= k < |PlaylistVideos(es).value| ==>
      var v := PlaylistVideos(es).value[k];
      "video_id" in v && "thumbnail" in v && v["video_id"].Str? && v["thumbnail"] == Str(ThumbnailUrl(v["video_id"].s))
    decreases |es|
  {
    if es != [] {
      var init := es[..|es| - 1];
      PlaylistVideosShape(init);
      assert forall i :: 0 <= i < |init| ==> init[i] == es[i];
    }
  }

  /** The rows of a prefix of the entries begin the rows of all of them. */
  lemma {:induction false} PlaylistVideosPrefix(es: seq<Value>, n: nat)
    requires n <= |es| && PlaylistVideos(es).Some?
    ensures PlaylistVideos(es[..n]).Some? && PlaylistVideos(es[..n]).value <= PlaylistVideos(es).value
    decreases |es|
  {
    if n < |es| {
      var init := es[..|es| - 1];
      assert init[..n] == es[..n];
      PlaylistVideosPrefix(init, n);
    } else {
      assert es[..n] == es;
    }
  }

  /** The row of truthy entry `j` comes after those of the truthy entries
      before it, and holds that entry's id and fields. */
  lemma PlaylistVideosAt(es: seq<Value>, j: nat)
    requires PlaylistVideos(es).Some? && j < |es| && Truthy(es[j])
    ensures EntryVideoId(es[j]).Some?
    ensures TruthyCount(es[..j]) < |PlaylistVideos(es).value|
    ensures PlaylistVideos(es).value[TruthyCount(es[..j])] == PlaylistVideo(EntryVideoId(es[j]).value, es[j].fields)
  {
    var pre := es[..j + 1];
    PlaylistVideosPrefix(es, j + 1);
    assert pre[..j] == es[..j] && pre[j] == es[j];
    PlaylistVideosShape(es[..j]);
  }

  /** The playlist thumbnail: the first entry's video thumbnail when that
      entry is truthy, otherwise the best of yt-dlp's thumbnails. */
  function PlaylistThumbnail(info: Row, es: seq<Value>): Value {
    if es != [] && Truthy(es[0]) && EntryVideoId(es[0]).Some? then Str(ThumbnailUrl(EntryVideoId(es[0]).value))
    else BestThumbnail(Get(info, "thumbnails", List([])))
  }

  /** The `playlist_info` dict `get_playlist_info` stores and returns. */
  function PlaylistRecord(playlistId: string, info: Row, es: seq<Value>, videos: seq<Row>): Row {
    map[
      "playlist_id" := Str(playlistId),
      "title" := Get(info, "title", Str("Unknown Playlist")),
      "uploader" := Get(info, "uploader", Str("Unknown")),
      "description" := Get(info, "description", Str("")),
      "thumbnail" := PlaylistThumbnail(info, es),
      "total_videos" := Int(|es|),
      "videos" := List(seq(|videos|, i requires 0 <= i < |videos| => Dict(videos[i])))]
  }

  /** When the first entry is truthy the playlist shows its first video's
      thumbnail. */
  lemma PlaylistThumbnailIsFirstVideos(info: Row, es: seq<Value>)
    requires PlaylistVideos(es).Some? && es != [] && Truthy(es[0])
    ensures PlaylistVideos(es).value != [] && "thumbnail" in PlaylistVideos(es).value[0]
      && PlaylistThumbnail(info, es) == PlaylistVideos(es).value[0]["thumbnail"]
  {
    PlaylistVideosFirst(es);
  }

  lemma {:induction false} PlaylistVideosFirst(es: seq<Value>)
    requires PlaylistVideos(es).Some? && es != [] && Truthy(es[0])
    ensures EntryVideoId(es[0]).Some? && PlaylistVideos(es).value != []
      && PlaylistVideos(es).value[0] == PlaylistVideo(EntryVideoId(es[0]).value, es[0].fields)
    decreases |es|
  {
    var init := es[..|es| - 1];
    if |es| == 1 {
      assert init == [];
    } else {
      assert init[0] == es[0];
      PlaylistVideosFirst(init);
    }
  }

  /** `get_playlist_info`. `cached` is what `db.get_playlist` answers,
      `extracted` the info dict yt-dlp reports for the playlist URL (None when
      it raises) and `store` what `db.store_playlist_info` answers. */
  method GetPlaylistInfo(playlistId: string, cached: Result<Option<Row>>, extracted: Option<Row>, store: Result<bool>)
    returns (res: Result<Row>, requested: Option<string>, stored: Option<Row>)
    ensures IsBlank(playlistId) ==> res == Err(InvalidId) && requested == None && stored == None
    ensures !IsBlank(playlistId) && cached.Err? ==> res == Err(cached.error) && requested == None && stored == None
    ensures !IsBlank(playlistId) && cached.Ok? && cached.value.Some? && cached.value.value != map[] ==>
      res == Ok(cached.value.value) && requested == None && stored == None
    ensures requested.Some? <==> !IsBlank(playlistId) && cached.Ok? && (cached.value.None? || cached.value.value == map[])
    ensures requested.Some? ==> requested.value == PlaylistUrl(playlistId)
    ensures requested.Some? && extracted.None? ==> res == Err(ExtractionError) && stored == None
    ensures requested.Some? && extracted.Some? ==>
      var info := extracted.value;
      match Elements(Get(info, "entries", List([])))
      case None => res == Err(ExtractionError) && stored == None
      case Some(es) =>
        match PlaylistVideos(es)
        case None => res == Err(ExtractionError) && stored == None
        case Some(videos) =>
          && stored == Some(PlaylistRecord(playlistId, info, es, videos))
          && res == match store
                    case Ok(true) => Ok(stored.value)
                    case Ok(false) => Err(StorageError)
                    case Err(e) => Err(e)
  {
    requested, stored := None, None;
    if IsBlank(playlistId) {
      return Err(InvalidId), requested, stored;
    }
    if cached.Err? {
      return Err(cached.error), requested, stored;
    }
    if cached.value.Some? && cached.value.value != map[] {
      return Ok(cached.value.value), requested, stored;
    }
    requested := Some(PlaylistUrl(playlistId));
    if extracted.None? {
      return Err(ExtractionError), requested, stored;
    }
    var info := extracted.value;
    var thumbnail := ExtractThumbnail(Get(info, "thumbnails", List([])));
    var entries := Elements(Get(info, "entries", List([])));
    if entries.None? {
      return Err(ExtractionError), requested, stored;
    }
    var es := entries.value;
    var videos: seq<Row> := [];
    var idx := 0;
    while idx < |es|
      invariant 0 <= idx <= |es|
      invariant PlaylistVideos(es[..idx]) == Some(videos)
      invariant thumbnail == PlaylistThumbnail(info, es[..idx])
    {
      var entry := es[idx];
      assert es[..idx + 1][..idx] == es[..idx];
      if Truthy(entry) {
        var id := EntryVideoId(entry);
        if id.None? {
          assert PlaylistVideos(es[..idx + 1]) == None;
          PlaylistVideosPrefixFails(es, idx + 1);
          return Err(ExtractionError), requested, stored;
        }
        if idx == 0 {
          thumbnail := Str(ThumbnailUrl(id.value));
        }
        videos := videos + [PlaylistVideo(id.value, entry.fields)];
      }
      idx := idx + 1;
    }
    assert es[..|es|] == es;
    var record := PlaylistRecord(playlistId, info, es, videos);
    stored := Some(record);
    match store
    case Ok(true) => res := Ok(record);
    case Ok(false) => res := Err(StorageError);
    case Err(e) => res := Err(e);
  }

  /** Once a prefix of the entries fails, the whole list does. */
  lemma {:induction false} PlaylistVideosPrefixFails(es: seq<Value>, n: nat)
    requires n <= |es| && PlaylistVideos(es[..n]).None?
    ensures PlaylistVideos(es).None?
    decreases |es| - n
  {
    if n < |es| {
      assert es[..n + 1][..n] == es[..n];
      PlaylistVideosPrefixFails(es, n + 1);
    } else {
      assert es[..n] == es;
    }
  }
}
