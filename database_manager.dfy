/** The cache and plan rules of the Supabase database manager: the
    `is_cached` flags of `get_video`, the validation of `store_cached_format`,
    the access-count increment of `get_cached_format`, the integer statistics
    of `get_cache_stats`, the plan merges of `get_user_plans` and
    `get_user_plan`, and the guard of `cleanup_expired_cache`. Tables are
    sequences of rows; a query that raises is a `Failure`. */
module Database {
  import opened Common

  /** How a Supabase call can raise: postgrest's `APIError`, or any other exception. */
  datatype Failure = ClientError | OtherError

  /** What a Supabase call answers: the response rows, or how it raised. */
  datatype Reply = Answer(rows: seq<Row>) | Raised(failure: Failure)

  const DatabaseError := ApiError(500, "DATABASE_ERROR")
  const UnexpectedError := ApiError(500, "UNEXPECTED_ERROR")

  /** The two handlers that close every try block: `except APIError` and
      `except Exception`. */
  function Handled(f: Failure): (e: ApiError)
    ensures e.status == 500
    ensures e == DatabaseError <==> f == ClientError
  {
    if f == ClientError then DatabaseError else UnexpectedError
  }

  // ----------------------------------------------------------------- queries

  /** `.eq(column, v)`: the rows whose column holds `v`, in table order (a
      missing column reads as null). */
  function Where(rows: seq<Row>, column: string, v: Value): (r: seq<Row>)
    ensures |r| <= |rows|
    ensures forall row :: row in r <==> row in rows && Get(row, column, Null) == v
  {
    if rows == [] then []
    else (if Get(rows[0], column, Null) == v then [rows[0]] else []) + Where(rows[1..], column, v)
  }

  /** The first row of a filtered answer is the first matching row of the table. */
  lemma {:induction false} WhereFirst(rows: seq<Row>, column: string, v: Value)
    requires Where(rows, column, v) != []
    ensures exists k ::
      (0 <= k < |rows| && rows[k] == Where(rows, column, v)[0]
       && forall j :: 0 <= j < k ==> Get(rows[j], column, Null) != v)
  {
    if Get(rows[0], column, Null) != v {
      WhereFirst(rows[1..], column, v);
      var k :| 0 <= k < |rows[1..]| && rows[1..][k] == Where(rows[1..], column, v)[0]
        && forall j :: 0 <= j < k ==> Get(rows[1..][j], column, Null) != v;
      assert rows[k + 1] == Where(rows, column, v)[0];
      forall j | 0 <= j < k + 1 ensures Get(rows[j], column, Null) != v {
        if 0 < j {
          assert rows[j] == rows[1..][j - 1];
        }
      }
    } else {
      assert rows[0] == Where(rows, column, v)[0];
    }
  }

  /** The `.eq` filter keeps the rows it answers in table order. */
  lemma {:induction false} WhereOrdered(rows: seq<Row>, column: string, v: Value)
    ensures IsSubsequence(Where(rows, column, v), rows)
  {
    if rows != [] {
      WhereOrdered(rows[1..], column, v);
      var w, w' := Where(rows, column, v), Where(rows[1..], column, v);
      if Get(rows[0], column, Null) == v {
        assert w[0] == rows[0] && w[1..] == w';
      } else {
        assert w == w';
      }
    }
  }

  /** The `.eq` filter answers each matching row as often as the table holds
      it, and no other row. */
  lemma {:induction false} WhereCounts(rows: seq<Row>, column: string, v: Value)
    ensures forall row :: multiset(Where(rows, column, v))[row] == if Get(row, column, Null) == v then multiset(rows)[row] else 0
  {
    if rows != [] {
      WhereCounts(rows[1..], column, v);
      assert rows == [rows[0]] + rows[1..];
      var w, w' := Where(rows, column, v), Where(rows[1..], column, v);
      assert multiset(rows) == multiset{rows[0]} + multiset(rows[1..]);
      if Get(rows[0], column, Null) == v {
        assert multiset(w) == multiset{rows[0]} + multiset(w');
      } else {
        assert w == w';
      }
    }
  }

  /** The first row whose column holds `v`, scanning the table in order. */
  function FirstWhere(rows: seq<Row>, column: string, v: Value): Option<Row>
  {
    if rows == [] then None
    else if Get(rows[0], column, Null) == v then Some(rows[0])
    else FirstWhere(rows[1..], column, v)
  }

  /** The scan finds nothing iff no row matches, and otherwise the row at the
      first matching position. */
  lemma {:induction false} FirstWhereSpec(rows: seq<Row>, column: string, v: Value)
    ensures FirstWhere(rows, column, v).None? <==> forall i :: 0 <= i < |rows| ==> Get(rows[i], column, Null) != v
    ensures FirstWhere(rows, column, v).Some? ==> exists k ::
      (0 <= k < |rows| && rows[k] == FirstWhere(rows, column, v).value && Get(rows[k], column, Null) == v
       && forall j :: 0 <= j < k ==> Get(rows[j], column, Null) != v)
  {
    if rows != [] && Get(rows[0], column, Null) != v {
      var rest := rows[1..];
      FirstWhereSpec(rest, column, v);
      assert forall i :: 1 <= i < |rows| ==> rows[i] == rest[i - 1];
      if FirstWhere(rest, column, v).Some? {
        var k :| 0 <= k < |rest| && rest[k] == FirstWhere(rest, column, v).value && Get(rest[k], column, Null) == v
          && forall j :: 0 <= j < k ==> Get(rest[j], column, Null) != v;
        assert rows[k + 1] == rest[k];
      }
    } else if rows != [] {
      assert Get(rows[0], column, Null) == v;
    }
  }

  /** A filtered answer is empty iff the scan finds nothing, and its first
      row is the one the scan finds: `response.data[0]` is the first match. */
  lemma {:induction false} WhereHead(rows: seq<Row>, column: string, v: Value)
    ensures Where(rows, column, v) == [] <==> FirstWhere(rows, column, v).None?
    ensures Where(rows, column, v) != [] ==> Where(rows, column, v)[0] == FirstWhere(rows, column, v).value
  {
    if rows != [] {
      WhereHead(rows[1..], column, v);
    }
  }

  // ------------------------------------------------------- get_video flags

  const InvalidVideoId := ApiError(400, "INVALID_VIDEO_ID")

  /** The quality dicts a stored quality list holds; None when the loop
      setting `is_cached` raises (the value cannot be iterated, or an element
      is not a dict). */
  function QualityDicts(v: Value): (r: Option<seq<Row>>)
    ensures r.Some? ==>
      (Elements(v).Some? && |r.value| == |Elements(v).value|
       && forall i :: 0 <= i < |r.value| ==> Elements(v).value[i] == Dict(r.value[i]))
  {
    match Elements(v)
    case None => None
    case Some(items) =>
      if forall i :: 0 <= i < |items| ==> items[i].Dict? then
        Some(seq(|items|, i requires 0 <= i < |items| => items[i].fields))
      else None
  }

  /** `f"{prefix}{quality.get('format', '')}"`; None for a list or dict
      format, whose rendering is not modelled. */
  function QualityTag(prefix: string, q: Row): Option<string> {
    match PyStr(Get(q, "format", Str("")))
    case Some(s) => Some(prefix + s)
    case None => None
  }

  /** `any(f.get("tag") == tag for f in formats)`. */
  function HasTag(formats: seq<Row>, tag: string): (b: bool)
    ensures b <==> exists k :: 0 <= k < |formats| && Get(formats[k], "tag", Null) == Str(tag)
  {
    if formats == [] then false
    else
      assert forall k :: 1 <= k < |formats| ==> formats[k] == formats[1..][k - 1];
      Get(formats[0], "tag", Null) == Str(tag) || HasTag(formats[1..], tag)
  }

  /** A quality is cached iff a cached-format row carries its tag. */
  predicate IsCached(prefix: string, q: Row, formats: seq<Row>) {
    match QualityTag(prefix, q)
    case None => false
    case Some(t) => HasTag(formats, t)
  }

  /** The quality dicts with their `is_cached` flags. */
  function Flagged(qs: seq<Row>, prefix: string, formats: seq<Row>): seq<Row> {
    seq(|qs|, i requires 0 <= i < |qs| => qs[i]["is_cached" := Bool(IsCached(prefix, qs[i], formats))])
  }

  /** Every quality gets a flag and keeps its other fields; the flag is true
      iff some cached format's tag is the prefix followed by its format, so
      without cached formats every flag is false. */
  lemma FlaggedMeaning(qs: seq<Row>, prefix: string, formats: seq<Row>)
    ensures |Flagged(qs, prefix, formats)| == |qs|
    ensures forall i :: 0 <= i < |qs| ==>
      var f := Flagged(qs, prefix, formats)[i];
      && "is_cached" in f
      && (f["is_cached"] == Bool(true) <==>
          PyStr(Get(qs[i], "format", Str(""))).Some? && exists k ::
            (0 <= k < |formats| && Get(formats[k], "tag", Null) == Str(prefix + PyStr(Get(qs[i], "format", Str(""))).value)))
      && (f["is_cached"] == Bool(true) || f["is_cached"] == Bool(false))
      && forall key :: key != "is_cached" ==> (key in f <==> key in qs[i]) && (key in qs[i] ==> f[key] == qs[i][key])
    ensures formats == [] ==> forall i :: 0 <= i < |qs| ==> Flagged(qs, prefix, formats)[i]["is_cached"] == Bool(false)
  {
  }

  /** A numeric format is rendered like Python's f-string does: a quality
      `{"format": 720}` is cached when a format tagged `video_720` is. */
  lemma IntFormatIsCached()
    ensures IsCached("video_", map["format" := Int(720)], [map["tag" := Str("video_720")]])
    ensures !IsCached("video_", map["format" := Int(720)], [map["tag" := Str("video_72")]])
  {
    assert NatToDecimal(7) == "7";
    assert NatToDecimal(72) == "72";
    assert NatToDecimal(720) == NatToDecimal(72) + [DigitChar(0)] == "720";
  }

  /** Without cached formats the prefix does not matter: every flag is false. */
  lemma FlaggedWithoutFormats(qs: seq<Row>, p1: string, p2: string)
    ensures Flagged(qs, p1, []) == Flagged(qs, p2, [])
  {
    assert forall i :: 0 <= i < |qs| ==> !IsCached(p1, qs[i], []) && !IsCached(p2, qs[i], []);
  }

  /** The first loop of `get_video`: every quality gets `is_cached = False`. */
  method ClearFlags(qs: seq<Row>) returns (out: seq<Row>)
    ensures out == Flagged(qs, "", [])
  {
    out := qs;
    var i := 0;
    while i < |out|
      invariant 0 <= i <= |out| == |qs|
      invariant forall k :: 0 <= k < i ==> out[k] == qs[k]["is_cached" := Bool(false)]
      invariant forall k :: i <= k < |qs| ==> out[k] == qs[k]
    {
      out := out[i := out[i]["is_cached" := Bool(false)]];
      i := i + 1;
    }
    assert forall k :: 0 <= k < |qs| ==> !IsCached("", qs[k], []);
  }

  /** The second loop of `get_video`: a quality whose tag some cached format
      carries gets `is_cached = True`. */
  method SetFlags(qs: seq<Row>, prefix: string, formats: seq<Row>) returns (out: seq<Row>)
    requires forall k :: 0 <= k < |qs| ==> "is_cached" in qs[k] && qs[k]["is_cached"] == Bool(false)
    ensures out == Flagged(qs, prefix, formats)
  {
    out := qs;
    var i := 0;
    while i < |out|
      invariant 0 <= i <= |out| == |qs|
      invariant forall k :: 0 <= k < i ==> out[k] == Flagged(qs, prefix, formats)[k]
      invariant forall k :: i <= k < |qs| ==> out[k] == qs[k]
    {
      var tag := QualityTag(prefix, out[i]);
      if tag.Some? && HasTag(formats, tag.value) {
        out := out[i := out[i]["is_cached" := Bool(true)]];
      } else {
        assert qs[i]["is_cached" := Bool(false)] == qs[i];
      }
      i := i + 1;
    }
  }

  /** Clearing and then setting the flags gives the flags. */
  lemma {:induction false} ClearThenSet(qs: seq<Row>, prefix: string, formats: seq<Row>)
    ensures Flagged(Flagged(qs, "", []), prefix, formats) == Flagged(qs, prefix, formats)
  {
    var c := Flagged(qs, "", []);
    forall i | 0 <= i < |qs| ensures Flagged(c, prefix, formats)[i] == Flagged(qs, prefix, formats)[i] {
      assert Get(c[i], "format", Str("")) == Get(qs[i], "format", Str(""));
      assert QualityTag(prefix, c[i]) == QualityTag(prefix, qs[i]);
    }
  }

  /** The video's `key` list replaced by the flagged dicts, as the in-place
      update leaves it; nothing changes when the key is absent or is an
      empty string or dict. */
  function WithQualities(row: Row, key: string, qs: seq<Row>): Row {
    if key in row && row[key].List? then row[key := List(seq(|qs|, i requires 0 <= i < |qs| => Dict(qs[i])))] else row
  }

  /** The record `get_video` returns for its matching row, given the cached
      formats it found; None when setting a flag raises. */
  function FlaggedVideo(row: Row, formats: seq<Row>): Option<Row> {
    match (QualityDicts(Get(row, "video_qualities", List([]))), QualityDicts(Get(row, "audio_qualities", List([]))))
    case (Some(video), Some(audio)) =>
      Some(WithQualities(WithQualities(row, "video_qualities", Flagged(video, "video_", formats)),
                         "audio_qualities", Flagged(audio, "audio_", formats)))
    case _ => None
  }

  /** The flags change the two quality lists only. */
  lemma FlaggedVideoKeepsFields(row: Row, formats: seq<Row>)
    requires FlaggedVideo(row, formats).Some?
    ensures forall key :: key != "video_qualities" && key != "audio_qualities" ==>
      (key in FlaggedVideo(row, formats).value <==> key in row) && (key in row ==> FlaggedVideo(row, formats).value[key] == row[key])
    ensures FlaggedVideo(row, formats).value.Keys == row.Keys
  {
  }

  /** `get_video`. `info` is the `cached_info` table and `infoFailure` says
      whether its query raises; `formats` is the `cached_formats` table and
      `formatsFail` whether that query raises (it is caught, and the flags
      stay false). */
  method GetVideo(videoId: string, info: seq<Row>, infoFailure: Option<Failure>, formats: seq<Row>, formatsFail: bool)
    returns (res: Result<Option<Row>>)
    ensures IsBlank(videoId) ==> res == Err(InvalidVideoId)
    ensures !IsBlank(videoId) && infoFailure.Some? ==> res == Err(Handled(infoFailure.value))
    ensures !IsBlank(videoId) && infoFailure.None? ==>
      var matches := Where(info, "video_id", Str(videoId));
      var known := if formatsFail then [] else Where(formats, "video_id", Str(videoId));
      && (matches == [] ==> res == Ok(None))
      && (matches != [] ==> res == match FlaggedVideo(matches[0], known)
                                   case None => Err(UnexpectedError)
                                   case Some(v) => Ok(Some(v)))
  {
    if IsBlank(videoId) {
      return Err(InvalidVideoId);
    }
    if infoFailure.Some? {
      return Err(Handled(infoFailure.value));
    }
    var matches := Where(info, "video_id", Str(videoId));
    if matches == [] {
      return Ok(None);
    }
    var record := matches[0];
    var videoQs := QualityDicts(Get(record, "video_qualities", List([])));
    if videoQs.None? {
      return Err(UnexpectedError);
    }
    var video := ClearFlags(videoQs.value);
    var audioQs := QualityDicts(Get(record, "audio_qualities", List([])));
    if audioQs.None? {
      return Err(UnexpectedError);
    }
    var audio := ClearFlags(audioQs.value);
    var known: seq<Row> := [];
    if !formatsFail {
      known := Where(formats, "video_id", Str(videoId));
      if known != [] {
        video := SetFlags(video, "video_", known);
        audio := SetFlags(audio, "audio_", known);
        ClearThenSet(videoQs.value, "video_", known);
        ClearThenSet(audioQs.value, "audio_", known);
      }
    }
    if known == [] {
      FlaggedWithoutFormats(videoQs.value, "", "video_");
      FlaggedWithoutFormats(audioQs.value, "", "audio_");
    }
    record := WithQualities(record, "video_qualities", video);
    record := WithQualities(record, "audio_qualities", audio);
    return Ok(Some(record));
  }

  // ------------------------------------------------------- get_cached_format

  const InvalidTag := ApiError(400, "INVALID_TAG")

  /** A `cached_formats` row of that video with that tag. */
  predicate IsFormatOf(row: Row, videoId: string, tag: string) {
    Get(row, "video_id", Null) == Str(videoId) && Get(row, "tag", Null) == Str(tag)
  }

  /** `row` is the first row of the table of that video with that tag. */
  ghost predicate FirstFormatIs(table: seq<Row>, videoId: string, tag: string, row: Row) {
    exists k :: 0 <= k < |table| && table[k] == row && IsFormatOf(table[k], videoId, tag)
      && forall j :: 0 <= j < k ==> !IsFormatOf(table[j], videoId, tag)
  }

  /** The two `.eq` filters answer nothing exactly when no row matches both. */
  lemma WhereTwiceEmpty(rows: seq<Row>, videoId: string, tag: string)
    ensures Where(Where(rows, "video_id", Str(videoId)), "tag", Str(tag)) == [] <==>
      forall i :: 0 <= i < |rows| ==> !IsFormatOf(rows[i], videoId, tag)
  {
    var w1 := Where(rows, "video_id", Str(videoId));
    var m := Where(w1, "tag", Str(tag));
    if m != [] {
      assert m[0] in m && m[0] in w1;
      var i :| 0 <= i < |rows| && rows[i] == m[0];
      assert IsFormatOf(rows[i], videoId, tag);
    }
    forall i | 0 <= i < |rows| && IsFormatOf(rows[i], videoId, tag) ensures m != [] {
      assert rows[i] in w1;
      assert rows[i] in m;
    }
  }

  /** A first table row matching both is what the two filters answer first. */
  lemma WhereTwiceAtHead(rows: seq<Row>, videoId: string, tag: string)
    requires rows != [] && IsFormatOf(rows[0], videoId, tag)
    ensures Where(Where(rows, "video_id", Str(videoId)), "tag", Str(tag)) != []
    ensures Where(Where(rows, "video_id", Str(videoId)), "tag", Str(tag))[0] == rows[0]
  {
    var w1 := Where(rows, "video_id", Str(videoId));
    assert w1[0] == rows[0];
  }

  /** A first row matching not both is skipped by the two filters. */
  lemma WhereTwiceSkip(rows: seq<Row>, videoId: string, tag: string)
    requires rows != [] && !IsFormatOf(rows[0], videoId, tag)
    ensures Where(Where(rows, "video_id", Str(videoId)), "tag", Str(tag))
         == Where(Where(rows[1..], "video_id", Str(videoId)), "tag", Str(tag))
  {
    var w1 := Where(rows, "video_id", Str(videoId));
    var w1' := Where(rows[1..], "video_id", Str(videoId));
    if Get(rows[0], "video_id", Null) == Str(videoId) {
      assert w1[0] == rows[0] && w1[1..] == w1';
    } else {
      assert w1 == w1';
    }
  }

  /** Behind a non-matching row, the first match of the rest is the first match. */
  lemma FirstFormatIsBehind(rows: seq<Row>, videoId: string, tag: string, row: Row)
    requires rows != [] && !IsFormatOf(rows[0], videoId, tag)
    requires FirstFormatIs(rows[1..], videoId, tag, row)
    ensures FirstFormatIs(rows, videoId, tag, row)
  {
    var rest := rows[1..];
    var k :| 0 <= k < |rest| && rest[k] == row && IsFormatOf(rest[k], videoId, tag)
      && forall j :: 0 <= j < k ==> !IsFormatOf(rest[j], videoId, tag);
    assert rows[k + 1] == row && IsFormatOf(rows[k + 1], videoId, tag);
    forall j | 0 <= j < k + 1 ensures !IsFormatOf(rows[j], videoId, tag) {
      if 0 < j {
        assert rows[j] == rest[j - 1];
      }
    }
  }

  /** The first row the two `.eq` filters answer is the first row of the
      table matching both. */
  lemma {:induction false} WhereTwiceFirst(rows: seq<Row>, videoId: string, tag: string)
    requires Where(Where(rows, "video_id", Str(videoId)), "tag", Str(tag)) != []
    ensures FirstFormatIs(rows, videoId, tag, Where(Where(rows, "video_id", Str(videoId)), "tag", Str(tag))[0])
  {
    if IsFormatOf(rows[0], videoId, tag) {
      WhereTwiceAtHead(rows, videoId, tag);
      assert IsFormatOf(rows[0], videoId, tag) && rows[0] == Where(Where(rows, "video_id", Str(videoId)), "tag", Str(tag))[0];
    } else {
      WhereTwiceSkip(rows, videoId, tag);
      WhereTwiceFirst(rows[1..], videoId, tag);
      FirstFormatIsBehind(rows, videoId, tag, Where(Where(rows, "video_id", Str(videoId)), "tag", Str(tag))[0]);
    }
  }

  /** Python's `v + 1` on a read `access_count`: ints and bools (`True + 1 ==
      2`) add; anything else raises TypeError. */
  function PlusOne(v: Value): (r: Option<int>)
    ensures v.Int? ==> r == Some(v.i + 1)
    ensures v.Bool? ==> r == Some(if v.b then 2 else 1)
    ensures r.None? <==> !v.Int? && !v.Bool?
  {
    match v
    case Int(i) => Some(i + 1)
    case Bool(b) => Some(if b then 2 else 1)
    case _ => None
  }

  /** The table after `update({"access_count": count}).eq("video_id", ...).eq("tag", ...)`. */
  function SetAccessCount(table: seq<Row>, videoId: string, tag: string, count: int): (r: seq<Row>)
    ensures |r| == |table|
  {
    seq(|table|, i requires 0 <= i < |table| =>
      if IsFormatOf(table[i], videoId, tag) then table[i]["access_count" := Int(count)] else table[i])
  }

  /** `get_cached_format`: the result and the `cached_formats` table after the
      call. `selectFailure` says whether the select raises, `updateFails`
      whether the increment raises (it is caught). */
  function GetCachedFormat(videoId: string, tag: string, table: seq<Row>, selectFailure: Option<Failure>, updateFails: bool)
    : (out: (Result<Option<Row>>, seq<Row>))
    ensures IsBlank(videoId) ==> out.0 == Err(InvalidVideoId)
    ensures !IsBlank(videoId) && IsBlank(tag) ==> out.0 == Err(InvalidTag)
    ensures !IsBlank(videoId) && !IsBlank(tag) && selectFailure.Some? ==> out.0 == Err(Handled(selectFailure.value))
    ensures !IsBlank(videoId) && !IsBlank(tag) && selectFailure.None? ==> out.0.Ok?
    ensures out.0 == Ok(None) <==>
      !IsBlank(videoId) && !IsBlank(tag) && selectFailure.None? && forall i :: 0 <= i < |table| ==> !IsFormatOf(table[i], videoId, tag)
    ensures out.0.Ok? && out.0.value.Some? ==> FirstFormatIs(table, videoId, tag, out.0.value.value)
    ensures out.0.Err? ==> out.1 == table
    ensures out.0 == Ok(None) ==> out.1 == table
  {
    if IsBlank(videoId) then (Err(InvalidVideoId), table)
    else if IsBlank(tag) then (Err(InvalidTag), table)
    else if selectFailure.Some? then (Err(Handled(selectFailure.value)), table)
    else
      var matches := Where(Where(table, "video_id", Str(videoId)), "tag", Str(tag));
      WhereTwiceEmpty(table, videoId, tag);
      if matches == [] then (Ok(None), table)
      else
        WhereTwiceFirst(table, videoId, tag);
        var row := matches[0];
        match PlusOne(Get(row, "access_count", Int(0)))
        case Some(count) => (Ok(Some(row)), if updateFails then table else SetAccessCount(table, videoId, tag, count))
        case None => (Ok(Some(row)), table)
  }

  /** When some row has that video and tag, the read answers it; a working
      increment stores its count plus one (0 plus one when the row has none,
      a bool counting as 0 or 1) in every row of that video and tag and
      changes no other row. A failed increment, or a count that cannot be
      added to, leaves the table as it was. */
  lemma AccessCountIncremented(videoId: string, tag: string, table: seq<Row>, updateFails: bool)
    requires !IsBlank(videoId) && !IsBlank(tag)
    requires exists i :: 0 <= i < |table| && IsFormatOf(table[i], videoId, tag)
    ensures var (res, after) := GetCachedFormat(videoId, tag, table, None, updateFails);
      && res.Ok? && res.value.Some? && FirstFormatIs(table, videoId, tag, res.value.value)
      && |after| == |table|
      && var count := PlusOne(Get(res.value.value, "access_count", Int(0)));
      && (updateFails || count.None? ==> after == table)
      && (!updateFails && count.Some? ==>
          forall i :: 0 <= i < |table| ==>
            if IsFormatOf(table[i], videoId, tag)
            then after[i] == table[i]["access_count" := Int(count.value)]
            else after[i] == table[i])
  {
    WhereTwiceEmpty(table, videoId, tag);
    var m := Where(Where(table, "video_id", Str(videoId)), "tag", Str(tag));
    assert m != [];
    var count := PlusOne(Get(m[0], "access_count", Int(0)));
    var out := GetCachedFormat(videoId, tag, table, None, updateFails);
    assert out.0 == Ok(Some(m[0]));
    if !updateFails && count.Some? {
      assert out.1 == SetAccessCount(table, videoId, tag, count.value);
    } else {
      assert out.1 == table;
    }
  }

  // ----------------------------------------------------- store_cached_format

  const InvalidFormatInfo := ApiError(400, "INVALID_FORMAT_INFO")
  const StorageFailed := ApiError(500, "STORAGE_FAILED")
  const RequiredFields: seq<string> := ["video_id", "tag", "path"]

  /** `str.upper()` on ASCII letters. */
  function Upper(s: string): (r: string)
    ensures |r| == |s|
  {
    seq(|s|, i requires 0 <= i < |s| => if 'a' <= s[i] <= 'z' then (s[i] as int - 32) as char else s[i])
  }

  /** `MISSING_<FIELD>`. */
  function MissingField(field: string): ApiError {
    ApiError(400, "MISSING_" + Upper(field))
  }

  /** The error for the first field whose value is falsy or absent. */
  function FirstMissing(info: Row, fields: seq<string>): (r: Option<ApiError>)
    ensures r.None? <==> forall i :: 0 <= i < |fields| ==> HasTruthy(info, fields[i])
    ensures r.Some? ==> exists i ::
      (0 <= i < |fields| && !HasTruthy(info, fields[i])
       && r.value == MissingField(fields[i]) && forall j :: 0 <= j < i ==> HasTruthy(info, fields[j]))
  {
    if fields == [] then None
    else if !HasTruthy(info, fields[0]) then Some(MissingField(fields[0]))
    else
      var r := FirstMissing(info, fields[1..]);
      assert forall i :: 1 <= i < |fields| ==> fields[i] == fields[1..][i - 1];
      if r.Some? then
        var i :| 0 <= i < |fields[1..]| && !HasTruthy(info, fields[1..][i])
          && r.value == MissingField(fields[1..][i]) && forall j :: 0 <= j < i ==> HasTruthy(info, fields[1..][j]);
        assert forall j :: 0 <= j < i + 1 ==> HasTruthy(info, fields[j]) by {
          forall j | 0 <= j < i + 1 ensures HasTruthy(info, fields[j]) {
            if 0 < j {
              assert fields[j] == fields[1..][j - 1];
            }
          }
        }
        r
      else r
  }

  /** The fields are checked in the order video_id, tag, path, and the first
      missing one is reported. */
  lemma RequiredFieldsInOrder(info: Row)
    ensures !HasTruthy(info, "video_id") ==> FirstMissing(info, RequiredFields) == Some(ApiError(400, "MISSING_VIDEO_ID"))
    ensures HasTruthy(info, "video_id") && !HasTruthy(info, "tag") ==> FirstMissing(info, RequiredFields) == Some(ApiError(400, "MISSING_TAG"))
    ensures HasTruthy(info, "video_id") && HasTruthy(info, "tag") && !HasTruthy(info, "path") ==>
      FirstMissing(info, RequiredFields) == Some(ApiError(400, "MISSING_PATH"))
    ensures HasTruthy(info, "video_id") && HasTruthy(info, "tag") && HasTruthy(info, "path") ==> FirstMissing(info, RequiredFields) == None
  {
    var f := RequiredFields;
    assert f[1..] == ["tag", "path"] && f[1..][1..] == ["path"] && f[1..][1..][1..] == [];
    assert MissingField("video_id") == ApiError(400, "MISSING_VIDEO_ID") by {
      assert Upper("video_id") == "VIDEO_ID";
    }
    assert MissingField("tag") == ApiError(400, "MISSING_TAG") by {
      assert Upper("tag") == "TAG";
    }
    assert MissingField("path") == ApiError(400, "MISSING_PATH") by {
      assert Upper("path") == "PATH";
    }
    if HasTruthy(info, "video_id") {
      assert FirstMissing(info, f) == FirstMissing(info, ["tag", "path"]);
      if HasTruthy(info, "tag") {
        assert FirstMissing(info, ["tag", "path"]) == FirstMissing(info, ["path"]);
      }
    }
  }

  /** The loop over the required fields. */
  method CheckRequiredFields(info: Row) returns (err: Option<ApiError>)
    ensures err == FirstMissing(info, RequiredFields)
  {
    var i := 0;
    while i < |RequiredFields|
      invariant 0 <= i <= |RequiredFields|
      invariant FirstMissing(info, RequiredFields) == FirstMissing(info, RequiredFields[i..])
    {
      assert RequiredFields[i..][1..] == RequiredFields[i + 1..];
      var field := RequiredFields[i];
      if !(field in info && Truthy(info[field])) {
        return Some(MissingField(field));
      }
      i := i + 1;
    }
    return None;
  }

  /** `{**format_info, "access_count": 0}`. */
  function WithAccessCountZero(info: Row): (r: Row)
    ensures r.Keys == info.Keys + {"access_count"}
    ensures r["access_count"] == Int(0)
    ensures forall k :: k in info && k != "access_count" ==> r[k] == info[k]
  {
    info["access_count" := Int(0)]
  }

  /** How the try block of `store_cached_format` ends, as written: the
      STORAGE_FAILED error it raises for an empty answer is an Exception, so
      the `except Exception` handler turns it into UNEXPECTED_ERROR. */
  function InsertReplyAsWritten(insert: Reply): (r: Result<seq<Row>>)
    ensures r.Ok? <==> insert.Answer? && insert.rows != []
    ensures r.Ok? ==> r.value == insert.rows
    ensures insert.Answer? && insert.rows == [] ==> r == Err(UnexpectedError)
    ensures insert.Raised? ==> r == Err(Handled(insert.failure))
  {
    match insert
    case Raised(f) => Err(Handled(f))
    case Answer(rows) => if rows == [] then Err(UnexpectedError) else Ok(rows)
  }

  /** How it ends when the raised STORAGE_FAILED passes through, as the
      `except ApiError: raise` clauses elsewhere in the backend do. */
  function InsertReply(insert: Reply): (r: Result<seq<Row>>)
    ensures r.Ok? <==> insert.Answer? && insert.rows != []
    ensures r.Ok? ==> r.value == insert.rows
    ensures r == Err(StorageFailed) <==> insert == Answer([])
    ensures insert.Raised? ==> r == Err(Handled(insert.failure))
  {
    match insert
    case Raised(f) => Err(Handled(f))
    case Answer(rows) => if rows == [] then Err(StorageFailed) else Ok(rows)
  }

  /** The two agree except on an empty answer, where the written code
      reports UNEXPECTED_ERROR instead of STORAGE_FAILED. */
  lemma StorageFailedIsRewrapped(insert: Reply)
    ensures insert != Answer([]) ==> InsertReplyAsWritten(insert) == InsertReply(insert)
    ensures InsertReplyAsWritten(Answer([])) == Err(UnexpectedError) && InsertReply(Answer([])) == Err(StorageFailed)
    ensures InsertReplyAsWritten(insert) != Err(StorageFailed)
  {
  }

  /** `store_cached_format`. `insert` is what the insert answers; `sent` is
      the row handed to it. */
  method StoreCachedFormat(formatInfo: Value, insert: Reply) returns (res: Result<seq<Row>>, sent: Option<Row>)
    ensures !(formatInfo.Dict? && formatInfo.fields != map[]) ==> res == Err(InvalidFormatInfo) && sent == None
    ensures formatInfo.Dict? && formatInfo.fields != map[] && FirstMissing(formatInfo.fields, RequiredFields).Some? ==>
      res == Err(FirstMissing(formatInfo.fields, RequiredFields).value) && sent == None
    ensures formatInfo.Dict? && formatInfo.fields != map[] && FirstMissing(formatInfo.fields, RequiredFields).None? ==>
      sent == Some(WithAccessCountZero(formatInfo.fields)) && res == InsertReply(insert)
  {
    sent := None;
    if !formatInfo.Dict? || formatInfo.fields == map[] {
      return Err(InvalidFormatInfo), sent;
    }
    var missing := CheckRequiredFields(formatInfo.fields);
    if missing.Some? {
      return Err(missing.value), sent;
    }
    sent := Some(formatInfo.fields["access_count" := Int(0)]);
    res := InsertReply(insert);
  }

  /** `store_cached_format` as written: the two guards raise before the try
      block and leave as they are; inside it, the STORAGE_FAILED raised for
      an empty insert answer is rewrapped as UNEXPECTED_ERROR. */
  function StoreCachedFormatAsWritten(formatInfo: Value, insert: Reply): (r: Result<seq<Row>>)
    ensures !(formatInfo.Dict? && formatInfo.fields != map[]) ==> r == Err(InvalidFormatInfo)
    ensures formatInfo.Dict? && formatInfo.fields != map[] && FirstMissing(formatInfo.fields, RequiredFields).Some? ==>
      r == Err(FirstMissing(formatInfo.fields, RequiredFields).value)
    ensures r.Ok? <==> (formatInfo.Dict? && formatInfo.fields != map[] && FirstMissing(formatInfo.fields, RequiredFields).None?
                        && insert.Answer? && insert.rows != [])
    ensures r.Ok? ==> r.value == insert.rows
    ensures (formatInfo.Dict? && formatInfo.fields != map[] && FirstMissing(formatInfo.fields, RequiredFields).None?
             && insert == Answer([])) ==> r == Err(UnexpectedError)
    ensures r != Err(StorageFailed)
  {
    if !formatInfo.Dict? || formatInfo.fields == map[] then Err(InvalidFormatInfo)
    else if FirstMissing(formatInfo.fields, RequiredFields).Some? then Err(FirstMissing(formatInfo.fields, RequiredFields).value)
    else InsertReplyAsWritten(insert)
  }

  // --------------------------------------------------------------- user plans

  const InvalidUserId := ApiError(400, "INVALID_USER_ID")
  const InvalidUserPlanId := ApiError(400, "INVALID_USER_PLAN_ID")
  const UserPlanNotFound := ApiError(404, "USER_PLAN_NOT_FOUND")
  const PlanNotFound := ApiError(404, "PLAN_NOT_FOUND")

  /** `{**user_plan, **plan}` once the plan's "id" is removed. */
  function MergePlan(userPlan: Row, plan: Row): Row {
    userPlan + (plan - {"id"})
  }

  /** The merge keeps the user plan's id and its other fields, and the plan's
      fields override the user plan's. */
  lemma MergePlanFields(userPlan: Row, plan: Row)
    ensures var m := MergePlan(userPlan, plan);
      && m.Keys == userPlan.Keys + (plan.Keys - {"id"})
      && ("id" in m <==> "id" in userPlan) && ("id" in userPlan ==> m["id"] == userPlan["id"])
      && (forall k :: k in plan && k != "id" ==> m[k] == plan[k])
      && (forall k :: k in userPlan && k !in plan ==> m[k] == userPlan[k])
  {
  }

  /** `get_user_plan` as written: the two 404 errors are raised inside the
      try block, so `except Exception` turns them into UNEXPECTED_ERROR. */
  function GetUserPlanAsWritten(userPlanId: string, userPlans: seq<Row>, userPlanFailure: Option<Failure>,
                                plans: seq<Row>, planFailure: Option<Failure>): (r: Result<Row>)
    ensures r != Err(UserPlanNotFound) && r != Err(PlanNotFound)
    ensures var c := GetUserPlan(userPlanId, userPlans, userPlanFailure, plans, planFailure);
      (c == Err(UserPlanNotFound) || c == Err(PlanNotFound)) ==> r == Err(UnexpectedError)
    ensures var c := GetUserPlan(userPlanId, userPlans, userPlanFailure, plans, planFailure);
      c != Err(UserPlanNotFound) && c != Err(PlanNotFound) ==> r == c
    ensures var u := FirstWhere(userPlans, "id", Str(userPlanId));
      !IsBlank(userPlanId) && userPlanFailure.None? && u.None? ==> r == Err(UnexpectedError)
  {
    match GetUserPlan(userPlanId, userPlans, userPlanFailure, plans, planFailure)
    case Err(e) => if e == UserPlanNotFound || e == PlanNotFound then Err(UnexpectedError) else Err(e)
    case ok => ok
  }

  /** `get_user_plan` with its 404 errors passed through. The user plan is
      the first row with that id, the plan the first row whose id is its
      `plan_id`. A user plan without "plan_id" or a plan without "id" raises
      KeyError, which is unexpected. */
  function GetUserPlan(userPlanId: string, userPlans: seq<Row>, userPlanFailure: Option<Failure>,
                       plans: seq<Row>, planFailure: Option<Failure>): (r: Result<Row>)
    ensures IsBlank(userPlanId) ==> r == Err(InvalidUserPlanId)
    ensures !IsBlank(userPlanId) && userPlanFailure.Some? ==> r == Err(Handled(userPlanFailure.value))
    ensures var u := FirstWhere(userPlans, "id", Str(userPlanId));
      r == Err(UserPlanNotFound) <==> !IsBlank(userPlanId) && userPlanFailure.None? && u.None?
    ensures var u := FirstWhere(userPlans, "id", Str(userPlanId));
      !IsBlank(userPlanId) && userPlanFailure.None? && u.Some? && "plan_id" !in u.value ==> r == Err(UnexpectedError)
    ensures var u := FirstWhere(userPlans, "id", Str(userPlanId));
      !IsBlank(userPlanId) && userPlanFailure.None? && u.Some? && "plan_id" in u.value && planFailure.Some? ==>
        r == Err(Handled(planFailure.value))
    ensures var u := FirstWhere(userPlans, "id", Str(userPlanId));
      r == Err(PlanNotFound) <==>
        !IsBlank(userPlanId) && userPlanFailure.None? && u.Some? && "plan_id" in u.value && planFailure.None?
        && FirstWhere(plans, "id", u.value["plan_id"]).None?
    ensures var u := FirstWhere(userPlans, "id", Str(userPlanId));
      r.Ok? <==>
        !IsBlank(userPlanId) && userPlanFailure.None? && u.Some? && "plan_id" in u.value && planFailure.None?
        && FirstWhere(plans, "id", u.value["plan_id"]).Some? && "id" in FirstWhere(plans, "id", u.value["plan_id"]).value
    ensures var u := FirstWhere(userPlans, "id", Str(userPlanId));
      r.Ok? ==> r.value == MergePlan(u.value, FirstWhere(plans, "id", u.value["plan_id"]).value)
  {
    if IsBlank(userPlanId) then Err(InvalidUserPlanId)
    else if userPlanFailure.Some? then Err(Handled(userPlanFailure.value))
    else
      var found := Where(userPlans, "id", Str(userPlanId));
      WhereHead(userPlans, "id", Str(userPlanId));
      if found == [] then Err(UserPlanNotFound)
      else
        var userPlan := found[0];
        if "plan_id" !in userPlan then Err(UnexpectedError)
        else if planFailure.Some? then Err(Handled(planFailure.value))
        else
          var planRows := Where(plans, "id", userPlan["plan_id"]);
          WhereHead(plans, "id", userPlan["plan_id"]);
          if planRows == [] then Err(PlanNotFound)
          else if "id" !in planRows[0] then Err(UnexpectedError)
          else Ok(MergePlan(userPlan, planRows[0]))
  }

  /** The written code reports exactly the two 404 cases as 500
      UNEXPECTED_ERROR; an unknown user plan is one such input. */
  lemma NotFoundIsRewrapped(userPlanId: string, plans: seq<Row>)
    requires !IsBlank(userPlanId)
    ensures GetUserPlan(userPlanId, [], None, plans, None) == Err(UserPlanNotFound)
    ensures GetUserPlanAsWritten(userPlanId, [], None, plans, None) == Err(UnexpectedError)
  {
  }

  /** The merged user plans of `get_user_plans`: each user plan whose plan
      lookup answers a row gives one merged dict; a lookup that answers
      nothing or raises (the plan ids in `unreachable`) is skipped; a user plan
      without "plan_id" raises KeyError inside the handler, which ends the
      whole call with UNEXPECTED_ERROR. */
  function MergedPlans(userPlans: seq<Row>, plans: seq<Row>, unreachable: set<Value>): Result<seq<Row>>
    decreases |userPlans|
  {
    if userPlans == [] then Ok([])
    else
      match MergedPlans(userPlans[..|userPlans| - 1], plans, unreachable)
      case Err(e) => Err(e)
      case Ok(acc) =>
        var u := userPlans[|userPlans| - 1];
        if "plan_id" !in u then Err(UnexpectedError)
        else if u["plan_id"] in unreachable || Where(plans, "id", u["plan_id"]) == [] then Ok(acc)
        else Ok(acc + [MergePlan(u, Where(plans, "id", u["plan_id"])[0])])
  }

  /** The user plans whose plan is found. */
  function Linked(userPlans: seq<Row>, plans: seq<Row>, unreachable: set<Value>): (n: nat)
    ensures n <= |userPlans|
    decreases |userPlans|
  {
    if userPlans == [] then 0
    else
      var u := userPlans[|userPlans| - 1];
      Linked(userPlans[..|userPlans| - 1], plans, unreachable)
        + (if "plan_id" in u && u["plan_id"] !in unreachable && Where(plans, "id", u["plan_id"]) != [] then 1 else 0)
  }

  /** `r` is some user plan overlaid by a plan whose id is its plan_id. */
  ghost predicate MergeOf(userPlans: seq<Row>, plans: seq<Row>, r: Row) {
    exists k, p ::
      (0 <= k < |userPlans| && p in plans
       && "plan_id" in userPlans[k] && Get(p, "id", Null) == userPlans[k]["plan_id"] && r == MergePlan(userPlans[k], p))
  }

  /** The call fails iff some user plan lacks "plan_id"; otherwise there is
      one merged dict per linked user plan, each a user plan overlaid by a
      plan whose id is its plan_id. */
  lemma MergedPlansShape(userPlans: seq<Row>, plans: seq<Row>, unreachable: set<Value>)
    ensures MergedPlans(userPlans, plans, unreachable).Ok? <==> forall k :: 0 <= k < |userPlans| ==> "plan_id" in userPlans[k]
    ensures MergedPlans(userPlans, plans, unreachable).Err? ==> MergedPlans(userPlans, plans, unreachable).error == UnexpectedError
    ensures MergedPlans(userPlans, plans, unreachable).Ok? ==>
      var rs := MergedPlans(userPlans, plans, unreachable).value;
      && |rs| == Linked(userPlans, plans, unreachable)
      && forall j :: 0 <= j < |rs| ==> MergeOf(userPlans, plans, rs[j])
  {
    MergedPlansOk(userPlans, plans, unreachable);
    if MergedPlans(userPlans, plans, unreachable).Ok? {
      MergedPlansRows(userPlans, plans, unreachable);
    }
  }

  lemma {:induction false} MergedPlansOk(userPlans: seq<Row>, plans: seq<Row>, unreachable: set<Value>)
    ensures MergedPlans(userPlans, plans, unreachable).Ok? <==> forall k :: 0 <= k < |userPlans| ==> "plan_id" in userPlans[k]
    ensures MergedPlans(userPlans, plans, unreachable).Err? ==> MergedPlans(userPlans, plans, unreachable).error == UnexpectedError
    decreases |userPlans|
  {
    if userPlans != [] {
      var init := userPlans[..|userPlans| - 1];
      MergedPlansOk(init, plans, unreachable);
      assert forall k :: 0 <= k < |init| ==> init[k] == userPlans[k];
    }
  }

  lemma {:induction false} MergedPlansRows(userPlans: seq<Row>, plans: seq<Row>, unreachable: set<Value>)
    requires MergedPlans(userPlans, plans, unreachable).Ok?
    ensures var rs := MergedPlans(userPlans, plans, unreachable).value;
      && |rs| == Linked(userPlans, plans, unreachable)
      && forall j :: 0 <= j < |rs| ==> MergeOf(userPlans, plans, rs[j])
    decreases |userPlans|
  {
    if userPlans != [] {
      var init := userPlans[..|userPlans| - 1];
      var u := userPlans[|userPlans| - 1];
      MergedPlansRows(init, plans, unreachable);
      var acc := MergedPlans(init, plans, unreachable).value;
      var rs := MergedPlans(userPlans, plans, unreachable).value;
      forall j | 0 <= j < |acc| ensures MergeOf(userPlans, plans, acc[j]) {
        var k, p :| 0 <= k < |init| && p in plans && "plan_id" in init[k] && Get(p, "id", Null) == init[k]["plan_id"]
          && acc[j] == MergePlan(init[k], p);
        assert init[k] == userPlans[k];
      }
      if u["plan_id"] !in unreachable && Where(plans, "id", u["plan_id"]) != [] {
        var p := Where(plans, "id", u["plan_id"])[0];
        assert p in Where(plans, "id", u["plan_id"]);
        assert rs == acc + [MergePlan(u, p)];
        assert MergeOf(userPlans, plans, rs[|rs| - 1]);
      }
    }
  }

  /** The merges of a prefix of the user plans begin the merges of all of them. */
  lemma {:induction false} MergedPlansPrefix(userPlans: seq<Row>, plans: seq<Row>, unreachable: set<Value>, n: nat)
    requires n <= |userPlans| && MergedPlans(userPlans, plans, unreachable).Ok?
    ensures MergedPlans(userPlans[..n], plans, unreachable).Ok?
    ensures MergedPlans(userPlans[..n], plans, unreachable).value <= MergedPlans(userPlans, plans, unreachable).value
    decreases |userPlans|
  {
    if n < |userPlans| {
      var init := userPlans[..|userPlans| - 1];
      assert init[..n] == userPlans[..n];
      MergedPlansPrefix(init, plans, unreachable, n);
    } else {
      assert userPlans[..n] == userPlans;
    }
  }

  /** The merge of user plan `j`, when its plan is found, is the row after
      those of the linked user plans before it: it overlays the user plan
      with the first plan row whose id is its `plan_id`. */
  lemma MergedPlansAt(userPlans: seq<Row>, plans: seq<Row>, unreachable: set<Value>, j: nat)
    requires MergedPlans(userPlans, plans, unreachable).Ok? && j < |userPlans|
    requires "plan_id" in userPlans[j] && userPlans[j]["plan_id"] !in unreachable
    requires FirstWhere(plans, "id", userPlans[j]["plan_id"]).Some?
    ensures var rs := MergedPlans(userPlans, plans, unreachable).value;
      && Linked(userPlans[..j], plans, unreachable) < |rs|
      && rs[Linked(userPlans[..j], plans, unreachable)] == MergePlan(userPlans[j], FirstWhere(plans, "id", userPlans[j]["plan_id"]).value)
  {
    var u := userPlans[j];
    var pre := userPlans[..j + 1];
    MergedPlansPrefix(userPlans, plans, unreachable, j + 1);
    assert pre[..j] == userPlans[..j] && pre[j] == u;
    WhereHead(plans, "id", u["plan_id"]);
    var acc := MergedPlans(userPlans[..j], plans, unreachable).value;
    assert MergedPlans(pre, plans, unreachable).value == acc + [MergePlan(u, FirstWhere(plans, "id", u["plan_id"]).value)];
    MergedPlansRows(userPlans[..j], plans, unreachable);
  }

  /** `get_user_plans`. `userPlans` is the `user_plans` table and
      `listFailure` whether its query raises; `plans` is the `pricing_plans`
      table and `unreachable` the plan ids whose lookup raises. */
  method GetUserPlans(userId: string, userPlans: seq<Row>, listFailure: Option<Failure>, plans: seq<Row>, unreachable: set<Value>)
    returns (res: Result<seq<Row>>)
    ensures IsBlank(userId) ==> res == Err(InvalidUserId)
    ensures !IsBlank(userId) && listFailure.Some? ==> res == Err(Handled(listFailure.value))
    ensures !IsBlank(userId) && listFailure.None? ==> res == MergedPlans(Where(userPlans, "user_id", Str(userId)), plans, unreachable)
  {
    if IsBlank(userId) {
      return Err(InvalidUserId);
    }
    if listFailure.Some? {
      return Err(Handled(listFailure.value));
    }
    var mine := Where(userPlans, "user_id", Str(userId));
    if mine == [] {
      return Ok([]);
    }
    var full: seq<Row> := [];
    var i := 0;
    while i < |mine|
      invariant 0 <= i <= |mine|
      invariant MergedPlans(mine[..i], plans, unreachable) == Ok(full)
    {
      var plan := mine[i];
      assert mine[..i + 1][..i] == mine[..i];
      if "plan_id" !in plan {
        assert MergedPlans(mine[..i + 1], plans, unreachable) == Err(UnexpectedError);
        MergedPlansFailFromPrefix(mine, plans, unreachable, i + 1);
        return Err(UnexpectedError);
      }
      if plan["plan_id"] !in unreachable {
        var found := Where(plans, "id", plan["plan_id"]);
        if found != [] {
          full := full + [MergePlan(plan, found[0])];
        }
      }
      i := i + 1;
    }
    assert mine[..|mine|] == mine;
    return Ok(full);
  }

  /** Once a prefix of the user plans fails, all of them do. */
  lemma {:induction false} MergedPlansFailFromPrefix(userPlans: seq<Row>, plans: seq<Row>, unreachable: set<Value>, n: nat)
    requires n <= |userPlans| && MergedPlans(userPlans[..n], plans, unreachable) == Err(UnexpectedError)
    ensures MergedPlans(userPlans, plans, unreachable) == Err(UnexpectedError)
    decreases |userPlans| - n
  {
    if n < |userPlans| {
      assert userPlans[..n + 1][..n] == userPlans[..n];
      MergedPlansFailFromPrefix(userPlans, plans, unreachable, n + 1);
    } else {
      assert userPlans[..n] == userPlans;
    }
  }

  // ---------------------------------------------------------- cache statistics

  /** The integer part of what `get_cache_stats` returns; the MB and GB
      figures derived from the byte sums are floats and are not modelled.
      `formatBreakdown` lists each tag once, in first-seen order, with its count. */
  datatype CacheStats = CacheStats(
    totalFormats: nat, uniqueVideos: nat, totalAudioFiles: nat, totalVideoFiles: nat,
    totalSizeBytes: int, audioSizeBytes: int, videoSizeBytes: int, formatBreakdown: seq<(Value, nat)>)

  /** A value that can be put in a set or used as a dict key. */
  predicate Hashable(v: Value) {
    !v.List? && !v.Dict?
  }

  /** `video.get("tag", "unknown")`. */
  function TagOf(row: Row): Value {
    Get(row, "tag", Str("unknown"))
  }

  /** `video.get("filesize", 0)` when it is an integer. */
  function SizeOf(row: Row): int {
    var v := Get(row, "filesize", Int(0));
    if v.Int? then v.i else 0
  }

  /** The loop body does not raise on this row: its size adds to an int and
      its video id and tag can be hashed. */
  predicate Countable(row: Row) {
    Get(row, "filesize", Int(0)).Int? && (HasTruthy(row, "video_id") ==> Hashable(row["video_id"])) && Hashable(TagOf(row))
  }

  /** `video.get(codec) and video.get(codec) != "none"`. */
  predicate HasCodec(row: Row, codec: string) {
    HasTruthy(row, codec) && row[codec] != Str("none")
  }

  function TotalBytes(rows: seq<Row>): int
    decreases |rows|
  {
    if rows == [] then 0 else TotalBytes(rows[..|rows| - 1]) + SizeOf(rows[|rows| - 1])
  }

  /** The number of rows with the codec. */
  function CodecCount(rows: seq<Row>, codec: string): (n: nat)
    ensures n <= |rows|
    decreases |rows|
  {
    if rows == [] then 0 else CodecCount(rows[..|rows| - 1], codec) + (if HasCodec(rows[|rows| - 1], codec) then 1 else 0)
  }

  /** The summed size of the rows with the codec. */
  function CodecBytes(rows: seq<Row>, codec: string): int
    decreases |rows|
  {
    if rows == [] then 0 else CodecBytes(rows[..|rows| - 1], codec) + (if HasCodec(rows[|rows| - 1], codec) then SizeOf(rows[|rows| - 1]) else 0)
  }

  /** The set of truthy video ids. */
  function VideoIds(rows: seq<Row>): set<Value>
    decreases |rows|
  {
    if rows == [] then {}
    else
      var last := rows[|rows| - 1];
      VideoIds(rows[..|rows| - 1]) + (if HasTruthy(last, "video_id") then {last["video_id"]} else {})
  }

  /** The ids collected are exactly the truthy video ids of the rows, and
      there are at most as many as rows. */
  lemma {:induction false} VideoIdsAreTruthyIds(rows: seq<Row>)
    ensures forall v :: v in VideoIds(rows) <==> exists i :: 0 <= i < |rows| && HasTruthy(rows[i], "video_id") && rows[i]["video_id"] == v
    ensures |VideoIds(rows)| <= |rows|
    decreases |rows|
  {
    if rows != [] {
      var init := rows[..|rows| - 1];
      VideoIdsAreTruthyIds(init);
      assert forall i :: 0 <= i < |init| ==> init[i] == rows[i];
      forall v | v in VideoIds(rows) ensures exists i :: 0 <= i < |rows| && HasTruthy(rows[i], "video_id") && rows[i]["video_id"] == v {
        if v !in VideoIds(init) {
          assert HasTruthy(rows[|rows| - 1], "video_id") && rows[|rows| - 1]["video_id"] == v;
        }
      }
    }
  }

  /** The tags of the rows, in order. */
  function Tags(rows: seq<Row>): (ts: seq<Value>)
    ensures |ts| == |rows| && forall i :: 0 <= i < |rows| ==> ts[i] == TagOf(rows[i])
  {
    seq(|rows|, i requires 0 <= i < |rows| => TagOf(rows[i]))
  }

  function BreakdownKeys(b: seq<(Value, nat)>): (ks: seq<Value>)
    ensures |ks| == |b| && forall i :: 0 <= i < |b| ==> ks[i] == b[i].0
  {
    if b == [] then [] else [b[0].0] + BreakdownKeys(b[1..])
  }

  /** The count listed for a tag, 0 when it is not listed. */
  function Lookup(b: seq<(Value, nat)>, t: Value): nat {
    if b == [] then 0 else if b[0].0 == t then b[0].1 else Lookup(b[1..], t)
  }

  function Total(b: seq<(Value, nat)>): nat {
    if b == [] then 0 else b[0].1 + Total(b[1..])
  }

  /** `format_types[tag] = format_types.get(tag, 0) + 1`: bump an existing
      tag in place, or add it at the end. */
  function Bump(b: seq<(Value, nat)>, t: Value): seq<(Value, nat)> {
    if b == [] then [(t, 1)]
    else if b[0].0 == t then [(t, b[0].1 + 1)] + b[1..]
    else [b[0]] + Bump(b[1..], t)
  }

  ghost predicate DistinctKeys(b: seq<(Value, nat)>) {
    forall i, j :: 0 <= i < j < |b| ==> b[i].0 != b[j].0
  }

  lemma {:induction false} BumpTotalAndLookup(b: seq<(Value, nat)>, t: Value)
    ensures Total(Bump(b, t)) == Total(b) + 1
    ensures Lookup(Bump(b, t), t) == Lookup(b, t) + 1
    ensures forall u :: u != t ==> Lookup(Bump(b, t), u) == Lookup(b, u)
  {
    if b != [] && b[0].0 != t {
      BumpTotalAndLookup(b[1..], t);
      assert Bump(b, t)[1..] == Bump(b[1..], t);
    } else if b != [] {
      assert Bump(b, t)[1..] == b[1..];
    }
  }

  lemma {:induction false} BumpKeys(b: seq<(Value, nat)>, t: Value)
    ensures forall u :: u in BreakdownKeys(Bump(b, t)) <==> u in BreakdownKeys(b) || u == t
  {
    var r := Bump(b, t);
    if b != [] && b[0].0 != t {
      BumpKeys(b[1..], t);
      assert r[0] == b[0] && r[1..] == Bump(b[1..], t);
    } else if b != [] {
      assert r[0].0 == t == b[0].0 && r[1..] == b[1..];
    }
  }

  /** Distinct keys, one element at a time. */
  lemma DistinctKeysCons(b: seq<(Value, nat)>)
    requires b != []
    ensures DistinctKeys(b) <==> b[0].0 !in BreakdownKeys(b[1..]) && DistinctKeys(b[1..])
  {
    var rest := b[1..];
    assert forall i :: 0 <= i < |rest| ==> rest[i] == b[i + 1];
    if DistinctKeys(b) {
      forall i | 0 <= i < |rest| ensures BreakdownKeys(rest)[i] != b[0].0 {
        assert BreakdownKeys(rest)[i] == b[i + 1].0;
      }
    }
    if b[0].0 !in BreakdownKeys(rest) && DistinctKeys(rest) {
      forall i, j | 0 <= i < j < |b| ensures b[i].0 != b[j].0 {
        if i == 0 {
          assert BreakdownKeys(rest)[j - 1] == b[j].0;
        } else {
          assert rest[i - 1].0 != rest[j - 1].0;
        }
      }
    }
  }

  lemma {:induction false} BumpDistinct(b: seq<(Value, nat)>, t: Value)
    requires DistinctKeys(b)
    ensures DistinctKeys(Bump(b, t))
  {
    var r := Bump(b, t);
    if b == [] {
      assert r == [(t, 1)];
    } else if b[0].0 != t {
      DistinctKeysCons(b);
      BumpDistinct(b[1..], t);
      BumpKeys(b[1..], t);
      assert r[0] == b[0] && r[1..] == Bump(b[1..], t);
      DistinctKeysCons(r);
    } else {
      DistinctKeysCons(b);
      assert r[0].0 == b[0].0 && r[1..] == b[1..];
      DistinctKeysCons(r);
    }
  }

  /** The per-tag counts, in first-seen order. */
  function Breakdown(rows: seq<Row>): seq<(Value, nat)>
    decreases |rows|
  {
    if rows == [] then [] else Bump(Breakdown(rows[..|rows| - 1]), TagOf(rows[|rows| - 1]))
  }

  /** Each tag is listed once, with the number of rows carrying it; every
      row's tag is listed; and the counts add up to the number of rows. */
  lemma {:induction false} BreakdownCounts(rows: seq<Row>)
    ensures DistinctKeys(Breakdown(rows))
    ensures forall t :: Lookup(Breakdown(rows), t) == multiset(Tags(rows))[t]
    ensures forall t :: t in BreakdownKeys(Breakdown(rows)) <==> t in Tags(rows)
    ensures Total(Breakdown(rows)) == |rows|
    decreases |rows|
  {
    if rows != [] {
      var init := rows[..|rows| - 1];
      var last := rows[|rows| - 1];
      BreakdownCounts(init);
      BumpTotalAndLookup(Breakdown(init), TagOf(last));
      BumpKeys(Breakdown(init), TagOf(last));
      BumpDistinct(Breakdown(init), TagOf(last));
      assert Tags(rows) == Tags(init) + [TagOf(last)];
    }
  }

  /** The per-row checks and sums of the loop, on prefixes: the loop state
      after `n` rows. */
  function StatsOf(rows: seq<Row>): CacheStats {
    CacheStats(|rows|, |VideoIds(rows)|, CodecCount(rows, "acodec"), CodecCount(rows, "vcodec"),
               TotalBytes(rows), CodecBytes(rows, "acodec"), CodecBytes(rows, "vcodec"), Breakdown(rows))
  }

  /** The audio and video counts never exceed the number of formats, nor
      does the number of distinct videos; a row may count as both audio and
      video. */
  lemma StatsBounded(rows: seq<Row>)
    ensures var st := StatsOf(rows);
      st.totalAudioFiles <= st.totalFormats && st.totalVideoFiles <= st.totalFormats && st.uniqueVideos <= st.totalFormats
      && Total(st.formatBreakdown) == st.totalFormats
  {
    VideoIdsAreTruthyIds(rows);
    BreakdownCounts(rows);
  }

  /** What one more row adds to each running figure. */
  lemma StatsStep(p: seq<Row>, r: Row)
    ensures var q := p + [r];
      && TotalBytes(q) == TotalBytes(p) + SizeOf(r)
      && VideoIds(q) == VideoIds(p) + (if HasTruthy(r, "video_id") then {r["video_id"]} else {})
      && CodecCount(q, "acodec") == CodecCount(p, "acodec") + (if HasCodec(r, "acodec") then 1 else 0)
      && CodecBytes(q, "acodec") == CodecBytes(p, "acodec") + (if HasCodec(r, "acodec") then SizeOf(r) else 0)
      && CodecCount(q, "vcodec") == CodecCount(p, "vcodec") + (if HasCodec(r, "vcodec") then 1 else 0)
      && CodecBytes(q, "vcodec") == CodecBytes(p, "vcodec") + (if HasCodec(r, "vcodec") then SizeOf(r) else 0)
      && Breakdown(q) == Bump(Breakdown(p), TagOf(r))
  {
    assert (p + [r])[..|p|] == p;
  }

  /** `get_cache_stats`. `all` is what `get_all_cached_videos` reads from the
      `cached_formats` table; any error, its own included, ends as
      UNEXPECTED_ERROR. */
  method GetCacheStats(all: Reply) returns (res: Result<CacheStats>)
    ensures all.Raised? ==> res == Err(UnexpectedError)
    ensures all.Answer? && (forall i :: 0 <= i < |all.rows| ==> Countable(all.rows[i])) ==> res == Ok(StatsOf(all.rows))
    ensures all.Answer? && (exists i :: 0 <= i < |all.rows| && !Countable(all.rows[i])) ==> res == Err(UnexpectedError)
  {
    if all.Raised? {
      return Err(UnexpectedError);
    }
    var rows := all.rows;
    var totalBytes, audioCount, audioBytes, videoCount, videoBytes := 0, 0, 0, 0, 0;
    var ids: set<Value> := {};
    var formatTypes: seq<(Value, nat)> := [];
    var i := 0;
    while i < |rows|
      invariant 0 <= i <= |rows|
      invariant forall k :: 0 <= k < i ==> Countable(rows[k])
      invariant totalBytes == TotalBytes(rows[..i]) && ids == VideoIds(rows[..i]) && formatTypes == Breakdown(rows[..i])
      invariant audioCount == CodecCount(rows[..i], "acodec") && audioBytes == CodecBytes(rows[..i], "acodec")
      invariant videoCount == CodecCount(rows[..i], "vcodec") && videoBytes == CodecBytes(rows[..i], "vcodec")
    {
      var video := rows[i];
      if !Countable(video) {
        return Err(UnexpectedError);
      }
      ghost var before := rows[..i];
      assert rows[..i + 1] == before + [video];
      StatsStep(before, video);
      var fileSize := SizeOf(video);
      totalBytes := totalBytes + fileSize;
      ids := ids + if HasTruthy(video, "video_id") then {video["video_id"]} else {};
      audioCount := audioCount + if HasCodec(video, "acodec") then 1 else 0;
      audioBytes := audioBytes + if HasCodec(video, "acodec") then fileSize else 0;
      videoCount := videoCount + if HasCodec(video, "vcodec") then 1 else 0;
      videoBytes := videoBytes + if HasCodec(video, "vcodec") then fileSize else 0;
      formatTypes := Bump(formatTypes, TagOf(video));
      i := i + 1;
    }
    assert rows[..|rows|] == rows;
    return Ok(CacheStats(|rows|, |ids|, audioCount, videoCount, totalBytes, audioBytes, videoBytes, formatTypes));
  }

  // ---------------------------------------------------------- cleanup guard

  const InvalidDays := ApiError(400, "INVALID_DAYS")

  /** The largest day count `timedelta` accepts. */
  const MaxTimedeltaDays: int := 999999999
  /** The proleptic Gregorian ordinal of 9999-12-31, the last day `datetime` represents. */
  const MaxOrdinal: int := 3652059

  /** `cleanup_expired_cache`. `today` is the proleptic Gregorian ordinal of
      the current UTC date (1 for 0001-01-01): the cutoff `utcnow() -
      timedelta(days=days_old)` raises OverflowError, which is unexpected, when
      it would fall before year 1 or the day count is out of `timedelta`'s
      range. Then the three selects may raise; otherwise the statistics are
      all zero, as the deletion is not implemented. */
  function CleanupExpiredCache(daysOld: int, today: int, formatsFailure: Option<Failure>, videosFailure: Option<Failure>,
                               playlistsFailure: Option<Failure>): (r: Result<Row>)
    requires 1 <= today <= MaxOrdinal
    ensures r == Err(InvalidDays) <==> daysOld <= 0
    ensures 0 < daysOld && today <= daysOld ==> r == Err(UnexpectedError)
    ensures r.Ok? <==> 0 < daysOld < today && formatsFailure.None? && videosFailure.None? && playlistsFailure.None?
    ensures r.Ok? ==>
      (r.value.Keys == {"expired_formats", "expired_videos", "expired_playlists", "total_cleaned"}
       && forall k :: k in r.value ==> r.value[k] == Int(0))
  {
    if daysOld <= 0 then Err(InvalidDays)
    else if daysOld > MaxTimedeltaDays || today - daysOld < 1 then Err(UnexpectedError)
    else if formatsFailure.Some? then Err(Handled(formatsFailure.value))
    else if videosFailure.Some? then Err(Handled(videosFailure.value))
    else if playlistsFailure.Some? then Err(Handled(playlistsFailure.value))
    else Ok(map["expired_formats" := Int(0), "expired_videos" := Int(0), "expired_playlists" := Int(0), "total_cleaned" := Int(0)])
  }

}
