/** The two closed tier enumerations the quality normaliser walks:
    `VideoQuality` (increasing resolution, with the sentinel "Premium" last)
    and `AudioQuality` (increasing bitrate). `list()` on either class yields the
    member values in declaration order. */
module Enums {
  import opened Common

  datatype VideoQuality = P144 | P240 | P360 | P480 | P720 | P1080 | P1440 | P2160 | Premium {
    function Value(): string {
      match this
      case P144 => "144p"
      case P240 => "240p"
      case P360 => "360p"
      case P480 => "480p"
      case P720 => "720p"
      case P1080 => "1080p"
      case P1440 => "1440p"
      case P2160 => "2160p"
      case Premium => "Premium"
    }
  }

  datatype AudioQuality = Low | Medium | High {
    function Value(): string {
      match this
      case Low => "low"
      case Medium => "medium"
      case High => "high"
    }
  }

  /** The members of `VideoQuality` in declaration order. */
  const VideoMembers: seq<VideoQuality> := [P144, P240, P360, P480, P720, P1080, P1440, P2160, Premium]

  /** The members of `AudioQuality` in declaration order. */
  const AudioMembers: seq<AudioQuality> := [Low, Medium, High]

  /** The values of `qs` in order: the comprehension both `list()` class
      methods evaluate over their class's members. */
  function ValuesOf<T>(qs: seq<T>, value: T -> string): (r: seq<string>)
    ensures |r| == |qs|
    ensures forall i :: 0 <= i < |qs| ==> r[i] == value(qs[i])
  {
    if qs == [] then [] else [value(qs[0])] + ValuesOf(qs[1..], value)
  }

  /** `VideoQuality.list()`. */
  function VideoQualityList(): seq<string> {
    ValuesOf(VideoMembers, (q: VideoQuality) => q.Value())
  }

  /** `AudioQuality.list()`. */
  function AudioQualityList(): seq<string> {
    ValuesOf(AudioMembers, (q: AudioQuality) => q.Value())
  }

  ghost predicate Distinct(s: seq<string>) {
    forall i, j :: 0 <= i < |s| && 0 <= j < |s| && i != j ==> s[i] != s[j]
  }

  /** No element of `s` occurs as a substring of a different element. */
  ghost predicate SubstringFree(s: seq<string>) {
    forall i, j :: 0 <= i < |s| && 0 <= j < |s| && i != j ==> !Contains(s[j], s[i])
  }

  /** Every enumeration member is listed, so `list()` covers the whole enum. */
  lemma MembersComplete(v: VideoQuality, a: AudioQuality)
    ensures v in VideoMembers && a in AudioMembers
  {
  }

  /** The video labels in declaration order, written out once. */
  const VideoLabels: seq<string> := ["144p", "240p", "360p", "480p", "720p", "1080p", "1440p", "2160p", "Premium"]

  /** The audio labels in declaration order, written out once. */
  const AudioLabels: seq<string> := ["low", "medium", "high"]

  /** `VideoQuality.list()` is exactly the written-out labels. */
  lemma VideoListIsExact()
    ensures VideoQualityList() == VideoLabels
  {
  }

  /** `AudioQuality.list()` is exactly the written-out labels. */
  lemma AudioListIsExact()
    ensures AudioQualityList() == AudioLabels
  {
  }

  /** Distinct because their resolutions are: the first eight strictly
      increase and the last tier has none. */
  lemma VideoListDistinct()
    ensures |VideoQualityList()| == 9 && Distinct(VideoQualityList())
  {
    VideoListIsExact();
    VideoTiersIncrease();
    var l := VideoQualityList();
    forall i, j | 0 <= i < |l| && 0 <= j < |l| && i != j ensures l[i] != l[j] {
      if i < j {
        assert Resolution(l[i]) != Resolution(l[j]);
      } else {
        assert Resolution(l[j]) != Resolution(l[i]);
      }
    }
  }

  lemma AudioListDistinct()
    ensures |AudioQualityList()| == 3 && Distinct(AudioQualityList())
  {
    AudioListIsExact();
  }

  /** The numeric part of a resolution tier "<digits>p"; None for any other tier. */
  function Resolution(tier: string): Option<nat> {
    if 2 <= |tier| && tier[|tier| - 1] == 'p' && forall i :: 0 <= i < |tier| - 1 ==> IsDigit(tier[i])
    then Some(DecimalValue(tier[..|tier| - 1]))
    else None
  }

  lemma ResolutionOf4(t: string)
    requires |t| == 4 && IsDigit(t[0]) && IsDigit(t[1]) && IsDigit(t[2]) && t[3] == 'p'
    ensures Resolution(t) == Some(Digit(t[0]) * 100 + Digit(t[1]) * 10 + Digit(t[2]))
  {
    var d := t[..3];
    assert d[..2] == t[..2] && t[..2][..1] == t[..1] && t[..1][..0] == [];
    assert DecimalValue(t[..1]) == Digit(t[0]);
    assert DecimalValue(t[..2]) == Digit(t[0]) * 10 + Digit(t[1]);
  }

  lemma ResolutionOf5(t: string)
    requires |t| == 5 && IsDigit(t[0]) && IsDigit(t[1]) && IsDigit(t[2]) && IsDigit(t[3]) && t[4] == 'p'
    ensures Resolution(t) == Some(Digit(t[0]) * 1000 + Digit(t[1]) * 100 + Digit(t[2]) * 10 + Digit(t[3]))
  {
    var d := t[..4];
    assert d[..3] == t[..3] && t[..3][..2] == t[..2] && t[..2][..1] == t[..1] && t[..1][..0] == [];
    assert DecimalValue(t[..1]) == Digit(t[0]);
    assert DecimalValue(t[..2]) == Digit(t[0]) * 10 + Digit(t[1]);
    assert DecimalValue(t[..3]) == Digit(t[0]) * 100 + Digit(t[1]) * 10 + Digit(t[2]);
  }

  /** The heights, in lines, of the resolution tiers in declaration order. */
  const Heights: seq<nat> := [144, 240, 360, 480, 720, 1080, 1440, 2160]

  /** The resolution of the i-th label is the i-th height. */
  lemma HeightOf(i: nat)
    requires i < |Heights|
    ensures Resolution(VideoLabels[i]) == Some(Heights[i])
  {
    if i == 0 { ResolutionOf4("144p"); }
    else if i == 1 { ResolutionOf4("240p"); }
    else if i == 2 { ResolutionOf4("360p"); }
    else if i == 3 { ResolutionOf4("480p"); }
    else if i == 4 { ResolutionOf4("720p"); }
    else if i == 5 { ResolutionOf5("1080p"); }
    else if i == 6 { ResolutionOf5("1440p"); }
    else { ResolutionOf5("2160p"); }
  }

  lemma ResolutionsAreHeights()
    ensures forall i :: 0 <= i < |Heights| ==> Resolution(VideoQualityList()[i]) == Some(Heights[i])
  {
    VideoListIsExact();
    assert VideoQualityList() == VideoLabels;
    forall i | 0 <= i < |Heights| ensures Resolution(VideoLabels[i]) == Some(Heights[i]) {
      HeightOf(i);
    }
  }

  lemma HeightsIncrease()
    ensures forall i, j :: 0 <= i < j < |Heights| ==> Heights[i] < Heights[j]
  {
  }

  /** All tiers but the last are resolutions, strictly increasing, and the last
      tier, "Premium", is a sentinel without a resolution. */
  lemma VideoTiersIncrease()
    ensures var l := VideoQualityList();
      && Resolution(l[|l| - 1]) == None && l[|l| - 1] == "Premium"
      && (forall i :: 0 <= i < |l| - 1 ==> Resolution(l[i]).Some?)
      && (forall i, j :: 0 <= i < j < |l| - 1 ==> Resolution(l[i]).value < Resolution(l[j]).value)
  {
    VideoListIsExact();
    var l := VideoQualityList();
    assert l == VideoLabels;
    assert "Premium"[6] == 'm';
    forall i | 0 <= i < |l| - 1 ensures Resolution(l[i]).Some? {
      HeightOf(i);
    }
    forall i, j | 0 <= i < j < |l| - 1 ensures Resolution(l[i]).value < Resolution(l[j]).value {
      HeightOf(i);
      HeightOf(j);
      HeightsIncrease();
    }
  }

  /** A string whose first character does not occur in `hay` is not inside `hay`. */
  lemma {:induction false} NotContainsFirstCharAbsent(hay: string, needle: string)
    requires 0 < |needle| && needle[0] !in hay
    ensures !Contains(hay, needle)
    decreases |hay|
  {
    if |needle| <= |hay| {
      assert hay[..|needle|][0] == hay[0];
      if 0 < |hay| {
        assert forall c :: c in hay[1..] ==> c in hay;
        NotContainsFirstCharAbsent(hay[1..], needle);
      }
    }
  }

  /** `needle` is not inside a string one character longer when it matches
      neither at offset 0 nor at offset 1. */
  lemma NotContainsOneLonger(hay: string, needle: string)
    requires 0 < |needle| && |hay| == |needle| + 1
    requires hay[|needle| - 1] != needle[|needle| - 1] && hay[1..] != needle
    ensures !Contains(hay, needle)
  {
    assert hay[..|needle|][|needle| - 1] == hay[|needle| - 1];
    assert hay[1..][..|needle|] == hay[1..];
    NotContainsLonger(hay[1..][1..], needle);
  }

  /** No member of `s` other than `hay` itself occurs inside `hay`. */
  ghost predicate NoOtherInside(hay: string, s: seq<string>) {
    forall a :: a in s && a != hay ==> !Contains(hay, a)
  }

  lemma SubstringFreeFromEachHay(s: seq<string>)
    requires Distinct(s)
    requires forall j :: 0 <= j < |s| ==> NoOtherInside(s[j], s)
    ensures SubstringFree(s)
  {
    forall i, j | 0 <= i < |s| && 0 <= j < |s| && i != j
      ensures !Contains(s[j], s[i])
    {
      assert NoOtherInside(s[j], s);
    }
  }

  lemma ShortLabelHay(b: string)
    requires |b| == 4
    ensures NoOtherInside(b, VideoLabels)
  {
    forall a | a in VideoLabels && a != b
      ensures !Contains(b, a)
    {
      if |a| == 4 {
        NotContainsSameLength(b, a);
      } else {
        NotContainsLonger(b, a);
      }
    }
  }

  lemma LongLabelHay(b: string)
    requires b == "1080p" || b == "1440p" || b == "2160p"
    ensures NoOtherInside(b, VideoLabels)
  {
    forall a | a in VideoLabels && a != b
      ensures !Contains(b, a)
    {
      if |a| == 4 {
        assert b[1..] == [b[1], b[2], b[3], b[4]];
        NotContainsOneLonger(b, a);
      } else if |a| == 5 {
        NotContainsSameLength(b, a);
      } else {
        NotContainsLonger(b, a);
      }
    }
  }

  /** No resolution label occurs inside "Premium": a resolution starts with a digit. */
  lemma PremiumHay()
    ensures NoOtherInside("Premium", VideoLabels)
  {
    forall a | a in VideoLabels && a != "Premium"
      ensures !Contains("Premium", a)
    {
      NotContainsFirstCharAbsent("Premium", a);
    }
  }

  /** No video label occurs inside another, so matching a format note by
      substring never confuses e.g. "144p" with "1440p". */
  lemma VideoLabelsSubstringFree()
    ensures SubstringFree(VideoQualityList())
  {
    VideoListIsExact();
    VideoListDistinct();
    forall j | 0 <= j < |VideoLabels|
      ensures NoOtherInside(VideoLabels[j], VideoLabels)
    {
      if j < 5 {
        ShortLabelHay(VideoLabels[j]);
      } else if j < 8 {
        LongLabelHay(VideoLabels[j]);
      } else {
        PremiumHay();
      }
    }
    SubstringFreeFromEachHay(VideoLabels);
  }

  /** The last audio tier is "high", so `audio_qualities[-1]` is always the
      highest tier that was found. */
  lemma HighIsLastAudioTier()
    ensures AudioQualityList()[|AudioQualityList()| - 1] == High.Value() == "high"
  {
    AudioListIsExact();
  }

  lemma AudioHay(b: string)
    requires b in AudioLabels
    ensures NoOtherInside(b, AudioLabels)
  {
    forall a | a in AudioLabels && a != b
      ensures !Contains(b, a)
    {
      if |b| < |a| {
        NotContainsLonger(b, a);
      } else if |b| == |a| {
        NotContainsSameLength(b, a);
      } else {
        NotContainsFirstCharAbsent(b, a);
      }
    }
  }

  /** Audio and video labels are disjoint and no audio label occurs inside another. */
  lemma AudioLabelsDisjointAndSubstringFree()
    ensures forall a, v :: a in AudioQualityList() && v in VideoQualityList() ==> a != v
    ensures SubstringFree(AudioQualityList())
  {
    AudioListIsExact();
    VideoListIsExact();
    AudioListDistinct();
    AudioLabelsLower();
    VideoLabelsNotLower();
    forall j | 0 <= j < |AudioLabels|
      ensures NoOtherInside(AudioLabels[j], AudioLabels)
    {
      AudioHay(AudioLabels[j]);
    }
    SubstringFreeFromEachHay(AudioLabels);
  }

  /** The label starts with a lower-case letter. */
  predicate StartsLower(s: string) {
    0 < |s| && 'a' <= s[0] <= 'z'
  }

  lemma AudioLabelsLower()
    ensures forall a :: a in AudioLabels ==> StartsLower(a)
  {
  }

  lemma VideoLabelsNotLower()
    ensures forall v :: v in VideoLabels ==> !StartsLower(v)
  {
    forall v | v in VideoLabels ensures !StartsLower(v) {
      assert v[0] in "12347P";
    }
  }
}
