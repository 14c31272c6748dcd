/** What the handler derives from the source itself: media info from the probe output,
    the preview window and thumbnail time, GPU availability and the loudness measurement. */
module Media {
  import opened Wrappers
  import opened Text

  /** One entry of ffprobe's `streams` list; a missing key is `None`. */
  datatype Stream = Stream(codecType: Option<string>, width: Option<int>, height: Option<int>)

  /** ffprobe's JSON: `format.duration` (already truncated to whole seconds) and `streams` (missing = empty). */
  datatype ProbeData = ProbeData(duration: Option<int>, streams: seq<Stream>)

  /** The `(duration, width, height)` triple returned by `get_media_info`. */
  datatype MediaInfo = MediaInfo(duration: int, width: Option<int>, height: Option<int>)

  predicate IsVideo(s: Stream) {
    s.codecType == Some("video")
  }

  /** The index of the first stream whose `codec_type` is "video" (the loop's `break`). */
  function FirstVideo(streams: seq<Stream>): (r: Option<nat>)
    ensures r.Some? ==> r.value < |streams| && IsVideo(streams[r.value])
    ensures r.Some? ==> forall j :: 0 <= j < r.value ==> !IsVideo(streams[j])
    ensures r.None? ==> forall j :: 0 <= j < |streams| ==> !IsVideo(streams[j])
  {
    if streams == [] then None
    else if IsVideo(streams[0]) then Some(0)
    else
      match FirstVideo(streams[1..])
      case None => None
      case Some(i) => Some(i + 1)
  }

  /** `get_media_info`: duration defaults to 0; width and height come from the first video stream. */
  function GetMediaInfo(p: ProbeData): (m: MediaInfo)
    ensures m.duration == p.duration.GetOr(0)
    ensures (forall j :: 0 <= j < |p.streams| ==> !IsVideo(p.streams[j])) ==> m.width.None? && m.height.None?
    ensures forall i :: 0 <= i < |p.streams| && IsVideo(p.streams[i]) &&
                        (forall j :: 0 <= j < i ==> !IsVideo(p.streams[j])) ==>
                        m.width == p.streams[i].width && m.height == p.streams[i].height
  {
    var d := p.duration.GetOr(0);
    match FirstVideo(p.streams)
    case None => MediaInfo(d, None, None)
    case Some(i) => MediaInfo(d, p.streams[i].width, p.streams[i].height)
  }

  /** Streams after the first video stream never influence width and height. */
  lemma LaterStreamsIgnored(d: Option<int>, before: seq<Stream>, v: Stream, after1: seq<Stream>, after2: seq<Stream>)
    requires forall j :: 0 <= j < |before| ==> !IsVideo(before[j])
    requires IsVideo(v)
    ensures GetMediaInfo(ProbeData(d, before + [v] + after1)) == GetMediaInfo(ProbeData(d, before + [v] + after2))
  {
    var s1, s2 := before + [v] + after1, before + [v] + after2;
    assert IsVideo(s1[|before|]) && IsVideo(s2[|before|]);
    assert forall j :: 0 <= j < |before| ==> s1[j] == before[j] && s2[j] == before[j];
  }

  /** Python's `int(d * 0.1)`: a tenth of `d`, truncated toward zero. */
  function TenthTruncated(d: int): (r: int)
    ensures d >= 0 ==> 0 <= r && 10 * r <= d < 10 * r + 10
    ensures d < 0 ==> r <= 0 && 10 * r >= d > 10 * r - 10
  {
    if d >= 0 then d / 10 else -((-d) / 10)
  }

  const PreviewDuration: int := 30
  const PreviewHeight: int := 720

  function Max(a: int, b: int): int { if a >= b then a else b }
  function Min(a: int, b: int): int { if a <= b then a else b }

  /** `create_preview`'s window: the start offset and the clip length in seconds. */
  function PreviewStart(duration: int): int {
    Max(0, TenthTruncated(duration))
  }

  function PreviewLength(duration: int): int {
    Min(PreviewDuration, duration - PreviewStart(duration))
  }

  /** For every positive duration the clip is non-empty, at most 30 s, starts at the 10 % mark and ends inside the source. */
  lemma PreviewWindow(duration: int)
    requires duration > 0
    ensures PreviewStart(duration) == duration / 10
    ensures 0 < PreviewLength(duration) <= PreviewDuration
    ensures PreviewStart(duration) + PreviewLength(duration) <= duration
    ensures PreviewLength(duration) == PreviewDuration <==> duration >= 33
  {
    var s := TenthTruncated(duration);
    if duration >= 33 {
      assert s <= duration / 10;
      assert duration - s >= 30;
    } else {
      assert s <= 3;
      assert duration - s < 30;
    }
  }

  /** `extract_thumbnail`'s seek time: `max(1, int(d * 0.1))`. */
  function ThumbnailTime(duration: int): int {
    Max(1, TenthTruncated(duration))
  }

  /** For every positive duration the thumbnail is taken at least one second in and no later than the end. */
  lemma ThumbnailWithinSource(duration: int)
    requires duration > 0
    ensures 1 <= ThumbnailTime(duration) <= duration
    ensures duration >= 10 ==> ThumbnailTime(duration) == duration / 10
    ensures duration < 20 ==> ThumbnailTime(duration) == 1
  {
  }

  /** `check_gpu_available`: the encoder listing mentions h264_nvenc; a failed or timed-out run means no GPU. */
  function GpuAvailable(encoderListing: Option<string>): (r: bool)
    ensures r <==> encoderListing.Some? && exists i :: OccursAt(encoderListing.value, "h264_nvenc", i)
  {
    encoderListing.Some? && Contains(encoderListing.value, "h264_nvenc")
  }

  // ---------------------------------------------------------------------------
  // Loudness analysis

  /** The measured loudness triple (`input_i`, `input_tp`, `input_lra`). */
  datatype Loudness = Loudness(inputI: real, inputTp: real, inputLra: real)

  /** A decoded loudnorm JSON block; a field the block lacks is `None`. */
  datatype LoudnessFields = LoudnessFields(inputI: Option<real>, inputTp: Option<real>, inputLra: Option<real>)

  /** What `json.loads` followed by the three `float(...)` conversions does with a block:
      decodes it, raises one of the caught `JSONDecodeError`/`ValueError`, or raises anything
      else (a `TypeError` from `float(None)`, say), which is not caught. */
  datatype LoudnessDecode = Decoded(fields: LoudnessFields) | Invalid | Raises(message: string)

  const DefaultLoudness: Loudness := Loudness(-16.0, -1.0, 7.0)

  /** The text from the last `{` to the last `}` inclusive, when that `}` comes after that `{`. */
  function LoudnessBlock(output: string): (r: Option<string>)
    ensures r.Some? <==> RFind(output, '{') >= 0 && RFind(output, '}') > RFind(output, '{')
    ensures r.Some? ==> r.value == output[RFind(output, '{')..RFind(output, '}') + 1]
    ensures r.Some? ==> |r.value| >= 2 && r.value[0] == '{' && r.value[|r.value| - 1] == '}'
    ensures r.Some? ==> forall k :: 0 < k < |r.value| ==> r.value[k] != '{'
  {
    var start := RFind(output, '{');
    var end := RFind(output, '}') + 1;
    if start >= 0 && end > start then Some(output[start..end]) else None
  }

  /** `analyze_loudness` once the (unchecked) ffmpeg run has produced its stderr text. */
  function AnalyzeLoudness(stderr: string, decode: string -> LoudnessDecode): (r: Result<Loudness>)
    ensures r.Err? <==> LoudnessBlock(stderr).Some? && decode(LoudnessBlock(stderr).value).Raises?
    ensures LoudnessBlock(stderr).None? ==> r == Ok(DefaultLoudness)
    ensures LoudnessBlock(stderr).Some? && decode(LoudnessBlock(stderr).value).Invalid? ==> r == Ok(DefaultLoudness)
    ensures LoudnessBlock(stderr).Some? && decode(LoudnessBlock(stderr).value).Decoded? ==>
      var f := decode(LoudnessBlock(stderr).value).fields;
      r == Ok(Loudness(f.inputI.GetOr(-16.0), f.inputTp.GetOr(-1.0), f.inputLra.GetOr(7.0)))
  {
    match LoudnessBlock(stderr)
    case None => Ok(DefaultLoudness)
    case Some(block) =>
      match decode(block)
      case Invalid => Ok(DefaultLoudness)
      case Raises(m) => Err(m)
      case Decoded(f) => Ok(Loudness(f.inputI.GetOr(-16.0), f.inputTp.GetOr(-1.0), f.inputLra.GetOr(7.0)))
  }
}
