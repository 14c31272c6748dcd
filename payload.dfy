/** The `TranscodingResult` webhook payload, the object keys it reports and the handler's return value. */
module Payload {
  import opened Wrappers
  import opened Text
  import Ladder
  import opened Media

  datatype TranscodingResult = TranscodingResult(
    status: string,
    mediaId: string,
    hlsMasterPlaylistKey: Option<string>,
    hlsPreviewKey: Option<string>,
    thumbnailKey: Option<string>,
    waveformKey: Option<string>,
    waveformImageKey: Option<string>,
    mezzanineKey: Option<string>,
    durationSeconds: Option<int>,
    width: Option<int>,
    height: Option<int>,
    readyVariants: seq<string>,
    error: Option<string>)

  /** What `handler` returns to the job runner; `Raised` is an exception that escapes it. */
  datatype HandlerReturn = Success(mediaId: string) | Error(error: string) | Raised(message: string)

  // Object keys: creator first, then the artifact kind, then the media id.
  function MezzanineKey(creatorId: string, mediaId: string): string {
    creatorId + "/mezzanine/" + mediaId + "/mezzanine.mp4"
  }

  function HlsPrefix(creatorId: string, mediaId: string): string {
    creatorId + "/hls/" + mediaId + "/"
  }

  function MasterKey(creatorId: string, mediaId: string): string {
    HlsPrefix(creatorId, mediaId) + "master.m3u8"
  }

  function PreviewKey(creatorId: string, mediaId: string): string {
    HlsPrefix(creatorId, mediaId) + "preview/preview.m3u8"
  }

  function ThumbnailKey(creatorId: string, mediaId: string): string {
    creatorId + "/thumbnails/" + mediaId + "/auto-generated.jpg"
  }

  function WaveformKey(creatorId: string, mediaId: string): string {
    creatorId + "/waveforms/" + mediaId + "/waveform.json"
  }

  function WaveformImageKey(creatorId: string, mediaId: string): string {
    creatorId + "/waveforms/" + mediaId + "/waveform.png"
  }

  /** The rendition names for each source height: the names of `HLS_VARIANTS` from the highest rung
      the source reaches downwards, all four when the height is unknown or `0`, and none below 360;
      the two audio rungs for any other media type. */
  lemma ReadyVariantsByHeight(mediaType: string, height: Option<int>)
    ensures mediaType != "video" ==> ReadyVariants(mediaType, height) == ["128k", "64k"]
    ensures mediaType == "video" && (!Ladder.Truthy(height) || height.value >= 1080) ==>
      ReadyVariants(mediaType, height) == ["1080p", "720p", "480p", "360p"]
    ensures mediaType == "video" && height.Some? && 720 <= height.value < 1080 ==>
      ReadyVariants(mediaType, height) == ["720p", "480p", "360p"]
    ensures mediaType == "video" && height.Some? && 480 <= height.value < 720 ==>
      ReadyVariants(mediaType, height) == ["480p", "360p"]
    ensures mediaType == "video" && height.Some? && 360 <= height.value < 480 ==>
      ReadyVariants(mediaType, height) == ["360p"]
    ensures mediaType == "video" && Ladder.Truthy(height) && height.value < 360 ==>
      ReadyVariants(mediaType, height) == []
  {
    var vs := Ladder.HlsVariants;
    if mediaType == "video" {
      if !Ladder.Truthy(height) {
        Ladder.NoHeightKeepsAll(vs, height);
      } else {
        Ladder.VideoLadderByHeight(height.value);
      }
      LadderNames();
    }
  }

  lemma LadderNames()
    ensures Ladder.Names(Ladder.HlsVariants) == ["1080p", "720p", "480p", "360p"]
    ensures Ladder.Names(Ladder.HlsVariants[1..]) == ["720p", "480p", "360p"]
    ensures Ladder.Names(Ladder.HlsVariants[2..]) == ["480p", "360p"]
    ensures Ladder.Names(Ladder.HlsVariants[3..]) == ["360p"]
    ensures Ladder.Names([]) == []
  {
  }

  /** For video, a rung's name is reported exactly when the source height does not rule it out. */
  lemma ReadyVariantsNames(height: Option<int>, v: Ladder.VideoVariant)
    requires v in Ladder.HlsVariants
    ensures v.name in ReadyVariants("video", height) <==> !Ladder.Skipped(height, v)
  {
    var kept := Ladder.Kept(Ladder.HlsVariants, height);
    var names := Ladder.Names(kept);
    Ladder.KeptMembers(Ladder.HlsVariants, height, v);
    if v.name in names {
      var j :| 0 <= j < |names| && names[j] == v.name;
      Ladder.KeptMembers(Ladder.HlsVariants, height, kept[j]);
      assert kept[j] == v;
    }
  }

  /** The rendition names a successful ladder reports: the kept video rungs, or the whole audio ladder
      for any other media type. */
  function ReadyVariants(mediaType: string, height: Option<int>): (r: seq<string>)
    ensures mediaType == "video" ==> r == Ladder.Names(Ladder.Kept(Ladder.HlsVariants, height))
    ensures mediaType != "video" ==> r == ["128k", "64k"]
  {
    if mediaType == "video" then Ladder.Names(Ladder.Kept(Ladder.HlsVariants, height)) else Ladder.AudioNames
  }

  /** The `completed` payload built at the end of the `try` block. */
  function CompletedResult(mediaId: string, creatorId: string, mediaType: string, info: MediaInfo): (r: TranscodingResult)
    ensures r.status == "completed" && r.error.None? && r.mediaId == mediaId
    ensures r.hlsMasterPlaylistKey == Some(MasterKey(creatorId, mediaId))
    ensures r.mezzanineKey.Some? <==> mediaType == "video"
    ensures r.mezzanineKey.Some? ==> r.mezzanineKey.value == MezzanineKey(creatorId, mediaId)
    ensures r.hlsPreviewKey.Some? <==> mediaType == "video"
    ensures r.hlsPreviewKey.Some? ==> r.hlsPreviewKey.value == PreviewKey(creatorId, mediaId)
    ensures r.thumbnailKey.Some? <==> mediaType == "video" && info.duration > 0
    ensures r.thumbnailKey.Some? ==> r.thumbnailKey.value == ThumbnailKey(creatorId, mediaId)
    ensures r.waveformKey.Some? <==> mediaType == "audio"
    ensures r.waveformImageKey.Some? <==> mediaType == "audio"
    ensures r.waveformKey.Some? ==> r.waveformKey.value == WaveformKey(creatorId, mediaId) &&
                                    r.waveformImageKey.value == WaveformImageKey(creatorId, mediaId)
    ensures !(r.thumbnailKey.Some? && r.waveformKey.Some?)
    ensures r.durationSeconds == Some(info.duration) && r.width == info.width && r.height == info.height
    ensures r.readyVariants == ReadyVariants(mediaType, info.height)
  {
    var video := mediaType == "video";
    TranscodingResult(
      "completed", mediaId,
      Some(MasterKey(creatorId, mediaId)),
      if video then Some(PreviewKey(creatorId, mediaId)) else None,
      if video && info.duration > 0 then Some(ThumbnailKey(creatorId, mediaId)) else None,
      if mediaType == "audio" then Some(WaveformKey(creatorId, mediaId)) else None,
      if mediaType == "audio" then Some(WaveformImageKey(creatorId, mediaId)) else None,
      if video then Some(MezzanineKey(creatorId, mediaId)) else None,
      Some(info.duration), info.width, info.height,
      ReadyVariants(mediaType, info.height),
      None)
  }

  /** The longest error text the failure payload carries. */
  const ErrorCap: nat := 2000

  /** `error_msg[:2000]`: a prefix of the message of at most 2000 characters, the whole message when it fits. */
  function CapError(msg: string): (r: string)
    ensures |r| <= ErrorCap && r <= msg
    ensures r == msg <==> |msg| <= ErrorCap
    ensures |msg| > ErrorCap ==> |r| == ErrorCap && r == msg[..ErrorCap]
  {
    Prefix(msg, ErrorCap)
  }

  /** The `failed` payload: every artifact field null, no variants and the capped message. */
  function FailedResult(mediaId: string, msg: string): (r: TranscodingResult)
    ensures r.status == "failed" && r.mediaId == mediaId
    ensures r.hlsMasterPlaylistKey.None? && r.hlsPreviewKey.None? && r.thumbnailKey.None?
    ensures r.waveformKey.None? && r.waveformImageKey.None? && r.mezzanineKey.None?
    ensures r.durationSeconds.None? && r.width.None? && r.height.None? && r.readyVariants == []
    ensures r.error.Some? && |r.error.value| <= ErrorCap && r.error.value <= msg
    ensures |msg| <= ErrorCap ==> r.error == Some(msg)
    ensures |msg| > ErrorCap ==> r.error == Some(msg[..ErrorCap])
  {
    TranscodingResult("failed", mediaId, None, None, None, None, None, None, None, None, None, [], Some(CapError(msg)))
  }
}
