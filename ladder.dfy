/** The rendition ladders (`HLS_VARIANTS`, `AUDIO_VARIANTS`), which entries a source keeps,
    and the text of the HLS master playlist (RFC 8216: `#EXTM3U` section 4.3.1.1,
    `#EXT-X-VERSION` section 4.3.1.2, `#EXT-X-STREAM-INF` section 4.3.4.2). */
module Ladder {
  import opened Wrappers
  import opened Text

  /** One video rung: its directory name, target height and bitrates written as in ffmpeg ("5000k"). */
  datatype VideoVariant = VideoVariant(name: string, height: nat, videoBitrate: string, audioBitrate: string)

  /** One audio-only rung. */
  datatype AudioVariant = AudioVariant(name: string, audioBitrate: string)

  const HlsVariants: seq<VideoVariant> := [
    VideoVariant("1080p", 1080, "5000k", "192k"),
    VideoVariant("720p", 720, "3000k", "128k"),
    VideoVariant("480p", 480, "1500k", "96k"),
    VideoVariant("360p", 360, "800k", "64k")
  ]

  const AudioVariants: seq<AudioVariant> := [
    AudioVariant("128k", "128k"),
    AudioVariant("64k", "64k")
  ]

  /** The audio ladder yields every rung, in table order. */
  const AudioNames: seq<string> := ["128k", "64k"]

  /** A bitrate such as "800k": decimal digits followed by `k`. */
  predicate ValidBitrate(b: string) {
    |b| >= 2 && b[|b| - 1] == 'k' && AllDigits(b[..|b| - 1])
  }

  /** `int(bitrate[:-1])`: the kilobits per second a bitrate string declares. */
  function Kbps(b: string): nat
    requires ValidBitrate(b)
  {
    ParseNat(b[..|b| - 1])
  }

  /** The ffmpeg `-bufsize` argument: twice the video bitrate, again in kbps. Only the constant
      table's bitrates reach it, and all of them are valid (`TablesValid`); for anything else,
      where the source would raise, it is empty. */
  function Bufsize(videoBitrate: string): (r: string)
    ensures ValidBitrate(videoBitrate) ==> ValidBitrate(r) && Kbps(r) == 2 * Kbps(videoBitrate)
  {
    if ValidBitrate(videoBitrate) then
      var r := Digits(Kbps(videoBitrate) * 2) + "k";
      assert r[..|r| - 1] == Digits(Kbps(videoBitrate) * 2);
      ParseDigits(Kbps(videoBitrate) * 2);
      r
    else ""
  }

  predicate ValidVideo(v: VideoVariant) {
    ValidBitrate(v.videoBitrate) && ValidBitrate(v.audioBitrate)
  }

  predicate ValidAudio(v: AudioVariant) {
    ValidBitrate(v.audioBitrate)
  }

  predicate AllValidVideo(vs: seq<VideoVariant>) {
    forall i :: 0 <= i < |vs| ==> ValidVideo(vs[i])
  }

  predicate AllValidAudio(vs: seq<AudioVariant>) {
    forall i :: 0 <= i < |vs| ==> ValidAudio(vs[i])
  }

  lemma TablesValid()
    ensures AllValidVideo(HlsVariants) && AllValidAudio(AudioVariants)
  {
    assert "5000k"[..4] == "5000" && "3000k"[..4] == "3000" && "1500k"[..4] == "1500" && "800k"[..3] == "800";
    assert "192k"[..3] == "192" && "128k"[..3] == "128" && "96k"[..2] == "96" && "64k"[..2] == "64";
  }

  /** Python truthiness of `source_height`: `None` and `0` are false. */
  predicate Truthy(h: Option<int>) {
    h.Some? && h.value != 0
  }

  /** `if source_height and settings["height"] > source_height: continue`. */
  predicate Skipped(sourceHeight: Option<int>, v: VideoVariant) {
    Truthy(sourceHeight) && v.height > sourceHeight.value
  }

  /** The rungs of `vs` that are encoded, in their table order. */
  function Kept(vs: seq<VideoVariant>, sourceHeight: Option<int>): seq<VideoVariant>
    decreases |vs|
  {
    if vs == [] then []
    else
      var last := vs[|vs| - 1];
      Kept(vs[..|vs| - 1], sourceHeight) + (if Skipped(sourceHeight, last) then [] else [last])
  }

  lemma {:induction false} KeptAppend(a: seq<VideoVariant>, b: seq<VideoVariant>, h: Option<int>)
    ensures Kept(a + b, h) == Kept(a, h) + Kept(b, h)
    decreases |b|
  {
    if b != [] {
      var b' := b[..|b| - 1];
      assert (a + b)[..|a + b| - 1] == a + b';
      KeptAppend(a, b', h);
    } else {
      assert a + b == a;
    }
  }

  /** A rung is encoded iff it is in the table and not taller than a truthy source height. */
  lemma {:induction false} KeptMembers(vs: seq<VideoVariant>, h: Option<int>, v: VideoVariant)
    ensures v in Kept(vs, h) <==> v in vs && !Skipped(h, v)
    decreases |vs|
  {
    if vs != [] {
      KeptMembers(vs[..|vs| - 1], h, v);
      assert vs == vs[..|vs| - 1] + [vs[|vs| - 1]];
    }
  }

  /** With no truthy source height (`None` or `0`), every rung of the table is encoded. */
  lemma {:induction false} NoHeightKeepsAll(vs: seq<VideoVariant>, h: Option<int>)
    requires !Truthy(h)
    ensures Kept(vs, h) == vs
    decreases |vs|
  {
    if vs != [] {
      NoHeightKeepsAll(vs[..|vs| - 1], h);
    }
  }

  /** The video ladder for each source height: no rung is ever taller than the source. */
  lemma VideoLadderByHeight(h: int)
    ensures h == 0 || h >= 1080 ==> Kept(HlsVariants, Some(h)) == HlsVariants
    ensures 720 <= h < 1080 ==> Kept(HlsVariants, Some(h)) == HlsVariants[1..]
    ensures 480 <= h < 720 ==> Kept(HlsVariants, Some(h)) == HlsVariants[2..]
    ensures 360 <= h < 480 ==> Kept(HlsVariants, Some(h)) == HlsVariants[3..]
    ensures h != 0 && h < 360 ==> Kept(HlsVariants, Some(h)) == []
  {
    var vs := HlsVariants;
    var hh := Some(h);
    KeptTable(hh);
    KeptSingle(vs[0], hh);
    KeptSingle(vs[1], hh);
    KeptSingle(vs[2], hh);
    KeptSingle(vs[3], hh);
    assert vs[1..] == [vs[1], vs[2], vs[3]] && vs[2..] == [vs[2], vs[3]] && vs[3..] == [vs[3]];
  }

  /** The table's kept rungs, rung by rung. */
  lemma KeptTable(h: Option<int>)
    ensures var vs := HlsVariants;
      Kept(vs, h) == Kept([vs[0]], h) + Kept([vs[1]], h) + Kept([vs[2]], h) + Kept([vs[3]], h)
  {
    var vs := HlsVariants;
    assert vs == [vs[0]] + [vs[1]] + [vs[2]] + [vs[3]];
    KeptAppend([vs[0]] + [vs[1]] + [vs[2]], [vs[3]], h);
    KeptAppend([vs[0]] + [vs[1]], [vs[2]], h);
    KeptAppend([vs[0]], [vs[1]], h);
  }

  lemma KeptSingle(v: VideoVariant, h: Option<int>)
    ensures Kept([v], h) == if Skipped(h, v) then [] else [v]
  {
    assert [v][..0] == [];
  }

  function Names(vs: seq<VideoVariant>): (r: seq<string>)
    ensures |r| == |vs| && forall i :: 0 <= i < |vs| ==> r[i] == vs[i].name
  {
    seq(|vs|, i requires 0 <= i < |vs| => vs[i].name)
  }

  // ---------------------------------------------------------------------------
  // Master playlist

  const Header: seq<string> := ["#EXTM3U", "#EXT-X-VERSION:3"]

  /** The `BANDWIDTH` attribute value: the declared kbps times 1000, in decimal. */
  function Bandwidth(bitrate: string): (r: string)
    requires ValidBitrate(bitrate)
    ensures AllDigits(r) && ParseNat(r) == Kbps(bitrate) * 1000
  {
    ParseDigits(Kbps(bitrate) * 1000);
    Digits(Kbps(bitrate) * 1000)
  }

  /** The `RESOLUTION` attribute value: a 16:9 width, truncated, by the rung height. */
  function Resolution(height: nat): string {
    Digits(height * 16 / 9) + "x" + Digits(height)
  }

  /** Reading `RESOLUTION` back at its `x` gives the rung height and the 16:9 width rounded down. */
  lemma ResolutionReads(height: nat)
    ensures var r := Resolution(height);
      var k := IndexOf(r, 'x');
      k < |r| && AllDigits(r[..k]) && AllDigits(r[k + 1..]) &&
      ParseNat(r[k + 1..]) == height &&
      9 * ParseNat(r[..k]) <= 16 * height < 9 * ParseNat(r[..k]) + 9
  {
    var w := Digits(height * 16 / 9);
    var r := Resolution(height);
    assert r[|w|] == 'x';
    assert r[..|w|] == w && r[|w| + 1..] == Digits(height);
    ParseDigits(height * 16 / 9);
    ParseDigits(height);
  }

  /** The 480p rung announces `853x480`. */
  lemma Resolution480()
    ensures Resolution(480) == "853x480"
  {
    assert 480 * 16 / 9 == 853;
    assert Digits(85) == "85" && Digits(48) == "48";
    assert Digits(853) == "853" && Digits(480) == "480";
  }

  function VariantUri(name: string): string {
    name + "/index.m3u8"
  }

  function VideoStreamInf(v: VideoVariant): string
    requires ValidVideo(v)
  {
    "#EXT-X-STREAM-INF:BANDWIDTH=" + Bandwidth(v.videoBitrate) + ",RESOLUTION=" + Resolution(v.height)
  }

  function AudioStreamInf(v: AudioVariant): string
    requires ValidAudio(v)
  {
    "#EXT-X-STREAM-INF:BANDWIDTH=" + Bandwidth(v.audioBitrate)
  }

  function VideoEntries(vs: seq<VideoVariant>): seq<string>
    requires AllValidVideo(vs)
    decreases |vs|
  {
    if vs == [] then []
    else
      var last := vs[|vs| - 1];
      VideoEntries(vs[..|vs| - 1]) + [VideoStreamInf(last), VariantUri(last.name)]
  }

  function AudioEntries(vs: seq<AudioVariant>): seq<string>
    requires AllValidAudio(vs)
    decreases |vs|
  {
    if vs == [] then []
    else
      var last := vs[|vs| - 1];
      AudioEntries(vs[..|vs| - 1]) + [AudioStreamInf(last), VariantUri(last.name)]
  }

  /** The lines of `master.m3u8` for the video rungs that were encoded. */
  function VideoMasterLines(vs: seq<VideoVariant>): seq<string>
    requires AllValidVideo(vs)
  {
    Header + VideoEntries(vs)
  }

  /** The lines of `master.m3u8` for the audio rungs that were encoded. */
  function AudioMasterLines(vs: seq<AudioVariant>): seq<string>
    requires AllValidAudio(vs)
  {
    Header + AudioEntries(vs)
  }

  lemma {:induction false} KeptValid(vs: seq<VideoVariant>, h: Option<int>)
    requires AllValidVideo(vs)
    ensures AllValidVideo(Kept(vs, h))
  {
    forall i | 0 <= i < |Kept(vs, h)| ensures ValidVideo(Kept(vs, h)[i]) {
      KeptMembers(vs, h, Kept(vs, h)[i]);
    }
  }

  /** The text written to `master.m3u8` after the video ladder, for a source of height `h`. */
  function VideoMaster(h: Option<int>): string {
    TablesValid();
    KeptValid(HlsVariants, h);
    Join(VideoMasterLines(Kept(HlsVariants, h)))
  }

  /** The text written to `master.m3u8` after the audio ladder. */
  function AudioMaster(): string {
    TablesValid();
    Join(AudioMasterLines(AudioVariants))
  }

  /** Each encoded rung contributes exactly a stream-info line followed by its playlist URI, in order. */
  lemma {:induction false} VideoMasterShape(vs: seq<VideoVariant>)
    requires AllValidVideo(vs)
    ensures |VideoMasterLines(vs)| == 2 + 2 * |vs|
    ensures VideoMasterLines(vs)[0] == "#EXTM3U" && VideoMasterLines(vs)[1] == "#EXT-X-VERSION:3"
    ensures forall i :: 0 <= i < |vs| ==>
      VideoMasterLines(vs)[2 + 2 * i] == VideoStreamInf(vs[i]) &&
      VideoMasterLines(vs)[3 + 2 * i] == VariantUri(vs[i].name)
  {
    VideoEntriesShape(vs);
  }

  lemma {:induction false} VideoEntriesShape(vs: seq<VideoVariant>)
    requires AllValidVideo(vs)
    ensures |VideoEntries(vs)| == 2 * |vs|
    ensures forall i :: 0 <= i < |vs| ==>
      VideoEntries(vs)[2 * i] == VideoStreamInf(vs[i]) && VideoEntries(vs)[2 * i + 1] == VariantUri(vs[i].name)
    decreases |vs|
  {
    if vs != [] {
      VideoEntriesShape(vs[..|vs| - 1]);
    }
  }

  lemma {:induction false} AudioMasterShape(vs: seq<AudioVariant>)
    requires AllValidAudio(vs)
    ensures |AudioMasterLines(vs)| == 2 + 2 * |vs|
    ensures AudioMasterLines(vs)[0] == "#EXTM3U" && AudioMasterLines(vs)[1] == "#EXT-X-VERSION:3"
    ensures forall i :: 0 <= i < |vs| ==>
      AudioMasterLines(vs)[2 + 2 * i] == AudioStreamInf(vs[i]) &&
      AudioMasterLines(vs)[3 + 2 * i] == VariantUri(vs[i].name)
  {
    AudioEntriesShape(vs);
  }

  lemma {:induction false} AudioEntriesShape(vs: seq<AudioVariant>)
    requires AllValidAudio(vs)
    ensures |AudioEntries(vs)| == 2 * |vs|
    ensures forall i :: 0 <= i < |vs| ==>
      AudioEntries(vs)[2 * i] == AudioStreamInf(vs[i]) && AudioEntries(vs)[2 * i + 1] == VariantUri(vs[i].name)
    decreases |vs|
  {
    if vs != [] {
      AudioEntriesShape(vs[..|vs| - 1]);
    }
  }
}
