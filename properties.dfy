/** What the handler guarantees, proved about the staged description in module Pipeline. */
module Properties {
  import opened Wrappers
  import opened Text
  import opened Ladder
  import opened Media
  import opened Storage
  import opened Payload
  import opened Effects
  import opened Pipeline

  /** An action of the try block proper: a download, a tool run or an upload. */
  predicate IsWork(e: Event) {
    e.Download? || e.RunTool? || e.Upload?
  }

  /** A stage only does work, and never uploads to `key`. */
  predicate WorkAvoiding(r: Run, key: string) {
    forall i :: 0 <= i < |r.events| ==> IsWork(r.events[i]) && (r.events[i].Upload? ==> r.events[i].key != key)
  }

  lemma ThenAvoids(a: Run, b: Run, key: string)
    requires WorkAvoiding(a, key) && WorkAvoiding(b, key)
    ensures WorkAvoiding(Then(a, b), key)
  {
  }

  /** The mezzanine, thumbnail and waveform keys live outside the HLS tree. */
  lemma KeysOutsideHls(c: string, m: string)
    ensures MezzanineKey(c, m) != PreviewKey(c, m)
    ensures ThumbnailKey(c, m) != PreviewKey(c, m)
    ensures WaveformKey(c, m) != PreviewKey(c, m) && WaveformImageKey(c, m) != PreviewKey(c, m)
  {
    var i := |c| + 1;
    assert PreviewKey(c, m)[i] == 'h';
    assert MezzanineKey(c, m)[i] == 'm';
    assert ThumbnailKey(c, m)[i] == 't';
    assert WaveformKey(c, m)[i] == 'w' && WaveformImageKey(c, m)[i] == 'w';
  }

  lemma TableNames(v: VideoVariant)
    requires v in HlsVariants
    ensures |v.name| > 0 && IsDigit(v.name[0])
  {
  }

  /** Every rendition directory name starts with a digit ("1080p" ... "360p", "128k", "64k"). */
  lemma LadderDirs(mediaType: string, height: Option<int>, gpu: bool, t: Tool)
    requires t in LadderTools(mediaType, height, gpu)
    ensures |OutputDir(t)| > 0 && IsDigit(OutputDir(t)[0])
  {
    var ts := LadderTools(mediaType, height, gpu);
    var i :| 0 <= i < |ts| && ts[i] == t;
    if mediaType == "video" {
      var kept := Kept(HlsVariants, height);
      assert ts == VideoTools(kept, gpu);
      var v := kept[i];
      KeptMembers(HlsVariants, height, v);
      TableNames(v);
      assert t == VideoTool(v, gpu);
    } else {
      assert ts == AudioTools(AudioVariants);
      assert t == AudioTool(AudioVariants[i]);
    }
  }

  /** No file of the HLS tree as it stands at upload time has the preview playlist's relative path. */
  lemma TreeAvoidsPreview(mediaType: string, height: Option<int>, gpu: bool, produced: Tool -> seq<string>, f: LocalFile)
    requires f in LadderTree(mediaType, height, gpu, produced)
    ensures RelativePath(f) != "preview/preview.m3u8"
  {
    var outs := Outputs(LadderTools(mediaType, height, gpu), produced);
    if f in outs {
      OutputsDirs(LadderTools(mediaType, height, gpu), produced, f);
      var t :| t in LadderTools(mediaType, height, gpu) && f.dir == OutputDir(t);
      LadderDirs(mediaType, height, gpu, t);
      assert RelativePath(f)[0] == f.dir[0];
    } else {
      assert f == MasterFile;
    }
  }

  lemma UploadDirAvoidsPreview(ids: Ids, bucket: string, height: Option<int>, gpu: bool, env: Env)
    ensures WorkAvoiding(UploadDirStep(bucket, HlsPrefix(ids.creatorId, ids.mediaId),
                                       LadderTree(ids.mediaType, height, gpu, env.produced), env),
                         PreviewKey(ids.creatorId, ids.mediaId))
  {
    var prefix := HlsPrefix(ids.creatorId, ids.mediaId);
    var tree := LadderTree(ids.mediaType, height, gpu, env.produced);
    var plan := UploadPlan(prefix, tree);
    var r := UploadDirStep(bucket, prefix, tree, env);
    UploadRunIsFirstFailure(Delivery, bucket, plan, env);
    forall i | 0 <= i < |r.events| ensures r.events[i].Upload? && r.events[i].key != PreviewKey(ids.creatorId, ids.mediaId) {
      assert r.events[i].key == plan[i].key;
      TreeAvoidsPreview(ids.mediaType, height, gpu, env.produced, tree[i]);
      assert plan[i].key == prefix + RelativePath(tree[i]);
    }
  }

  lemma {:induction false} ChainAvoids(rs: seq<Run>, key: string)
    requires forall i :: 0 <= i < |rs| ==> WorkAvoiding(rs[i], key)
    ensures WorkAvoiding(Chain(rs), key)
    decreases |rs|
  {
    if rs != [] {
      ChainAvoids(rs[1..], key);
      ThenAvoids(rs[0], Chain(rs[1..]), key);
    }
  }

  lemma LadderStepIsWork(ids: Ids, height: Option<int>, gpu: bool, env: Env, key: string)
    ensures WorkAvoiding(LadderStep(ids.mediaType, height, gpu, env), key)
  {
    ToolRunIsFirstFailure(LadderTools(ids.mediaType, height, gpu), env);
  }

  lemma AuxStepsAvoidPreview(job: map<string, string>, ids: Ids, bucket: string, info: MediaInfo, gpu: bool, env: Env)
    ensures var key := PreviewKey(ids.creatorId, ids.mediaId);
      WorkAvoiding(MezzanineStep(job, ids, gpu, env), key) && WorkAvoiding(PreviewStep(ids, info, gpu, env), key) &&
      WorkAvoiding(ThumbnailStep(ids, bucket, info, env), key) && WorkAvoiding(WaveformStep(ids, bucket, env), key)
  {
    KeysOutsideHls(ids.creatorId, ids.mediaId);
  }

  lemma StageAvoidsPreview(k: nat, job: map<string, string>, ids: Ids, gpu: bool, env: Env)
    requires k < 10
    ensures WorkAvoiding(Stage(k, job, ids, gpu, env), PreviewKey(ids.creatorId, ids.mediaId))
  {
    var key := PreviewKey(ids.creatorId, ids.mediaId);
    var info := ProbedInfo(env);
    var bucket := Field(job, "r2BucketName");
    match k
    case 5 => LadderStepIsWork(ids, info.height, gpu, env, key);
    case 6 => UploadDirAvoidsPreview(ids, bucket, info.height, gpu, env);
    case 3 => AuxStepsAvoidPreview(job, ids, bucket, info, gpu, env);
    case 7 => AuxStepsAvoidPreview(job, ids, bucket, info, gpu, env);
    case 8 => AuxStepsAvoidPreview(job, ids, bucket, info, gpu, env);
    case 9 => AuxStepsAvoidPreview(job, ids, bucket, info, gpu, env);
    case _ =>
  }

  /** The try block only downloads, runs tools and uploads; and although the completed result of
      every video reports `hlsPreviewKey`, the preview playlist is never uploaded: the HLS tree is
      uploaded before the preview is encoded into it. */
  lemma PreviewNeverUploaded(job: map<string, string>, ids: Ids, gpu: bool, env: Env)
    ensures var es := TryBlock(job, ids, gpu, env).events;
      forall i :: 0 <= i < |es| ==> IsWork(es[i]) && (es[i].Upload? ==> es[i].key != PreviewKey(ids.creatorId, ids.mediaId))
  {
    var key := PreviewKey(ids.creatorId, ids.mediaId);
    var rs := Stages(job, ids, gpu, env);
    forall k | 0 <= k < |rs| ensures WorkAvoiding(rs[k], key) {
      StageAvoidsPreview(k, job, ids, gpu, env);
    }
    ChainAvoids(rs, key);
  }

  /** Every event `r` logs satisfies `P`. */
  predicate Keeps(r: Run, P: Event -> bool) {
    forall i :: 0 <= i < |r.events| ==> P(r.events[i])
  }

  /** Whatever holds of every event of every stage holds of every event of their chain. */
  lemma {:induction false} ChainKeeps(rs: seq<Run>, P: Event -> bool)
    requires forall k :: 0 <= k < |rs| ==> Keeps(rs[k], P)
    ensures Keeps(Chain(rs), P)
    decreases |rs|
  {
    if rs != [] {
      assert forall k :: 0 <= k < |rs[1..]| ==> rs[1..][k] == rs[k + 1];
      ChainKeeps(rs[1..], P);
    }
  }

  /** An event of the try block suits the job's media type and the probed `duration`: the archival
      store receives only the video mezzanine, the mezzanine and video renditions run only for
      video, the preview and thumbnail only for a video with a positive duration, the audio ladder
      only for other types and the waveform tools only for audio; delivery uploads go to the job's
      R2 bucket. */
  predicate FitsMediaType(job: map<string, string>, ids: Ids, duration: int, e: Event) {
    var video := ids.mediaType == "video";
    (e.Upload? && e.store == Archive ==>
       video && e == Upload(Archive, Field(job, "b2BucketName"), MezzanineKey(ids.creatorId, ids.mediaId), Some("video/mp4"))) &&
    (e.Upload? && e.store == Delivery ==> e.bucket == Field(job, "r2BucketName")) &&
    (e.RunTool? && (e.tool.Mezzanine? || e.tool.VideoRendition?) ==> video) &&
    (e.RunTool? && (e.tool.Preview? || e.tool.Thumbnail?) ==> video && duration > 0) &&
    (e.RunTool? && e.tool.AudioRendition? ==> !video) &&
    (e.RunTool? && (e.tool.WaveformData? || e.tool.WaveformImage?) ==> ids.mediaType == "audio")
  }

  function Fits(job: map<string, string>, ids: Ids, duration: int): Event -> bool {
    e => FitsMediaType(job, ids, duration, e)
  }

  lemma LadderFits(job: map<string, string>, ids: Ids, gpu: bool, env: Env)
    ensures Keeps(LadderStep(ids.mediaType, ProbedInfo(env).height, gpu, env), Fits(job, ids, ProbedInfo(env).duration))
  {
    var height := ProbedInfo(env).height;
    var ts := LadderTools(ids.mediaType, height, gpu);
    var r := LadderStep(ids.mediaType, height, gpu, env);
    ToolRunIsFirstFailure(ts, env);
    forall i | 0 <= i < |r.events| ensures FitsMediaType(job, ids, ProbedInfo(env).duration, r.events[i]) {
      var t := ts[i];
      assert r.events[i] == RunTool(t);
      if ids.mediaType == "video" {
        assert t == VideoTool(Kept(HlsVariants, height)[i], gpu);
      } else {
        assert t == AudioTool(AudioVariants[i]);
      }
    }
  }

  lemma UploadDirFits(job: map<string, string>, ids: Ids, tree: seq<LocalFile>, env: Env)
    ensures Keeps(UploadDirStep(Field(job, "r2BucketName"), HlsPrefix(ids.creatorId, ids.mediaId), tree, env),
                  Fits(job, ids, ProbedInfo(env).duration))
  {
    UploadRunIsFirstFailure(Delivery, Field(job, "r2BucketName"), UploadPlan(HlsPrefix(ids.creatorId, ids.mediaId), tree), env);
  }

  lemma MezzanineFits(job: map<string, string>, ids: Ids, gpu: bool, env: Env)
    ensures Keeps(MezzanineStep(job, ids, gpu, env), Fits(job, ids, ProbedInfo(env).duration))
  {
  }

  lemma PreviewFits(job: map<string, string>, ids: Ids, info: MediaInfo, gpu: bool, env: Env)
    ensures Keeps(PreviewStep(ids, info, gpu, env), Fits(job, ids, info.duration))
  {
  }

  lemma ThumbnailFits(job: map<string, string>, ids: Ids, info: MediaInfo, env: Env)
    ensures Keeps(ThumbnailStep(ids, Field(job, "r2BucketName"), info, env), Fits(job, ids, info.duration))
  {
  }

  lemma WaveformFits(job: map<string, string>, ids: Ids, env: Env)
    ensures Keeps(WaveformStep(ids, Field(job, "r2BucketName"), env), Fits(job, ids, ProbedInfo(env).duration))
  {
  }

  lemma StageFits(k: nat, job: map<string, string>, ids: Ids, gpu: bool, env: Env)
    requires k < 10
    ensures Keeps(Stage(k, job, ids, gpu, env), Fits(job, ids, ProbedInfo(env).duration))
  {
    if k < 5 {
      SourceStageFits(k, job, ids, gpu, env);
    } else if k == 5 {
      LadderStageFits(job, ids, gpu, env);
    } else if k == 6 {
      UploadStageFits(job, ids, gpu, env);
    } else {
      ExtraStageFits(k, job, ids, gpu, env);
    }
  }

  lemma SourceStageFits(k: nat, job: map<string, string>, ids: Ids, gpu: bool, env: Env)
    requires k < 5
    ensures Keeps(Stage(k, job, ids, gpu, env), Fits(job, ids, ProbedInfo(env).duration))
  {
    if k == 3 {
      MezzanineFits(job, ids, gpu, env);
    }
  }

  lemma LadderStageFits(job: map<string, string>, ids: Ids, gpu: bool, env: Env)
    ensures Keeps(Stage(5, job, ids, gpu, env), Fits(job, ids, ProbedInfo(env).duration))
  {
    LadderFits(job, ids, gpu, env);
  }

  lemma UploadStageFits(job: map<string, string>, ids: Ids, gpu: bool, env: Env)
    ensures Keeps(Stage(6, job, ids, gpu, env), Fits(job, ids, ProbedInfo(env).duration))
  {
    UploadDirFits(job, ids, LadderTree(ids.mediaType, ProbedInfo(env).height, gpu, env.produced), env);
  }

  lemma ExtraStageFits(k: nat, job: map<string, string>, ids: Ids, gpu: bool, env: Env)
    requires 7 <= k < 10
    ensures Keeps(Stage(k, job, ids, gpu, env), Fits(job, ids, ProbedInfo(env).duration))
  {
    var info := ProbedInfo(env);
    if k == 7 {
      PreviewFits(job, ids, info, gpu, env);
    } else if k == 8 {
      ThumbnailFits(job, ids, info, env);
    } else {
      WaveformFits(job, ids, env);
    }
  }

  /** Every action of the try block suits the job's media type (see `FitsMediaType`). */
  lemma DispatchByMediaType(job: map<string, string>, ids: Ids, gpu: bool, env: Env)
    ensures var es := TryBlock(job, ids, gpu, env).events;
      forall i :: 0 <= i < |es| ==> FitsMediaType(job, ids, ProbedInfo(env).duration, es[i])
  {
    var rs := Stages(job, ids, gpu, env);
    forall k | 0 <= k < |rs| ensures Keeps(rs[k], Fits(job, ids, ProbedInfo(env).duration)) {
      StageFits(k, job, ids, gpu, env);
    }
    ChainKeeps(rs, Fits(job, ids, ProbedInfo(env).duration));
    var es := Chain(rs).events;
    assert forall i :: 0 <= i < |es| ==> Fits(job, ids, ProbedInfo(env).duration)(es[i]);
  }

  /** Every encode of the video ladder is the command of a kept rung of `HLS_VARIANTS`: at that
      rung's height, with its video and audio bitrates, `-maxrate` equal to the video bitrate,
      `-bufsize` twice it in kbps, the fixed loudnorm filter and the encoder the GPU check chose. */
  lemma VideoRenditionCommands(height: Option<int>, gpu: bool, t: Tool)
    requires t in LadderTools("video", height, gpu)
    ensures t.VideoRendition? && t.gpu == gpu && t.audioFilter == Loudnorm && t.maxrate == t.videoBitrate
    ensures ValidBitrate(t.videoBitrate) && ValidBitrate(t.bufsize) && Kbps(t.bufsize) == 2 * Kbps(t.videoBitrate)
    ensures exists v :: v in HlsVariants && !Skipped(height, v) && v.name == t.name && v.height == t.height &&
                        v.videoBitrate == t.videoBitrate && v.audioBitrate == t.audioBitrate
  {
    var kept := Kept(HlsVariants, height);
    var ts := VideoTools(kept, gpu);
    var i :| 0 <= i < |ts| && ts[i] == t;
    var v := kept[i];
    KeptMembers(HlsVariants, height, v);
    TablesValid();
    var j :| 0 <= j < |HlsVariants| && HlsVariants[j] == v;
    assert ValidVideo(HlsVariants[j]);
  }

  /** Every rendition encode applies the fixed loudnorm filter. */
  lemma RenditionsUseFixedLoudnorm(mediaType: string, height: Option<int>, gpu: bool, t: Tool)
    requires t in LadderTools(mediaType, height, gpu)
    ensures t.VideoRendition? || t.AudioRendition?
    ensures t.audioFilter == Loudnorm
  {
  }
}
