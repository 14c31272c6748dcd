/** Whole-job outcomes under concrete conditions: the runs the handler's unit tests describe, the
    worked examples of short and 1080p sources, and the fact that the loudness measurement never
    changes what the job does. */
module Scenarios {
  import opened Wrappers
  import opened Ladder
  import opened Media
  import opened Payload
  import opened Effects
  import opened Pipeline
  import opened Lifecycle
  import Properties

  /** Every external call of the try block succeeds. */
  ghost predicate Smooth(job: map<string, string>, env: Env) {
    "r2BucketName" in job && "b2BucketName" in job &&
    (forall o :: env.download(o).Done?) && env.probe.Ok? && env.loudnessStderr.Ok? &&
    (forall s :: !env.decodeLoudness(s).Raises?) &&
    (forall t :: env.run(t).Done?) && (forall o :: env.upload(o).Done?)
  }

  lemma {:induction false} EventsOfHas(rs: seq<Run>, k: nat, e: Event)
    requires k < |rs| && e in rs[k].events
    ensures e in EventsOf(rs)
    decreases |rs|
  {
    if k < |rs| - 1 {
      assert rs[..|rs| - 1][k] == rs[k];
      EventsOfHas(rs[..|rs| - 1], k, e);
    }
  }

  lemma StageDone(k: nat, job: map<string, string>, ids: Ids, gpu: bool, env: Env)
    requires k < 10 && Smooth(job, env)
    ensures Stage(k, job, ids, gpu, env).outcome.Done?
  {
    var info := ProbedInfo(env);
    if k == 4 {
      assert AnalyzeLoudness(env.loudnessStderr.value, env.decodeLoudness).Ok?;
    } else if k == 5 {
      LadderDone(ids.mediaType, info.height, gpu, env);
    } else if k == 6 {
      UploadDirDone(Field(job, "r2BucketName"), HlsPrefix(ids.creatorId, ids.mediaId),
                    LadderTree(ids.mediaType, info.height, gpu, env.produced), env);
    }
  }

  lemma LadderDone(mediaType: string, height: Option<int>, gpu: bool, env: Env)
    requires forall t :: env.run(t).Done?
    ensures LadderStep(mediaType, height, gpu, env).outcome.Done?
  {
    var ts := LadderTools(mediaType, height, gpu);
    ToolRunIsFirstFailure(ts, env);
    assert FirstFail(ts, env.run) == |ts|;
  }

  lemma UploadDirDone(bucket: string, prefix: string, tree: seq<Storage.LocalFile>, env: Env)
    requires forall o :: env.upload(o).Done?
    ensures UploadDirStep(bucket, prefix, tree, env).outcome.Done?
  {
    var plan := Storage.UploadPlan(prefix, tree);
    var refs := PlanRefs(Delivery, bucket, plan);
    UploadRunIsFirstFailure(Delivery, bucket, plan, env);
    assert FirstFail(refs, env.upload) == |refs|;
  }

  /** When every external call succeeds, every stage runs and the job completes. */
  lemma AllStagesRun(job: map<string, string>, ids: Ids, gpu: bool, env: Env)
    requires Smooth(job, env)
    ensures TryBlock(job, ids, gpu, env) ==
      TryOutcome(EventsOf(Stages(job, ids, gpu, env)), Ok(CompletedResult(ids.mediaId, ids.creatorId, ids.mediaType, ProbedInfo(env))))
  {
    var rs := Stages(job, ids, gpu, env);
    forall k | 0 <= k < |rs| ensures rs[k].outcome.Done? {
      StageDone(k, job, ids, gpu, env);
    }
    assert FirstFail(rs, OutcomeOf) == |rs|;
    ChainIsFirstFailure(rs);
    assert rs[..|rs|] == rs;
  }

  /** When every call succeeds and the webhook accepts the post, the handler reports success
      after posting exactly the completed payload. */
  lemma HappyPath(job: map<string, string>, env: Env)
    requires Prelude(job, env).Ok? && Smooth(job, env) && WebhookConfigured(job)
    requires forall u, b, s :: env.post(u, b, s).Done?
    ensures Handled(job, env).ret == Success(job["mediaId"])
    ensures Posted(Handled(job, env).events) == [CompletedResult(job["mediaId"], job["creatorId"], job["type"], ProbedInfo(env))]
  {
    var ids := Prelude(job, env).value;
    var gpu := GpuAvailable(env.encoderListing);
    AllStagesRun(job, ids, gpu, env);
    HandledPosts(job, env);
    SendWebhookPosts(job, env, CompletedResult(ids.mediaId, ids.creatorId, ids.mediaType, ProbedInfo(env)));
  }

  /** The events of the try block appear, in place, in the events of the whole call. */
  lemma InHandled(job: map<string, string>, env: Env, e: Event)
    requires Prelude(job, env).Ok?
    requires e in TryBlock(job, Prelude(job, env).value, GpuAvailable(env.encoderListing), env).events
    ensures e in Handled(job, env).events
  {
  }

  lemma VideoJobRuns(job: map<string, string>, ids: Ids, gpu: bool, env: Env)
    requires Smooth(job, env) && ids.mediaType == "video" && ProbedInfo(env).duration == 100
    ensures var es := TryBlock(job, ids, gpu, env).events;
      RunTool(Preview(10, 30, gpu)) in es && RunTool(Thumbnail(10)) in es && RunTool(Mezzanine(gpu)) in es
  {
    AllStagesRun(job, ids, gpu, env);
    var rs := Stages(job, ids, gpu, env);
    assert PreviewTool(100, gpu) == Preview(10, 30, gpu);
    assert rs[7].events == [RunTool(Preview(10, 30, gpu))];
    EventsOfHas(rs, 7, RunTool(Preview(10, 30, gpu)));
    assert ThumbnailTime(100) == 10;
    assert rs[8].events[0] == RunTool(Thumbnail(10));
    EventsOfHas(rs, 8, RunTool(Thumbnail(10)));
    assert rs[3].events[0] == RunTool(Mezzanine(gpu));
    EventsOfHas(rs, 3, RunTool(Mezzanine(gpu)));
  }

  lemma ProbesTestVideo(env: Env)
    requires env.probe == Ok(ProbeData(Some(100), [Stream(Some("video"), Some(1920), Some(1080))]))
    ensures ProbedInfo(env) == MediaInfo(100, Some(1920), Some(1080))
  {
    assert FirstVideo(env.probe.value.streams) == Some(0);
  }

  /** The 1080p, 100-second video of the unit tests runs a 30-second preview from the tenth second,
      a thumbnail at ten seconds and the mezzanine encode. */
  lemma VideoJobEvents(job: map<string, string>, env: Env)
    requires Prelude(job, env).Ok? && Smooth(job, env) && job["type"] == "video"
    requires env.probe == Ok(ProbeData(Some(100), [Stream(Some("video"), Some(1920), Some(1080))]))
    ensures var gpu := GpuAvailable(env.encoderListing);
      var es := Handled(job, env).events;
      RunTool(Preview(10, 30, gpu)) in es && RunTool(Thumbnail(10)) in es &&
      RunTool(Mezzanine(gpu)) in es
  {
    var ids := Prelude(job, env).value;
    var gpu := GpuAvailable(env.encoderListing);
    ProbesTestVideo(env);
    VideoJobRuns(job, ids, gpu, env);
    InHandled(job, env, RunTool(Preview(10, 30, gpu)));
    InHandled(job, env, RunTool(Thumbnail(10)));
    InHandled(job, env, RunTool(Mezzanine(gpu)));
  }

  /** The same video with a webhook that accepts the post: success, and one completed post with all
      four rungs ready, the probed size and duration, and the thumbnail and mezzanine keys. */
  lemma VideoJob(job: map<string, string>, env: Env)
    requires Prelude(job, env).Ok? && Smooth(job, env) && WebhookConfigured(job) && job["type"] == "video"
    requires env.probe == Ok(ProbeData(Some(100), [Stream(Some("video"), Some(1920), Some(1080))]))
    requires forall u, b, s :: env.post(u, b, s).Done?
    ensures Handled(job, env).ret == Success(job["mediaId"])
    ensures var ps := Posted(Handled(job, env).events);
      |ps| == 1 && ps[0].readyVariants == ["1080p", "720p", "480p", "360p"] &&
      ps[0].durationSeconds == Some(100) && ps[0].width == Some(1920) && ps[0].height == Some(1080) &&
      ps[0].thumbnailKey == Some(ThumbnailKey(job["creatorId"], job["mediaId"])) &&
      ps[0].mezzanineKey == Some(MezzanineKey(job["creatorId"], job["mediaId"]))
  {
    ProbesTestVideo(env);
    HappyPath(job, env);
    VideoLadderByHeight(1080);
    assert Names(HlsVariants) == ["1080p", "720p", "480p", "360p"];
  }

  lemma AudioJobRuns(job: map<string, string>, ids: Ids, gpu: bool, env: Env)
    requires Smooth(job, env) && ids.mediaType == "audio"
    ensures var es := TryBlock(job, ids, gpu, env).events;
      RunTool(WaveformData) in es && RunTool(WaveformImage) in es
  {
    AllStagesRun(job, ids, gpu, env);
    var rs := Stages(job, ids, gpu, env);
    assert rs[9].events[0] == RunTool(WaveformData) && rs[9].events[1] == RunTool(WaveformImage);
    EventsOfHas(rs, 9, RunTool(WaveformData));
    EventsOfHas(rs, 9, RunTool(WaveformImage));
  }

  /** Outside the try block the handler runs only the encoder listing and posts. */
  lemma OutsideTry(job: map<string, string>, env: Env, i: nat)
    requires Prelude(job, env).Ok?
    requires i < |Handled(job, env).events|
    ensures var es := Handled(job, env).events;
      var t := TryBlock(job, Prelude(job, env).value, GpuAvailable(env.encoderListing), env).events;
      (exists j :: 0 <= j < |t| && es[i] == t[j]) || es[i] == RunTool(ListEncoders) || (!es[i].RunTool? && !es[i].Upload?)
  {
    var ids := Prelude(job, env).value;
    var t := TryBlock(job, ids, GpuAvailable(env.encoderListing), env);
    var ns := Notices(job, env, ids.mediaId, t.result);
    NoticesSigned(job, env, ids.mediaId, t.result);
    var es := Handled(job, env).events;
    assert es == [RunTool(ListEncoders), Acquire] + t.events + ns + [Cleanup];
    if 2 <= i < 2 + |t.events| {
      assert es[i] == t.events[i - 2];
    } else if 2 + |t.events| <= i < |es| - 1 {
      assert es[i] == ns[i - 2 - |t.events|];
    }
  }

  /** The audio job of the unit tests: the waveform is generated, no mezzanine is made or archived,
      and the completed post reports the whole audio ladder. */
  lemma AudioJob(job: map<string, string>, env: Env)
    requires Prelude(job, env).Ok? && Smooth(job, env) && WebhookConfigured(job) && job["type"] == "audio"
    requires env.probe == Ok(ProbeData(Some(300), [Stream(Some("audio"), None, None)]))
    requires forall u, b, s :: env.post(u, b, s).Done?
    ensures var es := Handled(job, env).events;
      RunTool(WaveformData) in es && RunTool(WaveformImage) in es &&
      forall i :: 0 <= i < |es| ==> !(es[i].RunTool? && es[i].tool.Mezzanine?) && !(es[i].Upload? && es[i].store == Archive)
    ensures Handled(job, env).ret == Success(job["mediaId"])
    ensures var ps := Posted(Handled(job, env).events);
      |ps| == 1 && ps[0].readyVariants == ["128k", "64k"] && ps[0].mezzanineKey.None? &&
      ps[0].waveformKey == Some(WaveformKey(job["creatorId"], job["mediaId"])) && ps[0].width.None?
  {
    var ids := Prelude(job, env).value;
    var gpu := GpuAvailable(env.encoderListing);
    assert FirstVideo(env.probe.value.streams) == None;
    HappyPath(job, env);
    AudioJobRuns(job, ids, gpu, env);
    InHandled(job, env, RunTool(WaveformData));
    InHandled(job, env, RunTool(WaveformImage));
    Properties.DispatchByMediaType(job, ids, gpu, env);
    var t := TryBlock(job, ids, gpu, env).events;
    var es := Handled(job, env).events;
    forall i | 0 <= i < |es| ensures !(es[i].RunTool? && es[i].tool.Mezzanine?) && !(es[i].Upload? && es[i].store == Archive) {
      OutsideTry(job, env, i);
      if exists j :: 0 <= j < |t| && es[i] == t[j] {
        var j :| 0 <= j < |t| && es[i] == t[j];
        assert Properties.FitsMediaType(job, ids, ProbedInfo(env).duration, t[j]);
      }
    }
  }

  /** The download failure of the unit tests: nothing but the download is attempted, the full
      message is returned and the failed payload is posted once. */
  lemma DownloadFails(job: map<string, string>, env: Env, m: string)
    requires Prelude(job, env).Ok? && "r2BucketName" in job && WebhookConfigured(job)
    requires env.download(ObjectRef(Delivery, job["r2BucketName"], job["inputKey"])) == Failed(m)
    ensures TryBlock(job, Prelude(job, env).value, GpuAvailable(env.encoderListing), env).events ==
      [Download(job["r2BucketName"], job["inputKey"])]
    ensures Handled(job, env).ret == Error(m)
    ensures Posted(Handled(job, env).events) == [FailedResult(job["mediaId"], m)]
  {
    var ids := Prelude(job, env).value;
    var gpu := GpuAvailable(env.encoderListing);
    var rs := Stages(job, ids, gpu, env);
    assert FirstFail(rs, OutcomeOf) == 1;
    ChainIsFirstFailure(rs);
    assert rs[..2] == [rs[0], rs[1]];
    assert EventsOf(rs[..2]) == EventsOf(rs[..2][..1]) + rs[1].events;
    assert rs[..2][..1] == [rs[0]];
    assert EventsOf([rs[0]]) == EventsOf([rs[0]][..0]) + rs[0].events;
    HandledPosts(job, env);
    SendWebhookPosts(job, env, FailedResult(ids.mediaId, m));
  }

  lemma EncodeTimesOutTry(job: map<string, string>, ids: Ids, gpu: bool, env: Env, m: string)
    requires "r2BucketName" in job && ids.mediaType == "video"
    requires forall o :: env.download(o).Done?
    requires env.probe.Ok?
    requires forall t :: env.run(t) == Failed(m)
    ensures TryBlock(job, ids, gpu, env) ==
      TryOutcome([Download(job["r2BucketName"], ids.inputKey), RunTool(Probe), RunTool(Mezzanine(gpu))], Err(m))
  {
    var rs := Stages(job, ids, gpu, env);
    assert rs[0] == Run([], Done);
    assert rs[1] == Run([Download(job["r2BucketName"], ids.inputKey)], Done);
    assert rs[2] == Run([RunTool(Probe)], Done);
    assert rs[3] == Run([RunTool(Mezzanine(gpu))], Failed(m));
    assert FirstFail(rs, OutcomeOf) == 3;
    ChainIsFirstFailure(rs);
    EventsOfSnoc(rs, 0);
    EventsOfSnoc(rs, 1);
    EventsOfSnoc(rs, 2);
    EventsOfSnoc(rs, 3);
    assert rs[..0] == [];
  }

  /** The timeout of the unit tests: when every encode times out, the video job stops at the
      mezzanine, returns the timeout message and posts the failed payload. */
  lemma EncodeTimesOut(job: map<string, string>, env: Env, m: string)
    requires Prelude(job, env).Ok? && "r2BucketName" in job && WebhookConfigured(job) && job["type"] == "video"
    requires forall o :: env.download(o).Done?
    requires env.probe == Ok(ProbeData(Some(100), []))
    requires forall t :: env.run(t) == Failed(m)
    ensures TryBlock(job, Prelude(job, env).value, GpuAvailable(env.encoderListing), env).events ==
      [Download(job["r2BucketName"], job["inputKey"]), RunTool(Probe), RunTool(Mezzanine(GpuAvailable(env.encoderListing)))]
    ensures Handled(job, env).ret == Error(m)
    ensures Posted(Handled(job, env).events) == [FailedResult(job["mediaId"], m)]
  {
    var ids := Prelude(job, env).value;
    var gpu := GpuAvailable(env.encoderListing);
    EncodeTimesOutTry(job, ids, gpu, env, m);
    HandledPosts(job, env);
    SendWebhookPosts(job, env, FailedResult(ids.mediaId, m));
  }

  /** A 5-second 240p video: no rung fits, so the master playlist is only its header; the preview
      is the whole source and the thumbnail is taken at one second. */
  lemma ShortLowVideo(gpu: bool)
    ensures LadderTools("video", Some(240), gpu) == []
    ensures ReadyVariants("video", Some(240)) == []
    ensures VideoMasterLines(Kept(HlsVariants, Some(240))) == Header
    ensures PreviewTool(5, gpu) == Preview(0, 5, gpu)
    ensures ThumbnailTime(5) == 1
  {
    VideoLadderByHeight(240);
  }

  /** The loudness measurement does not shape the job: two environments that differ only in what
      the analysis measures, and agree on whether it raised, run the same try block to the same result. */
  lemma LoudnessIgnored(job: map<string, string>, ids: Ids, gpu: bool, env1: Env, env2: Env)
    requires env1.(loudnessStderr := env2.loudnessStderr, decodeLoudness := env2.decodeLoudness) == env2
    requires LoudnessStep(env1).outcome == LoudnessStep(env2).outcome
    ensures TryBlock(job, ids, gpu, env1) == TryBlock(job, ids, gpu, env2)
  {
    var rs1 := Stages(job, ids, gpu, env1);
    var rs2 := Stages(job, ids, gpu, env2);
    forall k | 0 <= k < 10 ensures rs1[k] == rs2[k] {
      StageIgnoresLoudness(k, job, ids, gpu, env1, env2);
    }
    assert rs1 == rs2;
  }

  lemma StageIgnoresLoudness(k: nat, job: map<string, string>, ids: Ids, gpu: bool, env1: Env, env2: Env)
    requires k < 10
    requires env1.(loudnessStderr := env2.loudnessStderr, decodeLoudness := env2.decodeLoudness) == env2
    requires LoudnessStep(env1).outcome == LoudnessStep(env2).outcome
    ensures Stage(k, job, ids, gpu, env1) == Stage(k, job, ids, gpu, env2)
  {
    assert env1.download == env2.download && env1.probe == env2.probe && env1.run == env2.run;
    assert env1.produced == env2.produced && env1.upload == env2.upload;
    assert ProbedInfo(env1) == ProbedInfo(env2);
    var info := ProbedInfo(env1);
    match k
    case 0 =>
    case 1 =>
    case 2 => assert ProbeStep(env1) == ProbeStep(env2);
    case 3 => assert MezzanineStep(job, ids, gpu, env1) == MezzanineStep(job, ids, gpu, env2);
    case 4 => assert Stage(k, job, ids, gpu, env1) == LoudnessStep(env1);
    case 5 =>
      var ts := LadderTools(ids.mediaType, info.height, gpu);
      ToolRunIsFirstFailure(ts, env1);
      ToolRunIsFirstFailure(ts, env2);
    case 6 =>
      var bucket, prefix := Field(job, "r2BucketName"), HlsPrefix(ids.creatorId, ids.mediaId);
      var tree := LadderTree(ids.mediaType, info.height, gpu, env1.produced);
      UploadRunIsFirstFailure(Delivery, bucket, Storage.UploadPlan(prefix, tree), env1);
      UploadRunIsFirstFailure(Delivery, bucket, Storage.UploadPlan(prefix, tree), env2);
    case 7 => assert PreviewStep(ids, info, gpu, env1) == PreviewStep(ids, info, gpu, env2);
    case 8 => assert ThumbnailStep(ids, Field(job, "r2BucketName"), info, env1) == ThumbnailStep(ids, Field(job, "r2BucketName"), info, env2);
    case _ => assert WaveformStep(ids, Field(job, "r2BucketName"), env1) == WaveformStep(ids, Field(job, "r2BucketName"), env2);
  }
}
