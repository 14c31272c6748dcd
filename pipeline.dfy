/** The handler's behaviour as values: which stages run in which order, what each logs and when the
    first failure stops the rest, and how the job ends (webhooks, return value, cleanup). The class
    in module Handler performs these same steps one statement at a time. */
module Pipeline {
  import opened Wrappers
  import opened Text
  import opened Ladder
  import opened Media
  import opened Storage
  import opened Payload
  import opened Effects

  /** The four fields read before the `try` block. */
  datatype Ids = Ids(mediaId: string, creatorId: string, mediaType: string, inputKey: string)

  /** `str(KeyError(key))`: the key in single quotes. */
  function KeyErrorText(key: string): string {
    "'" + key + "'"
  }

  /** The first of `keys` that `job` lacks, in evaluation order. */
  function FirstMissing(job: map<string, string>, keys: seq<string>): (r: Option<string>)
    ensures r.None? <==> forall i :: 0 <= i < |keys| ==> keys[i] in job
    ensures r.Some? ==> exists i :: 0 <= i < |keys| && keys[i] == r.value && r.value !in job &&
                                    forall j :: 0 <= j < i ==> keys[j] in job
    decreases |keys|
  {
    if keys == [] then None
    else if keys[0] !in job then Some(keys[0])
    else
      var r := FirstMissing(job, keys[1..]);
      assert r.Some? ==> exists i :: 1 <= i < |keys| && keys[i] == r.value && r.value !in job &&
                                     forall j :: 0 <= j < i ==> keys[j] in job by {
        if r.Some? {
          var i :| 0 <= i < |keys| - 1 && keys[1..][i] == r.value && r.value !in job &&
                   forall j :: 0 <= j < i ==> keys[1..][j] in job;
          assert forall j :: 0 <= j < i + 1 ==> keys[j] in job by {
            forall j | 0 <= j < i + 1 ensures keys[j] in job {
              if j > 0 { assert keys[j] == keys[1..][j - 1]; }
            }
          }
        }
      }
      r
  }

  const IdFields: seq<string> := ["mediaId", "creatorId", "type", "inputKey"]
  const R2Fields: seq<string> := ["r2Endpoint", "r2AccessKeyId", "r2SecretAccessKey"]
  const B2Fields: seq<string> := ["b2Endpoint", "b2AccessKeyId", "b2SecretAccessKey"]

  /** Every field `handler` reads before the `try` block is present. */
  predicate HasPreludeFields(job: map<string, string>) {
    "mediaId" in job && "creatorId" in job && "type" in job && "inputKey" in job &&
    "r2Endpoint" in job && "r2AccessKeyId" in job && "r2SecretAccessKey" in job &&
    "b2Endpoint" in job && "b2AccessKeyId" in job && "b2SecretAccessKey" in job
  }

  /** Everything `handler` evaluates before `mkdtemp`: the payload look-ups and both storage
      clients. A failure here escapes the handler. */
  function Prelude(job: map<string, string>, env: Env): (r: Result<Ids>)
    ensures r.Ok? <==> (HasPreludeFields(job) &&
                        env.makeClient(job["r2Endpoint"], job["r2AccessKeyId"], job["r2SecretAccessKey"]).Done? &&
                        env.makeClient(job["b2Endpoint"], job["b2AccessKeyId"], job["b2SecretAccessKey"]).Done?)
    ensures r.Ok? ==> r.value == Ids(job["mediaId"], job["creatorId"], job["type"], job["inputKey"])
    ensures FirstMissing(job, IdFields + R2Fields).Some? ==> r == Err(KeyErrorText(FirstMissing(job, IdFields + R2Fields).value))
  {
    var first := IdFields + R2Fields;
    assert first[0] == "mediaId" && first[1] == "creatorId" && first[2] == "type" && first[3] == "inputKey";
    assert first[4] == "r2Endpoint" && first[5] == "r2AccessKeyId" && first[6] == "r2SecretAccessKey";
    assert B2Fields[0] == "b2Endpoint" && B2Fields[1] == "b2AccessKeyId" && B2Fields[2] == "b2SecretAccessKey";
    match FirstMissing(job, first)
    case Some(k) => Err(KeyErrorText(k))
    case None =>
      match env.makeClient(job["r2Endpoint"], job["r2AccessKeyId"], job["r2SecretAccessKey"])
      case Failed(m) => Err(m)
      case Done =>
        match FirstMissing(job, B2Fields)
        case Some(k) => Err(KeyErrorText(k))
        case None =>
          match env.makeClient(job["b2Endpoint"], job["b2AccessKeyId"], job["b2SecretAccessKey"])
          case Failed(m) => Err(m)
          case Done => Ok(Ids(job["mediaId"], job["creatorId"], job["type"], job["inputKey"]))
  }

  function Field(job: map<string, string>, key: string): string {
    if key in job then job[key] else ""
  }

  // ---------------------------------------------------------------------------
  // Stages of the try block

  /** What a stage logged and whether it raised. */
  datatype Run = Run(events: seq<Event>, outcome: Outcome)

  /** Run `a`, then `b` only if `a` did not raise. */
  function Then(a: Run, b: Run): Run {
    if a.outcome.Failed? then a else Run(a.events + b.events, b.outcome)
  }

  const Skip: Run := Run([], Done)

  /** `job_input[key]` evaluated inside the `try`: a `KeyError` when absent. */
  function Lookup(job: map<string, string>, key: string): Run {
    Run([], if key in job then Done else Failed(KeyErrorText(key)))
  }

  function ToolStep(t: Tool, env: Env): Run {
    Run([RunTool(t)], env.run(t))
  }

  function UploadStep(store: Store, bucket: string, key: string, contentType: Option<string>, env: Env): Run {
    Run([Upload(store, bucket, key, contentType)], env.upload(ObjectRef(store, bucket, key)))
  }

  function DownloadStep(bucket: string, key: string, env: Env): Run {
    Run([Download(bucket, key)], env.download(ObjectRef(Delivery, bucket, key)))
  }

  /** `probe_media`: ffprobe with `check=True`, then `json.loads`. */
  function ProbeStep(env: Env): Run {
    Run([RunTool(Probe)], match env.probe case Ok(_) => Done case Err(m) => Failed(m))
  }

  /** The media info the later stages see (only consulted once the probe succeeded). */
  function ProbedInfo(env: Env): MediaInfo {
    match env.probe
    case Ok(p) => GetMediaInfo(p)
    case Err(_) => MediaInfo(0, None, None)
  }

  /** Step 3: for video, encode the mezzanine and upload it to the archival store. */
  function MezzanineStep(job: map<string, string>, ids: Ids, gpu: bool, env: Env): Run {
    if ids.mediaType == "video" then
      Then(ToolStep(Mezzanine(gpu), env),
      Then(Lookup(job, "b2BucketName"),
           UploadStep(Archive, Field(job, "b2BucketName"), MezzanineKey(ids.creatorId, ids.mediaId), Some("video/mp4"), env)))
    else Skip
  }

  /** Step 4: the loudness pass. Only the ffmpeg timeout and an uncaught decoding error raise;
      the measured values are discarded. */
  function LoudnessStep(env: Env): Run {
    Run([RunTool(LoudnessAnalysis)],
        match env.loudnessStderr
        case Err(m) => Failed(m)
        case Ok(stderr) =>
          match AnalyzeLoudness(stderr, env.decodeLoudness)
          case Err(m) => Failed(m)
          case Ok(_) => Done)
  }

  /** The ffmpeg run that encodes one video rung. */
  function VideoTool(v: VideoVariant, gpu: bool): Tool {
    VideoRendition(v.name, v.height, v.videoBitrate, v.videoBitrate, Bufsize(v.videoBitrate), v.audioBitrate, Loudnorm, gpu)
  }

  function AudioTool(v: AudioVariant): Tool {
    AudioRendition(v.name, v.audioBitrate, Loudnorm)
  }

  function VideoTools(vs: seq<VideoVariant>, gpu: bool): (r: seq<Tool>)
    ensures |r| == |vs| && forall i :: 0 <= i < |vs| ==> r[i] == VideoTool(vs[i], gpu)
  {
    seq(|vs|, i requires 0 <= i < |vs| => VideoTool(vs[i], gpu))
  }

  function AudioTools(vs: seq<AudioVariant>): (r: seq<Tool>)
    ensures |r| == |vs| && forall i :: 0 <= i < |vs| ==> r[i] == AudioTool(vs[i])
  {
    seq(|vs|, i requires 0 <= i < |vs| => AudioTool(vs[i]))
  }

  /** The rendition encodes the ladder attempts, in ladder order. */
  function LadderTools(mediaType: string, height: Option<int>, gpu: bool): seq<Tool> {
    if mediaType == "video" then VideoTools(Kept(HlsVariants, height), gpu) else AudioTools(AudioVariants)
  }

  function Runs(ts: seq<Tool>): (r: seq<Event>)
    ensures |r| == |ts| && forall i :: 0 <= i < |ts| ==> r[i] == RunTool(ts[i])
  {
    seq(|ts|, i requires 0 <= i < |ts| => RunTool(ts[i]))
  }

  /** Running `ts` one after another; the first failing run raises. */
  function ToolRun(ts: seq<Tool>, env: Env): Run
    decreases |ts|
  {
    if ts == [] then Skip else Then(ToolRun(ts[..|ts| - 1], env), ToolStep(ts[|ts| - 1], env))
  }

  /** Running tools in turn logs each of them up to and including the first that fails, and
      raises that failure; when none fails it completes after running them all. */
  lemma {:induction false} ToolRunIsFirstFailure(ts: seq<Tool>, env: Env)
    ensures var k := FirstFail(ts, env.run);
      ToolRun(ts, env) == Run(Runs(ts[..Attempted(k, |ts|)]), if k < |ts| then env.run(ts[k]) else Done)
    decreases |ts|
  {
    if ts != [] {
      var n := |ts| - 1;
      assert ts == ts[..n] + [ts[n]];
      ToolRunIsFirstFailure(ts[..n], env);
      ToolRunFirstFailureSnoc(ts[..n], ts[n], env);
    }
  }

  lemma ToolRunSnoc(ts: seq<Tool>, t: Tool, env: Env)
    ensures ToolRun(ts + [t], env) == Then(ToolRun(ts, env), ToolStep(t, env))
  {
    assert (ts + [t])[..|ts|] == ts;
  }

  /** The first-failure shape of a tool run carries over to one more tool. */
  lemma ToolRunFirstFailureSnoc(p: seq<Tool>, t: Tool, env: Env)
    requires var k := FirstFail(p, env.run);
      ToolRun(p, env) == Run(Runs(p[..Attempted(k, |p|)]), if k < |p| then env.run(p[k]) else Done)
    ensures var ts, k := p + [t], FirstFail(p + [t], env.run);
      ToolRun(ts, env) == Run(Runs(ts[..Attempted(k, |ts|)]), if k < |ts| then env.run(ts[k]) else Done)
  {
    ToolRunSnoc(p, t, env);
    ThenRunsFirstFailure(p, t, env.run, ToolRun(p, env));
  }

  /** The same, for any run `r` of that shape followed by one more tool run. */
  lemma ThenRunsFirstFailure(p: seq<Tool>, t: Tool, run: Tool -> Outcome, r: Run)
    requires var k := FirstFail(p, run);
      r == Run(Runs(p[..Attempted(k, |p|)]), if k < |p| then run(p[k]) else Done)
    ensures var ts, k := p + [t], FirstFail(p + [t], run);
      Then(r, Run([RunTool(t)], run(t))) == Run(Runs(ts[..Attempted(k, |ts|)]), if k < |ts| then run(ts[k]) else Done)
  {
    var ts, n := p + [t], |p|;
    FirstFailSnoc(p, t, run);
    var k := FirstFail(p, run);
    if k < n {
      assert ts[..k + 1] == p[..k + 1] && ts[k] == p[k];
    } else {
      assert p[..n] == p && ts[..n + 1] == ts;
      assert Runs(ts) == Runs(p) + [RunTool(t)];
    }
  }

  /** Step 5: the renditions are encoded one by one. */
  function LadderStep(mediaType: string, height: Option<int>, gpu: bool, env: Env): Run {
    ToolRun(LadderTools(mediaType, height, gpu), env)
  }

  const MasterFile: LocalFile := LocalFile("", "master.m3u8")

  /** The HLS directory once the ladder succeeded: every rendition's files, then `master.m3u8`. */
  function LadderTree(mediaType: string, height: Option<int>, gpu: bool, produced: Tool -> seq<string>): seq<LocalFile> {
    Outputs(LadderTools(mediaType, height, gpu), produced) + [MasterFile]
  }

  /** The text of `master.m3u8` once the ladder succeeded. */
  function LadderMaster(mediaType: string, height: Option<int>): string {
    if mediaType == "video" then VideoMaster(height) else AudioMaster()
  }

  /** The files the preview clip adds to the HLS directory when it runs and succeeds. */
  function PreviewFiles(ids: Ids, info: MediaInfo, gpu: bool, produced: Tool -> seq<string>): seq<LocalFile> {
    if ids.mediaType == "video" && info.duration > 0 then OutputsOf(PreviewTool(info.duration, gpu), produced) else []
  }

  function UploadEvents(store: Store, bucket: string, plan: seq<UploadRequest>): (r: seq<Event>)
    ensures |r| == |plan| && forall i :: 0 <= i < |plan| ==> r[i] == Upload(store, bucket, plan[i].key, plan[i].contentType)
  {
    seq(|plan|, i requires 0 <= i < |plan| => Upload(store, bucket, plan[i].key, plan[i].contentType))
  }

  function PlanRefs(store: Store, bucket: string, plan: seq<UploadRequest>): (r: seq<ObjectRef>)
    ensures |r| == |plan| && forall i :: 0 <= i < |plan| ==> r[i] == ObjectRef(store, bucket, plan[i].key)
  {
    seq(|plan|, i requires 0 <= i < |plan| => ObjectRef(store, bucket, plan[i].key))
  }

  /** Uploading `plan` request by request; the first failing upload raises. */
  function UploadRun(store: Store, bucket: string, plan: seq<UploadRequest>, env: Env): Run
    decreases |plan|
  {
    if plan == [] then Skip
    else
      var last := plan[|plan| - 1];
      Then(UploadRun(store, bucket, plan[..|plan| - 1], env), UploadStep(store, bucket, last.key, last.contentType, env))
  }

  /** Uploading in turn sends each request up to and including the first that fails, and raises
      that failure; when none fails it completes after sending them all. */
  lemma {:induction false} UploadRunIsFirstFailure(store: Store, bucket: string, plan: seq<UploadRequest>, env: Env)
    ensures var refs := PlanRefs(store, bucket, plan);
      var k := FirstFail(refs, env.upload);
      UploadRun(store, bucket, plan, env) ==
        Run(UploadEvents(store, bucket, plan[..Attempted(k, |plan|)]), if k < |plan| then env.upload(refs[k]) else Done)
    decreases |plan|
  {
    if plan != [] {
      var n := |plan| - 1;
      assert plan == plan[..n] + [plan[n]];
      UploadRunIsFirstFailure(store, bucket, plan[..n], env);
      UploadRunFirstFailureSnoc(store, bucket, plan[..n], plan[n], env);
    }
  }

  lemma UploadRunSnoc(store: Store, bucket: string, plan: seq<UploadRequest>, req: UploadRequest, env: Env)
    ensures UploadRun(store, bucket, plan + [req], env) ==
      Then(UploadRun(store, bucket, plan, env), UploadStep(store, bucket, req.key, req.contentType, env))
  {
    assert (plan + [req])[..|plan|] == plan;
  }

  /** The first-failure shape of an upload run carries over to one more request. */
  lemma UploadRunFirstFailureSnoc(store: Store, bucket: string, p: seq<UploadRequest>, req: UploadRequest, env: Env)
    requires var refs := PlanRefs(store, bucket, p);
      var k := FirstFail(refs, env.upload);
      UploadRun(store, bucket, p, env) ==
        Run(UploadEvents(store, bucket, p[..Attempted(k, |p|)]), if k < |p| then env.upload(refs[k]) else Done)
    ensures var plan := p + [req];
      var refs := PlanRefs(store, bucket, plan);
      var k := FirstFail(refs, env.upload);
      UploadRun(store, bucket, plan, env) ==
        Run(UploadEvents(store, bucket, plan[..Attempted(k, |plan|)]), if k < |plan| then env.upload(refs[k]) else Done)
  {
    UploadRunSnoc(store, bucket, p, req, env);
    ThenUploadsFirstFailure(store, bucket, p, req, env.upload, UploadRun(store, bucket, p, env));
  }

  /** The same, for any run `r` of that shape followed by one more upload. */
  lemma ThenUploadsFirstFailure(store: Store, bucket: string, p: seq<UploadRequest>, req: UploadRequest,
                                upload: ObjectRef -> Outcome, r: Run)
    requires var refs := PlanRefs(store, bucket, p);
      var k := FirstFail(refs, upload);
      r == Run(UploadEvents(store, bucket, p[..Attempted(k, |p|)]), if k < |p| then upload(refs[k]) else Done)
    ensures var plan := p + [req];
      var refs := PlanRefs(store, bucket, plan);
      var k := FirstFail(refs, upload);
      Then(r, Run([Upload(store, bucket, req.key, req.contentType)], upload(ObjectRef(store, bucket, req.key)))) ==
        Run(UploadEvents(store, bucket, plan[..Attempted(k, |plan|)]), if k < |plan| then upload(refs[k]) else Done)
  {
    var plan, n := p + [req], |p|;
    var refs, prefs := PlanRefs(store, bucket, plan), PlanRefs(store, bucket, p);
    assert refs == prefs + [ObjectRef(store, bucket, req.key)];
    FirstFailSnoc(prefs, ObjectRef(store, bucket, req.key), upload);
    var k := FirstFail(prefs, upload);
    if k < n {
      assert plan[..k + 1] == p[..k + 1] && refs[k] == prefs[k];
    } else {
      assert p[..n] == p && plan[..n + 1] == plan;
      assert UploadEvents(store, bucket, plan) == UploadEvents(store, bucket, p) + [Upload(store, bucket, req.key, req.contentType)];
    }
  }

  /** `upload_directory`: each file of the tree in turn. */
  function UploadDirStep(bucket: string, prefix: string, tree: seq<LocalFile>, env: Env): Run {
    UploadRun(Delivery, bucket, UploadPlan(prefix, tree), env)
  }

  function PreviewTool(duration: int, gpu: bool): Tool {
    Preview(PreviewStart(duration), PreviewLength(duration), gpu)
  }

  /** Step 6: for a video with a positive duration, the preview clip. */
  function PreviewStep(ids: Ids, info: MediaInfo, gpu: bool, env: Env): Run {
    if ids.mediaType == "video" && info.duration > 0 then ToolStep(PreviewTool(info.duration, gpu), env) else Skip
  }

  /** Step 7: for a video with a positive duration, the thumbnail and its upload. */
  function ThumbnailStep(ids: Ids, bucket: string, info: MediaInfo, env: Env): Run {
    if ids.mediaType == "video" && info.duration > 0 then
      Then(ToolStep(Thumbnail(ThumbnailTime(info.duration)), env),
           UploadStep(Delivery, bucket, ThumbnailKey(ids.creatorId, ids.mediaId), Some(JpegMime), env))
    else Skip
  }

  /** Step 8: for audio, the waveform data and image, then both uploads. */
  function WaveformStep(ids: Ids, bucket: string, env: Env): Run {
    if ids.mediaType == "audio" then
      Then(ToolStep(WaveformData, env),
      Then(ToolStep(WaveformImage, env),
      Then(UploadStep(Delivery, bucket, WaveformKey(ids.creatorId, ids.mediaId), Some(JsonMime), env),
           UploadStep(Delivery, bucket, WaveformImageKey(ids.creatorId, ids.mediaId), Some(PngMime), env))))
    else Skip
  }

  /** Run the stages in order; the first that raises ends the chain. */
  function Chain(rs: seq<Run>): Run
    decreases |rs|
  {
    if rs == [] then Skip else Then(rs[0], Chain(rs[1..]))
  }

  /** Everything a list of stages logs when each of them runs. */
  function EventsOf(rs: seq<Run>): seq<Event>
    decreases |rs|
  {
    if rs == [] then [] else EventsOf(rs[..|rs| - 1]) + rs[|rs| - 1].events
  }

  function OutcomeOf(r: Run): Outcome {
    r.outcome
  }

  lemma {:induction false} EventsOfCons(r: Run, rs: seq<Run>)
    ensures EventsOf([r] + rs) == r.events + EventsOf(rs)
    decreases |rs|
  {
    if rs != [] {
      assert ([r] + rs)[..|rs|] == [r] + rs[..|rs| - 1];
      EventsOfCons(r, rs[..|rs| - 1]);
    }
  }

  lemma EventsOfSnoc(rs: seq<Run>, k: nat)
    requires k < |rs|
    ensures EventsOf(rs[..k + 1]) == EventsOf(rs[..k]) + rs[k].events
  {
    assert rs[..k + 1][..k] == rs[..k];
  }

  /** A chain logs what its stages log up to and including the first that raises, and ends with
      that stage's exception; when none raises it completes after logging everything. */
  lemma {:induction false} ChainIsFirstFailure(rs: seq<Run>)
    ensures var k := FirstFail(rs, OutcomeOf);
      Chain(rs) == Run(EventsOf(rs[..Attempted(k, |rs|)]), if k < |rs| then rs[k].outcome else Done)
    decreases |rs|
  {
    if rs != [] && rs[0].outcome.Done? {
      var k := FirstFail(rs[1..], OutcomeOf);
      ChainIsFirstFailure(rs[1..]);
      var m := Attempted(k, |rs| - 1);
      assert rs[..m + 1] == [rs[0]] + rs[1..][..m];
      EventsOfCons(rs[0], rs[1..][..m]);
    } else if rs != [] {
      assert rs[..1] == [rs[0]];
      assert EventsOf(rs[..1]) == EventsOf(rs[..1][..0]) + rs[0].events;
    }
  }

  /** Stage `k` of the `try` block, in source order: the bucket look-up, the download, the probe,
      the mezzanine, the loudness pass, the ladder, the HLS upload, the preview, the thumbnail
      and the waveform. */
  function Stage(k: nat, job: map<string, string>, ids: Ids, gpu: bool, env: Env): Run
    requires k < 10
  {
    var bucket := Field(job, "r2BucketName");
    match k
    case 0 => Lookup(job, "r2BucketName")
    case 1 => DownloadStep(bucket, ids.inputKey, env)
    case 2 => ProbeStep(env)
    case 3 => MezzanineStep(job, ids, gpu, env)
    case 4 => LoudnessStep(env)
    case 5 => LadderStep(ids.mediaType, ProbedInfo(env).height, gpu, env)
    case 6 => UploadDirStep(bucket, HlsPrefix(ids.creatorId, ids.mediaId),
                            LadderTree(ids.mediaType, ProbedInfo(env).height, gpu, env.produced), env)
    case 7 => PreviewStep(ids, ProbedInfo(env), gpu, env)
    case 8 => ThumbnailStep(ids, bucket, ProbedInfo(env), env)
    case _ => WaveformStep(ids, bucket, env)
  }

  /** The stages of the `try` block up to building the result. */
  function Stages(job: map<string, string>, ids: Ids, gpu: bool, env: Env): (rs: seq<Run>)
    ensures |rs| == 10 && forall k :: 0 <= k < 10 ==> rs[k] == Stage(k, job, ids, gpu, env)
  {
    seq(10, k requires 0 <= k < 10 => Stage(k, job, ids, gpu, env))
  }

  /** What the `try` block logs, and either the completed result or the message it raised. */
  datatype TryOutcome = TryOutcome(events: seq<Event>, result: Result<TranscodingResult>)

  function TryBlock(job: map<string, string>, ids: Ids, gpu: bool, env: Env): TryOutcome {
    var s := Chain(Stages(job, ids, gpu, env));
    TryOutcome(s.events,
               if s.outcome.Done? then Ok(CompletedResult(ids.mediaId, ids.creatorId, ids.mediaType, ProbedInfo(env)))
               else Err(s.outcome.message))
  }

  // ---------------------------------------------------------------------------
  // Notification, return value and cleanup

  predicate WebhookConfigured(job: map<string, string>) {
    "webhookUrl" in job && "webhookSecret" in job
  }

  /** `send_webhook`: the signed POST of `json.dumps(result)`; a missing URL or secret raises before it. */
  function SendWebhook(job: map<string, string>, env: Env, result: TranscodingResult): Run {
    if "webhookUrl" !in job then Run([], Failed(KeyErrorText("webhookUrl")))
    else if "webhookSecret" !in job then Run([], Failed(KeyErrorText("webhookSecret")))
    else
      var body := env.serialize(result);
      var signature := env.sign(body, job["webhookSecret"]);
      Run([Post(job["webhookUrl"], result, body, signature)], env.post(job["webhookUrl"], body, signature))
  }

  /** The posts of the job: the completed post when the try block got that far, then the failed
      post whenever an exception was caught (its own failure is swallowed). */
  function Notices(job: map<string, string>, env: Env, mediaId: string, result: Result<TranscodingResult>): seq<Event> {
    match result
    case Ok(r) =>
      var sent := SendWebhook(job, env, r);
      if sent.outcome.Done? then sent.events
      else sent.events + SendWebhook(job, env, FailedResult(mediaId, sent.outcome.message)).events
    case Err(m) => SendWebhook(job, env, FailedResult(mediaId, m)).events
  }

  /** The value `handler` returns once the try block has run. */
  function Returned(job: map<string, string>, env: Env, mediaId: string, result: Result<TranscodingResult>): HandlerReturn {
    match result
    case Ok(r) =>
      var sent := SendWebhook(job, env, r);
      if sent.outcome.Done? then Success(mediaId) else Error(sent.outcome.message)
    case Err(m) => Error(m)
  }

  datatype Handling = Handling(events: seq<Event>, ret: HandlerReturn)

  /** The whole `handler` call: everything it logs and what it returns. */
  function Handled(job: map<string, string>, env: Env): Handling {
    match Prelude(job, env)
    case Err(m) => Handling([], Raised(m))
    case Ok(ids) =>
      var gpu := GpuAvailable(env.encoderListing);
      var t := TryBlock(job, ids, gpu, env);
      Handling([RunTool(ListEncoders), Acquire] + t.events + Notices(job, env, ids.mediaId, t.result) + [Cleanup],
               Returned(job, env, ids.mediaId, t.result))
  }
}
