/** The handler as it runs: a worker that performs each step with one call after another,
    keeping the log of what it has done to the outside world, the files of its HLS work directory
    and the text of `master.m3u8`. Every method is proved to do exactly what module Pipeline
    describes, so the properties proved there hold of the running handler. */
module Handler {
  import opened Wrappers
  import opened Text
  import opened Ladder
  import opened Media
  import opened Storage
  import opened Payload
  import opened Effects
  import opened Pipeline

  /** `get_media_info`: the duration (0 when absent) and the size of the first video stream. */
  method FindMediaInfo(p: ProbeData) returns (m: MediaInfo)
    ensures m == GetMediaInfo(p)
  {
    var duration := if p.duration.Some? then p.duration.value else 0;
    var width: Option<int> := None;
    var height: Option<int> := None;
    var i := 0;
    while i < |p.streams|
      invariant 0 <= i <= |p.streams|
      invariant forall j :: 0 <= j < i ==> !IsVideo(p.streams[j])
      invariant width.None? && height.None?
    {
      if p.streams[i].codecType == Some("video") {
        width := p.streams[i].width;
        height := p.streams[i].height;
        break;
      }
      i := i + 1;
    }
    m := MediaInfo(duration, width, height);
  }

  /** The text the video branch writes to `master.m3u8`: the header, then each encoded rung's
      stream-info line and playlist URI. */
  method WriteVideoMaster(vs: seq<VideoVariant>) returns (text: string)
    requires AllValidVideo(vs)
    ensures text == Join(VideoMasterLines(vs))
  {
    text := "#EXTM3U\n" + "#EXT-X-VERSION:3\n";
    assert text == Join(Header) by {
      JoinAppend(["#EXTM3U"], ["#EXT-X-VERSION:3"]);
    }
    var i := 0;
    while i < |vs|
      invariant 0 <= i <= |vs|
      invariant text == Join(Header + VideoEntries(vs[..i]))
    {
      VideoEntriesSnoc(vs, i);
      text := text + (VideoStreamInf(vs[i]) + "\n") + (VariantUri(vs[i].name) + "\n");
      i := i + 1;
    }
    assert vs[..i] == vs;
  }

  /** The text the audio branch writes to `master.m3u8`. */
  method WriteAudioMaster(vs: seq<AudioVariant>) returns (text: string)
    requires AllValidAudio(vs)
    ensures text == Join(AudioMasterLines(vs))
  {
    text := "#EXTM3U\n" + "#EXT-X-VERSION:3\n";
    assert text == Join(Header) by {
      JoinAppend(["#EXTM3U"], ["#EXT-X-VERSION:3"]);
    }
    var i := 0;
    while i < |vs|
      invariant 0 <= i <= |vs|
      invariant text == Join(Header + AudioEntries(vs[..i]))
    {
      AudioEntriesSnoc(vs, i);
      text := text + (AudioStreamInf(vs[i]) + "\n") + (VariantUri(vs[i].name) + "\n");
      i := i + 1;
    }
    assert vs[..i] == vs;
  }

  lemma JoinPair(lines: seq<string>, a: string, b: string)
    ensures Join(lines + [a, b]) == Join(lines) + (a + "\n") + (b + "\n")
  {
    JoinAppend(lines, [a, b]);
    JoinAppend([a], [b]);
    assert [a, b] == [a] + [b];
  }

  lemma VideoEntriesSnoc(vs: seq<VideoVariant>, i: nat)
    requires AllValidVideo(vs) && i < |vs|
    ensures Join(Header + VideoEntries(vs[..i + 1])) ==
      Join(Header + VideoEntries(vs[..i])) + (VideoStreamInf(vs[i]) + "\n") + (VariantUri(vs[i].name) + "\n")
  {
    assert vs[..i + 1][..i] == vs[..i];
    assert Header + VideoEntries(vs[..i + 1]) == (Header + VideoEntries(vs[..i])) + [VideoStreamInf(vs[i]), VariantUri(vs[i].name)];
    JoinPair(Header + VideoEntries(vs[..i]), VideoStreamInf(vs[i]), VariantUri(vs[i].name));
  }

  lemma AudioEntriesSnoc(vs: seq<AudioVariant>, i: nat)
    requires AllValidAudio(vs) && i < |vs|
    ensures Join(Header + AudioEntries(vs[..i + 1])) ==
      Join(Header + AudioEntries(vs[..i])) + (AudioStreamInf(vs[i]) + "\n") + (VariantUri(vs[i].name) + "\n")
  {
    assert vs[..i + 1][..i] == vs[..i];
    assert Header + AudioEntries(vs[..i + 1]) == (Header + AudioEntries(vs[..i])) + [AudioStreamInf(vs[i]), VariantUri(vs[i].name)];
    JoinPair(Header + AudioEntries(vs[..i]), AudioStreamInf(vs[i]), VariantUri(vs[i].name));
  }

  // ---------------------------------------------------------------------------
  // Running and uploading in turn, one step at a time

  /** Once running fails within the first `n` tools, the later ones never run. */
  lemma {:induction false} ToolRunStops(ts: seq<Tool>, n: nat, env: Env)
    requires n <= |ts| && ToolRun(ts[..n], env).outcome.Failed?
    ensures ToolRun(ts, env) == ToolRun(ts[..n], env)
    decreases |ts|
  {
    if n < |ts| {
      var p := ts[..|ts| - 1];
      assert p[..n] == ts[..n];
      ToolRunStops(p, n, env);
    } else {
      assert ts[..n] == ts;
    }
  }

  /** A run that completes ran every tool, and every one succeeded. */
  lemma ToolRunDone(ts: seq<Tool>, env: Env)
    ensures ToolRun(ts, env).outcome.Done? ==> FirstFail(ts, env.run) == |ts|
  {
    ToolRunIsFirstFailure(ts, env);
  }

  lemma KeptWhole(table: seq<VideoVariant>, h: Option<int>)
    ensures Kept(table[..|table|], h) == Kept(table, h)
  {
    assert table[..|table|] == table;
  }

  /** A run of the tools that completed produced the outputs of all of them. */
  lemma LadderCompleted(ts: seq<Tool>, env: Env)
    requires ToolRun(ts, env).outcome.Done?
    ensures ts[..FirstFail(ts, env.run)] == ts
  {
    ToolRunDone(ts, env);
    assert ts[..|ts|] == ts;
  }

  /** A run stopped by the tool at `n` after the first `n` succeeded. */
  lemma ToolRunFailsAt(ts: seq<Tool>, n: nat, env: Env)
    requires n < |ts| && ToolRun(ts[..n], env).outcome.Done? && env.run(ts[n]).Failed?
    ensures ToolRun(ts, env) == Run(ToolRun(ts[..n], env).events + [RunTool(ts[n])], env.run(ts[n]))
    ensures FirstFail(ts, env.run) == n
  {
    assert ts[..n + 1] == ts[..n] + [ts[n]];
    ToolRunSnoc(ts[..n], ts[n], env);
    ToolRunStops(ts, n + 1, env);
    ToolRunDone(ts[..n], env);
    FirstFailSnoc(ts[..n], ts[n], env.run);
    FirstFailPrefix(ts, n + 1, env.run);
  }

  /** A failure among the first `n` elements is the first failure of the whole sequence. */
  lemma FirstFailPrefix<T>(xs: seq<T>, n: nat, f: T -> Outcome)
    requires n <= |xs| && FirstFail(xs[..n], f) < n
    ensures FirstFail(xs, f) == FirstFail(xs[..n], f)
  {
    var k := FirstFail(xs[..n], f);
    forall j | 0 <= j <= k
      ensures xs[j] == xs[..n][j]
    {
    }
    FirstFailIs(xs, f, k);
  }

  lemma TakeAll<T>(s: seq<T>)
    ensures s[..|s|] == s && s[..0] == []
  {
  }

  lemma TakeSnoc<T>(s: seq<T>, i: nat)
    requires i < |s|
    ensures s[..i + 1] == s[..i] + [s[i]]
  {
  }

  /** One more file of the directory walk, one more upload. */
  lemma UploadDirSnoc(store: Store, bucket: string, prefix: string, tree: seq<LocalFile>, i: nat, env: Env)
    requires i < |tree|
    ensures var plan := UploadPlan(prefix, tree);
      UploadRun(store, bucket, plan[..i + 1], env) ==
        Then(UploadRun(store, bucket, plan[..i], env),
             UploadStep(store, bucket, prefix + RelativePath(tree[i]), ContentType(tree[i].name), env))
  {
    var plan := UploadPlan(prefix, tree);
    TakeSnoc(plan, i);
    UploadRunSnoc(store, bucket, plan[..i], plan[i], env);
  }

  /** Once uploading fails within the first `n` requests, the later ones are never sent. */
  lemma {:induction false} UploadRunStops(store: Store, bucket: string, plan: seq<UploadRequest>, n: nat, env: Env)
    requires n <= |plan| && UploadRun(store, bucket, plan[..n], env).outcome.Failed?
    ensures UploadRun(store, bucket, plan, env) == UploadRun(store, bucket, plan[..n], env)
    decreases |plan|
  {
    if n < |plan| {
      var p := plan[..|plan| - 1];
      assert p[..n] == plan[..n];
      UploadRunStops(store, bucket, p, n, env);
    } else {
      assert plan[..n] == plan;
    }
  }

  // ---------------------------------------------------------------------------
  // The two ladders

  lemma RunsSnoc(ts: seq<Tool>, t: Tool)
    ensures Runs(ts + [t]) == Runs(ts) + [RunTool(t)]
  {
  }

  lemma OutputsSnoc(ts: seq<Tool>, t: Tool, produced: Tool -> seq<string>)
    ensures Outputs(ts + [t], produced) == Outputs(ts, produced) + OutputsOf(t, produced)
  {
    assert (ts + [t])[..|ts|] == ts;
  }

  /** The rungs kept among the first `i + 1` of a table. */
  lemma KeptStep(table: seq<VideoVariant>, i: nat, h: Option<int>, kept: seq<VideoVariant>)
    requires i < |table| && kept == Kept(table[..i], h)
    ensures Skipped(h, table[i]) ==> Kept(table[..i + 1], h) == kept
    ensures !Skipped(h, table[i]) ==> Kept(table[..i + 1], h) == kept + [table[i]]
  {
    assert table[..i + 1][..i] == table[..i];
    assert Kept(table[..i], h) + [] == Kept(table[..i], h);
  }

  /** When the encode of kept rung `i` fails after the earlier kept rungs succeeded, the ladder
      run is the earlier encodes followed by that one, and the earlier ones are all that
      completed. */
  lemma LadderFailsAt(table: seq<VideoVariant>, i: nat, h: Option<int>, gpu: bool, env: Env)
    requires i < |table| && !Skipped(h, table[i])
    requires ToolRun(VideoTools(Kept(table[..i], h), gpu), env).outcome.Done?
    requires env.run(VideoTool(table[i], gpu)).Failed?
    ensures var ts, done := VideoTools(Kept(table, h), gpu), VideoTools(Kept(table[..i], h), gpu);
      ToolRun(ts, env) == ToolRun(done + [VideoTool(table[i], gpu)], env) &&
      ts[..FirstFail(ts, env.run)] == done
  {
    var ts, done := VideoTools(Kept(table, h), gpu), VideoTools(Kept(table[..i], h), gpu);
    VideoToolsPrefix(table, i, h, gpu);
    ToolRunFailsAt(ts, |done|, env);
    ToolRunSnoc(done, VideoTool(table[i], gpu), env);
  }

  lemma Assoc<T>(a: seq<T>, b: seq<T>, c: seq<T>)
    ensures (a + b) + c == a + (b + c)
  {
  }

  /** The log of a handled job, written one action after another. */
  lemma HandledLog(base: seq<Event>, t: seq<Event>, ns: seq<Event>)
    ensures ((((base + [RunTool(ListEncoders)]) + [Acquire]) + t) + ns) + [Cleanup] ==
      base + ([RunTool(ListEncoders), Acquire] + t + ns + [Cleanup])
  {
    Assoc(base, [RunTool(ListEncoders)], [Acquire]);
    assert [RunTool(ListEncoders)] + [Acquire] == [RunTool(ListEncoders), Acquire];
    Assoc(base, [RunTool(ListEncoders), Acquire], t);
    Assoc(base, [RunTool(ListEncoders), Acquire] + t, ns);
    Assoc(base, [RunTool(ListEncoders), Acquire] + t + ns, [Cleanup]);
  }

  lemma NamesSnoc(vs: seq<VideoVariant>, v: VideoVariant)
    ensures Names(vs + [v]) == Names(vs) + [v.name]
  {
  }

  /** The video branch of the ladder spelled out. */
  lemma VideoLadderIs(height: Option<int>, gpu: bool, env: Env)
    ensures LadderTools("video", height, gpu) == VideoTools(Kept(HlsVariants, height), gpu)
    ensures LadderStep("video", height, gpu, env) == ToolRun(VideoTools(Kept(HlsVariants, height), gpu), env)
    ensures LadderTree("video", height, gpu, env.produced) ==
      Outputs(VideoTools(Kept(HlsVariants, height), gpu), env.produced) + [MasterFile]
    ensures ReadyVariants("video", height) == Names(Kept(HlsVariants, height))
    ensures AllValidVideo(Kept(HlsVariants, height)) &&
      VideoMaster(height) == Join(VideoMasterLines(Kept(HlsVariants, height)))
  {
    TablesValid();
    KeptValid(HlsVariants, height);
  }

  /** Every media type but video takes the audio branch of the ladder. */
  lemma AudioLadderFor(mediaType: string, height: Option<int>, gpu: bool, env: Env)
    requires mediaType != "video"
    ensures LadderStep(mediaType, height, gpu, env) == LadderStep("audio", None, false, env)
    ensures LadderTools(mediaType, height, gpu) == LadderTools("audio", None, false)
    ensures LadderTree(mediaType, height, gpu, env.produced) == LadderTree("audio", None, false, env.produced)
    ensures ReadyVariants(mediaType, height) == ReadyVariants("audio", None)
    ensures LadderMaster(mediaType, height) == AudioMaster()
  {
  }

  /** The audio branch of the ladder spelled out. */
  lemma AudioLadderIs(env: Env)
    ensures LadderTools("audio", None, false) == AudioTools(AudioVariants)
    ensures LadderStep("audio", None, false, env) == ToolRun(AudioTools(AudioVariants), env)
    ensures LadderTree("audio", None, false, env.produced) == Outputs(AudioTools(AudioVariants), env.produced) + [MasterFile]
    ensures ReadyVariants("audio", None) == AudioNames
    ensures AllValidAudio(AudioVariants) && AudioMaster() == Join(AudioMasterLines(AudioVariants))
  {
    TablesValid();
  }

  lemma VideoToolsSnoc(vs: seq<VideoVariant>, v: VideoVariant, gpu: bool)
    ensures VideoTools(vs + [v], gpu) == VideoTools(vs, gpu) + [VideoTool(v, gpu)]
  {
  }

  lemma VideoToolsAppend(a: seq<VideoVariant>, b: seq<VideoVariant>, gpu: bool)
    ensures VideoTools(a + b, gpu) == VideoTools(a, gpu) + VideoTools(b, gpu)
  {
  }

  /** The rungs kept from the first `i` of a table are encoded first, in order, and when rung
      `i` is kept its encode comes next. */
  lemma VideoToolsPrefix(table: seq<VideoVariant>, i: nat, h: Option<int>, gpu: bool)
    requires i <= |table|
    ensures var ts, n := VideoTools(Kept(table, h), gpu), |Kept(table[..i], h)|;
      n <= |ts| && ts[..n] == VideoTools(Kept(table[..i], h), gpu) &&
      (i < |table| && !Skipped(h, table[i]) ==> n < |ts| && ts[n] == VideoTool(table[i], gpu))
  {
    assert table == table[..i] + table[i..];
    KeptAppend(table[..i], table[i..], h);
    VideoToolsAppend(Kept(table[..i], h), Kept(table[i..], h), gpu);
    if i < |table| && !Skipped(h, table[i]) {
      assert table[i..] == [table[i]] + table[i + 1..];
      KeptAppend([table[i]], table[i + 1..], h);
      KeptSingle(table[i], h);
    }
  }


  // ---------------------------------------------------------------------------
  // The try block in three parts

  /** Steps 1 to 4: the bucket look-up and the download, the probe, the mezzanine, the loudness pass. */
  function SourceStages(job: map<string, string>, ids: Ids, gpu: bool, env: Env): Run {
    Then(Then(Then(Then(Lookup(job, "r2BucketName"),
                        DownloadStep(Field(job, "r2BucketName"), ids.inputKey, env)),
                   ProbeStep(env)),
              MezzanineStep(job, ids, gpu, env)),
         LoudnessStep(env))
  }

  /** Step 5: the ladder, then the upload of the HLS directory. */
  function HlsStages(ids: Ids, bucket: string, height: Option<int>, gpu: bool, env: Env): Run {
    Then(LadderStep(ids.mediaType, height, gpu, env),
         UploadDirStep(bucket, HlsPrefix(ids.creatorId, ids.mediaId), LadderTree(ids.mediaType, height, gpu, env.produced), env))
  }

  /** Steps 6 to 8: the preview, the thumbnail, the waveform. */
  function ExtraStages(ids: Ids, bucket: string, info: MediaInfo, gpu: bool, env: Env): Run {
    Then(Then(PreviewStep(ids, info, gpu, env), ThumbnailStep(ids, bucket, info, env)), WaveformStep(ids, bucket, env))
  }

  lemma ThenAssoc(a: Run, b: Run, c: Run)
    ensures Then(Then(a, b), c) == Then(a, Then(b, c))
  {
    if a.outcome.Done? && b.outcome.Done? {
      Assoc(a.events, b.events, c.events);
    }
  }

  lemma ThenSkip(a: Run)
    ensures Then(a, Skip) == a
  {
    assert a.events + [] == a.events;
  }

  lemma ChainStep(rs: seq<Run>, k: nat)
    requires k < |rs|
    ensures Chain(rs[k..]) == Then(rs[k], Chain(rs[k + 1..]))
  {
    assert rs[k..][1..] == rs[k + 1..];
  }

  /** The chain of ten stages, nested to the right, written as a left-nested run of them. */
  lemma {:induction false} ChainOfTen(rs: seq<Run>)
    requires |rs| == 10
    ensures Chain(rs) ==
      Then(Then(Then(Then(Then(Then(Then(Then(Then(rs[0], rs[1]), rs[2]), rs[3]), rs[4]), rs[5]), rs[6]), rs[7]), rs[8]), rs[9])
  {
    assert rs[0..] == rs;
    assert rs[10..] == [];
    ChainStep(rs, 0); ChainStep(rs, 1); ChainStep(rs, 2); ChainStep(rs, 3); ChainStep(rs, 4);
    ChainStep(rs, 5); ChainStep(rs, 6); ChainStep(rs, 7); ChainStep(rs, 8); ChainStep(rs, 9);
    ThenSkip(rs[9]);
    var l1 := Then(rs[0], rs[1]);
    var l2 := Then(l1, rs[2]);
    var l3 := Then(l2, rs[3]);
    var l4 := Then(l3, rs[4]);
    var l5 := Then(l4, rs[5]);
    var l6 := Then(l5, rs[6]);
    var l7 := Then(l6, rs[7]);
    var l8 := Then(l7, rs[8]);
    ThenAssoc(l8, rs[9], Skip);
    ThenAssoc(l7, rs[8], Chain(rs[9..]));
    ThenAssoc(l6, rs[7], Chain(rs[8..]));
    ThenAssoc(l5, rs[6], Chain(rs[7..]));
    ThenAssoc(l4, rs[5], Chain(rs[6..]));
    ThenAssoc(l3, rs[4], Chain(rs[5..]));
    ThenAssoc(l2, rs[3], Chain(rs[4..]));
    ThenAssoc(l1, rs[2], Chain(rs[3..]));
    ThenAssoc(rs[0], rs[1], Chain(rs[2..]));
  }

  /** The try block's chain of stages is the three parts run in turn. */
  lemma ChainInParts(job: map<string, string>, ids: Ids, gpu: bool, env: Env)
    ensures var bucket := Field(job, "r2BucketName");
      Chain(Stages(job, ids, gpu, env)) ==
        Then(Then(SourceStages(job, ids, gpu, env), HlsStages(ids, bucket, ProbedInfo(env).height, gpu, env)),
             ExtraStages(ids, bucket, ProbedInfo(env), gpu, env))
  {
    var rs := Stages(job, ids, gpu, env);
    ChainOfTen(rs);
    var l4 := Then(Then(Then(Then(rs[0], rs[1]), rs[2]), rs[3]), rs[4]);
    ThenAssoc(l4, rs[5], rs[6]);
    var l6 := Then(l4, Then(rs[5], rs[6]));
    ThenAssoc(l6, Then(rs[7], rs[8]), rs[9]);
    ThenAssoc(l6, rs[7], rs[8]);
  }

  /** The `try` block with its stages grouped as the worker runs them: the source stages, then
      the HLS and extra stages together. */
  function TryParts(job: map<string, string>, ids: Ids, gpu: bool, env: Env): TryOutcome {
    var bucket, info := Field(job, "r2BucketName"), ProbedInfo(env);
    var s := Then(SourceStages(job, ids, gpu, env),
                  Then(HlsStages(ids, bucket, info.height, gpu, env), ExtraStages(ids, bucket, info, gpu, env)));
    TryOutcome(s.events,
               if s.outcome.Done? then Ok(CompletedResult(ids.mediaId, ids.creatorId, ids.mediaType, info))
               else Err(s.outcome.message))
  }

  /** Grouping the stages does not change what the `try` block does. */
  lemma TryBlockInParts(job: map<string, string>, ids: Ids, gpu: bool, env: Env)
    ensures TryBlock(job, ids, gpu, env) == TryParts(job, ids, gpu, env)
  {
    var bucket, info := Field(job, "r2BucketName"), ProbedInfo(env);
    ChainInParts(job, ids, gpu, env);
    ThenAssoc(SourceStages(job, ids, gpu, env), HlsStages(ids, bucket, info.height, gpu, env),
              ExtraStages(ids, bucket, info, gpu, env));
  }


  /** The state of one handler invocation. `events` is everything it has done to the world so far,
      `hlsTree` the files of the HLS work directory in the order they were written, and `master`
      the text of its `master.m3u8`. External calls are answered by `env`. */
  class Worker {
    const env: Env
    var events: seq<Event>
    var hlsTree: seq<LocalFile>
    var master: string

    constructor (env: Env)
      ensures this.env == env && events == [] && hlsTree == [] && master == ""
    {
      this.env := env;
      events := [];
      hlsTree := [];
      master := "";
    }

    /** `subprocess.run(cmd, check=True)` for one tool: a failure or timeout is the raised
        exception; a successful encode into the HLS directory adds its files there. */
    method Execute(t: Tool) returns (o: Outcome)
      modifies this
      ensures o == env.run(t)
      ensures events == old(events) + [RunTool(t)]
      ensures hlsTree == old(hlsTree) + (if o.Done? && WritesHls(t) then OutputsOf(t, env.produced) else [])
      ensures master == old(master)
    {
      events := events + [RunTool(t)];
      o := env.run(t);
      if o.Done? && WritesHls(t) {
        hlsTree := hlsTree + OutputsOf(t, env.produced);
      }
    }

    /** One more encode after a run of tools that all succeeded: the log and the HLS tree grow as
        running `ts + [t]` from the start grows them. */
    method ExecuteNext(ghost base: seq<Event>, ghost tree: seq<LocalFile>, ghost log: seq<Event>,
                       ghost ts: seq<Tool>, t: Tool) returns (o: Outcome)
      modifies this
      requires WritesHls(t) && events == base + log && ToolRun(ts, env) == Run(log, Done)
      requires hlsTree == tree + Outputs(ts, env.produced)
      ensures events == base + (log + [RunTool(t)])
      ensures ToolRun(ts + [t], env) == Run(log + [RunTool(t)], o)
      ensures o.Done? ==> hlsTree == tree + Outputs(ts + [t], env.produced)
      ensures o.Failed? ==> hlsTree == old(hlsTree)
      ensures master == old(master)
    {
      ToolRunSnoc(ts, t, env);
      OutputsSnoc(ts, t, env.produced);
      Assoc(tree, Outputs(ts, env.produced), OutputsOf(t, env.produced));
      Assoc(base, log, [RunTool(t)]);
      o := Execute(t);
    }

    /** `download_file` from the delivery store. */
    method DownloadFile(bucket: string, key: string) returns (o: Outcome)
      modifies this
      ensures o == env.download(ObjectRef(Delivery, bucket, key))
      ensures events == old(events) + [Download(bucket, key)]
      ensures hlsTree == old(hlsTree) && master == old(master)
    {
      events := events + [Download(bucket, key)];
      o := env.download(ObjectRef(Delivery, bucket, key));
    }

    /** Writing `master.m3u8` at the root of the HLS directory. */
    method SaveMaster(text: string)
      modifies this
      ensures master == text && hlsTree == old(hlsTree) + [MasterFile] && events == old(events)
    {
      master := text;
      hlsTree := hlsTree + [MasterFile];
    }

    /** `upload_file`: one object with an optional content type. */
    method UploadFile(store: Store, bucket: string, key: string, contentType: Option<string>) returns (o: Outcome)
      modifies this
      ensures o == env.upload(ObjectRef(store, bucket, key))
      ensures events == old(events) + [Upload(store, bucket, key, contentType)]
      ensures hlsTree == old(hlsTree) && master == old(master)
    {
      events := events + [Upload(store, bucket, key, contentType)];
      o := env.upload(ObjectRef(store, bucket, key));
    }

    /** `upload_directory`: every file of the HLS directory as it stands, under `prefix`, with the
        content type its name implies; the first failing upload raises. */
    method UploadDirectory(bucket: string, prefix: string) returns (o: Outcome)
      modifies this
      ensures var r := UploadDirStep(bucket, prefix, old(hlsTree), env);
        events == old(events) + r.events && o == r.outcome
      ensures hlsTree == old(hlsTree) && master == old(master)
    {
      var tree := hlsTree;
      ghost var plan := UploadPlan(prefix, tree);
      ghost var log: seq<Event> := [];
      var i := 0;
      o := Done;
      while i < |tree|
        invariant 0 <= i <= |tree| && tree == hlsTree == old(hlsTree) && master == old(master)
        invariant events == old(events) + log
        invariant UploadRun(Delivery, bucket, plan[..i], env) == Run(log, Done)
        invariant o == Done
      {
        var f := tree[i];
        UploadDirSnoc(Delivery, bucket, prefix, tree, i, env);
        Assoc(old(events), log, [Upload(Delivery, bucket, prefix + RelativePath(f), ContentType(f.name))]);
        o := UploadFile(Delivery, bucket, prefix + RelativePath(f), ContentType(f.name));
        log := log + [Upload(Delivery, bucket, prefix + RelativePath(f), ContentType(f.name))];
        if o.Failed? {
          UploadRunStops(Delivery, bucket, plan, i + 1, env);
          return;
        }
        i := i + 1;
      }
      TakeAll(plan);
    }

    /** One turn of the encoding loop of `transcode_video_hls`, at rung `i` of `table`, after the
        encodes of the rungs kept before it all succeeded: a rung above the source height is
        skipped, any other is encoded and its name added to the ready list. On success the state
        covers the rungs up to `i`; on failure the whole ladder run has ended with this encode. */
    method EncodeRung(table: seq<VideoVariant>, i: nat, height: Option<int>, gpu: bool,
                      playlists: seq<VideoVariant>, ready: seq<string>,
                      ghost base: seq<Event>, ghost tree: seq<LocalFile>, ghost log: seq<Event>)
      returns (playlists': seq<VideoVariant>, ready': seq<string>, o: Outcome, ghost log': seq<Event>)
      modifies this
      requires i < |table| && playlists == Kept(table[..i], height) && ready == Names(playlists)
      requires var done := VideoTools(playlists, gpu);
        events == base + log && ToolRun(done, env) == Run(log, Done) && hlsTree == tree + Outputs(done, env.produced)
      ensures o.Done? ==> playlists' == Kept(table[..i + 1], height) && ready' == Names(playlists')
      ensures var done := VideoTools(playlists', gpu);
        o.Done? ==> events == base + log' && ToolRun(done, env) == Run(log', Done) &&
                    hlsTree == tree + Outputs(done, env.produced)
      ensures var r, ts := ToolRun(VideoTools(Kept(table, height), gpu), env), VideoTools(Kept(table, height), gpu);
        o.Failed? ==> events == base + r.events && o == r.outcome &&
                      hlsTree == tree + Outputs(ts[..FirstFail(ts, env.run)], env.produced)
      ensures master == old(master)
    {
      KeptStep(table, i, height, playlists);
      playlists', ready', o, log' := playlists, ready, Done, log;
      var v := table[i];
      if !Skipped(height, v) {
        VideoToolsSnoc(playlists, v, gpu);
        NamesSnoc(playlists, v);
        o := ExecuteNext(base, tree, log, VideoTools(playlists, gpu), VideoTool(v, gpu));
        log' := log + [RunTool(VideoTool(v, gpu))];
        if o.Failed? {
          LadderFailsAt(table, i, height, gpu, env);
          return;
        }
        ready' := ready + [v.name];
        playlists' := playlists + [v];
      }
    }

    /** The encoding loop of `transcode_video_hls` over the rungs of `table` (the handler passes
        `HlsVariants`): each rung that the source height does not rule out is encoded in turn, and
        the first failing encode raises. */
    method EncodeVideoLadder(table: seq<VideoVariant>, height: Option<int>, gpu: bool) returns (playlists: seq<VideoVariant>, ready: seq<string>, o: Outcome)
      modifies this
      ensures var r := ToolRun(VideoTools(Kept(table, height), gpu), env);
        events == old(events) + r.events && o == r.outcome
      ensures var ts := VideoTools(Kept(table, height), gpu);
        hlsTree == old(hlsTree) + Outputs(ts[..FirstFail(ts, env.run)], env.produced)
      ensures o.Done? ==> playlists == Kept(table, height) && ready == Names(playlists) &&
                          hlsTree == old(hlsTree) + Outputs(VideoTools(playlists, gpu), env.produced)
      ensures master == old(master)
    {
      ready := [];
      playlists := [];
      o := Done;
      ghost var log: seq<Event> := [];
      var i := 0;
      TakeAll(table);
      while i < |table|
        invariant 0 <= i <= |table|
        invariant playlists == Kept(table[..i], height) && ready == Names(playlists)
        invariant events == old(events) + log
        invariant ToolRun(VideoTools(playlists, gpu), env) == Run(log, Done)
        invariant hlsTree == old(hlsTree) + Outputs(VideoTools(playlists, gpu), env.produced)
        invariant master == old(master) && o == Done
      {
        playlists, ready, o, log := EncodeRung(table, i, height, gpu, playlists, ready, old(events), old(hlsTree), log);
        if o.Failed? {
          return;
        }
        i := i + 1;
      }
      KeptWhole(table, height);
      LadderCompleted(VideoTools(playlists, gpu), env);
    }

    /** `transcode_video_hls`: the encoding loop, then `master.m3u8` listing the encoded rungs. The
        names returned are those of the encoded rungs. */
    method TranscodeVideoHls(height: Option<int>, gpu: bool) returns (ready: seq<string>, o: Outcome)
      modifies this
      ensures var r := LadderStep("video", height, gpu, env);
        events == old(events) + r.events && o == r.outcome
      ensures var ts := LadderTools("video", height, gpu);
        o.Failed? ==> hlsTree == old(hlsTree) + Outputs(ts[..FirstFail(ts, env.run)], env.produced)
      ensures o.Done? ==> ready == ReadyVariants("video", height) && master == VideoMaster(height)
      ensures o.Done? ==> hlsTree == old(hlsTree) + LadderTree("video", height, gpu, env.produced)
      ensures o.Failed? ==> master == old(master)
    {
      VideoLadderIs(height, gpu, env);
      var playlists;
      playlists, ready, o := EncodeVideoLadder(HlsVariants, height, gpu);
      if o.Failed? {
        return;
      }
      var text := WriteVideoMaster(playlists);
      Assoc(old(hlsTree), Outputs(VideoTools(playlists, gpu), env.produced), [MasterFile]);
      SaveMaster(text);
    }

    /** One turn of the encoding loop of `transcode_audio_hls`, at rung `i`, after the earlier
        rungs' encodes all succeeded: the rung is encoded and its name added to the ready list. On
        success the state covers the rungs up to `i`; on failure the whole ladder run has ended
        with this encode. */
    method EncodeAudioRung(i: nat, playlists: seq<AudioVariant>, ready: seq<string>,
                           ghost base: seq<Event>, ghost tree: seq<LocalFile>, ghost log: seq<Event>)
      returns (playlists': seq<AudioVariant>, ready': seq<string>, o: Outcome, ghost log': seq<Event>)
      modifies this
      requires i < |AudioVariants| && playlists == AudioVariants[..i] && ready == AudioNames[..i]
      requires var done := AudioTools(AudioVariants)[..i];
        events == base + log && ToolRun(done, env) == Run(log, Done) && hlsTree == tree + Outputs(done, env.produced)
      ensures o.Done? ==> playlists' == AudioVariants[..i + 1] && ready' == AudioNames[..i + 1]
      ensures var done := AudioTools(AudioVariants)[..i + 1];
        o.Done? ==> events == base + log' && ToolRun(done, env) == Run(log', Done) &&
                    hlsTree == tree + Outputs(done, env.produced)
      ensures var ts := AudioTools(AudioVariants);
        o.Failed? ==> events == base + ToolRun(ts, env).events && o == ToolRun(ts, env).outcome &&
                      hlsTree == tree + Outputs(ts[..FirstFail(ts, env.run)], env.produced)
      ensures master == old(master)
    {
      ghost var ts := AudioTools(AudioVariants);
      var v := AudioVariants[i];
      TakeSnoc(ts, i);
      o := ExecuteNext(base, tree, log, ts[..i], AudioTool(v));
      log' := log + [RunTool(AudioTool(v))];
      if o.Failed? {
        ToolRunFailsAt(ts, i, env);
        playlists', ready' := playlists, ready;
        return;
      }
      TakeSnoc(AudioVariants, i);
      TakeSnoc(AudioNames, i);
      ready' := ready + [v.name];
      playlists' := playlists + [v];
    }

    /** The encoding loop of `transcode_audio_hls`: both audio rungs in turn; the first failing
        encode raises. */
    method EncodeAudioLadder() returns (playlists: seq<AudioVariant>, ready: seq<string>, o: Outcome)
      modifies this
      ensures var r := ToolRun(AudioTools(AudioVariants), env);
        events == old(events) + r.events && o == r.outcome
      ensures var ts := AudioTools(AudioVariants);
        hlsTree == old(hlsTree) + Outputs(ts[..FirstFail(ts, env.run)], env.produced)
      ensures o.Done? ==> playlists == AudioVariants && ready == AudioNames &&
                          hlsTree == old(hlsTree) + Outputs(AudioTools(AudioVariants), env.produced)
      ensures master == old(master)
    {
      ready := [];
      playlists := [];
      o := Done;
      ghost var log: seq<Event> := [];
      var i := 0;
      ghost var ts := AudioTools(AudioVariants);
      TakeAll(ts);
      while i < |AudioVariants|
        invariant 0 <= i <= |AudioVariants|
        invariant playlists == AudioVariants[..i] && ready == AudioNames[..i]
        invariant events == old(events) + log
        invariant ToolRun(ts[..i], env) == Run(log, Done)
        invariant hlsTree == old(hlsTree) + Outputs(ts[..i], env.produced)
        invariant master == old(master) && o == Done
      {
        playlists, ready, o, log := EncodeAudioRung(i, playlists, ready, old(events), old(hlsTree), log);
        if o.Failed? {
          return;
        }
        i := i + 1;
      }
      TakeAll(AudioVariants);
      TakeAll(AudioNames);
      TakeAll(ts);
      ToolRunDone(ts, env);
    }

    /** `transcode_audio_hls`: the encoding loop, then `master.m3u8`. */
    method TranscodeAudioHls() returns (ready: seq<string>, o: Outcome)
      modifies this
      ensures var r := LadderStep("audio", None, false, env);
        events == old(events) + r.events && o == r.outcome
      ensures var ts := LadderTools("audio", None, false);
        o.Failed? ==> hlsTree == old(hlsTree) + Outputs(ts[..FirstFail(ts, env.run)], env.produced)
      ensures o.Done? ==> ready == ReadyVariants("audio", None) && master == AudioMaster()
      ensures o.Done? ==> hlsTree == old(hlsTree) + LadderTree("audio", None, false, env.produced)
      ensures o.Failed? ==> master == old(master)
    {
      AudioLadderIs(env);
      var playlists;
      playlists, ready, o := EncodeAudioLadder();
      if o.Failed? {
        return;
      }
      var text := WriteAudioMaster(playlists);
      Assoc(old(hlsTree), Outputs(AudioTools(playlists), env.produced), [MasterFile]);
      SaveMaster(text);
    }

    /** `check_gpu_available`: `ffmpeg -encoders`, and whether its listing names h264_nvenc. */
    method CheckGpu() returns (gpu: bool)
      modifies this
      ensures gpu == GpuAvailable(env.encoderListing)
      ensures events == old(events) + [RunTool(ListEncoders)]
      ensures hlsTree == old(hlsTree) && master == old(master)
    {
      events := events + [RunTool(ListEncoders)];
      gpu := env.encoderListing.Some? && Contains(env.encoderListing.value, "h264_nvenc");
    }

    /** `probe_media` followed by `get_media_info`. */
    method ProbeMedia() returns (o: Outcome, info: MediaInfo)
      modifies this
      ensures var r := ProbeStep(env); events == old(events) + r.events && o == r.outcome
      ensures o.Done? ==> info == ProbedInfo(env)
      ensures hlsTree == old(hlsTree) && master == old(master)
    {
      events := events + [RunTool(Probe)];
      match env.probe
      case Err(m) =>
        o := Failed(m);
        info := MediaInfo(0, None, None);
      case Ok(p) =>
        o := Done;
        info := FindMediaInfo(p);
    }

    /** Step 3: for video, `create_mezzanine` and the upload of the mezzanine to the archive. */
    method ArchiveMezzanine(job: map<string, string>, ids: Ids, gpu: bool) returns (o: Outcome)
      modifies this
      ensures var r := MezzanineStep(job, ids, gpu, env); events == old(events) + r.events && o == r.outcome
      ensures hlsTree == old(hlsTree) && master == old(master)
    {
      o := Done;
      if ids.mediaType == "video" {
        o := Execute(Mezzanine(gpu));
        if o.Failed? {
          return;
        }
        if "b2BucketName" !in job {
          return Failed(KeyErrorText("b2BucketName"));
        }
        o := UploadFile(Archive, job["b2BucketName"], MezzanineKey(ids.creatorId, ids.mediaId), Some("video/mp4"));
      }
    }

    /** Step 4: `analyze_loudness`. Its result is only logged by the source. */
    method MeasureLoudness() returns (o: Outcome, loudness: Loudness)
      modifies this
      ensures var r := LoudnessStep(env); events == old(events) + r.events && o == r.outcome
      ensures o.Done? ==> env.loudnessStderr.Ok? && AnalyzeLoudness(env.loudnessStderr.value, env.decodeLoudness) == Ok(loudness)
      ensures hlsTree == old(hlsTree) && master == old(master)
    {
      events := events + [RunTool(LoudnessAnalysis)];
      loudness := DefaultLoudness;
      match env.loudnessStderr
      case Err(m) =>
        o := Failed(m);
      case Ok(stderr) =>
        match AnalyzeLoudness(stderr, env.decodeLoudness)
        case Err(m) =>
          o := Failed(m);
        case Ok(l) =>
          o := Done;
          loudness := l;
    }

    /** Step 5: the ladder for the media type (any type but video gets the audio ladder). */
    method BuildLadder(mediaType: string, height: Option<int>, gpu: bool) returns (ready: seq<string>, o: Outcome)
      modifies this
      ensures var r := LadderStep(mediaType, height, gpu, env); events == old(events) + r.events && o == r.outcome
      ensures o.Done? ==> ready == ReadyVariants(mediaType, height) &&
                          hlsTree == old(hlsTree) + LadderTree(mediaType, height, gpu, env.produced) &&
                          master == LadderMaster(mediaType, height)
      ensures var ts := LadderTools(mediaType, height, gpu);
        o.Failed? ==> hlsTree == old(hlsTree) + Outputs(ts[..FirstFail(ts, env.run)], env.produced) &&
                      master == old(master)
    {
      if mediaType == "video" {
        ready, o := TranscodeVideoHls(height, gpu);
      } else {
        AudioLadderFor(mediaType, height, gpu, env);
        ready, o := TranscodeAudioHls();
      }
    }

    /** Step 6: for a video with a positive duration, `create_preview`, which writes into the HLS
        directory after it has been uploaded. */
    method CreatePreview(ids: Ids, info: MediaInfo, gpu: bool) returns (o: Outcome)
      modifies this
      ensures var r := PreviewStep(ids, info, gpu, env); events == old(events) + r.events && o == r.outcome
      ensures hlsTree == old(hlsTree) + (if o.Done? then PreviewFiles(ids, info, gpu, env.produced) else [])
      ensures master == old(master)
    {
      o := Done;
      if ids.mediaType == "video" && info.duration > 0 {
        o := Execute(PreviewTool(info.duration, gpu));
      }
    }

    /** Step 7: for a video with a positive duration, `extract_thumbnail` and its upload. */
    method PublishThumbnail(ids: Ids, bucket: string, info: MediaInfo) returns (o: Outcome)
      modifies this
      ensures var r := ThumbnailStep(ids, bucket, info, env); events == old(events) + r.events && o == r.outcome
      ensures hlsTree == old(hlsTree) && master == old(master)
    {
      o := Done;
      if ids.mediaType == "video" && info.duration > 0 {
        o := Execute(Thumbnail(ThumbnailTime(info.duration)));
        if o.Failed? {
          return;
        }
        o := UploadFile(Delivery, bucket, ThumbnailKey(ids.creatorId, ids.mediaId), Some(JpegMime));
      }
    }

    /** `generate_waveform`: the JSON data, then the PNG image. */
    method GenerateWaveform() returns (o: Outcome)
      modifies this
      ensures var r := Then(ToolStep(WaveformData, env), ToolStep(WaveformImage, env));
        events == old(events) + r.events && o == r.outcome
      ensures hlsTree == old(hlsTree) && master == old(master)
    {
      o := Execute(WaveformData);
      if o.Failed? {
        return;
      }
      o := Execute(WaveformImage);
    }

    /** Step 8: for audio, `generate_waveform` and the uploads of both files. */
    method PublishWaveform(ids: Ids, bucket: string) returns (o: Outcome)
      modifies this
      ensures var r := WaveformStep(ids, bucket, env); events == old(events) + r.events && o == r.outcome
      ensures hlsTree == old(hlsTree) && master == old(master)
    {
      o := Done;
      if ids.mediaType == "audio" {
        o := GenerateWaveform();
        if o.Failed? {
          return;
        }
        o := UploadFile(Delivery, bucket, WaveformKey(ids.creatorId, ids.mediaId), Some(JsonMime));
        if o.Failed? {
          return;
        }
        o := UploadFile(Delivery, bucket, WaveformImageKey(ids.creatorId, ids.mediaId), Some(PngMime));
      }
    }

    /** `send_webhook`: look up the URL and the secret, then post the signed payload. */
    method PostWebhook(job: map<string, string>, result: TranscodingResult) returns (o: Outcome)
      modifies this
      ensures var r := SendWebhook(job, env, result); events == old(events) + r.events && o == r.outcome
      ensures hlsTree == old(hlsTree) && master == old(master)
    {
      if "webhookUrl" !in job {
        return Failed(KeyErrorText("webhookUrl"));
      }
      if "webhookSecret" !in job {
        return Failed(KeyErrorText("webhookSecret"));
      }
      var url := job["webhookUrl"];
      var body := env.serialize(result);
      var signature := env.sign(body, job["webhookSecret"]);
      events := events + [Post(url, result, body, signature)];
      o := env.post(url, body, signature);
    }

    /** Steps 1 to 4 of the `try` block; the first step to raise ends it. */
    method PrepareSource(job: map<string, string>, ids: Ids, gpu: bool) returns (o: Outcome, info: MediaInfo)
      modifies this
      ensures var r := SourceStages(job, ids, gpu, env); events == old(events) + r.events && o == r.outcome
      ensures o.Done? ==> "r2BucketName" in job && info == ProbedInfo(env)
      ensures hlsTree == old(hlsTree) && master == old(master)
    {
      info := MediaInfo(0, None, None);
      if "r2BucketName" !in job {
        return Failed(KeyErrorText("r2BucketName")), info;
      }
      var bucket := job["r2BucketName"];
      ghost var done := Lookup(job, "r2BucketName");
      assert old(events) + done.events == old(events);
      ghost var step := DownloadStep(bucket, ids.inputKey, env);
      Assoc(old(events), done.events, step.events);
      o := DownloadFile(bucket, ids.inputKey);
      done := Then(done, step);
      if o.Failed? {
        return;
      }
      step := ProbeStep(env);
      Assoc(old(events), done.events, step.events);
      o, info := ProbeMedia();
      done := Then(done, step);
      if o.Failed? {
        return;
      }
      step := MezzanineStep(job, ids, gpu, env);
      Assoc(old(events), done.events, step.events);
      o := ArchiveMezzanine(job, ids, gpu);
      done := Then(done, step);
      if o.Failed? {
        return;
      }
      step := LoudnessStep(env);
      Assoc(old(events), done.events, step.events);
      var loudness;
      o, loudness := MeasureLoudness();
    }

    /** Step 5 of the `try` block: the ladder into the fresh HLS directory, then its upload. */
    method PublishHls(ids: Ids, bucket: string, height: Option<int>, gpu: bool) returns (ready: seq<string>, o: Outcome)
      requires hlsTree == []
      modifies this
      ensures var r := HlsStages(ids, bucket, height, gpu, env); events == old(events) + r.events && o == r.outcome
      ensures o.Done? ==> ready == ReadyVariants(ids.mediaType, height)
      ensures var l := LadderStep(ids.mediaType, height, gpu, env);
        l.outcome.Done? ==> hlsTree == LadderTree(ids.mediaType, height, gpu, env.produced) &&
                            master == LadderMaster(ids.mediaType, height)
      ensures var l, ts := LadderStep(ids.mediaType, height, gpu, env), LadderTools(ids.mediaType, height, gpu);
        l.outcome.Failed? ==> hlsTree == Outputs(ts[..FirstFail(ts, env.run)], env.produced) && master == old(master)
    {
      ghost var ladder := LadderStep(ids.mediaType, height, gpu, env);
      ready, o := BuildLadder(ids.mediaType, height, gpu);
      if o.Failed? {
        return;
      }
      ghost var tree := LadderTree(ids.mediaType, height, gpu, env.produced);
      assert hlsTree == tree;
      ghost var upload := UploadDirStep(bucket, HlsPrefix(ids.creatorId, ids.mediaId), tree, env);
      Assoc(old(events), ladder.events, upload.events);
      o := UploadDirectory(bucket, HlsPrefix(ids.creatorId, ids.mediaId));
    }

    /** Steps 6 to 8 of the `try` block. */
    method PublishExtras(ids: Ids, bucket: string, info: MediaInfo, gpu: bool) returns (o: Outcome)
      modifies this
      ensures var r := ExtraStages(ids, bucket, info, gpu, env); events == old(events) + r.events && o == r.outcome
      ensures var p := PreviewStep(ids, info, gpu, env);
        hlsTree == old(hlsTree) + (if p.outcome.Done? then PreviewFiles(ids, info, gpu, env.produced) else [])
      ensures master == old(master)
    {
      ghost var done := PreviewStep(ids, info, gpu, env);
      o := CreatePreview(ids, info, gpu);
      if o.Failed? {
        return;
      }
      ghost var step := ThumbnailStep(ids, bucket, info, env);
      Assoc(old(events), done.events, step.events);
      o := PublishThumbnail(ids, bucket, info);
      done := Then(done, step);
      if o.Failed? {
        return;
      }
      step := WaveformStep(ids, bucket, env);
      Assoc(old(events), done.events, step.events);
      o := PublishWaveform(ids, bucket);
    }

    /** Steps 5 to 8 of the `try` block, after the source is ready: the HLS ladder and its upload,
        then the preview, the thumbnail and the waveform. */
    method PublishOutputs(ids: Ids, bucket: string, info: MediaInfo, gpu: bool) returns (ready: seq<string>, o: Outcome)
      requires hlsTree == []
      modifies this
      ensures var r := Then(HlsStages(ids, bucket, info.height, gpu, env), ExtraStages(ids, bucket, info, gpu, env));
        events == old(events) + r.events && o == r.outcome
      ensures o.Done? ==> ready == ReadyVariants(ids.mediaType, info.height) &&
                          hlsTree == LadderTree(ids.mediaType, info.height, gpu, env.produced) +
                                     PreviewFiles(ids, info, gpu, env.produced) &&
                          master == LadderMaster(ids.mediaType, info.height)
    {
      ghost var hls := HlsStages(ids, bucket, info.height, gpu, env);
      ready, o := PublishHls(ids, bucket, info.height, gpu);
      if o.Failed? {
        return;
      }
      ghost var extras := ExtraStages(ids, bucket, info, gpu, env);
      Assoc(old(events), hls.events, extras.events);
      o := PublishExtras(ids, bucket, info, gpu);
    }

    /** The `try` block of `handler`: the stages in order, the first that raises ending it, then the
        completed payload. `hlsTree` starts empty, as the fresh work directory does. */
    method Transcode(job: map<string, string>, ids: Ids, gpu: bool) returns (result: Result<TranscodingResult>)
      requires hlsTree == []
      modifies this
      ensures var t := TryParts(job, ids, gpu, env); events == old(events) + t.events && result == t.result
      ensures var info := ProbedInfo(env);
        result.Ok? ==> hlsTree == LadderTree(ids.mediaType, info.height, gpu, env.produced) +
                                  PreviewFiles(ids, info, gpu, env.produced) &&
                       master == LadderMaster(ids.mediaType, info.height)
    {
      ghost var source := SourceStages(job, ids, gpu, env);
      var o, info := PrepareSource(job, ids, gpu);
      if o.Failed? {
        return Err(o.message);
      }
      var bucket := job["r2BucketName"];
      ghost var hls := HlsStages(ids, bucket, info.height, gpu, env);
      ghost var extras := ExtraStages(ids, bucket, info, gpu, env);
      Assoc(old(events), source.events, Then(hls, extras).events);
      var ready;
      ready, o := PublishOutputs(ids, bucket, info, gpu);
      if o.Failed? {
        return Err(o.message);
      }
      result := Ok(CompletedResult(ids.mediaId, ids.creatorId, ids.mediaType, info));
    }

    /** `tempfile.mkdtemp`: a fresh, empty work directory. */
    method MakeWorkDir()
      modifies this
      ensures events == old(events) + [Acquire] && hlsTree == [] && master == ""
    {
      events := events + [Acquire];
      hlsTree := [];
      master := "";
    }

    /** `shutil.rmtree(work_dir, ignore_errors=True)`. */
    method RemoveWorkDir()
      modifies this
      ensures events == old(events) + [Cleanup] && hlsTree == [] && master == ""
    {
      events := events + [Cleanup];
      hlsTree := [];
      master := "";
    }

    /** The webhooks after the `try` block and the value `handler` returns: the completed post
        when the block finished, and the failed post whenever an exception was caught, the
        failure of that post being swallowed. */
    method Notify(job: map<string, string>, mediaId: string, result: Result<TranscodingResult>) returns (ret: HandlerReturn)
      modifies this
      ensures events == old(events) + Notices(job, env, mediaId, result)
      ensures ret == Returned(job, env, mediaId, result)
      ensures hlsTree == old(hlsTree) && master == old(master)
    {
      match result
      case Ok(r) =>
        var o := PostWebhook(job, r);
        if o.Done? {
          return Success(mediaId);
        }
        Assoc(old(events), SendWebhook(job, env, r).events, SendWebhook(job, env, FailedResult(mediaId, o.message)).events);
        var _ := PostWebhook(job, FailedResult(mediaId, o.message));
        ret := Error(o.message);
      case Err(m) =>
        var _ := PostWebhook(job, FailedResult(mediaId, m));
        ret := Error(m);
    }

    /** `handler`: the look-ups and storage clients before the `try` block (whose failure
        escapes), the GPU check, the work directory, the `try` block, the webhooks, and the
        removal of the work directory in the `finally` clause. */
    method Handle(job: map<string, string>) returns (ret: HandlerReturn)
      modifies this
      ensures events == old(events) + Handled(job, env).events && ret == Handled(job, env).ret
      ensures Prelude(job, env).Err? ==> hlsTree == old(hlsTree) && master == old(master)
      ensures Prelude(job, env).Ok? ==> hlsTree == [] && master == ""
    {
      var prelude := Prelude(job, env);
      if prelude.Err? {
        assert old(events) + [] == old(events);
        return Raised(prelude.error);
      }
      var ids := prelude.value;
      var gpu := CheckGpu();
      MakeWorkDir();
      ghost var t := TryBlock(job, ids, gpu, env);
      TryBlockInParts(job, ids, gpu, env);
      var result := Transcode(job, ids, gpu);
      ghost var notices := Notices(job, env, ids.mediaId, result);
      ret := Notify(job, ids.mediaId, result);
      RemoveWorkDir();
      HandledLog(old(events), t.events, notices);
    }
  }
}
