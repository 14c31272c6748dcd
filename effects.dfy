/** The handler's outside world: the external tools it runs, the object stores and webhook it
    talks to, and the log of everything it does to them. Every external call is an oracle in `Env`
    that either succeeds or fails with the text of the exception it raises (a timeout is a failure). */
module Effects {
  import opened Wrappers
  import opened Media
  import opened Storage
  import opened Payload
  import Ladder

  datatype Outcome = Done | Failed(message: string)

  /** The delivery store (R2) and the archival store (B2). */
  datatype Store = Delivery | Archive

  /** The audio filter every rendition applies; the measured loudness never reaches it. */
  const Loudnorm: string := "loudnorm=I=-16:TP=-1.5:LRA=11"

  /** An external process and the arguments of it that the model keeps. */
  datatype Tool =
    | ListEncoders
    | Probe
    | Mezzanine(gpu: bool)
    | LoudnessAnalysis
    | VideoRendition(name: string, height: nat, videoBitrate: string, maxrate: string, bufsize: string,
                     audioBitrate: string, audioFilter: string, gpu: bool)
    | AudioRendition(name: string, audioBitrate: string, audioFilter: string)
    | Preview(start: int, length: int, gpu: bool)
    | Thumbnail(timestamp: int)
    | WaveformData
    | WaveformImage

  datatype ObjectRef = ObjectRef(store: Store, bucket: string, key: string)

  /** One externally visible action, in the order the handler performs it. */
  datatype Event =
    | Acquire
    | Download(bucket: string, key: string)
    | RunTool(tool: Tool)
    | Upload(store: Store, bucket: string, key: string, contentType: Option<string>)
    | Post(url: string, payload: TranscodingResult, body: string, signature: string)
    | Cleanup

  /** The oracles. `produced(t)` names the files a successful run of `t` writes into its output
      directory; `serialize` is `json.dumps`; `sign` is the hex HMAC-SHA256 of a body under a secret. */
  datatype Env = Env(
    makeClient: (string, string, string) -> Outcome,
    encoderListing: Option<string>,
    download: ObjectRef -> Outcome,
    probe: Result<ProbeData>,
    loudnessStderr: Result<string>,
    decodeLoudness: string -> LoudnessDecode,
    run: Tool -> Outcome,
    produced: Tool -> seq<string>,
    upload: ObjectRef -> Outcome,
    serialize: TranscodingResult -> string,
    sign: (string, string) -> string,
    post: (string, string, string) -> Outcome)

  /** The index of the first element whose call fails, or `|xs|` when every call succeeds. */
  function FirstFail<T>(xs: seq<T>, f: T -> Outcome): (k: nat)
    ensures k <= |xs|
    ensures forall j :: 0 <= j < k ==> f(xs[j]).Done?
    ensures k < |xs| ==> f(xs[k]).Failed?
    decreases |xs|
  {
    if xs == [] then 0 else if f(xs[0]).Failed? then 0 else 1 + FirstFail(xs[1..], f)
  }

  /** A loop that stops at the first failure stopped at `k` exactly when every earlier call
      succeeded and the call at `k`, if there is one, failed. */
  lemma {:induction false} FirstFailIs<T>(xs: seq<T>, f: T -> Outcome, k: nat)
    requires k <= |xs|
    requires forall j :: 0 <= j < k ==> f(xs[j]).Done?
    requires k < |xs| ==> f(xs[k]).Failed?
    ensures FirstFail(xs, f) == k
    decreases |xs|
  {
    if xs != [] && k > 0 {
      assert f(xs[0]).Done?;
      forall j | 0 <= j < k - 1
        ensures f(xs[1..][j]).Done?
      {
        assert xs[1..][j] == xs[j + 1];
      }
      FirstFailIs(xs[1..], f, k - 1);
    }
  }

  /** Where the first failure of a sequence with one more element is. */
  lemma FirstFailSnoc<T>(xs: seq<T>, x: T, f: T -> Outcome)
    ensures FirstFail(xs + [x], f) ==
      if FirstFail(xs, f) < |xs| then FirstFail(xs, f) else if f(x).Failed? then |xs| else |xs| + 1
  {
    var ys := xs + [x];
    var k := FirstFail(xs, f);
    forall j | 0 <= j < |xs|
      ensures ys[j] == xs[j]
    {
    }
    FirstFailIs(ys, f, if k < |xs| then k else if f(x).Failed? then |xs| else |xs| + 1);
  }

  /** How many calls a loop that stops at the first failure makes. */
  function Attempted(k: nat, n: nat): nat {
    if k < n then k + 1 else n
  }

  /** The directory (relative to the HLS root) a tool writes into. */
  function OutputDir(t: Tool): string {
    match t
    case VideoRendition(name, _, _, _, _, _, _, _) => name
    case AudioRendition(name, _, _) => name
    case Preview(_, _, _) => "preview"
    case _ => ""
  }

  /** The tools that write into the HLS work directory: the renditions and the preview. */
  predicate WritesHls(t: Tool) {
    t.VideoRendition? || t.AudioRendition? || t.Preview?
  }

  /** The files a successful run of `t` adds to the HLS tree. */
  function OutputsOf(t: Tool, produced: Tool -> seq<string>): (r: seq<LocalFile>)
    ensures |r| == |produced(t)|
    ensures forall i :: 0 <= i < |r| ==> r[i] == LocalFile(OutputDir(t), produced(t)[i])
  {
    seq(|produced(t)|, i requires 0 <= i < |produced(t)| => LocalFile(OutputDir(t), produced(t)[i]))
  }

  /** The files a sequence of successful runs adds, in run order. */
  function Outputs(ts: seq<Tool>, produced: Tool -> seq<string>): seq<LocalFile>
    decreases |ts|
  {
    if ts == [] then [] else Outputs(ts[..|ts| - 1], produced) + OutputsOf(ts[|ts| - 1], produced)
  }

  /** Every file in `Outputs(ts)` sits in the output directory of one of `ts`. */
  lemma {:induction false} OutputsDirs(ts: seq<Tool>, produced: Tool -> seq<string>, f: LocalFile)
    requires f in Outputs(ts, produced)
    ensures exists t :: t in ts && f.dir == OutputDir(t)
    decreases |ts|
  {
    var last := ts[|ts| - 1];
    if f in Outputs(ts[..|ts| - 1], produced) {
      OutputsDirs(ts[..|ts| - 1], produced, f);
      var t :| t in ts[..|ts| - 1] && f.dir == OutputDir(t);
      assert t in ts;
    } else {
      assert f in OutputsOf(last, produced);
      assert last in ts;
    }
  }
}
