/** What one `handler` call guarantees from start to finish: the work directory is created once
    and always removed last, the webhook posts come after all the work, are signed, and agree with
    the value the handler returns. */
module Lifecycle {
  import opened Wrappers
  import opened Media
  import opened Payload
  import opened Effects
  import opened Pipeline
  import Properties

  /** The payloads posted to the webhook, in order. */
  function Posted(es: seq<Event>): seq<TranscodingResult>
    decreases |es|
  {
    if es == [] then []
    else Posted(es[..|es| - 1]) + (if es[|es| - 1].Post? then [es[|es| - 1].payload] else [])
  }

  lemma {:induction false} PostedAppend(a: seq<Event>, b: seq<Event>)
    ensures Posted(a + b) == Posted(a) + Posted(b)
    decreases |b|
  {
    if b == [] {
      assert a + b == a;
    } else {
      assert (a + b)[..|a + b| - 1] == a + b[..|b| - 1];
      PostedAppend(a, b[..|b| - 1]);
    }
  }

  lemma {:induction false} NothingPosted(es: seq<Event>)
    requires forall i :: 0 <= i < |es| ==> !es[i].Post?
    ensures Posted(es) == []
    decreases |es|
  {
    if es != [] {
      NothingPosted(es[..|es| - 1]);
    }
  }

  /** The signed POST `send_webhook` makes for `r`. */
  function SignedPost(job: map<string, string>, env: Env, r: TranscodingResult): Event
    requires WebhookConfigured(job)
  {
    var body := env.serialize(r);
    Post(job["webhookUrl"], r, body, env.sign(body, job["webhookSecret"]))
  }

  /** `send_webhook` posts exactly when the URL and the secret are both present, and the body it
      posts is the serialised payload signed with the job's secret. */
  lemma SendWebhookPosts(job: map<string, string>, env: Env, r: TranscodingResult)
    ensures WebhookConfigured(job) ==> SendWebhook(job, env, r).events == [SignedPost(job, env, r)]
    ensures !WebhookConfigured(job) ==> SendWebhook(job, env, r).events == [] && SendWebhook(job, env, r).outcome.Failed?
    ensures Posted(SendWebhook(job, env, r).events) == if WebhookConfigured(job) then [r] else []
  {
    if WebhookConfigured(job) {
      assert Posted([SignedPost(job, env, r)]) == Posted([]) + [r];
    }
  }

  /** Every event of the notification phase is a signed post of the job's webhook. */
  lemma NoticesSigned(job: map<string, string>, env: Env, mediaId: string, result: Result<TranscodingResult>)
    ensures var ns := Notices(job, env, mediaId, result);
      forall i :: 0 <= i < |ns| ==> ns[i].Post? && WebhookConfigured(job) && ns[i] == SignedPost(job, env, ns[i].payload)
  {
    match result
    case Ok(r) =>
      SendWebhookPosts(job, env, r);
      var sent := SendWebhook(job, env, r);
      if sent.outcome.Failed? {
        SendWebhookPosts(job, env, FailedResult(mediaId, sent.outcome.message));
      }
    case Err(m) =>
      SendWebhookPosts(job, env, FailedResult(mediaId, m));
  }

  lemma HandledPosts(job: map<string, string>, env: Env)
    requires Prelude(job, env).Ok?
    ensures var ids := Prelude(job, env).value;
      var t := TryBlock(job, ids, GpuAvailable(env.encoderListing), env);
      Posted(Handled(job, env).events) == Posted(Notices(job, env, ids.mediaId, t.result))
  {
    var ids := Prelude(job, env).value;
    var gpu := GpuAvailable(env.encoderListing);
    var t := TryBlock(job, ids, gpu, env);
    var ns := Notices(job, env, ids.mediaId, t.result);
    Properties.PreviewNeverUploaded(job, ids, gpu, env);
    NothingPosted(t.events);
    NothingPosted([RunTool(ListEncoders), Acquire]);
    NothingPosted([Cleanup]);
    PostedAppend([RunTool(ListEncoders), Acquire], t.events);
    PostedAppend([RunTool(ListEncoders), Acquire] + t.events, ns);
    PostedAppend([RunTool(ListEncoders), Acquire] + t.events + ns, [Cleanup]);
  }

  /** The layout of a handled job, for any try-block log `t` made of work and any outcome of the
      try block. */
  lemma {:induction false} LayoutBracketed(job: map<string, string>, env: Env, t: seq<Event>, mediaId: string,
                                           result: Result<TranscodingResult>)
    requires forall i :: 0 <= i < |t| ==> Properties.IsWork(t[i])
    ensures var es := [RunTool(ListEncoders), Acquire] + t + Notices(job, env, mediaId, result) + [Cleanup];
      |es| >= 3 && es[0] == RunTool(ListEncoders) && es[|es| - 1] == Cleanup &&
      (forall i :: 0 <= i < |es| ==> (es[i] == Acquire <==> i == 1) && (es[i] == Cleanup <==> i == |es| - 1)) &&
      (forall i, j :: 0 <= i < j < |es| && es[i].Post? ==> !Properties.IsWork(es[j])) &&
      (forall i :: 0 <= i < |es| && es[i].Post? ==> WebhookConfigured(job) && es[i] == SignedPost(job, env, es[i].payload))
  {
    var ns := Notices(job, env, mediaId, result);
    NoticesSigned(job, env, mediaId, result);
    var es := [RunTool(ListEncoders), Acquire] + t + ns + [Cleanup];
    forall i | 0 <= i < |es|
      ensures (es[i] == Acquire <==> i == 1) && (es[i] == Cleanup <==> i == |es| - 1)
      ensures es[i].Post? ==> 2 + |t| <= i < |es| - 1 && WebhookConfigured(job) &&
                              es[i] == SignedPost(job, env, es[i].payload)
      ensures Properties.IsWork(es[i]) ==> i < 2 + |t|
    {
      if 2 <= i < 2 + |t| {
        assert es[i] == t[i - 2];
      } else if 2 + |t| <= i < |es| - 1 {
        assert es[i] == ns[i - 2 - |t|];
      }
    }
  }

  /** A failure before the work directory exists escapes the handler with nothing done; after it,
      the handler never raises, the work directory is created exactly once, second only to the
      encoder listing, and removed exactly once, as the very last action; every webhook post comes
      after all downloads, tool runs and uploads, and is signed with the job's secret. */
  lemma Bracketed(job: map<string, string>, env: Env)
    ensures Prelude(job, env).Err? ==> Handled(job, env) == Handling([], Raised(Prelude(job, env).error))
    ensures Prelude(job, env).Ok? ==>
      var es := Handled(job, env).events;
      !Handled(job, env).ret.Raised? &&
      |es| >= 3 && es[0] == RunTool(ListEncoders) && es[|es| - 1] == Cleanup &&
      (forall i :: 0 <= i < |es| ==> (es[i] == Acquire <==> i == 1) && (es[i] == Cleanup <==> i == |es| - 1)) &&
      (forall i, j :: 0 <= i < j < |es| && es[i].Post? ==> !Properties.IsWork(es[j])) &&
      (forall i :: 0 <= i < |es| && es[i].Post? ==> WebhookConfigured(job) && es[i] == SignedPost(job, env, es[i].payload))
  {
    if Prelude(job, env).Ok? {
      var ids := Prelude(job, env).value;
      var gpu := GpuAvailable(env.encoderListing);
      var t := TryBlock(job, ids, gpu, env);
      Properties.PreviewNeverUploaded(job, ids, gpu, env);
      LayoutBracketed(job, env, t.events, ids.mediaId, t.result);
    }
  }

  /** How the notification phase and the return value agree, for any outcome of the try block. */
  lemma NoticesAgree(job: map<string, string>, env: Env, mediaId: string, result: Result<TranscodingResult>)
    requires result.Ok? ==> result.value.status == "completed"
    ensures var ps := Posted(Notices(job, env, mediaId, result));
      var ret := Returned(job, env, mediaId, result);
      |ps| <= 2 &&
      (ps == [] <==> !WebhookConfigured(job)) &&
      (ret.Success? <==> |ps| == 1 && ps[0].status == "completed") &&
      (ret.Success? ==> ret.mediaId == mediaId && result.Ok? && ps[0] == result.value) &&
      (ret.Error? && WebhookConfigured(job) ==> ps[|ps| - 1] == FailedResult(mediaId, ret.error)) &&
      (|ps| == 2 ==> ps[0].status == "completed" && ps[1].status == "failed") &&
      (result.Err? && WebhookConfigured(job) ==> ps == [FailedResult(mediaId, result.error)]) &&
      (result.Ok? && ret.Error? && WebhookConfigured(job) ==> ps == [result.value, FailedResult(mediaId, ret.error)]) &&
      (result.Err? ==> ret == Error(result.error)) &&
      (!WebhookConfigured(job) ==> ret.Error?) &&
      !ret.Raised?
  {
    match result
    case Ok(r) =>
      SendWebhookPosts(job, env, r);
      var sent := SendWebhook(job, env, r);
      if sent.outcome.Failed? {
        SendWebhookPosts(job, env, FailedResult(mediaId, sent.outcome.message));
        PostedAppend(sent.events, SendWebhook(job, env, FailedResult(mediaId, sent.outcome.message)).events);
      }
    case Err(m) =>
      SendWebhookPosts(job, env, FailedResult(mediaId, m));
  }

  /** The handler reports success exactly when one post, the completed payload, was made and
      delivered; a failure of the try block is returned in full and posted capped; when the
      completed post itself fails, a failed post follows it; a job without both webhook fields
      never succeeds and posts nothing. */
  lemma WebhookAgreesWithReturn(job: map<string, string>, env: Env)
    requires Prelude(job, env).Ok?
    ensures var ids := Prelude(job, env).value;
      var t := TryBlock(job, ids, GpuAvailable(env.encoderListing), env);
      var h := Handled(job, env);
      var ps := Posted(h.events);
      |ps| <= 2 &&
      (ps == [] <==> !WebhookConfigured(job)) &&
      (h.ret.Success? <==> |ps| == 1 && ps[0].status == "completed") &&
      (h.ret.Success? ==> h.ret.mediaId == ids.mediaId && t.result.Ok? && ps[0] == t.result.value) &&
      (h.ret.Error? && WebhookConfigured(job) ==> ps[|ps| - 1] == FailedResult(ids.mediaId, h.ret.error)) &&
      (|ps| == 2 ==> ps[0].status == "completed" && ps[1].status == "failed") &&
      (t.result.Err? && WebhookConfigured(job) ==> ps == [FailedResult(ids.mediaId, t.result.error)]) &&
      (t.result.Ok? && h.ret.Error? && WebhookConfigured(job) ==>
         ps == [t.result.value, FailedResult(ids.mediaId, h.ret.error)]) &&
      (t.result.Err? ==> h.ret == Error(t.result.error)) &&
      (!WebhookConfigured(job) ==> h.ret.Error?)
  {
    var ids := Prelude(job, env).value;
    var t := TryBlock(job, ids, GpuAvailable(env.encoderListing), env);
    HandledPosts(job, env);
    NoticesAgree(job, env, ids.mediaId, t.result);
  }

  /** The completed payload is exactly the result built from the probed media. */
  lemma CompletedPayload(job: map<string, string>, env: Env)
    requires Prelude(job, env).Ok?
    requires TryBlock(job, Prelude(job, env).value, GpuAvailable(env.encoderListing), env).result.Ok?
    ensures var ids := Prelude(job, env).value;
      TryBlock(job, ids, GpuAvailable(env.encoderListing), env).result.value ==
        CompletedResult(ids.mediaId, ids.creatorId, ids.mediaType, ProbedInfo(env))
  {
  }
}
