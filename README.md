# RunPod transcoding handler, modelled in Dafny

This project models the job handler of the RunPod transcoding worker
(`infrastructure/runpod/handler/main.py`). One call of `handler` does the following:

- reads the job payload and creates the two S3 clients: R2, the delivery store, and B2, the archival store;
- checks for the h264_nvenc encoder;
- creates a scratch directory, then inside a `try` block downloads the upload, probes it,
  archives a mezzanine encode (video only) and runs the loudness pass;
- encodes the HLS rendition ladder, writes `master.m3u8` and uploads the HLS directory;
- encodes the preview clip (video only), extracts and uploads a thumbnail (video only), and
  generates and uploads a waveform (audio only);
- posts a signed `completed` webhook; on any exception it posts a `failed` webhook instead,
  whose own failure is swallowed;
- removes the scratch directory in its `finally` clause.

The external world is a set of oracles in the datatype `Effects.Env`: ffprobe, ffmpeg, audiowaveform,
the storage clients, `json.dumps`, the HMAC signer and the HTTP post. Each oracle call either
succeeds or fails with the text of the exception it raises; a timeout counts as a failure.
Everything the handler does to that world is recorded as an event log, a sequence of
`Effects.Event`.

The modules:

- **Wrappers**: `Option` and `Result`.
- **Text**: the Python string operations used: `str`/`int` on naturals, `endswith`,
  `in`, `rfind`, slicing, and writing and reading lines.
- **Ladder**: `HLS_VARIANTS` and `AUDIO_VARIANTS`, the skip rule for rungs taller than the source,
  `-bufsize`, and the master playlist text. The playlist uses the RFC 8216 tags `#EXTM3U`
  (section 4.3.1.1), `#EXT-X-VERSION` (section 4.3.1.2) and `#EXT-X-STREAM-INF` (section 4.3.4.2).
- **Media**: `get_media_info`, the preview window, the thumbnail time, GPU detection and
  loudness parsing.
- **Storage**: the content type chosen from a file's suffix, and the key and content type of each
  upload made by `upload_directory`.
- **Payload**: `TranscodingResult`, the object keys, the completed and failed payloads, the
  2000-character error cap, and the handler's return value.
- **Effects**: tools, events, the oracles, and the index of the first failure in a sequence of calls.
- **Pipeline**: the whole handler as pure values. The `try` block is:
  - a chain of ten stages, where the first stage that raises ends the chain;
  - then the webhook phase, the return value and the cleanup.
- **Handler**: the class `Worker`.
  - It performs the same steps one call at a time, holding the event log, the files of the HLS
    work directory and the text of `master.m3u8`.
  - The ladder loops are `while` loops with invariants.
  - Each method is proved to do exactly what the matching Pipeline function describes.
- **Properties**, **Lifecycle** and **Scenarios**: what the handler guarantees overall, proved about
  the Pipeline description. This includes the runs that the handler's unit tests describe.

Where the comments of `infrastructure/runpod/handler/main.py` and its code disagree, the model
follows the code. The comments concerned are the module docstring (main.py:1-23), the
`'video' | 'audio'` comment on the media type (main.py:48), the comment after the preview step
(main.py:742) and the cap comment on the error field (main.py:823):

- The loudness pass ("Two-pass loudness analysis" in the docstring) can fail the job. Its 300-second timeout is not caught. A decoded block whose
  value `float()` rejects with a `TypeError` also escapes the `except (JSONDecodeError, ValueError)`.
  A non-zero exit status never fails the job, because that run does not use `check=True`.
- The measured loudness is never applied. Every rendition uses the fixed filter
  `loudnorm=I=-16:TP=-1.5:LRA=11`, and the job does not depend on the measurement
  (`Scenarios.LoudnessIgnored`).
- The error cap is 2000 characters, not the 2KB its comment says. The return value carries the whole message.
- The HLS directory is uploaded before the preview is encoded into it, although the comment after
  the preview step says it was uploaded above, and the docstring puts all uploads in step 9. The preview playlist is
  therefore never uploaded, although `hlsPreviewKey` is reported for every completed video
  (`Properties.PreviewNeverUploaded`).
- The payload look-ups and both storage clients are evaluated before the scratch directory and the
  `try` block. A missing field or a client error there escapes with no webhook at all.
- A job without `webhookUrl` or `webhookSecret` posts nothing.
  - The missing key raises a `KeyError` inside the `try` block, so a completed job then returns an error.
  - It makes no post at all, not even the failed one.
- The media type is any string, not only the `'video'` or `'audio'` its comment names:
  - `"video"` selects the mezzanine, the video ladder, the preview and the thumbnail;
  - every other type gets the audio ladder;
  - only `"audio"` gets the waveform.
- The mezzanine is always `mezzanine.mp4`.

## Model

| member | source | states |
|---|---|---|
| Text.ParseDigits | infrastructure/runpod/handler/main.py:416 | `int(str(n)) == n` for every natural: the decimal text written into the playlist reads back as the number |
| Text.DigitsInjective | infrastructure/runpod/handler/main.py:416-417 | distinct numbers are written as distinct decimal texts |
| Text.Contains | infrastructure/runpod/handler/main.py:212 | `sub in s` holds exactly when `sub` occurs at some index of `s` |
| Text.RFind | infrastructure/runpod/handler/main.py:290-291 | the result is -1 or an index holding the character, and no later index holds it |
| Text.Prefix | infrastructure/runpod/handler/main.py:823 | `s[:n]` is a prefix of `s` of length `min(n, len(s))` |
| Text.IndexOf | infrastructure/runpod/handler/main.py:417 | a read-back helper, not a step of the handler: the first index holding the character, or the length when there is none; it splits the `WxH` text built here at its `x` in `Ladder.ResolutionReads` |
| Text.LinesOfJoin | infrastructure/runpod/handler/main.py:412-421 | a file written one newline-free line per `write(line + "\n")` reads back as the same lines |
| Ladder.TablesValid | infrastructure/runpod/handler/main.py:87-98 | every bitrate of both tables is decimal digits followed by `k`, so `int(b[:-1])` never raises |
| Ladder.Bufsize | infrastructure/runpod/handler/main.py:352 | for a valid bitrate, `-bufsize` is again a valid bitrate declaring twice its kbps |
| Ladder.KeptMembers | infrastructure/runpod/handler/main.py:317-323 | a rung is encoded if and only if it is in the table and not taller than a truthy source height |
| Ladder.NoHeightKeepsAll | infrastructure/runpod/handler/main.py:319 | a source height of `None` or `0` keeps every rung, in table order |
| Ladder.VideoLadderByHeight | infrastructure/runpod/handler/main.py:87-92 | for each source height, the exact suffix of the 1080p/720p/480p/360p ladder that is encoded |
| Ladder.Bandwidth | infrastructure/runpod/handler/main.py:416 | `BANDWIDTH` is decimal text whose value is the declared kbps times 1000 |
| Ladder.ResolutionReads | infrastructure/runpod/handler/main.py:417 | split at its `x`, `RESOLUTION` gives the rung height and the 16:9 width rounded down |
| Ladder.Resolution480 | infrastructure/runpod/handler/main.py:417 | the 480p rung announces `853x480` |
| Ladder.VideoMasterShape | infrastructure/runpod/handler/main.py:411-421 | the video master is the two header tags, then for each encoded rung in order its stream-info line and `<name>/index.m3u8` |
| Ladder.AudioMasterShape | infrastructure/runpod/handler/main.py:468-475 | the same layout for the audio master, with stream-info lines that carry no resolution |
| Media.FirstVideo | infrastructure/runpod/handler/main.py:194-198 | the index of the first stream whose codec type is video, or none when no stream is video |
| Media.GetMediaInfo | infrastructure/runpod/handler/main.py:188-200 | the duration defaults to 0; width and height are those of the first video stream, or `None` when there is none |
| Media.LaterStreamsIgnored | infrastructure/runpod/handler/main.py:194-198 | streams after the first video stream never change the media info |
| Media.TenthTruncated | infrastructure/runpod/handler/main.py:490 | `int(d * 0.1)` is the tenth of `d` truncated toward zero, for both signs |
| Media.PreviewWindow | infrastructure/runpod/handler/main.py:489-491 | for every positive duration the clip starts at the 10 % mark, is 1 to 30 s long, ends inside the source, and is 30 s exactly when the source is at least 33 s |
| Media.ThumbnailWithinSource | infrastructure/runpod/handler/main.py:567 | for every positive duration the thumbnail is taken between second 1 and the end, at the 10 % mark from 10 s on |
| Media.GpuAvailable | infrastructure/runpod/handler/main.py:203-214 | a GPU is used exactly when the encoder listing was obtained and contains `h264_nvenc` |
| Media.LoudnessBlock | infrastructure/runpod/handler/main.py:289-292 | a block exists exactly when the last `}` follows the last `{`; it is the text between them inclusive and contains no other `{` |
| Media.AnalyzeLoudness | infrastructure/runpod/handler/main.py:284-302 | defaults `(-16, -1, 7)` with no block or an undecodable one; decoded fields with a separate default for each missing field; an error only for an exception the handler does not catch |
| Storage.Exclusive | infrastructure/runpod/handler/main.py:153-162 | no file name ends with two of the listed suffixes unless one suffix ends the other |
| Storage.ContentTypeBySuffix | infrastructure/runpod/handler/main.py:151-162 | a name with a listed suffix gets that suffix's type whatever the order of the tests; a name with none gets no content type |
| Storage.UploadPlan | infrastructure/runpod/handler/main.py:145-164 | one upload per file in walk order; its key is the prefix followed by the file's relative path, and its content type comes from the file name |
| Payload.ReadyVariantsByHeight | infrastructure/runpod/handler/main.py:317-323 | the reported rendition names for every source height: all four for an unknown or `0` height or one of at least 1080, then `720p` down for 720-1079, `480p` down for 480-719, `360p` for 360-479 and none below 360; `["128k", "64k"]` for any other media type |
| Payload.ReadyVariantsNames | infrastructure/runpod/handler/main.py:317-323 | for video, a rung's name is reported exactly when the source height does not rule the rung out |
| Payload.CompletedResult | infrastructure/runpod/handler/main.py:783-798 | the completed payload: it has the master key; the mezzanine and preview keys are set exactly for video; the thumbnail key is set exactly for a video with a positive duration; the waveform keys are set exactly for audio, and never together with a thumbnail; it carries the probed info and the ready variants, and no error. |
| Payload.CapError | infrastructure/runpod/handler/main.py:823 | the capped error is a prefix of the message of at most 2000 characters, and is the whole message exactly when the message fits; a longer message is cut to exactly its first 2000 characters |
| Payload.FailedResult | infrastructure/runpod/handler/main.py:810-824 | the failed payload has every artifact and media field null, no variants, and the capped message: the whole message when it fits, otherwise exactly its first 2000 characters |
| Effects.FirstFail | infrastructure/runpod/handler/main.py:406 | every call before the index succeeds and the call at the index, if any, fails |
| Effects.FirstFailIs | infrastructure/runpod/handler/main.py:406 | that index is the unique one with this property |
| Pipeline.FirstMissing | infrastructure/runpod/handler/main.py:665-682 | the first key, in evaluation order, that the payload lacks; none exactly when every key is present |
| Pipeline.Prelude | infrastructure/runpod/handler/main.py:663-682 | the steps before the `try` block succeed exactly when every field read there is present and both clients are created; the first missing field of the first group raises its `KeyError` |
| Pipeline.ToolRunIsFirstFailure | infrastructure/runpod/handler/main.py:317-408 | running tools in turn: logs each tool up to and including the first that fails, and raises its failure; when none fails, completes after running them all. |
| Pipeline.UploadRunIsFirstFailure | infrastructure/runpod/handler/main.py:145-164 | uploading in turn sends each request up to and including the first that fails, and raises its failure |
| Pipeline.ChainIsFirstFailure | infrastructure/runpod/handler/main.py:691-805 | the stages of the `try` block: log everything up to and including the first stage that raises, and end with its exception; skip every later stage. |
| Pipeline.ToolRunFirstFailureSnoc | infrastructure/runpod/handler/main.py:406-408 | the first-failure shape of a tool run carries over to one more tool |
| Pipeline.UploadRunFirstFailureSnoc | infrastructure/runpod/handler/main.py:145-164 | the first-failure shape of an upload run carries over to one more file |
| Properties.KeysOutsideHls | infrastructure/runpod/handler/main.py:704-767 | the mezzanine, thumbnail and waveform keys never collide with the preview playlist key |
| Properties.LadderDirs | infrastructure/runpod/handler/main.py:325 | every rendition directory name starts with a digit, so no rendition writes under `preview/` |
| Properties.TreeAvoidsPreview | infrastructure/runpod/handler/main.py:723-733 | no file of the HLS tree at upload time has the preview playlist's relative path |
| Properties.PreviewNeverUploaded | infrastructure/runpod/handler/main.py:731-742 | the try block only downloads, runs tools and uploads, and never uploads the preview playlist it reports |
| Properties.ChainKeeps | infrastructure/runpod/handler/main.py:691-781 | whatever holds of every event of every stage holds of every event of the try block |
| Properties.DispatchByMediaType | infrastructure/runpod/handler/main.py:706-781 | every action of the try block suits the media type and the probed duration: the archive receives only the video mezzanine; the mezzanine and the video renditions run only for video; the preview and the thumbnail only for a video with a positive duration; the audio ladder only for other types, and the waveform tools only for audio; delivery uploads go to the job's R2 bucket. |
| Properties.VideoRenditionCommands | infrastructure/runpod/handler/main.py:317-404 | every video encode is the command of a kept rung of the table: its height, its video and audio bitrates, `-maxrate` equal to the video bitrate, `-bufsize` twice it in kbps, the fixed loudnorm filter and the chosen encoder |
| Properties.RenditionsUseFixedLoudnorm | infrastructure/runpod/handler/main.py:357-358 | every rendition encode is a rendition tool whose audio filter is the fixed loudnorm setting |
| Handler.ToolRunStops | infrastructure/runpod/handler/main.py:406 | once a run fails within the first `n` tools, the later tools never run |
| Handler.ToolRunFailsAt | infrastructure/runpod/handler/main.py:406 | a run stopped by tool `n` logs the earlier runs and then that one |
| Handler.UploadRunStops | infrastructure/runpod/handler/main.py:164 | once an upload fails, no later file is sent |
| Handler.KeptStep | infrastructure/runpod/handler/main.py:319-323 | one more rung of the table adds that rung to the kept list exactly when it is not skipped |
| Handler.LadderFailsAt | infrastructure/runpod/handler/main.py:406 | when the encode of a kept rung fails, the ladder run ends with it and only the earlier encodes completed |
| Handler.VideoLadderIs | infrastructure/runpod/handler/main.py:726-727 | the video branch of the ladder: its encodes, its tree, its ready names and its master text |
| Handler.AudioLadderFor | infrastructure/runpod/handler/main.py:728-729 | every media type except video takes the audio branch |
| Handler.AudioLadderIs | infrastructure/runpod/handler/main.py:728-729 | the audio branch of the ladder: its encodes, its tree, its ready names and its master text |
| Handler.VideoToolsPrefix | infrastructure/runpod/handler/main.py:317-408 | the rungs kept from the first `i` rungs are encoded first; a kept rung `i` is encoded next |
| Handler.ChainInParts | infrastructure/runpod/handler/main.py:691-781 | the try block is the source stages, the HLS stages and the extra stages, run in turn |
| Handler.TryBlockInParts | infrastructure/runpod/handler/main.py:691-798 | grouping the HLS and extra stages together after the source stages leaves the try block's log and its payload or raised message unchanged |
| Handler.FindMediaInfo | infrastructure/runpod/handler/main.py:188-200 | the loop with `break` computes `get_media_info` |
| Handler.WriteVideoMaster | infrastructure/runpod/handler/main.py:411-421 | the text written line by line is the video master playlist |
| Handler.WriteAudioMaster | infrastructure/runpod/handler/main.py:468-475 | the text written line by line is the audio master playlist |
| Handler.Worker.constructor | infrastructure/runpod/handler/main.py:661 | a call starts with nothing done and an empty HLS directory |
| Handler.Worker.Execute | infrastructure/runpod/handler/main.py:406 | a tool run is logged and answered by the oracle; a successful encode into the HLS directory adds its files, a failed one adds none (see "Left out") |
| Handler.Worker.ExecuteNext | infrastructure/runpod/handler/main.py:406-408 | one more encode extends the log and the tree as running the longer list from the start would |
| Handler.Worker.DownloadFile | infrastructure/runpod/handler/main.py:124-127 | one logged download from the delivery store |
| Handler.Worker.SaveMaster | infrastructure/runpod/handler/main.py:411-412 | `master.m3u8` now holds the text and is the newest file of the tree |
| Handler.Worker.UploadFile | infrastructure/runpod/handler/main.py:130-140 | one logged upload with its optional content type |
| Handler.Worker.UploadDirectory | infrastructure/runpod/handler/main.py:143-164 | every file of the tree as it stands is uploaded under the prefix with its content type; the first failing upload raises |
| Handler.Worker.EncodeRung | infrastructure/runpod/handler/main.py:317-408 | one turn of the video loop: skip or encode one rung; success extends the invariant, failure completes the whole ladder run |
| Handler.Worker.EncodeVideoLadder | infrastructure/runpod/handler/main.py:314-408 | the video loop logs and raises as the first-failure run of the kept rungs; the HLS tree holds the outputs of the encodes that succeeded, and none of the failed one; on success the ready names are the kept rungs' names. |
| Handler.Worker.TranscodeVideoHls | infrastructure/runpod/handler/main.py:305-423 | `transcode_video_hls`: the ladder run, the ready names, and `master.m3u8` listing the kept rungs |
| Handler.Worker.EncodeAudioRung | infrastructure/runpod/handler/main.py:433-465 | one turn of the audio loop, as for video |
| Handler.Worker.EncodeAudioLadder | infrastructure/runpod/handler/main.py:430-465 | the audio loop encodes both rungs in turn, stopping at the first failure |
| Handler.Worker.TranscodeAudioHls | infrastructure/runpod/handler/main.py:426-477 | `transcode_audio_hls`: the ladder run, `["128k", "64k"]` and the audio master |
| Handler.Worker.CheckGpu | infrastructure/runpod/handler/main.py:203-214 | lists the encoders once and returns whether the listing names h264_nvenc |
| Handler.Worker.ProbeMedia | infrastructure/runpod/handler/main.py:697-699 | the probe run and, on success, the media info of its output |
| Handler.Worker.ArchiveMezzanine | infrastructure/runpod/handler/main.py:702-716 | for video only, the mezzanine encode and then its upload to the archive bucket |
| Handler.Worker.MeasureLoudness | infrastructure/runpod/handler/main.py:718-720 | the loudness pass, whose measured values are returned but unused |
| Handler.Worker.BuildLadder | infrastructure/runpod/handler/main.py:722-729 | the ladder for the media type; on success the ready names, the HLS tree and `master.m3u8`; on failure the outputs of the encodes that succeeded and none of the failed one, with `master.m3u8` untouched |
| Handler.Worker.CreatePreview | infrastructure/runpod/handler/main.py:739-742 | for a video with a positive duration, the preview encode over the computed window, whose files join the HLS directory only when it succeeds |
| Handler.Worker.PublishThumbnail | infrastructure/runpod/handler/main.py:744-756 | for a video with a positive duration, the thumbnail extraction and then its upload |
| Handler.Worker.GenerateWaveform | infrastructure/runpod/handler/main.py:586-618 | waveform data, then the image; the first failure raises |
| Handler.Worker.PublishWaveform | infrastructure/runpod/handler/main.py:758-781 | for audio only, the waveform tools and both uploads with their content types |
| Handler.Worker.PostWebhook | infrastructure/runpod/handler/main.py:635-653 | looks up the URL and secret, then posts the serialised payload with its signature |
| Handler.Worker.PrepareSource | infrastructure/runpod/handler/main.py:692-720 | steps 1 to 4; on success the bucket was present and the probed info is returned |
| Handler.Worker.PublishHls | infrastructure/runpod/handler/main.py:722-737 | the ladder into the fresh HLS directory, then its upload; the directory then holds every rendition and `master.m3u8`, or, after a failed encode, the renditions that succeeded and none of the failed one |
| Handler.Worker.PublishExtras | infrastructure/runpod/handler/main.py:739-781 | steps 6 to 8, of which only the preview writes into the HLS directory |
| Handler.Worker.PublishOutputs | infrastructure/runpod/handler/main.py:722-781 | steps 5 to 8 in turn on a fresh work directory; when none raises, the ready names are the ladder's and the directory holds the renditions, `master.m3u8` and the preview clip |
| Handler.Worker.Transcode | infrastructure/runpod/handler/main.py:691-798 | the try block, grouped as source stages then outputs: its log, and the completed payload or the first raised message; a completed block leaves the renditions, `master.m3u8` and the preview in the work directory |
| Handler.Worker.MakeWorkDir | infrastructure/runpod/handler/main.py:689 | a fresh, empty work directory |
| Handler.Worker.RemoveWorkDir | infrastructure/runpod/handler/main.py:833-835 | the work directory is removed |
| Handler.Worker.Notify | infrastructure/runpod/handler/main.py:800-831 | the webhook posts after the try block, and the value returned |
| Handler.Worker.Handle | infrastructure/runpod/handler/main.py:661-835 | the whole call logs and returns exactly what `Pipeline.Handled` describes |
| Lifecycle.SendWebhookPosts | infrastructure/runpod/handler/main.py:635-653 | a post happens exactly when URL and secret are present; the posted body is the serialised payload, signed under the job's secret |
| Lifecycle.NoticesSigned | infrastructure/runpod/handler/main.py:639-650 | every event of the webhook phase is a signed post to the job's URL |
| Lifecycle.Bracketed | infrastructure/runpod/handler/main.py:661-835 | a failure before `mkdtemp` escapes with nothing done. Otherwise: the handler never raises; the work directory is created once, second only to the encoder listing, and removed once, as the last action; every post follows all downloads, tool runs and uploads, and is signed. |
| Lifecycle.NoticesAgree | infrastructure/runpod/handler/main.py:800-831 | for any outcome of the try block: at most two posts; none exactly when the webhook is not configured; success exactly when the single post is the completed one; an error otherwise, whose last post is the capped failure; a raising try block makes exactly one post, the failed payload, when the webhook is configured; a completed block whose post fails makes two, the completed payload and then the failed one; a try-block failure is returned in full. |
| Lifecycle.WebhookAgreesWithReturn | infrastructure/runpod/handler/main.py:800-831 | the same agreement between posts and return value, for a whole handled job, including the single failed post of a raising try block and the completed-then-failed pair when the completed post fails |
| Lifecycle.CompletedPayload | infrastructure/runpod/handler/main.py:783-798 | a try block that completes yields the payload built from the probed media |
| Scenarios.AllStagesRun | infrastructure/runpod/handler/main.py:691-798 | when every external call succeeds, every stage runs and the completed payload results |
| Scenarios.HappyPath | infrastructure/runpod/tests/unit/test_handler.py:103-172 | with everything succeeding, the handler returns success after posting exactly the completed payload |
| Scenarios.OutsideTry | infrastructure/runpod/handler/main.py:661-835 | outside the try block the handler only lists encoders, manages the directory and posts |
| Scenarios.VideoJobEvents | infrastructure/runpod/tests/unit/test_handler.py:116-148 | the 100 s 1080p video runs the 10 s + 30 s preview, the thumbnail at 10 s and the mezzanine |
| Scenarios.VideoJob | infrastructure/runpod/tests/unit/test_handler.py:103-172 | that video: success, and one completed post with all four rungs ready, its size and duration, and the thumbnail and mezzanine keys |
| Scenarios.AudioJob | infrastructure/runpod/tests/unit/test_handler.py:175-221 | the audio job: the waveform is generated; no mezzanine is made or archived; success, with the whole audio ladder reported and no mezzanine key. |
| Scenarios.DownloadFails | infrastructure/runpod/tests/unit/test_handler.py:224-246 | a download failure attempts nothing else, returns the message, and posts one failed payload carrying it |
| Scenarios.EncodeTimesOut | infrastructure/runpod/tests/unit/test_handler.py:249-278 | when every encode times out, the video job stops at the mezzanine, returns the timeout message and posts one failed payload |
| Scenarios.ShortLowVideo | infrastructure/runpod/handler/main.py:317-323 | a 5 s 240p video: no rung, a master of only its header, the whole source as preview, the thumbnail at 1 s |
| Scenarios.LoudnessIgnored | infrastructure/runpod/handler/main.py:718-720 | two environments differing only in what loudness analysis measures run the same try block to the same result |

## Left out

- The ffmpeg, ffprobe and audiowaveform command lines. They are kept only as far as the handler
  decides them:
  - the GPU flag;
  - the rung height and bitrates, `-maxrate` and `-bufsize`;
  - the loudnorm filter;
  - the preview window and the thumbnail time.

  The segment length, codecs, presets and the files each run writes are oracles. `Env.produced`
  names the files a successful run writes.
- The partial output of a failed run. The source creates the rendition directory before the encode
  (main.py:325-326), and ffmpeg writes segments until it fails or times out. The model adds no file
  for a failed run, so `Handler.Worker.Execute`, `Handler.Worker.EncodeVideoLadder`,
  `Handler.Worker.BuildLadder` and `Handler.Worker.PublishHls` describe a directory without them.
  Nothing is uploaded after a failure, and the `finally` clause deletes the directory, so no
  upload, post or return value depends on those files.
- Timeouts are not modelled as time. A timed-out run is a failure like any other exception.
- boto3, the HTTP client, `json.dumps`, `json.loads` of the probe output and the HMAC-SHA256 signature
  are oracles. The model states only that the signature is computed over the same body that is posted.
- `float` parsing: the probe duration is taken as an integer already truncated, and the loudness
  values are opaque reals. The float product in `int(d * 0.1)` is modelled as exact truncation of
  `d / 10`, and `int(h * 16 / 9)` as `(16 * h) / 9`.
- `os.walk` order: the HLS directory is a sequence of files in the order they were written, and
  `upload_directory` uploads them in that order. `os.walk` yields the top directory's
  `master.m3u8` before the rendition subdirectories, whose order it leaves unspecified; the model
  uploads `master.m3u8` last. When several uploads would fail, the model can therefore report a
  different file's error than the source does.
- `os.path.splitext` of the input key and the local file paths. The download is modelled by
  bucket and key.
- The job's `{"input": ...}` wrapper. The model takes the inner payload, a map of string fields.
- `runpod.serverless.start`, `print` logging, and `os.makedirs`.
- A failing `tempfile.mkdtemp`. The model assumes the directory is created.
- The scripts `infrastructure/runpod/scripts/setup_endpoint.py` and `update_runpod_endpoint.py`, the
  local worker test and the integration test are not part of this model.
- Ladder.Bufsize: a malformed bitrate, for which the source would raise, is mapped to the empty
  string. Only the constant tables reach it, and their bitrates are all valid (`Ladder.TablesValid`).
- Handler.Worker.EncodeVideoLadder: takes the rung table as a parameter. The handler always
  passes `HLS_VARIANTS`.
- Handler.Worker.CheckGpu: the `try/except` around `ffmpeg -encoders` is the oracle
  `Env.encoderListing`, and `None` stands for any failure.
- Handler.Worker.Transcode: leaves the work directory after a failed stage unstated. The
  `finally` clause deletes it, and `Handler.Worker.Handle` states that it ends empty.
