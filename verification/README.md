# Verified model of the HLS transcode pipeline

A Dafny 4.11 model of an HLS streaming back end: the API server's handlers, the workers that transcode and upload,
the Redis streams between them, the S3 key space, the playlists players read, and the rate limiter, DRM key store,
token rotation and start-up reprocessing around them. `dafny verify dfyconfig.toml` checks everything.

## How it is built

* **Handlers and workers as steps.** `PipelineState` gives each API operation and worker action its effect on five
  pieces of state: videos (with their variant and thumbnail rows), tasks, messages, objects, DRM keys.
  `PipelineSteps` makes them one step system, in any order, with any number of workers. The invariants in
  `TaskInvariant`, `VideoInvariant`, `FileInvariant`, `DrmInvariant` and `BucketLayout` hold over all its runs.
* **The handlers as written.** `Service.Api` has the same operations as methods that read rows, change fields and save
  them, with the source's loops and branches. Each method's new state equals the effect the step system uses, so what
  is proved over runs is about these methods. `MasterEntries`, `StartEffects`, `CompletionEffects`, `KeyUrls`,
  `Lifecycle` and `AuthLogins` say what those effects are in terms of the rows, objects and texts they leave.
  `RateLimit.RateLimiter`, `RedisStreams.Consumer`, `StreamRuns.Worker`, `Auth.AuthService`, `Bucket.S3Bucket`,
  `Segments.WorkDir` and `Thumbnails.ThumbnailJob` are further classes of this kind.
* **Interleaved completions.** `MissedBuild`, `MasterRace` and `StaleMaster` drop the assumption that a handler runs alone and
  interleave concurrent completions at every database and bucket operation.
* **Runs that fail.** Where a property has an exact condition, `FailingRuns`, `StaleMaster` and
  `StreamRuns.OneReadLosesAProbe` give runs from the initial state that end in the failure.
* **Text.** Playlists are strings. `MasterParser` is a reader written from sections 4.2 and 4.3.4.2 of RFC 8216,
  independent of the printer it is proved against.

## Results that differ from what a reader may expect

* An interval of one window admits at most `2*max(rate,1) - 1` requests of one address, and that many can happen
  (`RateLimit.IntervalBound`, `RateLimit.BoundIsReached`).
* When completions race, a ready variant can be missing from the master: a stale listing uploaded last wins
  (`StaleMaster.StaleUploadLosesAVariant`). For every schedule, the master lists all ready variants if and only if no
  row changes after the listing that is uploaded last, which for calls with a row each means that every call had saved
  its row by then (`MasterRace.CompleteIff`).
* The playlist rewriter renames `.m4s` lines, but the rename step leaves `.m4s` files alone
  (`SegmentClosure.RewriteAgreesIff`). The worker's fixed segment pattern ends in `.ts` (internal/worker/worker.go:211,
  290), so its own playlists have no such line.
* Rewriting twice is rewriting once exactly for extensions that are `.ts` or `.m4s` themselves, or that neither end in
  one of them nor end one of them (`RewriteProperties.IdempotentIffStable`).
* Thumbnail timestamps are right exactly up to 999 thumbnails: the thousandth name sorts before the hundred and first
  (`ThumbnailAgreement.ThumbnailsAgreeIff`).
* One queue read can move several messages to the pending list and return one. The others are never delivered again,
  because nothing calls `ClaimPending` (`StreamRuns.ReadStrandsNothingIff`,
  `StreamRuns.OneReadLosesAProbe`).
* Removing one variant deletes the files of every codec of that resolution, and a report that arrives after its files
  were deleted can publish a playlist that does not exist (exact conditions in `DanglingPlaylists.RemovalBacksIff` and
  `DanglingPlaylists.LateReportBacksIff`, runs in `FailingRuns.RemovedCodecDangles` and `FailingRuns.LateReportDangles`).
* A master rebuilt while the video row has no master key is not recorded, and a later removal of all variants leaves it
  in the bucket (`Lifecycle.WithdrawalLeaves`, run in `FailingRuns.UnrecordedMasterIsReached`).
* An old key URL that is neither empty nor of the ClearKey endpoint is kept even if it names another key, and every
  later task carries it (`KeyUrls.OldUrlFitsIff`).
* Disabling an account stops logins but not token rotation (`AuthRuns.AcceptedIff`).
* Editing the DRM flag of a video directly keeps flag and keys consistent exactly when it changes nothing
  (`DrmInvariant.FlagEditKeepsIff`).
* The repository's own documentation speaks of Shaka Packager and ClearKey; the code encrypts with FFmpeg's AES-128 and serves the
  raw key, and the model follows the code. Failing or cancelling a task never builds the master or moves the video to
  error, and a cancelled task whose message is still being processed ends failed or completed.

## Model

| member | source | states |
|---|---|---|
| TaskInvariant.TasksAndMessagesAgree | internal/service/transcode_service.go:131-167 | In every reachable state, with any number of workers: a queued task has exactly one message still to be reported, a completed or failed one none, a cancelled one at most one, and messages published equal attempts + 1 |
| TaskInvariant.StepKeepsTasks | internal/repository/task_repo.go:57-82 | Each API call and worker action keeps that count for every task |
| TaskInvariant.KeptByRetry | internal/service/transcode_service.go:647-670 | A retry happens only from failed, when no message is outstanding; it adds one attempt and one outstanding message and keeps the count, and any other retry changes nothing |
| TaskInvariant.KeptByReport | internal/worker/worker.go:80-100 | Reporting a delivered message settles its task and takes it off the outstanding count, even if the task was cancelled meanwhile |
| VideoInvariant.ReadyVideosHaveTheirMaster | internal/service/transcode_service.go:417-467 | In every reachable state a recorded master key means the object exists and the video is ready, processing or in error; a ready video has one, and its master lists at least one variant and only ready ones |
| VideoInvariant.StepKeepsVideos | internal/service/transcode_service.go:470-600 | Each step keeps that for every video |
| VideoInvariant.RemovalListsAllReady | internal/service/transcode_service.go:501-557 | After any run, removing a variant drops its first row and leaves the video ready exactly if it was and a ready variant remains, with a master that lists exactly the remaining ready variants |
| MasterEntries.ReportPublishes | internal/service/transcode_service.go:389-467 | After any run, a transcode report makes the first processing row of its resolution ready; while another task of the video is unsettled nothing else happens, without a ready row the video is in error, and otherwise it is ready and its stored master, read by RFC 8216, has one entry for each ready row, in row order, with the row's name, width, height and 1000 times its bitrate and a URI that resolves to the row's playlist key, if and only if the ready names fit a quoted string |
| MasterEntries.RemovalPublishes | internal/service/transcode_service.go:501-557 | After any run, removing a variant takes the first row of that resolution; whenever a ready row remains, the stored master has exactly those entries for the remaining ready rows |
| Lifecycle.LastReportPublishes | internal/service/transcode_service.go:277-298 | The completion of a video's last outstanding task makes it ready with a master that lists exactly the ready variants, the reported one among them |
| Lifecycle.WithdrawalLeaves | internal/service/transcode_service.go:470-498 | Removing all variants, switching DRM and uploading again leave no variant row, no variant object and no master key, make a video that had output uploaded, and change nothing else of it but the flag that is switched or the original and thumbnails of a new upload; the master object goes exactly when it was recorded, and no other video or object changes |
| Lifecycle.UploadLeaves | internal/service/upload_service.go:83-137 | Completing an upload, the first one or another, stores the object, deletes an original under another key, makes the video uploaded and queues a probe; only a video that had output loses rows, thumbnails and objects |
| Lifecycle.CreationLeaves | internal/service/video_service.go:31-47 | A new video is a draft without output or DRM whose original is expected at videos/<uuid>/original/video.mp4 |
| Lifecycle.UnrecordedMasterStays | internal/service/transcode_service.go:537-556 | For any video with one finished and one processing variant and no recorded master, removing the processing one and then all leaves a master object behind |
| FailingRuns.UnrecordedMasterIsReached | internal/service/transcode_service.go:537-556 | A legal run from the empty state ends with no variant row and no recorded master, and a master object in the bucket |
| FailingRuns.RemovedCodecDangles | internal/service/transcode_service.go:513-516 | A legal run from the empty state: two codecs of one resolution finish, one is removed, and the ready video's master has an entry that names no object |
| FailingRuns.LateReportDangles | internal/service/transcode_service.go:389-415 | A legal run from the empty state: variants are deleted under a running transcode, a second one is started and cancelled, the first reports, and the ready video's master has an entry that names no object |
| FileInvariant.NoDanglingPlaylists | internal/service/transcode_service.go:404-466 | Over every run with one codec per resolution that deletes, switches DRM and uploads again only between transcodes: parsing the stored master of a ready video gives at least one entry, and every entry's URI names an existing object |
| FileInvariant.StepKeepsFiles | internal/worker/worker.go:238-252 | Each such step keeps every ready row, and every upload not yet reported, backed by its playlist object |
| DanglingPlaylists.RemovalBacksIff | internal/service/transcode_service.go:501-557 | After removing one row of a resolution the ready rows are backed if and only if no other ready row, of another codec, has that resolution |
| DanglingPlaylists.LateReportBacksIff | internal/service/transcode_service.go:389-415 | After any transcode report the ready rows are backed if and only if no row awaits it or its playlist object still exists |
| MissedBuild.SomeCallBuilds | internal/service/transcode_service.go:277-298 | However concurrent completions of a video's last transcode tasks interleave at single database operations, and whether or not an earlier transcode left a master, some call sees zero pending and the video ends ready, with its master key and a master of ready variants |
| MissedBuild.OperateKeepsCalls | internal/repository/task_repo.go:95-101 | Each database or bucket operation of each call keeps the invariant behind that |
| MasterRace.CompleteIff | internal/service/transcode_service.go:389-467 | For every schedule that finishes all calls, the master lists exactly the ready variants if and only if no row changed after the listing that was uploaded last; when each call has a row of its own, if and only if every call had saved its row at that listing |
| MasterRace.SingleBuilderListsAll | internal/service/transcode_service.go:417-467 | When only one of the interleaved calls sees zero pending, the master lists exactly the ready variants, every reported resolution among them |
| StaleMaster.StaleUploadLosesAVariant | internal/service/transcode_service.go:423-462 | For any two variants there is an interleaving after which both are ready and the master lists one |
| VariantRows.CreateOrUpdateRows | internal/repository/video_repo.go:189-192 | The upsert assigns the non-zero fields to the row of that resolution and codec, and appends a row when there is none |
| VariantRows.MarkReadyRows | internal/service/transcode_service.go:403-411 | Exactly the first processing row of the resolution becomes ready, and nothing changes when there is none |
| StartEffects.StartLeaves | internal/service/transcode_service.go:55-173 | Starting distinct resolutions leaves for each a queued task, its message and a processing row of the codec asked for, h264 by default; tasks carry a key exactly if DRM is on, a row is protected if DRM is on or it was, non-zero numbers overwrite; rows of other resolutions or codecs and all other tasks, videos and objects stay |
| StartEffects.ThumbnailTaskLeaves | internal/service/transcode_service.go:672-676 | Asking for thumbnails queues one task with that count and width and the height of a 16:9 frame rounded toward zero, and changes no row |
| CompletionEffects.ProbeReport | internal/service/transcode_service.go:300-347 | A probe report puts each positive field into its own metadata field, keeps the others, moves a draft to uploaded and changes nothing else |
| CompletionEffects.ThumbnailReport | internal/service/transcode_service.go:349-387 | A thumbnail report appends, behind the old rows, one row for each key with that key and position, the first marked default, with the task's width and height and its share of the duration |
| CompletionEffects.UnreadableReport | internal/service/transcode_service.go:300-366 | A result of another form completes the task and changes no video |
| CompletionEffects.ProbedThenExtracted | internal/service/transcode_service.go:300-387 | A video without thumbnails that is probed and then has frames extracted with that duration: after both reports every row names an object with the frame of its timestamp if and only if there are at most 999 |
| DrmInvariant.FlagMeansKey | internal/service/drm_service.go:24-82 | Over every run without a direct flag edit, from any consistent store: a video has DRM if and only if it has a key row, at most one, and its protected variants have one |
| DrmInvariant.StepKeepsDrm | internal/service/transcode_service.go:561-600 | Each step keeps flag, keys, variants and the key material inside tasks consistent |
| DrmInvariant.FlagEditKeepsIff | internal/service/video_service.go:119-121 | Setting the flag directly keeps consistency if and only if it leaves the flag as it was |
| DrmInvariant.ServedKeyDecrypts | internal/handler/drm_handler.go:109-126 | Whatever the key endpoint serves for the key id in a task is the 16 bytes the worker encrypts with, under a 32-digit IV |
| DrmInvariant.RunKeepsKey | internal/service/drm_service.go:24-47 | Until the key of a video is deleted, every later state holds the same key id, content key and IV |
| KeyHandoff.NewTasksCarryTheKey | internal/service/transcode_service.go:115-127 | Until the key of a video is deleted, every transcode task started for it carries a key, with that same key id, content key and 32-digit IV |
| KeyHandoff.StartedWorkIsServed | internal/handler/drm_handler.go:109-126 | Until then the endpoint serves the key of every such task, and serves the 16 bytes its worker encrypts with |
| KeyUrls.FetchedUntilDeleted | internal/router/router.go:168 | From a start with DRM on, the one that creates the key included, and until that key is deleted: the last element of the key URL of every transcode started for the video is a key id for which the endpoint serves the 16 bytes its worker encrypts with |
| KeyUrls.FetchedUnlessDeleted | internal/handler/drm_handler.go:109-126 | In every later state, following the key URL of a protected transcode gives those bytes if and only if its key row still exists |
| KeyUrls.OldUrlFitsIff | internal/service/drm_service.go:28-34 | For a key row that was there before, a start hands out a URL that names the key if and only if the row's URL does, is empty or contains /clearkey/ |
| KeyUrls.EnsuredRow | internal/service/drm_service.go:24-70 | A new row holds the fresh material, an old one keeps key id and content key and gets a new IV if its own is not 32 digits; a created or replaced URL is the base, /api/v1/drm/key/ and the key id |
| KeyUrls.RegeneratedRow | internal/handler/drm_handler.go:73-90 | Regenerating leaves the video one row, with the fresh material, and every other row as it was |
| KeyUrls.DeletedKeyIsNotServed | internal/service/transcode_service.go:561-623 | After a step that deletes a video's key its id is served no more, and other videos' keys stay |
| DrmKeys.PaddedIV | internal/service/transcode_service.go:117-127 | Padding an IV of at most 32 hexadecimal digits gives 32 digits of the same value |
| DrmKeys.Pad | internal/service/transcode_service.go:119-122 | The padding loop computes that IV |
| DrmKeys.DecodeUndoesEncode | internal/service/drm_service.go:96-102 | Decoding an encoded key gives back its bytes |
| DrmKeys.DecodesIff | internal/handler/drm_handler.go:118-123 | A content key decodes if and only if it has an even number of hexadecimal digits |
| DrmKeys.ServedIsTheRow | internal/handler/drm_handler.go:109-126 | The key served for a row's key id is that row's content key |
| Service.Api.StartTranscode | internal/service/transcode_service.go:55-173 | Has exactly the step system's effect: keys ensured, status, and for each resolution in order a task, an upserted row and a message carrying the padded key; nothing for an unknown video |
| Service.Api.CompleteTask | internal/service/transcode_service.go:277-298 | Has exactly the step system's effect for each task type; fails only for an unknown task |
| Service.Api.HandleTranscodeResult | internal/service/transcode_service.go:389-415 | The loop over variants marks the first processing row of the resolution, then checks and builds |
| Service.Api.CheckAndBuildMasterPlaylist | internal/service/transcode_service.go:417-467 | Does nothing while tasks are pending, sets error without ready variants, otherwise uploads the master and records it |
| Service.Api.HandleProbeResult | internal/service/transcode_service.go:300-347 | Fills in the positive fields of a probe and moves a draft to uploaded |
| Service.Api.HandleThumbnailResult | internal/service/transcode_service.go:349-387 | Creates one row for each key with its timestamp, order and default mark |
| Service.Api.RetryTask | internal/service/transcode_service.go:647-670 | Requeues, counts and publishes a failed task and refuses any other |
| Service.Api.FailTask | internal/service/transcode_service.go:625-627 | Changes the status of that task and nothing else: no master is built |
| Service.Api.CancelTask | internal/service/transcode_service.go:633-635 | Changes the status of that task and nothing else |
| Service.Api.StartTask | internal/service/transcode_service.go:175-252 | A probe or thumbnail task is a row and a message, and changes no video |
| Service.Api.GenerateKeys | internal/service/drm_service.go:24-82 | Repairs and returns the existing row, or creates one and marks the video |
| Service.Api.RegenerateKeys | internal/handler/drm_handler.go:73-105 | Drops the video's rows and creates a new one |
| Service.Api.DeleteVariants | internal/service/transcode_service.go:470-498 | Has exactly the step system's effect on rows, objects and status |
| Service.Api.DeleteVariant | internal/service/transcode_service.go:501-557 | Has exactly the step system's effect, the rebuilt or deleted master included; fails for an unknown resolution |
| Service.Api.ToggleDRM | internal/service/transcode_service.go:561-600 | Has exactly the step system's effect; does nothing when the flag is already as asked |
| Service.Api.DeleteVideo | internal/service/transcode_service.go:603-623 | Removes the video's rows, tasks, keys and objects and nothing else |
| Service.Api.CompleteUpload | internal/service/upload_service.go:83-137 | Replaces the original, resets a video that had output, and makes it uploaded |
| Service.Api.ReprocessPendingResults | internal/service/transcode_service.go:681-711 | The two loops compute the replay of the completed probe and thumbnail tasks of the table |
| Service.Api.FindCompletedWithResult | internal/repository/task_repo.go:104-109 | Selects, in table order, the completed tasks of the kind that have a result |
| Reprocess.ReprocessTwice | internal/service/transcode_service.go:681-711 | For any completed tasks of any videos, reprocessing twice gives the same videos and thumbnails as once, and a video with thumbnails keeps exactly those |
| Reprocess.ReprocessRecovers | internal/service/transcode_service.go:681-711 | After reprocessing the task table a video has a duration, a width, thumbnails if and only if it had them before or one of its completed probe or thumbnail tasks reported them |
| Reprocess.ReprocessedByVideo | internal/service/transcode_service.go:300-387 | Each video's outcome depends on its own tasks only |
| Bucket.S3Bucket.DeletePrefix | internal/storage/s3.go:124-153 | For any page size the paging loop ends and removes exactly the objects whose key has the prefix |
| Bucket.S3Bucket.ListPage | internal/storage/s3.go:130-137 | A page is the first keys still outstanding in byte order, empty only when none is left |
| BucketLayout.DeletionsMatchTheBucket | internal/service/transcode_service.go:477-513 | Deleting the prefixes the handlers use removes exactly the objects of that resolution, of that video's variants or thumbnails, or of that video |
| BucketLayout.DeletedVideoIsGone | internal/service/transcode_service.go:603-623 | After any run, whatever it deletes under running transcodes, deleting a video leaves no object under its prefix, no row, task or key of it, and every object, row, task and key of other videos |
| Keys.VariantPrefixReaches | internal/service/transcode_service.go:513 | A resolution's prefix reaches a key if and only if it is a file of that resolution of that video |
| Keys.VideoPrefixReaches | internal/service/transcode_service.go:610 | A video's prefix reaches a key if and only if it belongs to that video |
| Keys.ResolutionsClash | internal/service/transcode_service.go:513 | For arbitrary names, one resolution's prefix reaches another's playlist if and only if they are equal or the first is a parent directory of the second |
| Keys.PathInjective | internal/worker/worker.go:466 | Distinct well-named keys are distinct objects |
| Keys.VariantUriResolves | internal/service/transcode_service.go:445-450 | The URI a master uses for a variant, resolved against the master's directory, is that variant's playlist key |
| Playlist.RewritePlaylist | pkg/hls/playlist.go:13-37 | The scanning loop prints every line, rewritten, and fails exactly on a line the scanner cannot hold |
| Playlist.GenerateMasterPlaylist | pkg/hls/playlist.go:40-55 | The loop prints the header and two lines for each variant |
| RewriteProperties.RewriteLineMeaning | pkg/hls/playlist.go:21-26 | The lines that change are exactly the URI lines ending in .ts or .m4s, whose ending is replaced: the segment test never stops one |
| RewriteProperties.RewriteKeepsLines | pkg/hls/playlist.go:13-37 | On LF or CRLF input the line count, every tag and every blank line are kept, line by line |
| RewriteProperties.IdempotentIffStable | pkg/hls/playlist.go:13-37 | Rewriting a line twice is rewriting it once, for every line, if and only if the new extension is stable: it is .ts or .m4s, or neither ends in the other |
| RewriteProperties.RewriteTwice | pkg/hls/playlist.go:13-37 | With a stable extension the rewrite of a rewritten text is that text |
| RewriteProperties.SingleDotIsStable | pkg/hls/playlist.go:22-25 | Every single-dot extension is stable |
| RewriteProperties.MasterPassesThrough | pkg/hls/playlist.go:13-55 | A generated master whose paths end in neither extension is its own rewrite |
| MasterParser.MasterRoundTrip | pkg/hls/playlist.go:40-55 | A reader of section 4.3.4.2 of RFC 8216 recovers exactly the printed variants, numbers included, if and only if every name can be quoted and every path is a URI line |
| MasterParser.AttributesBack | pkg/hls/playlist.go:46-49 | Any attribute list of quotable and bare values reads back by section 4.2 of RFC 8216 |
| Segments.WorkDir.RenameSegments | internal/worker/worker.go:410-445 | The loop renames in directory order and rewrites the playlist, failing exactly when it is missing or does not scan |
| Segments.WorkDir.UploadDirectory | internal/worker/worker.go:448-489 | Uploads every file under the prefix except the original and the key files |
| Segments.RenameAllMoves | internal/worker/worker.go:416-428 | Without clashes, and in any order of a listing without repeats, the in-place renames leave every file under its new name with its content and nothing else |
| SegmentClosure.UploadedPlaylistIsClosed | internal/worker/worker.go:410-489 | After rename and upload of a .ts transcode, in whatever order the directory is listed, every URI line of the uploaded playlist names an object under the same prefix holding the segment it named before; distinct segments stay distinct and other lines are as they were |
| SegmentClosure.RewriteAgreesIff | internal/worker/worker.go:416-444 | When no name the rewriter gives clashes, rewritten playlist and renamed files agree if and only if the new extension is .m4s or no URI line ends in .m4s |
| Worker.HandleTranscode | internal/worker/worker.go:146-333 | A transcode is reported complete if and only if no progress report answered cancelled, the key decodes, FFmpeg succeeds and the playlist scans; its playlist is then in the bucket, and no key file ever is |
| Worker.WriteKeyFiles | internal/worker/worker.go:259-283 | Fails exactly if the key does not decode; otherwise the key file holds the decoded bytes and the key_info file the key URL, the key file's path and the IV, one a line |
| Worker.KeyInfoLines | internal/worker/worker.go:273-281 | Read line by line, the key_info file is the URL for the playlist, the key file and the IV |
| Worker.NothingSecretShips | internal/worker/worker.go:456-462 | No object a worker adds is the original or key material |
| Worker.ReportedKeyIsTheListedOne | internal/worker/worker.go:238-252 | The playlist key a worker reports is the one the master's entry resolves to |
| RedisStreams.Producer.InitStreams | internal/queue/producer.go:35-44 | Creates the missing streams and groups and leaves existing ones as they are |
| RedisStreams.Producer.Publish | internal/queue/producer.go:47-60 | Appends the task to the stream of its type |
| RedisStreams.PublishedIsRead | internal/queue/producer.go:62-75 | Each task type has a stream of its own, an unknown one goes with the transcodes, and every consumer reads all of them |
| RedisStreams.Consumer.ReadTask | internal/queue/consumer.go:27-66 | Delivers the first new entry of every stream that has one and returns the first that decodes |
| RedisStreams.Consumer.Ack | internal/queue/consumer.go:69-71 | Takes the entry off the pending list |
| RedisStreams.Consumer.ClaimPending | internal/queue/consumer.go:74-120 | Takes over exactly the entries among the first ten pending that are idle long enough and changes nothing else |
| RedisStreams.ClaimsAligned | internal/queue/consumer.go:103-116 | The two lists it returns are index-aligned and name, in order, exactly the claimed entries that decode |
| RedisStreams.ClaimTakes | internal/queue/consumer.go:74-102 | A claim gives a pending entry to the claiming consumer if and only if fewer than ten pend before it and it has been pending for the minimum time; every other entry stays with its consumer |
| StreamRuns.Worker.Run | internal/worker/worker.go:73-101 | The worker loop is the run of read, process and acknowledge events of one worker |
| StreamRuns.EntriesAreConserved | internal/queue/consumer.go:27-71 | After any history of any number of workers every published entry is in exactly one place: undelivered, pending with the worker processing it, pending with nobody, or acknowledged after being processed exactly once |
| StreamRuns.NextConserves | internal/worker/worker.go:80-100 | Each publish, read, acknowledgement and crash keeps that |
| StreamRuns.HappenExtends | internal/queue/producer.go:47-60 | No published entry disappears and no acknowledgement is undone |
| StreamRuns.ReadStrands | internal/queue/consumer.go:37-65 | A read strands exactly the entries it delivered other than the one it returned |
| StreamRuns.ReadStrandsNothingIff | internal/queue/consumer.go:37-65 | A read strands nothing if and only if no stream has a new entry, or one has and its first decodes |
| StreamRuns.StrandedForEver | internal/queue/consumer.go:74-120 | Without a claim, a stranded entry stays pending for ever and is never processed |
| StreamRuns.OneReadLosesAProbe | internal/queue/consumer.go:37-65 | Publish a transcode and a probe and let one worker read once: in every continuation the probe is pending and was never processed |
| StreamRuns.EmptyPollMeansDrained | internal/queue/consumer.go:37-65 | When all entries of a stream decode, a read that returns none leaves none undelivered there |
| Thumbnails.ThumbnailJob.ExtractThumbnails | pkg/ffmpeg/ffmpeg.go:154-181 | Refuses an empty job; otherwise the loop leaves one frame for each number, at its multiple of the interval, up to the first FFmpeg call that fails |
| Thumbnails.ThumbnailJob.UploadThumbnails | internal/worker/worker.go:380-400 | Uploads the .jpg entries in name order, each with its content, skipping the ones that fail, and returns their keys |
| Thumbnails.NameIs | pkg/ffmpeg/ffmpeg.go:163 | A frame's name is thumb_, its number with at least three digits, and .jpg |
| Thumbnails.SortedIffUnderThousand | pkg/ffmpeg/ffmpeg.go:163 | The numbered names are in byte order if and only if there are at most 999 |
| ThumbnailAgreement.ThumbnailsAgreeIff | internal/service/transcode_service.go:370-386 | For a job that extracted and uploaded all its frames, every row's key names an object with the frame extracted at its timestamp if and only if the stored duration is the probed one and there are at most 999 |
| ThumbnailAgreement.TimestampsIncrease | internal/service/transcode_service.go:371-374 | The timestamps increase strictly inside the video |
| RateLimit.RateLimiter.Handle | internal/middleware/ratelimit.go:45-69 | Decides and updates the address's record as the trace semantics says, with the two clock readings the code takes |
| RateLimit.RateLimiter.CleanUp | internal/middleware/ratelimit.go:30-43 | The sweep deletes exactly the expired records |
| RateLimit.SingleWindow | internal/middleware/ratelimit.go:50-65 | One limiter window admits exactly the smaller of its requests and max(rate, 1) |
| RateLimit.IntervalBound | internal/middleware/ratelimit.go:45-69 | On every trace with a monotone clock any closed interval of one window admits at most 2*max(rate, 1) - 1 requests of one address |
| RateLimit.BoundIsReached | internal/middleware/ratelimit.go:45-69 | For every rate and window some trace reaches that bound |
| RateLimit.CleanupIsTransparent | internal/middleware/ratelimit.go:30-58 | Sweeps at any times change no decision |
| RateLimit.AddressesAreIsolated | internal/middleware/ratelimit.go:45-58 | Other addresses' traffic changes no decision |
| Auth.AuthService.LogIn | internal/service/auth_service.go:55-74 | Succeeds if and only if the first user of that name exists, is active and has that password; the only changes are then that user's last login and one token row, with the hash and expiry of the token returned; a failure changes nothing |
| Auth.AuthService.RefreshToken | internal/service/auth_service.go:76-98 | Consumes a stored token, expired or not; a pair for its user comes only from an unexpired row, and the only new row is that of the returned token |
| Auth.AuthService.LogOut | internal/service/auth_service.go:100-102 | Deletes that token |
| Auth.AuthService.SetPassword | internal/service/auth_service.go:104-126 | Succeeds if and only if the user exists and the old password is right; then the hash is replaced and exactly that user's tokens go, and otherwise nothing changes |
| Auth.AuthService.GenerateTokenPair | internal/service/auth_service.go:167-208 | Stores the hash of the random token with its expiry and returns the pair |
| AuthRuns.AcceptedOnce | internal/service/auth_service.go:76-98 | Once a refresh token has been accepted, no continuation of the run accepts it again |
| AuthRuns.PasswordChangeRevokes | internal/service/auth_service.go:104-126 | No token handed out before a successful password change is accepted after it |
| AuthRuns.StoredAtMostLogins | internal/service/auth_service.go:55-74 | A user's stored tokens never exceed the successful logins since the last password change |
| AuthRuns.AcceptedIff | internal/service/auth_service.go:76-98 | A token is accepted if and only if its row is stored and unexpired, whether or not the account was disabled |
| AuthLogins.NewPasswordOpens | internal/service/auth_service.go:104-126 | After a successful password change, and until someone who knows the new password changes it again, the user's logins succeed exactly while active and exactly with the new password |
| AuthLogins.SignUpOpens | internal/service/auth_service.go:34-53 | A sign-up under a free name and address creates an active account whose logins succeed exactly with its password until that is replaced |
| AuthLogins.DisabledStaysShut | internal/service/auth_service.go:61-63 | Until a disabled account is enabled again no login under any name and with any password opens it |
| AuthLogins.EditTakes | internal/service/auth_service.go:144-161 | An edit takes over exactly the given fields, unless another account has the name or the address |
| AuthLogins.SignOutRevokes | internal/service/auth_service.go:100-102 | A signed-out token is never accepted again, and no other token is affected |

## Left out

- FFmpeg, ffprobe and HTTP: foreign; their outcomes are parameters, and FFmpeg's output is any set of files.
- MySQL, Redis, S3 and callbacks failing: database, queue, bucket and callback calls succeed, except thumbnail uploads, which may fail one by one, and a missing consumer group.
- Handlers running concurrently: each API call is one step, except in the interleaving of completions.
- UUIDs, keys and tokens: assumed fresh, key ids without a slash, and one identifier stands for a video's row id and its UUID.
- SHA-256, bcrypt and JWT signing: injective or opaque constructors; a password's length limit is not modelled.
- Machine arithmetic: no 64-bit overflow, no truncation of a negative width to an unsigned one; durations and timestamps are exact reals, so the rounding of a stored decimal and of the two digits passed to FFmpeg is not modelled.
- Text: characters stand for bytes and lower case is ASCII; MySQL's case-insensitive comparison of names is exact here.
- Row order: rows are listed in id order, as MySQL returns them without an ORDER BY in practice.
- FileInvariant.NoDanglingPlaylists: resolution names are one path element that a URI and a quoted string carry as they are, because URI resolution is concatenation here.
- MissedBuild.SomeCallBuilds: a video that keeps the master of an earlier transcode is included; the calls' variant rows are processing or ready at the start, and no task is added and nothing deleted meanwhile.
- StartEffects.StartLeaves: asks that the resolutions of one request be distinct.
- RewriteProperties.RewriteTwice: asks what RewriteKeepsLines asks, and that the rewritten lines still fit the scanner.
- RewriteProperties.RewriteKeepsLines: asks that no line end in two carriage returns and that the new extension be non-empty, without a line feed and not ending in a carriage return.
- SegmentClosure.UploadedPlaylistIsClosed: asks that the new names of the .ts files meet neither existing files, nor each other, nor the three skipped names.
- Service.Api.CompleteUpload: the quoting of part ETags and the multipart calls to S3 are not modelled; the assembled object is a parameter.
- Service.Api.HandleThumbnailResult: for a missing video the source tries to insert rows that the foreign key of migrations/003_create_videos.sql:79 refuses, and ignores the errors; here nothing is tried.
- Worker.HandleTranscode: starts after the download and assumes that file operations and uploads succeed; their failures are reported like the others.
- StreamRuns.Worker.Run: what processTask does is `Worker.HandleTranscode` and the step system; here it only records the entry, and tasks that arrive while the loop waits are published inside it.
- RedisStreams.Consumer.ReadTask: blocking is a read after the publications it waits for; entry ids are positions in the stream.
- Progress numbers, task logs, worker registration, heartbeats, segment duration and audio bitrate: they influence nothing proved here.
- Liveness after a failed or cancelled last task, and any bound on attempts: the code provides neither.
- SetWorker, CheckVideoComplete and soft deletion of videos: nothing calls them.
- Catalogue data, lists, settings, roles, subtitles, configuration, routing and the web front end: only easy members.
