/** `handlerUploadVideo` of handler_upload_video.go as a function from the
    outcomes of everything it calls to its reply: the status, the record it
    sends back, and the ordered effects on the file system, the object store
    and the database. */
module UploadVideo {
  import opened Wrappers
  import opened Base64Url
  import opened VideoTools
  import opened StorageKey
  import opened Api

  /** The upload ceiling enforced on the request body: 1 GiB. */
  const MaxUploadBytes: nat := 0x4000_0000

  /** The one accepted media type. */
  const VideoMp4: string := "video/mp4"

  /** What the request itself yields once parsed by library code. */
  datatype VideoRequest = VideoRequest(
    videoId: Option<Uuid>,       // uuid.Parse of the `videoID` path value
    hasBearerToken: bool,        // auth.GetBearerToken found a token
    tokenUser: Option<Uuid>,     // auth.ValidateJWT of that token
    bodySize: nat,               // bytes in the request body
    multipartOk: bool,           // the body is well-formed multipart data
    hasVideoField: bool,         // the form has a `video` file part
    mediaType: Option<string>)   // mime.ParseMediaType of the part's Content-Type

  /** What the handler's calls into the outside world return. */
  datatype VideoEnv = VideoEnv(
    store: map<Uuid, Video>,     // the database; a missing id is GetVideo's error
    tempFile: Option<string>,    // os.CreateTemp: the path of the new file
    copyOk: bool,                // io.Copy of the part into the temp file
    seekOk: bool,                // rewinding the temp file
    random: Option<RandomId>,    // crypto/rand filling the 32-byte buffer
    probe: ProbeRun,             // ffprobe on the temp file
    remux: RemuxRun,             // ffmpeg on the temp file
    openOk: bool,                // os.Open of the processed file
    putOk: bool,                 // S3 PutObject
    updateOk: bool)              // database UpdateVideo

  // The states of the linear pipeline, each reached only through the previous one.

  /** The id parses, the token is present and valid, the record exists and the
      requester owns it. */
  predicate Authorized(req: VideoRequest, env: VideoEnv) {
    && req.videoId.Some? && req.hasBearerToken && req.tokenUser.Some?
    && req.videoId.value in env.store
    && env.store[req.videoId.value].userId == req.tokenUser.value
  }

  /** The form parses within the ceiling, has a `video` part, and that part is
      exactly `video/mp4`. */
  predicate FormAccepted(req: VideoRequest) {
    && req.bodySize <= MaxUploadBytes && req.multipartOk && req.hasVideoField
    && req.mediaType == Some(VideoMp4)
  }

  /** The upload sits, complete and rewound, in a temporary file. */
  predicate Staged(req: VideoRequest, env: VideoEnv) {
    Authorized(req, env) && FormAccepted(req) && env.tempFile.Some? && env.copyOk && env.seekOk
  }

  /** Random bytes were drawn and the aspect ratio was probed. */
  predicate Probed(req: VideoRequest, env: VideoEnv) {
    Staged(req, env) && env.random.Some? && GetVideoAspectRatio(env.probe).err.None?
  }

  /** The fast-start copy exists. From here on the temp file is removed at exit. */
  predicate Remuxed(req: VideoRequest, env: VideoEnv) {
    Probed(req, env) && ProcessVideoForFastStart(env.tempFile.value, env.remux).err.None?
  }

  /** The processed file was opened and handed to the object store successfully. */
  predicate Uploaded(req: VideoRequest, env: VideoEnv) {
    Remuxed(req, env) && env.openOk && env.putOk
  }

  /** The record now points at the uploaded object. */
  predicate Completed(req: VideoRequest, env: VideoEnv) {
    Uploaded(req, env) && env.updateOk
  }

  /** The partition of the probed aspect ratio. */
  function ProbedPartition(req: VideoRequest, env: VideoEnv): Partition
    requires Probed(req, env)
  {
    Classify(GetVideoAspectRatio(env.probe).value)
  }

  /** The object key for this upload. */
  function DerivedKey(req: VideoRequest, env: VideoEnv): string
    requires Probed(req, env)
  {
    VideoKey(ProbedPartition(req, env), env.random.value)
  }

  /** The stored record with its video URL pointing at the derived key. */
  function UpdatedRecord(cfg: Config, req: VideoRequest, env: VideoEnv): Video
    requires Probed(req, env)
  {
    env.store[req.videoId.value].(videoUrl := Some(ObjectUrl(cfg.s3Bucket, cfg.s3Region, DerivedKey(req, env))))
  }

  /** The handler. Every failure answers at once; the only cleanup is the
      `defer os.Remove` registered after a successful remux, which runs last. */
  function HandleUploadVideo(cfg: Config, req: VideoRequest, env: VideoEnv): (r: Reply)
    ensures r.status in {StatusOk, StatusBadRequest, StatusUnauthorized, StatusInternalServerError}
    ensures r.body.Some? <==> r.status == StatusOk
    ensures r.status == StatusOk <==> Completed(req, env)
    ensures r.status in {StatusBadRequest, StatusUnauthorized} ==> r.effects == []
    ensures r.status == StatusUnauthorized ==> !Authorized(req, env)
    ensures r.effects != [] <==> Authorized(req, env) && FormAccepted(req) && env.tempFile.Some?
    ensures r.effects != [] ==> r.effects[0] == TempCreated(env.tempFile.value)
    ensures Remuxed(req, env) ==> r.effects[|r.effects| - 1] == TempRemoved(env.tempFile.value)
    ensures !Remuxed(req, env) ==> forall i :: 0 <= i < |r.effects| ==> !r.effects[i].TempRemoved?
    ensures !(Remuxed(req, env) && env.openOk) ==> NoStoreWrites(r.effects)
    ensures !Uploaded(req, env) ==> forall i :: 0 <= i < |r.effects| ==> !r.effects[i].UpdateVideo?
  {
    if req.videoId.None? then Fail(StatusBadRequest, [])
    else if !req.hasBearerToken then Fail(StatusUnauthorized, [])
    else if req.tokenUser.None? then Fail(StatusUnauthorized, [])
    else if req.videoId.value !in env.store then Fail(StatusInternalServerError, [])
    else
      var dbVideo := env.store[req.videoId.value];
      if dbVideo.userId != req.tokenUser.value then Fail(StatusUnauthorized, [])
      else if req.bodySize > MaxUploadBytes || !req.multipartOk then Fail(StatusBadRequest, [])
      else if !req.hasVideoField then Fail(StatusBadRequest, [])
      else if req.mediaType.None? then Fail(StatusBadRequest, [])
      else if req.mediaType.value != VideoMp4 then Fail(StatusBadRequest, [])
      else if env.tempFile.None? then Fail(StatusInternalServerError, [])
      else
        var tmp := env.tempFile.value;
        var created := [TempCreated(tmp)];
        if !env.copyOk then Fail(StatusInternalServerError, created)
        else if !env.seekOk then Fail(StatusInternalServerError, created)
        else if env.random.None? then Fail(StatusInternalServerError, created)
        else
          var aspectRatio := GetVideoAspectRatio(env.probe);
          if aspectRatio.err.Some? then Fail(StatusInternalServerError, created)
          else
            var partition := Classify(aspectRatio.value);
            var processed := ProcessVideoForFastStart(tmp, env.remux);
            if processed.err.Some? then Fail(StatusInternalServerError, created)
            else
              var removed := [TempRemoved(tmp)];
              if !env.openOk then Fail(StatusInternalServerError, created + removed)
              else
                var key := VideoKey(partition, env.random.value);
                var put := PutObject(cfg.s3Bucket, key, req.mediaType.value);
                if !env.putOk then Fail(StatusInternalServerError, created + [put] + removed)
                else
                  var videoUrl := ObjectUrl(cfg.s3Bucket, cfg.s3Region, key);
                  var updated := dbVideo.(videoUrl := Some(videoUrl));
                  var update := UpdateVideo(updated);
                  if !env.updateOk then Fail(StatusInternalServerError, created + [put, update] + removed)
                  else Reply(StatusOk, Some(updated), created + [put, update] + removed)
  }

  /** Once the processed file is open, the object store receives the derived
      key and `video/mp4`, right after the temp file's creation. */
  lemma PutReceivesDerivedKey(cfg: Config, req: VideoRequest, env: VideoEnv)
    requires Remuxed(req, env) && env.openOk
    ensures HandleUploadVideo(cfg, req, env).effects[1] == PutObject(cfg.s3Bucket, DerivedKey(req, env), VideoMp4)
  {
  }

  /** After a successful put, the database receives the stored record with its
      URL pointing at the uploaded object. */
  lemma UpdateReceivesObjectUrl(cfg: Config, req: VideoRequest, env: VideoEnv)
    requires Uploaded(req, env)
    ensures HandleUploadVideo(cfg, req, env).effects[2] == UpdateVideo(UpdatedRecord(cfg, req, env))
  {
  }

  /** A completed upload answers 200 with the updated record, after exactly
      four effects in this order: temp file, put, update, removal. */
  lemma SuccessTrace(cfg: Config, req: VideoRequest, env: VideoEnv)
    requires Completed(req, env)
    ensures var r := HandleUploadVideo(cfg, req, env);
            var updated := UpdatedRecord(cfg, req, env);
      && r.status == StatusOk
      && r.body == Some(updated)
      && r.effects == [TempCreated(env.tempFile.value), PutObject(cfg.s3Bucket, DerivedKey(req, env), VideoMp4),
                       UpdateVideo(updated), TempRemoved(env.tempFile.value)]
  {
  }

  /** A requester who does not own the record gets 401 before any file exists,
      whatever the form, the tools and the stores would have done. */
  lemma NonOwnerUnauthorized(cfg: Config, req: VideoRequest, env: VideoEnv)
    requires req.videoId.Some? && req.hasBearerToken && req.tokenUser.Some?
    requires req.videoId.value in env.store
    requires env.store[req.videoId.value].userId != req.tokenUser.value
    ensures HandleUploadVideo(cfg, req, env) == Reply(StatusUnauthorized, None, [])
  {
  }

  /** A body above the 1 GiB ceiling is a bad request, answered before any temp file. */
  lemma OversizeRejected(cfg: Config, req: VideoRequest, env: VideoEnv)
    requires Authorized(req, env) && req.bodySize > MaxUploadBytes
    ensures HandleUploadVideo(cfg, req, env) == Reply(StatusBadRequest, None, [])
  {
  }

  /** Any parsed media type other than exactly `video/mp4` is a bad request,
      answered before any temp file, put or update. */
  lemma WrongMediaTypeRejected(cfg: Config, req: VideoRequest, env: VideoEnv)
    requires Authorized(req, env)
    requires req.bodySize <= MaxUploadBytes && req.multipartOk && req.hasVideoField
    requires req.mediaType.Some? && req.mediaType.value != VideoMp4
    ensures HandleUploadVideo(cfg, req, env) == Reply(StatusBadRequest, None, [])
  {
  }

  /** A failing probe is a server error; the temp file stays and nothing is stored. */
  lemma ProbeFailureStoresNothing(cfg: Config, req: VideoRequest, env: VideoEnv)
    requires Staged(req, env) && env.random.Some?
    requires GetVideoAspectRatio(env.probe).err.Some?
    ensures HandleUploadVideo(cfg, req, env) == Reply(StatusInternalServerError, None, [TempCreated(env.tempFile.value)])
  {
  }

  /** A failing remux (non-zero exit or missing output) is a server error; the
      temp file stays and nothing is stored. */
  lemma RemuxFailureStoresNothing(cfg: Config, req: VideoRequest, env: VideoEnv)
    requires Probed(req, env)
    requires ProcessVideoForFastStart(env.tempFile.value, env.remux).err.Some?
    ensures HandleUploadVideo(cfg, req, env) == Reply(StatusInternalServerError, None, [TempCreated(env.tempFile.value)])
  {
  }

  /** A failing put is a server error: the database is never updated and the
      temp file is removed. */
  lemma PutFailureSkipsUpdate(cfg: Config, req: VideoRequest, env: VideoEnv)
    requires Remuxed(req, env) && env.openOk && !env.putOk
    ensures HandleUploadVideo(cfg, req, env) == Reply(StatusInternalServerError, None,
              [TempCreated(env.tempFile.value), PutObject(cfg.s3Bucket, DerivedKey(req, env), VideoMp4),
               TempRemoved(env.tempFile.value)])
  {
  }

  /** The key's prefix is the classification of the probed aspect ratio and
      its body encodes the random bytes: reading the key back gives both. */
  lemma KeyRecordsPartitionAndRandom(req: VideoRequest, env: VideoEnv)
    requires Probed(req, env)
    ensures ParseVideoKey(DerivedKey(req, env))
         == Some((Classify(GetVideoAspectRatio(env.probe).value), env.random.value))
  {
    ParseVideoKeyRoundTrip(ProbedPartition(req, env), env.random.value);
  }

  /** The update changes only the record's video URL, and that URL addresses
      the key the object was put under. */
  lemma UpdateOnlySetsObjectUrl(cfg: Config, req: VideoRequest, env: VideoEnv)
    requires Probed(req, env)
    ensures var stored := env.store[req.videoId.value];
            var updated := UpdatedRecord(cfg, req, env);
      && updated.(videoUrl := stored.videoUrl) == stored
      && updated.videoUrl.Some?
      && KeyOfObjectUrl(cfg.s3Bucket, cfg.s3Region, updated.videoUrl.value) == Some(DerivedKey(req, env))
  {

  }

  /** A completed upload whose probe reports "16:9" first ends up with a URL
      whose path starts with `landscape/`. */
  lemma LandscapeUploadUrl(cfg: Config, req: VideoRequest, env: VideoEnv, first: Stream, rest: seq<Stream>)
    requires Completed(req, env)
    requires env.probe.report == Some(FFProbeOutput([first] + rest)) && first.displayAspectRatio == "16:9"
    ensures var body := HandleUploadVideo(cfg, req, env).body;
            var n := |ObjectUrlPrefix(cfg.s3Bucket, cfg.s3Region)|;
      && body.Some? && body.value.videoUrl.Some?
      && |body.value.videoUrl.value| > n + 10
      && body.value.videoUrl.value[n..n + 10] == "landscape/"
  {

  }
}
