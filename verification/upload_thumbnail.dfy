/** `handlerUploadThumbnail` of handler_upload_thumbnail.go: validate the image
    type, check ownership, write the image under a random name in the assets
    directory and point the record's thumbnail URL at it. Unlike the video
    handler it validates the content type before it looks the record up. */
module UploadThumbnail {
  import opened Wrappers
  import opened Base64Url
  import opened StorageKey
  import opened Api

  const ImagePrefix: string := "image/"

  /** The two accepted image types. An accepted type is "image/" followed by
      one of the two extensions, so dropping its first six characters is safe. */
  function IsAllowedImageType(contentType: string): (ok: bool)
    ensures ok <==> |contentType| > |ImagePrefix| && contentType[..|ImagePrefix|] == ImagePrefix
                    && contentType[|ImagePrefix|..] in {"jpeg", "png"}
  {
    contentType == "image/jpeg" || contentType == "image/png"
  }

  /** `contentType[6:]`: the type with its first six characters dropped. */
  function Extension(contentType: string): (ext: string)
    requires |contentType| >= |ImagePrefix|
    ensures |ext| == |contentType| - |ImagePrefix|
    ensures contentType == contentType[..|ImagePrefix|] + ext
  {
    contentType[|ImagePrefix|..]
  }

  /** For an accepted type the extension is "jpeg" or "png", and putting the
      "image/" prefix back gives the type. */
  lemma ExtensionOfAllowedType(contentType: string)
    requires IsAllowedImageType(contentType)
    ensures Extension(contentType) in {"jpeg", "png"}
    ensures ImagePrefix + Extension(contentType) == contentType
  {
  }

  /** The asset's file name: the random id in URL-safe base64, ".", the extension. */
  function AssetName(id: RandomId, ext: string): (name: string)
    ensures |name| == 43 + 1 + |ext|
    ensures name[..43] == Encode(id) && name[43] == '.' && name[44..] == ext
  {
    Encode(id) + "." + ext
  }

  /** The file path, `filepath.Join(assetsRoot, name)` without path cleaning. */
  function AssetPath(cfg: Config, name: string): (path: string)
    ensures |path| == |cfg.assetsRoot| + 1 + |name|
    ensures path[..|cfg.assetsRoot|] == cfg.assetsRoot
    ensures path[|path| - |name|..] == name && path[|path| - |name| - 1] == '/'
  {
    cfg.assetsRoot + "/" + name
  }

  /** Where the server publishes the assets directory. */
  const AssetsRoute: string := "/assets/"

  /** The prefix of every asset URL of this server. */
  function AssetUrlPrefix(cfg: Config): string {
    "http://localhost:" + cfg.port + AssetsRoute
  }

  /** The URL the asset is served under: the local server on the configured
      port, the `/assets/` route, the file name. */
  function AssetUrl(cfg: Config, name: string): (url: string)
    ensures |url| == |AssetUrlPrefix(cfg)| + |name|
    ensures url[..17] == "http://localhost:"
    ensures url[17..17 + |cfg.port|] == cfg.port
    ensures url[|url| - |name| - |AssetsRoute|..|url| - |name|] == AssetsRoute
    ensures url[|url| - |name|..] == name && url[|url| - |name| - 1] == '/'
  {
    AssetUrlPrefix(cfg) + name
  }

  /** The file name an asset URL of this server points at; None for other URLs. */
  function NameOfAssetUrl(cfg: Config, url: string): Option<string> {
    var prefix := AssetUrlPrefix(cfg);
    if |url| >= |prefix| && url[..|prefix|] == prefix then Some(url[|prefix|..]) else None
  }

  /** The URL points at exactly the file name it was built from. */
  lemma AssetUrlRoundTrip(cfg: Config, name: string)
    ensures NameOfAssetUrl(cfg, AssetUrl(cfg, name)) == Some(name)
  {
  }

  /** What follows the last '/' of `s` (all of `s` when it has none). */
  function LastSegment(s: string): string
    decreases |s|
  {
    if |s| == 0 || s[|s| - 1] == '/' then "" else LastSegment(s[..|s| - 1]) + [s[|s| - 1]]
  }

  /** Appending a '/' and a slash-free name makes that name the last segment. */
  lemma {:induction false} LastSegmentAfterSlash(dir: string, name: string)
    requires '/' !in name
    ensures LastSegment(dir + "/" + name) == name
    decreases |name|
  {
    var s := dir + "/" + name;
    if |name| == 0 {
      assert s[|s| - 1] == '/';
    } else {
      var init := name[..|name| - 1];
      assert s[..|s| - 1] == dir + "/" + init;
      LastSegmentAfterSlash(dir, init);
      assert init + [name[|name| - 1]] == name;
    }
  }

  /** What the request itself yields once parsed by library code. */
  datatype ThumbnailRequest = ThumbnailRequest(
    videoId: Option<Uuid>,       // uuid.Parse of the `videoID` path value
    hasBearerToken: bool,        // auth.GetBearerToken found a token
    tokenUser: Option<Uuid>,     // auth.ValidateJWT of that token
    multipartOk: bool,           // ParseMultipartForm
    hasThumbnailField: bool,     // the form has a `thumbnail` file part
    mediaType: Option<string>)   // mime.ParseMediaType of the part's Content-Type

  /** What the handler's calls into the outside world return. */
  datatype ThumbnailEnv = ThumbnailEnv(
    store: map<Uuid, Video>,     // the database; a missing id is GetVideo's error
    random: Option<RandomId>,    // crypto/rand filling the 32-byte buffer
    createOk: bool,              // os.Create of the asset file
    copyOk: bool,                // io.Copy of the part into it
    updateOk: bool)              // database UpdateVideo

  /** Id, token and form all pass and the part is a JPEG or PNG. */
  predicate Validated(req: ThumbnailRequest) {
    && req.videoId.Some? && req.hasBearerToken && req.tokenUser.Some?
    && req.multipartOk && req.hasThumbnailField
    && req.mediaType.Some? && IsAllowedImageType(req.mediaType.value)
  }

  /** The record exists and the requester owns it. */
  predicate Owned(req: ThumbnailRequest, env: ThumbnailEnv) {
    && Validated(req)
    && req.videoId.value in env.store
    && env.store[req.videoId.value].userId == req.tokenUser.value
  }

  /** The asset's name for this request. */
  function ThumbnailName(req: ThumbnailRequest, env: ThumbnailEnv): string
    requires Owned(req, env) && env.random.Some?
  {
    AssetName(env.random.value, Extension(req.mediaType.value))
  }

  /** The stored record with its thumbnail URL pointing at the asset. */
  function UpdatedThumbnailRecord(cfg: Config, req: ThumbnailRequest, env: ThumbnailEnv): Video
    requires Owned(req, env) && env.random.Some?
  {
    env.store[req.videoId.value].(thumbnailUrl := Some(AssetUrl(cfg, ThumbnailName(req, env))))
  }

  /** The handler. Every failure answers at once; nothing is cleaned up. */
  function HandleUploadThumbnail(cfg: Config, req: ThumbnailRequest, env: ThumbnailEnv): (r: Reply)
    ensures r.status in {StatusOk, StatusBadRequest, StatusUnauthorized, StatusInternalServerError}
    ensures r.body.Some? <==> r.status == StatusOk
    ensures r.status == StatusOk <==> Owned(req, env) && env.random.Some? && env.createOk && env.copyOk && env.updateOk
    ensures r.status in {StatusBadRequest, StatusUnauthorized} ==> r.effects == []
    ensures r.status == StatusBadRequest ==> !Validated(req)
    // A file is created exactly when ownership and randomness passed and creation worked.
    ensures r.effects != [] <==> Owned(req, env) && env.random.Some? && env.createOk
    ensures r.effects != [] ==> r.effects[0] == FileCreated(AssetPath(cfg, ThumbnailName(req, env)))
    // The database is updated only after the image was written.
    ensures Owned(req, env) && env.random.Some? && env.createOk && env.copyOk ==>
              |r.effects| == 2 && r.effects[1].UpdateVideo?
    ensures !(Owned(req, env) && env.random.Some? && env.createOk && env.copyOk) ==>
              forall i :: 0 <= i < |r.effects| ==> !r.effects[i].UpdateVideo?
    ensures |r.effects| <= 2
  {
    if req.videoId.None? then Fail(StatusBadRequest, [])
    else if !req.hasBearerToken then Fail(StatusUnauthorized, [])
    else if req.tokenUser.None? then Fail(StatusUnauthorized, [])
    else if !req.multipartOk then Fail(StatusBadRequest, [])
    else if !req.hasThumbnailField then Fail(StatusBadRequest, [])
    else if req.mediaType.None? then Fail(StatusBadRequest, [])
    else if !IsAllowedImageType(req.mediaType.value) then Fail(StatusBadRequest, [])
    else if req.videoId.value !in env.store then Fail(StatusInternalServerError, [])
    else
      var dbVideo := env.store[req.videoId.value];
      if dbVideo.userId != req.tokenUser.value then Fail(StatusUnauthorized, [])
      else
        var extension := Extension(req.mediaType.value);
        if env.random.None? then Fail(StatusInternalServerError, [])
        else
          var name := AssetName(env.random.value, extension);
          var path := AssetPath(cfg, name);
          if !env.createOk then Fail(StatusInternalServerError, [])
          else
            var created := [FileCreated(path)];
            if !env.copyOk then Fail(StatusInternalServerError, created)
            else
              var thumbnailUrl := AssetUrl(cfg, name);
              var updated := dbVideo.(thumbnailUrl := Some(thumbnailUrl));
              var effects := created + [UpdateVideo(updated)];
              if !env.updateOk then Fail(StatusInternalServerError, effects)
              else Reply(StatusOk, Some(updated), effects)
  }

  /** A content type other than JPEG or PNG is a bad request decided before the
      database is consulted: the reply does not depend on the store, so a
      non-owner with a bad type gets 400, not 401. */
  lemma BadTypeRejectedBeforeLookup(cfg: Config, req: ThumbnailRequest, env1: ThumbnailEnv, env2: ThumbnailEnv)
    requires req.videoId.Some? && req.hasBearerToken && req.tokenUser.Some?
    requires req.multipartOk && req.hasThumbnailField
    requires req.mediaType.Some? && !IsAllowedImageType(req.mediaType.value)
    ensures HandleUploadThumbnail(cfg, req, env1) == HandleUploadThumbnail(cfg, req, env2)
         == Reply(StatusBadRequest, None, [])
  {
  }

  /** A valid image from a non-owner gets 401: no file, no update. */
  lemma NonOwnerUnauthorized(cfg: Config, req: ThumbnailRequest, env: ThumbnailEnv)
    requires Validated(req) && req.videoId.value in env.store
    requires env.store[req.videoId.value].userId != req.tokenUser.value
    ensures HandleUploadThumbnail(cfg, req, env) == Reply(StatusUnauthorized, None, [])
  {
  }

  /** Creating or writing the file failing is a server error without an update;
      a failed write leaves the created file behind. */
  lemma FileFailureSkipsUpdate(cfg: Config, req: ThumbnailRequest, env: ThumbnailEnv)
    requires Owned(req, env) && env.random.Some? && !(env.createOk && env.copyOk)
    ensures var r := HandleUploadThumbnail(cfg, req, env);
      && r.status == StatusInternalServerError
      && r.effects == (if env.createOk then [FileCreated(AssetPath(cfg, ThumbnailName(req, env)))] else [])
  {
  }

  /** On success only the thumbnail URL of the record changes, the reply
      carries the updated record, and the file written and the URL saved name
      the same asset. */
  lemma SuccessUpdatesOnlyThumbnail(cfg: Config, req: ThumbnailRequest, env: ThumbnailEnv)
    requires Owned(req, env) && env.random.Some? && env.createOk && env.copyOk && env.updateOk
    ensures var r := HandleUploadThumbnail(cfg, req, env);
            var stored := env.store[req.videoId.value];
            var updated := UpdatedThumbnailRecord(cfg, req, env);
      && r.body == Some(updated)
      && r.effects == [FileCreated(AssetPath(cfg, ThumbnailName(req, env))), UpdateVideo(updated)]
      && updated.(thumbnailUrl := stored.thumbnailUrl) == stored
  {
  }

  /** The file path and the URL end in the same asset name: the random id,
      ".", and "jpeg" or "png". */
  lemma PathAndUrlShareAssetName(cfg: Config, req: ThumbnailRequest, env: ThumbnailEnv)
    requires Owned(req, env) && env.random.Some?
    ensures var name := ThumbnailName(req, env);
      && LastSegment(AssetPath(cfg, name)) == name
      && LastSegment(AssetUrl(cfg, name)) == name
      && name == Encode(env.random.value) + "." + Extension(req.mediaType.value)
      && Extension(req.mediaType.value) in {"jpeg", "png"}
  {
    var name := ThumbnailName(req, env);
    var ext := Extension(req.mediaType.value);
    ExtensionOfAllowedType(req.mediaType.value);
    var encoded := Encode(env.random.value);
    assert forall i :: 0 <= i < |encoded| ==> encoded[i] != '/';
    assert '/' !in name by {
      forall i | 0 <= i < |name| ensures name[i] != '/' {
        if i < 43 { assert name[i] == encoded[i]; } else if i > 43 { assert name[i] == ext[i - 44]; }
      }
    }
    LastSegmentAfterSlash(cfg.assetsRoot, name);
    LastSegmentAfterSlash("http://localhost:" + cfg.port + "/assets", name);
    assert AssetUrl(cfg, name) == "http://localhost:" + cfg.port + "/assets" + "/" + name;
  }
}
