# Upload handlers of a video-sharing service, modelled in Dafny

The service stores user videos in S3 and thumbnails on local disk. This
project models the decision and string-building logic of its two upload
handlers and of the ffprobe/ffmpeg adapters they use:

- `handlerUploadVideo` (handler_upload_video.go): authenticate, check that the
  requester owns the video record, accept only a `video/mp4` part within
  1 GiB, stage it in a temporary file, probe its aspect ratio, remux it for
  fast start, upload the processed file to S3 under
  `<landscape|portrait|other>/<base64url of 32 random bytes>.mp4`, and store the
  object's URL `https://<bucket>.s3.<region>.amazonaws.com/<key>` in the record.
- `handlerUploadThumbnail` (handler_upload_thumbnail.go): accept only
  `image/jpeg` or `image/png`, check ownership, write the image to
  `<assetsRoot>/<base64url id>.<jpeg|png>` and store
  `http://localhost:<port>/assets/<id>.<ext>` as the thumbnail URL.
- `getVideoAspectRatio` and `processVideoForFastStart` (video.go): choose the
  first stream's display aspect ratio (or "" without streams) from the probe
  report, derive the `.processing` output path, and refuse a remux whose
  output file does not exist.

Each handler is a pure function from the outcomes of everything it calls
(id parsing, token checks, the database as a map, form parsing, temp-file
operations, random bytes, the probe and remux runs, S3 and the database
update) to a `Reply`: the HTTP status, the record sent back, and the ordered
list of effects (`TempCreated`, `PutObject`, `UpdateVideo`, `TempRemoved`,
`FileCreated`). The video pipeline's states (`Authorized`, `FormAccepted`,
`Staged`, `Probed`, `Remuxed`, `Uploaded`, `Completed`) are predicates on
those outcomes, and the handler's contract says which effects happen in
which state.

Modules: `Wrappers` (Option), `Base64Url` (RFC 4648 section 5 encoding
without padding, with a strict decoder as its inverse), `VideoTools`
(video.go), `StorageKey` (classification, object key, object URL), `Api`
(record, config, statuses, effects), `UploadVideo`, `UploadThumbnail`.

## Behaviour of the code worth knowing

- An ownership mismatch answers 401 Unauthorized in both handlers.
- The temp file is removed only on exits after a successful remux: the
  `defer os.Remove` is registered at handler_upload_video.go:138, and every
  earlier failure leaves the file behind. The `.processing` output of the
  remux is never removed.
- The remux output check is `os.Stat`, which checks existence only; an empty
  output file passes it.
- The thumbnail handler checks the content type before it reads the
  database, so a non-owner sending a bad type gets 400. The video handler
  checks ownership first.
- The video handler draws the random bytes before it probes and remuxes, so a
  random-source failure is reported before the probe runs.

## Model

| member | source | states |
|---|---|---|
| `Base64Url.Sextets` | handler_upload_video.go:149 | n bytes give (8n+5)/6 six-bit values: four per full group of three, two or three for a short last group, none padded |
| `Base64Url.SplitTripleMatchesShifts` | handler_upload_video.go:149 | a group's 6-bit values are the slices `>>18`, `>>12&63`, `>>6&63`, `&63` of the 24-bit value `a<<16 \| b<<8 \| c` that Go's encoder computes (a short last group is split the same way with its missing bytes taken as zero) |
| `Base64Url.Encode` | handler_upload_video.go:149 | the unpadded URL-safe encoding of n bytes has (8n+5)/6 characters, all from `A-Z a-z 0-9 - _` |
| `Base64Url.DecodeEncode` | handler_upload_video.go:149 | decoding an encoding returns the original bytes, so the encoded id determines the random bytes |
| `Base64Url.EncodeDecode` | handler_upload_video.go:149 | every string the strict decoder accepts is the encoding of its result, so the two are inverse bijections |
| `StorageKey.RandomIdEncoding` | handler_upload_video.go:101 | 32 random bytes always encode to 43 URL-safe characters with no '=' |
| `StorageKey.Classify` | handler_upload_video.go:120-128 | exactly "16:9" is landscape, exactly "9:16" is portrait, every other string is other |
| `StorageKey.Partition.Label` | handler_upload_video.go:121-128 | each partition's key prefix is a non-empty label without '/' |
| `StorageKey.PartitionOfLabelRoundTrip` | handler_upload_video.go:121-128 | each partition is read back from its label, so "landscape", "portrait" and "other" are distinct |
| `StorageKey.UnknownLayoutIsOther` | handler_upload_video.go:126-127 | the empty ratio of a stream-less report and "4:3" classify as other |
| `StorageKey.VideoKey` | handler_upload_video.go:149 | the key is the partition label, '/', the 43-character encoding of the random bytes, ".mp4" |
| `StorageKey.ParseVideoKeyRoundTrip` | handler_upload_video.go:149 | reading a key back yields its partition and its random bytes |
| `StorageKey.VideoKeyInjective` | handler_upload_video.go:149 | different partitions or different random bytes never give the same key |
| `StorageKey.ObjectUrl` | handler_upload_video.go:164-167 | the URL starts with "https://" and ends with the key, after the bucket and region host |
| `StorageKey.ObjectUrlRoundTrip` | handler_upload_video.go:164-167 | stripping the bucket's URL prefix from the URL gives back exactly the key |
| `VideoTools.GetVideoAspectRatio` | video.go:24-55 | a failed ffprobe run gives ("", error); a malformed report gives ("", error); no streams gives ("", no error); otherwise the first stream's ratio |
| `VideoTools.AspectRatioIgnoresLaterStreams` | video.go:51-54 | streams after the first never change the result |
| `VideoTools.FastStartOutputPath` | video.go:64 | the output path is the input path followed by ".processing", so it differs from the input |
| `VideoTools.FastStartOutputPathInjective` | video.go:64 | distinct inputs get distinct output paths |
| `VideoTools.ProcessVideoForFastStart` | video.go:62-90 | success exactly when ffmpeg exits zero and the output path exists, and then the result is that path; a failed run is CommandFailed, a missing output is OutputMissing, both with "" |
| `UploadVideo.HandleUploadVideo` | handler_upload_video.go:18-177 | 200 exactly when every stage succeeds; 400/401 touch nothing; a temp file exists exactly when authorization, form and creation passed; TempRemoved is the last effect exactly when the remux succeeded; no put before the processed file is open; no update without a successful put |
| `UploadVideo.SuccessTrace` | handler_upload_video.go:149-175 | a completed upload answers 200 with the updated record after TempCreated, PutObject(key, video/mp4), UpdateVideo, TempRemoved in that order |
| `UploadVideo.PutReceivesDerivedKey` | handler_upload_video.go:149-157 | the put uses the configured bucket, the key derived from the probe and the random bytes, and content type video/mp4 |
| `UploadVideo.UpdateReceivesObjectUrl` | handler_upload_video.go:164-169 | after a successful put the update carries the stored record with its URL set to the object's URL |
| `UploadVideo.NonOwnerUnauthorized` | handler_upload_video.go:46-54 | a non-owner gets 401 with no effect, whatever the later outcomes |
| `UploadVideo.OversizeRejected` | handler_upload_video.go:57-61 | an authorized request whose body exceeds 1 GiB gets 400 before any temp file |
| `UploadVideo.WrongMediaTypeRejected` | handler_upload_video.go:70-78 | any parsed media type other than exactly video/mp4 gets 400 before any temp file, put or update |
| `UploadVideo.ProbeFailureStoresNothing` | handler_upload_video.go:113-118 | a failed probe gives 500, the temp file stays, and there is no put and no update |
| `UploadVideo.RemuxFailureStoresNothing` | handler_upload_video.go:130-138 | a failed remux gives 500, the temp file stays, and there is no put and no update |
| `UploadVideo.PutFailureSkipsUpdate` | handler_upload_video.go:152-161 | a failed put gives 500 with no update, and the temp file is still removed last |
| `UploadVideo.KeyRecordsPartitionAndRandom` | handler_upload_video.go:120-149 | the key's prefix is the classification of the probed ratio and its body decodes to the random bytes |
| `UploadVideo.UpdateOnlySetsObjectUrl` | handler_upload_video.go:164-169 | the updated record differs from the stored one only in its video URL, which addresses the put key |
| `UploadVideo.LandscapeUploadUrl` | handler_upload_video.go:121-168 | a completed upload whose first probed stream is "16:9" gets a URL whose path starts with `landscape/` |
| `UploadThumbnail.IsAllowedImageType` | handler_upload_thumbnail.go:61-64 | a type is accepted exactly when it is "image/" followed by "jpeg" or "png" |
| `UploadThumbnail.Extension` | handler_upload_thumbnail.go:78 | the extension is what follows the first six characters of the content type: those six and the extension make up the type |
| `UploadThumbnail.ExtensionOfAllowedType` | handler_upload_thumbnail.go:61-78 | for an accepted type the extension is "jpeg" or "png" and "image/" + extension is the type |
| `UploadThumbnail.AssetName` | handler_upload_thumbnail.go:87-89 | the file name is the 43-character id, '.', the extension |
| `UploadThumbnail.AssetPath` | handler_upload_thumbnail.go:89 | the path is the assets root, '/', the file name, in that order |
| `UploadThumbnail.AssetUrl` | handler_upload_thumbnail.go:108 | the URL is `http://localhost:`, the configured port, `/assets/`, the file name, in that order |
| `UploadThumbnail.AssetUrlRoundTrip` | handler_upload_thumbnail.go:108 | stripping the server's asset URL prefix from the URL gives back exactly the file name |
| `UploadThumbnail.HandleUploadThumbnail` | handler_upload_thumbnail.go:17-119 | 200 exactly when every step succeeds; 400 only for an invalid request; 400/401 touch nothing; a file is created exactly when ownership, randomness and creation passed; the update happens exactly when the file was written |
| `UploadThumbnail.BadTypeRejectedBeforeLookup` | handler_upload_thumbnail.go:55-76 | a type other than JPEG or PNG gets 400 whatever the database holds, so a non-owner with a bad type gets 400, not 401 |
| `UploadThumbnail.NonOwnerUnauthorized` | handler_upload_thumbnail.go:67-76 | a valid image from a non-owner gets 401 with no file and no update |
| `UploadThumbnail.FileFailureSkipsUpdate` | handler_upload_thumbnail.go:93-104 | a failed create or copy gives 500 with no update; a failed copy leaves the created file |
| `UploadThumbnail.SuccessUpdatesOnlyThumbnail` | handler_upload_thumbnail.go:107-117 | on success only the thumbnail URL changes, and the reply carries the updated record |
| `UploadThumbnail.PathAndUrlShareAssetName` | handler_upload_thumbnail.go:87-108 | the file path's and the URL's last segments are the same id.ext, with ext "jpeg" or "png" |

## Left out

- HTTP plumbing: `MaxBytesReader`, `ParseMultipartForm`, `FormFile`, response bodies and messages. Only statuses, the record sent back and abstract success or failure are modelled; the form outcome is a size and two flags.
- `uuid.Parse`, `auth.GetBearerToken`, `auth.ValidateJWT` and `mime.ParseMediaType` are library or foreign code; their results are inputs. Any lower-casing done by `ParseMediaType` is part of that input.
- `crypto/rand`: the 32 bytes (or a failure) are an input, because entropy cannot be modelled. Key uniqueness is only probabilistic and is not stated.
- `encoding/json`: the decoded ffprobe report, or a decode failure, is an input.
- `exec.Command`, standard error capture and `fmt.Println` logging, including the stat at handler_upload_video.go:109-111, which only logs.
- File system calls (`CreateTemp`, `Copy`, `Seek`, `Stat`, `Open`, `Create`, `Remove`, `Close`) are outcomes or effects; file contents are not modelled, and closing files is not recorded as an effect.
- `filepath.Join` path cleaning: the asset path is modelled as the assets root, '/', the name.
- The S3 client and the database are abstract: the database is a map, and any `GetVideo` error is a missing id; `PutObject` and `UpdateVideo` are success flags.
- The source never decodes base64; the strict decoder `Base64Url.Decode` exists only as the inverse of the encoder.
- Concurrent requests and context cancellation.
