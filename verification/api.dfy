/** What the two upload handlers share: the video record of the database, the
    server configuration, HTTP statuses, and the observable effects a handler
    has on the file system, the object store and the database. */
module Api {
  import opened Wrappers

  /** An opaque identifier (a parsed UUID). */
  type Uuid = nat

  /** The database's video record; `userId` is its owner. */
  datatype Video = Video(
    id: Uuid,
    title: string,
    description: string,
    userId: Uuid,
    thumbnailUrl: Option<string>,
    videoUrl: Option<string>)

  /** The handlers' view of the server configuration. */
  datatype Config = Config(assetsRoot: string, s3Bucket: string, s3Region: string, port: string)

  const StatusOk: int := 200
  const StatusBadRequest: int := 400
  const StatusUnauthorized: int := 401
  const StatusInternalServerError: int := 500

  /** An effect outside the handler, in the order it happens. */
  datatype Effect =
    | TempCreated(path: string)                                // os.CreateTemp
    | TempRemoved(path: string)                                // deferred os.Remove
    | PutObject(bucket: string, key: string, contentType: string) // S3 PutObject call
    | UpdateVideo(video: Video)                                // database UpdateVideo call
    | FileCreated(path: string)                                // os.Create of an asset

  /** The response status, the record sent back on success, and the effects. */
  datatype Reply = Reply(status: int, body: Option<Video>, effects: seq<Effect>)

  /** A failed request: the status, no record, and the effects made before the failure. */
  function Fail(status: int, effects: seq<Effect>): Reply {
    Reply(status, None, effects)
  }

  /** A reply that made no call to the object store and none to the database update. */
  predicate NoStoreWrites(effects: seq<Effect>) {
    forall i :: 0 <= i < |effects| ==> !effects[i].PutObject? && !effects[i].UpdateVideo?
  }
}
