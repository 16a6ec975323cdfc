/** Layout classification, object keys and object URLs of handler_upload_video.go. */
module StorageKey {
  import opened Wrappers
  import opened Base64Url

  /** The number of random bytes behind every key. */
  const RandomIdLength: nat := 32

  type RandomId = s: seq<byte> | |s| == RandomIdLength witness seq(32, i => 0)

  /** The key prefix chosen from the probed aspect ratio. */
  datatype Partition = Landscape | Portrait | Other {
    function Label(): (l: string)
      ensures |l| > 0 && '/' !in l
    {
      match this
      case Landscape => "landscape"
      case Portrait => "portrait"
      case Other => "other"
    }
  }

  /** The switch on the aspect ratio: an exact, total string lookup. */
  function Classify(aspectRatio: string): (p: Partition)
    ensures p == Landscape <==> aspectRatio == "16:9"
    ensures p == Portrait <==> aspectRatio == "9:16"
    ensures p == Other <==> aspectRatio != "16:9" && aspectRatio != "9:16"
  {
    if aspectRatio == "16:9" then Landscape
    else if aspectRatio == "9:16" then Portrait
    else Other
  }

  /** A report without streams yields "", which lands in `other`. */
  lemma UnknownLayoutIsOther()
    ensures Classify("") == Other && Classify("4:3") == Other
  {
  }

  /** 32 random bytes always encode to 43 URL-safe characters, none of them '='. */
  lemma RandomIdEncoding(id: RandomId)
    ensures |Encode(id)| == 43
    ensures IsUrlSafe(Encode(id)) && '=' !in Encode(id)
  {

  }

  const KeyExtension: string := ".mp4"

  /** The object key: partition label, "/", the unpadded URL-safe base64 of the
      32 random bytes (43 characters, no '='), ".mp4". */
  function VideoKey(p: Partition, id: RandomId): (key: string)
    ensures |key| == |p.Label()| + 1 + 43 + |KeyExtension|
    ensures key[..|p.Label()|] == p.Label() && key[|p.Label()|] == '/'
    ensures key[|p.Label()| + 1..|key| - |KeyExtension|] == Encode(id)
    ensures IsUrlSafe(key[|p.Label()| + 1..|key| - |KeyExtension|])
    ensures '=' !in key[|p.Label()| + 1..|key| - |KeyExtension|]
    ensures key[|key| - |KeyExtension|..] == KeyExtension
  {
    var encoded := Encode(id);
    RandomIdEncoding(id);
    p.Label() + "/" + encoded + KeyExtension
  }

  /** The partition whose label is `s`, if any. */
  function PartitionOfLabel(s: string): (r: Option<Partition>)
    ensures r.Some? ==> r.value.Label() == s
  {
    if s == "landscape" then Some(Landscape)
    else if s == "portrait" then Some(Portrait)
    else if s == "other" then Some(Other)
    else None
  }

  /** Each partition is read back from its own label, so the three labels differ. */
  lemma PartitionOfLabelRoundTrip(p: Partition)
    ensures PartitionOfLabel(p.Label()) == Some(p)
  {
  }

  /** The index of the first '/' in `s`, or |s| when there is none. */
  function SlashIndex(s: string): (i: nat)
    ensures i <= |s|
    ensures forall j :: 0 <= j < i ==> s[j] != '/'
    ensures i < |s| ==> s[i] == '/'
  {
    if |s| == 0 || s[0] == '/' then 0 else 1 + SlashIndex(s[1..])
  }

  /** Reads a key back into its partition and random bytes; None for strings
      that are not keys. */
  function ParseVideoKey(key: string): Option<(Partition, RandomId)>
  {
    var i := SlashIndex(key);
    if i == |key| || |key| < i + 1 + |KeyExtension| || key[|key| - |KeyExtension|..] != KeyExtension then None
    else match (PartitionOfLabel(key[..i]), Decode(key[i + 1..|key| - |KeyExtension|]))
      case (Some(p), Some(id)) => if |id| == RandomIdLength then Some((p, id)) else None
      case _ => None
  }

  /** A key names its partition and its random bytes: reading it back gives both. */
  lemma ParseVideoKeyRoundTrip(p: Partition, id: RandomId)
    ensures ParseVideoKey(VideoKey(p, id)) == Some((p, id))
  {
    var key := VideoKey(p, id);
    var n := |p.Label()|;
    assert key[..n] == p.Label();
    assert SlashIndex(key) == n;
    DecodeEncode(id);
  }

  /** Different partitions or different random bytes give different keys. */
  lemma VideoKeyInjective(p1: Partition, id1: RandomId, p2: Partition, id2: RandomId)
    requires VideoKey(p1, id1) == VideoKey(p2, id2)
    ensures p1 == p2 && id1 == id2
  {
    ParseVideoKeyRoundTrip(p1, id1);
    ParseVideoKeyRoundTrip(p2, id2);
  }

  /** The prefix of every object URL in a bucket. */
  function ObjectUrlPrefix(bucket: string, region: string): string {
    "https://" + bucket + ".s3." + region + ".amazonaws.com/"
  }

  /** The public URL of an object: virtual-hosted-style S3 addressing. */
  function ObjectUrl(bucket: string, region: string, key: string): (url: string)
    ensures |url| == |ObjectUrlPrefix(bucket, region)| + |key|
    ensures url[..8] == "https://"
    ensures url[|url| - |key|..] == key
  {
    ObjectUrlPrefix(bucket, region) + key
  }

  /** The key an object URL of this bucket addresses; None for other URLs. */
  function KeyOfObjectUrl(bucket: string, region: string, url: string): Option<string> {
    var prefix := ObjectUrlPrefix(bucket, region);
    if |url| >= |prefix| && url[..|prefix|] == prefix then Some(url[|prefix|..]) else None
  }

  /** The URL addresses exactly the key it was built from. */
  lemma ObjectUrlRoundTrip(bucket: string, region: string, key: string)
    ensures KeyOfObjectUrl(bucket, region, ObjectUrl(bucket, region, key)) == Some(key)
  {

  }
}
