/** How `upload_directory` names and labels the files of a local tree. */
module Storage {
  import opened Wrappers
  import opened Text

  const HlsMime: string := "application/vnd.apple.mpegurl"
  const SegmentMime: string := "video/MP2T"
  const JsonMime: string := "application/json"
  const PngMime: string := "image/png"
  const JpegMime: string := "image/jpeg"

  /** The content type chosen from a file name's suffix; `None` uploads without one. */
  function ContentType(filename: string): Option<string> {
    if EndsWith(filename, ".m3u8") then Some(HlsMime)
    else if EndsWith(filename, ".ts") then Some(SegmentMime)
    else if EndsWith(filename, ".json") then Some(JsonMime)
    else if EndsWith(filename, ".png") then Some(PngMime)
    else if EndsWith(filename, ".jpg") || EndsWith(filename, ".jpeg") then Some(JpegMime)
    else None
  }

  /** The suffix table the if-chain encodes. */
  const SuffixTypes: seq<(string, string)> := [
    (".m3u8", HlsMime), (".ts", SegmentMime), (".json", JsonMime),
    (".png", PngMime), (".jpg", JpegMime), (".jpeg", JpegMime)
  ]

  /** Two suffixes neither of which ends with the other cannot both end one name. */
  lemma Exclusive(filename: string, a: string, b: string)
    requires !EndsWith(a, b) && !EndsWith(b, a)
    ensures !(EndsWith(filename, a) && EndsWith(filename, b))
  {
    if EndsWith(filename, a) && EndsWith(filename, b) {
      if |a| <= |b| {
        SuffixOfSuffix(filename, a, b);
      } else {
        SuffixOfSuffix(filename, b, a);
      }
    }
  }

  /** The order of the if-chain does not matter: a name with a listed suffix gets that suffix's
      type, and a name with none gets no content type. */
  lemma ContentTypeBySuffix(filename: string)
    ensures forall i :: 0 <= i < |SuffixTypes| && EndsWith(filename, SuffixTypes[i].0) ==>
      ContentType(filename) == Some(SuffixTypes[i].1)
    ensures ContentType(filename).None? <==>
      forall i :: 0 <= i < |SuffixTypes| ==> !EndsWith(filename, SuffixTypes[i].0)
  {
    Exclusive(filename, ".m3u8", ".ts");
    Exclusive(filename, ".m3u8", ".json");
    Exclusive(filename, ".m3u8", ".png");
    Exclusive(filename, ".m3u8", ".jpg");
    Exclusive(filename, ".m3u8", ".jpeg");
    Exclusive(filename, ".ts", ".json");
    Exclusive(filename, ".ts", ".png");
    Exclusive(filename, ".ts", ".jpg");
    Exclusive(filename, ".ts", ".jpeg");
    Exclusive(filename, ".json", ".png");
    Exclusive(filename, ".json", ".jpg");
    Exclusive(filename, ".json", ".jpeg");
    Exclusive(filename, ".png", ".jpg");
    Exclusive(filename, ".png", ".jpeg");
    Exclusive(filename, ".jpg", ".jpeg");
    var t := SuffixTypes;
    assert t[0].0 == ".m3u8" && t[1].0 == ".ts" && t[2].0 == ".json";
    assert t[3].0 == ".png" && t[4].0 == ".jpg" && t[5].0 == ".jpeg";
  }

  /** One file under a local directory: the sub-directory it sits in ("" for the root) and its name. */
  datatype LocalFile = LocalFile(dir: string, name: string)

  /** `os.path.relpath(os.path.join(root, filename), local_dir)`. */
  function RelativePath(f: LocalFile): string {
    if f.dir == "" then f.name else f.dir + "/" + f.name
  }

  /** What one `upload_file` call of the walk sends: the object key and content type. */
  datatype UploadRequest = UploadRequest(key: string, contentType: Option<string>)

  /** The uploads `upload_directory(prefix, tree)` performs, file by file in walk order. */
  function UploadPlan(prefix: string, tree: seq<LocalFile>): (r: seq<UploadRequest>)
    ensures |r| == |tree|
    ensures forall i :: 0 <= i < |tree| ==>
      StartsWith(r[i].key, prefix) && r[i].key[|prefix|..] == RelativePath(tree[i]) &&
      r[i].contentType == ContentType(tree[i].name)
  {
    seq(|tree|, i requires 0 <= i < |tree| => UploadRequest(prefix + RelativePath(tree[i]), ContentType(tree[i].name)))
  }

  lemma UploadPlanAppend(prefix: string, a: seq<LocalFile>, b: seq<LocalFile>)
    ensures UploadPlan(prefix, a + b) == UploadPlan(prefix, a) + UploadPlan(prefix, b)
  {
  }
}
