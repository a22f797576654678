/** Upload of one output file to MinIO, and the selection of the detections that
    belong to a frame. The MinIO client is not modelled: what it does with an
    upload is an input (`ClientBehaviour`). */
module StoreOutput {
  import opened Wrappers
  import opened Config
  import opened SaeMessages

  /** The index of the last occurrence of `c` in `s` (Python's `str.rfind`). */
  function LastIndexOf(s: string, c: char): (r: Option<nat>)
    ensures r.Some? ==> r.value < |s| && s[r.value] == c && forall j :: r.value < j < |s| ==> s[j] != c
    ensures r.None? ==> c !in s
  {
    if s == [] then None
    else if s[|s| - 1] == c then Some(|s| - 1)
    else LastIndexOf(s[..|s| - 1], c)
  }

  /** `PurePath.name`: what follows the last separator. */
  function PathName(path: string): (name: string)
    ensures '/' !in name
    ensures |name| <= |path| && name == path[|path| - |name|..]
    ensures name == path || path[|path| - |name| - 1] == '/'
  {
    match LastIndexOf(path, '/')
    case Some(i) => path[i + 1..]
    case None => path
  }

  /** A file below a directory, kept as `Path(dir) / name` keeps it: the
      directory part and the final component apart. */
  datatype FilePath = FilePath(dir: string, name: string) {
    /** `str(path)`. */
    function Text(): string { dir + "/" + name }
  }

  /** `PurePath.name` of the path's text is the final component it was built from. */
  lemma NameOfFilePath(file: FilePath)
    requires '/' !in file.name
    ensures PathName(file.Text()) == file.name
  {
    var path := file.Text();
    assert path[|file.dir|] == '/';
    assert path[|file.dir| + 1..] == file.name;
  }

  /** `PurePath.suffix` of a file name: the name from its last dot on,
      provided that dot is neither the first nor the last character;
      otherwise empty. */
  function Suffix(name: string): string {
    match LastIndexOf(name, '.')
    case Some(i) => if 0 < i < |name| - 1 then name[i..] else ""
    case None => ""
  }

  /** A non-empty suffix is a dot, then at least one character and no further
      dot, and it ends the name. */
  lemma SuffixShape(name: string)
    ensures var s := Suffix(name);
      s == "" || (2 <= |s| <= |name| && s[0] == '.' && '.' !in s[1..] && s == name[|name| - |s|..])
  {
  }

  /** The suffix of a name is what follows its last dot, dot included, unless
      the name starts with that dot or ends with it. */
  lemma SuffixOfDottedName(stem: string, ext: string)
    requires '.' !in ext
    ensures Suffix(stem + "." + ext) == if |stem| > 0 && |ext| > 0 then "." + ext else ""
  {
    var name := stem + "." + ext;
    var r := LastIndexOf(name, '.');
    assert name[|stem|] == '.';
    assert r == Some(|stem|);
    assert name[|stem|..] == "." + ext;
  }

  /** The content type chosen for an upload, from the suffix of the file's
      name; any suffix outside the table (case is significant) is sent as an
      opaque stream. */
  function ContentType(name: string): string {
    var suffix := Suffix(name);
    if suffix == ".zip" then "application/zip"
    else if suffix == ".jpg" then "image/jpeg"
    else if suffix == ".json" then "application/json"
    else "application/octet-stream"
  }

  lemma ContentTypeBySuffix(name: string)
    ensures ContentType(name) == "application/zip" <==> Suffix(name) == ".zip"
    ensures ContentType(name) == "image/jpeg" <==> Suffix(name) == ".jpg"
    ensures ContentType(name) == "application/json" <==> Suffix(name) == ".json"
    ensures ContentType(name) == "application/octet-stream" <==> Suffix(name) !in {".zip", ".jpg", ".json"}
  {
  }

  /** The content type of a file, from its name's stem and extension. */
  lemma FileContentType(stem: string, ext: string)
    requires '.' !in ext
    ensures ContentType(stem + "." + ext) == ExtensionContentType(stem, ext)
  {
    var name := stem + "." + ext;
    SuffixOfDottedName(stem, ext);
    if |stem| > 0 && |ext| > 0 {
      assert Suffix(name) == "." + ext;
      DottedExtensions(ext);
    } else {
      assert Suffix(name) == "";
    }
  }

  /** The table read by extension: no stem or no extension means no suffix. */
  function ExtensionContentType(stem: string, ext: string): string {
    if |stem| == 0 || |ext| == 0 then "application/octet-stream"
    else if ext == "zip" then "application/zip"
    else if ext == "jpg" then "image/jpeg"
    else if ext == "json" then "application/json"
    else "application/octet-stream"
  }

  lemma DottedExtensions(ext: string)
    ensures ("." + ext == ".zip") == (ext == "zip")
    ensures ("." + ext == ".jpg") == (ext == "jpg")
    ensures ("." + ext == ".json") == (ext == "json")
  {
    assert ("." + ext)[1..] == ext;
    assert ".zip"[1..] == "zip" && ".jpg"[1..] == "jpg" && ".json"[1..] == "json";
    assert "." + "zip" == ".zip" && "." + "jpg" == ".jpg" && "." + "json" == ".json";
  }

  /** What the MinIO client does with one upload. */
  datatype ClientBehaviour =
    | RejectsSettings   // constructing the client raises (e.g. a malformed endpoint)
    | PutFails          // `fput_object` raises
    | PutSucceeds

  /** One `fput_object` call: the bucket, the object name and the file; the
      content type sent with it is the one the file's suffix selects. */
  datatype PutObject = PutObject(bucket: string, objectName: string, file: FilePath) {
    function ContentTypeSent(): string { ContentType(file.name) }
  }

  /** The exception an upload raises: the client constructor's own error, which
      is not wrapped, or the `IOError` that wraps any failure of the put. */
  datatype UploadError = ClientSettingsError | UploadIOError(message: string)

  datatype UploadAttempt = UploadAttempt(put: Option<PutObject>, raised: Option<UploadError>)

  /** The message of the `IOError` raised for a failed upload. */
  function UploadErrorMessage(file: FilePath): string {
    "Could not upload file " + file.Text() + " to MinIO"
  }

  /** Upload one file: the put goes to the configured bucket under `objectName`
      with the suffix's content type; a failed put surfaces as an `IOError`
      naming the file and is never swallowed. */
  function SaveFileToMinio(minio: MinioConfig, file: FilePath, objectName: string, client: ClientBehaviour): (r: UploadAttempt)
    ensures r.put.Some? <==> client != RejectsSettings
    ensures r.put.Some? ==> r.put.value == PutObject(minio.bucketName, objectName, file)
    ensures r.raised.None? <==> client == PutSucceeds
    ensures client == PutFails ==> r.raised == Some(UploadIOError(UploadErrorMessage(file)))
  {
    var put := PutObject(minio.bucketName, objectName, file);
    match client
    case RejectsSettings => UploadAttempt(None, Some(ClientSettingsError))
    case PutFails => UploadAttempt(Some(put), Some(UploadIOError(UploadErrorMessage(file))))
    case PutSucceeds => UploadAttempt(Some(put), None)
  }

  /** The detections taken with the frame: those whose timestamp equals the frame's, in input order. */
  function MatchingDetections(timestampUtcMs: int, detections: seq<Detection>): seq<Detection> {
    if detections == [] then []
    else
      var last := detections[|detections| - 1];
      MatchingDetections(timestampUtcMs, detections[..|detections| - 1])
      + (if last.timestampUtcMs == timestampUtcMs then [last] else [])
  }

  lemma {:induction false} MatchingMembers(timestampUtcMs: int, detections: seq<Detection>, d: Detection)
    ensures d in MatchingDetections(timestampUtcMs, detections) <==> d in detections && d.timestampUtcMs == timestampUtcMs
  {
    if detections != [] {
      var init := detections[..|detections| - 1];
      MatchingMembers(timestampUtcMs, init, d);
      assert detections == init + [detections[|detections| - 1]];
    }
  }

  /** Selection keeps the input order: selecting from a concatenation selects from each part in turn. */
  lemma {:induction false} MatchingAppend(timestampUtcMs: int, a: seq<Detection>, b: seq<Detection>)
    ensures MatchingDetections(timestampUtcMs, a + b)
         == MatchingDetections(timestampUtcMs, a) + MatchingDetections(timestampUtcMs, b)
  {
    if b != [] {
      var init := b[..|b| - 1];
      assert (a + b)[..|a + b| - 1] == a + init;
      MatchingAppend(timestampUtcMs, a, init);
    } else {
      assert a + b == a;
    }
  }

  function MinXs(detections: seq<Detection>): (xs: seq<real>)
    ensures |xs| == |detections|
    ensures forall i :: 0 <= i < |xs| ==> xs[i] == detections[i].boundingBox.minX
  {
    seq(|detections|, i requires 0 <= i < |detections| => detections[i].boundingBox.minX)
  }

  /** The selection loop of the (unused) annotation routine: the `min_x` of
      every detection stamped with the frame's time, in input order. */
  method SelectCenterPoints(frame: VideoFrame, detections: seq<Detection>) returns (centerPoints: seq<real>)
    ensures centerPoints == MinXs(MatchingDetections(frame.timestampUtcMs, detections))
  {
    centerPoints := [];
    for i := 0 to |detections|
      invariant centerPoints == MinXs(MatchingDetections(frame.timestampUtcMs, detections[..i]))
    {
      var det := detections[i];
      assert detections[..i + 1][..i] == detections[..i];
      if det.timestampUtcMs == frame.timestampUtcMs {
        centerPoints := centerPoints + [det.boundingBox.minX];
      }
    }
    assert detections[..|detections|] == detections;
  }
}
