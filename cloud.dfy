/** The pure helpers of `cloud.ts`, the object-storage client: the content
    type guessed from an object name, the public URL of an uploaded object,
    the conversion of the upload body to bytes, and the defaults that
    `upload_file_to_cloud` fills in before it sends the object. The storage
    client itself, reading the file from disk and the environment that
    configures the bucket are not part of this model; the public base URL
    and the default bucket are parameters. */
module Cloud {
  import opened Wrappers
  import opened JsText
  import opened Platform

  const DefaultContentType: string := "application/octet-stream"

  /** The suffixes `inferContentType` tests, in its order. */
  const ContentTypeTable: seq<(string, string)> := [
    (".png", "image/png"),
    (".jpg", "image/jpeg"),
    (".jpeg", "image/jpeg"),
    (".gif", "image/gif"),
    (".webp", "image/webp"),
    (".mp4", "video/mp4"),
    (".mp3", "audio/mpeg"),
    (".txt", "text/plain"),
    (".pdf", "application/pdf")
  ]

  /** `inferContentType(objectName)`: the type of the first suffix in the
      table that the lower-cased name ends with, else the octet-stream
      default. */
  function InferContentType(objectName: string): (r: string)
    ensures (forall j :: 0 <= j < |ContentTypeTable| ==> !EndsWith(Lower(objectName), ContentTypeTable[j].0))
            ==> r == DefaultContentType
    ensures forall k :: 0 <= k < |ContentTypeTable| && EndsWith(Lower(objectName), ContentTypeTable[k].0)
                        && (forall j :: 0 <= j < k ==> !EndsWith(Lower(objectName), ContentTypeTable[j].0))
                        ==> r == ContentTypeTable[k].1
  {
    SuffixLookup(objectName, ContentTypeTable, DefaultContentType)
  }

  /** The test ignores the case of the name. */
  lemma ContentTypeIgnoresCase(a: string, b: string)
    requires Lower(a) == Lower(b)
    ensures InferContentType(a) == InferContentType(b)
  {
  }

  /** No suffix of the table ends in `n` or `v`: the last characters of its
      suffixes are `g`, `f`, `p`, `4`, `3` and `t`. */
  lemma NoSuffixEndsWith(l: string)
    requires l != [] && l[|l| - 1] in {'n', 'v'}
    ensures forall j :: 0 <= j < |ContentTypeTable| ==> !EndsWith(l, ContentTypeTable[j].0)
  {
    forall j | 0 <= j < |ContentTypeTable|
      ensures !EndsWith(l, ContentTypeTable[j].0)
    {
      var sfx := ContentTypeTable[j].0;
      assert sfx[|sfx| - 1] in {'g', 'f', 'p', '4', '3', 't'};
      if |sfx| <= |l| {
        assert l[|l| - |sfx|..][|sfx| - 1] == l[|l| - 1];
      }
    }
  }

  /** Unlike the table of the metadata layer, this one knows no `.json` and
      no `.csv`: both are octet streams here. */
  lemma JsonAndCsvAreOctetStreams(stem: string)
    ensures InferContentType(stem + ".json") == DefaultContentType
    ensures InferContentType(stem + ".csv") == DefaultContentType
  {
    LowerConcat(stem, ".json");
    LowerConcat(stem, ".csv");
    assert Lower(".json") == ".json";
    assert Lower(".csv") == ".csv";
    NoSuffixEndsWith(Lower(stem) + ".json");
    NoSuffixEndsWith(Lower(stem) + ".csv");
  }

  /** A name ending `.pdf` in any case is a PDF document. */
  lemma PdfIsPdf(stem: string)
    ensures InferContentType(stem + ".pdf") == "application/pdf"
    ensures InferContentType(stem + ".PDF") == "application/pdf"
  {
    LowerConcat(stem, ".pdf");
    LowerConcat(stem, ".PDF");
    assert Lower(".pdf") == ".pdf";
    assert Lower(".PDF") == ".pdf";
    var l := Lower(stem) + ".pdf";
    assert l[|l| - 4..] == ".pdf";
    assert l[|l| - 1] == 'f' && l[|l| - 2] == 'd';
    forall j | 0 <= j < 8
      ensures !EndsWith(l, ContentTypeTable[j].0)
    {
      var sfx := ContentTypeTable[j].0;
      if |sfx| <= |l| {
        assert sfx[|sfx| - 1] != l[|l| - 1] || sfx[|sfx| - 2] != l[|l| - 2];
        assert l[|l| - |sfx|..][|sfx| - 1] == l[|l| - 1];
        assert l[|l| - |sfx|..][|sfx| - 2] == l[|l| - 2];
      }
    }
    assert EndsWith(l, ContentTypeTable[8].0);
  }

  /** `base.replace(/\/$/, "")`: one `/` at the very end goes. */
  function StripTrailingSlash(base: string): string {
    if base != [] && base[|base| - 1] == '/' then base[..|base| - 1] else base
  }

  /** `getPublicUrl(objectName)` with `BUCKET_PUB_URL` as `base`: the name
      alone without a base, else the base, less one trailing `/`, and the
      name joined by `/`. */
  function GetPublicUrl(base: string, objectName: string): (r: string)
    ensures base == "" ==> r == objectName
    ensures base != "" ==> EndsWith(r, "/" + objectName)
    ensures base != "" ==> |r| == |StripTrailingSlash(base)| + 1 + |objectName|
                           && StartsWith(base, r[..|r| - |objectName| - 1])
  {
    if base == "" then objectName else StripTrailingSlash(base) + "/" + objectName
  }

  /** A base given with or without its trailing `/` names the same object
      URL; a second trailing `/` is kept. */
  lemma PublicUrlOneSlash(host: string, objectName: string)
    requires host != [] && host[|host| - 1] != '/'
    ensures GetPublicUrl(host + "/", objectName) == host + "/" + objectName
    ensures GetPublicUrl(host, objectName) == host + "/" + objectName
    ensures GetPublicUrl(host + "//", objectName) == host + "/" + "/" + objectName
  {
    assert (host + "/")[..|host|] == host;
    assert (host + "//")[..|host| + 1] == host + "/";
  }

  /** The last `/` of `s + "/" + name` is the joining one when `name` has
      none. */
  lemma LastSlashJoins(s: string, name: string)
    requires '/' !in name
    ensures LastIndexOf(s + "/" + name, '/') == |s|
    ensures (s + "/" + name)[|s| + 1..] == name
  {
    var r := s + "/" + name;
    assert r[|s|] == '/' && r[|s| + 1..] == name;
  }

  /** The object name is what follows the last `/` of the URL when the name
      has no `/` of its own. */
  lemma PublicUrlNamesObject(base: string, objectName: string)
    requires base != "" && '/' !in objectName
    ensures var r := GetPublicUrl(base, objectName);
            r[LastIndexOf(r, '/') + 1..] == objectName
  {
    LastSlashJoins(StripTrailingSlash(base), objectName);
  }

  /** The body of an upload: bytes, or a string of base64 text. */
  datatype UploadBytes = Binary(bytes: seq<byte>) | Base64Text(text: string)

  /** `toBytes(input)`: bytes pass through, text is base64-decoded. */
  function ToBytes(p: Platform, input: UploadBytes): (r: seq<byte>)
    ensures input.Binary? ==> r == input.bytes
    ensures input.Base64Text? ==> r == p.base64Decode(input.text)
  {
    match input
    case Binary(bytes) => bytes
    case Base64Text(text) => p.base64Decode(text)
  }

  /** Bytes sent as their base64 text come out as the same bytes. */
  lemma ToBytesOfEncoding(p: Platform, bytes: seq<byte>)
    requires Sound(p)
    ensures ToBytes(p, Base64Text(p.base64Encode(bytes))) == ToBytes(p, Binary(bytes))
  {
  }

  /** `path.basename(path)` for `/`-separated paths: trailing `/`s are
      dropped, then what follows the last `/` is the name. */
  function StripTrailingSlashes(path: string): (r: string)
    ensures |r| <= |path| && r == path[..|r|]
    ensures r == [] || r[|r| - 1] != '/'
    ensures forall j :: |r| <= j < |path| ==> path[j] == '/'
  {
    if path != [] && path[|path| - 1] == '/' then StripTrailingSlashes(path[..|path| - 1]) else path
  }

  function Basename(path: string): (r: string)
    ensures '/' !in r
    ensures var t := StripTrailingSlashes(path); EndsWith(t, r) && (|r| < |t| ==> t[|t| - |r| - 1] == '/')
  {
    var t := StripTrailingSlashes(path);
    var r := t[LastIndexOf(t, '/') + 1..];
    assert t[|t| - |r|..] == r;
    r
  }

  /** The name of a file in a directory is its basename. */
  lemma BasenameOfJoin(dir: string, name: string)
    requires name != [] && '/' !in name
    ensures Basename(dir + "/" + name) == name
    ensures Basename(dir + "/" + name + "/") == name
  {
    var path := dir + "/" + name;
    assert path[|path| - 1] == name[|name| - 1];
    assert StripTrailingSlashes(path) == path;
    assert (path + "/")[..|path|] == path;
    LastSlashJoins(dir, name);
  }

  /** The options of `upload_file_to_cloud`; an absent one is `None`. */
  datatype UploadOptions = UploadOptions(
    filePath: Option<string>,
    fileBytes: Option<UploadBytes>,
    bucketName: Option<string>,
    objectName: Option<string>,
    contentType: Option<string>)

  /** Where the object's body comes from. */
  datatype UploadSource = FromBytes(bytes: seq<byte>) | FromFile(path: string)

  /** What `upload_file_to_cloud` sends, and the URL it returns. */
  datatype UploadPlan = UploadPlan(
    bucket: string,
    key: string,
    body: UploadSource,
    contentType: string,
    publicUrl: string)

  const MissingInput: string := "Provide filePath or fileBytes"

  /** The object name of `upload_file_to_cloud`: the given one (even if
      empty), else the basename of a non-empty path, else `uploaded_file`. */
  function ObjectName(options: UploadOptions): (name: string)
    ensures options.objectName.Some? ==> name == options.objectName.value
    ensures options.objectName.None? && Truthy(options.filePath) ==> name == Basename(options.filePath.value)
    ensures options.objectName.None? && !Truthy(options.filePath) ==> name == "uploaded_file"
  {
    options.objectName.GetOr(if Truthy(options.filePath) then Basename(options.filePath.value) else "uploaded_file")
  }

  /** `upload_file_to_cloud(options)` up to the storage call. Bytes win over
      a path, and with neither the call throws; the content type is the
      given one, else the one inferred from the object name. */
  function PlanUpload(p: Platform, defaultBucket: string, publicBase: string, options: UploadOptions)
    : (r: Result<UploadPlan, string>)
    ensures r.Failure? <==> options.fileBytes.None? && !Truthy(options.filePath)
    ensures r.Failure? ==> r.error == MissingInput
    ensures r.Success? ==> r.value.key == ObjectName(options)
    ensures r.Success? ==> r.value.bucket == options.bucketName.GetOr(defaultBucket)
    ensures r.Success? && options.fileBytes.Some? ==> r.value.body == FromBytes(ToBytes(p, options.fileBytes.value))
    ensures r.Success? && options.fileBytes.None? ==> r.value.body == FromFile(options.filePath.value)
    ensures r.Success? && options.contentType.Some? ==> r.value.contentType == options.contentType.value
    ensures r.Success? && options.contentType.None? ==> r.value.contentType == InferContentType(r.value.key)
    ensures r.Success? ==> r.value.publicUrl == GetPublicUrl(publicBase, r.value.key)
  {
    if options.fileBytes.None? && !Truthy(options.filePath) then
      Failure(MissingInput)
    else
      var objectName := ObjectName(options);
      var body := if options.fileBytes.Some? then FromBytes(ToBytes(p, options.fileBytes.value))
                  else FromFile(options.filePath.value);
      var contentType := options.contentType.GetOr(InferContentType(objectName));
      Success(UploadPlan(options.bucketName.GetOr(defaultBucket), objectName, body, contentType,
                         GetPublicUrl(publicBase, objectName)))
  }

  /** `upload_file(filePath)`: uploads the file under its basename with the
      inferred type, and returns that basename; it throws, returning no
      name, when `upload_file_to_cloud` does. */
  function UploadFile(p: Platform, defaultBucket: string, publicBase: string, filePath: string)
    : (r: Result<(UploadPlan, string), string>)
    ensures filePath == "" ==> r == Failure(MissingInput)
    ensures filePath != "" ==>
              && r.Success? && r.value.1 == Basename(filePath)
              && r.value.0.key == r.value.1 && r.value.0.body == FromFile(filePath)
              && r.value.0.contentType == InferContentType(r.value.1)
              && r.value.0.bucket == defaultBucket
  {
    var fileName := Basename(filePath);
    var options := UploadOptions(Some(filePath), None, None, Some(fileName), Some(InferContentType(fileName)));
    var plan := PlanUpload(p, defaultBucket, publicBase, options);
    if plan.Failure? then Failure(plan.error) else Success((plan.value, fileName))
  }
}
