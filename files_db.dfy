/** The file catalogue of `lib/files-db.ts`: name and MIME inference, the
    `data:` URL parser, the resolution of a file's viewable content from its
    stored locator, the locator `createFileRecord` stores, and the listing of
    a directory. The database is a function from query values to rows; the
    remote fetch is a function from URL to `FetchOutcome`; base64, UTF-8 and
    `Date` are the fields of a `Platform`. */
module FilesDb {
  import opened Wrappers
  import opened JsText
  import opened Platform

  /** The user every query runs as when `FILE_USER_ID` is not set. */
  const DefaultUser: string := "8199889776"

  /** `process.env.FILE_USER_ID ?? "8199889776"`: a variable set to the
      empty string is kept, since `??` only replaces a missing one. */
  function DefaultUserId(env: map<string, string>): (r: string)
    ensures "FILE_USER_ID" in env ==> r == env["FILE_USER_ID"]
    ensures "FILE_USER_ID" !in env ==> r == DefaultUser
  {
    if "FILE_USER_ID" in env then env["FILE_USER_ID"] else DefaultUser
  }

  // Names and MIME types.

  /** `getExtension`: the lower-cased text after the last `.`, or `bin` when
      there is no `.` or nothing follows it. */
  function GetExtension(name: string): (r: string)
    ensures r != ""
    ensures '.' !in name ==> r == "bin"
  {
    var idx := LastIndexOf(name, '.');
    if idx == -1 then "bin"
    else
      var ext := Lower(name[idx + 1..]);
      if ext == "" then "bin" else ext
  }

  /** A name that ends in `.` has extension `bin`. */
  lemma ExtensionOfTrailingDot(stem: string)
    ensures GetExtension(stem + ".") == "bin"
  {
    var name := stem + ".";
    assert name[|name| - 1] == '.';
    assert LastIndexOf(name, '.') == |stem|;
  }

  /** The extension of `stem.ext` is `ext` lower-cased, whatever the stem
      holds, as long as `ext` is non-empty and has no `.` of its own. */
  lemma ExtensionOfComposed(stem: string, ext: string)
    requires ext != [] && '.' !in ext
    ensures GetExtension(stem + "." + ext) == Lower(ext)
  {
    var name := stem + "." + ext;
    var idx := LastIndexOf(name, '.');
    assert name[|stem|] == '.';
    forall j | |stem| < j < |name|
      ensures name[j] != '.'
    {
      assert name[j] == ext[j - |stem| - 1];
    }
    assert idx == |stem|;
    assert name[idx + 1..] == ext;
  }

  /** The suffix table of `guessMimeType`, in the order it is tried. */
  const MimeTable: seq<(string, string)> := [
    (".txt", "text/plain"),
    (".json", "application/json"),
    (".csv", "text/csv"),
    (".png", "image/png"),
    (".jpg", "image/jpeg"),
    (".jpeg", "image/jpeg"),
    (".gif", "image/gif"),
    (".webp", "image/webp"),
    (".mp3", "audio/mpeg"),
    (".mp4", "video/mp4")
  ]

  const OctetStream: string := "application/octet-stream"

  /** `guessMimeType(name, fallback)`. */
  function GuessMimeType(name: string, fallback: Option<string>): (r: string)
    ensures Truthy(fallback) ==> r == fallback.value
    ensures !Truthy(fallback) && (forall j :: 0 <= j < |MimeTable| ==> !EndsWith(Lower(name), MimeTable[j].0))
            ==> r == OctetStream
    ensures !Truthy(fallback) ==>
              forall k :: 0 <= k < |MimeTable| && EndsWith(Lower(name), MimeTable[k].0)
                          && (forall j :: 0 <= j < k ==> !EndsWith(Lower(name), MimeTable[j].0))
                          ==> r == MimeTable[k].1
  {
    if Truthy(fallback) then fallback.value else SuffixLookup(name, MimeTable, OctetStream)
  }

  /** The guessed type is never empty. */
  lemma MimeTypeNonEmpty(name: string, fallback: Option<string>)
    ensures GuessMimeType(name, fallback) != ""
  {
    if !Truthy(fallback) {
      var k := FirstSuffixMatch(Lower(name), MimeTable);
      if k < |MimeTable| {
        assert MimeTable[k].1 in {"text/plain", "application/json", "text/csv", "image/png",
                                  "image/jpeg", "image/gif", "image/webp", "audio/mpeg", "video/mp4"};
      }
    }
  }

  /** The suffix test ignores the case of the name: `photo.JPG` and
      `photo.jpg` get the same type. */
  lemma MimeTypeIgnoresCase(a: string, b: string, fallback: Option<string>)
    requires Lower(a) == Lower(b)
    ensures GuessMimeType(a, fallback) == GuessMimeType(b, fallback)
  {
  }

  /** A name ending `.jpeg` in any case is a JPEG image: the earlier rows of
      the table all end in something other than `.jpeg`'s last characters. */
  lemma MimeTypeOfJpeg(stem: string)
    ensures GuessMimeType(stem + ".JPEG", None) == "image/jpeg"
    ensures GuessMimeType(stem + ".jpeg", None) == "image/jpeg"
  {
    LowerConcat(stem, ".JPEG");
    LowerConcat(stem, ".jpeg");
    assert Lower(".JPEG") == ".jpeg";
    assert Lower(".jpeg") == ".jpeg";
    var l := Lower(stem) + ".jpeg";
    assert l[|l| - 5..] == ".jpeg";
    assert l[|l| - 1] == 'g' && l[|l| - 2] == 'e';
    forall j | 0 <= j < 5
      ensures !EndsWith(l, MimeTable[j].0)
    {
      var sfx := MimeTable[j].0;
      if |sfx| <= |l| {
        assert sfx[|sfx| - 1] != l[|l| - 1] || sfx[|sfx| - 2] != l[|l| - 2];
        assert l[|l| - |sfx|..][|sfx| - 1] == l[|l| - 1];
        assert l[|l| - |sfx|..][|sfx| - 2] == l[|l| - 2];
      }
    }
    assert EndsWith(l, MimeTable[5].0);
  }

  // `data:` URLs: the base64 form of RFC 2397 as the regular expression
  // `^data:([^;]+);base64,(.+)$` accepts it. `[^;]` admits any character
  // but `;`, line breaks included; `.` admits none of the ECMAScript line
  // terminators, and without the `m` flag `$` is the end of the text.

  predicate IsLineTerminator(c: char) {
    c == '\n' || c == '\r' || c as int == 0x2028 || c as int == 0x2029
  }

  /** The text `data:<mime>;base64,<payload>` the regular expression
      accepts, read as its two groups. */
  ghost predicate IsDataUrl(s: string, mime: string, payload: string) {
    && s == "data:" + mime + ";base64," + payload
    && mime != "" && ';' !in mime
    && payload != [] && (forall i :: 0 <= i < |payload| ==> !IsLineTerminator(payload[i]))
  }

  function NoLineTerminator(s: string): (b: bool)
    ensures b <==> forall i :: 0 <= i < |s| ==> !IsLineTerminator(s[i])
  {
    s == [] || (!IsLineTerminator(s[0]) && NoLineTerminator(s[1..]))
  }

  /** The two groups of the match, or `None` when the text does not match.
      The first `;` after `data:` ends the MIME group, so it must open
      `;base64,`. */
  function MatchDataUrl(s: string): (r: Option<(string, string)>)
    ensures r.Some? ==> IsDataUrl(s, r.value.0, r.value.1)
  {
    if !StartsWith(s, "data:") then None
    else
      var rest := s[5..];
      var semi := IndexOf(rest, ';');
      if semi < 1 then None
      else
        var tail := rest[semi..];
        if !StartsWith(tail, ";base64,") then None
        else
          var payload := tail[8..];
          if payload == [] || !NoLineTerminator(payload) then None
          else
            assert s == "data:" + rest[..semi] + ";base64," + payload by {
              assert s == s[..5] + rest;
              assert rest == rest[..semi] + tail;
              assert tail == tail[..8] + payload;
            }
            Some((rest[..semi], payload))
  }

  /** Every text of the accepted form matches, with exactly its groups: with
      the contract of `MatchDataUrl`, the match succeeds if and only if the
      text has that form, and the groups are unique. */
  lemma DataUrlMatches(s: string, mime: string, payload: string)
    requires IsDataUrl(s, mime, payload)
    ensures MatchDataUrl(s) == Some((mime, payload))
  {
    var tail := ";base64," + payload;
    var rest := s[5..];
    assert StartsWith(s, "data:") && rest == mime + tail by {
      assert s == "data:" + (mime + tail);
    }
    assert IndexOf(rest, ';') == |mime| by {
      FirstSemicolon(mime, tail);
    }
    assert rest[..|mime|] == mime && rest[|mime|..] == tail;
    assert StartsWith(tail, ";base64,") && tail[8..] == payload;
  }

  /** The first `;` of `mime + tail` opens `tail` when `mime` has none. */
  lemma FirstSemicolon(mime: string, tail: string)
    requires ';' !in mime && tail != [] && tail[0] == ';'
    ensures IndexOf(mime + tail, ';') == |mime|
  {
    var t := mime + tail;
    assert t[|mime|] == ';';
    forall j | 0 <= j < |mime|
      ensures t[j] != ';'
    {
      assert t[j] == mime[j];
    }
  }

  /** What `parseDataUrl` returns on a match. */
  datatype ParsedDataUrl = ParsedDataUrl(mimeType: string, buffer: seq<byte>)

  /** `parseDataUrl`: the MIME group and the decoded payload. */
  function ParseDataUrl(p: Platform, s: string): (r: Option<ParsedDataUrl>)
    ensures r.Some? <==> MatchDataUrl(s).Some?
    ensures r.Some? ==> exists payload :: IsDataUrl(s, r.value.mimeType, payload)
                                          && r.value.buffer == p.base64Decode(payload)
  {
    match MatchDataUrl(s)
    case None => None
    case Some((mime, payload)) => Some(ParsedDataUrl(mime, p.base64Decode(payload)))
  }

  /** The `data:` URL `createFileRecord` synthesises from text content. */
  function SynthesizedDataUrl(p: Platform, mimeType: string, content: string): string {
    "data:" + mimeType + ";base64," + p.base64Encode(p.utf8Encode(content))
  }

  /** A synthesised URL parses back to its MIME type and to the UTF-8 bytes
      of the content, provided the type is non-empty and has no `;`. */
  lemma SynthesizedDataUrlParses(p: Platform, mimeType: string, content: string)
    requires Sound(p)
    requires content != "" && mimeType != "" && ';' !in mimeType
    ensures ParseDataUrl(p, SynthesizedDataUrl(p, mimeType, content))
            == Some(ParsedDataUrl(mimeType, p.utf8Encode(content)))
  {
    var bytes := p.utf8Encode(content);
    var payload := p.base64Encode(bytes);
    assert |bytes| > 0;
    assert |payload| > 0;
    forall i | 0 <= i < |payload|
      ensures !IsLineTerminator(payload[i])
    {
      assert IsBase64Char(payload[i]);
    }
    DataUrlMatches(SynthesizedDataUrl(p, mimeType, content), mimeType, payload);
  }

  // Files as the catalogue queries return them.

  /** A row of `public.files` as `listFiles` selects it. */
  datatype DbFileRow = DbFileRow(
    id: string, fileName: string, storageKey: string, storageUrl: Option<string>,
    mimeType: Option<string>, fileSize: Option<int>, parentId: Option<string>,
    isPublic: bool, updatedAt: string)

  /** `FileRow`. */
  datatype FileRow = FileRow(
    id: string, name: string, storageKey: string, directoryId: Option<string>,
    size: int, extension: string, mimeType: string, updatedAt: string,
    storageUrl: Option<string>, isPublic: bool)

  /** One element of the `result.rows.map(...)` in `listFiles`. */
  function ToFileRow(p: Platform, row: DbFileRow): (r: FileRow)
    ensures r.id == row.id && r.name == row.fileName && r.storageKey == row.storageKey
    ensures r.directoryId == row.parentId && r.storageUrl == row.storageUrl && r.isPublic == row.isPublic
    ensures r.size == row.fileSize.GetOr(0)
    ensures r.extension == GetExtension(row.fileName)
    ensures r.mimeType == GuessMimeType(row.fileName, row.mimeType)
    ensures r.updatedAt == p.toIsoString(row.updatedAt)
  {
    FileRow(row.id, row.fileName, row.storageKey, row.parentId, row.fileSize.GetOr(0),
            GetExtension(row.fileName), GuessMimeType(row.fileName, row.mimeType),
            p.toIsoString(row.updatedAt), row.storageUrl, row.isPublic)
  }

  /** `result.rows.map(...)`: one file per row, in the order of the rows. */
  function ToFileRows(p: Platform, rows: seq<DbFileRow>): (r: seq<FileRow>)
    ensures |r| == |rows|
    ensures forall i :: 0 <= i < |rows| ==> r[i] == ToFileRow(p, rows[i])
  {
    if rows == [] then [] else [ToFileRow(p, rows[0])] + ToFileRows(p, rows[1..])
  }

  /** The directory row `listFiles` looks up first. */
  datatype DirectoryRow = DirectoryRow(id: string, fileName: string, parentId: Option<string>)

  /** The root directory is the top-level folder named `root`, in any case;
      only its listing includes the files that have no parent. */
  predicate IncludeTopLevelFiles(dir: DirectoryRow) {
    dir.parentId.None? && Lower(dir.fileName) == "root"
  }

  /** The rule spelled out: a top-level folder whose four-letter name is
      `root` in any mix of case, and nothing else. */
  lemma TopLevelFilesRule(dir: DirectoryRow)
    ensures IncludeTopLevelFiles(dir) <==>
              && dir.parentId.None? && |dir.fileName| == 4
              && dir.fileName[0] in {'r', 'R'} && dir.fileName[1] in {'o', 'O'}
              && dir.fileName[2] in {'o', 'O'} && dir.fileName[3] in {'t', 'T'}
  {
    if dir.parentId.None? && |dir.fileName| == 4 {
      var l := Lower(dir.fileName);
      assert l == "root" <==> l[0] == 'r' && l[1] == 'o' && l[2] == 'o' && l[3] == 't';
    }
  }

  /** `listFiles(directoryId)`. `selectDirectory` runs the directory query on
      `[directoryId, userId]`; `selectFiles` runs the file query on
      `[userId, directoryId, includeTopLevelFiles]`. An unknown directory
      gives the empty list without the second query. */
  method ListFiles(p: Platform, env: map<string, string>, directoryId: string,
                   selectDirectory: (string, string) -> Option<DirectoryRow>,
                   selectFiles: (string, string, bool) -> seq<DbFileRow>)
    returns (files: seq<FileRow>, filesQuery: Option<(string, string, bool)>)
    ensures var dir := selectDirectory(directoryId, DefaultUserId(env));
            && (dir.None? ==> files == [] && filesQuery.None?)
            && (dir.Some? ==>
                  && filesQuery == Some((DefaultUserId(env), directoryId, IncludeTopLevelFiles(dir.value)))
                  && files == ToFileRows(p, selectFiles(DefaultUserId(env), directoryId, IncludeTopLevelFiles(dir.value))))
  {
    var userId := DefaultUserId(env);
    var selected := selectDirectory(directoryId, userId);
    if selected.None? {
      return [], None;
    }
    var includeTopLevelFiles := IncludeTopLevelFiles(selected.value);
    filesQuery := Some((userId, directoryId, includeTopLevelFiles));
    files := ToFileRows(p, selectFiles(userId, directoryId, includeTopLevelFiles));
  }

  /** What `getFileById` selects for one file. */
  datatype DbFileSummary = DbFileSummary(
    id: string, fileName: string, storageUrl: Option<string>, mimeType: Option<string>, isPublic: bool)

  /** What `getFileById` returns. */
  datatype FileRecord = FileRecord(
    id: string, name: string, storageUrl: Option<string>, mimeType: string, isPublic: bool)

  /** `getFileById(fileId)`: `select` runs the lookup on `[fileId, userId]`. */
  function GetFileById(env: map<string, string>, fileId: string,
                       select: (string, string) -> Option<DbFileSummary>): (r: Option<FileRecord>)
    ensures var row := select(fileId, DefaultUserId(env));
            && (r.Some? <==> row.Some?)
            && (r.Some? ==> r.value == FileRecord(row.value.id, row.value.fileName, row.value.storageUrl,
                                                  GuessMimeType(row.value.fileName, row.value.mimeType),
                                                  row.value.isPublic))
  {
    match select(fileId, DefaultUserId(env))
    case None => None
    case Some(row) =>
      Some(FileRecord(row.id, row.fileName, row.storageUrl, GuessMimeType(row.fileName, row.mimeType), row.isPublic))
  }

  // Content resolution.

  datatype FileContentRow = FileContentRow(
    id: string, name: string, mimeType: string,
    content: Option<string>, dataUrl: Option<string>, sourceUrl: Option<string>)

  /** `resolveFileContent` settles to a row, to `null`, or rejects when the
      fetch it awaits rejects (it does not catch). */
  datatype Resolution = Resolved(row: Option<FileContentRow>) | Rejected

  /** The text content of a `data:` locator: its payload decoded as UTF-8
      when it parses and its own type is `text/…`. */
  function DataUrlContent(p: Platform, s: string): (r: Option<string>)
    ensures r.Some? ==> exists mime, payload :: IsDataUrl(s, mime, payload) && StartsWith(mime, "text/")
  {
    match ParseDataUrl(p, s)
    case None => None
    case Some(parsed) =>
      if StartsWith(parsed.mimeType, "text/") then Some(p.utf8Decode(parsed.buffer)) else None
  }

  /** Text stored through `createFileRecord` as a `data:` URL reads back as
      the same text. */
  lemma StoredTextReadsBack(p: Platform, mimeType: string, content: string)
    requires Sound(p)
    requires content != "" && StartsWith(mimeType, "text/") && ';' !in mimeType
    ensures DataUrlContent(p, SynthesizedDataUrl(p, mimeType, content)) == Some(content)
  {
    SynthesizedDataUrlParses(p, mimeType, content);
  }

  /** A type with parameters, such as `text/plain;charset=utf-8`, makes
      stored text unreadable: the first `;` of the URL is the type's own,
      and `;base64,` does not follow it. */
  lemma ParameterisedTypeUnreadable(p: Platform, mime: string, param: string, content: string)
    requires mime != "" && ';' !in mime
    requires |param| >= 7 && param[..7] != "base64,"
    ensures MatchDataUrl(SynthesizedDataUrl(p, mime + ";" + param, content)).None?
    ensures DataUrlContent(p, SynthesizedDataUrl(p, mime + ";" + param, content)).None?
  {
    var after := ";base64," + p.base64Encode(p.utf8Encode(content));
    assert SynthesizedDataUrl(p, mime + ";" + param, content) == "data:" + (mime + (";" + param + after));
    NoMatchAfterParameter(mime, param, after);
  }

  /** The first `;` after `data:` opens the parameter, which is not
      `base64,`. */
  lemma NoMatchAfterParameter(mime: string, param: string, after: string)
    requires mime != "" && ';' !in mime
    requires |param| >= 7 && param[..7] != "base64,"
    ensures MatchDataUrl("data:" + (mime + (";" + param + after))).None?
  {
    var tail := ";" + param + after;
    var s := "data:" + (mime + tail);
    assert s[5..] == mime + tail;
    FirstSemicolon(mime, tail);
    assert (mime + tail)[|mime|..] == tail;
    assert tail[1..8] == param[..7];
  }

  predicate IsText(mimeType: string) {
    StartsWith(mimeType, "text/")
  }

  /** `resolveFileContent`, given what `getFileById` returned. `fetched`
      tells whether the fetch was made. */
  method ResolveFileContent(p: Platform, file: Option<FileRecord>, allowlist: set<string>,
                            fetch: string -> FetchOutcome)
    returns (r: Resolution, fetched: bool)
    ensures file.None? ==> r == Resolved(None) && !fetched
    ensures file.Some? ==> var f, url := file.value, file.value.storageUrl;
      && (r.Resolved? ==> r.row.Some? && r.row.value.id == f.id && r.row.value.name == f.name
                          && r.row.value.mimeType == f.mimeType)
      && (fetched <==> Truthy(url) && !StartsWith(url.value, "data:") && StartsWith(url.value, "http")
                       && IsText(f.mimeType) && url.value in allowlist)
      && (r.Rejected? <==> fetched && fetch(url.value).Threw?)
      && (!Truthy(url) ==> r == Resolved(Some(FileContentRow(f.id, f.name, f.mimeType, None, None, None))))
      && (Truthy(url) && StartsWith(url.value, "data:") ==>
            r == Resolved(Some(FileContentRow(f.id, f.name, f.mimeType, DataUrlContent(p, url.value), url, None))))
      && (Truthy(url) && !StartsWith(url.value, "data:") && StartsWith(url.value, "http") && r.Resolved? ==>
            var row := r.row.value;
            && row.sourceUrl == url
            && row.dataUrl == (if !IsText(f.mimeType) && f.isPublic then url else None)
            && row.content == (if fetched && IsOk(fetch(url.value)) then Some(fetch(url.value).body) else None))
      && (Truthy(url) && !StartsWith(url.value, "data:") && !StartsWith(url.value, "http") ==>
            r == Resolved(Some(FileContentRow(f.id, f.name, f.mimeType, None, None, None))))
  {
    fetched := false;
    if file.None? {
      return Resolved(None), false;
    }
    var f := file.value;
    var base := FileContentRow(f.id, f.name, f.mimeType, None, None, None);
    if !Truthy(f.storageUrl) {
      return Resolved(Some(base)), false;
    }
    var url := f.storageUrl.value;
    if StartsWith(url, "data:") {
      base := base.(dataUrl := Some(url));
      var parsed := ParseDataUrl(p, url);
      if parsed.Some? && StartsWith(parsed.value.mimeType, "text/") {
        base := base.(content := Some(p.utf8Decode(parsed.value.buffer)));
      }
      return Resolved(Some(base)), false;
    }
    if StartsWith(url, "http") {
      base := base.(sourceUrl := Some(url));
      if IsText(f.mimeType) {
        if url !in allowlist {
          return Resolved(Some(base)), false;
        }
        var response := fetch(url);
        fetched := true;
        if response.Threw? {
          return Rejected, true;
        }
        if IsOk(response) {
          base := base.(content := Some(response.body));
        }
      } else if f.isPublic {
        base := base.(dataUrl := Some(url));
      }
      return Resolved(Some(base)), fetched;
    }
    r := Resolved(Some(base));
  }

  // The stored locator of a new file.

  datatype CreateParams = CreateParams(
    directoryId: string, title: string, mimeType: string, size: Option<int>,
    dataUrl: Option<string>, content: Option<string>)

  /** `params.mimeType || guessMimeType(name, null)`. */
  function EffectiveMimeType(params: CreateParams): (r: string)
    ensures params.mimeType != "" ==> r == params.mimeType
    ensures params.mimeType == "" ==> r == GuessMimeType(params.title, None)
  {
    if params.mimeType != "" then params.mimeType else GuessMimeType(params.title, None)
  }

  /** The `storageUrl` `createFileRecord` stores: the given `dataUrl`
      (kept even when empty, since `??` only replaces `null`); otherwise,
      when there is non-empty content and no non-empty `dataUrl`, a
      synthesised `data:` URL. */
  method DeriveStorageUrl(p: Platform, params: CreateParams, mimeType: string) returns (storageUrl: Option<string>)
    ensures Truthy(params.dataUrl) ==> storageUrl == params.dataUrl
    ensures !Truthy(params.dataUrl) && Truthy(params.content) ==>
              storageUrl == Some(SynthesizedDataUrl(p, mimeType, params.content.value))
    ensures !Truthy(params.dataUrl) && !Truthy(params.content) ==> storageUrl == params.dataUrl
  {
    storageUrl := params.dataUrl;
    if !Truthy(storageUrl) && Truthy(params.content) {
      storageUrl := Some(SynthesizedDataUrl(p, mimeType, params.content.value));
    }
  }

  /** A parameter of the insert. */
  datatype DbParam = PText(text: string) | PInt(number: int) | PNull

  function OptText(s: Option<string>): DbParam {
    if s.Some? then PText(s.value) else PNull
  }

  /** The row the insert returns. */
  datatype InsertedRow = InsertedRow(
    id: string, fileName: string, storageKey: string, parentId: Option<string>,
    fileSize: Option<int>, mimeType: string, updatedAt: string, storageUrl: Option<string>, isPublic: bool)

  /** `createFileRecord`. `now` is `new Date().toISOString()`; `insert` runs
      the insert on its nine values and returns the inserted row. The name,
      original name and storage key are all the title. */
  method CreateFileRecord(p: Platform, env: map<string, string>, now: string, params: CreateParams,
                          insert: seq<DbParam> -> InsertedRow)
    returns (file: FileRow, values: seq<DbParam>)
    ensures |values| == 9
    ensures values[0] == PText(DefaultUserId(env))
    ensures values[1] == values[2] == values[4] == PText(params.title)
    ensures values[5] == PText(EffectiveMimeType(params))
    ensures values[6] == (if params.size.Some? then PInt(params.size.value) else PNull)
    ensures values[7] == PText(params.directoryId) && values[8] == PText(now)
    ensures Truthy(params.dataUrl) ==> values[3] == PText(params.dataUrl.value)
    ensures !Truthy(params.dataUrl) && Truthy(params.content) ==>
              values[3] == PText(SynthesizedDataUrl(p, EffectiveMimeType(params), params.content.value))
    ensures !Truthy(params.dataUrl) && !Truthy(params.content) ==> values[3] == OptText(params.dataUrl)
    ensures var row := insert(values);
            && file.id == row.id && file.name == row.fileName && file.storageKey == row.storageKey
            && file.directoryId == row.parentId && file.size == row.fileSize.GetOr(0)
            && file.extension == GetExtension(row.fileName) && file.mimeType == row.mimeType
            && file.updatedAt == p.toIsoString(row.updatedAt) && file.storageUrl == row.storageUrl
            && file.isPublic == row.isPublic
  {
    var userId := DefaultUserId(env);
    var name := params.title;
    var mimeType := EffectiveMimeType(params);
    var storageUrl := DeriveStorageUrl(p, params, mimeType);
    values := [PText(userId), PText(name), PText(name), OptText(storageUrl), PText(name),
               PText(mimeType), if params.size.Some? then PInt(params.size.value) else PNull,
               PText(params.directoryId), PText(now)];
    var row := insert(values);
    file := FileRow(row.id, row.fileName, row.storageKey, row.parentId, row.fileSize.GetOr(0),
                    GetExtension(row.fileName), row.mimeType, p.toIsoString(row.updatedAt),
                    row.storageUrl, row.isPublic);
  }
}
