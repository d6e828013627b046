/** The write path of `lib/files-write.ts`: SQL literal rendering, the
    `create_file` call `createFile` sends through `psql`, and the seeding of
    one text file per allow-listed source URL. `psql` is a function from the
    SQL text to what it prints. */
module FilesWrite {
  import opened Wrappers
  import opened JsText

  const Quote: char := '\''

  /** `value.replace(/'/g, "''")`: every single quote doubled. */
  function Escape(s: string): (r: string)
    ensures |r| >= |s|
    ensures Quote !in s ==> r == s
  {
    if s == [] then []
    else (if s[0] == Quote then [Quote, Quote] else [s[0]]) + Escape(s[1..])
  }

  /** Reading the inside of a SQL string literal: a doubled quote stands for
      one quote, and a lone quote would end the literal, so it is refused. */
  function Unescape(t: string): (r: Option<string>)
    decreases |t|
  {
    if t == [] then Some([])
    else if t[0] == Quote then
      if |t| >= 2 && t[1] == Quote then
        match Unescape(t[2..])
        case Some(rest) => Some([Quote] + rest)
        case None => None
      else None
    else
      match Unescape(t[1..])
      case Some(rest) => Some([t[0]] + rest)
      case None => None
  }

  /** The escaped text reads back as the original, so it holds no lone
      quote that could end the literal early. */
  lemma {:induction false} UnescapeEscape(s: string)
    ensures Unescape(Escape(s)) == Some(s)
  {
    if s != [] {
      var t := Escape(s);
      UnescapeEscape(s[1..]);
      if s[0] == Quote {
        assert t == [Quote, Quote] + Escape(s[1..]);
        assert t[2..] == Escape(s[1..]);
      } else {
        assert t == [s[0]] + Escape(s[1..]);
        assert t[1..] == Escape(s[1..]);
      }
      assert s == [s[0]] + s[1..];
    }
  }

  /** `sqlLiteral`. */
  function SqlLiteral(value: Option<string>): (r: string)
    ensures value.None? ==> r == "NULL"
    ensures value.Some? ==> |r| >= 2 && r[0] == Quote && r[|r| - 1] == Quote
  {
    match value
    case None => "NULL"
    case Some(s) => [Quote] + Escape(s) + [Quote]
  }

  /** How a reader of the SQL text recovers a literal: `NULL`, or a quoted
      text whose inside unescapes. */
  function ReadSqlLiteral(t: string): Option<Option<string>> {
    if t == "NULL" then Some(None)
    else if |t| >= 2 && t[0] == Quote && t[|t| - 1] == Quote then
      match Unescape(t[1..|t| - 1])
      case Some(s) => Some(Some(s))
      case None => None
    else None
  }

  /** Every rendered literal reads back as the value it renders. */
  lemma SqlLiteralRoundTrip(value: Option<string>)
    ensures ReadSqlLiteral(SqlLiteral(value)) == Some(value)
  {
    if value.Some? {
      var t := SqlLiteral(value);
      assert t != "NULL" by {
        assert t[0] == Quote;
      }
      assert t[1..|t| - 1] == Escape(value.value);
      UnescapeEscape(value.value);
    }
  }

  /** Distinct values render as distinct literals; in particular the text
      `NULL` is not the null literal. */
  lemma SqlLiteralInjective(a: Option<string>, b: Option<string>)
    requires SqlLiteral(a) == SqlLiteral(b)
    ensures a == b
  {
    SqlLiteralRoundTrip(a);
    SqlLiteralRoundTrip(b);
  }

  /** `sqlBool`. */
  function SqlBool(value: bool): (r: string)
    ensures value ==> r == "true"
    ensures !value ==> r == "false"
  {
    if value then "true" else "false"
  }

  /** `sqlNumber`, for integer values. */
  function SqlNumber(value: Option<int>): (r: string)
    ensures value.None? ==> r == "NULL"
    ensures value.Some? ==> r == DecInt(value.value)
  {
    if value.None? then "NULL" else DecInt(value.value)
  }

  /** Distinct numbers render distinctly, and none renders as `NULL`. */
  lemma SqlNumberInjective(a: Option<int>, b: Option<int>)
    requires SqlNumber(a) == SqlNumber(b)
    ensures a == b
  {
    if a.Some? && b.Some? {
      DecIntInjective(a.value, b.value);
    } else if a.Some? {
      DecIntSign(a.value);
      assert false;
    } else if b.Some? {
      DecIntSign(b.value);
      assert false;
    }
  }

  /** `sqlUuid`: `NULL` for a null or empty id, the literal otherwise. */
  function SqlUuid(value: Option<string>): (r: string)
    ensures !Truthy(value) ==> r == "NULL"
    ensures Truthy(value) ==> r == SqlLiteral(value) && ReadSqlLiteral(r) == Some(value)
  {
    if !Truthy(value) then "NULL"
    else
      SqlLiteralRoundTrip(value);
      SqlLiteral(value)
  }

  /** `CreateFileParams`; a field left out is `None`. */
  datatype CreateFileParams = CreateFileParams(
    userId: string, fileName: string, originalName: string,
    storageUrl: string, storageKey: string,
    mimeType: Option<string>, fileSize: Option<int>, parentId: Option<string>,
    isFolder: Option<bool>, isPublic: Option<bool>)

  /** The ten arguments of `public.create_file`, as rendered SQL. */
  datatype CreateFileArgs = CreateFileArgs(
    userId: string, fileName: string, originalName: string, storageUrl: string, storageKey: string,
    mimeType: string, fileSize: string, parentId: string, isFolder: string, isPublic: string)

  function RenderArgs(params: CreateFileParams): CreateFileArgs {
    CreateFileArgs(
      SqlLiteral(Some(params.userId)),
      SqlLiteral(Some(params.fileName)),
      SqlLiteral(Some(params.originalName)),
      SqlLiteral(Some(params.storageUrl)),
      SqlLiteral(Some(params.storageKey)),
      if Truthy(params.mimeType) then SqlLiteral(params.mimeType) else "NULL",
      SqlNumber(params.fileSize),
      SqlUuid(params.parentId),
      SqlBool(params.isFolder.GetOr(false)),
      SqlBool(params.isPublic.GetOr(false)))
  }

  /** Each text argument reads back as its parameter. */
  lemma RenderArgsReadBack(params: CreateFileParams)
    ensures var args := RenderArgs(params);
            && ReadSqlLiteral(args.userId) == Some(Some(params.userId))
            && ReadSqlLiteral(args.fileName) == Some(Some(params.fileName))
            && ReadSqlLiteral(args.originalName) == Some(Some(params.originalName))
            && ReadSqlLiteral(args.storageUrl) == Some(Some(params.storageUrl))
            && ReadSqlLiteral(args.storageKey) == Some(Some(params.storageKey))
  {
    SqlLiteralRoundTrip(Some(params.userId));
    SqlLiteralRoundTrip(Some(params.fileName));
    SqlLiteralRoundTrip(Some(params.originalName));
    SqlLiteralRoundTrip(Some(params.storageUrl));
    SqlLiteralRoundTrip(Some(params.storageKey));
  }

  /** The destructuring defaults: a missing `mimeType`, `fileSize` and
      `parentId` are sent as `NULL` (as are an empty type and an empty
      parent id) and a missing flag as `false`; given ones read back. */
  lemma RenderArgsDefaults(params: CreateFileParams)
    ensures var args := RenderArgs(params);
            && (!Truthy(params.mimeType) ==> args.mimeType == "NULL")
            && (Truthy(params.mimeType) ==> ReadSqlLiteral(args.mimeType) == Some(params.mimeType))
            && (params.fileSize.None? ==> args.fileSize == "NULL")
            && (params.fileSize.Some? ==> args.fileSize == DecInt(params.fileSize.value))
            && (!Truthy(params.parentId) ==> args.parentId == "NULL")
            && (Truthy(params.parentId) ==> ReadSqlLiteral(args.parentId) == Some(params.parentId))
            && (args.isFolder == "true" <==> params.isFolder == Some(true))
            && (args.isPublic == "true" <==> params.isPublic == Some(true))
            && args.isFolder in {"true", "false"} && args.isPublic in {"true", "false"}
  {
    SqlLiteralRoundTrip(params.mimeType);
  }

  /** The SQL text `createFile` hands to `psql`. */
  function CreateFileSql(params: CreateFileParams): string {
    var a := RenderArgs(params);
    "\n    select row_to_json(public.create_file("
    + "\n      " + a.userId + "::text,"
    + "\n      " + a.fileName + "::text,"
    + "\n      " + a.originalName + "::text,"
    + "\n      " + a.storageUrl + "::text,"
    + "\n      " + a.storageKey + "::text,"
    + "\n      " + a.mimeType + "::text,"
    + "\n      " + a.fileSize + "::bigint,"
    + "\n      " + a.parentId + "::uuid,"
    + "\n      " + a.isFolder + "::boolean,"
    + "\n      " + a.isPublic + "::boolean"
    + "\n    )) as row;\n  "
  }

  const NoData: string := "create_file returned no data"

  /** `createFile`: the output of `psql` read by `parse`, which is
      `JSON.parse` and fails with its own error on text that is not JSON;
      empty output throws before any parsing. */
  function CreateFile<Row>(psql: string -> string, parse: string -> Result<Row, string>, params: CreateFileParams)
    : (r: Result<Row, string>)
    ensures psql(CreateFileSql(params)) == "" ==> r == Failure(NoData)
    ensures psql(CreateFileSql(params)) != "" ==> r == parse(psql(CreateFileSql(params)))
    ensures r.Success? ==> exists output :: output != "" && parse(output) == r
  {
    var output := psql(CreateFileSql(params));
    if output == "" then Failure(NoData) else parse(output)
  }

  /** `url.split("/").pop() ?? url`; `split` never returns an empty list, so
      the `?? url` never applies. */
  function LastSegment(url: string): string {
    var parts := Split(url, '/');
    parts[|parts| - 1]
  }

  /** The last segment is the text after the last `/` (all of `url` when it
      has none): a suffix of the URL without a `/`. */
  lemma LastSegmentShape(url: string)
    ensures EndsWith(url, LastSegment(url))
    ensures '/' !in LastSegment(url)
    ensures '/' !in url ==> LastSegment(url) == url
    ensures '/' in url ==> url[|url| - |LastSegment(url)| - 1] == '/'
  {
    SplitLast(url, '/');
    SplitPieces(url, '/');
    var j := LastIndexOf(url, '/');
    if '/' in url {
      var k :| 0 <= k < |url| && url[k] == '/';
      assert j >= k;
    }
  }

  /** The parameters `seedAllowedSourceUrls` creates the file of one URL
      with. */
  function SeedParams(userId: string, parentId: Option<string>, url: string): (params: CreateFileParams)
    ensures params.fileName == params.originalName == params.storageKey == LastSegment(url)
    ensures params.storageUrl == url && params.userId == userId && params.parentId == parentId
    ensures params.mimeType == Some("text/plain") && params.fileSize.None?
    ensures params.isFolder == Some(false) && params.isPublic == Some(true)
  {
    var fileName := LastSegment(url);
    CreateFileParams(userId, fileName, fileName, url, fileName, Some("text/plain"), None, parentId, Some(false), Some(true))
  }

  /** The seeded files are public, not folders, and typed `text/plain` in
      the SQL sent for them. */
  lemma SeedSql(userId: string, parentId: Option<string>, url: string)
    ensures var args := RenderArgs(SeedParams(userId, parentId, url));
            && ReadSqlLiteral(args.storageUrl) == Some(Some(url))
            && ReadSqlLiteral(args.mimeType) == Some(Some("text/plain"))
            && args.fileSize == "NULL" && args.isFolder == "false" && args.isPublic == "true"
  {
    SqlLiteralRoundTrip(Some(url));
    SqlLiteralRoundTrip(Some("text/plain"));
  }

  /** `seedAllowedSourceUrls`, with `createFile` the function `create`:
      one call per URL, in order, stopping at the first that throws.
      `calls` are the parameters passed. */
  method SeedAllowedSourceUrls<Row>(create: CreateFileParams -> Result<Row, string>, allowlist: seq<string>,
                                    userId: string, parentId: Option<string>)
    returns (r: Result<seq<Row>, string>, calls: seq<CreateFileParams>)
    ensures |calls| <= |allowlist|
    ensures forall i :: 0 <= i < |calls| ==> calls[i] == SeedParams(userId, parentId, allowlist[i])
    ensures forall i :: 0 <= i < |calls| - 1 ==> create(calls[i]).Success?
    ensures r.Success? ==>
              && |calls| == |allowlist| && |r.value| == |allowlist|
              && forall i :: 0 <= i < |allowlist| ==> Success(r.value[i]) == create(calls[i])
    ensures r.Failure? ==> |calls| >= 1 && create(calls[|calls| - 1]) == Failure(r.error)
  {
    var results: seq<Row> := [];
    calls := [];
    for i := 0 to |allowlist|
      invariant |calls| == |results| == i
      invariant forall j :: 0 <= j < i ==> calls[j] == SeedParams(userId, parentId, allowlist[j])
      invariant forall j :: 0 <= j < i ==> Success(results[j]) == create(calls[j])
    {
      var params := SeedParams(userId, parentId, allowlist[i]);
      calls := calls + [params];
      var row := create(params);
      if row.Failure? {
        return Failure(row.error), calls;
      }
      results := results + [row.value];
    }
    r := Success(results);
  }
}
