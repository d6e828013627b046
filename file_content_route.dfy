/** `GET /api/file-content?fileId=…` of `app/api/file-content/route.ts`: the
    text of one file of the in-memory table, either stored with the record
    or fetched from an allow-listed URL. The request is its `fileId`
    parameter, the response a status and a JSON body as values; the fetch is
    a function from URL to outcome, and the handler reports which URL, if
    any, it fetched. */
module FileContentRoute {
  import opened Wrappers
  import opened JsText
  import opened Platform

  /** A `FileRecord` of `lib/mock-db.ts`; an absent optional field is `None`. */
  datatype MockFile = MockFile(
    id: string,
    name: string,
    directoryId: string,
    size: int,
    extension: string,
    updatedAt: string,
    sourceUrl: Option<string>,
    localContent: Option<string>)

  const SampleBase: string := "https://sample-files.com/downloads/documents/txt/"
  const Stamp: string := "2026-02-12T00:00:00.000Z"

  /** `filesTable` of `lib/mock-db.ts`. */
  const FilesTable: seq<MockFile> := [
    MockFile("file-1", "test.txt", "test", 48, "txt", Stamp, None,
             Some("This is test.txt from temporary in-memory backend data in Next.js API.")),
    MockFile("file-2", "simple.txt", "test", 1200, "txt", Stamp, Some(SampleBase + "simple.txt"), None),
    MockFile("file-3", "long-doc.txt", "test", 4200, "txt", Stamp, Some(SampleBase + "long-doc.txt"), None),
    MockFile("file-4", "ascii-art.txt", "test", 900, "txt", Stamp, Some(SampleBase + "ascii-art.txt"), None),
    MockFile("file-5", "data.txt", "test", 1800, "txt", Stamp, Some(SampleBase + "data.txt"), None),
    MockFile("file-6", "multilang.txt", "test", 1600, "txt", Stamp, Some(SampleBase + "multilang.txt"), None)
  ]

  /** `allowedSourceUrls` of the route. */
  const AllowedSourceUrls: set<string> := {
    SampleBase + "simple.txt",
    SampleBase + "long-doc.txt",
    SampleBase + "ascii-art.txt",
    SampleBase + "data.txt",
    SampleBase + "multilang.txt"
  }

  /** `table.find((item) => item.id === id)`: the first record with that id. */
  function Find(table: seq<MockFile>, id: string): (r: Option<MockFile>)
    ensures r.None? <==> forall k :: 0 <= k < |table| ==> table[k].id != id
    ensures r.Some? ==> exists k :: 0 <= k < |table| && table[k] == r.value && table[k].id == id
                                   && forall j :: 0 <= j < k ==> table[j].id != id
  {
    if table == [] then None
    else if table[0].id == id then Some(table[0])
    else
      var r := Find(table[1..], id);
      assert r.Some? ==> exists k :: 1 <= k < |table| && table[k] == r.value && table[k].id == id
                                     && forall j :: 0 <= j < k ==> table[j].id != id by {
        if r.Some? {
          var k :| 0 <= k < |table[1..]| && table[1..][k] == r.value && table[1..][k].id == id
                   && forall j :: 0 <= j < k ==> table[1..][j].id != id;
          assert table[k + 1] == r.value;
          assert forall j :: 0 <= j < k + 1 ==> table[j].id != id by {
            forall j | 0 <= j < k + 1
              ensures table[j].id != id
            {
              if j > 0 {
                assert table[j] == table[1..][j - 1];
              }
            }
          }
        }
      }
      assert r.None? ==> forall k :: 0 <= k < |table| ==> table[k].id != id by {
        if r.None? {
          forall k | 0 <= k < |table|
            ensures table[k].id != id
          {
            if k > 0 {
              assert table[k] == table[1..][k - 1];
            }
          }
        }
      }
      r
  }

  /** The JSON body: an `error` message or the `data` of a file. */
  datatype Body =
    | Error(message: string)
    | Data(id: string, name: string, content: string, sourceUrl: Option<string>)

  datatype Response = Response(status: int, body: Body)

  /** The response, and the URL fetched on the way, if any. */
  datatype Handled = Handled(response: Response, fetched: Option<string>)

  function Reply(status: int, message: string): Response {
    Response(status, Error(message))
  }

  /** The `GET` handler over the table, the allowlist, the `fileId` search
      parameter (`None` when absent) and the outcome of each possible
      fetch. Nothing is fetched but an allow-listed URL, and the status is
      one of the five the handler writes. */
  function Get(table: seq<MockFile>, allowlist: set<string>, fileId: Option<string>, fetch: string -> FetchOutcome)
    : (r: Handled)
    ensures r.fetched.Some? ==> r.fetched.value in allowlist
    ensures r.response.status in {200, 400, 403, 404, 502}
  {
    if !Truthy(fileId) then Handled(Reply(400, "fileId is required"), None)
    else
      var found := Find(table, fileId.value);
      if found.None? then Handled(Reply(404, "File not found"), None)
      else
        var file := found.value;
        if Truthy(file.localContent) then
          Handled(Response(200, Data(file.id, file.name, file.localContent.value, None)), None)
        else if !Truthy(file.sourceUrl) then Handled(Reply(400, "File has no readable source"), None)
        else if file.sourceUrl.value !in allowlist then Handled(Reply(403, "Source URL is not allowed"), None)
        else
          var url := file.sourceUrl.value;
          var outcome := fetch(url);
          var response :=
            if outcome.Threw? then Reply(502, "Unable to fetch remote text file")
            else if !IsOk(outcome) then Reply(502, "Failed to fetch remote file (" + DecInt(outcome.status) + ")")
            else Response(200, Data(file.id, file.name, outcome.body, Some(url)));
          Handled(response, Some(url))
  }

  /** A missing or empty `fileId` is a bad request, found before any lookup. */
  lemma MissingFileIdIsBadRequest(table: seq<MockFile>, allowlist: set<string>, fileId: Option<string>,
                                  fetch: string -> FetchOutcome)
    requires !Truthy(fileId)
    ensures Get(table, allowlist, fileId, fetch) == Handled(Reply(400, "fileId is required"), None)
  {
  }

  /** 404 exactly when a `fileId` is given and no record carries it. */
  lemma NotFoundExactly(table: seq<MockFile>, allowlist: set<string>, fileId: Option<string>,
                        fetch: string -> FetchOutcome)
    ensures Get(table, allowlist, fileId, fetch).response.status == 404
            <==> Truthy(fileId) && forall k :: 0 <= k < |table| ==> table[k].id != fileId.value
  {
  }

  /** A record with stored text answers with that text and no source URL,
      without fetching. */
  lemma LocalContentServed(table: seq<MockFile>, allowlist: set<string>, id: string, fetch: string -> FetchOutcome)
    requires id != ""
    requires Find(table, id).Some? && Truthy(Find(table, id).value.localContent)
    ensures var file, r := Find(table, id).value, Get(table, allowlist, Some(id), fetch);
            && r.fetched == None
            && r.response == Response(200, Data(file.id, file.name, file.localContent.value, None))
  {
  }

  /** The record found for a given, present `fileId`. */
  ghost predicate Resolves(table: seq<MockFile>, fileId: Option<string>, file: MockFile) {
    Truthy(fileId) && Find(table, fileId.value) == Some(file)
  }

  /** 400 exactly when the `fileId` is missing or the record has neither
      stored text nor a source URL. */
  lemma BadRequestExactly(table: seq<MockFile>, allowlist: set<string>, fileId: Option<string>,
                          fetch: string -> FetchOutcome)
    ensures Get(table, allowlist, fileId, fetch).response.status == 400
            <==> !Truthy(fileId)
                 || (exists file :: Resolves(table, fileId, file)
                                    && !Truthy(file.localContent) && !Truthy(file.sourceUrl))
  {
    if Truthy(fileId) && Find(table, fileId.value).Some? {
      assert Resolves(table, fileId, Find(table, fileId.value).value);
    }
  }

  /** 403 exactly when the record's only source is a URL outside the
      allowlist; nothing is fetched then. */
  lemma ForbiddenExactly(table: seq<MockFile>, allowlist: set<string>, fileId: Option<string>,
                         fetch: string -> FetchOutcome)
    ensures var r := Get(table, allowlist, fileId, fetch);
            (r.response.status == 403
             <==> exists file :: Resolves(table, fileId, file) && !Truthy(file.localContent)
                                 && Truthy(file.sourceUrl) && file.sourceUrl.value !in allowlist)
            && (r.response.status == 403 ==> r.fetched.None?)
  {
    if Truthy(fileId) && Find(table, fileId.value).Some? {
      assert Resolves(table, fileId, Find(table, fileId.value).value);
    }
  }

  /** A fetch happens exactly for a record without stored text whose source
      URL is allow-listed, and only of that URL. */
  lemma FetchesExactly(table: seq<MockFile>, allowlist: set<string>, fileId: Option<string>,
                       fetch: string -> FetchOutcome)
    ensures var r := Get(table, allowlist, fileId, fetch);
            r.fetched.Some?
            <==> exists file :: Resolves(table, fileId, file) && !Truthy(file.localContent)
                                && Truthy(file.sourceUrl) && file.sourceUrl.value in allowlist
                                && r.fetched == file.sourceUrl
  {
    if Truthy(fileId) && Find(table, fileId.value).Some? {
      assert Resolves(table, fileId, Find(table, fileId.value).value);
    }
  }

  /** Once the URL is fetched: 200 with the body and the URL exactly when
      the response is ok, 502 with the status in the message when it is
      not, 502 when the fetch throws. */
  lemma FetchedOutcome(table: seq<MockFile>, allowlist: set<string>, fileId: Option<string>,
                       fetch: string -> FetchOutcome)
    requires Get(table, allowlist, fileId, fetch).fetched.Some?
    ensures var r, file := Get(table, allowlist, fileId, fetch), Find(table, fileId.value).value;
            var url := r.fetched.value;
            && url == file.sourceUrl.value
            && (fetch(url).Threw? ==> r.response == Reply(502, "Unable to fetch remote text file"))
            && (fetch(url).Responded? && !IsOk(fetch(url)) ==>
                  r.response == Reply(502, "Failed to fetch remote file (" + DecInt(fetch(url).status) + ")"))
            && (fetch(url).Responded? && IsOk(fetch(url)) ==>
                  r.response == Response(200, Data(file.id, file.name, fetch(url).body, Some(url))))
            && (r.response.status == 200 <==> fetch(url).Responded? && IsOk(fetch(url)))
  {
  }

  /** Every source URL of the table is allow-listed, so the table never
      draws a 403. */
  lemma TableSourcesAllowed()
    ensures forall k :: 0 <= k < |FilesTable| && FilesTable[k].sourceUrl.Some? ==>
              FilesTable[k].sourceUrl.value in AllowedSourceUrls
  {
  }

  /** `file-1` is served from its stored text without a fetch. */
  lemma FirstFileIsLocal(fetch: string -> FetchOutcome)
    ensures var r := Get(FilesTable, AllowedSourceUrls, Some("file-1"), fetch);
            r.fetched == None && r.response.status == 200
            && r.response.body.content == FilesTable[0].localContent.value
  {
    assert FilesTable[0].id == "file-1";
  }
}
