/** `GET` and `POST /api/files` of `app/api/files/route.ts`. `GET` lists a
    directory, and lists nothing without a `directoryId`; `POST` trims and
    defaults the JSON body, computes the size to store, and creates the
    record. The listing and the creation of `lib/files-db.ts` are function
    parameters here, so that the handlers show what they pass on and what
    they return. */
module FilesRoute {
  import opened Wrappers
  import opened JsText
  import opened FilesDb

  /** `GET`: the rows of the directory and the id the listing ran for, or
      no rows and no listing when `directoryId` is missing or empty. */
  function GetFiles(directoryId: Option<string>, list: string -> seq<FileRow>)
    : (r: (seq<FileRow>, Option<string>))
    ensures !Truthy(directoryId) ==> r == ([], None)
    ensures Truthy(directoryId) ==> r.1 == directoryId && r.0 == list(directoryId.value)
  {
    if Truthy(directoryId) then (list(directoryId.value), directoryId) else ([], None)
  }

  /** The `CreateFilePayload` body; an absent field is `None`, and so is a
      `size` that is not a number. */
  datatype Payload = Payload(
    directoryId: Option<string>,
    title: Option<string>,
    content: Option<string>,
    mimeType: Option<string>,
    dataUrl: Option<string>,
    size: Option<int>)

  const DefaultMimeType: string := "application/octet-stream"
  const MissingFields: string := "directoryId and title are required"

  /** `value?.trim()`. */
  function TrimOpt(value: Option<string>): (r: Option<string>)
    ensures r.Some? <==> value.Some?
    ensures r.Some? ==> r.value == Trim(value.value) && IsTrimmed(r.value) && |r.value| <= |value.value|
  {
    if value.Some? then Some(Trim(value.value)) else None
  }

  /** `dataUrl ? dataUrl.length : textSize`, then `body.size` when it is a
      positive number. */
  function StoredSize(size: Option<int>, dataUrl: Option<string>, content: string): (n: int)
    ensures size.Some? && size.value > 0 ==> n == size.value
    ensures !(size.Some? && size.value > 0) && Truthy(dataUrl) ==> n == Utf16Length(dataUrl.value)
    ensures !(size.Some? && size.value > 0) && !Truthy(dataUrl) ==> n == Utf8Length(content)
  {
    if size.Some? && size.value > 0 then size.value
    else if Truthy(dataUrl) then Utf16Length(dataUrl.value)
    else Utf8Length(content)
  }

  /** The size is never negative, whichever way it is found; a fallback
      size is at least the number of characters it measures. */
  lemma StoredSizeBounds(size: Option<int>, dataUrl: Option<string>, content: string)
    ensures StoredSize(size, dataUrl, content) >= 0
    ensures !(size.Some? && size.value > 0) && Truthy(dataUrl) ==>
              StoredSize(size, dataUrl, content) >= |dataUrl.value|
    ensures !(size.Some? && size.value > 0) && !Truthy(dataUrl) ==>
              |content| <= StoredSize(size, dataUrl, content) <= 4 * |content|
  {
  }

  /** The body of `POST` made into the parameters of `createFileRecord`, or
      the 400 message: `directoryId`, `title`, `mimeType` and `dataUrl` are
      trimmed, an empty type becomes the octet-stream default, a missing
      content the empty text. */
  function Normalize(body: Payload): (r: Result<CreateParams, string>)
    ensures r.Failure? <==> !Truthy(TrimOpt(body.directoryId)) || !Truthy(TrimOpt(body.title))
    ensures r.Failure? ==> r.error == MissingFields
    ensures r.Success? ==>
              && r.value.directoryId == Trim(body.directoryId.value) && r.value.directoryId != ""
              && r.value.title == Trim(body.title.value) && r.value.title != ""
              && r.value.content == Some(body.content.GetOr(""))
              && r.value.mimeType != ""
              && (Truthy(TrimOpt(body.mimeType)) ==> r.value.mimeType == Trim(body.mimeType.value))
              && (!Truthy(TrimOpt(body.mimeType)) ==> r.value.mimeType == DefaultMimeType)
              && r.value.dataUrl == TrimOpt(body.dataUrl)
              && r.value.size == Some(StoredSize(body.size, TrimOpt(body.dataUrl), body.content.GetOr("")))
  {
    var directoryId := TrimOpt(body.directoryId);
    var title := TrimOpt(body.title);
    var content := body.content.GetOr("");
    var trimmedType := TrimOpt(body.mimeType);
    var mimeType := if Truthy(trimmedType) then trimmedType.value else DefaultMimeType;
    var dataUrl := TrimOpt(body.dataUrl);
    if !Truthy(directoryId) || !Truthy(title) then Failure(MissingFields)
    else
      Success(CreateParams(directoryId.value, title.value, mimeType, Some(StoredSize(body.size, dataUrl, content)),
                           dataUrl, Some(content)))
  }

  /** A body already in normal form, with a positive size, is passed on
      as it is: normalising is idempotent on what it produces. */
  lemma NormalFormKept(params: CreateParams)
    requires IsTrimmed(params.directoryId) && params.directoryId != ""
    requires IsTrimmed(params.title) && params.title != ""
    requires IsTrimmed(params.mimeType) && params.mimeType != ""
    requires params.size.Some? && params.size.value > 0 && params.content.Some?
    requires params.dataUrl.Some? ==> IsTrimmed(params.dataUrl.value)
    ensures Normalize(Payload(Some(params.directoryId), Some(params.title), params.content,
                              Some(params.mimeType), params.dataUrl, params.size))
            == Success(params)
  {
    var body := Payload(Some(params.directoryId), Some(params.title), params.content,
                        Some(params.mimeType), params.dataUrl, params.size);
    assert TrimOpt(body.directoryId) == Some(params.directoryId) by {
      TrimTrimmed(params.directoryId);
    }
    assert TrimOpt(body.title) == Some(params.title) by {
      TrimTrimmed(params.title);
    }
    assert TrimOpt(body.mimeType) == Some(params.mimeType) by {
      TrimTrimmed(params.mimeType);
    }
    assert TrimOpt(body.dataUrl) == params.dataUrl by {
      if params.dataUrl.Some? {
        TrimTrimmed(params.dataUrl.value);
      }
    }
    NormalizeTrimmed(body, params);
  }

  /** `Normalize` of a body whose fields trim to those of `params`. */
  lemma NormalizeTrimmed(body: Payload, params: CreateParams)
    requires TrimOpt(body.directoryId) == Some(params.directoryId) && params.directoryId != ""
    requires TrimOpt(body.title) == Some(params.title) && params.title != ""
    requires TrimOpt(body.mimeType) == Some(params.mimeType) && params.mimeType != ""
    requires TrimOpt(body.dataUrl) == params.dataUrl
    requires body.content == params.content && params.content.Some?
    requires body.size == params.size && params.size.Some? && params.size.value > 0
    ensures Normalize(body) == Success(params)
  {
    var r := Normalize(body);
    assert r.Success?;
    assert r.value.size == params.size;
    assert r.value.content == params.content;
  }

  /** What `POST` answers: 201 with the created record, or 400. */
  datatype PostReply = Created(file: FileRow) | BadRequest(error: string)

  function Status(reply: PostReply): int {
    if reply.Created? then 201 else 400
  }

  /** `POST`: the reply and the parameters `createFileRecord` was called
      with, `None` when it was not called. */
  function Post(body: Payload, create: CreateParams -> FileRow): (r: (PostReply, Option<CreateParams>))
    ensures Status(r.0) == 400 <==> Normalize(body).Failure?
    ensures Status(r.0) == 400 ==> r.0 == BadRequest(MissingFields) && r.1 == None
    ensures Status(r.0) == 201 ==> r.1 == Some(Normalize(body).value) && r.0 == Created(create(r.1.value))
  {
    match Normalize(body)
    case Failure(message) => (BadRequest(message), None)
    case Success(params) => (Created(create(params)), Some(params))
  }

  /** A blank `directoryId` or `title` is as good as an absent one. */
  lemma BlankFieldRejected(body: Payload)
    requires (body.directoryId.Some? && AllTrimmable(body.directoryId.value))
             || (body.title.Some? && AllTrimmable(body.title.value))
    ensures Normalize(body) == Failure(MissingFields)
  {
    if body.directoryId.Some? && AllTrimmable(body.directoryId.value) {
      TrimBlank(body.directoryId.value);
    } else {
      TrimBlank(body.title.value);
    }
  }
}
