# file-explorer: a Dafny model of the catalogue, query and route logic

This project models the server side of the `file-explorer` application: a
Next.js file browser backed by a PostgreSQL `files` table and an object
store. It covers:

- the parameterised SQL builders of `lib/db/files-read.ts`;
- the file catalogue of `lib/files-db.ts`: extension and MIME inference, the
  `data:` URL parser, content resolution, the stored locator of a new file,
  and directory listing;
- the SQL literal rendering and the seeding loop of `lib/files-write.ts`;
- the `.env` loader of `lib/env.ts`;
- the decision logic of the two route handlers `app/api/file-content/route.ts`
  and `app/api/files/route.ts`;
- the pure helpers of the object-storage client `cloud.ts`.

Everything that touches the outside world is a parameter:

- the database is a function from a query to its rows;
- `fetch` is a function from a URL to a `FetchOutcome`, which is a response
  or a thrown error;
- `psql` is a function from SQL text to its output;
- `createFile`, `listFiles` and `createFileRecord` are functions wherever a
  caller of theirs is modelled;
- the environment is a `map`, and the text of the `.env` file is an `Option`.

Base64, UTF-8 and `Date` conversions are the function-valued fields of a
`Platform` value. The ghost predicate `Platform.Sound` states the facts the
proofs rely on: base64 and UTF-8 decoding undo encoding, base64 output uses
its own alphabet, and a UTF-8 encoding has the byte length `TextEncoder`
gives.

Modules, one per source file plus three shared ones:

| file | module | models |
|---|---|---|
| wrappers.dfy | Wrappers | `Option`, `Result` |
| js_text.dfy | JsText | the JavaScript string operations used: `trim`, ASCII `toLowerCase`, `startsWith`/`endsWith`, `indexOf`/`lastIndexOf`, `split`, `String(n)`, UTF-16 and UTF-8 lengths, truthiness, `if (x.endsWith(..)) return ..` chains |
| platform.dfy | Platform | bytes, the abstract codecs, fetch outcomes, `response.ok` |
| files_read.dfy | FilesRead | `lib/db/files-read.ts` |
| files_db.dfy | FilesDb | `lib/files-db.ts` |
| files_write.dfy | FilesWrite | `lib/files-write.ts` |
| env.dfy | Env | `lib/env.ts` |
| file_content_route.dfy | FileContentRoute | `app/api/file-content/route.ts`, with the table of `lib/mock-db.ts` |
| files_route.dfy | FilesRoute | `app/api/files/route.ts` |
| cloud.dfy | Cloud | `cloud.ts` |

The query builders are methods. They push onto local `seq` values and read
each placeholder `$n` from the length of the value list right after the
push, as the source does. Their results are tied to the specification
functions `ListClauses`, `ListValues` and `ListText` (and `LookupClauses`,
`LookupValues` and `LookupText`). The lemmas prove, about those functions,
the index bookkeeping, the clamping, the folders/files exclusion and the
fixed ORDER BY. A WHERE clause is a structured `Clause` value, rendered to
SQL text by `ClauseSql`, so that the placeholders it uses are known without
parsing text.

`process.env` is the class `Env.ProcessEnv` with a `map` field. The loop of
`loadEnvFile` is a `for` loop whose invariant ties the map to
`ApplyEntries` over the lines read so far. The properties of the loader are
lemmas about `ApplyEntries`.

`resolveFileContent` and `createFileRecord` are methods. They update their
record step by step before returning, like the source. `resolveFileContent`
also returns whether it fetched, so the allowlist rule can be stated.

## Model

| member | source | states |
|---|---|---|
| FilesRead.ClampLimit | lib/db/files-read.ts:94 | the limit is 50 when absent, clamped into 1..200 otherwise, and always within 1..200 |
| FilesRead.ClampOffset | lib/db/files-read.ts:95 | the offset is the given one when it is non-negative, 0 otherwise, and never negative |
| FilesRead.PushParentFilter | lib/db/files-read.ts:66-71 | a `null` parent adds `parent_id IS NULL` and binds nothing; an id is pushed and its clause reads the new value count |
| FilesRead.PushDeletedFilter | lib/db/files-read.ts:73-75 | `deleted_at IS NULL` is added unless deleted rows are included |
| FilesRead.PushSearchFilter | lib/db/files-read.ts:77-80 | a non-empty search pushes `%search%` and adds the ILIKE pair on the new value count |
| FilesRead.PushFlagFilters | lib/db/files-read.ts:82-92 | `is_public = TRUE` for public-only; `is_folder = TRUE` only for folders-only without files-only, and `FALSE` symmetrically |
| FilesRead.FinishListQuery | lib/db/files-read.ts:94-107 | limit then offset are the last two values, and the text uses their positions, `len-1` and `len` |
| FilesRead.BuildListFilesQuery | lib/db/files-read.ts:59-110 | the built query's values are `ListValues`, its clauses are `ListClauses`, and its text is `ListText` over them |
| FilesRead.ListValuesShape | lib/db/files-read.ts:60-99 | 3 values, plus one for a parent id and one for a search; value 1 is the user id; limit and offset are the last two |
| FilesRead.ListUserIdFirst | lib/db/files-read.ts:63-64 | the first clause is `user_id = $1` |
| FilesRead.ListParentNull | lib/db/files-read.ts:66-67 | `parent_id IS NULL` occurs once exactly for a `null` parent, and adds no value |
| FilesRead.ListParentId | lib/db/files-read.ts:68-70 | a parent id gives exactly one `parent_id = $2::uuid`, and value 2 is that id |
| FilesRead.ListDeletedAndPublic | lib/db/files-read.ts:73-84 | `deleted_at IS NULL` occurs once unless deleted rows are included, `is_public = TRUE` once just for public-only, and neither has a placeholder |
| FilesRead.ListSearchFilter | lib/db/files-read.ts:77-80 | a non-empty search gives exactly one ILIKE pair on placeholder `len-2`, whose value is `%search%` |
| FilesRead.ListSearchPosition | lib/db/files-read.ts:77-80 | the search clause, and only it, sits right after the parent and deleted clauses |
| FilesRead.ListClauseAt | lib/db/files-read.ts:60-92 | which clause can sit at each index, and which placeholder it carries |
| FilesRead.ListFolderFilters | lib/db/files-read.ts:86-92 | an `is_folder` clause of each kind occurs once exactly when its flag alone is set |
| FilesRead.ListFoldersAndFiles | lib/db/files-read.ts:86-92 | with both flags set, no clause is an `is_folder` clause |
| FilesRead.ListParams | lib/db/files-read.ts:60-92 | the clauses reference exactly placeholder 1, 2 when a parent id is given, and the search placeholder when one is given |
| FilesRead.ListPlaceholders | lib/db/files-read.ts:60-106 | the clause placeholders are exactly 1..len-2, and with LIMIT and OFFSET every one of 1..len is used |
| FilesRead.ListParamsDistinct | lib/db/files-read.ts:60-92 | no two clauses reference the same placeholder |
| FilesRead.ListBindings | lib/db/files-read.ts:62-80 | every placeholder names the value of its own filter |
| FilesRead.ListOrderFixed | lib/db/files-read.ts:101-107 | whatever the filters, the text starts with the column list and ends with `ORDER BY is_folder DESC, updated_at DESC` and the two paging placeholders |
| FilesRead.BuildLookupQuery | lib/db/files-read.ts:116-135 | the lookup pushes the key, then a truthy user id, then adds `deleted_at IS NULL` unless deleted rows are included |
| FilesRead.LookupQuery | lib/db/files-read.ts:129-135 | the lookup text is the trimmed template over the clauses, with `LIMIT 1` |
| FilesRead.BuildGetFileByIdQuery | lib/db/files-read.ts:112-136 | the by-id query is the lookup keyed by `id = $1::uuid` |
| FilesRead.BuildGetFileByStorageKeyQuery | lib/db/files-read.ts:138-162 | the by-storage-key query is the lookup keyed by `storage_key = $1` |
| FilesRead.LookupKeyAndUser | lib/db/files-read.ts:116-124 | the key is value 1 and the first clause; a truthy user id is value 2 with `user_id = $2`; there are 1 or 2 values |
| FilesRead.KeyClauseSql | lib/db/files-read.ts:116-153 | the key clauses render as `id = $1::uuid` and `storage_key = $1` |
| FilesRead.LookupDeleted | lib/db/files-read.ts:125-127 | `deleted_at IS NULL` occurs once exactly unless deleted rows are included, as the last clause |
| FilesRead.LookupPlaceholders | lib/db/files-read.ts:116-127 | the lookup clauses reference exactly 1..len(values), each once |
| FilesRead.FirstRow | lib/db/files-read.ts:180 | `rows[0] ?? null`: the first row, or none for no rows |
| FilesRead.ListFiles | lib/db/files-read.ts:164-171 | the executor runs the built list query, and its rows are returned |
| FilesRead.GetFileById | lib/db/files-read.ts:173-181 | the executor runs the by-id query, and the first row is returned |
| FilesRead.GetFileByStorageKey | lib/db/files-read.ts:183-191 | the executor runs the by-storage-key query, and the first row is returned |
| FilesDb.DefaultUserId | lib/files-db.ts:34-36 | `FILE_USER_ID` when set, the built-in user otherwise |
| FilesDb.GetExtension | lib/files-db.ts:38-42 | the extension is never empty, and is `bin` for a name without a dot |
| FilesDb.ExtensionOfTrailingDot | lib/files-db.ts:38-42 | a name ending in `.` has extension `bin` |
| FilesDb.ExtensionOfComposed | lib/files-db.ts:38-42 | `stem.ext` has the lower-cased `ext` as its extension |
| FilesDb.GuessMimeType | lib/files-db.ts:44-56 | a non-empty fallback is returned as it is; otherwise the type of the first case-insensitive suffix match in table order, else `application/octet-stream` |
| FilesDb.MimeTypeNonEmpty | lib/files-db.ts:44-56 | the guessed type is never empty |
| FilesDb.MimeTypeIgnoresCase | lib/files-db.ts:44-56 | names equal up to case get the same type |
| FilesDb.MimeTypeOfJpeg | lib/files-db.ts:51 | names ending `.jpeg` or `.JPEG` are `image/jpeg`, since no earlier row matches them; any other mix of case follows with `MimeTypeIgnoresCase` |
| FilesDb.NoLineTerminator | lib/files-db.ts:184 | true exactly when the text has no ECMAScript line terminator, which `.` cannot match |
| FilesDb.MatchDataUrl | lib/files-db.ts:183-187 | a match is always of the form `data:<mime>;base64,<payload>`, with a non-empty `mime` without `;` and a non-empty one-line payload |
| FilesDb.DataUrlMatches | lib/files-db.ts:183-187 | every text of that form matches, with exactly those groups; so the match succeeds if and only if the form holds |
| FilesDb.ParseDataUrl | lib/files-db.ts:183-187 | null exactly when there is no match; otherwise the MIME group and the base64 decoding of the payload |
| FilesDb.SynthesizedDataUrlParses | lib/files-db.ts:252-255 | a synthesised `data:` URL parses back to its MIME type and the UTF-8 bytes of the content, when the type has no `;` |
| FilesDb.ToFileRow | lib/files-db.ts:133-148 | each field of the listed file derives from its row: size 0 when null, the extension and type inferred from the name, the ISO date |
| FilesDb.ToFileRows | lib/files-db.ts:133 | one listed file per row, in order |
| FilesDb.TopLevelFilesRule | lib/files-db.ts:105-107 | the files that have no parent are included if and only if the directory is top-level and its name is the four letters `root`, each in either case |
| FilesDb.ListFiles | lib/files-db.ts:80-149 | an unknown directory lists nothing and runs no file query; otherwise the file query gets the user, the directory and the top-level rule, and its rows are mapped |
| FilesDb.GetFileById | lib/files-db.ts:151-181 | null when no row is found; otherwise the row, with its MIME type guessed |
| FilesDb.DataUrlContent | lib/files-db.ts:206-213 | content is read from a `data:` locator only when it parses and its own type is `text/` |
| FilesDb.StoredTextReadsBack | lib/files-db.ts:206-213 | text stored by `createFileRecord` as a `text/` data URL reads back as the same text, when the type has no `;` |
| FilesDb.ParameterisedTypeUnreadable | lib/files-db.ts:183-187 | a type `mime;param`, such as `text/plain;charset=utf-8`, whose parameter has at least seven characters and does not start with `base64,`, gives a stored URL that does not match, so its text never reads back |
| FilesDb.ResolveFileContent | lib/files-db.ts:189-236 | no locator gives all three fields null; a `data:` locator sets `dataUrl` and never `sourceUrl`; an `http` locator always sets `sourceUrl`; only an allow-listed text URL is fetched; content is the body exactly of an ok response; a non-text public file gets `dataUrl`; any other prefix gives nulls; a thrown fetch rejects |
| FilesDb.EffectiveMimeType | lib/files-db.ts:250 | the given type when non-empty, else the type guessed from the title |
| FilesDb.DeriveStorageUrl | lib/files-db.ts:252-255 | a given `dataUrl` is stored as it is; otherwise non-empty content becomes a base64 `data:` URL; otherwise the given (empty or absent) value |
| FilesDb.CreateFileRecord | lib/files-db.ts:238-323 | the nine insert values in order, and the returned file mapped from the inserted row |
| FilesWrite.Escape | lib/files-write.ts:19 | quote doubling never shortens the text, and leaves quote-free text alone |
| FilesWrite.UnescapeEscape | lib/files-write.ts:19 | un-doubling recovers the original, so the interior never holds an odd run of quotes |
| FilesWrite.SqlLiteral | lib/files-write.ts:17-20 | null renders as `NULL`; a string renders quoted |
| FilesWrite.SqlLiteralRoundTrip | lib/files-write.ts:17-20 | reading the literal back gives the rendered value |
| FilesWrite.SqlLiteralInjective | lib/files-write.ts:17-20 | distinct values render as distinct literals |
| FilesWrite.SqlBool | lib/files-write.ts:22-24 | `true` and `false` |
| FilesWrite.SqlNumber | lib/files-write.ts:26-29 | null renders as `NULL`; a number renders as its decimal text |
| FilesWrite.SqlNumberInjective | lib/files-write.ts:26-29 | distinct numbers, and null, render distinctly |
| FilesWrite.SqlUuid | lib/files-write.ts:31-34 | null or empty renders as `NULL`; anything else renders as its literal, which reads back |
| FilesWrite.RenderArgsReadBack | lib/files-write.ts:50-63 | every text argument of `create_file` reads back as the value passed |
| FilesWrite.RenderArgsDefaults | lib/files-write.ts:43-57 | an omitted or empty type, and an omitted size or parent, render as `NULL`; the flags render `true` only when given as true |
| FilesWrite.CreateFile | lib/files-write.ts:36-73 | empty `psql` output fails with "create_file returned no data" before any parsing; otherwise the result is what `JSON.parse` makes of the output, its error included, and a success always comes from non-empty output |
| FilesWrite.LastSegmentShape | lib/files-write.ts:83 | the file name is the part of the URL after its last `/`, or the whole URL when it has none |
| FilesWrite.SeedParams | lib/files-write.ts:84-95 | the seeded file is named by the last segment, stored at its URL, `text/plain`, public, not a folder, with no size |
| FilesWrite.SeedSql | lib/files-write.ts:84-95 | the SQL of a seeded file reads back its parameters |
| FilesWrite.SeedAllowedSourceUrls | lib/files-write.ts:75-100 | `createFile` is called once per URL, in order, with the seeded parameters; one result per URL; the first failure stops the loop and is returned |
| Env.Unquote | lib/env.ts:21-26 | one pair of matching outer quotes is removed; a lone quote becomes empty; anything else is kept |
| Env.UnquoteOnePair | lib/env.ts:21-26 | only the outer pair goes; quotes nested inside stay |
| Env.ParseLineCases | lib/env.ts:15-25 | a line is skipped exactly when, trimmed, it is empty, a comment, or has no `=`; otherwise the key is the trimmed text before the first `=` and the value the unquoted, trimmed text after it |
| Env.ParseLineValueKeepsEquals | lib/env.ts:17-20 | a value keeps every `=` after the first |
| Env.ParseLines | lib/env.ts:14 | one entry per line of the split text, in order |
| Env.ReadEntry | lib/env.ts:16-26 | the loop body's parsing of a trimmed line agrees with `ParseTrimmed` on every line |
| Env.ProcessEnv.LoadEnvFile | lib/env.ts:4-31 | an unreadable file changes nothing; otherwise the environment becomes the old one with the file's lines applied in order |
| Env.ProcessEnv.LoadLines | lib/env.ts:14-30 | the loop applies each line's entry in order |
| Env.ProcessEnv.LoadLine | lib/env.ts:15-29 | one pass: a parsed key is set only when absent |
| Env.ExistingKeysKept | lib/env.ts:27-29 | keys already present are never overwritten |
| Env.OnlyParsedKeysAdded | lib/env.ts:14-30 | every new key is the key of some parsed line |
| Env.NotSetKeyAbsent | lib/env.ts:14-30 | a key that no line sets stays absent |
| Env.FirstOccurrenceWins | lib/env.ts:27-29 | for a key absent beforehand, the first line that sets it decides its value |
| FileContentRoute.Find | app/api/file-content/route.ts:19 | the first record with the id, and none exactly when no record has it |
| FileContentRoute.Get | app/api/file-content/route.ts:12-70 | only allow-listed URLs are fetched, and the status is one of 200, 400, 403, 404 and 502 |
| FileContentRoute.MissingFileIdIsBadRequest | app/api/file-content/route.ts:15-17 | a missing or empty `fileId` gives 400 without a fetch |
| FileContentRoute.NotFoundExactly | app/api/file-content/route.ts:19-22 | 404 exactly when a `fileId` is given and no record has it |
| FileContentRoute.LocalContentServed | app/api/file-content/route.ts:24-33 | stored text gives 200 with that content and no source URL, without a fetch |
| FileContentRoute.BadRequestExactly | app/api/file-content/route.ts:15-37 | 400 exactly when the `fileId` is missing, or the record has neither stored text nor a source URL |
| FileContentRoute.ForbiddenExactly | app/api/file-content/route.ts:39-41 | 403 exactly for a record whose source URL is outside the allowlist, and then no fetch |
| FileContentRoute.FetchesExactly | app/api/file-content/route.ts:39-48 | a fetch happens exactly for an allow-listed source URL of a record without stored text, and only of that URL |
| FileContentRoute.FetchedOutcome | app/api/file-content/route.ts:50-69 | after the fetch, 200 with the body and the URL exactly when the response is ok; 502 with the status in the message otherwise; 502 when it throws |
| FileContentRoute.TableSourcesAllowed | lib/mock-db.ts:33-89 | every source URL of the in-memory table is allow-listed |
| FileContentRoute.FirstFileIsLocal | lib/mock-db.ts:34-43 | `file-1` is served from its stored text without a fetch |
| FilesRoute.GetFiles | app/api/files/route.ts:4-13 | a missing or empty `directoryId` gives no rows and no listing; otherwise the listing of that id |
| FilesRoute.TrimOpt | app/api/files/route.ts:26-30 | an optional string is trimmed when present |
| FilesRoute.StoredSize | app/api/files/route.ts:39-41 | a positive numeric `size` wins; otherwise the UTF-16 length of a non-empty trimmed `dataUrl`; otherwise the UTF-8 length of the content |
| FilesRoute.StoredSizeBounds | app/api/files/route.ts:39-41 | the size is never negative; a fallback is at least the length it measures, and a UTF-8 length at most four bytes per character |
| FilesRoute.Normalize | app/api/files/route.ts:26-41 | 400 exactly when the trimmed `directoryId` or `title` is missing or empty; otherwise trimmed fields, the default type, the default content and the computed size |
| FilesRoute.NormalFormKept | app/api/files/route.ts:26-41 | an already-normalised body with a positive size passes through unchanged |
| FilesRoute.BlankFieldRejected | app/api/files/route.ts:32-37 | a blank `directoryId` or `title` is rejected like a missing one |
| FilesRoute.Post | app/api/files/route.ts:24-58 | 400 without a call to `createFileRecord` exactly when validation fails; otherwise 201 with the record created from the normalised body |
| Cloud.InferContentType | cloud.ts:78-89 | the type of the first case-insensitive suffix match in its table, else `application/octet-stream` |
| Cloud.ContentTypeIgnoresCase | cloud.ts:79 | names equal up to case get the same type |
| Cloud.JsonAndCsvAreOctetStreams | cloud.ts:78-89 | `.json` and `.csv` names are octet streams, since the table has no row for them |
| Cloud.PdfIsPdf | cloud.ts:87 | names ending `.pdf` or `.PDF` are `application/pdf`; any other mix of case follows with `ContentTypeIgnoresCase` |
| Cloud.GetPublicUrl | cloud.ts:98-103 | the name alone without a base; otherwise a URL that ends with `/` + name, as long as the base without one trailing `/`, plus one, plus the name |
| Cloud.PublicUrlOneSlash | cloud.ts:102 | exactly one trailing `/` of the base is dropped |
| Cloud.PublicUrlNamesObject | cloud.ts:102 | the object name is what follows the URL's last `/` |
| Cloud.ToBytes | cloud.ts:91-96 | bytes pass through; text is base64-decoded |
| Cloud.ToBytesOfEncoding | cloud.ts:91-96 | bytes sent as their base64 text arrive as the same bytes |
| Cloud.Basename | cloud.ts:108 | the basename contains no `/`, and ends the path once trailing slashes are dropped, right after a `/` |
| Cloud.BasenameOfJoin | cloud.ts:108 | the basename of `dir/name`, with or without a trailing `/`, is `name` |
| Cloud.ObjectName | cloud.ts:107-108 | the given object name, even an empty one; else the basename of a non-empty path; else `uploaded_file` |
| Cloud.PlanUpload | cloud.ts:105-133 | without bytes or a path the call throws; bytes win over a path; the content type is the given one, else inferred from the object name; the result is the public URL of the object |
| Cloud.UploadFile | cloud.ts:155-163 | an empty path throws and returns no name; otherwise `upload_file` uploads under the basename with the inferred type and returns that basename |
| JsText.Trim | lib/env.ts:15 | the trimmed text has no trimmable character at either end and is no longer than the input |
| JsText.TrimTrimmed | lib/env.ts:19-20 | trimming a trimmed text changes nothing |
| JsText.TrimBlank | app/api/files/route.ts:26-27 | a blank text trims to the empty text |
| JsText.SplitJoin | lib/env.ts:14 | joining the pieces of `split` with the separator gives back the text |
| JsText.SplitPieces | lib/env.ts:14 | no piece contains the separator |
| JsText.IndexOf | lib/env.ts:17 | the first position of the character, or -1 when it does not occur |
| JsText.LastIndexOf | lib/files-db.ts:39 | the last position of the character, or -1 when it does not occur |
| JsText.Lower | lib/files-db.ts:41 | ASCII letters are lower-cased, position by position |
| JsText.ParseDecDec | lib/files-write.ts:28 | the decimal text of a number reads back as that number |
| JsText.DecIntInjective | lib/files-write.ts:28 | distinct integers have distinct decimal texts |
| JsText.SuffixLookup | lib/files-db.ts:44-56 | the first row whose suffix ends the lower-cased name decides the result; with no such row, the fallback |

## Left out

- **I/O and the runtime.** Reading `.env` from disk, the `Pool` and `psql` child process (`lib/db.ts`, `lib/psql.ts`), the S3 client and SDK loading in `cloud.ts`, `cloud.py`, `fetch` with its headers, cache mode and 15-second timeout, and logging are all left out. Their results are parameters.
- **UI, directories route and scripts.** `app/components/file-manager.tsx`, `app/page.tsx`, `app/layout.tsx`, `app/api/directories/route.ts` and the scripts under `scripts/` are left out. They only render data or call the modelled code.
- **`listDirectories`** (lib/files-db.ts:59-78) is left out. It is one fixed query whose rows are returned as they come, with a type cast and no mapping; the renaming to `name` and `parentId` is done by the SQL aliases (lines 65-67), and SQL semantics are not modelled.
- **`delete_file_from_cloud`** is left out. It is only an SDK call and its error text.
- **SQL semantics.** Only query text and bound values are modelled, not what PostgreSQL does with them. The text of the `create_file` call is modelled as the arguments it renders.
- **`JSON.parse`** in `createFile` is the parameter `parse`, from the output text to a parsed row or the parser's error. What the parsed object holds is not modelled.
- **Codecs.** Base64, UTF-8, `TextEncoder` and `Date#toISOString` are abstract functions. Lenient base64 decoding of malformed text is not modelled.
- **Text.** Strings are modelled as sequences of Unicode scalar values. JavaScript strings are UTF-16 code units and can hold lone surrogates (a request body `"\ud800"` gives one), which `Buffer.from` replaces by U+FFFD. Lone surrogates are not represented, so `FilesDb.StoredTextReadsBack` holds for well-formed text only.
- **Case mapping.** `toLowerCase` is modelled for ASCII letters only. Non-ASCII case mapping is not modelled.
- **Numbers.** JavaScript numbers are modelled as integers. Fractional, NaN and infinite sizes, limits and offsets are not modelled, nor are integers beyond 2^53, which lose precision, or the exponent notation `String(n)` uses from 1e21 (`SqlNumber` writes every digit). A request `size` that is not a number is modelled as absent, which the handler treats the same way.
- **JSON bodies.** The JSON body of `POST /api/files` is modelled with string fields. A field of another JSON type, which would make `.trim()` throw, is not modelled. Neither is a body that is not valid JSON, on which `request.json()` rejects and the handler fails without a response of its own.
- **`key in process.env`** is modelled as map membership. The model does not capture that inherited `Object.prototype` names also answer `true`.
- **`path.basename`** is modelled for `/`-separated paths only.
- **`readFile` in `upload_file_to_cloud`** is not modelled. The plan names the path to read.
- **Environment configuration in `cloud.ts`.** `BUCKET_PUB_URL` and `BUCKET_NAME` are computed from the environment; here they are parameters.
- **`seedAllowedSourceUrls` stopping on failure.** When `createFile` throws, the loop stops and the exception propagates. The model returns the failure instead.
- **The allowlist module of `lib/files-db.ts`** (`@/lib/allowed-source-urls`) is not part of this model. The allowlist is a parameter there. The route's own five URLs are modelled as a constant.
- FileContentRoute.Get: the exact response body on each path is stated by the lemmas next to it, not by its own contract.

Where the code's behaviour may be surprising, the model follows the code:

- In `resolveFileContent`, a locator that starts with neither `data:` nor `http` gives all content fields null (lib/files-db.ts:235).
- In `resolveFileContent`, a `data:` locator that does not parse still sets `dataUrl`, and only `content` stays null (lib/files-db.ts:206-213).
- In `resolveFileContent`, a thrown fetch is not caught, so the call rejects (`Resolution.Rejected`) rather than returning a row (lib/files-db.ts:221-228).
- In `createFileRecord`, an empty `dataUrl` together with empty content stores that empty string, not null (lib/files-db.ts:252-255).
- A MIME type with parameters, such as `text/plain;charset=utf-8`, which `POST /api/files` passes on as given, makes the text stored by `createFileRecord` unreadable. The stored `data:` URL does not match `parseDataUrl`'s pattern, so `resolveFileContent` gives no content for it (lib/files-db.ts:183-187, 252-255; `FilesDb.ParameterisedTypeUnreadable`).
