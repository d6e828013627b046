/** The parameterised query builders of `lib/db/files-read.ts`. Each builder
    pushes onto a list of bound values and a list of WHERE clauses; every
    clause that needs a value is emitted right after that value is pushed,
    with the placeholder `$n` read from the length of the value list. A
    clause is kept as a structured value (its placeholders are the numbers it
    carries) and rendered to SQL text by `ClauseSql`. */
module FilesRead {
  import opened Wrappers
  import opened JsText

  /** A bound query parameter. */
  datatype SqlValue = Text(text: string) | Number(number: int) | Bool(flag: bool)

  datatype SqlQuery = SqlQuery(text: string, values: seq<SqlValue>)

  /** One row of the `files` table, as the builders' queries select it. */
  datatype FilesTableRow = FilesTableRow(
    id: string, userId: string, fileName: string, originalName: string,
    storageUrl: string, storageKey: string, mimeType: Option<string>,
    fileSize: Option<int>, parentId: Option<string>, isFolder: bool,
    isPublic: bool, createdAt: string, updatedAt: string, deletedAt: Option<string>)

  /** `filters.parentId`: left out (`undefined`), `null`, or an id. */
  datatype ParentFilter = AnyParent | NoParent | ParentIs(id: string)

  /** `ListFilesFilters`. An optional boolean that is left out behaves as
      `false`, since the builder only tests its truthiness. */
  datatype ListFilesFilters = ListFilesFilters(
    userId: string,
    parentId: ParentFilter,
    includeDeleted: bool,
    search: Option<string>,
    isPublicOnly: bool,
    foldersOnly: bool,
    filesOnly: bool,
    limit: Option<int>,
    offset: Option<int>)

  /** The options object of the point lookups; a missing object behaves as
      one with both fields left out. */
  datatype LookupOptions = LookupOptions(userId: Option<string>, includeDeleted: bool)

  /** A WHERE predicate. The number a clause carries is the placeholder it
      renders. */
  datatype Clause =
    | UserIdEq(param: nat)
    | ParentIdIsNull
    | ParentIdEq(param: nat)
    | NotDeleted
    | NameLike(param: nat)
    | PublicOnly
    | IsFolder(folder: bool)
    | IdEq(param: nat)
    | StorageKeyEq(param: nat)

  function Placeholder(n: nat): string {
    "$" + Dec(n)
  }

  function ClauseSql(c: Clause): string {
    match c
    case UserIdEq(p) => "user_id = " + Placeholder(p)
    case ParentIdIsNull => "parent_id IS NULL"
    case ParentIdEq(p) => "parent_id = " + Placeholder(p) + "::uuid"
    case NotDeleted => "deleted_at IS NULL"
    case NameLike(p) => "(file_name ILIKE " + Placeholder(p) + " OR original_name ILIKE " + Placeholder(p) + ")"
    case PublicOnly => "is_public = TRUE"
    case IsFolder(b) => if b then "is_folder = TRUE" else "is_folder = FALSE"
    case IdEq(p) => "id = " + Placeholder(p) + "::uuid"
    case StorageKeyEq(p) => "storage_key = " + Placeholder(p)
  }

  /** `whereClauses.join(" AND ")`. */
  function JoinAnd(cs: seq<Clause>): string {
    if cs == [] then ""
    else if |cs| == 1 then ClauseSql(cs[0])
    else ClauseSql(cs[0]) + " AND " + JoinAnd(cs[1..])
  }

  /** The placeholders a clause references. */
  function Params(c: Clause): set<nat> {
    match c
    case UserIdEq(p) => {p}
    case ParentIdEq(p) => {p}
    case NameLike(p) => {p}
    case IdEq(p) => {p}
    case StorageKeyEq(p) => {p}
    case _ => {}
  }


  /** The placeholders a list of clauses references. */
  function AllParams(cs: seq<Clause>): set<nat> {
    if cs == [] then {} else AllParams(cs[..|cs| - 1]) + Params(cs[|cs| - 1])
  }

  /** The 1-based positions of a value list of length `n`. */
  function Positions(n: nat): (r: set<nat>)
    ensures forall p :: p in r <==> 1 <= p <= n
  {
    if n == 0 then {} else Positions(n - 1) + {n}
  }

  /** No two clauses reference the same placeholder. */
  ghost predicate ParamsDistinct(cs: seq<Clause>) {
    forall i, j :: 0 <= i < j < |cs| ==> Params(cs[i]) !! Params(cs[j])
  }

  /** How many times `c` occurs in `cs`. */
  function Occurrences(cs: seq<Clause>, c: Clause): nat {
    if cs == [] then 0 else (if cs[0] == c then 1 else 0) + Occurrences(cs[1..], c)
  }

  lemma {:induction false} OccurrencesConcat(a: seq<Clause>, b: seq<Clause>, c: Clause)
    ensures Occurrences(a + b, c) == Occurrences(a, c) + Occurrences(b, c)
    decreases |a|
  {
    if a == [] {
      assert a + b == b;
    } else {
      assert (a + b)[1..] == a[1..] + b;
      OccurrencesConcat(a[1..], b, c);
    }
  }

  lemma {:induction false} OccurrencesZero(cs: seq<Clause>, c: Clause)
    ensures Occurrences(cs, c) == 0 <==> c !in cs
    decreases |cs|
  {
    if cs != [] {
      OccurrencesZero(cs[1..], c);
      assert cs == [cs[0]] + cs[1..];
    }
  }

  lemma {:induction false} AllParamsConcat(a: seq<Clause>, b: seq<Clause>)
    ensures AllParams(a + b) == AllParams(a) + AllParams(b)
    decreases |b|
  {
    if b != [] {
      assert (a + b)[..|a + b| - 1] == a + b[..|b| - 1];
      AllParamsConcat(a, b[..|b| - 1]);
    } else {
      assert a + b == a;
    }
  }

  /** A placeholder is referenced by the list exactly when some clause of it
      references it. */
  lemma {:induction false} AllParamsMembers(cs: seq<Clause>)
    ensures forall p :: p in AllParams(cs) <==> exists i :: 0 <= i < |cs| && p in Params(cs[i])
    decreases |cs|
  {
    if cs != [] {
      var init := cs[..|cs| - 1];
      AllParamsMembers(init);
      forall p | p in AllParams(cs) ensures exists i :: 0 <= i < |cs| && p in Params(cs[i]) {
        if p in AllParams(init) {
          var i :| 0 <= i < |init| && p in Params(init[i]);
          assert cs[i] == init[i];
        } else {
          assert p in Params(cs[|cs| - 1]);
        }
      }
      forall p | (exists i :: 0 <= i < |cs| && p in Params(cs[i])) ensures p in AllParams(cs) {
        var i :| 0 <= i < |cs| && p in Params(cs[i]);
        if i < |cs| - 1 {
          assert init[i] == cs[i];
        }
      }
    }
  }

  lemma {:induction false} AllParamsHas(cs: seq<Clause>, i: int, p: nat)
    requires 0 <= i < |cs| && p in Params(cs[i])
    ensures p in AllParams(cs)
    decreases |cs|
  {
    if i < |cs| - 1 {
      AllParamsHas(cs[..|cs| - 1], i, p);
    }
  }

  /** Joining two clause lists whose placeholders are distinct within each
      and disjoint between them keeps them distinct. */
  lemma ConcatDistinct(a: seq<Clause>, b: seq<Clause>)
    requires ParamsDistinct(a) && ParamsDistinct(b)
    requires AllParams(a) !! AllParams(b)
    ensures ParamsDistinct(a + b)
  {
    forall i, j | 0 <= i < j < |a + b|
      ensures Params((a + b)[i]) !! Params((a + b)[j])
    {
      if i < |a| <= j {
        forall p | p in Params(a[i]) ensures p !in Params(b[j - |a|]) {
          AllParamsHas(a, i, p);
          if p in Params(b[j - |a|]) { AllParamsHas(b, j - |a|, p); }
        }
      } else if |a| <= i {
        assert (a + b)[i] == b[i - |a|] && (a + b)[j] == b[j - |a|];
      }
    }
  }

  /** A clause list of at most one placeholder-carrying clause: its
      placeholders are that clause's, and they are trivially distinct. */
  lemma SingleParams(cs: seq<Clause>)
    requires |cs| <= 1
    ensures AllParams(cs) == (if cs == [] then {} else Params(cs[0]))
    ensures ParamsDistinct(cs)
  {
    if cs != [] {
      assert cs[..0] == [];
    }
  }

  /** `if (filters.search)`: present and non-empty. */
  predicate SearchActive(f: ListFilesFilters) {
    f.search.Some? && f.search.value != ""
  }

  function SearchPattern(s: string): string {
    "%" + s + "%"
  }

  /** `Math.min(Math.max(limit ?? 50, 1), 200)`. */
  function ClampLimit(limit: Option<int>): (r: int)
    ensures 1 <= r <= 200
    ensures limit.None? ==> r == 50
    ensures limit.Some? ==> r == if limit.value < 1 then 1 else if limit.value > 200 then 200 else limit.value
  {
    var l := limit.GetOr(50);
    var atLeastOne := if l > 1 then l else 1;
    if atLeastOne < 200 then atLeastOne else 200
  }

  /** `Math.max(offset ?? 0, 0)`. */
  function ClampOffset(offset: Option<int>): (r: int)
    ensures r >= 0
    ensures offset.Some? && offset.value >= 0 ==> r == offset.value
    ensures (offset.None? || offset.value < 0) ==> r == 0
  {
    var o := offset.GetOr(0);
    if o > 0 then o else 0
  }

  // The SQL text. `BASE_SELECT` is a newline, two spaces, then
  // `SelectColumns`; the builders wrap it in an indented template literal
  // and trim the result.

  /** The column list of `BASE_SELECT`, one indented column per line. */
  const ColumnList: string :=
    "    id,\n" + "    user_id,\n" + "    file_name,\n" + "    original_name,\n"
    + "    storage_url,\n" + "    storage_key,\n" + "    mime_type,\n" + "    file_size,\n"
    + "    parent_id,\n" + "    is_folder,\n" + "    is_public,\n" + "    created_at,\n"
    + "    updated_at,\n" + "    deleted_at\n"

  const SelectColumns: string := "SELECT\n" + ColumnList + "  FROM files\n"

  const BaseSelect: string := "\n  " + SelectColumns

  const OrderBy: string := "ORDER BY is_folder DESC, updated_at DESC"

  function WhereSection(cs: seq<Clause>): string {
    if |cs| > 0 then "WHERE " + JoinAnd(cs) else ""
  }

  /** The ORDER BY line and the two paging lines. */
  function OrderAndPaging(limitParam: nat, offsetParam: nat): string {
    "\n    " + OrderBy + "\n    LIMIT " + Placeholder(limitParam) + "\n    OFFSET " + Placeholder(offsetParam)
  }

  /** What follows `BASE_SELECT` in the list query, up to its last placeholder. */
  function ListBody(cs: seq<Clause>, limitParam: nat, offsetParam: nat): string {
    "\n    " + WhereSection(cs) + OrderAndPaging(limitParam, offsetParam)
  }

  /** The line break and indentation that open and close the list
      template, and those of the point-lookup template. */
  const ListIndent: string := "\n    "
  const ListTrail: string := "\n  "
  const LookupIndent: string := "\n      "
  const LookupTrail: string := "\n    "

  /** The template literal of `buildListFilesQuery`, before `.trim()`. */
  function ListTemplate(cs: seq<Clause>, limitParam: nat, offsetParam: nat): string {
    ListIndent + BaseSelect + ListBody(cs, limitParam, offsetParam) + ListTrail
  }

  /** The trimmed list query. */
  function ListText(cs: seq<Clause>, limitParam: nat, offsetParam: nat): string {
    SelectColumns + ListBody(cs, limitParam, offsetParam)
  }

  /** What follows `BASE_SELECT` in a point lookup, up to `LIMIT 1`. */
  function LookupBody(cs: seq<Clause>): string {
    "\n      WHERE " + JoinAnd(cs) + "\n      LIMIT 1"
  }

  /** The template literal of the point lookups, before `.trim()`. */
  function LookupTemplate(cs: seq<Clause>): string {
    LookupIndent + BaseSelect + LookupBody(cs) + LookupTrail
  }

  /** The trimmed point-lookup query. */
  function LookupText(cs: seq<Clause>): string {
    SelectColumns + LookupBody(cs)
  }

  lemma SelectColumnsStart()
    ensures |SelectColumns| > 0 && SelectColumns[0] == 'S'
  {
  }

  lemma IndentsTrimmable()
    ensures AllTrimmable(ListIndent) && AllTrimmable(ListTrail)
    ensures AllTrimmable(LookupIndent) && AllTrimmable(LookupTrail)
  {
  }

  lemma PlaceholderEnd(prefix: string, n: nat)
    ensures var s := prefix + Placeholder(n); |s| > 0 && !IsTrimmable(s[|s| - 1])
  {
    var d := Dec(n);
    assert IsDigit(d[|d| - 1]);
    var s := prefix + Placeholder(n);
    assert s[|s| - 1] == d[|d| - 1];
  }

  lemma AppendAssoc(a: string, b: string, c: string)
    ensures a + (b + c) == a + b + c
  {
  }

  /** A template literal that indents `BASE_SELECT` (a newline and two
      spaces, then `sel`) and ends in whitespace trims to `sel` followed by
      the body. */
  lemma TrimTemplate(indent: string, sel: string, body: string, trail: string)
    requires AllTrimmable(indent) && AllTrimmable(trail)
    requires |sel| > 0 && !IsTrimmable(sel[0])
    requires |body| > 0 && !IsTrimmable(body[|body| - 1])
    ensures Trim(indent + ("\n  " + sel) + body + trail) == sel + body
  {
    var lead := indent + "\n  ";
    AppendAssoc(indent, "\n  ", sel);
    AppendAssoc(lead, sel, body);
    var core := sel + body;
    assert AllTrimmable(lead);
    assert core[0] == sel[0] && core[|core| - 1] == body[|body| - 1];
    TrimFrame(lead, core, trail);
  }

  /** Trimming the list template drops exactly its outer indentation. */
  lemma ListTemplateTrim(cs: seq<Clause>, limitParam: nat, offsetParam: nat)
    ensures Trim(ListTemplate(cs, limitParam, offsetParam)) == ListText(cs, limitParam, offsetParam)
  {
    PlaceholderEnd("\n    " + WhereSection(cs) + "\n    " + OrderBy + "\n    LIMIT " + Placeholder(limitParam) + "\n    OFFSET ", offsetParam);
    SelectColumnsStart();
    IndentsTrimmable();
    TrimTemplate(ListIndent, SelectColumns, ListBody(cs, limitParam, offsetParam), ListTrail);
  }

  /** Trimming the lookup template drops exactly its outer indentation. */
  lemma LookupTemplateTrim(cs: seq<Clause>)
    ensures Trim(LookupTemplate(cs)) == LookupText(cs)
  {
    var body := LookupBody(cs);
    assert body[|body| - 1] == '1';
    SelectColumnsStart();
    IndentsTrimmable();
    TrimTemplate(LookupIndent, SelectColumns, body, LookupTrail);
  }

  // The list query, segment by segment: each optional filter contributes
  // its clauses and values, whose placeholders continue the running count.

  function ParentClauses(f: ListFilesFilters): seq<Clause> {
    match f.parentId
    case AnyParent => []
    case NoParent => [ParentIdIsNull]
    case ParentIs(_) => [ParentIdEq(2)]
  }

  function ParentValues(f: ListFilesFilters): seq<SqlValue> {
    if f.parentId.ParentIs? then [Text(f.parentId.id)] else []
  }

  function DeletedClauses(f: ListFilesFilters): seq<Clause> {
    if f.includeDeleted then [] else [NotDeleted]
  }

  /** The placeholder of the search pattern: the next free position. */
  function SearchParam(f: ListFilesFilters): nat {
    2 + |ParentValues(f)|
  }

  function SearchClauses(f: ListFilesFilters): seq<Clause> {
    if SearchActive(f) then [NameLike(SearchParam(f))] else []
  }

  function SearchValues(f: ListFilesFilters): seq<SqlValue> {
    if SearchActive(f) then [Text(SearchPattern(f.search.value))] else []
  }

  function PublicClauses(f: ListFilesFilters): seq<Clause> {
    if f.isPublicOnly then [PublicOnly] else []
  }

  /** `foldersOnly && !filesOnly`: folders only. */
  function FoldersOnlyClauses(f: ListFilesFilters): seq<Clause> {
    if f.foldersOnly && !f.filesOnly then [IsFolder(true)] else []
  }

  /** `filesOnly && !foldersOnly`: plain files only. */
  function FilesOnlyClauses(f: ListFilesFilters): seq<Clause> {
    if f.filesOnly && !f.foldersOnly then [IsFolder(false)] else []
  }

  /** The WHERE clauses of the list query, in emission order. */
  function ListClauses(f: ListFilesFilters): seq<Clause> {
    [UserIdEq(1)] + ParentClauses(f) + DeletedClauses(f) + SearchClauses(f)
    + PublicClauses(f) + FoldersOnlyClauses(f) + FilesOnlyClauses(f)
  }

  /** The bound values of the list query, in push order. */
  function ListValues(f: ListFilesFilters): seq<SqlValue> {
    [Text(f.userId)] + ParentValues(f) + SearchValues(f)
    + [Number(ClampLimit(f.limit))] + [Number(ClampOffset(f.offset))]
  }

  // `buildListFilesQuery`, block by block. Each block pushes onto the value
  // list and the clause list; a clause that needs a value reads its
  // placeholder from the length of the value list right after the push.

  /** Lines 66-71: `parent_id IS NULL` for a `null` parent, otherwise a
      pushed id and `parent_id = $n::uuid`. */
  method PushParentFilter(filters: ListFilesFilters, values0: seq<SqlValue>, where0: seq<Clause>)
    returns (values: seq<SqlValue>, whereClauses: seq<Clause>)
    ensures values == values0 + ParentValues(filters)
    ensures whereClauses == where0 + match filters.parentId
      case AnyParent => []
      case NoParent => [ParentIdIsNull]
      case ParentIs(_) => [ParentIdEq(|values|)]
  {
    values, whereClauses := values0, where0;
    if filters.parentId.NoParent? {
      whereClauses := whereClauses + [ParentIdIsNull];
    } else if filters.parentId.ParentIs? {
      values := values + [Text(filters.parentId.id)];
      whereClauses := whereClauses + [ParentIdEq(|values|)];
    }
  }

  /** Lines 73-75: the soft-delete guard unless deleted rows are wanted. */
  method PushDeletedFilter(filters: ListFilesFilters, where0: seq<Clause>) returns (whereClauses: seq<Clause>)
    ensures whereClauses == where0 + DeletedClauses(filters)
  {
    whereClauses := where0;
    if !filters.includeDeleted {
      whereClauses := whereClauses + [NotDeleted];
    }
  }

  /** Lines 77-80: a non-empty search pushes `%search%` and one clause whose
      two ILIKEs read that placeholder. */
  method PushSearchFilter(filters: ListFilesFilters, values0: seq<SqlValue>, where0: seq<Clause>)
    returns (values: seq<SqlValue>, whereClauses: seq<Clause>)
    ensures values == values0 + SearchValues(filters)
    ensures whereClauses == where0 + if SearchActive(filters) then [NameLike(|values|)] else []
  {
    values, whereClauses := values0, where0;
    if filters.search.Some? && filters.search.value != "" {
      values := values + [Text(SearchPattern(filters.search.value))];
      whereClauses := whereClauses + [NameLike(|values|)];
    }
  }

  /** Lines 82-92: the public-only and the two folder flags. */
  method PushFlagFilters(filters: ListFilesFilters, where0: seq<Clause>) returns (whereClauses: seq<Clause>)
    ensures whereClauses == where0 + PublicClauses(filters) + FoldersOnlyClauses(filters) + FilesOnlyClauses(filters)
  {
    whereClauses := where0;
    if filters.isPublicOnly {
      whereClauses := whereClauses + [PublicOnly];
    }
    ghost var w := whereClauses;
    if filters.foldersOnly && !filters.filesOnly {
      whereClauses := whereClauses + [IsFolder(true)];
    }
    assert whereClauses == w + FoldersOnlyClauses(filters);
    w := whereClauses;
    if filters.filesOnly && !filters.foldersOnly {
      whereClauses := whereClauses + [IsFolder(false)];
    }
    assert whereClauses == w + FilesOnlyClauses(filters);
  }

  /** Lines 94-107: push the clamped limit and offset, read their
      placeholders from the value count, and trim the template. */
  method FinishListQuery(whereClauses: seq<Clause>, values0: seq<SqlValue>, filters: ListFilesFilters)
    returns (q: SqlQuery)
    ensures q.values == values0 + [Number(ClampLimit(filters.limit))] + [Number(ClampOffset(filters.offset))]
    ensures q.text == ListText(whereClauses, |q.values| - 1, |q.values|)
  {
    var limit := ClampLimit(filters.limit);
    var offset := ClampOffset(filters.offset);
    var values := values0;
    values := values + [Number(limit)];
    var limitParam := |values|;
    values := values + [Number(offset)];
    var offsetParam := |values|;
    q := SqlQuery(Trim(ListTemplate(whereClauses, limitParam, offsetParam)), values);
    assert |q.values| == limitParam + 1 && offsetParam == |q.values|;
    ListTemplateTrim(whereClauses, |q.values| - 1, |q.values|);
  }

  /** `buildListFilesQuery`, returning beside the query the clause list its
      WHERE section was rendered from. Its properties are the lemmas below
      about `ListClauses`, `ListValues` and `ListText`. */
  method BuildListFilesQuery(filters: ListFilesFilters) returns (q: SqlQuery, where: seq<Clause>)
    ensures where == ListClauses(filters)
    ensures q.values == ListValues(filters)
    ensures q.text == ListText(where, |q.values| - 1, |q.values|)
  {
    var values: seq<SqlValue> := [Text(filters.userId)];
    var whereClauses: seq<Clause> := [UserIdEq(|values|)];
    values, whereClauses := PushParentFilter(filters, values, whereClauses);
    assert whereClauses == [UserIdEq(1)] + ParentClauses(filters) by {
      if filters.parentId.ParentIs? { assert |values| == 2; }
    }
    whereClauses := PushDeletedFilter(filters, whereClauses);
    ghost var w := whereClauses;
    values, whereClauses := PushSearchFilter(filters, values, whereClauses);
    assert whereClauses == w + SearchClauses(filters) by {
      if SearchActive(filters) { assert |values| == SearchParam(filters); }
    }
    whereClauses := PushFlagFilters(filters, whereClauses);
    q := FinishListQuery(whereClauses, values, filters);
    where := whereClauses;
  }

  // Properties of the list query.

  /** The value count is 3, plus one for a parent id, plus one for a search;
      the user id is value 1 and the first clause is `user_id = $1`; limit
      and offset, clamped, are the last two values. */
  lemma ListValuesShape(f: ListFilesFilters)
    ensures var v := ListValues(f);
            && |v| == 3 + (if f.parentId.ParentIs? then 1 else 0) + (if SearchActive(f) then 1 else 0)
            && v[0] == Text(f.userId)
            && v[|v| - 2] == Number(ClampLimit(f.limit))
            && v[|v| - 1] == Number(ClampOffset(f.offset))
  {
  }

  lemma ListUserIdFirst(f: ListFilesFilters)
    ensures ListClauses(f)[0] == UserIdEq(1)
    ensures ClauseSql(UserIdEq(1)) == "user_id = $1"
  {
    assert Dec(1) == "1";
  }

  /** The occurrences of a clause in the list query are the sum of its
      occurrences in the segments. */
  lemma ListOccurrences(f: ListFilesFilters, c: Clause)
    ensures Occurrences(ListClauses(f), c)
      == Occurrences([UserIdEq(1)], c) + Occurrences(ParentClauses(f), c) + Occurrences(DeletedClauses(f), c)
       + Occurrences(SearchClauses(f), c) + Occurrences(PublicClauses(f), c)
       + Occurrences(FoldersOnlyClauses(f), c) + Occurrences(FilesOnlyClauses(f), c)
  {
    var s1 := [UserIdEq(1)] + ParentClauses(f);
    var s2 := s1 + DeletedClauses(f);
    var s3 := s2 + SearchClauses(f);
    var s4 := s3 + PublicClauses(f);
    var s5 := s4 + FoldersOnlyClauses(f);
    OccurrencesConcat([UserIdEq(1)], ParentClauses(f), c);
    OccurrencesConcat(s1, DeletedClauses(f), c);
    OccurrencesConcat(s2, SearchClauses(f), c);
    OccurrencesConcat(s3, PublicClauses(f), c);
    OccurrencesConcat(s4, FoldersOnlyClauses(f), c);
    OccurrencesConcat(s5, FilesOnlyClauses(f), c);
  }

  /** `parentId === null` gives one `parent_id IS NULL` and binds nothing
      (the values are those of a listing without a parent filter). */
  lemma ListParentNull(f: ListFilesFilters)
    ensures Occurrences(ListClauses(f), ParentIdIsNull) == (if f.parentId.NoParent? then 1 else 0)
    ensures !f.parentId.ParentIs? ==> |ListValues(f)| == 3 + (if SearchActive(f) then 1 else 0)
  {
    ListOccurrences(f, ParentIdIsNull);
  }

  /** A parent id gives exactly one `parent_id = $2`, and value 2 is that
      id. */
  lemma ListParentId(f: ListFilesFilters)
    ensures Occurrences(ListClauses(f), ParentIdEq(2)) == (if f.parentId.ParentIs? then 1 else 0)
    ensures f.parentId.ParentIs? ==> ListValues(f)[1] == Text(f.parentId.id)
  {
    ListOccurrences(f, ParentIdEq(2));
  }

  /** `deleted_at IS NULL` appears once unless deleted rows are included, and
      `is_public = TRUE` once exactly for public-only listings; neither
      references a placeholder. */
  lemma ListDeletedAndPublic(f: ListFilesFilters)
    ensures Occurrences(ListClauses(f), NotDeleted) == (if f.includeDeleted then 0 else 1)
    ensures Occurrences(ListClauses(f), PublicOnly) == (if f.isPublicOnly then 1 else 0)
    ensures Params(NotDeleted) == {} && Params(PublicOnly) == {}
  {
    ListOccurrences(f, NotDeleted);
    ListOccurrences(f, PublicOnly);
  }

  /** A non-empty search adds exactly one ILIKE pair, reading the text
      `%search%` bound just before the paging values; otherwise none. */
  lemma ListSearchFilter(f: ListFilesFilters)
    ensures var v := ListValues(f);
            && Occurrences(ListClauses(f), NameLike(|v| - 2)) == (if SearchActive(f) then 1 else 0)
            && (SearchActive(f) ==> v[|v| - 3] == Text(SearchPattern(f.search.value)))
  {
    ListOccurrences(f, NameLike(|ListValues(f)| - 2));
  }

  /** The search clause, and only it, sits at `SearchIndex`. */
  lemma ListSearchPosition(f: ListFilesFilters)
    ensures forall i :: 0 <= i < |ListClauses(f)| ==> (ListClauses(f)[i].NameLike? <==> SearchActive(f) && i == SearchIndex(f))
  {
    var cs := ListClauses(f);
    forall i | 0 <= i < |cs| ensures cs[i].NameLike? <==> SearchActive(f) && i == SearchIndex(f) {
      ListClauseAt(f, i);
    }
  }

  /** The index of the search clause in the clause list. */
  function SearchIndex(f: ListFilesFilters): nat {
    1 + |ParentClauses(f)| + |DeletedClauses(f)|
  }

  /** Which segment the clause at index `i` comes from. */
  lemma ListClauseAt(f: ListFilesFilters, i: int)
    requires 0 <= i < |ListClauses(f)|
    ensures var c := ListClauses(f)[i];
            && (c.NameLike? ==> i == SearchIndex(f) && SearchActive(f))
            && (SearchActive(f) && i == SearchIndex(f) ==> c == NameLike(SearchParam(f)))
            && (c.ParentIdEq? ==> i == 1 && f.parentId.ParentIs? && c == ParentIdEq(2))
            && (c.UserIdEq? ==> i == 0 && c == UserIdEq(1))
            && (Params(c) == {} || c.UserIdEq? || c.ParentIdEq? || c.NameLike?)
  {
  }

  /** Exactly one of `foldersOnly` and `filesOnly` emits exactly one
      `is_folder` clause, for that kind, and none of the other. */
  lemma ListFolderFilters(f: ListFilesFilters)
    ensures Occurrences(ListClauses(f), IsFolder(true)) == (if f.foldersOnly && !f.filesOnly then 1 else 0)
    ensures Occurrences(ListClauses(f), IsFolder(false)) == (if f.filesOnly && !f.foldersOnly then 1 else 0)
  {
    ListOccurrences(f, IsFolder(true));
    ListOccurrences(f, IsFolder(false));
  }

  /** `foldersOnly` together with `filesOnly` emits no `is_folder` clause at
      all. */
  lemma ListFoldersAndFiles(f: ListFilesFilters)
    requires f.foldersOnly && f.filesOnly
    ensures forall i :: 0 <= i < |ListClauses(f)| ==> !ListClauses(f)[i].IsFolder?
  {
    var cs := ListClauses(f);
    ListFolderFilters(f);
    OccurrencesZero(cs, IsFolder(true));
    OccurrencesZero(cs, IsFolder(false));
    forall i | 0 <= i < |cs| ensures !cs[i].IsFolder? {
      assert cs[i] in cs;
    }
  }

  /** The placeholders the list clauses reference: 1 for the user id, 2 for
      a parent id, and the search placeholder. */
  lemma ListParams(f: ListFilesFilters)
    ensures AllParams(ListClauses(f))
      == {1} + (if f.parentId.ParentIs? then {2} else {}) + (if SearchActive(f) then {SearchParam(f)} else {})
  {
    ListParamsWithin(f);
    ListParamsCovered(f);
  }

  lemma ListParamsWithin(f: ListFilesFilters)
    ensures forall p :: p in AllParams(ListClauses(f)) ==>
              p == 1 || (f.parentId.ParentIs? && p == 2) || (SearchActive(f) && p == SearchParam(f))
  {
    var cs := ListClauses(f);
    AllParamsMembers(cs);
    forall p | p in AllParams(cs)
      ensures p == 1 || (f.parentId.ParentIs? && p == 2) || (SearchActive(f) && p == SearchParam(f))
    {
      var i :| 0 <= i < |cs| && p in Params(cs[i]);
      ListClauseAt(f, i);
    }
  }

  lemma ListParamsCovered(f: ListFilesFilters)
    ensures 1 in AllParams(ListClauses(f))
    ensures f.parentId.ParentIs? ==> 2 in AllParams(ListClauses(f))
    ensures SearchActive(f) ==> SearchParam(f) in AllParams(ListClauses(f))
  {
    var cs := ListClauses(f);
    AllParamsMembers(cs);
    assert 1 in Params(cs[0]);
    if f.parentId.ParentIs? {
      assert 2 in Params(cs[1]);
    }
    if SearchActive(f) {
      ListClauseAt(f, SearchIndex(f));
      assert SearchParam(f) in Params(cs[SearchIndex(f)]);
    }
  }

  /** The clauses' placeholders are exactly 1..len(values) without the last
      two, which LIMIT and OFFSET use: every placeholder names a bound value
      and every value but those two is named by a clause. */
  lemma ListPlaceholders(f: ListFilesFilters)
    ensures var n := |ListValues(f)|;
            && AllParams(ListClauses(f)) == Positions(n - 2)
            && AllParams(ListClauses(f)) + {n - 1, n} == Positions(n)
  {
    ListParams(f);
    var n := |ListValues(f)|;
    assert Positions(n) == Positions(n - 2) + {n - 1, n};
  }

  /** No two list clauses reference the same placeholder. */
  lemma ListParamsDistinct(f: ListFilesFilters)
    ensures ParamsDistinct(ListClauses(f))
  {
    var cs := ListClauses(f);
    forall i, j | 0 <= i < j < |cs| ensures Params(cs[i]) !! Params(cs[j]) {
      ListClauseAt(f, i);
      ListClauseAt(f, j);
    }
  }

  /** The value a clause's placeholder must name, given the filters. */
  ghost predicate BindsItsValue(c: Clause, values: seq<SqlValue>, f: ListFilesFilters) {
    match c
    case UserIdEq(p) => 1 <= p <= |values| && values[p - 1] == Text(f.userId)
    case ParentIdEq(p) => f.parentId.ParentIs? && 1 <= p <= |values| && values[p - 1] == Text(f.parentId.id)
    case NameLike(p) => SearchActive(f) && 1 <= p <= |values| && values[p - 1] == Text(SearchPattern(f.search.value))
    case _ => Params(c) == {}
  }

  /** Each placeholder names the value of the filter it serves: value 1 is
      the user id, and a parent id or a `%search%` pattern sits at the index
      its clause renders (both ILIKEs of the search read that one index). */
  lemma ListBindings(f: ListFilesFilters)
    ensures forall i :: 0 <= i < |ListClauses(f)| ==> BindsItsValue(ListClauses(f)[i], ListValues(f), f)
  {
    var cs, v := ListClauses(f), ListValues(f);
    forall i | 0 <= i < |cs| ensures BindsItsValue(cs[i], v, f) {
      ListClauseAt(f, i);
      if SearchActive(f) && i == SearchIndex(f) {
        assert v[SearchParam(f) - 1] == Text(SearchPattern(f.search.value));
      }
    }
  }

  /** Whatever the filters, the list text is the fixed column list, then
      the WHERE section, then the fixed `ORDER BY is_folder DESC, updated_at
      DESC` and the two paging placeholders, which are the last two value
      positions. */
  lemma ListOrderFixed(f: ListFilesFilters)
    ensures var n := |ListValues(f)|;
            var text := ListText(ListClauses(f), n - 1, n);
            && StartsWith(text, SelectColumns)
            && EndsWith(text, OrderAndPaging(n - 1, n))
  {
    var n := |ListValues(f)|;
    ListTextEnds(ListClauses(f), n - 1, n);
  }

  lemma ListTextEnds(cs: seq<Clause>, limitParam: nat, offsetParam: nat)
    ensures StartsWith(ListText(cs, limitParam, offsetParam), SelectColumns)
    ensures EndsWith(ListText(cs, limitParam, offsetParam), OrderAndPaging(limitParam, offsetParam))
  {
    ConcatEnds(SelectColumns, "\n    " + WhereSection(cs), OrderAndPaging(limitParam, offsetParam));
  }

  lemma ConcatEnds(a: string, b: string, c: string)
    ensures StartsWith(a + (b + c), a) && EndsWith(a + (b + c), c)
  {
    var s := a + (b + c);
    assert s[..|a|] == a;
    assert s[|s| - |c|..] == c;
  }

  // The point lookups. Both builders share one shape and differ only in the
  // clause that matches the key, so they are modelled by one method over
  // the kind of key.

  datatype LookupKey = ById | ByStorageKey

  /** The clause that binds the key to `$1`. */
  function KeyClause(k: LookupKey): Clause {
    if k.ById? then IdEq(1) else StorageKeyEq(1)
  }

  /** `if (options?.userId)`: present and non-empty. */
  predicate UserIdActive(opt: LookupOptions) {
    opt.userId.Some? && opt.userId.value != ""
  }

  function LookupClauses(k: LookupKey, opt: LookupOptions): seq<Clause> {
    [KeyClause(k)]
    + (if UserIdActive(opt) then [UserIdEq(2)] else [])
    + (if !opt.includeDeleted then [NotDeleted] else [])
  }

  function LookupValues(key: string, opt: LookupOptions): seq<SqlValue> {
    [Text(key)] + (if UserIdActive(opt) then [Text(opt.userId.value)] else [])
  }

  /** The shared body of `buildGetFileByIdQuery` and
      `buildGetFileByStorageKeyQuery`. */
  method BuildLookupQuery(k: LookupKey, key: string, opt: LookupOptions) returns (q: SqlQuery, where: seq<Clause>)
    ensures where == LookupClauses(k, opt)
    ensures q.values == LookupValues(key, opt)
    ensures q.text == LookupText(where)
  {
    var values := [Text(key)];
    var whereClauses := [KeyClause(k)];
    if UserIdActive(opt) {
      values := values + [Text(opt.userId.value)];
      whereClauses := whereClauses + [UserIdEq(|values|)];
    }
    assert whereClauses == [KeyClause(k)] + (if UserIdActive(opt) then [UserIdEq(2)] else []);
    assert values == LookupValues(key, opt);
    if !opt.includeDeleted {
      whereClauses := whereClauses + [NotDeleted];
    }
    assert whereClauses == LookupClauses(k, opt);
    q := LookupQuery(whereClauses, values);
    where := whereClauses;
  }

  /** The trimmed template over the clauses, with the values. */
  method LookupQuery(whereClauses: seq<Clause>, values: seq<SqlValue>) returns (q: SqlQuery)
    ensures q.values == values
    ensures q.text == LookupText(whereClauses)
  {
    LookupTemplateTrim(whereClauses);
    q := SqlQuery(Trim(LookupTemplate(whereClauses)), values);
  }

  /** `buildGetFileByIdQuery`. */
  method BuildGetFileByIdQuery(id: string, opt: LookupOptions) returns (q: SqlQuery)
    ensures q.values == LookupValues(id, opt)
    ensures q.text == LookupText(LookupClauses(ById, opt))
  {
    var where;
    q, where := BuildLookupQuery(ById, id, opt);
  }

  /** `buildGetFileByStorageKeyQuery`. */
  method BuildGetFileByStorageKeyQuery(storageKey: string, opt: LookupOptions) returns (q: SqlQuery)
    ensures q.values == LookupValues(storageKey, opt)
    ensures q.text == LookupText(LookupClauses(ByStorageKey, opt))
  {
    var where;
    q, where := BuildLookupQuery(ByStorageKey, storageKey, opt);
  }

  /** The key is always `$1`, rendered as a `uuid` cast for ids; the user
      clause is `$2` exactly when a user id is given, bound to it. */
  lemma LookupKeyAndUser(k: LookupKey, key: string, opt: LookupOptions)
    ensures var cs, v := LookupClauses(k, opt), LookupValues(key, opt);
            && cs[0] == KeyClause(k) && v[0] == Text(key)
            && |v| == (if UserIdActive(opt) then 2 else 1)
            && (Occurrences(cs, UserIdEq(2)) == 1 <==> UserIdActive(opt))
            && (UserIdActive(opt) ==> cs[1] == UserIdEq(2) && v[1] == Text(opt.userId.value))
  {
    OccurrencesConcat([KeyClause(k)] + (if UserIdActive(opt) then [UserIdEq(2)] else []),
                      if !opt.includeDeleted then [NotDeleted] else [], UserIdEq(2));
    OccurrencesConcat([KeyClause(k)], if UserIdActive(opt) then [UserIdEq(2)] else [], UserIdEq(2));
  }

  /** The key clauses as the source writes them. */
  lemma KeyClauseSql()
    ensures ClauseSql(KeyClause(ById)) == "id = $1::uuid"
    ensures ClauseSql(KeyClause(ByStorageKey)) == "storage_key = $1"
  {
    assert Dec(1) == "1";
  }

  /** Soft-deleted rows are excluded unless asked for. */
  lemma LookupDeleted(k: LookupKey, opt: LookupOptions)
    ensures var cs := LookupClauses(k, opt);
            && (Occurrences(cs, NotDeleted) == 1 <==> !opt.includeDeleted)
            && (Occurrences(cs, NotDeleted) == 0 <==> opt.includeDeleted)
            && cs[|cs| - 1] == (if opt.includeDeleted then (if UserIdActive(opt) then UserIdEq(2) else KeyClause(k)) else NotDeleted)
  {
    var head := [KeyClause(k)] + (if UserIdActive(opt) then [UserIdEq(2)] else []);
    OccurrencesConcat(head, if !opt.includeDeleted then [NotDeleted] else [], NotDeleted);
    OccurrencesConcat([KeyClause(k)], if UserIdActive(opt) then [UserIdEq(2)] else [], NotDeleted);
  }

  /** Every bound value is referenced by exactly one clause, and every
      clause's placeholder has a value. */
  lemma LookupPlaceholders(k: LookupKey, key: string, opt: LookupOptions)
    ensures var cs := LookupClauses(k, opt);
            AllParams(cs) == Positions(|LookupValues(key, opt)|) && ParamsDistinct(cs)
  {
    var u := if UserIdActive(opt) then [UserIdEq(2)] else [];
    var d := if !opt.includeDeleted then [NotDeleted] else [];
    var cs := LookupClauses(k, opt);
    AllParamsConcat([KeyClause(k)], u);
    AllParamsConcat([KeyClause(k)] + u, d);
    SingleParams([KeyClause(k)]);
    SingleParams(u);
    SingleParams(d);
    assert AllParams(d) == {};
    ConcatDistinct([KeyClause(k)], u);
    ConcatDistinct([KeyClause(k)] + u, d);
  }

  // The executors. The database driver is the function `run`, from query
  // text and values to the rows it returns.

  /** `result.rows[0] ?? null`. */
  function FirstRow(rows: seq<FilesTableRow>): (r: Option<FilesTableRow>)
    ensures r.Some? <==> |rows| > 0
    ensures r.Some? ==> r.value == rows[0]
  {
    if rows == [] then None else Some(rows[0])
  }

  /** `listFiles`: runs the list query and returns all its rows. */
  method ListFiles(run: (string, seq<SqlValue>) -> seq<FilesTableRow>, filters: ListFilesFilters)
    returns (rows: seq<FilesTableRow>, q: SqlQuery)
    ensures q.values == ListValues(filters)
    ensures q.text == ListText(ListClauses(filters), |q.values| - 1, |q.values|)
    ensures rows == run(q.text, q.values)
  {
    var where;
    q, where := BuildListFilesQuery(filters);
    rows := run(q.text, q.values);
  }

  /** `getFileById`: the first row of the lookup, if any. */
  method GetFileById(run: (string, seq<SqlValue>) -> seq<FilesTableRow>, id: string, opt: LookupOptions)
    returns (row: Option<FilesTableRow>, q: SqlQuery)
    ensures q == SqlQuery(LookupText(LookupClauses(ById, opt)), LookupValues(id, opt))
    ensures row == FirstRow(run(q.text, q.values))
  {
    q := BuildGetFileByIdQuery(id, opt);
    row := FirstRow(run(q.text, q.values));
  }

  /** `getFileByStorageKey`: the first row of the lookup, if any. */
  method GetFileByStorageKey(run: (string, seq<SqlValue>) -> seq<FilesTableRow>, storageKey: string, opt: LookupOptions)
    returns (row: Option<FilesTableRow>, q: SqlQuery)
    ensures q == SqlQuery(LookupText(LookupClauses(ByStorageKey, opt)), LookupValues(storageKey, opt))
    ensures row == FirstRow(run(q.text, q.values))
  {
    q := BuildGetFileByStorageKeyQuery(storageKey, opt);
    row := FirstRow(run(q.text, q.values));
  }
}
