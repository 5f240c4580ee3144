/**
 * The HTTP layer's shared vocabulary and the user endpoints' decisions: the
 * API error body, the error-to-status tables, the description of a body that
 * failed validation, and the query parameters of the driver search.
 * Responses are plain values: a status with a body, or a status with an API error.
 */
module UserHandlers {
  import opened Wrappers
  import opened CodeError
  import opened Numeric
  import opened User

  const StatusOK := 200
  const StatusCreated := 201
  const StatusBadRequest := 400
  const StatusUnauthorized := 401
  const StatusNotFound := 404
  const StatusUnprocessableEntity := 422
  const StatusInternalServerError := 500

  /** The JSON error body every handler answers with. */
  datatype ApiError = ApiError(code: string, description: string) {

    /** Its `Error()` text, "code - description", which reads back as the same pair. */
    function Render(): (s: string)
      ensures DashFree(code) ==> Parse(s) == Some(CodeError.Error(code, description))
    {
      if DashFree(code) then
        RenderRoundTrip(CodeError.Error(code, description));
        Format(code, description)
      else
        Format(code, description)
    }
  }

  /** What a handler writes: a body with its status, or an API error with its status. */
  datatype Response<T> = Reply(status: int, body: T) | Reject(status: int, error: ApiError)

  const InvalidRequest := "invalid_request"

  /**
   * The common shape of the three error tables: a coded error listed in the
   * table keeps its code and detail under the listed status; anything else
   * is a 500 with code "error" and the error's text.
   */
  function MapErrorWith(table: map<CodeError.Error, int>, err: AnyError): (r: (int, ApiError))
    ensures err.Coded? && err.error in table ==>
      r.0 == table[err.error] && r.1.code == err.error.code && r.1.Render() == err.Text()
    ensures !(err.Coded? && err.error in table) ==>
      r.0 == StatusInternalServerError && r.1 == ApiError("error", err.Text())
  {
    if err.Coded? && err.error in table then
      (table[err.error], ApiError(err.error.GetCode(), err.error.GetDetail()))
    else
      (StatusInternalServerError, ApiError("error", err.Text()))
  }

  const UserErrorStatus: map<CodeError.Error, int> := map[
    ErrInvalidPasswordToSave := StatusBadRequest,
    ErrInvalidRole := StatusBadRequest,
    ErrStorageSave := StatusInternalServerError,
    ErrNotFoundUser := StatusNotFound,
    ErrStorageGet := StatusInternalServerError
  ]

  function MapUserError(err: AnyError): (int, ApiError) {
    MapErrorWith(UserErrorStatus, err)
  }

  /** The statuses the user table gives each user error, and the fallback for the rest. */
  lemma MapUserErrorStatuses(err: AnyError)
    ensures err == Coded(ErrInvalidPasswordToSave) || err == Coded(ErrInvalidRole) ==>
      MapUserError(err) == (StatusBadRequest, ApiError(err.error.code, err.error.detail))
    ensures err == Coded(ErrStorageSave) || err == Coded(ErrStorageGet) ==>
      MapUserError(err) == (StatusInternalServerError, ApiError("storage_failure", err.error.detail))
    ensures err == Coded(ErrNotFoundUser) ==>
      MapUserError(err) == (StatusNotFound, ApiError("not_found_user", "not founded the user to get"))
    ensures err == Coded(ErrInvalidPasswordToLogin) ==>
      MapUserError(err) == (StatusInternalServerError, ApiError("error", ErrInvalidPasswordToLogin.Render()))
  {
  }

  // ---------------------------------------------------------------------------
  // Validation errors of a request body
  // ---------------------------------------------------------------------------

  /** One failed validation: the struct field's name and the rule it broke. */
  datatype FieldError = FieldError(field: string, tag: string)

  /** Why binding a JSON body failed: validation of some fields, or anything else. */
  datatype BindError = Invalid(fields: seq<FieldError>) | Malformed(message: string)

  const FieldsPrefix := "there was an error with fields: "
  const InvalidBody := "the received request is invalid"
  const FieldSeparator := ','

  /** The failing fields' names in the validator's order; `MapValidateError` joins them. */
  function FieldNames(errs: seq<FieldError>): seq<string> {
    seq(|errs|, i requires 0 <= i < |errs| => errs[i].field)
  }

  /**
   * The loop that collects the failing fields' names, proved to build exactly
   * `FieldNames`, the list `MapValidateError` describes.
   */
  method CollectFieldNames(errs: seq<FieldError>) returns (fields: seq<string>)
    ensures fields == FieldNames(errs)
    ensures |fields| == |errs| && forall i :: 0 <= i < |errs| ==> fields[i] == errs[i].field
  {
    fields := [];
    for i := 0 to |errs|
      invariant |fields| == i
      invariant forall k :: 0 <= k < i ==> fields[k] == errs[k].field
    {
      fields := fields + [errs[i].field];
    }
  }

  /** `strings.Join`: the parts with `sep` between consecutive ones. */
  function Join(parts: seq<string>, sep: char): string {
    if |parts| == 0 then ""
    else if |parts| == 1 then parts[0]
    else parts[0] + [sep] + Join(parts[1..], sep)
  }

  /** `strings.Split` on one character: the pieces between occurrences of `sep`. */
  function Split(s: string, sep: char): (parts: seq<string>)
    ensures |parts| >= 1
    decreases |s|
  {
    if |s| == 0 then [""]
    else
      var rest := Split(s[1..], sep);
      if s[0] == sep then [""] + rest else [[s[0]] + rest[0]] + rest[1..]
  }

  function LowerChar(c: char): char {
    if 'A' <= c <= 'Z' then (c as int - 'A' as int + 'a' as int) as char else c
  }

  /** `strings.ToLower` on ASCII letters; every other character is kept. */
  function ToLower(s: string): (t: string)
    ensures |t| == |s|
  {
    seq(|s|, i requires 0 <= i < |s| => LowerChar(s[i]))
  }

  function LowerAll(parts: seq<string>): seq<string> {
    seq(|parts|, i requires 0 <= i < |parts| => ToLower(parts[i]))
  }

  /** The body of a 422: the failing fields lower-cased and comma-joined, or a generic text. */
  function MapValidateError(err: BindError): (e: ApiError)
    ensures e.code == InvalidRequest
    ensures err.Malformed? ==> e.description == InvalidBody
    ensures err.Invalid? ==> |FieldsPrefix| <= |e.description| && e.description[..|FieldsPrefix|] == FieldsPrefix
  {
    match err
    case Invalid(fields) =>
      ApiError(InvalidRequest, FieldsPrefix + ToLower(Join(FieldNames(fields), FieldSeparator)))
    case Malformed(_) =>
      ApiError(InvalidRequest, InvalidBody)
  }

  lemma {:induction false} SplitWithoutSeparator(a: string, sep: char)
    requires sep !in a
    ensures Split(a, sep) == [a]
    decreases |a|
  {
    if |a| > 0 {
      SplitWithoutSeparator(a[1..], sep);
      assert [a[0]] + a[1..] == a;
    }
  }

  lemma {:induction false} SplitAtFirstSeparator(a: string, b: string, sep: char)
    requires sep !in a
    ensures Split(a + [sep] + b, sep) == [a] + Split(b, sep)
    decreases |a|
  {
    var s := a + [sep] + b;
    if |a| == 0 {
      assert s[1..] == b;
    } else {
      assert s[1..] == a[1..] + [sep] + b;
      SplitAtFirstSeparator(a[1..], b, sep);
      assert [a[0]] + a[1..] == a;
    }
  }

  /** Splitting a join gives the parts back when none of them holds the separator. */
  lemma {:induction false} SplitJoinRoundTrip(parts: seq<string>, sep: char)
    requires |parts| > 0
    requires forall i :: 0 <= i < |parts| ==> sep !in parts[i]
    ensures Split(Join(parts, sep), sep) == parts
    decreases |parts|
  {
    if |parts| == 1 {
      SplitWithoutSeparator(parts[0], sep);
    } else {
      SplitJoinRoundTrip(parts[1..], sep);
      SplitAtFirstSeparator(parts[0], Join(parts[1..], sep), sep);
      assert [parts[0]] + parts[1..] == parts;
    }
  }

  lemma {:induction false} ToLowerJoin(parts: seq<string>, sep: char)
    requires LowerChar(sep) == sep
    ensures ToLower(Join(parts, sep)) == Join(LowerAll(parts), sep)
    decreases |parts|
  {
    if |parts| > 1 {
      ToLowerJoin(parts[1..], sep);
      assert LowerAll(parts)[1..] == LowerAll(parts[1..]);
      var rest := Join(parts[1..], sep);
      assert ToLower(parts[0] + [sep] + rest) == ToLower(parts[0]) + [sep] + ToLower(rest);
    }
  }

  /**
   * The field list of a validation error reads back: split at the commas, the
   * description's tail is each failing field's name lower-cased, in order,
   * provided there is at least one and none contains a comma.
   */
  lemma {:induction false} ValidateErrorFieldsRecoverable(fields: seq<FieldError>)
    requires |fields| > 0
    requires forall i :: 0 <= i < |fields| ==> FieldSeparator !in fields[i].field
    ensures var d := MapValidateError(Invalid(fields)).description;
      Split(d[|FieldsPrefix|..], FieldSeparator) == LowerAll(FieldNames(fields))
  {
    var names := FieldNames(fields);
    ToLowerJoin(names, FieldSeparator);
    var lowered := LowerAll(names);
    forall i | 0 <= i < |lowered|
      ensures FieldSeparator !in lowered[i]
    {
      assert FieldSeparator !in names[i];
      forall k | 0 <= k < |lowered[i]|
        ensures lowered[i][k] != FieldSeparator
      {
        assert lowered[i][k] == LowerChar(names[i][k]);
      }
    }
    SplitJoinRoundTrip(lowered, FieldSeparator);
    var d := MapValidateError(Invalid(fields)).description;
    assert d[|FieldsPrefix|..] == ToLower(Join(names, FieldSeparator));
  }

  /** The two coordinates that fail together give "lat,lng". */
  lemma ValidateErrorExample()
    ensures MapValidateError(Invalid([FieldError("Lat", "required"), FieldError("Lng", "required")])).description
      == "there was an error with fields: lat,lng"
  {
    var names := FieldNames([FieldError("Lat", "required"), FieldError("Lng", "required")]);
    assert names == ["Lat", "Lng"];
    assert Join(names, FieldSeparator) == "Lat,Lng";
    assert ToLower("Lat,Lng") == "lat,lng";
  }

  // ---------------------------------------------------------------------------
  // The driver search's query parameters
  // ---------------------------------------------------------------------------

  const ErrSearchStatus := ApiError(InvalidRequest, "invalid search status received")
  const ErrSearchConflict := ApiError(InvalidRequest, "search free driver do not accept limit or offset param")
  const ErrSearchLimit := ApiError(InvalidRequest, "invalid search limit received")
  const ErrSearchOffset := ApiError(InvalidRequest, "invalid search offset received")

  /** Only the free-driver search may be asked for by status; "" is no status. */
  predicate StatusParamOk(status: string) {
    status == "" || status == StatusSearchFree
  }

  /** A status search takes no pagination parameters. */
  predicate NoConflict(status: string, limit: string, offset: string) {
    status == "" || (limit == "" && offset == "")
  }

  predicate LimitParamOk(limit: string) {
    limit == "" || (ParseInt64(limit).Some? && ParseInt64(limit).value != 0)
  }

  predicate OffsetParamOk(offset: string) {
    offset == "" || ParseInt64(offset).Some?
  }

  predicate ParamsOk(status: string, limit: string, offset: string) {
    StatusParamOk(status) && NoConflict(status, limit, offset) && LimitParamOk(limit) && OffsetParamOk(offset)
  }

  /** The number a parameter parses to, or `dflt` when it is absent or does not parse. */
  function ParsedOr(param: string, dflt: int): int {
    match ParseInt64(param)
    case Some(v) => v
    case None => dflt
  }

  function Present(param: string): nat {
    if param == "" then 0 else 1
  }

  /** The search a request asks for, written directly in terms of its parameters. */
  function RequestedSearch(status: string, limit: string, offset: string): Search {
    Search(if status == "" then StatusSearchNone else status, ParsedOr(offset, 0), ParsedOr(limit, 20))
  }

  /**
   * The checks of the driver search's parameters, first failure wins, and the
   * options they add: one per parameter present, which together configure
   * exactly the requested search.
   */
  method DriverSearchOptions(status: string, limit: string, offset: string)
    returns (r: Result<seq<SearchOption>, ApiError>)
    ensures r.Success? <==> ParamsOk(status, limit, offset)
    ensures !StatusParamOk(status) ==> r == Failure(ErrSearchStatus)
    ensures StatusParamOk(status) && !NoConflict(status, limit, offset) ==> r == Failure(ErrSearchConflict)
    ensures StatusParamOk(status) && NoConflict(status, limit, offset) && !LimitParamOk(limit) ==>
      r == Failure(ErrSearchLimit)
    ensures StatusParamOk(status) && NoConflict(status, limit, offset) && LimitParamOk(limit) && !OffsetParamOk(offset) ==>
      r == Failure(ErrSearchOffset)
    ensures r.Success? ==> |r.value| == Present(status) + Present(limit) + Present(offset)
    ensures r.Success? ==> ApplySearchOptions(DefaultSearch, r.value) == RequestedSearch(status, limit, offset)
  {
    var options: seq<SearchOption> := [];
    ghost var applied := DefaultSearch;
    if status != "" && status != StatusSearchFree {
      return Failure(ErrSearchStatus);
    }
    if status != "" {
      if limit != "" || offset != "" {
        return Failure(ErrSearchConflict);
      }
      ApplyOneMore(DefaultSearch, options, WithStatus(status));
      options := options + [WithStatus(status)];
      applied := ApplySearchOption(applied, WithStatus(status));
    }
    if limit != "" {
      var n := ParseInt64(limit);
      if n.None? || n.value == 0 {
        return Failure(ErrSearchLimit);
      }
      ApplyOneMore(DefaultSearch, options, WithLimit(n.value));
      options := options + [WithLimit(n.value)];
      applied := ApplySearchOption(applied, WithLimit(n.value));
    }
    if offset != "" {
      var n := ParseInt64(offset);
      if n.None? {
        return Failure(ErrSearchOffset);
      }
      ApplyOneMore(DefaultSearch, options, WithOffset(n.value));
      options := options + [WithOffset(n.value)];
      applied := ApplySearchOption(applied, WithOffset(n.value));
    }
    assert applied == ApplySearchOptions(DefaultSearch, options);
    return Success(options);
  }

  lemma ApplyOneMore(s: Search, opts: seq<SearchOption>, o: SearchOption)
    ensures ApplySearchOptions(s, opts + [o]) == ApplySearchOption(ApplySearchOptions(s, opts), o)
  {
    assert (opts + [o])[..|opts|] == opts;
  }

  /** No parameters ask for the default listing; "free" alone asks for the free drivers. */
  lemma RequestedSearchExamples()
    ensures RequestedSearch("", "", "") == DefaultSearch
    ensures RequestedSearch(StatusSearchFree, "", "") == Search(StatusSearchFree, 0, 20)
    ensures RequestedSearch("", "-1", "0") == Search(StatusSearchNone, 0, -1)
    ensures !LimitParamOk("0") && !LimitParamOk("a") && OffsetParamOk("0")
  {
    assert ParseInt64("-1") == Some(-1) by {
      assert Unsigned("-1") == "1";
    }
    assert ParseInt64("0") == Some(0) by {
      assert Unsigned("0") == "0";
    }
    assert !IsDigit('a');
  }

  /** The listing a driver search answers with. */
  datatype Drivers = Drivers(total: int, pending: int, result: seq<SecuredUser>)

  /**
   * The driver search endpoint: parameter errors are 400s; otherwise the
   * requested search runs, its failure is mapped through the user table and
   * its success is a 200 with the metadata and the secured users.
   */
  method GetDrivers(users: UserStorage, status: string, limit: string, offset: string,
                    paginate: (int, int) -> Result<(seq<User>, int), RepoError>,
                    freeDrivers: Result<seq<User>, RepoError>)
    returns (resp: Response<Drivers>)
    ensures !StatusParamOk(status) ==> resp == Reject(StatusBadRequest, ErrSearchStatus)
    ensures StatusParamOk(status) && !NoConflict(status, limit, offset) ==> resp == Reject(StatusBadRequest, ErrSearchConflict)
    ensures StatusParamOk(status) && NoConflict(status, limit, offset) && !LimitParamOk(limit) ==>
      resp == Reject(StatusBadRequest, ErrSearchLimit)
    ensures StatusParamOk(status) && NoConflict(status, limit, offset) && LimitParamOk(limit) && !OffsetParamOk(offset) ==>
      resp == Reject(StatusBadRequest, ErrSearchOffset)
    ensures ParamsOk(status, limit, offset) ==>
      var s := RequestedSearch(status, limit, offset);
      var answer := if s.status == StatusSearchNone then Listing(paginate(s.limit, s.offset)) else freeDrivers;
      && (resp.Reject? <==> answer.Failure?)
      && (answer.Failure? ==> (resp.status, resp.error) == MapUserError(Coded(LookupError(answer.error))))
      && (answer.Success? ==> resp.status == StatusOK && resp.body.result == Secured(answer.value))
      && (answer.Success? && s.status == StatusSearchNone ==>
            var total := paginate(s.limit, s.offset).value.1;
            resp.body.total == total && resp.body.pending == Pending(total, s.limit, s.offset))
      && (answer.Success? && s.status != StatusSearchNone ==>
            resp.body.total == |freeDrivers.value| && resp.body.pending == 0)
  {
    var opts := DriverSearchOptions(status, limit, offset);
    if opts.Failure? {
      return Reject(StatusBadRequest, opts.error);
    }
    var found, meta, err := users.Search(opts.value, paginate, freeDrivers);
    if err.Some? {
      var (code, body) := MapUserError(Coded(err.value));
      return Reject(code, body);
    }
    return Reply(StatusOK, Drivers(meta.total, meta.pending, found));
  }
}
