/**
 * The travel endpoints' decisions: the guard sequences of get, create and
 * edit, and the table that turns a travel error into an HTTP status. The
 * storage calls a handler makes are passed in as functions, so a handler is
 * a pure function from its request to its response.
 */
module TravelHandlers {
  import opened Wrappers
  import opened CodeError
  import opened Numeric
  import opened Identity
  import opened Travel
  import T = Travel
  import U = User
  import opened UserHandlers

  const TravelErrorStatus: map<CodeError.Error, int> := map[
    T.ErrStorageSave := StatusInternalServerError,
    T.ErrStorageUpdate := StatusInternalServerError,
    T.ErrStorageGet := StatusInternalServerError,
    ErrNotFoundTravel := StatusNotFound,
    ErrInvalidStatusToEditLocation := StatusBadRequest,
    ErrInvalidStatusToEdit := StatusBadRequest,
    ErrInvalidUser := StatusBadRequest,
    ErrInvalidUserClaims := StatusUnauthorized,
    ErrInvalidUserAccess := StatusUnauthorized
  ]

  function MapTravelError(err: AnyError): (int, ApiError) {
    MapErrorWith(TravelErrorStatus, err)
  }

  /** Storage failures are 500s that keep their code and detail. */
  lemma MapTravelErrorStorage(e: CodeError.Error)
    requires e == T.ErrStorageSave || e == T.ErrStorageUpdate || e == T.ErrStorageGet
    ensures MapTravelError(Coded(e)) == (StatusInternalServerError, ApiError("storage_failure", e.detail))
  {
    assert e in TravelErrorStatus && TravelErrorStatus[e] == StatusInternalServerError;
  }

  /** A missing travel is a 404. */
  lemma MapTravelErrorNotFound()
    ensures MapTravelError(Coded(ErrNotFoundTravel)) == (StatusNotFound, ApiError("not_found_travel", "not founded the travel to get"))
  {
  }

  /** A broken update rule is a 400 that keeps its code and detail. */
  lemma MapTravelErrorRules(e: CodeError.Error)
    requires e == ErrInvalidStatusToEditLocation || e == ErrInvalidStatusToEdit || e == ErrInvalidUser
    ensures MapTravelError(Coded(e)) == (StatusBadRequest, ApiError(e.code, e.detail))
  {
  }

  /** A missing or unauthorized caller is a 401 "invalid_user_access" that keeps its detail. */
  lemma MapTravelErrorUnauthorized(e: CodeError.Error)
    requires e == ErrInvalidUserClaims || e == ErrInvalidUserAccess
    ensures MapTravelError(Coded(e)) == (StatusUnauthorized, ApiError("invalid_user_access", e.detail))
  {
  }

  /**
   * Any error from outside the table is a 500 "error" carrying the error's
   * text; the user service's not-found, which the edit handler can meet, is one.
   */
  lemma MapTravelErrorOutside(err: AnyError)
    ensures !(err.Coded? && err.error in TravelErrorStatus) ==>
      MapTravelError(err) == (StatusInternalServerError, ApiError("error", err.Text()))
    ensures U.ErrNotFoundUser !in TravelErrorStatus
  {
  }

  /** A storage answer as a response: the travel under `okStatus`, or the mapped error. */
  function Answer(r: Result<Travel, CodeError.Error>, okStatus: int): (resp: Response<Travel>)
    ensures resp.Reply? <==> r.Success?
    ensures r.Success? ==> resp == Reply(okStatus, r.value)
    ensures r.Failure? ==> (resp.status, resp.error) == MapTravelError(Coded(r.error))
  {
    match r
    case Success(t) => Reply(okStatus, t)
    case Failure(e) =>
      var (status, body) := MapTravelError(Coded(e));
      Reject(status, body)
  }

  const ErrNoIdToGet := ApiError(InvalidRequest, "the request has not a travel id to get")
  const ErrNoIdToUpdate := ApiError(InvalidRequest, "the request has not a travel id to update")
  const ErrUnknownTravelUser := ApiError("invalid_travel_user", "the user received was not found")

  /** GET of one travel: a path id that is not an int64 is a 400; otherwise the fetch's answer. */
  function GetTravel(idParam: string, fetch: int -> Result<Travel, CodeError.Error>): (resp: Response<Travel>)
    ensures ParseInt64(idParam).None? ==> resp == Reject(StatusBadRequest, ErrNoIdToGet)
    ensures ParseInt64(idParam).Some? ==> resp == Answer(fetch(ParseInt64(idParam).value), StatusOK)
  {
    match ParseInt64(idParam)
    case None => Reject(StatusBadRequest, ErrNoIdToGet)
    case Some(id) => Answer(fetch(id), StatusOK)
  }

  /** POST of a travel: a body that does not bind is a 422; otherwise the save's answer, as created. */
  function CreateTravel(body: Result<Travel, BindError>, save: Travel -> Result<Travel, CodeError.Error>): (resp: Response<Travel>)
    ensures body.Failure? ==> resp == Reject(StatusUnprocessableEntity, MapValidateError(body.error))
    ensures body.Success? ==> resp == Answer(save(body.value), StatusCreated)
  {
    match body
    case Failure(e) => Reject(StatusUnprocessableEntity, MapValidateError(e))
    case Success(t) => Answer(save(t), StatusCreated)
  }

  /**
   * PUT of a travel, first failure wins: the path id must be an int64; the
   * body must bind; the path id replaces the body's; a non-zero user id that
   * the user lookup reports as not found is a 400 (any other lookup failure
   * is ignored); then the update's answer.
   */
  function EditTravel(idParam: string, body: Result<Travel, BindError>,
                      lookupUser: int -> Result<U.SecuredUser, CodeError.Error>,
                      update: Travel -> Result<Travel, CodeError.Error>): (resp: Response<Travel>)
    ensures ParseInt64(idParam).None? ==> resp == Reject(StatusBadRequest, ErrNoIdToUpdate)
    ensures ParseInt64(idParam).Some? && body.Failure? ==>
      resp == Reject(StatusUnprocessableEntity, MapValidateError(body.error))
    ensures ParseInt64(idParam).Some? && body.Success? ==>
      var proposed := body.value.(id := ParseInt64(idParam).value);
      if proposed.userId != 0 && lookupUser(proposed.userId) == Failure(U.ErrNotFoundUser)
      then resp == Reject(StatusBadRequest, ErrUnknownTravelUser)
      else resp == Answer(update(proposed), StatusOK)
  {
    match ParseInt64(idParam)
    case None => Reject(StatusBadRequest, ErrNoIdToUpdate)
    case Some(id) =>
      match body
      case Failure(e) => Reject(StatusUnprocessableEntity, MapValidateError(e))
      case Success(t) =>
        var proposed := t.(id := id);
        if proposed.userId != 0 && lookupUser(proposed.userId) == Failure(U.ErrNotFoundUser) then
          Reject(StatusBadRequest, ErrUnknownTravelUser)
        else
          Answer(update(proposed), StatusOK)
  }

  /** The id a client puts in the body of an edit has no effect. */
  lemma EditIgnoresBodyId(idParam: string, t: Travel, bodyId: int,
                          lookupUser: int -> Result<U.SecuredUser, CodeError.Error>,
                          update: Travel -> Result<Travel, CodeError.Error>)
    ensures EditTravel(idParam, Success(t.(id := bodyId)), lookupUser, update)
         == EditTravel(idParam, Success(t), lookupUser, update)
  {
  }

  /** An edit that leaves the travel unassigned does not depend on the user lookup. */
  lemma EditUnassignedSkipsLookup(idParam: string, t: Travel,
                                  lookup1: int -> Result<U.SecuredUser, CodeError.Error>,
                                  lookup2: int -> Result<U.SecuredUser, CodeError.Error>,
                                  update: Travel -> Result<Travel, CodeError.Error>)
    requires t.userId == 0
    ensures EditTravel(idParam, Success(t), lookup1, update) == EditTravel(idParam, Success(t), lookup2, update)
  {
  }

  /** Only a not-found answer of the user lookup matters; any other answer leads to the same response. */
  lemma EditIgnoresOtherLookupFailures(idParam: string, t: Travel,
                                       lookup1: int -> Result<U.SecuredUser, CodeError.Error>,
                                       lookup2: int -> Result<U.SecuredUser, CodeError.Error>,
                                       update: Travel -> Result<Travel, CodeError.Error>)
    requires lookup1(t.userId) != Failure(U.ErrNotFoundUser) && lookup2(t.userId) != Failure(U.ErrNotFoundUser)
    ensures EditTravel(idParam, Success(t), lookup1, update) == EditTravel(idParam, Success(t), lookup2, update)
  {
  }

  /**
   * Wired to the storage service, a driver who is not the travel's assigned
   * user gets a 401 "invalid_user_access" for every edit that reaches the
   * update, whatever the body proposes, including assigning it to themself.
   */
  lemma {:induction false} EditByNonOwnerIsUnauthorized(travels: map<int, Travel>, id: int, t: Travel, caller: Claims,
                                                       lookupUser: int -> Result<U.SecuredUser, CodeError.Error>)
    requires InInt64(id) && id in travels
    requires travels[id].userId != caller.userId && caller.role != RoleAdmin
    requires t.userId == 0 || lookupUser(t.userId) != Failure(U.ErrNotFoundUser)
    ensures EditTravel(FormatInt(id), Success(t), lookupUser,
                       p => UpdateAsOutcome(travels, p, Some(caller), Healthy, Healthy))
         == Reject(StatusUnauthorized, ApiError("invalid_user_access", ErrInvalidUserAccess.detail))
  {
    FormatParseRoundTrip(id);
    var proposed := t.(id := id);
    assert UpdateAsOutcome(travels, proposed, Some(caller), Healthy, Healthy) == Failure(ErrInvalidUserAccess);
    MapTravelErrorUnauthorized(ErrInvalidUserAccess);
  }

  /** Wired to the storage service, an edit without a caller identity is a 401 naming that. */
  lemma {:induction false} EditWithoutIdentityIsUnauthorized(travels: map<int, Travel>, id: int, t: Travel,
                                                            lookupUser: int -> Result<U.SecuredUser, CodeError.Error>)
    requires InInt64(id) && id in travels
    requires t.userId == 0 || lookupUser(t.userId) != Failure(U.ErrNotFoundUser)
    ensures EditTravel(FormatInt(id), Success(t), lookupUser,
                       p => UpdateAsOutcome(travels, p, None, Healthy, Healthy))
         == Reject(StatusUnauthorized, ApiError("invalid_user_access", "cannot identify user logged in"))
  {
    FormatParseRoundTrip(id);
    var proposed := t.(id := id);
    assert UpdateAsOutcome(travels, proposed, None, Healthy, Healthy) == Failure(ErrInvalidUserClaims);
    MapTravelErrorUnauthorized(ErrInvalidUserClaims);
  }

  /** Wired to the storage service, a created travel is answered as pending, whatever status was sent. */
  lemma {:induction false} CreateAnswersPending(t: Travel, newId: int)
    ensures CreateTravel(Success(t), p => Success(Saved(p, newId))).Reply?
    ensures CreateTravel(Success(t), p => Success(Saved(p, newId))).status == StatusCreated
    ensures CreateTravel(Success(t), p => Success(Saved(p, newId))).body.status == StatusPending
  {
    assert CreateTravel(Success(t), p => Success(Saved(p, newId))) == Reply(StatusCreated, Saved(t, newId));
  }

  /** A failed save is a 500 whose error reads as the save error itself, "storage_failure - an error ocurred trying to save travel". */
  lemma {:induction false} CreateStorageFailure(t: Travel)
    ensures CreateTravel(Success(t), p => Failure(T.ErrStorageSave)).status == StatusInternalServerError
    ensures CreateTravel(Success(t), p => Failure(T.ErrStorageSave)).Reject?
    ensures CreateTravel(Success(t), p => Failure(T.ErrStorageSave)).error.Render() == T.ErrStorageSave.Render()
  {
    MapTravelErrorStorage(T.ErrStorageSave);
  }

  /** Wired to the storage service, fetching a stored travel answers it, and a missing one is a 404. */
  lemma {:induction false} GetAnswersStoredTravel(travels: map<int, Travel>, id: int)
    requires InInt64(id)
    ensures id in travels ==>
      GetTravel(FormatInt(id), i => Lookup(travels, i, Healthy)) == Reply(StatusOK, travels[id])
    ensures id !in travels ==>
      GetTravel(FormatInt(id), i => Lookup(travels, i, Healthy))
        == Reject(StatusNotFound, ApiError("not_found_travel", "not founded the travel to get"))
  {
    FormatParseRoundTrip(id);
    MapTravelErrorNotFound();
  }
}
