/**
 * The travel domain: a travel's lifecycle, the rule set that decides whether a
 * proposed edit of a stored travel is accepted, and the storage service that
 * creates, fetches and updates travels in a repository.
 */
module Travel {
  import opened Wrappers
  import opened CodeError
  import opened Identity

  // ---------------------------------------------------------------------------
  // Status and lifecycle
  // ---------------------------------------------------------------------------

  /** A status is any string; only the three below are known. */
  type Status = string

  const StatusPending: Status := "pending"
  const StatusInProcess: Status := "in_process"
  const StatusReady: Status := "ready"

  /** The lifecycle order: pending, then in_process, then ready. */
  const TaskFlow: seq<Status> := [StatusPending, StatusInProcess, StatusReady]

  predicate IsKnownStatus(s: Status) {
    s == StatusPending || s == StatusInProcess || s == StatusReady
  }

  /** The position of `e` in `s`, or -1 when `e` does not occur. */
  function IndexOf(s: seq<Status>, e: Status): (i: int)
    ensures -1 <= i < |s|
    ensures i == -1 <==> e !in s
    ensures 0 <= i ==> s[i] == e && forall j :: 0 <= j < i ==> s[j] != e
  {
    if |s| == 0 then -1
    else if s[0] == e then 0
    else
      var k := IndexOf(s[1..], e);
      if k == -1 then -1 else k + 1
  }

  /** The search loop of `findInSlice`: the first index holding `e`, or -1. */
  method FindInSlice(s: seq<Status>, e: Status) returns (i: int)
    ensures i == IndexOf(s, e)
  {
    var k := 0;
    while k < |s|
      invariant 0 <= k <= |s|
      invariant forall j :: 0 <= j < k ==> s[j] != e
    {
      if s[k] == e {
        return k;
      }
      k := k + 1;
    }
    return -1;
  }

  lemma TaskFlowIndices()
    ensures IndexOf(TaskFlow, StatusPending) == 0
    ensures IndexOf(TaskFlow, StatusInProcess) == 1
    ensures IndexOf(TaskFlow, StatusReady) == 2
  {
    assert TaskFlow[0] == StatusPending;
    assert TaskFlow[1] == StatusInProcess && TaskFlow[0] != StatusInProcess;
    assert TaskFlow[2] == StatusReady && TaskFlow[0] != StatusReady && TaskFlow[1] != StatusReady;
  }

  /** A status outside the lifecycle has no position in it. */
  lemma UnknownStatusIndex(s: Status)
    requires !IsKnownStatus(s)
    ensures IndexOf(TaskFlow, s) == -1
  {
    assert s !in TaskFlow;
  }

  /** The transition check of the update: stay in place or advance exactly one position. */
  predicate StepAllowed(current: int, next: int) {
    current == next || current + 1 == next
  }

  /**
   * The status moves the lifecycle admits, listed one by one: each status may
   * stay, pending may advance to in_process and in_process to ready. A stored
   * status outside the lifecycle sits at position -1, one step before pending.
   */
  predicate LegalMove(from: Status, to: Status) {
    || (from == StatusPending && (to == StatusPending || to == StatusInProcess))
    || (from == StatusInProcess && (to == StatusInProcess || to == StatusReady))
    || (from == StatusReady && to == StatusReady)
    || (!IsKnownStatus(from) && to == StatusPending)
  }

  /** The index arithmetic over `TaskFlow` admits exactly the listed moves. */
  lemma StepAllowedIsLegalMove(from: Status, to: Status)
    requires IsKnownStatus(to)
    ensures StepAllowed(IndexOf(TaskFlow, from), IndexOf(TaskFlow, to)) <==> LegalMove(from, to)
  {
    TaskFlowIndices();
    if !IsKnownStatus(from) {
      UnknownStatusIndex(from);
    }
  }

  // ---------------------------------------------------------------------------
  // Travel records and errors
  // ---------------------------------------------------------------------------

  /**
   * A geographic point. The coordinates are float64 in the service, but the
   * rule set only ever compares them for (in)equality, so any type with
   * equality carries the same information here.
   */
  datatype Point = Point(lat: int, lng: int)

  /** A travel; user id 0 means that no driver is assigned. */
  datatype Travel = Travel(id: int, status: Status, from: Point, to: Point, userId: int)

  const ErrStorageSave := Error("storage_failure", "an error ocurred trying to save travel")
  const ErrStorageUpdate := Error("storage_failure", "an error ocurred trying to update travel")
  const ErrStorageGet := Error("storage_failure", "an error ocurred trying to get travel")
  const ErrNotFoundTravel := Error("not_found_travel", "not founded the travel to get")
  const ErrInvalidStatusToEditLocation := Error("invalid_location_edit_status", "travel status does not allow location change")
  const ErrInvalidStatusToEdit := Error("invalid_status", "invalid received status")
  const ErrInvalidUser := Error("invalid_user", "invalid user while performing update")
  /** The caller's identity is missing. */
  const ErrInvalidUserClaims := Error("invalid_user_access", "cannot identify user logged in")
  /** The caller neither owns the travel nor is an admin. */
  const ErrInvalidUserAccess := Error("invalid_user_access", "the user logged in cannot perform this action, he is not the owner of the travel or it is not an admin")

  /** The three storage failures share a code but are three distinct errors. */
  lemma StorageErrorsDistinct()
    ensures ErrStorageSave.code == ErrStorageUpdate.code == ErrStorageGet.code
    ensures ErrStorageSave != ErrStorageUpdate && ErrStorageSave != ErrStorageGet && ErrStorageUpdate != ErrStorageGet
  {
    assert ErrStorageSave.detail[33] != ErrStorageUpdate.detail[33];
    assert ErrStorageSave.detail[33] != ErrStorageGet.detail[33];
    assert ErrStorageUpdate.detail[33] != ErrStorageGet.detail[33];
  }

  // ---------------------------------------------------------------------------
  // The update rule set
  // ---------------------------------------------------------------------------

  /** Some coordinate of the proposed travel differs from the stored one. */
  predicate LocationChanged(stored: Travel, proposed: Travel) {
    || stored.from.lat != proposed.from.lat
    || stored.from.lng != proposed.from.lng
    || stored.to.lat != proposed.to.lat
    || stored.to.lng != proposed.to.lng
  }

  /** Locations may only be edited while the stored travel is pending. */
  predicate LocationEditAllowed(stored: Travel, proposed: Travel) {
    !LocationChanged(stored, proposed) || stored.status == StatusPending
  }

  /** A travel that is, or is going to be, out of pending needs an assigned user. */
  predicate AssignmentPresent(stored: Travel, proposed: Travel) {
    proposed.userId != 0 || (stored.status == StatusPending && proposed.status == StatusPending)
  }

  /** An assigned user may only be replaced when the proposed status is pending. */
  predicate ReassignmentAllowed(stored: Travel, proposed: Travel) {
    proposed.userId == stored.userId || stored.userId == 0 || proposed.status == StatusPending
  }

  /** The user-related rules together. */
  predicate UserRulesHold(stored: Travel, proposed: Travel) {
    AssignmentPresent(stored, proposed) && ReassignmentAllowed(stored, proposed)
  }

  /** Every rule of the update, stated declaratively, in no particular order. */
  predicate Acceptable(stored: Travel, proposed: Travel) {
    && LocationEditAllowed(stored, proposed)
    && IsKnownStatus(proposed.status)
    && UserRulesHold(stored, proposed)
    && LegalMove(stored.status, proposed.status)
  }

  /** A record in the shape the lifecycle promises: a known status, and a user unless pending. */
  predicate WellFormed(t: Travel) {
    IsKnownStatus(t.status) && (t.userId == 0 ==> t.status == StatusPending)
  }

  /** The stored travel with the proposed status, user and locations, keeping the stored id. */
  function Merge(stored: Travel, proposed: Travel): Travel {
    stored.(status := proposed.status, userId := proposed.userId, from := proposed.from, to := proposed.to)
  }

  /**
   * The checks of the update, in their order; the first one that fails decides
   * the error, and when none fails the merged travel is the result.
   */
  function Validate(stored: Travel, proposed: Travel): (r: Result<Travel, Error>)
    ensures r.Success? <==> Acceptable(stored, proposed)
    ensures r.Success? ==> r.value == proposed.(id := stored.id) && WellFormed(r.value)
    ensures r == Failure(ErrInvalidStatusToEditLocation) <==> !LocationEditAllowed(stored, proposed)
    ensures r == Failure(ErrInvalidUser) <==>
      LocationEditAllowed(stored, proposed) && IsKnownStatus(proposed.status) && !UserRulesHold(stored, proposed)
    ensures r == Failure(ErrInvalidStatusToEdit) <==>
      LocationEditAllowed(stored, proposed) &&
      (!IsKnownStatus(proposed.status) || (UserRulesHold(stored, proposed) && !LegalMove(stored.status, proposed.status)))
  {
    if LocationChanged(stored, proposed) && stored.status != StatusPending then
      Failure(ErrInvalidStatusToEditLocation)
    else if proposed.status != StatusPending && proposed.status != StatusInProcess && proposed.status != StatusReady then
      Failure(ErrInvalidStatusToEdit)
    else if proposed.userId == 0 && stored.status != StatusPending then
      Failure(ErrInvalidUser)
    else if proposed.userId == 0 && proposed.status != StatusPending then
      Failure(ErrInvalidUser)
    else if proposed.userId != stored.userId && stored.userId != 0 && proposed.status != StatusPending then
      Failure(ErrInvalidUser)
    else if !StepAllowed(IndexOf(TaskFlow, stored.status), IndexOf(TaskFlow, proposed.status)) then
      StepAllowedIsLegalMove(stored.status, proposed.status);
      Failure(ErrInvalidStatusToEdit)
    else
      StepAllowedIsLegalMove(stored.status, proposed.status);
      Success(Merge(stored, proposed))
  }

  // ---------------------------------------------------------------------------
  // Ownership
  // ---------------------------------------------------------------------------

  /** The caller is the travel's assigned user, or an admin. */
  predicate OwnerOrAdmin(stored: Travel, caller: Claims) {
    stored.userId == caller.userId || caller.role == RoleAdmin
  }

  /**
   * The update rule set preceded by the ownership check: a missing identity,
   * then a caller who is neither the assigned user nor an admin, is rejected
   * before any of the rules runs.
   */
  function ValidateAs(stored: Travel, proposed: Travel, caller: Option<Claims>): (r: Result<Travel, Error>)
    ensures r.Success? <==> caller.Some? && OwnerOrAdmin(stored, caller.value) && Acceptable(stored, proposed)
    ensures r.Success? ==> r.value == proposed.(id := stored.id)
    ensures r.Failure? && caller.Some? && OwnerOrAdmin(stored, caller.value) ==> r.error != ErrInvalidUserAccess
    ensures caller.None? ==> r == Failure(ErrInvalidUserClaims)
    ensures caller.Some? && !OwnerOrAdmin(stored, caller.value) ==> r == Failure(ErrInvalidUserAccess)
    ensures caller.Some? && OwnerOrAdmin(stored, caller.value) ==> r == Validate(stored, proposed)
  {
    if caller.None? then Failure(ErrInvalidUserClaims)
    else if !OwnerOrAdmin(stored, caller.value) then Failure(ErrInvalidUserAccess)
    else Validate(stored, proposed)
  }

  // ---------------------------------------------------------------------------
  // Properties of the rule set
  // ---------------------------------------------------------------------------

  /** A location edit outside pending fails on that rule, whatever else is wrong with the proposal. */
  lemma LocationRuleComesFirst(stored: Travel, proposed: Travel)
    requires LocationChanged(stored, proposed) && stored.status != StatusPending
    ensures Validate(stored, proposed) == Failure(ErrInvalidStatusToEditLocation)
  {
  }

  /** A proposed status outside the lifecycle, the empty one included, is an invalid status. */
  lemma UnknownStatusRejected(stored: Travel, proposed: Travel)
    requires LocationEditAllowed(stored, proposed)
    requires !IsKnownStatus(proposed.status)
    ensures Validate(stored, proposed) == Failure(ErrInvalidStatusToEdit)
  {
  }

  /** Skipping a step or moving backwards is an invalid status once the other rules hold. */
  lemma {:induction false} SkipAndRegressionRejected(stored: Travel, proposed: Travel)
    requires Acceptable(stored, proposed.(status := stored.status))
    requires UserRulesHold(stored, proposed)
    requires (stored.status == StatusPending && proposed.status == StatusReady)
          || (stored.status == StatusInProcess && proposed.status == StatusPending)
          || (stored.status == StatusReady && proposed.status != StatusReady && IsKnownStatus(proposed.status))
    ensures Validate(stored, proposed) == Failure(ErrInvalidStatusToEdit)
  {
    assert LocationEditAllowed(stored, proposed);
    assert !LegalMove(stored.status, proposed.status);
  }

  /** A stored status outside the lifecycle can only be moved to pending. */
  lemma UnlistedStatusOnlyToPending(stored: Travel, proposed: Travel)
    requires !IsKnownStatus(stored.status)
    requires Validate(stored, proposed).Success?
    ensures proposed.status == StatusPending
  {
  }

  /** Leaving pending, or being out of it, without a user is an invalid user. */
  lemma MissingUserRejected(stored: Travel, proposed: Travel)
    requires LocationEditAllowed(stored, proposed) && IsKnownStatus(proposed.status)
    requires proposed.userId == 0 && (stored.status != StatusPending || proposed.status != StatusPending)
    ensures Validate(stored, proposed) == Failure(ErrInvalidUser)
  {
  }

  /** Replacing an assigned user is an invalid user unless the proposed status is pending. */
  lemma ReassignmentOutsidePendingRejected(stored: Travel, proposed: Travel)
    requires LocationEditAllowed(stored, proposed) && IsKnownStatus(proposed.status)
    requires stored.userId != 0 && proposed.userId != stored.userId && proposed.status != StatusPending
    ensures Validate(stored, proposed) == Failure(ErrInvalidUser)
  {
  }

  /** Proposing the stored travel itself is accepted and changes nothing, for any well-formed record. */
  lemma {:induction false} NoOpUpdateAccepted(t: Travel, caller: Claims)
    requires WellFormed(t) && OwnerOrAdmin(t, caller)
    ensures ValidateAs(t, t, Some(caller)) == Success(t)
  {
    assert LegalMove(t.status, t.status);
  }

  /** A caller who is neither the assigned user nor an admin is refused any edit, self-assignment included. */
  lemma {:induction false} NonOwnerRejected(stored: Travel, proposed: Travel, caller: Claims)
    requires stored.userId != caller.userId && caller.role != RoleAdmin
    ensures ValidateAs(stored, proposed, Some(caller)) == Failure(ErrInvalidUserAccess)
  {
  }

  /** An admin may hand a pending travel to any user while it stays pending, wherever it travels to. */
  lemma {:induction false} AdminReassignsPending(stored: Travel, proposed: Travel, caller: Claims)
    requires caller.role == RoleAdmin
    requires stored.status == StatusPending && proposed.status == StatusPending && proposed.userId != 0
    ensures ValidateAs(stored, proposed, Some(caller)) == Success(proposed.(id := stored.id))
  {
    assert LegalMove(stored.status, proposed.status);
  }

  /** The advances of the lifecycle are accepted for the assigned user, locations unchanged. */
  lemma {:induction false} ForwardStepAccepted(stored: Travel, next: Status)
    requires stored.userId != 0
    requires (stored.status == StatusPending && next == StatusInProcess)
          || (stored.status == StatusInProcess && next == StatusReady)
    ensures Validate(stored, stored.(status := next)) == Success(stored.(status := next))
  {
    assert LegalMove(stored.status, next);
  }

  // ---------------------------------------------------------------------------
  // The storage service
  // ---------------------------------------------------------------------------

  /** How a repository call fails: the record is missing, or anything else. */
  datatype RepoError = NotFound | Broken

  /** What the repository does on one call beyond reading or writing its records. */
  datatype Fault = Healthy | Fails(error: RepoError)

  /** What fetching `id` answers: the record, or the service's error for the repository failure. */
  function Lookup(travels: map<int, Travel>, id: int, fault: Fault): (r: Result<Travel, Error>)
    ensures r.Success? <==> fault.Healthy? && id in travels
    ensures r.Success? ==> r.value == travels[id]
    ensures r.Failure? ==> r.error == (if fault == Fails(Broken) then ErrStorageGet else ErrNotFoundTravel)
  {
    match fault
    case Fails(NotFound) => Failure(ErrNotFoundTravel)
    case Fails(Broken) => Failure(ErrStorageGet)
    case Healthy => if id in travels then Success(travels[id]) else Failure(ErrNotFoundTravel)
  }

  /** A rule verdict followed by the write: an accepted travel is returned only if it was written. */
  function Commit(verdict: Result<Travel, Error>, writeFault: Fault): (r: Result<Travel, Error>)
    ensures r.Success? <==> verdict.Success? && writeFault.Healthy?
    ensures r.Success? ==> r == verdict
    ensures verdict.Failure? ==> r == verdict
    ensures verdict.Success? && writeFault.Fails? ==> r == Failure(ErrStorageUpdate)
  {
    if verdict.Failure? then verdict
    else if writeFault.Fails? then Failure(ErrStorageUpdate)
    else verdict
  }

  /** The repository after an update with outcome `r`: only an accepted and written travel lands. */
  function Written(travels: map<int, Travel>, r: Result<Travel, Error>): map<int, Travel> {
    if r.Success? then travels[r.value.id := r.value] else travels
  }

  /** The outcome of an update as the storage service decides it, without an ownership check. */
  function UpdateOutcome(travels: map<int, Travel>, proposed: Travel, getFault: Fault, writeFault: Fault): Result<Travel, Error> {
    match Lookup(travels, proposed.id, getFault)
    case Failure(e) => Failure(e)
    case Success(stored) => Commit(Validate(stored, proposed), writeFault)
  }

  /** The outcome of an update by `caller`: the fetch, then the ownership check, then the rules. */
  function UpdateAsOutcome(travels: map<int, Travel>, proposed: Travel, caller: Option<Claims>, getFault: Fault, writeFault: Fault): Result<Travel, Error> {
    match Lookup(travels, proposed.id, getFault)
    case Failure(e) => Failure(e)
    case Success(stored) => Commit(ValidateAs(stored, proposed, caller), writeFault)
  }

  /** Every record is filed under its own id. */
  predicate KeysMatchIds(travels: map<int, Travel>) {
    forall k :: k in travels ==> travels[k].id == k
  }

  predicate AllWellFormed(travels: map<int, Travel>) {
    forall k :: k in travels ==> WellFormed(travels[k])
  }

  /** A failed fetch is the update's answer unchanged, and nothing is written. */
  lemma {:induction false} FetchErrorPropagates(travels: map<int, Travel>, proposed: Travel, getFault: Fault, writeFault: Fault)
    requires Lookup(travels, proposed.id, getFault).Failure?
    ensures UpdateOutcome(travels, proposed, getFault, writeFault) == Lookup(travels, proposed.id, getFault)
    ensures UpdateOutcome(travels, proposed, getFault, writeFault).error in {ErrNotFoundTravel, ErrStorageGet}
    ensures Written(travels, UpdateOutcome(travels, proposed, getFault, writeFault)) == travels
  {
  }

  /** An accepted update writes and returns exactly the proposed travel, under its own id. */
  lemma {:induction false} AcceptedUpdateIsProposal(travels: map<int, Travel>, proposed: Travel, getFault: Fault, writeFault: Fault)
    requires KeysMatchIds(travels)
    requires UpdateOutcome(travels, proposed, getFault, writeFault).Success?
    ensures UpdateOutcome(travels, proposed, getFault, writeFault) == Success(proposed)
    ensures Written(travels, UpdateOutcome(travels, proposed, getFault, writeFault)) == travels[proposed.id := proposed]
    ensures proposed.id in travels && Acceptable(travels[proposed.id], proposed)
  {
    var stored := travels[proposed.id];
    assert stored.id == proposed.id;
  }

  /** The update as travel.go writes it keeps a repository of well-formed records well-formed, each under its id. */
  lemma {:induction false} UpdateAsWrittenKeepsRecordsWellFormed(travels: map<int, Travel>, proposed: Travel, getFault: Fault, writeFault: Fault)
    requires KeysMatchIds(travels) && AllWellFormed(travels)
    ensures KeysMatchIds(Written(travels, UpdateOutcome(travels, proposed, getFault, writeFault)))
    ensures AllWellFormed(Written(travels, UpdateOutcome(travels, proposed, getFault, writeFault)))
  {
    var r := UpdateOutcome(travels, proposed, getFault, writeFault);
    if r.Success? {
      var stored := travels[proposed.id];
      assert r == Validate(stored, proposed);
      assert WellFormed(r.value) && r.value.id == proposed.id;
    }
  }

  /** Updates by a caller keep a repository of well-formed records well-formed, and keep each record under its id. */
  lemma {:induction false} UpdateKeepsRecordsWellFormed(travels: map<int, Travel>, proposed: Travel, caller: Option<Claims>, getFault: Fault, writeFault: Fault)
    requires KeysMatchIds(travels) && AllWellFormed(travels)
    ensures KeysMatchIds(Written(travels, UpdateAsOutcome(travels, proposed, caller, getFault, writeFault)))
    ensures AllWellFormed(Written(travels, UpdateAsOutcome(travels, proposed, caller, getFault, writeFault)))
  {
    var r := UpdateAsOutcome(travels, proposed, caller, getFault, writeFault);
    if r.Success? {
      var stored := travels[proposed.id];
      assert r == ValidateAs(stored, proposed, caller);
      assert Validate(stored, proposed).Success?;
      assert WellFormed(r.value) && r.value.id == proposed.id;
    }
  }

  /** The travel a successful save returns: the input under the new id, with its status forced to pending. */
  function Saved(t: Travel, id: int): (s: Travel)
    ensures s.status == StatusPending && s.id == id
    ensures s.from == t.from && s.to == t.to && s.userId == t.userId
    ensures WellFormed(s)
  {
    t.(id := id, status := StatusPending)
  }

  /**
   * The storage service over its repository. The repository's records are
   * the map `travels`; `nextId` is the id its next insert assigns.
   */
  class TravelStorage {
    var travels: map<int, Travel>
    var nextId: int

    ghost predicate Valid()
      reads this
    {
      && nextId >= 1
      && KeysMatchIds(travels)
      && AllWellFormed(travels)
      && forall k :: k in travels ==> 1 <= k < nextId
    }

    /** A service over an empty repository. */
    constructor ()
      ensures Valid() && travels == map[]
    {
      travels := map[];
      nextId := 1;
    }

    /** Fetches a travel; a missing record is not-found, any other failure a storage error. */
    method Get(id: int, fault: Fault) returns (r: Result<Travel, Error>)
      ensures r == Lookup(travels, id, fault)
    {
      var found: Result<Travel, RepoError>;
      if fault.Fails? {
        found := Failure(fault.error);
      } else if id in travels {
        found := Success(travels[id]);
      } else {
        found := Failure(NotFound);
      }
      if found.Failure? {
        if found.error == NotFound {
          return Failure(ErrNotFoundTravel);
        }
        return Failure(ErrStorageGet);
      }
      return Success(found.value);
    }

    /** Stores a new travel as pending, whatever status it came with. */
    method Save(t: Travel, fault: Fault) returns (r: Result<Travel, Error>)
      requires Valid()
      modifies this
      ensures Valid()
      ensures r.Success? <==> fault.Healthy?
      ensures r.Success? ==> old(nextId) !in old(travels) && r.value == Saved(t, old(nextId))
      ensures r.Success? ==> travels == old(travels)[r.value.id := r.value] && nextId == old(nextId) + 1
      ensures r.Failure? ==> r.error == ErrStorageSave && travels == old(travels) && nextId == old(nextId)
    {
      var pending := t.(status := StatusPending);
      if fault.Fails? {
        return Failure(ErrStorageSave);
      }
      var stored := pending.(id := nextId);
      travels := travels[nextId := stored];
      nextId := nextId + 1;
      return Success(stored);
    }

    /** The rule checks in their order, the merge, and the write of an accepted travel. */
    method CheckAndWrite(stored: Travel, proposed: Travel, writeFault: Fault) returns (r: Result<Travel, Error>)
      requires Valid() && stored.id in travels
      modifies this
      ensures Valid() && nextId == old(nextId)
      ensures r == Commit(Validate(stored, proposed), writeFault)
      ensures travels == Written(old(travels), r)
    {
      ghost var verdict := Validate(stored, proposed);
      if (stored.from.lat != proposed.from.lat || stored.from.lng != proposed.from.lng ||
          stored.to.lat != proposed.to.lat || stored.to.lng != proposed.to.lng) && stored.status != StatusPending {
        assert verdict == Failure(ErrInvalidStatusToEditLocation);
        return Failure(ErrInvalidStatusToEditLocation);
      }
      if proposed.status != StatusPending && proposed.status != StatusInProcess && proposed.status != StatusReady {
        assert verdict == Failure(ErrInvalidStatusToEdit);
        return Failure(ErrInvalidStatusToEdit);
      }
      if proposed.userId == 0 && stored.status != StatusPending {
        assert verdict == Failure(ErrInvalidUser);
        return Failure(ErrInvalidUser);
      }
      if proposed.userId == 0 && proposed.status != StatusPending {
        assert verdict == Failure(ErrInvalidUser);
        return Failure(ErrInvalidUser);
      }
      if proposed.userId != stored.userId && stored.userId != 0 && proposed.status != StatusPending {
        assert verdict == Failure(ErrInvalidUser);
        return Failure(ErrInvalidUser);
      }
      var currentlyStatus := FindInSlice(TaskFlow, stored.status);
      var newStatus := FindInSlice(TaskFlow, proposed.status);
      if currentlyStatus != newStatus && currentlyStatus + 1 != newStatus {
        assert verdict == Failure(ErrInvalidStatusToEdit);
        return Failure(ErrInvalidStatusToEdit);
      }
      var merged := stored.(status := proposed.status, userId := proposed.userId, from := proposed.from, to := proposed.to);
      assert verdict == Success(merged);
      if writeFault.Fails? {
        return Failure(ErrStorageUpdate);
      }
      travels := travels[merged.id := merged];
      return Success(merged);
    }

    /** Edits a stored travel if the proposal passes every rule; see `Validate`. */
    method Update(proposed: Travel, getFault: Fault, writeFault: Fault) returns (r: Result<Travel, Error>)
      requires Valid()
      modifies this
      ensures Valid() && nextId == old(nextId)
      ensures r == UpdateOutcome(old(travels), proposed, getFault, writeFault)
      ensures travels == Written(old(travels), r)
    {
      var stored := Get(proposed.id, getFault);
      if stored.Failure? {
        return Failure(stored.error);
      }
      r := CheckAndWrite(stored.value, proposed, writeFault);
    }

    /** Edits a stored travel on behalf of `caller`, who must be its assigned user or an admin. */
    method UpdateAs(proposed: Travel, caller: Option<Claims>, getFault: Fault, writeFault: Fault) returns (r: Result<Travel, Error>)
      requires Valid()
      modifies this
      ensures Valid() && nextId == old(nextId)
      ensures r == UpdateAsOutcome(old(travels), proposed, caller, getFault, writeFault)
      ensures travels == Written(old(travels), r)
    {
      var stored := Get(proposed.id, getFault);
      if stored.Failure? {
        return Failure(stored.error);
      }
      if caller.None? {
        return Failure(ErrInvalidUserClaims);
      }
      if stored.value.userId != caller.value.userId && caller.value.role != RoleAdmin {
        return Failure(ErrInvalidUserAccess);
      }
      r := CheckAndWrite(stored.value, proposed, writeFault);
    }
  }
}
