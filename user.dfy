/**
 * The user service: users with a role and an encrypted password, their
 * creation, lookup and login, and the driver search with its pagination
 * metadata.
 */
module User {
  import opened Wrappers
  import opened CodeError
  import opened Numeric
  import opened Identity

  const ErrInvalidPasswordToSave := Error("invalid_password", "cannot assign received password to user")
  const ErrInvalidPasswordToLogin := Error("invalid_password", "the password received to login is invalid")
  const ErrStorageSave := Error("storage_failure", "an error ocurred trying to save user")
  const ErrStorageGet := Error("storage_failure", "an error ocurred trying to get user")
  const ErrNotFoundUser := Error("not_found_user", "not founded the user to get")
  const ErrInvalidRole := Error("invalid_role", "the received role should be admin or driver")

  /** A user as the service shows it: without the password. */
  datatype SecuredUser = SecuredUser(id: int, email: string, role: string)

  /** A user as the repository holds it. */
  datatype User = User(secured: SecuredUser, password: string)

  /**
   * A password encrypter: `encrypt` gives the form to store, or None when it
   * fails; `compare(stored, received)` holds when the received password
   * matches the stored form.
   */
  datatype Encrypter = Encrypter(encrypt: string -> Option<string>, compare: (string, string) -> bool)

  /** A configuration option of the service. */
  datatype StorageOption = WithPasswordEncrypter(enc: Encrypter)

  /** What one option does to the configured encrypter: it replaces it. */
  function ApplyStorageOption(current: Encrypter, opt: StorageOption): Encrypter {
    match opt
    case WithPasswordEncrypter(enc) => enc
  }

  /** The encrypter after applying `opts` in order, starting from `initial`. */
  function ApplyStorageOptions(initial: Encrypter, opts: seq<StorageOption>): Encrypter {
    if |opts| == 0 then initial
    else ApplyStorageOption(ApplyStorageOptions(initial, opts[..|opts| - 1]), opts[|opts| - 1])
  }

  /** With no option the initial encrypter stays; otherwise the last option wins. */
  lemma {:induction false} LastEncrypterWins(initial: Encrypter, opts: seq<StorageOption>)
    ensures ApplyStorageOptions(initial, opts) == if |opts| == 0 then initial else opts[|opts| - 1].enc
  {
  }

  /** How a repository call fails: no such user, or anything else. */
  datatype RepoError = NotFound | Broken

  /** What the repository does on one call beyond reading or writing its records. */
  datatype Fault = Healthy | Fails(error: RepoError)

  /** The service's error for a failed user lookup. */
  function LookupError(e: RepoError): (r: Error)
    ensures r == ErrNotFoundUser || r == ErrStorageGet
    ensures r == ErrNotFoundUser <==> e == NotFound
  {
    if e == NotFound then ErrNotFoundUser else ErrStorageGet
  }

  predicate HasEmail(users: map<int, User>, email: string) {
    exists k :: k in users && users[k].secured.email == email
  }

  /**
   * The user service over its repository: the records `users`, the id the
   * next insert assigns, and the configured password encrypter.
   */
  class UserStorage {
    var users: map<int, User>
    var nextId: int
    var encrypter: Encrypter

    ghost predicate Valid()
      reads this
    {
      && nextId >= 1
      && forall k :: k in users ==> 1 <= k < nextId && users[k].secured.id == k
    }

    /** A service over an empty repository, starting from bcrypt and applying `opts` in order. */
    constructor (bcrypt: Encrypter, opts: seq<StorageOption>)
      ensures Valid() && users == map[]
      ensures encrypter == ApplyStorageOptions(bcrypt, opts)
    {
      var enc := bcrypt;
      var i := 0;
      while i < |opts|
        invariant 0 <= i <= |opts|
        invariant enc == ApplyStorageOptions(bcrypt, opts[..i])
      {
        assert opts[..i + 1][..i] == opts[..i];
        enc := ApplyStorageOption(enc, opts[i]);
        i := i + 1;
      }
      assert opts[..|opts|] == opts;
      users := map[];
      nextId := 1;
      encrypter := enc;
    }

    /** Fetches a user without its password. */
    method Get(id: int, fault: Fault) returns (r: Result<SecuredUser, Error>)
      ensures r.Success? <==> fault.Healthy? && id in users
      ensures r.Success? ==> r.value == users[id].secured
      ensures r.Failure? ==> r.error == (if fault == Fails(Broken) then ErrStorageGet else ErrNotFoundUser)
    {
      var found: Result<User, RepoError>;
      if fault.Fails? {
        found := Failure(fault.error);
      } else if id in users {
        found := Success(users[id]);
      } else {
        found := Failure(NotFound);
      }
      if found.Failure? {
        return Failure(LookupError(found.error));
      }
      return Success(found.value.secured);
    }

    /**
     * Creates a user. The password is encrypted before the role is checked,
     * and the repository receives the encrypted password.
     */
    method Save(u: User, fault: Fault) returns (r: Result<SecuredUser, Error>)
      requires Valid()
      modifies this
      ensures Valid() && encrypter == old(encrypter)
      ensures encrypter.encrypt(u.password).None? ==> r == Failure(ErrInvalidPasswordToSave)
      ensures encrypter.encrypt(u.password).Some? && u.secured.role != RoleAdmin && u.secured.role != RoleDriver ==>
        r == Failure(ErrInvalidRole)
      ensures r.Success? <==> encrypter.encrypt(u.password).Some? && (u.secured.role == RoleAdmin || u.secured.role == RoleDriver) && fault.Healthy?
      ensures r.Failure? && r.error != ErrInvalidPasswordToSave && r.error != ErrInvalidRole ==> r.error == ErrStorageSave
      ensures r.Success? ==> old(nextId) !in old(users) && r.value == u.secured.(id := old(nextId))
      ensures r.Success? ==> users == old(users)[old(nextId) := User(r.value, encrypter.encrypt(u.password).value)]
      ensures r.Success? ==> nextId == old(nextId) + 1
      ensures r.Failure? ==> users == old(users) && nextId == old(nextId)
    {
      var pwd := encrypter.encrypt(u.password);
      if pwd.None? {
        return Failure(ErrInvalidPasswordToSave);
      }
      var toStore := u.(password := pwd.value);
      if toStore.secured.role != RoleDriver && toStore.secured.role != RoleAdmin {
        return Failure(ErrInvalidRole);
      }
      if fault.Fails? {
        return Failure(ErrStorageSave);
      }
      var stored := toStore.(secured := toStore.secured.(id := nextId));
      users := users[nextId := stored];
      nextId := nextId + 1;
      return Success(stored.secured);
    }

    /**
     * Checks an email and password and answers the claims a token would be
     * issued for; any failure means that no token is issued.
     */
    method Login(email: string, password: string, fault: Fault) returns (r: Result<Claims, Error>)
      ensures r == Failure(ErrNotFoundUser) <==> fault == Fails(NotFound) || (fault.Healthy? && !HasEmail(users, email))
      ensures r == Failure(ErrStorageGet) <==> fault == Fails(Broken)
      ensures r.Success? ==>
        (exists k :: k in users && users[k].secured.email == email
           && encrypter.compare(users[k].password, password)
           && r.value == Claims(users[k].secured.id, users[k].secured.role))
      ensures r == Failure(ErrInvalidPasswordToLogin) ==>
        (exists k :: k in users && users[k].secured.email == email
           && !encrypter.compare(users[k].password, password))
      ensures r.Failure? ==> r.error in {ErrNotFoundUser, ErrStorageGet, ErrInvalidPasswordToLogin}
    {
      if fault.Fails? {
        return Failure(LookupError(fault.error));
      }
      if !HasEmail(users, email) {
        return Failure(LookupError(NotFound));
      }
      var k :| k in users && users[k].secured.email == email;
      var userGet := users[k];
      if !encrypter.compare(userGet.password, password) {
        return Failure(ErrInvalidPasswordToLogin);
      }
      return Success(Claims(userGet.secured.id, userGet.secured.role));
    }

    /**
     * Searches users: with status "none" (the default) one page of all users
     * through `paginate(limit, offset)`, answering the repository's total and
     * the users left after the page; with any other status the free drivers,
     * answering their number and nothing pending. A failure answers no users,
     * zero metadata and the error.
     */
    method Search(opts: seq<SearchOption>,
                  paginate: (int, int) -> Result<(seq<User>, int), RepoError>,
                  freeDrivers: Result<seq<User>, RepoError>)
      returns (found: seq<SecuredUser>, meta: Metadata, err: Option<Error>)
      ensures var s := ApplySearchOptions(DefaultSearch, opts);
        var answer := if s.status == StatusSearchNone then Listing(paginate(s.limit, s.offset)) else freeDrivers;
        && (err.Some? <==> answer.Failure?)
        && (err.Some? ==> err.value == LookupError(answer.error) && found == [] && meta == Metadata(0, 0))
        && (err.None? ==> found == Secured(answer.value))
        && (err.None? && s.status == StatusSearchNone ==>
              meta == Metadata(paginate(s.limit, s.offset).value.1, Pending(paginate(s.limit, s.offset).value.1, s.limit, s.offset)))
        && (err.None? && s.status != StatusSearchNone ==> meta == Metadata(|freeDrivers.value|, 0))
    {
      var search := DefaultSearch;
      var i := 0;
      while i < |opts|
        invariant 0 <= i <= |opts|
        invariant search == ApplySearchOptions(DefaultSearch, opts[..i])
      {
        assert opts[..i + 1][..i] == opts[..i];
        search := ApplySearchOption(search, opts[i]);
        i := i + 1;
      }
      assert opts[..|opts|] == opts;

      var list: seq<User> := [];
      var failure: Option<RepoError> := None;
      if search.status == StatusSearchNone {
        var page := paginate(search.limit, search.offset);
        if page.Failure? {
          failure := Some(page.error);
        } else {
          list := page.value.0;
          var total := page.value.1;
          var pending := Wrap64(Wrap64(total - search.limit) - search.offset);
          if pending < 0 {
            pending := 0;
          }
          meta := Metadata(total, pending);
        }
      } else {
        if freeDrivers.Failure? {
          failure := Some(freeDrivers.error);
        } else {
          list := freeDrivers.value;
          meta := Metadata(|list|, 0);
        }
      }

      if failure.Some? {
        return [], Metadata(0, 0), Some(LookupError(failure.value));
      }

      found := [];
      var j := 0;
      while j < |list|
        invariant 0 <= j <= |list|
        invariant |found| == j
        invariant forall m :: 0 <= m < j ==> found[m] == list[m].secured
      {
        found := found + [list[j].secured];
        j := j + 1;
      }
      err := None;
    }
  }

  // ---------------------------------------------------------------------------
  // Search options and pagination metadata
  // ---------------------------------------------------------------------------

  const StatusSearchBusy: string := "busy"
  const StatusSearchFree: string := "free"
  const StatusSearchNone: string := "none"

  /** The parameters of a search. */
  datatype Search = Search(status: string, offset: int, limit: int)

  /** A search option; each one sets one parameter. */
  datatype SearchOption = WithStatus(status: string) | WithOffset(offset: int) | WithLimit(limit: int)

  /** Every user, then: status none, offset 0, limit 20. */
  const DefaultSearch: Search := Search(StatusSearchNone, 0, 20)

  function ApplySearchOption(s: Search, o: SearchOption): Search {
    match o
    case WithStatus(st) => s.(status := st)
    case WithOffset(n) => s.(offset := n)
    case WithLimit(n) => s.(limit := n)
  }

  /** The parameters after applying `opts` in order, starting from `s`. */
  function ApplySearchOptions(s: Search, opts: seq<SearchOption>): Search {
    if |opts| == 0 then s else ApplySearchOption(ApplySearchOptions(s, opts[..|opts| - 1]), opts[|opts| - 1])
  }

  /** The limit of the last limit option in `opts`, or `dflt` when there is none. */
  function LastLimit(opts: seq<SearchOption>, dflt: int): int {
    if |opts| == 0 then dflt
    else if opts[|opts| - 1].WithLimit? then opts[|opts| - 1].limit
    else LastLimit(opts[..|opts| - 1], dflt)
  }

  /** The offset of the last offset option in `opts`, or `dflt` when there is none. */
  function LastOffset(opts: seq<SearchOption>, dflt: int): int {
    if |opts| == 0 then dflt
    else if opts[|opts| - 1].WithOffset? then opts[|opts| - 1].offset
    else LastOffset(opts[..|opts| - 1], dflt)
  }

  /** The status of the last status option in `opts`, or `dflt` when there is none. */
  function LastStatus(opts: seq<SearchOption>, dflt: string): string {
    if |opts| == 0 then dflt
    else if opts[|opts| - 1].WithStatus? then opts[|opts| - 1].status
    else LastStatus(opts[..|opts| - 1], dflt)
  }

  /** Each parameter of a search is set by the last option for it, or keeps its default. */
  lemma {:induction false} SearchOptionsLastWins(s: Search, opts: seq<SearchOption>)
    ensures ApplySearchOptions(s, opts) == Search(LastStatus(opts, s.status), LastOffset(opts, s.offset), LastLimit(opts, s.limit))
  {
    if |opts| > 0 {
      SearchOptionsLastWins(s, opts[..|opts| - 1]);
    }
  }

  /** The users the repository listed, without their passwords, in the same order. */
  function Secured(list: seq<User>): seq<SecuredUser> {
    seq(|list|, i requires 0 <= i < |list| => list[i].secured)
  }

  /** The repository's answer for a page, reduced to its users. */
  function Listing(page: Result<(seq<User>, int), RepoError>): Result<seq<User>, RepoError> {
    match page
    case Success(v) => Success(v.0)
    case Failure(e) => Failure(e)
  }

  /** The total number of users and how many remain after the requested page. */
  datatype Metadata = Metadata(total: int, pending: int)

  /**
   * The users left after a page: `total - limit - offset` computed in int64,
   * with each subtraction wrapping around, and a negative answer clamped to 0.
   */
  function Pending(total: int, limit: int, offset: int): (p: int)
    ensures 0 <= p <= Int64Max
    ensures InInt64(total - limit) && InInt64(total - limit - offset) ==> p == if total - limit - offset < 0 then 0 else total - limit - offset
  {
    var d := Wrap64(Wrap64(total - limit) - offset);
    if d < 0 then 0 else d
  }

  /** The pages of three users that the service's examples ask for. */
  lemma PendingExamples()
    ensures Pending(3, 2, 0) == 1
    ensures Pending(3, 1, 1) == 1
    ensures Pending(3, 20, 1) == 0
    ensures Pending(3, 20, 0) == 0
  {
  }

  /**
   * A limit close to the most negative int64 makes the subtraction wrap: the
   * exact remainder is positive but the reported one is 0.
   */
  lemma PendingWrapsForHugeNegativeLimit()
    ensures 3 - (-Int64Max) - 0 > 0
    ensures Pending(3, -Int64Max, 0) == 0
  {
  }
}
