/** The admin user service: the user table, the registration filter that
    answers "is this name free", the per-name registration lock, the default
    group saved for a new user, and the login sessions kept as one hash per
    user from token to the logged-in user. */
module UserAdmin {
  import opened Common

  /** Name of the group every new user gets. */
  const DefaultGroupName: string := "默认分组"

  /** Time to live of a fresh session hash: 30 minutes, in seconds. */
  const FreshSessionTtlSeconds: int := 30 * 60

  /** Time to live a repeated login gives the session hash: 30 days, in seconds. */
  const RenewedSessionTtlSeconds: int := 30 * 24 * 60 * 60

  /** One row of the user table. */
  datatype User = User(username: string, password: string, realName: string, phone: string,
                       mail: string, delFlag: int)

  /** The exceptions raised out of the user service. */
  datatype UserError =
    | UserNull            // ServiceException(USER_NULL): no user of that name
    | UserNameExist       // ClientException(USER_NAME_EXIST): name taken or being registered
    | UserExist           // ClientException(USER_EXIST): the insert hit the unique username
    | UserSaveError       // ClientException(USER_SAVE_ERROR): the insert wrote no row
    | NotCurrentUser      // ClientException: update of a user other than the logged-in one
    | LoginUserMissing    // ClientException: no live user with that name and password
    | TokenMissing        // ClientException: logout with a token that is not logged in
    | TooManyUsers        // selectOne matched more than one row

  /** The registration form; it becomes the inserted row as it is. */
  datatype RegisterRequest = RegisterRequest(username: string, password: string, realName: string,
                                             phone: string, mail: string)

  /** The update form: the fields that are null are not written. */
  datatype UpdateRequest = UpdateRequest(username: string, password: Option<string>,
                                         realName: Option<string>, phone: Option<string>,
                                         mail: Option<string>)

  datatype LoginRequest = LoginRequest(username: string, password: string)

  /** What `getUserByUsername` hands back: the row without its password. */
  datatype UserResponse = UserResponse(username: string, realName: string, phone: string, mail: string)

  /** A group saved through the group service. */
  datatype SavedGroup = SavedGroup(username: string, name: string)

  /** One entry of a session hash: the token and the user it was issued to. */
  datatype Session = Session(token: string, user: User)

  /** The lock taken around a registration insert. */
  datatype RegisterLock = RegisterLock(username: string)

  /** The state the user service reads and writes: the user table, the
      registration filter, the groups saved for new users, the session hash
      of each user (in the order the hash yields its keys) and each session
      hash's time to live. */
  datatype Accounts = Accounts(users: seq<User>, filter: set<string>, groups: seq<SavedGroup>,
                               sessions: map<string, seq<Session>>, sessionTtl: map<string, int>)

  /** What an operation returns and the state it leaves. */
  datatype Effect<+R> = Effect(result: R, after: Accounts)

  /** `selectOne` over the user table. */
  datatype Lookup = Absent | Found(user: User) | Several

  function Matching(users: seq<User>, p: User -> bool): (m: seq<User>)
    ensures forall u :: u in m <==> u in users && p(u)
    decreases |users|
  {
    if users == [] then []
    else (if p(users[0]) then [users[0]] else []) + Matching(users[1..], p)
  }

  function SelectOne(users: seq<User>, p: User -> bool): (l: Lookup)
    ensures l.Absent? <==> forall u :: u in users ==> !p(u)
    ensures l.Found? ==> l.user in users && p(l.user)
  {
    var m := Matching(users, p);
    if |m| == 0 then Absent
    else if |m| == 1 then (assert m[0] in m; Found(m[0]))
    else Several
  }

  /** Is some row of the table named `name`? (The insert's unique key.) */
  predicate NameTaken(users: seq<User>, name: string)
  {
    exists u :: u in users && u.username == name
  }

  /** No two rows share a username. */
  predicate UniqueNames(users: seq<User>)
  {
    forall i, j :: 0 <= i < |users| && 0 <= j < |users| && users[i].username == users[j].username ==> i == j
  }

  /** `hasUsername`: the name is free exactly when the filter does not hold it. */
  function HasUsername(a: Accounts, name: string): (free: bool)
    ensures free <==> name !in a.filter
  {
    name !in a.filter
  }

  /** A successful registration takes its name and leaves every other name
      as free or as taken as it was; a failed one changes no name. */
  lemma SignUpTakesOnlyItsName(a: Accounts, req: RegisterRequest, lockAcquired: bool, insertWrites: bool,
                               other: string)
    ensures var e := SignUp(a, req, lockAcquired, insertWrites);
            && (e.result.Pass? ==> HasUsername(a, req.username) && !HasUsername(e.after, req.username))
            && (other != req.username || e.result.Fail? ==> HasUsername(e.after, other) == HasUsername(a, other))
  {
  }

  function NewUser(req: RegisterRequest): User
  {
    User(req.username, req.password, req.realName, req.phone, req.mail, 0)
  }

  /** `Register`: `lockAcquired` is the outcome of `tryLock` on the name's
      lock and `insertWrites` whether the store's insert reports a row. */
  function SignUp(a: Accounts, req: RegisterRequest, lockAcquired: bool, insertWrites: bool): (e: Effect<Outcome<UserError>>)
    ensures e.result.Pass? <==>
              HasUsername(a, req.username) && lockAcquired && !NameTaken(a.users, req.username) && insertWrites
    ensures e.result == Fail(UserNameExist) <==> !HasUsername(a, req.username) || !lockAcquired
    ensures e.result == Fail(UserExist) <==>
              HasUsername(a, req.username) && lockAcquired && NameTaken(a.users, req.username)
    ensures e.result.Fail? ==> e.after == a
    ensures e.result.Pass? ==>
              && e.after.users == a.users + [NewUser(req)]
              && e.after.filter == a.filter + {req.username}
              && e.after.groups == a.groups + [SavedGroup(req.username, DefaultGroupName)]
              && e.after.sessions == a.sessions && e.after.sessionTtl == a.sessionTtl
  {
    if !HasUsername(a, req.username) || !lockAcquired then Effect(Fail(UserNameExist), a)
    else if NameTaken(a.users, req.username) then Effect(Fail(UserExist), a)
    else if !insertWrites then Effect(Fail(UserSaveError), a)
    else Effect(Pass, a.(users := a.users + [NewUser(req)],
                         filter := a.filter + {req.username},
                         groups := a.groups + [SavedGroup(req.username, DefaultGroupName)]))
  }

  /** The row as `update` writes it: every non-null field of the form. */
  function Edited(u: User, req: UpdateRequest): User
  {
    u.(password := if req.password.Some? then req.password.value else u.password,
       realName := if req.realName.Some? then req.realName.value else u.realName,
       phone := if req.phone.Some? then req.phone.value else u.phone,
       mail := if req.mail.Some? then req.mail.value else u.mail)
  }

  /** `update`, given the name of the logged-in user (null when none). */
  function Edit(a: Accounts, req: UpdateRequest, current: Option<string>): (e: Effect<Outcome<UserError>>)
    ensures e.result.Fail? <==> current != Some(req.username)
    ensures e.result.Fail? ==> e.result.error == NotCurrentUser && e.after == a
    ensures e.after.filter == a.filter && e.after.groups == a.groups
    ensures e.after.sessions == a.sessions && e.after.sessionTtl == a.sessionTtl
    ensures |e.after.users| == |a.users|
    ensures e.result.Pass? ==> forall i :: 0 <= i < |a.users| ==>
              e.after.users[i] == if a.users[i].username == req.username then Edited(a.users[i], req) else a.users[i]
  {
    if current != Some(req.username) then Effect(Fail(NotCurrentUser), a)
    else
      Effect(Pass, a.(users := seq(|a.users|, i requires 0 <= i < |a.users| =>
                                     if a.users[i].username == req.username then Edited(a.users[i], req)
                                     else a.users[i])))
  }

  /** The login lookup: name, password and `delFlag = 0`. */
  predicate LogsIn(u: User, req: LoginRequest)
  {
    u.username == req.username && u.password == req.password && u.delFlag == 0
  }

  function SessionsOf(a: Accounts, name: string): seq<Session>
  {
    if name in a.sessions then a.sessions[name] else []
  }

  /** `login`; `freshToken` is the random UUID a first login issues. */
  function SignIn(a: Accounts, req: LoginRequest, freshToken: string): (e: Effect<Result<string, UserError>>)
    ensures e.after.users == a.users && e.after.filter == a.filter && e.after.groups == a.groups
    ensures e.result.Failure? ==> e.after == a
    ensures e.result == Failure(LoginUserMissing) <==> forall u :: u in a.users ==> !LogsIn(u, req)
    ensures e.result.Success? && SessionsOf(a, req.username) != [] ==>
              && e.result.value == SessionsOf(a, req.username)[0].token
              && e.after.sessions == a.sessions
              && e.after.sessionTtl == a.sessionTtl[req.username := RenewedSessionTtlSeconds]
    ensures e.result.Success? && SessionsOf(a, req.username) == [] ==>
              && e.result.value == freshToken
              && (exists u :: u in a.users && LogsIn(u, req) &&
                    e.after.sessions == a.sessions[req.username := [Session(freshToken, u)]])
              && e.after.sessionTtl == a.sessionTtl[req.username := FreshSessionTtlSeconds]
  {
    match SelectOne(a.users, (u: User) => LogsIn(u, req))
    case Absent => Effect(Failure(LoginUserMissing), a)
    case Several => Effect(Failure(TooManyUsers), a)
    case Found(u) =>
      var held := SessionsOf(a, req.username);
      if held != [] then
        Effect(Success(held[0].token), a.(sessionTtl := a.sessionTtl[req.username := RenewedSessionTtlSeconds]))
      else
        Effect(Success(freshToken),
               a.(sessions := a.sessions[req.username := [Session(freshToken, u)]],
                  sessionTtl := a.sessionTtl[req.username := FreshSessionTtlSeconds]))
  }

  /** `checkLogin`: the token is a key of the user's session hash. */
  predicate LoggedIn(a: Accounts, name: string, token: string)
  {
    exists s :: s in SessionsOf(a, name) && s.token == token
  }

  /** `logout`: a logged-in token deletes the user's whole session hash. */
  function SignOut(a: Accounts, name: string, token: string): (e: Effect<Outcome<UserError>>)
    ensures e.result.Pass? <==> LoggedIn(a, name, token)
    ensures e.result.Fail? ==> e.result == Fail(TokenMissing) && e.after == a
    ensures e.result.Pass? ==> e.after == a.(sessions := a.sessions - {name}, sessionTtl := a.sessionTtl - {name})
  {
    if LoggedIn(a, name, token) then Effect(Pass, a.(sessions := a.sessions - {name}, sessionTtl := a.sessionTtl - {name}))
    else Effect(Fail(TokenMissing), a)
  }

  /** `getUserByUsername`: a lookup by name alone, soft-deleted rows included. */
  function UserNamed(a: Accounts, name: string): (r: Result<UserResponse, UserError>)
    ensures r == Failure(UserNull) <==> !NameTaken(a.users, name)
    ensures r.Success? ==> exists u :: u in a.users && u.username == name && r.value == ResponseOf(u)
  {
    match SelectOne(a.users, (u: User) => u.username == name)
    case Absent => Failure(UserNull)
    case Several => Failure(TooManyUsers)
    case Found(u) => Success(ResponseOf(u))
  }

  function ResponseOf(u: User): UserResponse
  {
    UserResponse(u.username, u.realName, u.phone, u.mail)
  }

  /** Every user in the table is in the registration filter. */
  predicate Filtered(a: Accounts)
  {
    forall u :: u in a.users ==> u.username in a.filter
  }

  /** Each user's session hash holds at most one token. */
  predicate SingleSession(a: Accounts)
  {
    forall name :: name in a.sessions ==> |a.sessions[name]| <= 1
  }

  /** Registration keeps usernames unique and every user in the filter. */
  lemma RegisterKeepsInvariants(a: Accounts, req: RegisterRequest, lockAcquired: bool, insertWrites: bool)
    requires UniqueNames(a.users) && Filtered(a)
    ensures var after := SignUp(a, req, lockAcquired, insertWrites).after;
            UniqueNames(after.users) && Filtered(after)
  {
    var e := SignUp(a, req, lockAcquired, insertWrites);
    if e.result.Pass? {
      assert forall k :: 0 <= k < |a.users| ==> a.users[k] in a.users;
    }
  }

  /** After a registration the name is no longer free and the user is found
      by name; registering the name again is refused before any lock is tried. */
  lemma RegisteredNameIsTaken(a: Accounts, req: RegisterRequest, lockAcquired: bool, insertWrites: bool,
                              again: RegisterRequest, lock2: bool, insert2: bool)
    requires SignUp(a, req, lockAcquired, insertWrites).result.Pass?
    requires again.username == req.username
    ensures var after := SignUp(a, req, lockAcquired, insertWrites).after;
            && !HasUsername(after, req.username)
            && UserNamed(after, req.username) == Success(ResponseOf(NewUser(req)))
            && SignUp(after, again, lock2, insert2) == Effect(Fail(UserNameExist), after)
  {
    var after := SignUp(a, req, lockAcquired, insertWrites).after;
    var p := (u: User) => u.username == req.username;
    var m := Matching(after.users, p);
    MatchingAppend(a.users, [NewUser(req)], p);
    assert SelectOne(a.users, p).Absent?;
    assert m == [NewUser(req)];
  }

  lemma {:induction false} MatchingAppend(xs: seq<User>, ys: seq<User>, p: User -> bool)
    ensures Matching(xs + ys, p) == Matching(xs, p) + Matching(ys, p)
    decreases |xs|
  {
    if xs == [] {
      assert xs + ys == ys;
    } else {
      assert (xs + ys)[1..] == xs[1..] + ys;
      MatchingAppend(xs[1..], ys, p);
    }
  }

  /** An update never renames a user, so both invariants survive it. */
  lemma UpdateKeepsInvariants(a: Accounts, req: UpdateRequest, current: Option<string>)
    requires UniqueNames(a.users) && Filtered(a)
    ensures var after := Edit(a, req, current).after;
            UniqueNames(after.users) && Filtered(after)
  {
    var after := Edit(a, req, current).after;
    assert forall i :: 0 <= i < |a.users| ==> after.users[i].username == a.users[i].username;
    forall u | u in after.users ensures u.username in after.filter {
      var i :| 0 <= i < |after.users| && after.users[i] == u;
      assert a.users[i] in a.users;
    }
  }

  /** A successful login leaves the returned token logged in, and logging
      in again returns the same token and issues no new one. */
  lemma LoginThenCheckLogin(a: Accounts, req: LoginRequest, freshToken: string, freshToken2: string)
    requires SignIn(a, req, freshToken).result.Success?
    ensures var e := SignIn(a, req, freshToken);
            && LoggedIn(e.after, req.username, e.result.value)
            && SignIn(e.after, req, freshToken2).result == e.result
            && SignIn(e.after, req, freshToken2).after.sessions == e.after.sessions
  {
    var e := SignIn(a, req, freshToken);
    assert SessionsOf(e.after, req.username) != [];
    assert SessionsOf(e.after, req.username)[0] in SessionsOf(e.after, req.username);
    assert SessionsOf(e.after, req.username)[0].token == e.result.value;
  }

  /** Login keeps every session hash at a single token. */
  lemma LoginKeepsSingleSession(a: Accounts, req: LoginRequest, freshToken: string)
    requires SingleSession(a)
    ensures SingleSession(SignIn(a, req, freshToken).after)
  {
  }

  /** After a logout no token of that user is logged in, and the sessions of
      every other user are as they were. */
  lemma LogoutEndsEverySession(a: Accounts, name: string, token: string, other: string, anyToken: string)
    requires SignOut(a, name, token).result.Pass?
    ensures !LoggedIn(SignOut(a, name, token).after, name, anyToken)
    ensures other != name ==>
              (LoggedIn(SignOut(a, name, token).after, other, anyToken) <==> LoggedIn(a, other, anyToken))
  {
    var after := SignOut(a, name, token).after;
    assert SessionsOf(after, name) == [];
    assert other != name ==> SessionsOf(after, other) == SessionsOf(a, other);
  }

  /** Logging in and then out with the token received leaves the user logged out. */
  lemma LoginThenLogout(a: Accounts, req: LoginRequest, freshToken: string, anyToken: string)
    requires SignIn(a, req, freshToken).result.Success?
    ensures var e := SignIn(a, req, freshToken);
            var out := SignOut(e.after, req.username, e.result.value);
            out.result == Pass && !LoggedIn(out.after, req.username, anyToken)
  {
    LoginThenCheckLogin(a, req, freshToken, freshToken);
    var e := SignIn(a, req, freshToken);
    LogoutEndsEverySession(e.after, req.username, e.result.value, req.username, anyToken);
  }

  /** The user service over its stores; the lock multiset records the
      registration locks currently held. */
  class UserService {
    var users: seq<User>
    var filter: set<string>
    var groups: seq<SavedGroup>
    var sessions: map<string, seq<Session>>
    var sessionTtl: map<string, int>
    var locks: multiset<RegisterLock>

    function Snapshot(): Accounts
      reads this
    {
      Accounts(users, filter, groups, sessions, sessionTtl)
    }

    constructor ()
      ensures Snapshot() == Accounts([], {}, [], map[], map[]) && locks == multiset{}
    {
      users := [];
      filter := {};
      groups := [];
      sessions := map[];
      sessionTtl := map[];
      locks := multiset{};
    }

    /** `Register`; the lock is released on every path after it was taken. */
    method Register(req: RegisterRequest, lockAcquired: bool, insertWrites: bool) returns (r: Outcome<UserError>)
      modifies this
      ensures var e := SignUp(old(Snapshot()), req, lockAcquired, insertWrites);
              r == e.result && Snapshot() == e.after
      ensures locks == old(locks)
    {
      if req.username in filter {
        return Fail(UserNameExist);
      }
      if !lockAcquired {
        return Fail(UserNameExist);
      }
      locks := locks + multiset{RegisterLock(req.username)};
      if NameTaken(users, req.username) {
        r := Fail(UserExist);
      } else if !insertWrites {
        r := Fail(UserSaveError);
      } else {
        users := users + [NewUser(req)];
        filter := filter + {req.username};
        groups := groups + [SavedGroup(req.username, DefaultGroupName)];
        r := Pass;
      }
      locks := locks - multiset{RegisterLock(req.username)};
    }

    /** `update`, given the name of the logged-in user. */
    method Update(req: UpdateRequest, current: Option<string>) returns (r: Outcome<UserError>)
      modifies this
      ensures var e := Edit(old(Snapshot()), req, current); r == e.result && Snapshot() == e.after
      ensures locks == old(locks)
    {
      if current != Some(req.username) {
        return Fail(NotCurrentUser);
      }
      var i := 0;
      var written: seq<User> := [];
      while i < |users|
        invariant 0 <= i <= |users| && |written| == i
        invariant forall k :: 0 <= k < i ==>
                    written[k] == if users[k].username == req.username then Edited(users[k], req) else users[k]
      {
        written := written + [if users[i].username == req.username then Edited(users[i], req) else users[i]];
        i := i + 1;
      }
      users := written;
      return Pass;
    }

    /** `login`; `freshToken` is the UUID a first login issues. */
    method Login(req: LoginRequest, freshToken: string) returns (r: Result<string, UserError>)
      modifies this
      ensures var e := SignIn(old(Snapshot()), req, freshToken); r == e.result && Snapshot() == e.after
      ensures locks == old(locks)
    {
      match SelectOne(users, (u: User) => LogsIn(u, req))
      case Absent => return Failure(LoginUserMissing);
      case Several => return Failure(TooManyUsers);
      case Found(u) =>
        var held := if req.username in sessions then sessions[req.username] else [];
        if held != [] {
          sessionTtl := sessionTtl[req.username := RenewedSessionTtlSeconds];
          return Success(held[0].token);
        }
        sessions := sessions[req.username := [Session(freshToken, u)]];
        sessionTtl := sessionTtl[req.username := FreshSessionTtlSeconds];
        return Success(freshToken);
    }

    /** `checkLogin`. */
    predicate CheckLogin(name: string, token: string)
      reads this
      ensures CheckLogin(name, token) <==> name in sessions && exists t :: t in sessions[name] && t.token == token
    {
      LoggedIn(Snapshot(), name, token)
    }

    /** `logout`. */
    method Logout(name: string, token: string) returns (r: Outcome<UserError>)
      modifies this
      ensures var e := SignOut(old(Snapshot()), name, token); r == e.result && Snapshot() == e.after
      ensures locks == old(locks)
    {
      if CheckLogin(name, token) {
        sessions := sessions - {name};
        sessionTtl := sessionTtl - {name};
        return Pass;
      }
      return Fail(TokenMissing);
    }

    /** `getUserByUsername`. */
    function GetUserByUsername(name: string): (r: Result<UserResponse, UserError>)
      reads this
      ensures r == Failure(UserNull) <==> forall u :: u in users ==> u.username != name
      ensures r.Success? ==> exists u :: u in users && u.username == name && r.value == ResponseOf(u)
    {
      UserNamed(Snapshot(), name)
    }
  }
}
