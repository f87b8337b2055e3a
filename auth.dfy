/** Authentication helpers of the server (app/lib/auth.js): the bearer
    token, the install code, and the two gates the routes pass through.
    Token verification is the parameter `verify`; fresh identifiers and the
    clock are parameters too. */
module Auth {
  import opened Wrappers
  import opened Text
  import opened Db

  /** What a verified token carries. */
  datatype Claims = Claims(userId: string, orgId: string, role: string)

  /** The `error` object of a JSON error response. */
  datatype ApiError = ApiError(code: string, message: string)

  /** A refusal by a gate: the HTTP status and the error. */
  datatype Rejection = Rejection(status: int, error: ApiError)

  /** A JSON reply of a route: the status and either the body or the
      error. */
  datatype Reply<T> = Reply(status: int, body: Result<T, ApiError>)

  /** The reply that passes a gate's refusal on. */
  function Refused<T>(r: Rejection): Reply<T> {
    Reply(r.status, Failure(r.error))
  }

  /** `extractBearerToken` for the `authorization` header (`None` when
      absent). */
  function ExtractBearerToken(authHeader: Option<string>): (token: Option<string>)
    ensures token.Some? <==> authHeader.Some? && StartsWith(authHeader.value, "Bearer ")
    ensures token.Some? ==> authHeader.value == "Bearer " + token.value
  {
    if authHeader.None? || authHeader.value == "" || !StartsWith(authHeader.value, "Bearer ") then None
    else Some(authHeader.value[7..])
  }

  /** Prefixing a token with "Bearer " and extracting it gives it back. */
  lemma BearerRoundTrip(token: string)
    ensures ExtractBearerToken(Some("Bearer " + token)) == Some(token)
  {
    assert ("Bearer " + token)[..7] == "Bearer ";
  }

  // ---------------------------------------------------------------------------
  // Install codes
  // ---------------------------------------------------------------------------

  const InstallCodeChars: string := "ABCDEFGHIJKLMNOPQRSTUVWXYZ0123456789"
  const InstallCodeLength: nat := 8

  /** `Math.floor(r * chars.length)` for a draw `0 <= r < 1`. */
  function CharIndex(r: real): (k: nat)
    requires 0.0 <= r < 1.0
    ensures k < |InstallCodeChars|
  {
    (r * 36.0).Floor
  }

  /** The code the eight draws of `Math.random` select. */
  function CodeFromDraws(draws: seq<real>): string
    requires forall i :: 0 <= i < |draws| ==> 0.0 <= draws[i] < 1.0
  {
    seq(|draws|, i requires 0 <= i < |draws| => InstallCodeChars[CharIndex(draws[i])])
  }

  /** `generateInstallCode`, for the values `draws` that `Math.random`
      returns in turn. */
  method GenerateInstallCode(draws: seq<real>) returns (code: string)
    requires |draws| == InstallCodeLength
    requires forall i :: 0 <= i < |draws| ==> 0.0 <= draws[i] < 1.0
    ensures |code| == 8
    ensures forall i :: 0 <= i < |code| ==> code[i] in InstallCodeChars
    ensures code == CodeFromDraws(draws)
  {
    code := "";
    for i := 0 to 8
      invariant |code| == i
      invariant code == CodeFromDraws(draws[..i])
      invariant forall j :: 0 <= j < i ==> code[j] in InstallCodeChars
    {
      code := code + [InstallCodeChars[CharIndex(draws[i])]];
      assert draws[..i + 1] == draws[..i] + [draws[i]];
    }
    assert draws[..8] == draws;
  }

  /** Draws that select `code`: one per character, at the start of that
      character's slot. */
  function DrawsFor(code: string): (draws: seq<real>)
    requires forall i :: 0 <= i < |code| ==> code[i] in InstallCodeChars
    ensures |draws| == |code| && forall i :: 0 <= i < |draws| ==> 0.0 <= draws[i] < 1.0
  {
    seq(|code|, i requires 0 <= i < |code| => IndexOf(InstallCodeChars, code[i]) as real / 36.0)
  }

  lemma FloorOfSlot(k: nat)
    requires k < 36
    ensures ((k as real / 36.0) * 36.0).Floor == k
  {
    assert (k as real / 36.0) * 36.0 == k as real;
  }

  /** Every string of eight characters from the alphabet is a possible
      install code: no code is out of reach of the generator. */
  lemma EveryCodeReachable(code: string)
    requires |code| == InstallCodeLength
    requires forall i :: 0 <= i < |code| ==> code[i] in InstallCodeChars
    ensures CodeFromDraws(DrawsFor(code)) == code
  {
    var draws := DrawsFor(code);
    forall i | 0 <= i < |code| ensures CodeFromDraws(draws)[i] == code[i] {
      var k := IndexOf(InstallCodeChars, code[i]);
      FloorOfSlot(k);
      assert CharIndex(draws[i]) == k;
    }
  }

  // ---------------------------------------------------------------------------
  // Admin gate
  // ---------------------------------------------------------------------------

  /** `requireAdmin` for the `authorization` header. */
  function RequireAdmin(authHeader: Option<string>, verify: string -> Option<Claims>): Result<Claims, Rejection> {
    var token := ExtractBearerToken(authHeader);
    if token.None? || token.value == "" then
      Failure(Rejection(401, ApiError("UNAUTHORIZED", "Missing authorization token")))
    else
      match verify(token.value)
      case None => Failure(Rejection(401, ApiError("UNAUTHORIZED", "Invalid or expired token")))
      case Some(claims) =>
        if claims.role != "admin" then Failure(Rejection(403, ApiError("FORBIDDEN", "Admin access required")))
        else Success(claims)
  }

  /** The admin gate answers 401 for a missing or empty bearer token, then
      401 for a token that does not verify, then 403 for a verified
      non-admin, and admits exactly the verified admins with their own
      claims. */
  lemma RequireAdminOrder(authHeader: Option<string>, verify: string -> Option<Claims>)
    ensures var r := RequireAdmin(authHeader, verify);
            var token := ExtractBearerToken(authHeader);
            && (token.None? || token.value == "" ==> r.Failure? && r.error.status == 401 && r.error.error.code == "UNAUTHORIZED")
            && (token.Some? && token.value != "" && verify(token.value).None? ==>
                  r.Failure? && r.error.status == 401 && r.error.error.code == "UNAUTHORIZED")
            && (token.Some? && token.value != "" && verify(token.value).Some? && verify(token.value).value.role != "admin" ==>
                  r.Failure? && r.error.status == 403 && r.error.error.code == "FORBIDDEN")
            && (r.Success? <==> token.Some? && token.value != "" && verify(token.value).Some? && verify(token.value).value.role == "admin")
            && (r.Success? ==> r.value == verify(token.value).value)
  {
  }

  // ---------------------------------------------------------------------------
  // Install-code gate
  // ---------------------------------------------------------------------------

  /** A row `getOrCreateUserByInstallCode` inserts. */
  function NewEmployee(id: string, orgId: string, hash: string, now: string): User {
    User(id, orgId, None, Some(hash), None, "employee", 1, Some(now), 0, now)
  }

  /** The update a known user's row receives. */
  function MarkSeen(u: User, now: string): User {
    u.(extensionInstalled := 1, lastSeenAt := Some(now), updatedAt := now)
  }

  /** The `users` table and the returned row after
      `getOrCreateUserByInstallCode`. A known user is returned as read
      before its row is marked installed and seen. */
  function GetOrCreateUser(users: seq<User>, orgId: string, hash: string, newId: string, now: string): (seq<User>, User) {
    match FindUserByHash(users, orgId, hash)
    case Some(i) =>
      (UpdateUsersWhere(users, users[i].id, u => MarkSeen(u, now)), users[i])
    case None =>
      var u := NewEmployee(newId, orgId, hash, now);
      (users + [u], u)
  }

  /** A known (org, hash) pair creates no user: its row is marked as having
      the extension installed and every other row is kept. An unknown pair
      adds exactly one employee row, with the extension installed. Either
      way the returned user belongs to the org and carries the hash. */
  lemma GetOrCreateUserRows(users: seq<User>, orgId: string, hash: string, newId: string, now: string)
    ensures var (next, user) := GetOrCreateUser(users, orgId, hash, newId, now);
            && user.orgId == orgId && user.hashedId == Some(hash)
            && (FindUserByHash(users, orgId, hash).Some? ==>
                  && |next| == |users|
                  && (forall j :: 0 <= j < |users| && users[j].id == user.id ==>
                        next[j].extensionInstalled == 1 && next[j].lastSeenAt == Some(now))
                  && (forall j :: 0 <= j < |users| && users[j].id != user.id ==> next[j] == users[j]))
            && (FindUserByHash(users, orgId, hash).None? ==>
                  && next == users + [user]
                  && user.role == "employee" && user.extensionInstalled == 1 && user.id == newId)
  {
  }

  /** The same (org, hash) pair seen twice creates at most one user: after
      the first call the pair is known. */
  lemma GetOrCreateUserOnce(users: seq<User>, orgId: string, hash: string, id1: string, id2: string, now1: string, now2: string)
    ensures var (next, _) := GetOrCreateUser(users, orgId, hash, id1, now1);
            && FindUserByHash(next, orgId, hash).Some?
            && |GetOrCreateUser(next, orgId, hash, id2, now2).0| == |next| <= |users| + 1
  {
    var (next, _) := GetOrCreateUser(users, orgId, hash, id1, now1);
    match FindUserByHash(users, orgId, hash)
    case Some(i) =>
      assert next[i].orgId == orgId && next[i].hashedId == Some(hash);
    case None =>
      assert next[|users|].orgId == orgId && next[|users|].hashedId == Some(hash);
  }

  /** The user hash of `requireInstallCode`: the `x-user-hash` header, or
      "anon-" and a fresh identifier when it is absent or empty. */
  function UserHash(userHash: Option<string>, anonId: string): string {
    if userHash.Some? && userHash.value != "" then userHash.value else "anon-" + anonId
  }

  /** The tables and the answer of `requireInstallCode`. */
  function InstallCodeGate(t: Tables, installCode: Option<string>, userHash: Option<string>,
                           anonId: string, newUserId: string, now: string): (Tables, Result<(Org, User), Rejection>)
  {
    if installCode.None? || installCode.value == "" then
      (t, Failure(Rejection(401, ApiError("INVALID_INSTALL_CODE", "Missing install code"))))
    else
      match FindOrgByInstallCode(t.orgs, installCode.value)
      case None => (t, Failure(Rejection(401, ApiError("INVALID_INSTALL_CODE", "Invalid install code"))))
      case Some(i) =>
        var org := t.orgs[i];
        var (users, user) := GetOrCreateUser(t.users, org.id, UserHash(userHash, anonId), newUserId, now);
        (t.(users := users), Success((org, user)))
  }

  /** A missing or unknown install code is refused with 401 and writes
      nothing; a known one admits the org it belongs to and touches only the
      `users` table. */
  lemma InstallCodeGateOutcome(t: Tables, installCode: Option<string>, userHash: Option<string>,
                               anonId: string, newUserId: string, now: string)
    ensures var (next, r) := InstallCodeGate(t, installCode, userHash, anonId, newUserId, now);
            && (r.Failure? <==>
                  installCode.None? || installCode.value == "" || FindOrgByInstallCode(t.orgs, installCode.value).None?)
            && (r.Failure? ==> next == t && r.error.status == 401 && r.error.error.code == "INVALID_INSTALL_CODE")
            && (r.Success? ==> r.value.0 in t.orgs && r.value.0.installCode == installCode.value
                               && r.value.1.orgId == r.value.0.id)
            && next.orgs == t.orgs && next.configs == t.configs && next.events == t.events
  {
    if installCode.Some? && installCode.value != "" {
      match FindOrgByInstallCode(t.orgs, installCode.value)
      case None =>
      case Some(i) =>
        GetOrCreateUserRows(t.users, t.orgs[i].id, UserHash(userHash, anonId), newUserId, now);
    }
  }

  /** Without `x-user-hash`, a request with a fresh identifier creates a new
      user every time. */
  lemma AnonymousRequestCreatesUser(t: Tables, code: string, anonId: string, newUserId: string, now: string)
    requires code != ""
    requires FindOrgByInstallCode(t.orgs, code).Some?
    requires forall j :: 0 <= j < |t.users| ==> t.users[j].hashedId != Some("anon-" + anonId)
    ensures var (next, r) := InstallCodeGate(t, Some(code), None, anonId, newUserId, now);
            r.Success? && |next.users| == |t.users| + 1 && r.value.1.id == newUserId
  {
  }

  /** `getOrCreateUserByInstallCode`. */
  method GetOrCreateUserByInstallCode(db: Database, orgId: string, hash: string, newId: string, now: string)
    returns (user: User)
    modifies db
    ensures (db.users, user) == GetOrCreateUser(old(db.users), orgId, hash, newId, now)
    ensures db.orgs == old(db.orgs) && db.configs == old(db.configs) && db.events == old(db.events)
  {
    var found := FindUserByHash(db.users, orgId, hash);
    if found.None? {
      user := NewEmployee(newId, orgId, hash, now);
      db.users := db.users + [user];
    } else {
      user := db.users[found.value];
      db.users := UpdateUsersWhere(db.users, user.id, u => MarkSeen(u, now));
    }
  }

  /** `requireInstallCode`. */
  method RequireInstallCode(db: Database, installCode: Option<string>, userHash: Option<string>,
                            anonId: string, newUserId: string, now: string)
    returns (r: Result<(Org, User), Rejection>)
    modifies db
    ensures (db.Contents(), r) == InstallCodeGate(old(db.Contents()), installCode, userHash, anonId, newUserId, now)
  {
    if installCode.None? || installCode.value == "" {
      return Failure(Rejection(401, ApiError("INVALID_INSTALL_CODE", "Missing install code")));
    }
    var i := FindOrgByInstallCode(db.orgs, installCode.value);
    if i.None? {
      return Failure(Rejection(401, ApiError("INVALID_INSTALL_CODE", "Invalid install code")));
    }
    var org := db.orgs[i.value];
    var hash := UserHash(userHash, anonId);
    var user := GetOrCreateUserByInstallCode(db, org.id, hash, newUserId, now);
    return Success((org, user));
  }
}
