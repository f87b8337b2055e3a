/** `POST /api/signup` (app/app/api/signup/route.js): an admin registers
    with an email and a password; a new org is created for the email's
    domain, with the default configuration and the admin as its first user.
    Password hashing, the fresh identifiers and the clock are parameters;
    the signed token is represented by the claims it carries. */
module SignupRoute {
  import opened Wrappers
  import opened Text
  import opened Db
  import opened Auth

  /** The JSON body; a member is `None` when absent or null. */
  datatype SignupBody = SignupBody(email: Option<string>, password: Option<string>)

  /** No white space and no `@`: the class `[^\s@]`. */
  predicate Plain(s: string) {
    forall i :: 0 <= i < |s| ==> !IsWhitespace(s[i]) && s[i] != '@'
  }

  /** The shape `^[^\s@]+@[^\s@]+\.[^\s@]+$`: no white space, one `@` with
      text before it, and after it a dot that is neither the first nor the
      last character. */
  predicate EmailShape(e: string) {
    && '@' in e
    && var at := IndexOf(e, '@');
       && at >= 1
       && Plain(e[..at]) && Plain(e[at + 1..])
       && exists k :: at + 1 < k < |e| - 1 && e[k] == '.'
  }

  /** The org's domain: the lower-cased text after the `@`. */
  function SignupDomain(email: string): string
    requires EmailShape(email)
  {
    ToLower(Split(email, '@')[1])
  }

  /** The admin row the signup inserts. */
  function AdminUser(id: string, orgId: string, email: string, passwordHash: string, now: string): User {
    User(id, orgId, Some(email), None, Some(passwordHash), "admin", 0, None, 0, now)
  }

  /** What a signup answers: the new ids, the domain, the install code and
      the claims of the token issued for the admin. */
  datatype SignedUp = SignedUp(userId: string, orgId: string, domain: string, installCode: string, token: Claims)

  const Required: ApiError := ApiError("INVALID_REQUEST", "Email and password are required")
  const BadEmail: ApiError := ApiError("INVALID_REQUEST", "Invalid email format")
  const ShortPassword: ApiError := ApiError("INVALID_REQUEST", "Password must be at least 8 characters")
  const EmailTaken: ApiError := ApiError("CONFLICT", "Email already registered")
  const DomainTaken: ApiError := ApiError("CONFLICT", "Organization with this domain already exists")
  const ServerError: ApiError := ApiError("INTERNAL_ERROR", "Server error")

  predicate CodeUsed(orgs: seq<Org>, code: string) {
    exists j :: 0 <= j < |orgs| && orgs[j].installCode == code
  }

  /** Draws of `Math.random`, one per install-code character. */
  predicate ValidDraws(draws: seq<real>) {
    |draws| == InstallCodeLength && forall i :: 0 <= i < |draws| ==> 0.0 <= draws[i] < 1.0
  }

  /** The signup: the checks in order, then the org, its configuration and
      its admin. An install code that is already taken makes the first
      insert fail on the `UNIQUE` column, and the request ends in 500 with
      nothing written. */
  function Signup(t: Tables, b: SignupBody, draws: seq<real>, orgId: string, configId: string,
                  userId: string, passwordHash: string, now: string): (Tables, Reply<SignedUp>)
    requires ValidDraws(draws)
  {
    if !Truthy(b.email) || !Truthy(b.password) then (t, Reply(400, Failure(Required)))
    else if !EmailShape(b.email.value) then (t, Reply(400, Failure(BadEmail)))
    else if |b.password.value| < 8 then (t, Reply(400, Failure(ShortPassword)))
    else if EmailUsed(t.users, b.email.value) then (t, Reply(409, Failure(EmailTaken)))
    else
      var domain := SignupDomain(b.email.value);
      if DomainUsed(t.orgs, domain) then (t, Reply(409, Failure(DomainTaken)))
      else
        var code := CodeFromDraws(draws);
        if CodeUsed(t.orgs, code) then (t, Reply(500, Failure(ServerError)))
        else
          (Tables(t.orgs + [Org(orgId, domain, None, code)],
                  t.users + [AdminUser(userId, orgId, b.email.value, passwordHash, now)],
                  t.configs + [DefaultConfig(configId, orgId, now)],
                  t.events),
           Reply(201, Success(SignedUp(userId, orgId, domain, code, Claims(userId, orgId, "admin")))))
  }

  // ---------------------------------------------------------------------------
  // The email shape
  // ---------------------------------------------------------------------------

  /** Every address built as the pattern describes has the shape. */
  lemma EmailShapeOfParts(local: string, host: string, tld: string)
    requires local != [] && host != [] && tld != []
    requires Plain(local) && Plain(host) && Plain(tld)
    ensures EmailShape(local + "@" + host + "." + tld)
  {
    var e := local + "@" + host + "." + tld;
    assert e[|local|] == '@' && e[..|local|] == local;
    IndexOfFirst(e, '@', |local|);
    assert e[|local| + 1..] == host + "." + tld;
    assert e[|local| + 1 + |host|] == '.';
  }

  /** An address of the right shape has exactly one `@`: it splits into the
      part before and the part after, and the domain holds an inner dot. */
  lemma EmailShapeSplits(e: string)
    requires EmailShape(e)
    ensures var at := IndexOf(e, '@');
            && Split(e, '@') == [e[..at], e[at + 1..]]
            && e == e[..at] + "@" + e[at + 1..]
            && e[..at] != [] && |e[at + 1..]| >= 3
  {
    var at := IndexOf(e, '@');
    var rest := e[at + 1..];
    assert '@' !in rest by {
      forall i | 0 <= i < |rest| ensures rest[i] != '@' {
      }
    }
    assert Split(e, '@') == [e[..at]] + Split(rest, '@');
    assert e == e[..at] + "@" + rest;
  }

  /** The domain is the lower case of the text after the `@`. */
  lemma SignupDomainIsLowerCasedHost(e: string)
    requires EmailShape(e)
    ensures SignupDomain(e) == ToLower(e[IndexOf(e, '@') + 1..])
  {
    EmailShapeSplits(e);
  }

  // ---------------------------------------------------------------------------
  // What a signup guarantees
  // ---------------------------------------------------------------------------

  /** The refusals come in order: missing fields, then the email shape,
      then the password length (400 each), then a registered email, then a
      taken domain (409 each); a refusal writes nothing. */
  lemma SignupOrder(t: Tables, b: SignupBody, draws: seq<real>, orgId: string, configId: string,
                    userId: string, passwordHash: string, now: string)
    requires ValidDraws(draws)
    ensures var (next, reply) := Signup(t, b, draws, orgId, configId, userId, passwordHash, now);
            && (reply.status != 201 ==> next == t)
            && (!Truthy(b.email) || !Truthy(b.password) ==> reply == Reply(400, Failure(Required)))
            && (Truthy(b.email) && Truthy(b.password) && !EmailShape(b.email.value) ==>
                  reply == Reply(400, Failure(BadEmail)))
            && (Truthy(b.email) && Truthy(b.password) && EmailShape(b.email.value) && |b.password.value| < 8 ==>
                  reply == Reply(400, Failure(ShortPassword)))
            && (Truthy(b.email) && Truthy(b.password) && EmailShape(b.email.value) && |b.password.value| >= 8
                && EmailUsed(t.users, b.email.value) ==>
                  reply == Reply(409, Failure(EmailTaken)))
            && (Truthy(b.email) && Truthy(b.password) && EmailShape(b.email.value) && |b.password.value| >= 8
                && !EmailUsed(t.users, b.email.value) && DomainUsed(t.orgs, SignupDomain(b.email.value)) ==>
                  reply == Reply(409, Failure(DomainTaken)))
            && (reply.status == 201 <==>
                  Truthy(b.email) && Truthy(b.password) && EmailShape(b.email.value) && |b.password.value| >= 8
                  && !EmailUsed(t.users, b.email.value) && !DomainUsed(t.orgs, SignupDomain(b.email.value))
                  && !CodeUsed(t.orgs, CodeFromDraws(draws)))
  {
  }

  /** A successful signup adds exactly one org (for the email's domain,
      with the generated eight-character code), one configuration with the
      column defaults, and one admin with the email; the reply carries the
      domain, the code and admin claims for the new user. */
  lemma SignupCreates(t: Tables, b: SignupBody, draws: seq<real>, orgId: string, configId: string,
                      userId: string, passwordHash: string, now: string)
    requires ValidDraws(draws)
    requires Signup(t, b, draws, orgId, configId, userId, passwordHash, now).1.status == 201
    ensures var (next, reply) := Signup(t, b, draws, orgId, configId, userId, passwordHash, now);
            var email := b.email.value;
            var domain := ToLower(email[IndexOf(email, '@') + 1..]);
            var code := reply.body.value.installCode;
            && next.orgs == t.orgs + [Org(orgId, domain, None, code)]
            && next.configs == t.configs + [DefaultConfig(configId, orgId, now)]
            && next.users == t.users + [AdminUser(userId, orgId, email, passwordHash, now)]
            && next.events == t.events
            && ConfigChecks(next.configs[|t.configs|])
            && |code| == 8 && (forall i :: 0 <= i < |code| ==> code[i] in InstallCodeChars)
            && reply.body.value == SignedUp(userId, orgId, domain, code, Claims(userId, orgId, "admin"))
  {
    SignupDomainIsLowerCasedHost(b.email.value);
    DefaultConfigChecks(configId, orgId, now);
  }

  /** Orgs are told apart by domain and by install code. */
  predicate OrgsDistinct(orgs: seq<Org>) {
    forall i, j :: 0 <= i < j < |orgs| ==> orgs[i].domain != orgs[j].domain && orgs[i].installCode != orgs[j].installCode
  }

  /** A signup keeps domains and install codes unique, as the `UNIQUE`
      columns demand. */
  lemma SignupKeepsOrgsDistinct(t: Tables, b: SignupBody, draws: seq<real>, orgId: string, configId: string,
                                userId: string, passwordHash: string, now: string)
    requires ValidDraws(draws)
    requires OrgsDistinct(t.orgs)
    ensures OrgsDistinct(Signup(t, b, draws, orgId, configId, userId, passwordHash, now).0.orgs)
  {
    var next := Signup(t, b, draws, orgId, configId, userId, passwordHash, now).0;
    if next != t {
      var org := next.orgs[|t.orgs|];
      forall i | 0 <= i < |t.orgs| ensures t.orgs[i].domain != org.domain && t.orgs[i].installCode != org.installCode {
      }
    }
  }

  /** Once an address has signed up, signing up again with it is refused
      with 409, and so is any other address whose domain has the same lower
      case. */
  lemma SecondSignupConflicts(t: Tables, b: SignupBody, draws: seq<real>, orgId: string, configId: string,
                              userId: string, passwordHash: string, now: string,
                              b2: SignupBody, draws2: seq<real>, orgId2: string, configId2: string,
                              userId2: string, passwordHash2: string, now2: string)
    requires ValidDraws(draws) && ValidDraws(draws2)
    requires Signup(t, b, draws, orgId, configId, userId, passwordHash, now).1.status == 201
    requires Truthy(b2.email) && Truthy(b2.password) && EmailShape(b2.email.value) && |b2.password.value| >= 8
    requires b2.email == b.email || SignupDomain(b2.email.value) == SignupDomain(b.email.value)
    ensures var next := Signup(t, b, draws, orgId, configId, userId, passwordHash, now).0;
            Signup(next, b2, draws2, orgId2, configId2, userId2, passwordHash2, now2).1.status == 409
  {
    var next := Signup(t, b, draws, orgId, configId, userId, passwordHash, now).0;
    assert next.users[|t.users|].email == b.email;
    assert next.orgs[|t.orgs|].domain == SignupDomain(b.email.value);
    if b2.email == b.email {
      assert EmailUsed(next.users, b2.email.value);
    } else {
      assert DomainUsed(next.orgs, SignupDomain(b2.email.value));
    }
  }

  // ---------------------------------------------------------------------------
  // The handler
  // ---------------------------------------------------------------------------

  /** `POST /api/signup`; `draws` are the values `Math.random` returns while
      the install code is generated. */
  method HandleSignup(db: Database, b: SignupBody, draws: seq<real>, orgId: string, configId: string,
                      userId: string, passwordHash: string, now: string) returns (reply: Reply<SignedUp>)
    requires ValidDraws(draws)
    modifies db
    ensures (db.Contents(), reply) == Signup(old(db.Contents()), b, draws, orgId, configId, userId, passwordHash, now)
  {
    if !Truthy(b.email) || !Truthy(b.password) {
      return Reply(400, Failure(Required));
    }
    var email, password := b.email.value, b.password.value;
    if !EmailShape(email) {
      return Reply(400, Failure(BadEmail));
    }
    if |password| < 8 {
      return Reply(400, Failure(ShortPassword));
    }
    if EmailUsed(db.users, email) {
      return Reply(409, Failure(EmailTaken));
    }
    var domain := ToLower(Split(email, '@')[1]);
    if DomainUsed(db.orgs, domain) {
      return Reply(409, Failure(DomainTaken));
    }
    var installCode := GenerateInstallCode(draws);
    if CodeUsed(db.orgs, installCode) {
      return Reply(500, Failure(ServerError));
    }
    db.orgs := db.orgs + [Org(orgId, domain, None, installCode)];
    db.configs := db.configs + [DefaultConfig(configId, orgId, now)];
    db.users := db.users + [AdminUser(userId, orgId, email, passwordHash, now)];
    return Reply(201, Success(SignedUp(userId, orgId, domain, installCode, Claims(userId, orgId, "admin"))));
  }
}
