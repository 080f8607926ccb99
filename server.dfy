/**
 * The route handlers of backend/server.js over the three tables they read
 * and write. Each handler is one atomic step on the `Server` object; its
 * response is a status code with a body, and the clock (`now`) and bcrypt's
 * random salt are parameters.
 */
module PortalServer {
  import opened Wrappers
  import opened Tokens
  import opened Passwords
  import opened AuthGate
  import opened Schemas
  import opened SqlLike

  /** A row of `users`; the key of the table is its `id`. */
  datatype User = User(email: string, password: Digest, role: string, refreshToken: Option<Token>)

  /** A row of `jobs`. */
  datatype Job = Job(title: string, company: string, location: string, description: string, createdAt: int)

  /** A row of `applications`. */
  datatype Application = Application(jobId: nat, userId: nat, coverLetter: string, createdAt: int)

  /** A row of the applicants listing: the application joined with its user's email. */
  datatype Applicant = Applicant(coverLetter: string, createdAt: int, email: string)

  /** The JSON body of a response. */
  datatype Body =
    | Message(text: string)          // { message }
    | Error(text: string)            // { error }
    | ValidationError                // { error: <the first message Joi reports> }
    | StatusText                     // res.sendStatus: the reason phrase only
    | LoginTokens(accessToken: Token, refreshToken: Token, user: Claim)
    | NewAccessToken(accessToken: Token)
    | JobList(jobs: map<nat, Job>)
    | JobRow(id: nat, job: Job)
    | ApplicantList(applicants: map<nat, Applicant>)

  datatype Response = Response(status: int, body: Body)

  const InvalidCredentials := Response(400, Error("Invalid credentials"))
  const InvalidRefreshToken := Response(403, Error("Invalid refresh token"))
  const TokenRequired := Response(401, Error("Token required"))
  const JobNotFound := Response(404, Error("Job not found"))
  const BadRequest := Response(400, ValidationError)

  /** The response of a middleware that ended the request. */
  function Halted(g: Gate): Response
    requires g.Halt?
  {
    Response(g.status, StatusText)
  }

  /** The claim `{ id, email, role }` of a user row. */
  function ClaimOf(id: nat, u: User): Claim {
    Claim(id, u.email, u.role)
  }

  // ---- Properties of the tables ----

  predicate EmailTaken(users: map<nat, User>, email: string) {
    exists id :: id in users && users[id].email == email
  }

  predicate UniqueEmails(users: map<nat, User>) {
    forall a, b :: a in users && b in users && a != b ==> users[a].email != users[b].email
  }

  /** A stored refresh token is one issued for that very row. */
  predicate StoredTokensIssuedToOwner(users: map<nat, User>) {
    forall id :: id in users && users[id].refreshToken.Some? ==>
      users[id].refreshToken.value.signedWith == RefreshSecret &&
      users[id].refreshToken.value.claim == ClaimOf(id, users[id])
  }

  /** Some user row with this email verifies this password. */
  predicate CredentialsMatch(users: map<nat, User>, email: string, password: string) {
    exists id :: id in users && users[id].email == email && Compare(password, users[id].password)
  }

  /** The `/api/token` check: an unexpired refresh token equal to the one stored for its `id`. */
  predicate RefreshAccepted(users: map<nat, User>, t: Token, now: int) {
    && t.signedWith == RefreshSecret
    && now < t.exp
    && t.claim.id in users
    && users[t.claim.id].refreshToken == Some(t)
  }

  /** `UPDATE users SET refresh_token = ? WHERE id = ?`. */
  function StoreRefreshToken(users: map<nat, User>, id: nat, t: Token): map<nat, User> {
    if id in users then users[id := users[id].(refreshToken := Some(t))] else users
  }

  /** `UPDATE users SET refresh_token = NULL WHERE id = ?`. */
  function ClearRefreshToken(users: map<nat, User>, id: nat): map<nat, User> {
    if id in users then users[id := users[id].(refreshToken := None)] else users
  }

  predicate HasApplied(apps: map<nat, Application>, jobId: nat, userId: nat) {
    exists a :: a in apps && apps[a].jobId == jobId && apps[a].userId == userId
  }

  predicate OneApplicationPerPair(apps: map<nat, Application>) {
    forall a, b :: a in apps && b in apps && a != b ==>
      apps[a].jobId != apps[b].jobId || apps[a].userId != apps[b].userId
  }

  predicate NoOrphanApplications(apps: map<nat, Application>, jobs: map<nat, Job>) {
    forall a :: a in apps ==> apps[a].jobId in jobs
  }

  /** `coverLetter || ''`. */
  function CoverLetterText(f: Field): string {
    if f.Str? then f.s else ""
  }

  /** One filter of the listing: no constraint when falsy, else `column LIKE '%' + filter + '%'`. */
  predicate FilterKeeps(filter: Option<string>, column: string) {
    !Truthy(filter) || Like(InfixPattern(filter.value), column)
  }

  predicate ListingKeeps(title: Option<string>, company: Option<string>, location: Option<string>, job: Job) {
    FilterKeeps(title, job.title) && FilterKeeps(company, job.company) && FilterKeeps(location, job.location)
  }

  /** A column of `jobs` a listing filter can name. */
  datatype Column = TitleColumn | CompanyColumn | LocationColumn

  /** One ` AND <column> LIKE ?` clause with its parameter. */
  datatype Condition = Condition(column: Column, pattern: string)

  function ColumnOf(job: Job, c: Column): string {
    match c
    case TitleColumn => job.title
    case CompanyColumn => job.company
    case LocationColumn => job.location
  }

  /** The row satisfies every clause of the WHERE. */
  predicate SatisfiesAll(job: Job, conds: seq<Condition>) {
    forall i :: 0 <= i < |conds| ==> Like(conds[i].pattern, ColumnOf(job, conds[i].column))
  }

  /** Appending a clause to the WHERE adds exactly that constraint. */
  lemma SatisfiesAllAppend(job: Job, conds: seq<Condition>, c: Condition)
    ensures SatisfiesAll(job, conds + [c]) <==> SatisfiesAll(job, conds) && Like(c.pattern, ColumnOf(job, c.column))
  {
    if SatisfiesAll(job, conds) && Like(c.pattern, ColumnOf(job, c.column)) {
      forall i | 0 <= i < |conds + [c]|
        ensures Like((conds + [c])[i].pattern, ColumnOf(job, (conds + [c])[i].column))
      {
        if i < |conds| { assert (conds + [c])[i] == conds[i]; }
      }
    }
    if SatisfiesAll(job, conds + [c]) {
      assert (conds + [c])[|conds|] == c;
      forall i | 0 <= i < |conds| ensures Like(conds[i].pattern, ColumnOf(job, conds[i].column)) {
        assert (conds + [c])[i] == conds[i];
      }
    }
  }

  lemma AppendCondition(conds: seq<Condition>, c: Condition)
    ensures forall job :: SatisfiesAll(job, conds + [c]) <==> SatisfiesAll(job, conds) && Like(c.pattern, ColumnOf(job, c.column))
  {
    forall job { SatisfiesAllAppend(job, conds, c); }
  }

  // ---- Lemmas on the session table ----

  /** At most one refresh token per user is accepted at any one time. */
  lemma OneAcceptedRefreshTokenPerUser(users: map<nat, User>, t1: Token, t2: Token, now1: int, now2: int)
    requires RefreshAccepted(users, t1, now1) && RefreshAccepted(users, t2, now2)
    requires t1.claim.id == t2.claim.id
    ensures t1 == t2
  {
  }

  /** Storing a new refresh token for a user makes every other token of that user unacceptable, and touches no other row. */
  lemma StoringRevokesOtherTokens(users: map<nat, User>, id: nat, t: Token, earlier: Token, now: int)
    requires id in users && earlier != t && earlier.claim.id == id
    ensures !RefreshAccepted(StoreRefreshToken(users, id, t), earlier, now)
    ensures forall other :: other in users && other != id ==> StoreRefreshToken(users, id, t)[other] == users[other]
  {
  }

  /** After logout no refresh token of that user is accepted. */
  lemma ClearedSessionRefusesRefresh(users: map<nat, User>, id: nat, t: Token, now: int)
    requires t.claim.id == id
    ensures !RefreshAccepted(ClearRefreshToken(users, id), t, now)
  {
  }

  /** Logging out twice leaves the table as logging out once. */
  lemma ClearRefreshTokenIdempotent(users: map<nat, User>, id: nat)
    ensures ClearRefreshToken(ClearRefreshToken(users, id), id) == ClearRefreshToken(users, id)
  {
  }

  /** An accepted refresh token carries the current claim of its user. */
  lemma AcceptedTokenCarriesCurrentClaim(users: map<nat, User>, t: Token, now: int)
    requires StoredTokensIssuedToOwner(users) && RefreshAccepted(users, t, now)
    ensures t.claim == ClaimOf(t.claim.id, users[t.claim.id])
  {
  }

  /** A listing filter without LIKE wildcards is a plain substring search. */
  lemma PlainFilterIsSubstringSearch(filter: string, column: string)
    requires filter != "" && Plain(filter)
    ensures FilterKeeps(Some(filter), column) <==> Contains(column, filter)
  {
    InfixPatternIsContains(filter, column);
  }

  // ---- The server ----

  class Server {
    var users: map<nat, User>
    var jobs: map<nat, Job>
    var applications: map<nat, Application>
    /** The AUTO_INCREMENT counters of the three tables. */
    var nextUserId: nat
    var nextJobId: nat
    var nextApplicationId: nat
    /** Joi's `email()` format check. */
    const isEmail: string -> bool

    ghost predicate Valid()
      reads this
    {
      && (forall id :: id in users ==> id < nextUserId)
      && (forall id :: id in jobs ==> id < nextJobId)
      && (forall id :: id in applications ==> id < nextApplicationId)
      && UniqueEmails(users)
      && StoredTokensIssuedToOwner(users)
      && OneApplicationPerPair(applications)
      && NoOrphanApplications(applications, jobs)
    }

    /**
     * A server over a freshly seeded database: `seed` holds the accounts
     * created outside the API (admins among them), nobody is logged in,
     * and there are no jobs yet.
     */
    constructor (isEmail: string -> bool, seed: map<nat, User>, firstFreeId: nat)
      requires forall id :: id in seed ==> id < firstFreeId
      requires UniqueEmails(seed)
      requires forall id :: id in seed ==> seed[id].refreshToken == None
      ensures Valid()
      ensures this.isEmail == isEmail && users == seed && jobs == map[] && applications == map[]
    {
      this.isEmail := isEmail;
      users := seed;
      jobs := map[];
      applications := map[];
      nextUserId := firstFreeId;
      nextJobId := 0;
      nextApplicationId := 0;
    }

    /** `POST /api/register`. */
    method Register(body: RegisterBody, salt: nat) returns (resp: Response)
      requires Valid()
      modifies this
      ensures Valid()
      ensures jobs == old(jobs) && applications == old(applications)
      ensures nextJobId == old(nextJobId) && nextApplicationId == old(nextApplicationId)
      ensures !RegisterValid(body, isEmail) ==>
        resp == BadRequest && users == old(users) && nextUserId == old(nextUserId)
      ensures RegisterValid(body, isEmail) && EmailTaken(old(users), body.email.s) ==>
        resp == Response(400, Error("Email already registered")) && users == old(users) && nextUserId == old(nextUserId)
      ensures RegisterValid(body, isEmail) && !EmailTaken(old(users), body.email.s) ==>
        && resp == Response(200, Message("User registered successfully"))
        && old(nextUserId) !in old(users)
        && users == old(users)[old(nextUserId) := User(body.email.s, Hash(body.password.s, salt), "user", None)]
        && nextUserId == old(nextUserId) + 1
    {
      if !RegisterValid(body, isEmail) {
        return BadRequest;
      }
      var email, password := body.email.s, body.password.s;
      if exists id :: id in users.Keys && users[id].email == email {
        return Response(400, Error("Email already registered"));
      }
      var hashed := Hash(password, salt);
      users := users[nextUserId := User(email, hashed, "user", None)];
      nextUserId := nextUserId + 1;
      resp := Response(200, Message("User registered successfully"));
    }

    /** `POST /api/login`. */
    method Login(body: LoginBody, now: int) returns (resp: Response)
      requires Valid()
      modifies this
      ensures Valid()
      ensures jobs == old(jobs) && applications == old(applications)
      ensures nextUserId == old(nextUserId) && nextJobId == old(nextJobId) && nextApplicationId == old(nextApplicationId)
      ensures !LoginValid(body, isEmail) ==> resp == BadRequest && users == old(users)
      // the same answer, and no change, for an unknown email and for a wrong password
      ensures LoginValid(body, isEmail) && !EmailTaken(old(users), body.email.s) ==>
        resp == InvalidCredentials && users == old(users)
      ensures LoginValid(body, isEmail) && EmailTaken(old(users), body.email.s) && !CredentialsMatch(old(users), body.email.s, body.password.s) ==>
        resp == InvalidCredentials && users == old(users)
      ensures resp.status == 200 <==> LoginValid(body, isEmail) && CredentialsMatch(old(users), body.email.s, body.password.s)
      ensures resp.status == 200 ==> resp.body.LoginTokens?
      ensures forall id :: LoginValid(body, isEmail) && id in old(users) && old(users)[id].email == body.email.s && Compare(body.password.s, old(users)[id].password) ==>
        var claim := ClaimOf(id, old(users)[id]);
        && resp == Response(200, LoginTokens(GenerateAccessToken(claim, now), GenerateRefreshToken(claim, now), claim))
        && users == StoreRefreshToken(old(users), id, GenerateRefreshToken(claim, now))
    {
      if !LoginValid(body, isEmail) {
        return BadRequest;
      }
      var email, password := body.email.s, body.password.s;
      if id :| id in users.Keys && users[id].email == email {
        var user := users[id];
        if !Compare(password, user.password) {
          return InvalidCredentials;
        }
        var claim := ClaimOf(id, user);
        var accessToken := GenerateAccessToken(claim, now);
        var refreshToken := GenerateRefreshToken(claim, now);
        users := users[id := user.(refreshToken := Some(refreshToken))];
        resp := Response(200, LoginTokens(accessToken, refreshToken, claim));
      } else {
        resp := InvalidCredentials;
      }
    }

    /** `POST /api/token`: `token` is the body's field, `None` when it is a falsy non-string. */
    method Refresh(token: Option<TokenText>, now: int) returns (resp: Response)
      ensures resp.status == 401 <==> token.None? || token == Some(Junk(""))
      ensures resp.status == 401 ==> resp == TokenRequired
      ensures resp.status == 200 <==> token.Some? && token.value.Signed? && RefreshAccepted(users, token.value.token, now)
      ensures resp.status == 200 ==> resp.body == NewAccessToken(GenerateAccessToken(token.value.token.claim, now))
      ensures resp.status != 200 && resp.status != 401 ==> resp == InvalidRefreshToken
    {
      if token.None? || token.value == Junk("") {
        return TokenRequired;
      }
      var payload := Verify(token.value, RefreshSecret, now);
      if payload.None? {
        return InvalidRefreshToken;
      }
      var id := payload.value.id;
      if !(id in users && users[id].refreshToken == Some(token.value.token)) {
        return InvalidRefreshToken;
      }
      resp := Response(200, NewAccessToken(GenerateAccessToken(payload.value, now)));
    }

    /** `POST /api/logout`. */
    method Logout(header: Header, now: int) returns (resp: Response)
      requires Valid()
      modifies this
      ensures Valid()
      ensures jobs == old(jobs) && applications == old(applications)
      ensures nextUserId == old(nextUserId) && nextJobId == old(nextJobId) && nextApplicationId == old(nextApplicationId)
      ensures AuthenticateJWT(header, now).Halt? ==> resp == Halted(AuthenticateJWT(header, now)) && users == old(users)
      ensures AuthenticateJWT(header, now).Proceed? ==>
        resp == Response(200, Message("Logged out successfully")) &&
        users == ClearRefreshToken(old(users), AuthenticateJWT(header, now).user.id)
    {
      var gate := AuthenticateJWT(header, now);
      if gate.Halt? {
        return Halted(gate);
      }
      var id := gate.user.id;
      if id in users {
        users := users[id := users[id].(refreshToken := None)];
      }
      resp := Response(200, Message("Logged out successfully"));
    }

    /** `GET /api/jobs` with the optional query filters (the ordering by `created_at` is not modelled). */
    method ListJobs(title: Option<string>, company: Option<string>, location: Option<string>) returns (resp: Response)
      ensures resp.status == 200 && resp.body.JobList?
      ensures forall id :: id in resp.body.jobs <==> id in jobs && ListingKeeps(title, company, location, jobs[id])
      ensures forall id :: id in resp.body.jobs ==> resp.body.jobs[id] == jobs[id]
    {
      var conds: seq<Condition> := [];
      if Truthy(title) {
        AppendCondition(conds, Condition(TitleColumn, InfixPattern(title.value)));
        conds := conds + [Condition(TitleColumn, InfixPattern(title.value))];
      }
      assert forall job :: SatisfiesAll(job, conds) <==> FilterKeeps(title, job.title);
      if Truthy(company) {
        AppendCondition(conds, Condition(CompanyColumn, InfixPattern(company.value)));
        conds := conds + [Condition(CompanyColumn, InfixPattern(company.value))];
      }
      assert forall job :: SatisfiesAll(job, conds) <==> FilterKeeps(title, job.title) && FilterKeeps(company, job.company);
      if Truthy(location) {
        AppendCondition(conds, Condition(LocationColumn, InfixPattern(location.value)));
        conds := conds + [Condition(LocationColumn, InfixPattern(location.value))];
      }
      assert forall job :: SatisfiesAll(job, conds) <==> ListingKeeps(title, company, location, job);
      var rows := map id | id in jobs.Keys && SatisfiesAll(jobs[id], conds) :: jobs[id];
      resp := Response(200, JobList(rows));
    }

    /** `GET /api/jobs/:id`. */
    method GetJob(id: nat) returns (resp: Response)
      ensures id in jobs ==> resp == Response(200, JobRow(id, jobs[id]))
      ensures id !in jobs ==> resp == JobNotFound
    {
      if id !in jobs {
        return JobNotFound;
      }
      resp := Response(200, JobRow(id, jobs[id]));
    }

    /** `POST /api/jobs/:id/apply`. */
    method Apply(header: Header, jobId: nat, body: ApplyBody, now: int) returns (resp: Response)
      requires Valid()
      modifies this
      ensures Valid()
      ensures users == old(users) && jobs == old(jobs)
      ensures nextUserId == old(nextUserId) && nextJobId == old(nextJobId)
      ensures AuthenticateJWT(header, now).Halt? ==>
        resp == Halted(AuthenticateJWT(header, now)) && applications == old(applications) && nextApplicationId == old(nextApplicationId)
      ensures AuthenticateJWT(header, now).Proceed? ==>
        var userId := AuthenticateJWT(header, now).user.id;
        && (!ApplyValid(body) ==> resp == BadRequest && applications == old(applications))
        && (ApplyValid(body) && jobId !in old(jobs) ==> resp == JobNotFound && applications == old(applications))
        && (ApplyValid(body) && jobId in old(jobs) && HasApplied(old(applications), jobId, userId) ==>
              resp == Response(400, Error("You already applied to this job")) && applications == old(applications))
        && (ApplyValid(body) && jobId in old(jobs) && !HasApplied(old(applications), jobId, userId) ==>
              && resp == Response(200, Message("Applied successfully"))
              && old(nextApplicationId) !in old(applications)
              && applications == old(applications)[old(nextApplicationId) := Application(jobId, userId, CoverLetterText(body.coverLetter), now)]
              && nextApplicationId == old(nextApplicationId) + 1)
      ensures resp.status != 200 ==> applications == old(applications) && nextApplicationId == old(nextApplicationId)
    {
      var gate := AuthenticateJWT(header, now);
      if gate.Halt? {
        return Halted(gate);
      }
      if !ApplyValid(body) {
        return BadRequest;
      }
      var userId := gate.user.id;
      if jobId !in jobs {
        return JobNotFound;
      }
      if exists a :: a in applications.Keys && applications[a].jobId == jobId && applications[a].userId == userId {
        return Response(400, Error("You already applied to this job"));
      }
      applications := applications[nextApplicationId := Application(jobId, userId, CoverLetterText(body.coverLetter), now)];
      nextApplicationId := nextApplicationId + 1;
      resp := Response(200, Message("Applied successfully"));
    }

    /** `POST /api/admin/jobs`. */
    method CreateJob(header: Header, body: JobBody, now: int) returns (resp: Response)
      requires Valid()
      modifies this
      ensures Valid()
      ensures users == old(users) && applications == old(applications)
      ensures nextUserId == old(nextUserId) && nextApplicationId == old(nextApplicationId)
      ensures AdminGate(header, now).Halt? ==> resp == Halted(AdminGate(header, now)) && jobs == old(jobs) && nextJobId == old(nextJobId)
      ensures AdminGate(header, now).Proceed? && !JobValid(body) ==> resp == BadRequest && jobs == old(jobs) && nextJobId == old(nextJobId)
      ensures AdminGate(header, now).Proceed? && JobValid(body) ==>
        && resp == Response(200, Message("Job created successfully"))
        && old(nextJobId) !in old(jobs)
        && jobs == old(jobs)[old(nextJobId) := Job(body.title.s, body.company.s, body.location.s, body.description.s, now)]
        && nextJobId == old(nextJobId) + 1
    {
      var gate := AdminGate(header, now);
      if gate.Halt? {
        return Halted(gate);
      }
      if !JobValid(body) {
        return BadRequest;
      }
      jobs := jobs[nextJobId := Job(body.title.s, body.company.s, body.location.s, body.description.s, now)];
      nextJobId := nextJobId + 1;
      resp := Response(200, Message("Job created successfully"));
    }

    /** `PUT /api/admin/jobs/:id`. */
    method UpdateJob(header: Header, id: nat, body: JobBody, now: int) returns (resp: Response)
      requires Valid()
      modifies this
      ensures Valid()
      ensures users == old(users) && applications == old(applications)
      ensures nextUserId == old(nextUserId) && nextJobId == old(nextJobId) && nextApplicationId == old(nextApplicationId)
      ensures AdminGate(header, now).Halt? ==> resp == Halted(AdminGate(header, now)) && jobs == old(jobs)
      ensures AdminGate(header, now).Proceed? && !JobValid(body) ==> resp == BadRequest && jobs == old(jobs)
      ensures AdminGate(header, now).Proceed? && JobValid(body) && id !in old(jobs) ==> resp == JobNotFound && jobs == old(jobs)
      ensures AdminGate(header, now).Proceed? && JobValid(body) && id in old(jobs) ==>
        && resp == Response(200, Message("Job updated successfully"))
        && jobs == old(jobs)[id := Job(body.title.s, body.company.s, body.location.s, body.description.s, old(jobs)[id].createdAt)]
    {
      var gate := AdminGate(header, now);
      if gate.Halt? {
        return Halted(gate);
      }
      if !JobValid(body) {
        return BadRequest;
      }
      if id !in jobs {
        return JobNotFound;
      }
      jobs := jobs[id := jobs[id].(title := body.title.s, company := body.company.s,
                                   location := body.location.s, description := body.description.s)];
      resp := Response(200, Message("Job updated successfully"));
    }

    /** `DELETE /api/admin/jobs/:id`: the job goes, and every application to it. */
    method DeleteJob(header: Header, id: nat, now: int) returns (resp: Response)
      requires Valid()
      modifies this
      ensures Valid()
      ensures users == old(users)
      ensures nextUserId == old(nextUserId) && nextJobId == old(nextJobId) && nextApplicationId == old(nextApplicationId)
      ensures AdminGate(header, now).Halt? ==>
        resp == Halted(AdminGate(header, now)) && jobs == old(jobs) && applications == old(applications)
      ensures AdminGate(header, now).Proceed? && id !in old(jobs) ==>
        resp == JobNotFound && jobs == old(jobs) && applications == old(applications)
      ensures AdminGate(header, now).Proceed? && id in old(jobs) ==>
        && resp == Response(200, Message("Job and related applications deleted"))
        && jobs == old(jobs) - {id}
        && (forall a :: a in applications <==> a in old(applications) && old(applications)[a].jobId != id)
        && (forall a :: a in applications ==> applications[a] == old(applications)[a])
    {
      var gate := AdminGate(header, now);
      if gate.Halt? {
        return Halted(gate);
      }
      if id !in jobs {
        return JobNotFound;
      }
      jobs := jobs - {id};
      applications := map a | a in applications.Keys && applications[a].jobId != id :: applications[a];
      resp := Response(200, Message("Job and related applications deleted"));
    }

    /** `GET /api/admin/jobs/:id/applicants`: an inner join, so applications of vanished users are not listed. */
    method Applicants(header: Header, id: nat, now: int) returns (resp: Response)
      ensures AdminGate(header, now).Halt? ==> resp == Halted(AdminGate(header, now))
      ensures AdminGate(header, now).Proceed? && id !in jobs ==> resp == JobNotFound
      ensures AdminGate(header, now).Proceed? && id in jobs ==>
        && resp.status == 200 && resp.body.ApplicantList?
        && (forall a :: a in resp.body.applicants <==> a in applications && applications[a].jobId == id && applications[a].userId in users)
        && (forall a :: a in resp.body.applicants ==>
              resp.body.applicants[a] == Applicant(applications[a].coverLetter, applications[a].createdAt, users[applications[a].userId].email))
    {
      var gate := AdminGate(header, now);
      if gate.Halt? {
        return Halted(gate);
      }
      if id !in jobs {
        return JobNotFound;
      }
      var rows := map a | a in applications.Keys && applications[a].jobId == id && applications[a].userId in users
                        :: Applicant(applications[a].coverLetter, applications[a].createdAt, users[applications[a].userId].email);
      resp := Response(200, ApplicantList(rows));
    }
  }
}
