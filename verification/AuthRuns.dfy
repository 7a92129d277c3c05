/**
 Runs of the whole service: logins and requests in flight together, accounts edited by
 administrators at any moment, and the clock moving on.  Each login and each password request
 reads the users table twice, and anything may happen in between.
 */
module AuthRuns {
  import opened Outcomes
  import opened Base64
  import opened Authorization
  import opened Authenticators
  import opened AuthNZ

  datatype Job = Login(user: Bytes, password: Bytes) | Request(header: Bytes, requirement: Requirement)

  /** A password found right, and then a level read; what remains is to sign or to judge. */
  datatype Stage = Checked(job: Job, user: Bytes) | Ready(job: Job, claims: Claims) {
    function Who(): Bytes {
      if Checked? then user else claims.user
    }
  }

  datatype World = World(users: Users, clock: int, tokens: Tokens, jobs: map<nat, Stage>)

  datatype Action =
    | SetAccount(name: Bytes, account: Account)
    | RemoveAccount(name: Bytes)
    | Tick(seconds: nat)
    | Begin(id: nat, job: Job, fault: bool)
    | ReadLevel(id: nat, fault: bool)
    | Finish(id: nat, signature: Bytes)

  datatype Answer = Issued(token: Bytes) | Denied(result: AuthResult) | Judgement(verdict: Verdict) | Threw

  /** What a job that stops short of its claims is told. */
  function Failed(job: Job, result: AuthResult): Answer {
    match job
    case Login(_, _) => Denied(result)
    case Request(_, requirement) => Judgement(Judged(requirement, Outcome(result, None)))
  }

  /** What Begin comes to: an answer at once, or the name of a user whose password was right. */
  datatype Opening = Now(answer: Answer) | Later(user: Bytes)

  function OpenWith(w: World, job: Job, user: Bytes, password: Bytes, fault: bool): Opening {
    var result := CheckPassword(w.users, user, password, fault);
    if result == Authenticated then Later(user) else Now(Failed(job, result))
  }

  function Open(w: World, job: Job, fault: bool): Opening {
    match job
    case Login(user, password) =>
      if user == [] then Now(Threw) else OpenWith(w, job, user, password, fault)
    case Request(header, requirement) =>
      var parsed := Parse(header);
      var refusal := Refusal(parsed, requirement);
      if refusal.Some? then Now(Judgement(Verdict(refusal.value, requirement, None)))
      else
        var credential := parsed.credential.value;
        if credential.scheme == Basic then OpenWith(w, job, credential.user, credential.password, fault)
        else Now(Judgement(Judged(requirement, TokenOutcome(w.tokens, w.clock, credential.token))))
  }

  predicate Enabled(w: World, a: Action, ttl: int) {
    match a
    case Begin(id, _, _) => id !in w.jobs
    case ReadLevel(id, _) => id in w.jobs && w.jobs[id].Checked?
    case Finish(id, signature) =>
      && id in w.jobs && w.jobs[id].Ready?
      // An ideal signature: one text never stands for two payloads.
      && (w.jobs[id].job.Login? && signature in w.tokens ==>
            w.tokens[signature] == TokenFor(w.jobs[id].claims, w.clock + ttl))
    case _ => true
  }

  function Step(w: World, a: Action, ttl: int): World
    requires Enabled(w, a, ttl)
  {
    match a
    case SetAccount(name, account) => w.(users := w.users[name := account])
    case RemoveAccount(name) => w.(users := w.users - {name})
    case Tick(seconds) => w.(clock := w.clock + seconds)
    case Begin(id, job, fault) =>
      var opening := Open(w, job, fault);
      if opening.Now? then w else w.(jobs := w.jobs[id := Checked(job, opening.user)])
    case ReadLevel(id, fault) =>
      if fault then w.(jobs := w.jobs - {id})
      else
        var Checked(job, user) := w.jobs[id];
        w.(jobs := w.jobs[id := Ready(job, Claims(user, LevelOf(w.users, user)))])
    case Finish(id, signature) =>
      var Ready(job, claims) := w.jobs[id];
      w.(jobs := w.jobs - {id},
         tokens := if job.Login? then w.tokens[signature := TokenFor(claims, w.clock + ttl)] else w.tokens)
  }

  function AnswerOf(w: World, a: Action): Option<Answer> {
    match a
    case Begin(id, job, fault) =>
      var opening := Open(w, job, fault);
      if opening.Now? then Some(opening.answer) else None
    case ReadLevel(id, fault) =>
      if fault && id in w.jobs then Some(Failed(w.jobs[id].job, ServerError)) else None
    case Finish(id, signature) =>
      if id in w.jobs && w.jobs[id].Ready? then
        var Ready(job, claims) := w.jobs[id];
        Some(match job
             case Login(_, _) => Issued(signature)
             case Request(_, requirement) => Judgement(Judged(requirement, Outcome(Authenticated, Some(claims)))))
      else None
    case _ => None
  }

  /** A run that starts with no token signed and nothing in flight, over any users at any time. */
  datatype Run = Run(worlds: seq<World>, actions: seq<Action>, ttl: int) {
    ghost predicate Valid() {
      && |worlds| == |actions| + 1
      && worlds[0].tokens == map[] && worlds[0].jobs == map[]
      && forall i :: 0 <= i < |actions| ==>
           Enabled(worlds[i], actions[i], ttl) && worlds[i + 1] == Step(worlds[i], actions[i], ttl)
    }

    /** In every world after p, up to and including n, a job with this id was in flight for user. */
    ghost predicate InFlight(id: nat, user: Bytes, p: nat, n: nat)
      requires Valid() && n < |worlds|
    {
      forall k :: p < k <= n ==> id in worlds[k].jobs && worlds[k].jobs[id].Who() == user
    }

    /** At p this job began, with the password that user had at that moment. */
    ghost predicate Opened(p: nat, id: nat, job: Job, user: Bytes)
      requires Valid()
    {
      && p < |actions| && actions[p] == Begin(id, job, false)
      && user in worlds[p].users
      && match job
         case Login(name, password) => name == user && user != [] && worlds[p].users[user].password == password
         case Request(header, requirement) => ShowsPassword(worlds[p].users, header, user)
    }

    /** At q the job read its level, and these are its claims. */
    ghost predicate Read(q: nat, id: nat, claims: Claims)
      requires Valid()
    {
      && q < |actions| && actions[q] == ReadLevel(id, false)
      && claims.permissions == LevelOf(worlds[q].users, claims.user)
    }

    /** A login, begun at p and reading the level at q, signed this token at m. */
    ghost predicate Signed(p: nat, q: nat, m: nat, id: nat, password: Bytes, token: Bytes, claims: Claims)
      requires Valid()
    {
      && p < q < m < |actions|
      && Opened(p, id, Login(claims.user, password), claims.user)
      && Read(q, id, claims)
      && actions[m] == Finish(id, token)
      && InFlight(id, claims.user, p, m)
    }
  }

  // ---------- Tracing back ----------

  lemma OpeningShowsPassword(w: World, job: Job, fault: bool)
    requires Open(w, job, fault).Later?
    ensures var user := Open(w, job, fault).user;
            && !fault && user in w.users
            && match job
               case Login(name, password) => name == user && user != [] && w.users[user].password == password
               case Request(header, requirement) => ShowsPassword(w.users, header, user)
  {
    hide Parse, ShowsPassword;
    if job.Request? {
      CredentialShape(job.header);
      PasswordIsShown(w.users, job.header, Parse(job.header).credential.value.user);
    }
  }

  /** The opening that a job in flight, now at this stage, had at p. */
  ghost predicate BeganAs(r: Run, p: nat, id: nat, s: Stage)
    requires r.Valid()
  {
    && p < |r.actions| && r.actions[p] == Begin(id, s.job, false)
    && Open(r.worlds[p], s.job, false) == Later(s.Who())
    && r.Opened(p, id, s.job, s.Who())
  }

  /** How a job comes to be in flight at a stage: it was opened, it read its level, or it was already there. */
  lemma JobAfter(w: World, a: Action, ttl: int, id: nat)
    requires Enabled(w, a, ttl) && id in Step(w, a, ttl).jobs
    ensures var s := Step(w, a, ttl).jobs[id];
            || (a.Begin? && a.id == id && Open(w, a.job, a.fault).Later?
                && s == Checked(a.job, Open(w, a.job, a.fault).user))
            || (a == ReadLevel(id, false) && id in w.jobs && w.jobs[id].Checked?
                && s == Ready(w.jobs[id].job, Claims(w.jobs[id].user, LevelOf(w.users, w.jobs[id].user))))
            || (id in w.jobs && s == w.jobs[id])
  {
    hide Open, LevelOf, TokenFor;
  }

  /** Whatever is in flight was begun with the right password. */
  lemma {:induction false} WasOpened(r: Run, n: nat, id: nat) returns (p: nat)
    requires r.Valid() && n < |r.worlds| && id in r.worlds[n].jobs
    ensures p < n && r.InFlight(id, r.worlds[n].jobs[id].Who(), p, n)
    ensures BeganAs(r, p, id, r.worlds[n].jobs[id])
    decreases n
  {
    hide Open, Step, Enabled, LevelOf, ShowsPassword;
    var w, a := r.worlds[n - 1], r.actions[n - 1];
    JobAfter(w, a, r.ttl, id);
    if id !in w.jobs {
      OpeningShowsPassword(w, a.job, a.fault);
      p := n - 1;
    } else {
      BeginsAreNew(w, a, r.ttl, id);
      p := WasOpened(r, n - 1, id);
    }
  }

  lemma BeginsAreNew(w: World, a: Action, ttl: int, id: nat)
    requires Enabled(w, a, ttl) && id in w.jobs
    ensures !(a.Begin? && a.id == id)
    ensures a == ReadLevel(id, false) ==> w.jobs[id].Checked?
  {
  }

  /** A job that has its claims read them from the users table while it was in flight. */
  lemma {:induction false} WasRead(r: Run, n: nat, id: nat) returns (p: nat, q: nat)
    requires r.Valid() && n < |r.worlds| && id in r.worlds[n].jobs && r.worlds[n].jobs[id].Ready?
    ensures p < q < n && r.InFlight(id, r.worlds[n].jobs[id].Who(), p, n)
    ensures BeganAs(r, p, id, r.worlds[n].jobs[id])
    ensures r.Read(q, id, r.worlds[n].jobs[id].claims)
    decreases n
  {
    hide Open, Step, Enabled, LevelOf, ShowsPassword;
    var w, a := r.worlds[n - 1], r.actions[n - 1];
    JobAfter(w, a, r.ttl, id);
    BeginsAreNew(w, a, r.ttl, id);
    if w.jobs[id].Checked? {
      p := WasOpened(r, n - 1, id);
      q := n - 1;
    } else {
      p, q := WasRead(r, n - 1, id);
    }
  }

  /** Every token that verifies was signed by a login, and expires a time-to-live after that. */
  lemma {:induction false} WasSigned(r: Run, n: nat, token: Bytes)
      returns (p: nat, q: nat, m: nat, id: nat, password: Bytes)
    requires r.Valid() && n < |r.worlds| && token in r.worlds[n].tokens
    ensures m < n && r.Signed(p, q, m, id, password, token, ClaimsOf(r.worlds[n].tokens[token]))
    ensures r.worlds[n].tokens[token].expires == r.worlds[m].clock + r.ttl
    decreases n
  {
    hide Open, CheckPassword, LevelOf, ShowsPassword, PermissionsToString, StringToPermissions;
    var w, a := r.worlds[n - 1], r.actions[n - 1];
    if a.Finish? && w.jobs[a.id].job.Login? && a.signature == token {
      id, m := a.id, n - 1;
      var claims := w.jobs[id].claims;
      TokenSaysItsClaims(claims, w.clock + r.ttl);
      p, q := WasRead(r, m, id);
      password := w.jobs[id].job.password;
    } else {
      p, q, m, id, password := WasSigned(r, n - 1, token);
    }
  }

  lemma {:induction false} ClockOnlyMovesOn(r: Run, i: nat, j: nat)
    requires r.Valid() && i <= j < |r.worlds|
    ensures r.worlds[i].clock <= r.worlds[j].clock
    decreases j
  {
    hide Open, LevelOf, TokenFor;
    if i < j {
      ClockOnlyMovesOn(r, i, j - 1);
    }
  }

  // ---------- What every answer is ----------

  /** The request begun at p showed this user's password and was in flight for them until i. */
  ghost predicate HeldInFlight(r: Run, i: nat, p: nat, header: Bytes, user: Bytes)
    requires r.Valid() && p < i < |r.actions|
  {
    && r.actions[p].Begin? && r.InFlight(r.actions[p].id, user, p, i)
    && ShowsPassword(r.worlds[p].users, header, user)
  }

  /** p and q are where the very job that i answers was begun and read its level, as far as it got. */
  ghost predicate SameJob(r: Run, i: nat, p: nat, q: nat)
    requires r.Valid() && p <= q <= i < |r.actions|
  {
    && r.actions[p].Begin?
    && match r.actions[i]
       case Begin(_, _, _) => p == q == i
       case ReadLevel(id, _) => p < q == i && r.actions[p].id == id
       case Finish(id, _) => p < q < i && r.actions[p].id == id && r.actions[q] == ReadLevel(id, false)
       case _ => false
  }

  /** The request answered at i: begun at p, its password checked then, its level read at q. */
  ghost predicate AnswersRequest(r: Run, i: nat, p: nat, q: nat, header: Bytes, requirement: Requirement,
                                 faults: Faults, verdict: Verdict)
    requires r.Valid()
  {
    && p <= q <= i < |r.actions|
    && SameJob(r, i, p, q) && r.actions[p].job == Request(header, requirement)
    && r.actions[p].fault == faults.check
    && (p < i ==> exists user :: HeldInFlight(r, i, p, header, user))
    && verdict == Authorized(r.worlds[p].users, r.worlds[q].users, r.worlds[p].tokens, r.worlds[p].clock,
                             header, requirement, faults)
  }

  lemma AnsweredAtOnce(w: World, header: Bytes, requirement: Requirement, faults: Faults)
    requires Open(w, Request(header, requirement), faults.check).Now?
    ensures Open(w, Request(header, requirement), faults.check).answer
            == Judgement(Authorized(w.users, w.users, w.tokens, w.clock, header, requirement, faults))
  {
    hide Parse, IsGood, LevelOf, Satisfies;
  }

  lemma AnsweredLater(w: World, atRead: Users, header: Bytes, requirement: Requirement, readFault: bool)
    requires Open(w, Request(header, requirement), false).Later?
    ensures var user := Open(w, Request(header, requirement), false).user;
            Authorized(w.users, atRead, w.tokens, w.clock, header, requirement, Faults(false, readFault))
            == Judged(requirement, if readFault then Outcome(ServerError, None)
                                   else Outcome(Authenticated, Some(Claims(user, LevelOf(atRead, user)))))
  {
    hide Parse, IsGood, LevelOf, Satisfies;
  }

  lemma OnlyRequestsAreJudged(w: World, job: Job, fault: bool)
    requires Open(w, job, fault).Now? && Open(w, job, fault).answer.Judgement?
    ensures job.Request?
  {
    hide Parse, CheckPassword;
  }

  /**
   Every verdict given in any run is the one Authorize computes, for the users as they were when
   that request's password was checked and as they were when its level was read.
   */
  lemma EveryVerdictIsAuthorized(r: Run, i: nat, verdict: Verdict)
      returns (p: nat, q: nat, header: Bytes, requirement: Requirement, faults: Faults)
    requires r.Valid() && i < |r.actions|
    requires AnswerOf(r.worlds[i], r.actions[i]) == Some(Judgement(verdict))
    ensures AnswersRequest(r, i, p, q, header, requirement, faults, verdict)
  {
    hide Open, LevelOf, Authorized, Judged, ShowsPassword;
    var w, a := r.worlds[i], r.actions[i];
    if a.Begin? {
      OnlyRequestsAreJudged(w, a.job, a.fault);
      header, requirement := a.job.header, a.job.requirement;
      p, q, faults := i, i, Faults(a.fault, false);
      AnsweredAtOnce(w, header, requirement, faults);
    } else {
      var s := w.jobs[a.id];
      header, requirement := s.job.header, s.job.requirement;
      if a.ReadLevel? {
        p := WasOpened(r, i, a.id);
        assert HeldInFlight(r, i, p, header, s.Who());
        q, faults := i, Faults(false, true);
        AnsweredLater(r.worlds[p], r.worlds[q].users, header, requirement, true);
      } else {
        p, q := WasRead(r, i, a.id);
        assert HeldInFlight(r, i, p, header, s.Who());
        faults := Faults(false, false);
        AnsweredLater(r.worlds[p], r.worlds[q].users, header, requirement, false);
      }
    }
  }

  // ---------- What an identity proves ----------

  /** claims were earned by the user's own password, level as read while the request was in flight. */
  ghost predicate EarnedByPassword(r: Run, i: nat, p: nat, q: nat, header: Bytes, claims: Claims)
    requires r.Valid()
  {
    && p <= q <= i < |r.actions|
    && ShowsPassword(r.worlds[p].users, header, claims.user)
    && (p < i ==> HeldInFlight(r, i, p, header, claims.user))
    && claims.permissions == LevelOf(r.worlds[q].users, claims.user)
  }

  /** claims are those of a login by the user's own password, within the time-to-live. */
  ghost predicate EarnedByToken(r: Run, i: nat, header: Bytes, token: Bytes, claims: Claims)
    requires r.Valid()
  {
    && i < |r.actions|
    && Carries(header, BEARER, token)
    && exists p: nat, q: nat, m: nat, id: nat, password: Bytes ::
         && r.Signed(p, q, m, id, password, token, claims)
         && m < i && r.worlds[m].clock <= r.worlds[i].clock < r.worlds[m].clock + r.ttl
  }

  lemma GoodTokenWasEarned(r: Run, i: nat, header: Bytes, token: Bytes)
    requires r.Valid() && i < |r.actions| && ShowsToken(r.worlds[i].tokens, r.worlds[i].clock, header, token)
    ensures EarnedByToken(r, i, header, token, ClaimsOf(r.worlds[i].tokens[token]))
  {
    hide Carries, ClaimsOf;
    var p, q, m, id, password := WasSigned(r, i, token);
    ClockOnlyMovesOn(r, m, i);
  }

  lemma PasswordAndTokenExclude(users: Users, tokens: Tokens, now: int, header: Bytes, user: Bytes, token: Bytes)
    ensures !(ShowsPassword(users, header, user) && ShowsToken(tokens, now, header, token))
  {
    hide Parse, ShowsPassword, ShowsToken;
    PasswordIsShown(users, header, user);
    TokenIsShown(tokens, now, header, token);
  }

  lemma OneUserShown(users: Users, header: Bytes, user: Bytes, other: Bytes)
    requires ShowsPassword(users, header, user) && ShowsPassword(users, header, other)
    ensures user == other
  {
    hide Parse, ShowsPassword;
    PasswordIsShown(users, header, user);
    PasswordIsShown(users, header, other);
  }

  /**
   In every run an identity is given exactly with the verdict Allowed; it is at a level the
   route accepts; and it was earned by that user's own password, either shown by this request
   or, on a route that does not insist on it, by the login that signed the token shown.
   */
  lemma EveryIdentityIsEarned(r: Run, i: nat, verdict: Verdict)
      returns (p: nat, q: nat, header: Bytes, token: Bytes)
    requires r.Valid() && i < |r.actions|
    requires AnswerOf(r.worlds[i], r.actions[i]) == Some(Judgement(verdict))
    ensures verdict.identity.Some? <==> verdict.status == Allowed
    ensures p <= q <= i && SameJob(r, i, p, q) && r.actions[p].job == Request(header, verdict.requirement)
    ensures verdict.identity.Some? ==>
              var claims := verdict.identity.value;
              && Satisfies(claims.permissions, verdict.requirement.permissions)
              && (|| EarnedByPassword(r, i, p, q, header, claims)
                  || (!verdict.requirement.requirePassword && p == i && EarnedByToken(r, i, header, token, claims)))
  {
    hide Authorized, ShowsPassword, ShowsToken, Satisfies, EarnedByToken, Step, Enabled, AnswerOf, LevelOf;
    var requirement, faults;
    p, q, header, requirement, faults := EveryVerdictIsAuthorized(r, i, verdict);
    var atCheck, atRead := r.worlds[p].users, r.worlds[q].users;
    var tokens, now := r.worlds[p].tokens, r.worlds[p].clock;
    IdentityMeansAllowed(atCheck, atRead, tokens, now, header, requirement, faults);
    token := [];
    if verdict.identity.Some? {
      var claims := verdict.identity.value;
      AllowedExactly(atCheck, atRead, tokens, now, header, requirement, faults, claims);
      if ShowsPassword(atCheck, header, claims.user) {
        forall t
          ensures !ShowsToken(tokens, now, header, t)
        {
          PasswordAndTokenExclude(atCheck, tokens, now, header, claims.user, t);
        }
        if p < i {
          var user :| HeldInFlight(r, i, p, header, user);
          OneUserShown(atCheck, header, user, claims.user);
        }
      } else {
        token :| ShowsToken(tokens, now, header, token) && token in tokens && ClaimsOf(tokens[token]) == claims;
        if p < i {
          var user :| HeldInFlight(r, i, p, header, user);
          PasswordAndTokenExclude(atCheck, tokens, now, header, user, token);
        }
        GoodTokenWasEarned(r, i, header, token);
      }
    }
  }

  lemma {:induction false} TokensStay(r: Run, m: nat, i: nat, token: Bytes)
    requires r.Valid() && m <= i < |r.worlds| && token in r.worlds[m].tokens
    ensures token in r.worlds[i].tokens && r.worlds[i].tokens[token] == r.worlds[m].tokens[token]
    decreases i
  {
    hide Open, LevelOf, TokenFor;
    if m < i {
      TokensStay(r, m, i - 1, token);
    }
  }

  /**
   The promise made at login: until its time-to-live is over, the token is honoured with the
   claims it was signed for on every route that takes tokens and that its level satisfies,
   whatever has happened to the account since.
   */
  lemma SignedTokensAreHonoured(r: Run, m: nat, i: nat, token: Bytes, header: Bytes, requirement: Requirement)
    requires r.Valid() && m < i < |r.actions|
    requires AnswerOf(r.worlds[m], r.actions[m]) == Some(Issued(token)) && token != [] && IsTrimmed(token)
    requires r.actions[i].Begin? && r.actions[i].job == Request(header, requirement) && Carries(header, BEARER, token)
    requires !requirement.requirePassword && r.worlds[i].clock < r.worlds[m].clock + r.ttl
    ensures r.actions[m].Finish? && r.actions[m].id in r.worlds[m].jobs
    ensures var claims := r.worlds[m].jobs[r.actions[m].id].claims;
            AnswerOf(r.worlds[i], r.actions[i])
            == Some(Judgement(if Satisfies(claims.permissions, requirement.permissions)
                              then Verdict(Allowed, requirement, Some(claims))
                              else Verdict(Forbidden, requirement, None)))
  {
    hide Parse, LevelOf, Carries, IsTrimmed, Satisfies, PermissionsToString, StringToPermissions;
    hide CheckPassword, ShowsPassword;
    OnlyLoginsIssue(r.worlds[m], r.actions[m]);
    var id := r.actions[m].id;
    var claims := r.worlds[m].jobs[id].claims;
    var p, q := WasRead(r, m, id);
    TokenSaysItsClaims(claims, r.worlds[m].clock + r.ttl);
    TokensStay(r, m + 1, i, token);
    TokenIsShown(r.worlds[i].tokens, r.worlds[i].clock, header, token);
  }

  lemma OnlyLoginsIssue(w: World, a: Action)
    requires AnswerOf(w, a).Some? && AnswerOf(w, a).value.Issued?
    ensures a.Finish? && a.id in w.jobs && w.jobs[a.id].Ready? && w.jobs[a.id].job.Login?
    ensures AnswerOf(w, a) == Some(Issued(a.signature))
  {
    hide Parse, CheckPassword;
  }

  /**
   The token handed out at m is that of the login answered at m: it was begun under the same id
   with that user's own password, read the level under the same id, and was signed at m.
   */
  lemma EveryIssuedTokenIsEarned(r: Run, m: nat, token: Bytes)
      returns (p: nat, q: nat, id: nat, password: Bytes)
    requires r.Valid() && m < |r.actions| && AnswerOf(r.worlds[m], r.actions[m]) == Some(Issued(token))
    ensures r.actions[m] == Finish(id, token) && token in r.worlds[m + 1].tokens
    ensures r.Signed(p, q, m, id, password, token, ClaimsOf(r.worlds[m + 1].tokens[token]))
    ensures r.worlds[m + 1].tokens[token].expires == r.worlds[m].clock + r.ttl
  {
    hide Open, LevelOf, ShowsPassword, PermissionsToString, StringToPermissions;
    var w, a := r.worlds[m], r.actions[m];
    OnlyLoginsIssue(w, a);
    id := a.id;
    p, q := WasRead(r, m, id);
    password := w.jobs[id].job.password;
    TokenSaysItsClaims(w.jobs[id].claims, w.clock + r.ttl);
  }

  // ---------- Taking a level away ----------

  /**
   A job that has read another level than this for the user and can still do something with
   it: sign a token that grants something, or be let through by its own route.
   */
  predicate Stale(s: Stage, user: Bytes, level: Permissions) {
    && s.Ready? && s.claims.user == user && s.claims.permissions != level
    && match s.job
       case Login(_, _) => s.claims.permissions != NoPermissions
       case Request(_, requirement) => Satisfies(s.claims.permissions, requirement.permissions)
  }

  ghost predicate NoneStale(w: World, user: Bytes, level: Permissions) {
    forall id :: id in w.jobs ==> !Stale(w.jobs[id], user, level)
  }

  /** A token of theirs is at this level, or grants nothing, or is over by the deadline. */
  predicate Harmless(payload: Payload, user: Bytes, level: Permissions, deadline: int) {
    var claims := ClaimsOf(payload);
    claims.user == user ==> claims.permissions in {level, NoPermissions} || payload.expires <= deadline
  }

  ghost predicate AllHarmless(w: World, user: Bytes, level: Permissions, deadline: int) {
    forall token :: token in w.tokens ==> Harmless(w.tokens[token], user, level, deadline)
  }

  /** While the level stands, no step makes a stale job or a token that outlives the deadline. */
  lemma StepKeepsHarmless(w: World, a: Action, ttl: int, user: Bytes, level: Permissions, deadline: int)
    requires Enabled(w, a, ttl) && LevelOf(w.users, user) == level
    requires NoneStale(w, user, level) && AllHarmless(w, user, level, deadline)
    ensures NoneStale(Step(w, a, ttl), user, level) && AllHarmless(Step(w, a, ttl), user, level, deadline)
  {
    hide Open, LevelOf, Satisfies, TokenFor, ClaimsOf;
    var w' := Step(w, a, ttl);
    forall id | id in w'.jobs
      ensures !Stale(w'.jobs[id], user, level)
    {
      JobAfter(w, a, ttl, id);
    }
    if a.Finish? && w.jobs[a.id].job.Login? {
      TokenSaysItsClaims(w.jobs[a.id].claims, w.clock + ttl);
    }
  }

  lemma {:induction false} StaysHarmless(r: Run, d: nat, k: nat, user: Bytes, level: Permissions, deadline: int)
    requires r.Valid() && d <= k < |r.worlds|
    requires forall j :: d <= j < k ==> LevelOf(r.worlds[j].users, user) == level
    requires NoneStale(r.worlds[d], user, level) && AllHarmless(r.worlds[d], user, level, deadline)
    ensures NoneStale(r.worlds[k], user, level) && AllHarmless(r.worlds[k], user, level, deadline)
    decreases k
  {
    hide LevelOf, NoneStale, AllHarmless, Step, Enabled;
    if d < k {
      StaysHarmless(r, d, k - 1, user, level, deadline);
      StepKeepsHarmless(r.worlds[k - 1], r.actions[k - 1], r.ttl, user, level, deadline);
    }
  }

  /** Every token there is at d is over a time-to-live after d. */
  lemma TokensEnd(r: Run, d: nat, user: Bytes, level: Permissions)
    requires r.Valid() && d < |r.worlds|
    ensures AllHarmless(r.worlds[d], user, level, r.worlds[d].clock + r.ttl)
  {
    hide Step, Enabled, LevelOf, ClaimsOf;
    forall token | token in r.worlds[d].tokens
      ensures r.worlds[d].tokens[token].expires <= r.worlds[d].clock + r.ttl
    {
      var p, q, m, id, password := WasSigned(r, d, token);
      ClockOnlyMovesOn(r, m, d);
    }
  }

  /** The answer to a is a verdict that identifies this user at the level held. */
  predicate Identifies(w: World, a: Action, user: Bytes, held: Permissions) {
    var answer := AnswerOf(w, a);
    answer.Some? && answer.value.Judgement? && answer.value.verdict.identity == Some(Claims(user, held))
  }

  lemma HarmlessIdentifies(w: World, a: Action, user: Bytes, level: Permissions, held: Permissions)
    requires NoneStale(w, user, level) && AllHarmless(w, user, level, w.clock) && Identifies(w, a, user, held)
    ensures held == level
  {
    hide Parse, LevelOf, CheckPassword, ClaimsOf;
  }

  /** e goes on from the end of r with the user's level as it is there, to i, a time-to-live later. */
  ghost predicate StandsUntil(e: Run, r: Run, i: nat, user: Bytes, level: Permissions)
    requires r.Valid()
  {
    var d := |r.actions|;
    && e.Valid() && e.ttl == r.ttl && r.actions <= e.actions && r.worlds <= e.worlds
    && d <= i < |e.actions|
    && (forall k :: d <= k <= i ==> LevelOf(e.worlds[k].users, user) == level)
    && e.worlds[d].clock + e.ttl <= e.worlds[i].clock
  }

  lemma RevokedByThen(e: Run, r: Run, i: nat, user: Bytes, level: Permissions, held: Permissions)
    requires r.Valid() && StandsUntil(e, r, i, user, level) && NoneStale(r.worlds[|r.actions|], user, level)
    requires Identifies(e.worlds[i], e.actions[i], user, held)
    ensures held == level
  {
    hide LevelOf, NoneStale, Step, Enabled, Identifies, Harmless;
    var d := |r.actions|;
    assert e.worlds[d] == r.worlds[d];
    TokensEnd(e, d, user, level);
    StaysHarmless(e, d, i, user, level, e.worlds[d].clock + e.ttl);
    LaterDeadline(e.worlds[i], user, level, e.worlds[d].clock + e.ttl, e.worlds[i].clock);
    HarmlessIdentifies(e.worlds[i], e.actions[i], user, level, held);
  }

  lemma LaterDeadline(w: World, user: Bytes, level: Permissions, deadline: int, later: int)
    requires AllHarmless(w, user, level, deadline) && deadline <= later
    ensures AllHarmless(w, user, level, later)
  {
    hide ClaimsOf;
  }

  // ---------- What a stale job goes on to do ----------

  function Last(r: Run): World
    requires |r.worlds| == |r.actions| + 1
  {
    r.worlds[|r.actions|]
  }

  function Extended(r: Run, a: Action): Run
    requires |r.worlds| == |r.actions| + 1 && Enabled(Last(r), a, r.ttl)
  {
    Run(r.worlds + [Step(Last(r), a, r.ttl)], r.actions + [a], r.ttl)
  }

  lemma ExtendedIsValid(r: Run, a: Action)
    requires r.Valid() && Enabled(Last(r), a, r.ttl)
    ensures Extended(r, a).Valid() && Last(Extended(r, a)) == Step(Last(r), a, r.ttl)
  {
    hide Enabled, Step;
  }

  lemma LongerThanAll(texts: set<Bytes>) returns (n: nat)
    ensures forall text :: text in texts ==> |text| < n
  {
    n := 0;
    if texts != {} {
      var text :| text in texts;
      n := LongerThanAll(texts - {text});
      n := if n <= |text| then |text| + 1 else n;
    }
  }

  /** There is always another text to sign, and a header to carry it. */
  lemma AnotherToken(tokens: Tokens) returns (token: Bytes, header: Bytes)
    ensures token !in tokens && token != [] && IsTrimmed(token) && Carries(header, BEARER, token)
  {
    var n := LongerThanAll(tokens.Keys);
    token := seq(n + 1, _ => 'a');
    header := BEARER + [' '] + token;
    assert header == [] + BEARER + [' '] + token + [];
    assert CarriesWith(header, BEARER, token, [], BEARER, [' '], []);
  }

  lemma FinishedRequestIdentifies(w: World, id: nat, user: Bytes, level: Permissions)
    requires id in w.jobs && Stale(w.jobs[id], user, level) && w.jobs[id].job.Request? && user != []
    ensures Identifies(w, Finish(id, []), user, w.jobs[id].claims.permissions)
  {
    hide Satisfies;
  }

  lemma SignedTokenIdentifies(w: World, id: nat, token: Bytes, header: Bytes, claims: Claims)
    requires token in w.tokens && ClaimsOf(w.tokens[token]) == claims && w.clock < w.tokens[token].expires
    requires token != [] && IsTrimmed(token) && Carries(header, BEARER, token)
    requires claims.user != [] && claims.permissions != NoPermissions
    ensures Identifies(w, Begin(id, Request(header, Requirement(claims.permissions, false)), false),
                       claims.user, claims.permissions)
  {
    hide Parse, Carries, IsTrimmed, StringToPermissions;
    TokenIsShown(w.tokens, w.clock, header, token);
  }

  /** The step at which a stale login signs leaves a token of its claims, and its user's level alone. */
  lemma FinishSigns(w: World, id: nat, token: Bytes, ttl: int)
    requires id in w.jobs && w.jobs[id].Ready? && w.jobs[id].job.Login? && token !in w.tokens
    ensures Enabled(w, Finish(id, token), ttl)
    ensures var w' := Step(w, Finish(id, token), ttl);
            && w'.users == w.users && w'.clock == w.clock && id !in w'.jobs && token in w'.tokens
            && w'.tokens[token].expires == w.clock + ttl && ClaimsOf(w'.tokens[token]) == w.jobs[id].claims
  {
    hide PermissionsToString, StringToPermissions;
    TokenSaysItsClaims(w.jobs[id].claims, w.clock + ttl);
  }

  lemma StaleHasName(r: Run, id: nat, user: Bytes, level: Permissions)
    requires r.Valid() && id in Last(r).jobs && Stale(Last(r).jobs[id], user, level)
    ensures user != []
  {
    hide Step, Enabled, Open, LevelOf, Carries, Encode;
    var p := WasOpened(r, |r.actions|, id);
  }

  /** r, and then a time-to-live with nothing going on. */
  lemma Waited(r: Run, user: Bytes, level: Permissions) returns (e: Run)
    requires r.Valid() && 0 < r.ttl && LevelOf(Last(r).users, user) == level
    ensures e.Valid() && e.ttl == r.ttl && r.actions <= e.actions && r.worlds <= e.worlds
    ensures |e.actions| == |r.actions| + 1 && Last(e) == Last(r).(clock := Last(r).clock + r.ttl)
    ensures forall k :: |r.actions| <= k < |e.worlds| ==> LevelOf(e.worlds[k].users, user) == level
  {
    hide LevelOf;
    ExtendedIsValid(r, Tick(r.ttl));
    e := Extended(r, Tick(r.ttl));
  }

  /** A login or a request that read another level before it changed uses it after any time at all. */
  lemma StaleJobOutlives(r: Run, id: nat, user: Bytes, level: Permissions) returns (e: Run, i: nat)
    requires r.Valid() && 0 < r.ttl && LevelOf(Last(r).users, user) == level
    requires id in Last(r).jobs && Stale(Last(r).jobs[id], user, level)
    ensures StandsUntil(e, r, i, user, level)
    ensures Identifies(e.worlds[i], e.actions[i], user, Last(r).jobs[id].claims.permissions)
  {
    hide LevelOf, Step, Enabled, Identifies, Satisfies, ClaimsOf, Carries, IsTrimmed;
    StaleHasName(r, id, user, level);
    var claims := Last(r).jobs[id].claims;
    var e1 := Waited(r, user, level);
    if Last(r).jobs[id].job.Request? {
      FinishedRequestIdentifies(Last(e1), id, user, level);
      FinishIsEnabled(Last(e1), id, r.ttl);
      ExtendedIsValid(e1, Finish(id, []));
      e, i := Extended(e1, Finish(id, [])), |r.actions| + 1;
    } else {
      var token, header := AnotherToken(Last(e1).tokens);
      FinishSigns(Last(e1), id, token, r.ttl);
      ExtendedIsValid(e1, Finish(id, token));
      var e2 := Extended(e1, Finish(id, token));
      SignedTokenIdentifies(Last(e2), id, token, header, claims);
      var request := Begin(id, Request(header, Requirement(claims.permissions, false)), false);
      BeginIsEnabled(Last(e2), request, r.ttl);
      ExtendedIsValid(e2, request);
      e, i := Extended(e2, request), |r.actions| + 2;
    }
  }

  lemma FinishIsEnabled(w: World, id: nat, ttl: int)
    requires id in w.jobs && w.jobs[id].Ready? && w.jobs[id].job.Request?
    ensures Enabled(w, Finish(id, []), ttl)
  {
  }

  lemma BeginIsEnabled(w: World, a: Action, ttl: int)
    requires a.Begin? && a.id !in w.jobs
    ensures Enabled(w, a, ttl)
  {
  }

  /**
   Taking a level away takes hold within one time-to-live exactly when nothing in flight has
   read another level that it can still use.  From the end of any run at which a user's level
   is this one: however the run goes on with the level unchanged, every identity given for the
   user a time-to-live later is at it, whatever tokens are about, if and only if no job is stale.
   */
  lemma RevocationTakesHold(r: Run, user: Bytes, level: Permissions)
    requires r.Valid() && 0 < r.ttl && LevelOf(Last(r).users, user) == level
    ensures (forall e: Run, i: nat, held: Permissions ::
               StandsUntil(e, r, i, user, level) && Identifies(e.worlds[i], e.actions[i], user, held) ==>
                 held == level)
            <==> NoneStale(Last(r), user, level)
  {
    hide LevelOf, Step, Enabled, Identifies, Satisfies;
    if NoneStale(Last(r), user, level) {
      forall e: Run, i: nat, held: Permissions |
          StandsUntil(e, r, i, user, level) && Identifies(e.worlds[i], e.actions[i], user, held)
        ensures held == level
      {
        RevokedByThen(e, r, i, user, level, held);
      }
    } else {
      var id :| id in Last(r).jobs && Stale(Last(r).jobs[id], user, level);
      var e, i := StaleJobOutlives(r, id, user, level);
    }
  }

  // ---------- One job alone is the sequential call ----------

  /** One job taken through its steps with nothing beside it: the world it leaves and the answer it gets. */
  function Alone(w: World, id: nat, job: Job, faults: Faults, signature: Bytes, ttl: int): (World, Option<Answer>)
    requires id !in w.jobs && signature !in w.tokens
  {
    var begin, read, finish := Begin(id, job, faults.check), ReadLevel(id, faults.read), Finish(id, signature);
    var w1 := Step(w, begin, ttl);
    if id !in w1.jobs then (w1, AnswerOf(w, begin)) else
    var w2 := Step(w1, read, ttl);
    if id !in w2.jobs then (w2, AnswerOf(w1, read)) else
    (Step(w2, finish, ttl), AnswerOf(w2, finish))
  }

  lemma AloneUnfolds(w: World, id: nat, job: Job, faults: Faults, signature: Bytes, ttl: int)
    requires id !in w.jobs && signature !in w.tokens
    ensures Alone(w, id, job, faults, signature, ttl)
            == match Open(w, job, faults.check)
               case Now(answer) => (w, Some(answer))
               case Later(user) =>
                 if faults.read then (w, Some(Failed(job, ServerError))) else
                 var claims := Claims(user, LevelOf(w.users, user));
                 match job
                 case Login(_, _) =>
                   (w.(tokens := w.tokens[signature := TokenFor(claims, w.clock + ttl)]), Some(Issued(signature)))
                 case Request(_, requirement) =>
                   (w, Some(Judgement(Judged(requirement, Outcome(Authenticated, Some(claims))))))
  {
    hide Open, LevelOf, TokenFor, Judged, Failed;
    var opening := Open(w, job, faults.check);
    if opening.Later? {
      var claims := Claims(opening.user, LevelOf(w.users, opening.user));
      JobsReturn(w.jobs, id, Checked(job, opening.user), Ready(job, claims));
    }
  }

  lemma JobsReturn(jobs: map<nat, Stage>, id: nat, s: Stage, t: Stage)
    requires id !in jobs
    ensures jobs[id := s] - {id} == jobs && jobs[id := s][id := t] - {id} == jobs
  {
  }

  /** A login that nothing interrupts signs and answers what the sequential call does. */
  lemma LoginAlone(w: World, id: nat, user: Bytes, password: Bytes, faults: Faults, signature: Bytes, ttl: int)
    requires id !in w.jobs && signature !in w.tokens
    ensures var outcome := PasswordOutcome(w.users, w.users, user, password, faults);
            Alone(w, id, Login(user, password), faults, signature, ttl)
            == if user == [] then (w, Some(Threw))
               else if outcome.result != Authenticated then (w, Some(Denied(outcome.result)))
               else (w.(tokens := w.tokens[signature := TokenFor(outcome.claims.value, w.clock + ttl)]),
                     Some(Issued(signature)))
  {
    AloneUnfolds(w, id, Login(user, password), faults, signature, ttl);
    hide LevelOf, TokenFor, Alone;
  }

  /** And a request is judged as the sequential call judges it. */
  lemma RequestAlone(w: World, id: nat, header: Bytes, requirement: Requirement, faults: Faults, signature: Bytes,
                     ttl: int)
    requires id !in w.jobs && signature !in w.tokens
    ensures Alone(w, id, Request(header, requirement), faults, signature, ttl)
            == (w, Some(Judgement(Authorized(w.users, w.users, w.tokens, w.clock, header, requirement, faults))))
  {
    hide Alone, Open, LevelOf, Authorized, Judged;
    AloneUnfolds(w, id, Request(header, requirement), faults, signature, ttl);
    if Open(w, Request(header, requirement), faults.check).Now? {
      AnsweredAtOnce(w, header, requirement, faults);
    } else {
      NoFaultYet(w, header, requirement, faults.check);
      AnsweredLater(w, w.users, header, requirement, faults.read);
    }
  }

  lemma NoFaultYet(w: World, header: Bytes, requirement: Requirement, fault: bool)
    requires Open(w, Request(header, requirement), fault).Later?
    ensures !fault
  {
    OpeningShowsPassword(w, Request(header, requirement), fault);
  }
}
