/**
 * The auth service's handlers (packages/identity/src/auth-service.ts). A handler
 * awaits between its statements, so those of different requests interleave: each is
 * an act of its own here, and a run is any sequence of acts. The handlers themselves
 * are methods, each leaving what its own acts leave when nothing comes between them.
 * Emails arrive trimmed and lowercased; a password is compared with the stored one
 * in place of its hash.
 */
module AuthService {
  import opened Wrappers
  import RateLimit
  import opened RefreshTokens
  import ActivationCodes
  import TabSessions

  /* ------------------------------- acts and their runs ---------------------------- */

  /**
   * A request that was let in and has yet to store its token: whose it is, and how
   * often that user's password had been set when the password behind it was checked.
   */
  datatype Grant = Grant(userId: string, era: nat)

  /** `earned` remembers the era of every token ever stored. */
  datatype State = State(rows: Table, grants: map<nat, Grant>, eras: map<string, nat>, earned: map<string, nat>)

  datatype Act =
    | Verified(id: nat, userId: string)
    | Presented(id: nat, hash: string, now: int)
    | Purged(now: int)
    | Issued(id: nat, hash: string, expiresAt: int)
    | Dropped(id: nat)
    | PasswordSet(userId: string)
    | Revoked(userId: string)

  function Era(s: State, userId: string): nat {
    if userId in s.eras then s.eras[userId] else 0
  }

  function Earned(s: State, hash: string): nat {
    if hash in s.earned then s.earned[hash] else 0
  }

  predicate Possible(s: State, a: Act) {
    match a
    case Verified(id, _) => id !in s.grants
    case Presented(id, _, _) => id !in s.grants
    case Issued(id, hash, _) => id in s.grants && hash !in s.rows && hash !in s.earned
    case Dropped(id) => id in s.grants
    case _ => true
  }

  function NextState(s: State, a: Act): State
    requires Possible(s, a)
  {
    match a
    case Verified(id, userId) => s.(grants := s.grants[id := Grant(userId, Era(s, userId))])
    case Presented(id, hash, now) =>
      var answer := Answer(s.rows, hash, now);
      s.(rows := Next(s.rows, Consume(hash, now)),
         grants := if answer.Accepted? then s.grants[id := Grant(answer.userId, Earned(s, hash))] else s.grants)
    case Purged(now) => s.(rows := Next(s.rows, Purge(now)))
    case Issued(id, hash, expiresAt) =>
      s.(rows := Next(s.rows, Insert(s.grants[id].userId, hash, expiresAt)),
         grants := s.grants - {id}, earned := s.earned[hash := s.grants[id].era])
    case Dropped(id) => s.(grants := s.grants - {id})
    case PasswordSet(userId) => s.(eras := s.eras[userId := Era(s, userId) + 1])
    case Revoked(userId) => s.(rows := Next(s.rows, Revoke(userId)))
  }

  /** An act that cannot happen here is no act. */
  function StateAfter(s: State, a: Act): State {
    if Possible(s, a) then NextState(s, a) else s
  }

  function RunOf(s: State, acts: seq<Act>): State
    decreases |acts|
  {
    if acts == [] then s else RunOf(StateAfter(s, acts[0]), acts[1..])
  }

  /* --------------------------- a reset and what outlives it ------------------------- */

  /** The act lets in a token of the user that a password before `era` earned. */
  predicate LetsInOld(s: State, a: Act, userId: string, era: nat) {
    a.Presented? && Possible(s, a) && Answer(s.rows, a.hash, a.now) == Accepted(userId) && Earned(s, a.hash) < era
  }

  predicate NeverLetsInOld(s: State, acts: seq<Act>, userId: string, era: nat)
    decreases |acts|
  {
    acts == [] || (!LetsInOld(s, acts[0], userId, era) && NeverLetsInOld(StateAfter(s, acts[0]), acts[1..], userId, era))
  }

  /** A sign-in or refresh of the user, let in by an earlier password, has its token outstanding. */
  predicate OldGrantOutstanding(s: State, userId: string) {
    exists id | id in s.grants :: s.grants[id].userId == userId && s.grants[id].era < Era(s, userId)
  }

  ghost predicate NothingOld(s: State, userId: string, era: nat) {
    && era <= Era(s, userId)
    && (forall h | h in s.rows && s.rows[h].userId == userId :: Earned(s, h) >= era)
    && (forall id | id in s.grants && s.grants[id].userId == userId :: s.grants[id].era >= era)
  }

  lemma StaysFree(s: State, a: Act, userId: string, era: nat)
    requires NothingOld(s, userId, era)
    ensures NothingOld(StateAfter(s, a), userId, era) && !LetsInOld(s, a, userId, era)
  {
  }

  lemma {:induction false} RunStaysFree(s: State, acts: seq<Act>, userId: string, era: nat)
    requires NothingOld(s, userId, era)
    ensures NeverLetsInOld(s, acts, userId, era)
    decreases |acts|
  {
    if acts != [] {
      StaysFree(s, acts[0], userId, era);
      RunStaysFree(StateAfter(s, acts[0]), acts[1..], userId, era);
    }
  }

  lemma {:induction false} LongerThanAll(taken: set<string>) returns (n: nat)
    ensures forall t | t in taken :: |t| < n
    decreases |taken|
  {
    n := 0;
    if taken != {} {
      var t :| t in taken;
      n := LongerThanAll(taken - {t});
      n := if n <= |t| then |t| + 1 else n;
    }
  }

  lemma NewToken(s: State) returns (hash: string)
    ensures hash !in s.rows && hash !in s.earned
  {
    var n := LongerThanAll(s.rows.Keys + s.earned.Keys);
    hash := seq(n, _ => 'a');
  }

  /** The outstanding token is stored after the revocation, and the next refresh is let in with it. */
  lemma OutstandingOutlives(s: State, userId: string) returns (acts: seq<Act>)
    requires OldGrantOutstanding(s, userId)
    ensures !NeverLetsInOld(StateAfter(s, Revoked(userId)), acts, userId, Era(s, userId))
  {
    var id :| id in s.grants && s.grants[id].userId == userId && s.grants[id].era < Era(s, userId);
    var hash := NewToken(s);
    var issued, presented := Issued(id, hash, 0), Presented(id, hash, 0);
    acts := [issued, presented];
    assert acts[1..][0] == presented;
    assert LetsInOld(StateAfter(StateAfter(s, Revoked(userId)), issued), presented, userId, Era(s, userId));
  }

  /**
   * A reset sets the password and then revokes. From the revocation on, no run ever lets
   * in a token that an earlier password earned exactly when, at the revocation, no
   * sign-in or refresh which an earlier password let in has its token outstanding.
   */
  lemma ResetIsFinalIff(s: State, userId: string)
    ensures (forall acts: seq<Act> :: NeverLetsInOld(StateAfter(s, Revoked(userId)), acts, userId, Era(s, userId)))
            <==> !OldGrantOutstanding(s, userId)
  {
    var after := StateAfter(s, Revoked(userId));
    if OldGrantOutstanding(s, userId) {
      var acts := OutstandingOutlives(s, userId);
    } else {
      forall acts: seq<Act> ensures NeverLetsInOld(after, acts, userId, Era(s, userId)) {
        RunStaysFree(after, acts, userId, Era(s, userId));
      }
    }
  }

  /** The run itself: a refresh is let in, the reset sets the password and revokes, the refresh stores its token. */
  lemma RefreshOutlivesReset(s: State, cookie: string, token: string, now: int, expiresAt: int)
    requires s.grants == map[] && Answer(s.rows, cookie, now).Accepted? && Earned(s, cookie) <= Era(s, s.rows[cookie].userId)
    requires token !in s.rows && token !in s.earned && now <= expiresAt
    ensures var userId := s.rows[cookie].userId;
            var reset := StateAfter(StateAfter(StateAfter(s, Presented(0, cookie, now)), PasswordSet(userId)), Revoked(userId));
            && (forall h | h in reset.rows :: reset.rows[h].userId != userId)
            && OldGrantOutstanding(reset, userId)
            && LetsInOld(StateAfter(reset, Issued(0, token, expiresAt)), Presented(1, token, now), userId, Era(reset, userId))
  {
    var userId := s.rows[cookie].userId;
    var reset := StateAfter(StateAfter(StateAfter(s, Presented(0, cookie, now)), PasswordSet(userId)), Revoked(userId));
    assert reset.grants[0].userId == userId && reset.grants[0].era < Era(reset, userId);
  }

  /* ------------------------- one session for each sign-in --------------------------- */

  /** The tokens that can still be exchanged. */
  function Live(rows: Table): set<string> {
    set h | h in rows && !rows[h].consumed
  }

  /** Sessions there are, and those about to be. */
  function Sessions(s: State): nat {
    |Live(s.rows)| + |s.grants.Keys|
  }

  function SignIns(s: State, acts: seq<Act>): nat
    decreases |acts|
  {
    if acts == [] then 0
    else (if acts[0].Verified? && Possible(s, acts[0]) then 1 else 0) + SignIns(StateAfter(s, acts[0]), acts[1..])
  }

  lemma SmallerSet<T>(a: set<T>, b: set<T>)
    requires a <= b
    ensures |a| <= |b|
  {
    if a != b {
      assert b == a + (b - a);
    }
  }

  /** Accepting a token spends it: the grant it makes takes its place. */
  lemma ConsumeSpends(rows: Table, hash: string, now: int)
    ensures var after := Next(rows, Consume(hash, now));
            |Live(after)| + (if Answer(rows, hash, now).Accepted? then 1 else 0) <= |Live(rows)|
  {
    var after := Next(rows, Consume(hash, now));
    if Answer(rows, hash, now).Accepted? {
      assert Live(after) == Live(rows) - {hash};
    } else {
      SmallerSet(Live(after), Live(rows));
    }
  }

  lemma RemovalLeavesFewer(rows: Table, step: Step)
    requires step.Purge? || step.Revoke?
    ensures |Live(Next(rows, step))| <= |Live(rows)|
  {
    SmallerSet(Live(Next(rows, step)), Live(rows));
  }

  lemma IssueAddsOne(rows: Table, userId: string, hash: string, expiresAt: int)
    requires hash !in rows
    ensures |Live(Next(rows, Insert(userId, hash, expiresAt)))| == |Live(rows)| + 1
  {
    assert Live(Next(rows, Insert(userId, hash, expiresAt))) == Live(rows) + {hash};
  }

  lemma GrantAdded(s: State, id: nat, g: Grant)
    requires id !in s.grants
    ensures |s.grants[id := g].Keys| == |s.grants.Keys| + 1
  {
    assert s.grants[id := g].Keys == s.grants.Keys + {id};
  }

  lemma GrantGone(s: State, id: nat)
    requires id in s.grants
    ensures |s.grants.Keys| == |(s.grants - {id}).Keys| + 1
  {
    assert (s.grants - {id}).Keys == s.grants.Keys - {id};
  }

  lemma PresentedConserves(s: State, id: nat, hash: string, now: int)
    requires Possible(s, Presented(id, hash, now))
    ensures Sessions(NextState(s, Presented(id, hash, now))) <= Sessions(s)
  {
    ConsumeSpends(s.rows, hash, now);
    if Answer(s.rows, hash, now).Accepted? {
      GrantAdded(s, id, Grant(s.rows[hash].userId, Earned(s, hash)));
    }
  }

  lemma ActConserves(s: State, a: Act)
    requires Possible(s, a)
    ensures Sessions(NextState(s, a)) <= Sessions(s) + if a.Verified? then 1 else 0
  {
    match a
    case Verified(id, userId) => GrantAdded(s, id, Grant(userId, Era(s, userId)));
    case Presented(id, hash, now) => PresentedConserves(s, id, hash, now);
    case Issued(id, hash, expiresAt) =>
      IssueAddsOne(s.rows, s.grants[id].userId, hash, expiresAt);
      GrantGone(s, id);
    case Purged(now) => RemovalLeavesFewer(s.rows, Purge(now));
    case Dropped(id) => GrantGone(s, id);
    case PasswordSet(_) =>
    case Revoked(userId) => RemovalLeavesFewer(s.rows, Revoke(userId));
  }

  /** A run in which no password is checked adds no session, and one act adds at most one. */
  lemma {:induction false} OnlyChecksAdd(s: State, acts: seq<Act>)
    ensures (forall k | 0 <= k < |acts| :: !acts[k].Verified?) ==> SignIns(s, acts) == 0
    ensures SignIns(s, acts) <= |acts|
    decreases |acts|
  {
    if acts != [] {
      assert forall k | 0 <= k < |acts[1..]| :: acts[1..][k] == acts[k + 1];
      OnlyChecksAdd(StateAfter(s, acts[0]), acts[1..]);
    }
  }

  /** However refreshes interleave, tokens are exchanged one for one: only a checked password adds a session. */
  lemma {:induction false} RunConserves(s: State, acts: seq<Act>)
    ensures Sessions(RunOf(s, acts)) <= Sessions(s) + SignIns(s, acts)
    decreases |acts|
  {
    if acts != [] {
      if Possible(s, acts[0]) {
        ActConserves(s, acts[0]);
      }
      RunConserves(StateAfter(s, acts[0]), acts[1..]);
    }
  }

  /* ---------------------------------- the handlers ---------------------------------- */

  datatype User = User(id: string, password: Option<string>)

  datatype Refusal = MissingFields | TooManyAttempts | Unauthenticated

  const REFRESH_TOKEN_TTL_MS := 7 * 24 * 60 * 60 * 1000

  predicate SignsIn(users: map<string, User>, email: string, password: string) {
    email in users && users[email].password == Some(password)
  }

  /** The user's password replaced, whatever it was; nobody else's is touched. */
  function WithPassword(users: map<string, User>, userId: string, password: string): map<string, User> {
    map e | e in users :: if users[e].id == userId then users[e].(password := Some(password)) else users[e]
  }

  /** A session issued: expired rows go, the new token is stored. */
  function Issuing(token: string, now: int): seq<Act> {
    [Purged(now), Issued(0, token, now + REFRESH_TOKEN_TTL_MS)]
  }

  lemma RunFrom(s: State, acts: seq<Act>, a: Act, rest: seq<Act>)
    requires acts == [a] + rest
    ensures RunOf(s, acts) == RunOf(StateAfter(s, a), rest)
  {
    assert acts[1..] == rest;
  }

  lemma RunTwo(s: State, a: Act, b: Act)
    ensures RunOf(s, [a, b]) == StateAfter(StateAfter(s, a), b)
  {
    RunFrom(s, [a, b], a, [b]);
    RunFrom(StateAfter(s, a), [b], b, []);
  }

  /**
   * Missing fields, no budget and bad credentials are refused, the last alike for an
   * unknown email, a user without a password and a wrong one; only the last costs budget.
   */
  predicate Admits(c: RateLimit.Config, before: RateLimit.Limiter, users: map<string, User>, email: string,
                   password: string, now: int, r: Result<string, Refusal>, after: RateLimit.Limiter) {
    var (checked, d) := RateLimit.Check(c, before, email, now, true);
    if email == "" || password == "" then r == Err(MissingFields) && after == before
    else
      && r != Err(MissingFields)
      && (r == Err(TooManyAttempts) <==> d.Denied?)
      && (r == Err(Unauthenticated) <==> d.Allowed? && !SignsIn(users, email, password))
      && (r.Ok? ==> SignsIn(users, email, password) && r.value == users[email].id)
      && after ==
         if d.Denied? then checked
         else if r.Ok? then RateLimit.RecordSuccess(checked, email)
         else RateLimit.RecordFailure(c, checked, email, now, true)
  }

  /** These rules leave one answer and one limiter. */
  lemma AdmitsOne(c: RateLimit.Config, before: RateLimit.Limiter, users: map<string, User>, email: string, password: string,
                  now: int, r: Result<string, Refusal>, after: RateLimit.Limiter, other: Result<string, Refusal>,
                  otherAfter: RateLimit.Limiter)
    requires Admits(c, before, users, email, password, now, r, after)
    requires Admits(c, before, users, email, password, now, other, otherAfter)
    ensures r == other && after == otherAfter
    ensures r.Ok? <==> email != "" && password != "" && RateLimit.Check(c, before, email, now, true).1.Allowed?
                       && email in users && users[email].password == Some(password)
  {
    assert r.Err? ==> r.error.MissingFields? || r.error.TooManyAttempts? || r.error.Unauthenticated?;
    assert other.Err? ==> other.error.MissingFields? || other.error.TooManyAttempts? || other.error.Unauthenticated?;
  }

  class Service {
    const tokens: RefreshTokenStore
    const codes: ActivationCodes.ActivationCodeStore
    const limiter: RateLimit.MemoryRateLimiter
    var users: map<string, User>
    /** The state the acts so far have led to; no grant is outstanding between calls. */
    ghost var state: State

    ghost predicate Valid()
      reads this, limiter, codes, tokens
    {
      RateLimit.Sensible(limiter.config) && codes.Valid() && state.rows == tokens.rows && state.grants == map[]
    }

    constructor (tokens: RefreshTokenStore, codes: ActivationCodes.ActivationCodeStore,
                 limiter: RateLimit.MemoryRateLimiter, users: map<string, User>)
      requires RateLimit.Sensible(limiter.config) && codes.Valid()
      ensures Valid() && this.tokens == tokens && this.codes == codes && this.limiter == limiter && this.users == users
    {
      this.tokens, this.codes, this.limiter, this.users := tokens, codes, limiter, users;
      state := State(tokens.rows, map[], map[], map[]);
    }

    /** New tokens are new. */
    ghost predicate NeverIssued(token: string)
      reads this, tokens
    {
      token !in tokens.rows && token !in state.earned
    }

    /** The user's new token is good for the next 604800 seconds. */
    predicate StoredForAWeek(userId: string, token: string, now: int)
      reads tokens
    {
      token in tokens.rows && tokens.rows[token] == Row(userId, now + 604800000, false)
    }

    method IssueSession(userId: string, token: string, now: int)
      requires state.grants.Keys == {0} && state.grants[0].userId == userId
      requires state.rows == tokens.rows && NeverIssued(token)
      modifies this`state, tokens
      ensures state == RunOf(old(state), Issuing(token, now))
      ensures state.rows == tokens.rows && state.grants == map[] && StoredForAWeek(userId, token, now)
    {
      RunTwo(state, Purged(now), Issued(0, token, now + REFRESH_TOKEN_TTL_MS));
      ghost var steps := [Purge(now), Insert(userId, token, now + REFRESH_TOKEN_TTL_MS)];
      assert TableAt(tokens.rows, steps, 1) == Next(TableAt(tokens.rows, steps, 0), steps[0]);
      var stored := tokens.Insert(userId, token, now + REFRESH_TOKEN_TTL_MS, now);
      state := RunOf(state, Issuing(token, now));
    }

    method StartSession(userId: string, token: string, now: int)
      requires Valid() && NeverIssued(token)
      modifies this`state, tokens
      ensures Valid() && state == RunOf(old(state), [Verified(0, userId)] + Issuing(token, now))
      ensures StoredForAWeek(userId, token, now)
    {
      RunFrom(state, [Verified(0, userId)] + Issuing(token, now), Verified(0, userId), Issuing(token, now));
      state := StateAfter(state, Verified(0, userId));
      IssueSession(userId, token, now);
    }

    /** Up to the decision: the fields, the limiter, the credentials. */
    method Admit(email: string, password: string, now: int) returns (r: Result<string, Refusal>)
      requires RateLimit.Sensible(limiter.config)
      modifies limiter
      ensures Admits(limiter.config, old(limiter.View()), users, email, password, now, r, limiter.View())
    {
      if email == "" || password == "" {
        return Err(MissingFields);
      }
      var budget := limiter.Check(email, now);
      if budget.Denied? {
        return Err(TooManyAttempts);
      }
      if email !in users || users[email].password != Some(password) {
        limiter.RecordFailure(email, now);
        return Err(Unauthenticated);
      }
      limiter.RecordSuccess(email);
      r := Ok(users[email].id);
    }

    /** A sign-in is let in or refused, and a session issued exactly when it is let in. */
    method Login(email: string, password: string, token: string, now: int) returns (r: Result<string, Refusal>)
      requires Valid() && NeverIssued(token)
      modifies this`state, tokens, limiter
      ensures Valid()
      ensures Admits(limiter.config, old(limiter.View()), users, email, password, now, r, limiter.View())
      ensures r.Ok? ==> state == RunOf(old(state), [Verified(0, r.value)] + Issuing(token, now))
                        && StoredForAWeek(r.value, token, now)
      ensures r.Err? ==> state == old(state)
    {
      r := Admit(email, password, now);
      if r.Ok? {
        StartSession(r.value, token, now);
      }
    }

    predicate Knows(userId: string)
      reads this`users
    {
      exists e | e in users :: users[e].id == userId
    }

    /** A consumed token tells the reuse from the rest; a user gone since ends like an expired session. */
    method Refresh(cookie: Option<string>, token: string, now: int) returns (reply: TabSessions.Reply)
      requires Valid() && NeverIssued(token)
      modifies this`state, tokens
      ensures Valid()
      ensures reply == TabSessions.NoSession <==> cookie.None?
      ensures cookie.None? ==> state == old(state)
      ensures cookie.Some? ==>
                var answer, presented := Answer(old(tokens.rows), cookie.value, now), Presented(0, cookie.value, now);
                var renewed := answer.Accepted? && exists e | e in users :: users[e].id == answer.userId;
                && reply == (if renewed then TabSessions.Renewed(token)
                             else TabSessions.Ended(if answer.Reused? then TabSessions.REUSE_NOTICE
                                                    else TabSessions.EXPIRED_NOTICE))
                && state == RunOf(old(state), [presented] + if renewed then Issuing(token, now) else [Dropped(0)])
                && (renewed ==> StoredForAWeek(answer.userId, token, now))
    {
      if cookie.None? {
        return TabSessions.NoSession;
      }
      ghost var presented := Presented(0, cookie.value, now);
      RunFrom(state, [presented] + Issuing(token, now), presented, Issuing(token, now));
      RunTwo(state, presented, Dropped(0));
      var answer := tokens.Consume(cookie.value, now);
      state := StateAfter(state, presented);
      if answer.Accepted? && Knows(answer.userId) {
        ghost var e :| e in users && users[e].id == answer.userId;
        IssueSession(answer.userId, token, now);
        assert users[e].id == answer.userId;
        return TabSessions.Renewed(token);
      }
      state := StateAfter(state, Dropped(0));
      reply := TabSessions.Ended(if answer.Reused? then TabSessions.REUSE_NOTICE else TabSessions.EXPIRED_NOTICE);
    }

    /** The token is consumed, not deleted, so a later replay of it is still caught. */
    method Logout(cookie: Option<string>, now: int)
      requires Valid()
      modifies this`state, tokens
      ensures Valid()
      ensures state == if cookie.None? then old(state)
                       else RunOf(old(state), [Presented(0, cookie.value, now), Dropped(0)])
    {
      if cookie.Some? {
        RunTwo(state, Presented(0, cookie.value, now), Dropped(0));
        var answer := tokens.Consume(cookie.value, now);
        state := RunOf(state, [Presented(0, cookie.value, now), Dropped(0)]);
      }
    }

    /** A redeemed code sets the password and ends every session of its user; a refused one costs a failure. */
    method RedeemActivationCode(code: string, newPassword: string, now: int) returns (r: Result<string, Refusal>)
      requires Valid()
      modifies this`users, this`state, tokens, codes, limiter
      ensures Valid()
      ensures r == Err(MissingFields) <==> code == "" || |newPassword| < 8
      ensures r == Err(MissingFields) ==> limiter.View() == old(limiter.View())
      ensures var (checked, d) := RateLimit.Check(limiter.config, old(limiter.View()), "redeem:" + code, now, true);
              r != Err(MissingFields) ==>
                && (r == Err(TooManyAttempts) <==> d.Denied?)
                && limiter.View() == if r == Err(Unauthenticated)
                     then RateLimit.RecordFailure(limiter.config, checked, "redeem:" + code, now, true) else checked
      ensures r.Ok? ==>
                && ActivationCodes.Answers(old(codes.codes), code, now, r.value)
                && state == RunOf(old(state), [PasswordSet(r.value), Revoked(r.value)])
                && users.Keys == old(users).Keys
                && (forall e | e in old(users) ::
                      users[e] == if old(users)[e].id == r.value then User(r.value, Some(newPassword)) else old(users)[e])
                && (forall e, p | e in old(users) && old(users)[e].id == r.value ::
                      SignsIn(users, e, p) <==> p == newPassword)
      ensures r.Err? ==> state == old(state) && users == old(users)
      ensures r == Err(Unauthenticated) ==> !exists u :: ActivationCodes.Answers(old(codes.codes), code, now, u)
      ensures codes.codes == if r.Ok? || r == Err(Unauthenticated)
                             then ActivationCodes.Next(old(codes.codes), ActivationCodes.Redeem(code, now))
                             else old(codes.codes)
    {
      if code == "" || |newPassword| < 8 {
        return Err(MissingFields);
      }
      var budget := limiter.Check("redeem:" + code, now);
      if budget.Denied? {
        return Err(TooManyAttempts);
      }
      var consumed := codes.Consume(code, now);
      if consumed.None? {
        limiter.RecordFailure("redeem:" + code, now);
        return Err(Unauthenticated);
      }
      users := WithPassword(users, consumed.value, newPassword);
      tokens.RevokeAllForUser(consumed.value);
      RunTwo(state, PasswordSet(consumed.value), Revoked(consumed.value));
      state := RunOf(state, [PasswordSet(consumed.value), Revoked(consumed.value)]);
      r := Ok(consumed.value);
    }
  }
}
