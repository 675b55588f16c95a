/**
 * Many tabs of one browser and the refresh cookie they share
 * (apps/law/web/src/session/session.ts and tab-coordination.ts against
 * packages/identity/src/auth-service.ts). Every request, server statement,
 * answer and broadcast delivery is a step of its own, so a run is any
 * interleaving of them.
 */
module TabSessions {
  import opened Wrappers
  import opened RefreshTokens
  import opened SessionKit

  /* ------------------------------- the cookie jar ------------------------------- */

  datatype Reply =
    | Renewed(token: string)
    | Ended(notice: string)
    | NoSession

  /** The refresh under the lock: who holds it and how far the exchange has got. */
  datatype Exchange =
    | Free
    | Locked(tab: nat)
    | Requested(tab: nat, presented: Option<string>)
    | Rotating(tab: nat, presented: Option<string>, userId: string)
    | Replied(tab: nat, presented: Option<string>, reply: Reply)

  /** A sign-in takes no lock; once answered it carries its token to the browser. */
  datatype SignIn = SignIn(tab: nat, token: Option<string>)

  datatype Stage = Sent | Answered | Abandoned

  /**
   * A sign-out takes no lock either; it presents the cookie it was sent with. So does a
   * refresh whose fetch failed or whose tab closed: the lock is free again and nobody
   * waits for the answer, but the request may still reach the server.
   */
  datatype Call = Call(tab: nat, presented: Option<string>, stage: Stage)

  /**
   * The server's rows, the browser's cookie and every exchange in flight.
   * `issued` collects the tokens this browser was ever given, `alarms` counts
   * the times a token it presented was answered "reused".
   */
  datatype Jar = Jar(
    rows: Table,
    cookie: Option<string>,
    exchange: Exchange,
    signIns: map<nat, SignIn>,
    calls: map<nat, Call>,
    issued: set<string>,
    alarms: nat)

  datatype Event =
    | Acquire(tab: nat)
    | Ask(nowMs: int)
    | Rotate(now: int)
    | Renew(token: string, expiresAt: int, accountExists: bool)
    | Receive(access: string, expiresAtMs: int)
    | Lose
    | Abandon(id: nat)
    | StartSignIn(id: nat, tab: nat)
    | AnswerSignIn(id: nat, userId: string, token: string, expiresAt: int)
    | ReceiveSignIn(id: nat, access: string, expiresAtMs: int)
    | LoseSignIn(id: nat)
    | StartSignOut(id: nat, tab: nat)
    | AbandonSignOut(id: nat)
    | Handle(id: nat, now: int)
    | ReceiveSignOut(id: nat)
    | LoseCall(id: nat)
    | Deliver(tab: nat)
    | Invalidate(tab: nat)
    | Hydrate(tab: nat)
    | Elsewhere(step: Step)

  const REUSE_NOTICE := "Your session was ended for security reasons. Sign in again."
  const EXPIRED_NOTICE := "Your session has expired. Sign in again."

  function Alarm(rows: Table, presented: Option<string>, now: int): nat {
    if presented.Some? && Answer(rows, presented.value, now).Reused? then 1 else 0
  }

  function Presenting(rows: Table, presented: Option<string>, now: int): Table {
    if presented.Some? then AfterConsume(rows, presented.value, now) else rows
  }

  /** The server's handling of a refresh up to and including the consume. */
  function Consumed(x: Exchange, rows: Table, now: int): Exchange
    requires x.Requested?
  {
    if x.presented.None? then Replied(x.tab, None, NoSession)
    else
      match Answer(rows, x.presented.value, now)
      case Accepted(userId) => Rotating(x.tab, x.presented, userId)
      case Reused(_) => Replied(x.tab, x.presented, Ended(REUSE_NOTICE))
      case Invalid => Replied(x.tab, x.presented, Ended(EXPIRED_NOTICE))
  }

  function CookieAfter(cookie: Option<string>, reply: Reply): Option<string> {
    match reply
    case Renewed(token) => Some(token)
    case Ended(_) => None
    case NoSession => cookie
  }

  /** The step can happen here at all. */
  predicate Enabled(j: Jar, e: Event) {
    match e
    case Acquire(_) => j.exchange.Free?
    case Ask(_) => j.exchange.Locked?
    case Rotate(_) => j.exchange.Requested?
    case Renew(_, _, _) => j.exchange.Rotating?
    case Receive(_, _) => j.exchange.Replied?
    case Lose => j.exchange.Requested? || j.exchange.Rotating? || j.exchange.Replied?
    case Abandon(id) => j.exchange.Requested? && id !in j.calls
    case StartSignIn(id, _) => id !in j.signIns
    case AnswerSignIn(id, _, _, _) => id in j.signIns && j.signIns[id].token.None?
    case ReceiveSignIn(id, _, _) => id in j.signIns && j.signIns[id].token.Some?
    case LoseSignIn(id) => id in j.signIns
    case StartSignOut(id, _) => id !in j.calls
    case AbandonSignOut(id) => id in j.calls && j.calls[id].stage.Sent?
    case Handle(id, _) => id in j.calls && !j.calls[id].stage.Answered?
    case ReceiveSignOut(id) => id in j.calls && j.calls[id].stage.Answered?
    case LoseCall(id) => id in j.calls
    case Deliver(_) => true
    case Invalidate(_) => true
    case Hydrate(_) => true
    case Elsewhere(_) => true
  }

  /** `usable`: the tab holding the lock already has a usable access token. */
  function NextJar(j: Jar, e: Event, usable: bool): Jar
    requires Enabled(j, e)
  {
    match e
    case Acquire(tab) => j.(exchange := Locked(tab))
    case Ask(_) => j.(exchange := if usable then Free else Requested(j.exchange.tab, j.cookie))
    case Rotate(now) =>
      j.(rows := Presenting(j.rows, j.exchange.presented, now),
         exchange := Consumed(j.exchange, j.rows, now),
         alarms := j.alarms + Alarm(j.rows, j.exchange.presented, now))
    case Renew(token, expiresAt, accountExists) =>
      if accountExists then
        j.(rows := Next(j.rows, Insert(j.exchange.userId, token, expiresAt)),
           exchange := Replied(j.exchange.tab, j.exchange.presented, Renewed(token)),
           issued := j.issued + {token})
      else j.(exchange := Replied(j.exchange.tab, j.exchange.presented, Ended(EXPIRED_NOTICE)))
    case Receive(_, _) => j.(cookie := CookieAfter(j.cookie, j.exchange.reply), exchange := Free)
    case Lose => j.(exchange := Free)
    case Abandon(id) =>
      j.(exchange := Free, calls := j.calls[id := Call(j.exchange.tab, j.exchange.presented, Abandoned)])
    case StartSignIn(id, tab) => j.(signIns := j.signIns[id := SignIn(tab, None)])
    case AnswerSignIn(id, userId, token, expiresAt) =>
      j.(rows := Next(j.rows, Insert(userId, token, expiresAt)),
         signIns := j.signIns[id := SignIn(j.signIns[id].tab, Some(token))],
         issued := j.issued + {token})
    case ReceiveSignIn(id, _, _) => j.(cookie := j.signIns[id].token, signIns := j.signIns - {id})
    case LoseSignIn(id) => j.(signIns := j.signIns - {id})
    case StartSignOut(id, tab) => j.(calls := j.calls[id := Call(tab, j.cookie, Sent)])
    case AbandonSignOut(id) => j.(calls := j.calls[id := j.calls[id].(stage := Abandoned)])
    case Handle(id, now) =>
      j.(rows := Presenting(j.rows, j.calls[id].presented, now),
         calls := if j.calls[id].stage.Sent? then j.calls[id := j.calls[id].(stage := Answered)] else j.calls - {id},
         alarms := j.alarms + Alarm(j.rows, j.calls[id].presented, now))
    case ReceiveSignOut(id) => j.(cookie := None, calls := j.calls - {id})
    case LoseCall(id) => j.(calls := j.calls - {id})
    case Deliver(_) => j
    case Invalidate(_) => j
    case Hydrate(_) => j
    case Elsewhere(step) => j.(rows := Next(j.rows, step))
  }

  /** The server takes the presented token: it is stored, unspent and in time. */
  predicate Accepts(rows: Table, presented: Option<string>, now: int) {
    presented.Some? && Answer(rows, presented.value, now).Accepted?
  }

  /** The answer on its way back replaces the cookie it was asked with. */
  predicate WillReplace(x: Exchange) {
    x.Rotating? || (x.Replied? && !x.reply.NoSession?)
  }

  /** A sign-out or an abandoned request that the server has not handled presents this token too. */
  predicate CallPending(j: Jar, presented: Option<string>) {
    exists i | i in j.calls :: !j.calls[i].stage.Answered? && j.calls[i].presented == presented
  }

  /** The server has handled a presentation of this token and the browser has not heard of it. */
  predicate ActedOn(j: Jar, presented: Option<string>) {
    || (WillReplace(j.exchange) && j.exchange.presented == presented)
    || (exists i | i in j.calls :: j.calls[i].stage.Answered? && j.calls[i].presented == presented)
  }

  predicate Stored(rows: Table, token: Option<string>) {
    token.Some? && token.value in rows
  }

  /** The cookie is one the server still stores and has already acted on. */
  predicate CookieSpent(j: Jar) {
    Stored(j.rows, j.cookie) && ActedOn(j, j.cookie)
  }

  /**
   * The conditions of the safety claim. New tokens are new, and nobody else presents
   * or issues this browser's tokens. Sign-outs and abandoned requests, which hold no
   * lock, may overlap a refresh or each other, but the server accepts no token that is
   * still to be presented again; and an answer it acted on goes unheard only when the
   * cookie has been replaced or its row is gone.
   */
  predicate Careful(j: Jar, e: Event) {
    match e
    case Ask(_) => !CookieSpent(j)
    case StartSignOut(_, _) => !CookieSpent(j)
    case Rotate(now) =>
      j.exchange.Requested? && Accepts(j.rows, j.exchange.presented, now) ==> !CallPending(j, j.exchange.presented)
    case Handle(id, now) =>
      id in j.calls && Accepts(j.rows, j.calls[id].presented, now) ==>
        && (j.exchange.Requested? ==> j.exchange.presented != j.calls[id].presented)
        && !CallPending(j.(calls := j.calls - {id}), j.calls[id].presented)
        && (j.calls[id].stage.Abandoned? ==> j.cookie != j.calls[id].presented)
    case Renew(token, _, _) => token !in j.issued && token !in j.rows
    case AnswerSignIn(_, _, token, _) => token !in j.issued && token !in j.rows
    case Lose => WillReplace(j.exchange) && j.cookie == j.exchange.presented ==> !Stored(j.rows, j.cookie)
    case LoseCall(id) =>
      id in j.calls && j.calls[id].stage.Answered? && j.cookie == j.calls[id].presented ==> !Stored(j.rows, j.cookie)
    case Elsewhere(step) =>
      (step.Consume? ==> step.hash !in j.issued) && (step.Insert? ==> step.hash !in j.issued)
    case _ => true
  }

  /* -------------------------------- the invariant ------------------------------- */

  predicate Unspent(rows: Table, token: string) {
    token in rows ==> !rows[token].consumed
  }

  predicate CookieUsable(j: Jar) {
    j.cookie.Some? ==> Unspent(j.rows, j.cookie.value)
  }

  /** The token an outstanding refresh presented, if it presented one. */
  function Presented(x: Exchange): Option<string> {
    if x.Free? || x.Locked? then None else x.presented
  }

  predicate Arriving(j: Jar, token: string) {
    || (exists i | i in j.signIns :: j.signIns[i].token == Some(token))
    || (j.exchange.Replied? && j.exchange.reply == Renewed(token))
  }

  ghost predicate Known(j: Jar) {
    && (j.cookie.Some? ==> j.cookie.value in j.issued)
    && (Presented(j.exchange).Some? ==> Presented(j.exchange).value in j.issued)
    && (forall i | i in j.calls :: j.calls[i].presented.Some? ==> j.calls[i].presented.value in j.issued)
    && (forall t | Arriving(j, t) :: t in j.issued)
  }

  /** Tokens on their way to the browser are unspent, and nobody has presented them. */
  ghost predicate ArrivalsClean(j: Jar) {
    && (forall t | Arriving(j, t) ::
          Unspent(j.rows, t) && j.cookie != Some(t) && Presented(j.exchange) != Some(t))
    && (forall t, i | Arriving(j, t) && i in j.calls :: j.calls[i].presented != Some(t))
  }

  /** Two sign-ins never bring the same token, and neither brings the refresh's. */
  ghost predicate ArrivalsDiffer(j: Jar) {
    && (forall i, k | i in j.signIns && k in j.signIns ::
          j.signIns[i].token == j.signIns[k].token != None ==> i == k)
    && (forall i | i in j.signIns && j.signIns[i].token.Some? && j.exchange.Replied? ::
          j.exchange.reply != Renewed(j.signIns[i].token.value))
  }

  ghost predicate PresentationsUnspent(j: Jar) {
    && (j.exchange.Requested? && j.exchange.presented.Some? ==> Unspent(j.rows, j.exchange.presented.value))
    && (forall i | i in j.calls && !j.calls[i].stage.Answered? && j.calls[i].presented.Some? ::
          Unspent(j.rows, j.calls[i].presented.value))
  }

  predicate SpentOrGone(rows: Table, token: string) {
    token in rows ==> rows[token].consumed
  }

  /** What the server has acted on is spent or gone, and no stored token was acted on twice. */
  ghost predicate ActsSpend(j: Jar) {
    && (WillReplace(j.exchange) ==> j.exchange.presented.Some? && SpentOrGone(j.rows, j.exchange.presented.value))
    && (forall i | i in j.calls && j.calls[i].stage.Answered? && j.calls[i].presented.Some? ::
          && SpentOrGone(j.rows, j.calls[i].presented.value)
          && (WillReplace(j.exchange) && Stored(j.rows, j.calls[i].presented) ==>
                j.exchange.presented != j.calls[i].presented))
    && (forall i, k | i in j.calls && k in j.calls && j.calls[i].stage.Answered? && j.calls[k].stage.Answered? ::
          Stored(j.rows, j.calls[i].presented) && j.calls[i].presented == j.calls[k].presented ==> i == k)
  }

  /** A spent cookie is always one the server has acted on and whose replacement is on its way. */
  ghost predicate CookieCovered(j: Jar) {
    CookieUsable(j) || ActedOn(j, j.cookie)
  }

  /** Of the tokens on their way to the browser. */
  ghost predicate ArrivalsOk(j: Jar) {
    Known(j) && ArrivalsClean(j) && ArrivalsDiffer(j)
  }

  /** Of the tokens the browser has presented. */
  ghost predicate SpendingOk(j: Jar) {
    PresentationsUnspent(j) && ActsSpend(j) && CookieCovered(j)
  }

  ghost predicate Inv(j: Jar) {
    ArrivalsOk(j) && SpendingOk(j)
  }

  /** Under the invariant a spent cookie is one an outstanding exchange has spent. */
  lemma CookieUsableIff(j: Jar)
    requires Inv(j)
    ensures CookieUsable(j) <==> !CookieSpent(j)
  {
  }

  /* ----------------------------- rows under each step --------------------------- */

  /** Presenting an unspent token raises no alarm and spends no other token. */
  lemma PresentingOne(rows: Table, token: string, now: int)
    requires Unspent(rows, token)
    ensures Alarm(rows, Some(token), now) == 0
    ensures forall t :: t != token && Unspent(rows, t) ==> Unspent(Presenting(rows, Some(token), now), t)
    ensures !Answer(rows, token, now).Accepted? ==> Unspent(Presenting(rows, Some(token), now), token)
  {
  }

  lemma IssuingOne(rows: Table, userId: string, token: string, expiresAt: int)
    requires token !in rows
    ensures Unspent(Next(rows, Insert(userId, token, expiresAt)), token)
    ensures forall t :: Unspent(rows, t) ==> Unspent(Next(rows, Insert(userId, token, expiresAt)), t)
  {
  }

  lemma ElsewhereSpendsNothing(j: Jar, step: Step)
    requires Careful(j, Elsewhere(step))
    ensures forall t :: t in j.issued && Unspent(j.rows, t) ==> Unspent(Next(j.rows, step), t)
  {
  }

  /* ------------------------------ each step keeps it ---------------------------- */

  /** Outside answers nothing new arrives, and a token that does comes from its sign-in or refresh. */
  lemma ArrivalsAfter(j: Jar, e: Event, usable: bool)
    requires Enabled(j, e)
    ensures var next := NextJar(j, e, usable);
            forall t | Arriving(next, t) ::
              || Arriving(j, t)
              || (e.AnswerSignIn? && t == e.token)
              || (e.Renew? && e.accountExists && t == e.token)
    ensures e.Receive? && j.exchange.reply.Renewed? ==> Arriving(j, j.exchange.reply.token)
    ensures e.ReceiveSignIn? ==> Arriving(j, j.signIns[e.id].token.value)
  {
  }

  predicate OnCalls(e: Event) {
    e.StartSignOut? || e.AbandonSignOut? || e.ReceiveSignOut? || e.LoseCall?
  }

  /** Calls come and go with the cookie's own token, so what arrives stays clean of them. */
  lemma CallsKeepArrivals(j: Jar, e: Event, usable: bool)
    requires Inv(j) && Enabled(j, e) && OnCalls(e)
    ensures ArrivalsOk(NextJar(j, e, usable))
  {
    ArrivalsAfter(j, e, usable);
  }

  lemma AbandonKeepsArrivals(j: Jar, e: Event, usable: bool)
    requires Inv(j) && Enabled(j, e) && e.Abandon?
    ensures ArrivalsOk(NextJar(j, e, usable))
  {
    ArrivalsAfter(j, e, usable);
  }

  lemma ArrivalsKept(j: Jar, e: Event, usable: bool)
    requires Inv(j) && Enabled(j, e)
    requires e.Acquire? || e.Ask? || e.Receive? || e.Lose? || e.StartSignIn? || e.ReceiveSignIn? || e.LoseSignIn?
    ensures ArrivalsOk(NextJar(j, e, usable))
  {
    ArrivalsAfter(j, e, usable);
    assert forall i | i in j.signIns && j.signIns[i].token.Some? :: Arriving(j, j.signIns[i].token.value);
  }

  lemma RefreshKeeps(j: Jar, e: Event, usable: bool)
    requires Inv(j) && Enabled(j, e) && Careful(j, e)
    requires e.Acquire? || e.Ask? || e.Receive? || e.Lose?
    ensures Inv(NextJar(j, e, usable)) && NextJar(j, e, usable).alarms == j.alarms
  {
    ArrivalsKept(j, e, usable);
    ArrivalsAfter(j, e, usable);
  }

  lemma RotateBringsNothing(j: Jar, e: Event, usable: bool)
    requires Inv(j) && Enabled(j, e) && e.Rotate?
    ensures ArrivalsOk(NextJar(j, e, usable))
  {
    ArrivalsAfter(j, e, usable);
    if j.exchange.presented.Some? {
      PresentingOne(j.rows, j.exchange.presented.value, e.now);
    }
  }

  lemma RotateKeeps(j: Jar, e: Event, usable: bool)
    requires Inv(j) && Enabled(j, e) && Careful(j, e) && e.Rotate?
    ensures Inv(NextJar(j, e, usable)) && NextJar(j, e, usable).alarms == j.alarms
  {
    var presented := j.exchange.presented;
    RotateBringsNothing(j, e, usable);
    if presented.Some? {
      PresentingOne(j.rows, presented.value, e.now);
      if Accepts(j.rows, presented, e.now) {
        assert forall i | i in j.calls && !j.calls[i].stage.Answered? :: j.calls[i].presented != presented;
      }
    }
  }

  lemma RenewBringsOne(j: Jar, e: Event, usable: bool)
    requires Inv(j) && Enabled(j, e) && Careful(j, e) && e.Renew?
    ensures ArrivalsOk(NextJar(j, e, usable))
  {
    ArrivalsAfter(j, e, usable);
    if e.accountExists {
      IssuingOne(j.rows, j.exchange.userId, e.token, e.expiresAt);
    }
    assert forall i | i in j.signIns && j.signIns[i].token.Some? :: Arriving(j, j.signIns[i].token.value);
  }

  lemma RenewKeeps(j: Jar, e: Event, usable: bool)
    requires Inv(j) && Enabled(j, e) && Careful(j, e) && e.Renew?
    ensures Inv(NextJar(j, e, usable)) && NextJar(j, e, usable).alarms == j.alarms
  {
    RenewBringsOne(j, e, usable);
    if e.accountExists {
      IssuingOne(j.rows, j.exchange.userId, e.token, e.expiresAt);
    }
  }

  lemma SignInKeeps(j: Jar, e: Event, usable: bool)
    requires Inv(j) && Enabled(j, e) && Careful(j, e)
    requires e.StartSignIn? || e.ReceiveSignIn? || e.LoseSignIn?
    ensures Inv(NextJar(j, e, usable)) && NextJar(j, e, usable).alarms == j.alarms
  {
    ArrivalsKept(j, e, usable);
    ArrivalsAfter(j, e, usable);
  }

  lemma SignInBringsOne(j: Jar, e: Event, usable: bool)
    requires Inv(j) && Enabled(j, e) && Careful(j, e) && e.AnswerSignIn?
    ensures ArrivalsOk(NextJar(j, e, usable))
  {
    ArrivalsAfter(j, e, usable);
    IssuingOne(j.rows, e.userId, e.token, e.expiresAt);
    assert forall i | i in j.signIns && j.signIns[i].token.Some? :: Arriving(j, j.signIns[i].token.value);
    assert j.exchange.Replied? && j.exchange.reply.Renewed? ==> Arriving(j, j.exchange.reply.token);
  }

  lemma AnswerSignInKeeps(j: Jar, e: Event, usable: bool)
    requires Inv(j) && Enabled(j, e) && Careful(j, e) && e.AnswerSignIn?
    ensures Inv(NextJar(j, e, usable)) && NextJar(j, e, usable).alarms == j.alarms
  {
    SignInBringsOne(j, e, usable);
    IssuingOne(j.rows, e.userId, e.token, e.expiresAt);
  }

  /** A request nobody waits for any more is presented as it was. */
  lemma AbandonKeeps(j: Jar, e: Event, usable: bool)
    requires Inv(j) && Enabled(j, e) && Careful(j, e) && e.Abandon?
    ensures Inv(NextJar(j, e, usable)) && NextJar(j, e, usable).alarms == j.alarms
  {
    var next := NextJar(j, e, usable);
    AbandonKeepsArrivals(j, e, usable);
    assert forall i | i in j.calls :: i in next.calls && next.calls[i] == j.calls[i];
  }

  lemma AbandonSignOutKeeps(j: Jar, e: Event, usable: bool)
    requires Inv(j) && Enabled(j, e) && Careful(j, e) && e.AbandonSignOut?
    ensures Inv(NextJar(j, e, usable)) && NextJar(j, e, usable).alarms == j.alarms
  {
    var next := NextJar(j, e, usable);
    CallsKeepArrivals(j, e, usable);
    assert forall i | i in j.calls && i != e.id :: i in next.calls && next.calls[i] == j.calls[i];
  }

  lemma StartSignOutKeeps(j: Jar, e: Event, usable: bool)
    requires Inv(j) && Enabled(j, e) && Careful(j, e) && e.StartSignOut?
    ensures Inv(NextJar(j, e, usable)) && NextJar(j, e, usable).alarms == j.alarms
  {
    CallsKeepArrivals(j, e, usable);
    CookieUsableIff(j);
  }

  lemma EndCallKeeps(j: Jar, e: Event, usable: bool)
    requires Inv(j) && Enabled(j, e) && Careful(j, e) && (e.ReceiveSignOut? || e.LoseCall?)
    ensures Inv(NextJar(j, e, usable)) && NextJar(j, e, usable).alarms == j.alarms
  {
    var next := NextJar(j, e, usable);
    CallsKeepArrivals(j, e, usable);
    assert forall i | i in j.calls && i != e.id :: i in next.calls && next.calls[i] == j.calls[i];
  }

  /** What the other calls present when one is accepted. */
  lemma HandledAlone(j: Jar, id: nat, now: int)
    requires Enabled(j, Handle(id, now)) && Careful(j, Handle(id, now))
    requires Accepts(j.rows, j.calls[id].presented, now)
    ensures forall i | i in j.calls && i != id && !j.calls[i].stage.Answered? ::
              j.calls[i].presented != j.calls[id].presented
  {
    var others := j.(calls := j.calls - {id});
    forall i | i in j.calls && i != id && !j.calls[i].stage.Answered?
      ensures j.calls[i].presented != j.calls[id].presented
    {
      assert i in others.calls;
    }
  }

  lemma HandleBringsNothing(j: Jar, e: Event, usable: bool)
    requires Inv(j) && Enabled(j, e) && Careful(j, e) && e.Handle?
    ensures ArrivalsOk(NextJar(j, e, usable))
  {
    ArrivalsAfter(j, e, usable);
    if j.calls[e.id].presented.Some? {
      PresentingOne(j.rows, j.calls[e.id].presented.value, e.now);
    }
  }

  lemma AcceptedCallSpends(j: Jar, e: Event, usable: bool)
    requires Inv(j) && Enabled(j, e) && Careful(j, e) && e.Handle?
    requires Accepts(j.rows, j.calls[e.id].presented, e.now)
    ensures SpendingOk(NextJar(j, e, usable))
  {
    var next := NextJar(j, e, usable);
    var out := j.calls[e.id];
    PresentingOne(j.rows, out.presented.value, e.now);
    HandledAlone(j, e.id, e.now);
    assert out.stage.Sent? ==> next.calls[e.id] == out.(stage := Answered);
    assert forall i | i in j.calls && i != e.id :: i in next.calls && next.calls[i] == j.calls[i];
  }

  lemma RefusedCallSpendsNothing(j: Jar, e: Event, usable: bool)
    requires Inv(j) && Enabled(j, e) && e.Handle?
    requires !Accepts(j.rows, j.calls[e.id].presented, e.now)
    ensures SpendingOk(NextJar(j, e, usable))
  {
    var next := NextJar(j, e, usable);
    var out := j.calls[e.id];
    if out.presented.Some? {
      PresentingOne(j.rows, out.presented.value, e.now);
    }
    assert out.stage.Sent? ==> next.calls[e.id] == out.(stage := Answered);
    assert forall i | i in j.calls && i != e.id :: i in next.calls && next.calls[i] == j.calls[i];
  }

  lemma HandleKeeps(j: Jar, e: Event, usable: bool)
    requires Inv(j) && Enabled(j, e) && Careful(j, e) && e.Handle?
    ensures Inv(NextJar(j, e, usable)) && NextJar(j, e, usable).alarms == j.alarms
  {
    var presented := j.calls[e.id].presented;
    HandleBringsNothing(j, e, usable);
    if presented.Some? {
      PresentingOne(j.rows, presented.value, e.now);
    }
    if Accepts(j.rows, presented, e.now) {
      AcceptedCallSpends(j, e, usable);
    } else {
      RefusedCallSpendsNothing(j, e, usable);
    }
  }

  lemma ElsewhereBringsNothing(j: Jar, e: Event, usable: bool)
    requires Inv(j) && Enabled(j, e) && Careful(j, e) && e.Elsewhere?
    ensures ArrivalsOk(NextJar(j, e, usable))
  {
    ArrivalsAfter(j, e, usable);
    ElsewhereSpendsNothing(j, e.step);
  }

  lemma ElsewhereKeeps(j: Jar, e: Event, usable: bool)
    requires Inv(j) && Enabled(j, e) && Careful(j, e) && e.Elsewhere?
    ensures Inv(NextJar(j, e, usable)) && NextJar(j, e, usable).alarms == j.alarms
  {
    ElsewhereBringsNothing(j, e, usable);
    ElsewhereSpendsNothing(j, e.step);
  }

  lemma StepKeepsInv(j: Jar, e: Event, usable: bool)
    requires Inv(j) && Enabled(j, e) && Careful(j, e)
    ensures Inv(NextJar(j, e, usable)) && NextJar(j, e, usable).alarms == j.alarms
  {
    match e
    case Rotate(_) => RotateKeeps(j, e, usable);
    case Renew(_, _, _) => RenewKeeps(j, e, usable);
    case Acquire(_) => RefreshKeeps(j, e, usable);
    case Ask(_) => RefreshKeeps(j, e, usable);
    case Receive(_, _) => RefreshKeeps(j, e, usable);
    case Lose => RefreshKeeps(j, e, usable);
    case Abandon(_) => AbandonKeeps(j, e, usable);
    case AbandonSignOut(_) => AbandonSignOutKeeps(j, e, usable);
    case StartSignIn(_, _) => SignInKeeps(j, e, usable);
    case ReceiveSignIn(_, _, _) => SignInKeeps(j, e, usable);
    case LoseSignIn(_) => SignInKeeps(j, e, usable);
    case AnswerSignIn(_, _, _, _) => AnswerSignInKeeps(j, e, usable);
    case StartSignOut(_, _) => StartSignOutKeeps(j, e, usable);
    case ReceiveSignOut(_) => EndCallKeeps(j, e, usable);
    case LoseCall(_) => EndCallKeeps(j, e, usable);
    case Handle(_, _) => HandleKeeps(j, e, usable);
    case Elsewhere(_) => ElsewhereKeeps(j, e, usable);
    case Deliver(_) =>
    case Invalidate(_) =>
    case Hydrate(_) =>
  }

  /* ------------------------------------ tabs ------------------------------------ */

  /** The whole browser: the jar, each tab's session, and the broadcasts each has yet to hear. */
  datatype Browser = Browser(jar: Jar, tabs: map<nat, Tab>, mail: map<nat, seq<Message>>)

  function TabOf(b: Browser, tab: nat): Tab {
    if tab in b.tabs then b.tabs[tab] else Tab(None, Starting)
  }

  /** The outcome a step broadcasts, with the tab it comes from. */
  function Outcome(j: Jar, e: Event): Option<(nat, Message)>
    requires Enabled(j, e)
  {
    match e
    case Receive(access, expiresAtMs) =>
      (match j.exchange.reply
       case Renewed(_) => Some((j.exchange.tab, TokenNews(access, expiresAtMs)))
       case Ended(notice) => Some((j.exchange.tab, SessionOver(Some(notice))))
       case NoSession => Some((j.exchange.tab, SessionOver(None))))
    case ReceiveSignIn(id, access, expiresAtMs) => Some((j.signIns[id].tab, TokenNews(access, expiresAtMs)))
    case ReceiveSignOut(id) => Some((j.calls[id].tab, SessionOver(None)))
    case AbandonSignOut(id) => Some((j.calls[id].tab, SessionOver(None)))
    case LoseCall(id) =>
      if j.calls[id].stage.Abandoned? then None else Some((j.calls[id].tab, SessionOver(None)))
    case _ => None
  }

  /** The sender applies its own message at once; every other tab has it queued last. */
  function Broadcast(b: Browser, sender: nat, m: Message, signedIn: bool): Browser {
    var applied := Hears(TabOf(b, sender), m);
    b.(tabs := if sender in b.tabs
               then b.tabs[sender := if signedIn then applied.(status := SignedIn) else applied] else b.tabs,
       mail := Told(b.mail, sender, m))
  }

  function Deliver1(b: Browser, tab: nat): Browser {
    if tab in b.mail && b.mail[tab] != [] && tab in b.tabs then
      b.(tabs := b.tabs[tab := Hears(b.tabs[tab], b.mail[tab][0])], mail := b.mail[tab := b.mail[tab][1..]])
    else b
  }

  function UsableUnderLock(b: Browser, e: Event): bool {
    e.Ask? && b.jar.exchange.Locked? && IsFresh(TabOf(b, b.jar.exchange.tab).held, e.nowMs)
  }

  function Heard(b: Browser, e: Event): Browser
    requires Enabled(b.jar, e)
  {
    match Outcome(b.jar, e)
    case Some((sender, m)) => Broadcast(b, sender, m, e.ReceiveSignIn?)
    case None =>
      match e
      case Deliver(tab) => Deliver1(b, tab)
      case Invalidate(tab) => if tab in b.tabs then b.(tabs := b.tabs[tab := b.tabs[tab].(held := None)]) else b
      case Hydrate(tab) => if tab in b.tabs then b.(tabs := b.tabs[tab := b.tabs[tab].(status := SignedIn)]) else b
      case _ => b
  }

  /** A step that cannot happen here is no step. */
  function StepOf(b: Browser, e: Event): Browser {
    if Enabled(b.jar, e) then Heard(b, e).(jar := NextJar(b.jar, e, UsableUnderLock(b, e))) else b
  }

  function RunOf(b: Browser, events: seq<Event>): Browser
    decreases |events|
  {
    if events == [] then b else RunOf(StepOf(b, events[0]), events[1..])
  }

  predicate CarefulRun(b: Browser, events: seq<Event>)
    decreases |events|
  {
    events == []
    || ((Enabled(b.jar, events[0]) ==> Careful(b.jar, events[0])) && CarefulRun(StepOf(b, events[0]), events[1..]))
  }

  /** The conditions are exact: presenting, handling and losing keep the invariant exactly when they are careful. */
  lemma CarefulIffKept(j: Jar, e: Event)
    requires Inv(j) && Enabled(j, e)
    requires e.Ask? || e.StartSignOut? || e.Rotate? || e.Handle? || e.Lose? || e.LoseCall?
    ensures Careful(j, e) <==> Inv(NextJar(j, e, false))
  {
    if Careful(j, e) {
      StepKeepsInv(j, e, false);
    } else if e.Handle? {
      CarelessHandleBreaks(j, e);
    } else if e.Rotate? {
      CarelessRotateBreaks(j, e);
    } else if e.Lose? {
      LostAnswerIff(j, 0, 0, 0);
    } else if e.LoseCall? {
      LostSignOutIff(j, e.id);
    } else {
      CarelessStartBreaks(j, e);
    }
  }

  lemma CarelessStartBreaks(j: Jar, e: Event)
    requires Inv(j) && Enabled(j, e) && (e.Ask? || e.StartSignOut?) && !Careful(j, e)
    ensures !Inv(NextJar(j, e, false))
  {
    CookieUsableIff(j);
    if e.StartSignOut? {
      assert NextJar(j, e, false).calls[e.id] == Call(e.tab, j.cookie, Sent);
    }
  }

  lemma CarelessRotateBreaks(j: Jar, e: Event)
    requires Inv(j) && Enabled(j, e) && e.Rotate? && !Careful(j, e)
    ensures !Inv(NextJar(j, e, false))
  {
    var i :| i in j.calls && !j.calls[i].stage.Answered? && j.calls[i].presented == j.exchange.presented;
    assert NextJar(j, e, false).calls[i] == j.calls[i];
  }

  lemma CarelessHandleBreaks(j: Jar, e: Event)
    requires Inv(j) && Enabled(j, e) && e.Handle? && !Careful(j, e)
    ensures !Inv(NextJar(j, e, false))
  {
    var next, presented := NextJar(j, e, false), j.calls[e.id].presented;
    var others := j.(calls := j.calls - {e.id});
    if CallPending(others, presented) {
      var i :| i in others.calls && !others.calls[i].stage.Answered? && others.calls[i].presented == presented;
      assert next.calls[i] == j.calls[i];
    } else if j.calls[e.id].stage.Abandoned? && j.cookie == presented {
      assert forall i | i in next.calls :: next.calls[i] == j.calls[i];
    }
  }

  /** A run is careful, arriving or quiet step by step, and what cannot happen is no step. */
  lemma RunsStepByStep(b: Browser, e: Event, rest: seq<Event>)
    ensures CarefulRun(b, [e] + rest) <==> (Enabled(b.jar, e) ==> Careful(b.jar, e)) && CarefulRun(StepOf(b, e), rest)
    ensures ArrivingRun(b, [e] + rest) <==> (Enabled(b.jar, e) ==> Arrives(b.jar, e)) && ArrivingRun(StepOf(b, e), rest)
    ensures QuietRun(b, [e] + rest) <==> Quiet(b, e) && QuietRun(StepOf(b, e), rest)
    ensures CarefulRun(b, []) && ArrivingRun(b, []) && QuietRun(b, [])
  {
    assert ([e] + rest)[1..] == rest;
  }

  /** The rest of a browser's life asks for nothing: only new tokens, signing out, losing an answer and others do. */
  lemma MostStepsArrive(j: Jar, e: Event)
    ensures (e.Acquire? || e.Ask? || e.Rotate? || e.Receive? || e.StartSignIn? || e.ReceiveSignIn? || e.LoseSignIn?
             || e.Deliver? || e.Invalidate? || e.Hydrate?) ==> Arrives(j, e)
    ensures e.Lose? && j.exchange.Requested? ==> Arrives(j, e)
    ensures (e.Elsewhere? && (e.step.Purge? || e.step.Revoke?
                              || (e.step.Insert? && e.step.hash !in j.issued)
                              || (e.step.Consume? && e.step.hash !in j.issued))) ==> Arrives(j, e)
  {
  }

  /** What the steps do that no exchange waits for: a token dropped, a user shown, a request lost, others' statements. */
  lemma SmallSteps(b: Browser, tab: nat, id: nat, step: Step)
    ensures StepOf(b, Elsewhere(step)) == b.(jar := b.jar.(rows := Next(b.jar.rows, step)))
    ensures tab in b.tabs ==> StepOf(b, Invalidate(tab)) == b.(tabs := b.tabs[tab := b.tabs[tab].(held := None)])
    ensures tab in b.tabs ==> StepOf(b, Hydrate(tab)) == b.(tabs := b.tabs[tab := b.tabs[tab].(status := SignedIn)])
    ensures id in b.jar.signIns ==>
              StepOf(b, LoseSignIn(id)) == b.(jar := b.jar.(signIns := b.jar.signIns - {id}))
  {
  }

  /** A lost call tells the siblings what its own tab was told when it gave up waiting, and nobody anything twice. */
  lemma LostCallTells(b: Browser, id: nat)
    ensures id in b.jar.calls && b.jar.calls[id].stage != Answered ==> StepOf(b, ReceiveSignOut(id)) == b
    ensures id in b.jar.calls && b.jar.calls[id].stage != Sent ==> StepOf(b, AbandonSignOut(id)) == b
    ensures id in b.jar.calls ==>
              var lost := StepOf(b, LoseCall(id));
              && lost.jar == b.jar.(calls := b.jar.calls - {id})
              && (b.jar.calls[id].stage == Abandoned ==> lost.mail == b.mail && lost.tabs == b.tabs)
              && (b.jar.calls[id].stage != Abandoned ==> lost.mail == Told(b.mail, b.jar.calls[id].tab, SessionOver(None)))
  {
  }

  /**
   * However many tabs, refreshes, sign-ins and sign-outs interleave, and however
   * late the broadcasts arrive: no token this browser presents is ever answered
   * "reused". And whenever the lock is free, the cookie is absent or unconsumed,
   * or a sign-out the server has answered is about to clear it.
   */
  lemma {:induction false} RunRaisesNoAlarm(b: Browser, events: seq<Event>)
    requires Inv(b.jar) && CarefulRun(b, events)
    ensures var end := RunOf(b, events).jar;
            && Inv(end) && end.alarms == b.jar.alarms
            && (end.exchange.Free? ==> CookieUsable(end) || exists i | i in end.calls ::
                  end.calls[i].stage.Answered? && end.calls[i].presented == end.cookie)
    decreases |events|
  {
    if events != [] {
      if Enabled(b.jar, events[0]) {
        StepKeepsInv(b.jar, events[0], UsableUnderLock(b, events[0]));
      }
      RunRaisesNoAlarm(StepOf(b, events[0]), events[1..]);
    }
  }

  /** Without sign-outs: every answer arrives, new tokens are new, and nobody else holds this browser's. */
  predicate Arrives(j: Jar, e: Event) {
    match e
    case Abandon(_) => false
    case StartSignOut(_, _) => false
    case Renew(token, _, _) => token !in j.issued && token !in j.rows
    case AnswerSignIn(_, _, token, _) => token !in j.issued && token !in j.rows
    case Lose => j.exchange.Requested? || (j.exchange.Replied? && j.exchange.reply.NoSession?)
    case Elsewhere(step) =>
      (step.Consume? ==> step.hash !in j.issued) && (step.Insert? ==> step.hash !in j.issued)
    case _ => true
  }

  predicate ArrivingRun(b: Browser, events: seq<Event>)
    decreases |events|
  {
    events == []
    || ((Enabled(b.jar, events[0]) ==> Arrives(b.jar, events[0])) && ArrivingRun(StepOf(b, events[0]), events[1..]))
  }

  /** Any interleaving of refreshes and sign-ins whose answers arrive is safe, under no condition on its order. */
  lemma {:induction false} RefreshesAndSignInsRaiseNoAlarm(b: Browser, events: seq<Event>)
    requires Inv(b.jar) && b.jar.calls == map[] && ArrivingRun(b, events)
    ensures var end := RunOf(b, events).jar;
            end.alarms == b.jar.alarms && (end.exchange.Free? ==> CookieUsable(end))
    decreases |events|
  {
    if events != [] {
      if Enabled(b.jar, events[0]) {
        StepKeepsInv(b.jar, events[0], UsableUnderLock(b, events[0]));
      }
      RefreshesAndSignInsRaiseNoAlarm(StepOf(b, events[0]), events[1..]);
    }
  }

  /** A browser with no cookie and nothing in flight satisfies the invariant. */
  lemma NewBrowserIsSafe(rows: Table)
    ensures Inv(Jar(rows, None, Free, map[], map[], {}, 0))
  {
  }

  /* ------------------------ where the claim needs its conditions ----------------- */

  /** A tab takes the free lock, finds its token stale and asks; the server consumes what it presents. */
  function RefreshedBy(j: Jar, tab: nat, nowMs: int, now: int): Jar
    requires j.exchange.Free?
  {
    NextJar(NextJar(NextJar(j, Acquire(tab), false), Ask(nowMs), false), Rotate(now), false)
  }

  function SignedOutBy(j: Jar, id: nat, tab: nat, now: int): Jar
    requires id !in j.calls
  {
    NextJar(NextJar(j, StartSignOut(id, tab), false), Handle(id, now), false)
  }

  /** A refresh, or a sign-out, started now sets off the alarm exactly when the cookie is already spent. */
  lemma StartAlarmsIff(j: Jar, id: nat, tab: nat, nowMs: int, now: int)
    requires Inv(j)
    ensures j.exchange.Free? ==>
              RefreshedBy(j, tab, nowMs, now).alarms == j.alarms + if CookieSpent(j) then 1 else 0
    ensures id !in j.calls ==>
              SignedOutBy(j, id, tab, now).alarms == j.alarms + if CookieSpent(j) then 1 else 0
  {
    CookieUsableIff(j);
  }

  /**
   * An outstanding refresh and an outstanding sign-out or abandoned request set off the
   * alarm exactly when they present the same token and the server accepts the first of
   * them, whichever of the two that is.
   */
  lemma OverlapAlarmsIff(j: Jar, id: nat, first: int, second: int)
    requires Inv(j) && j.exchange.Requested? && id in j.calls && !j.calls[id].stage.Answered?
    ensures var clash := j.exchange.presented == j.calls[id].presented && Accepts(j.rows, j.exchange.presented, first);
            && NextJar(NextJar(j, Rotate(first), false), Handle(id, second), false).alarms
               == j.alarms + (if clash then 1 else 0)
            && NextJar(NextJar(j, Handle(id, first), false), Rotate(second), false).alarms
               == j.alarms + (if clash then 1 else 0)
  {
    PresentedTwiceAlarmsIff(j.rows, j.exchange.presented, j.calls[id].presented, first, second);
    PresentedTwiceAlarmsIff(j.rows, j.calls[id].presented, j.exchange.presented, first, second);
  }

  /**
   * A tab abandons its refresh and frees the lock; the next one asks with the cookie there
   * is. Whichever request the server handles first, the two set off the alarm exactly when
   * that cookie is the abandoned one's still and the server accepts the first.
   */
  lemma AbandonedRefreshAlarmsIff(j: Jar, id: nat, tab: nat, nowMs: int, first: int, second: int)
    requires Inv(j) && j.exchange.Requested? && id !in j.calls && !CookieSpent(NextJar(j, Abandon(id), false))
    ensures var asked := NextJar(NextJar(NextJar(j, Abandon(id), false), Acquire(tab), false), Ask(nowMs), false);
            var clash := j.cookie == j.exchange.presented && Accepts(j.rows, j.cookie, first);
            && NextJar(NextJar(asked, Handle(id, first), false), Rotate(second), false).alarms
               == j.alarms + (if clash then 1 else 0)
            && NextJar(NextJar(asked, Rotate(first), false), Handle(id, second), false).alarms
               == j.alarms + (if clash then 1 else 0)
  {
    var abandoned := NextJar(j, Abandon(id), false);
    AbandonKeeps(j, Abandon(id), false);
    var held := NextJar(abandoned, Acquire(tab), false);
    RefreshKeeps(abandoned, Acquire(tab), false);
    RefreshKeeps(held, Ask(nowMs), false);
    OverlapAlarmsIff(NextJar(held, Ask(nowMs), false), id, first, second);
  }

  /**
   * An abandoned request handled while the lock is free: the next refresh sets off the
   * alarm exactly when the server accepted the request and the cookie is still the one it
   * presented, or the cookie was spent before.
   */
  lemma HandledBehindAlarmsIff(j: Jar, id: nat, first: int, tab: nat, nowMs: int, second: int)
    requires Inv(j) && j.exchange.Free? && id in j.calls && j.calls[id].stage.Abandoned?
    ensures RefreshedBy(NextJar(j, Handle(id, first), false), tab, nowMs, second).alarms
            == j.alarms + if CookieSpent(j) || (j.cookie == j.calls[id].presented && Accepts(j.rows, j.cookie, first))
                          then 1 else 0
  {
    CookieUsableIff(j);
  }

  /** And so do two of those outstanding together. */
  lemma OverlappingCallsAlarmIff(j: Jar, id: nat, other: nat, first: int, second: int)
    requires Inv(j) && id != other && id in j.calls && other in j.calls
    requires !j.calls[id].stage.Answered? && !j.calls[other].stage.Answered?
    ensures NextJar(NextJar(j, Handle(id, first), false), Handle(other, second), false).alarms
            == j.alarms + if j.calls[id].presented == j.calls[other].presented
                             && Accepts(j.rows, j.calls[id].presented, first) then 1 else 0
  {
    PresentedTwiceAlarmsIff(j.rows, j.calls[id].presented, j.calls[other].presented, first, second);
  }

  /** Two unspent tokens presented one after the other: the second is the alarm when it is the first, accepted. */
  lemma PresentedTwiceAlarmsIff(rows: Table, one: Option<string>, other: Option<string>, first: int, second: int)
    requires (one.Some? ==> Unspent(rows, one.value)) && (other.Some? ==> Unspent(rows, other.value))
    ensures Alarm(rows, one, first) == 0
    ensures Alarm(Presenting(rows, one, first), other, second)
            == if one == other && Accepts(rows, one, first) then 1 else 0
  {
  }

  /**
   * An answer lost after the server acted on it leaves the browser safe exactly when
   * the cookie has been replaced meanwhile or its row is no longer stored; and exactly
   * then the next refresh of any tab raises no alarm, unless a sign-out has spent the cookie.
   */
  lemma LostAnswerIff(j: Jar, tab: nat, nowMs: int, now: int)
    requires Inv(j) && WillReplace(j.exchange)
    ensures var next, safe := NextJar(j, Lose, false), j.cookie != j.exchange.presented || !Stored(j.rows, j.cookie);
            && (Inv(next) <==> safe)
            && (RefreshedBy(next, tab, nowMs, now).alarms == j.alarms <==> safe && !CookieSpent(next))
  {
    var next := NextJar(j, Lose, false);
    if j.cookie != j.exchange.presented || !Stored(j.rows, j.cookie) {
      RefreshKeeps(j, Lose, false);
      StartAlarmsIff(next, 0, tab, nowMs, now);
    }
  }

  /** A sign-out whose answer is lost is safe under the same condition. */
  lemma LostSignOutIff(j: Jar, id: nat)
    requires Inv(j) && id in j.calls && j.calls[id].stage.Answered?
    ensures Inv(NextJar(j, LoseCall(id), false)) <==>
            j.cookie != j.calls[id].presented || !Stored(j.rows, j.cookie)
  {
    if j.cookie != j.calls[id].presented || !Stored(j.rows, j.cookie) {
      EndCallKeeps(j, LoseCall(id), false);
    }
  }

  /** A spent cookie nobody replaces: the next refresh of any tab raises the alarm and ends every session of the user. */
  lemma LostAnswerAlarms(j: Jar, tab: nat, nowMs: int, now: int)
    requires j.exchange.Free? && j.cookie.Some? && !CookieUsable(j)
    ensures var asked := NextJar(NextJar(j, Acquire(tab), false), Ask(nowMs), false);
            var after := NextJar(asked, Rotate(now), false);
            && after.alarms == j.alarms + 1
            && after.rows == WithoutUser(j.rows, j.rows[j.cookie.value].userId)
  {
  }

  /* ------------------------------- what the tabs agree on ------------------------ */

  /** What a tab holds once it has heard everything sent to it. */
  function Eventual(b: Browser, tab: nat): Option<Held>
    requires tab in b.tabs && tab in b.mail
  {
    if b.mail[tab] == [] then b.tabs[tab].held else TokenIn(b.mail[tab][|b.mail[tab]| - 1])
  }

  predicate AllAgree(b: Browser) {
    forall t, u | t in b.tabs && u in b.tabs :: b.tabs[t].held == b.tabs[u].held
  }

  predicate Delivered(b: Browser) {
    forall t | t in b.mail :: b.mail[t] == []
  }

  /** Nothing is broadcast, and no tab drops the token it has heard last. */
  predicate Quiet(b: Browser, e: Event) {
    Enabled(b.jar, e) ==>
      Outcome(b.jar, e).None? && (e.Invalidate? ==> e.tab in b.mail && b.mail[e.tab] != [])
  }

  predicate QuietRun(b: Browser, events: seq<Event>)
    decreases |events|
  {
    events == [] || (Quiet(b, events[0]) && QuietRun(StepOf(b, events[0]), events[1..]))
  }

  lemma DeliveryKeepsEventual(b: Browser, tab: nat)
    requires b.mail.Keys == b.tabs.Keys
    ensures var next := Deliver1(b, tab);
            && next.mail.Keys == next.tabs.Keys == b.tabs.Keys
            && forall t | t in b.tabs :: Eventual(next, t) == Eventual(b, t)
  {
  }

  lemma QuietStepKeepsEventual(b: Browser, e: Event)
    requires b.mail.Keys == b.tabs.Keys && Quiet(b, e)
    ensures var next := StepOf(b, e);
            && next.mail.Keys == next.tabs.Keys == b.tabs.Keys
            && forall t | t in b.tabs :: Eventual(next, t) == Eventual(b, t)
  {
    if e.Deliver? {
      DeliveryKeepsEventual(b, e.tab);
      assert StepOf(b, e) == Deliver1(b, e.tab).(jar := b.jar);
    } else if e.Invalidate? || e.Hydrate? {
      TabStepKeepsEventual(b, e);
    } else {
      assert StepOf(b, e).tabs == b.tabs && StepOf(b, e).mail == b.mail;
    }
  }

  lemma TabStepKeepsEventual(b: Browser, e: Event)
    requires b.mail.Keys == b.tabs.Keys && Quiet(b, e) && (e.Invalidate? || e.Hydrate?)
    ensures var next := StepOf(b, e);
            && next.mail.Keys == next.tabs.Keys == b.tabs.Keys
            && forall t | t in b.tabs :: Eventual(next, t) == Eventual(b, t)
  {
  }

  lemma {:induction false} QuietRunKeepsEventual(b: Browser, events: seq<Event>)
    requires b.mail.Keys == b.tabs.Keys && QuietRun(b, events)
    ensures var end := RunOf(b, events);
            && end.mail.Keys == end.tabs.Keys == b.tabs.Keys
            && forall t | t in b.tabs :: Eventual(end, t) == Eventual(b, t)
    decreases |events|
  {
    if events != [] {
      QuietStepKeepsEventual(b, events[0]);
      QuietRunKeepsEventual(StepOf(b, events[0]), events[1..]);
    }
  }

  lemma BroadcastOnEventual(b: Browser, sender: nat, m: Message, signedIn: bool)
    requires b.mail.Keys == b.tabs.Keys && sender in b.tabs
    ensures var sent := Broadcast(b, sender, m, signedIn);
            && sent.mail.Keys == sent.tabs.Keys == b.tabs.Keys
            && forall t | t in b.tabs ::
                 Eventual(sent, t) == if t == sender && b.mail[t] != [] then Eventual(b, t) else TokenIn(m)
  {
  }

  lemma OutcomeOnEventual(b: Browser, e: Event, sender: nat, m: Message)
    requires b.mail.Keys == b.tabs.Keys && Enabled(b.jar, e) && Outcome(b.jar, e) == Some((sender, m))
    requires sender in b.tabs
    ensures var sent := StepOf(b, e);
            && sent.mail.Keys == sent.tabs.Keys == b.tabs.Keys
            && forall t | t in b.tabs ::
                 Eventual(sent, t) == if t == sender && b.mail[t] != [] then Eventual(b, t) else TokenIn(m)
  {
    BroadcastOnEventual(b, sender, m, e.ReceiveSignIn?);
    assert StepOf(b, e) == Broadcast(b, sender, m, e.ReceiveSignIn?).(jar := StepOf(b, e).jar);
  }

  /**
   * In any state, whatever came before: after an outcome and once nothing more is
   * broadcast, each tab that has heard everything holds that outcome, except that its
   * sender holds the last thing it had yet to hear. So with all mail delivered the tabs
   * agree exactly when the sender had heard everything, or its last unheard message
   * carried the same token.
   */
  lemma DeliveredTabsAgreeIff(b: Browser, e: Event, sender: nat, m: Message, rest: seq<Event>)
    requires b.mail.Keys == b.tabs.Keys && Enabled(b.jar, e) && Outcome(b.jar, e) == Some((sender, m))
    requires sender in b.tabs && QuietRun(StepOf(b, e), rest)
    ensures var end := RunOf(StepOf(b, e), rest);
            && end.mail.Keys == end.tabs.Keys == b.tabs.Keys
            && (forall t | t in b.tabs && end.mail[t] == [] ::
                  end.tabs[t].held == if t == sender && b.mail[t] != [] then Eventual(b, t) else TokenIn(m))
            && (Delivered(end) && b.tabs.Keys != {sender} ==>
                  (AllAgree(end) <==> b.mail[sender] == [] || Eventual(b, sender) == TokenIn(m)))
  {
    OutcomeOnEventual(b, e, sender, m);
    QuietRunKeepsEventual(StepOf(b, e), rest);
    AgreeIffOneOutlier(RunOf(StepOf(b, e), rest), sender, if b.mail[sender] != [] then Eventual(b, sender) else TokenIn(m),
                       TokenIn(m));
  }

  lemma AgreeIffOneOutlier(b: Browser, sender: nat, own: Option<Held>, others: Option<Held>)
    requires b.mail.Keys == b.tabs.Keys && sender in b.tabs
    requires forall t | t in b.tabs :: Eventual(b, t) == if t == sender then own else others
    ensures Delivered(b) && b.tabs.Keys != {sender} ==> (AllAgree(b) <==> own == others)
  {
    if Delivered(b) && b.tabs.Keys != {sender} {
      assert forall t | t in b.tabs :: b.tabs[t].held == Eventual(b, t);
      assert b.tabs.Keys - {sender} != {};
      var other :| other in b.tabs.Keys - {sender};
      assert b.tabs[other].held == others;
    }
  }

  lemma {:induction false} RunJoins(b: Browser, first: seq<Event>, rest: seq<Event>)
    ensures RunOf(b, first + rest) == RunOf(RunOf(b, first), rest)
    decreases |first|
  {
    if first == [] {
      assert first + rest == rest;
    } else {
      assert (first + rest)[1..] == first[1..] + rest;
      RunJoins(StepOf(b, first[0]), first[1..], rest);
    }
  }

  /** A whole refresh, from taking the lock to hearing the answer. */
  function RefreshRun(tab: nat, now: int, token: string, expiresAt: int, news: Held): seq<Event> {
    [Acquire(tab), Ask(now), Rotate(now), Renew(token, expiresAt, true), Receive(news.accessToken, news.expiresAtMs)]
  }

  predicate CanRenew(b: Browser, tab: nat, now: int) {
    && b.jar.exchange.Free? && tab in b.tabs && !IsFresh(b.tabs[tab].held, now)
    && Accepts(b.jar.rows, b.jar.cookie, now)
  }

  lemma RunFrom(b: Browser, events: seq<Event>, e: Event, rest: seq<Event>)
    requires events == [e] + rest
    ensures RunOf(b, events) == RunOf(StepOf(b, e), rest)
  {
    assert events[1..] == rest;
  }

  lemma RunTwo(b: Browser, e1: Event, e2: Event)
    ensures RunOf(b, [e1, e2]) == StepOf(StepOf(b, e1), e2)
  {
    RunFrom(b, [e1, e2], e1, [e2]);
    RunFrom(StepOf(b, e1), [e2], e2, []);
  }

  lemma RunFive(b: Browser, e1: Event, e2: Event, e3: Event, e4: Event, e5: Event)
    ensures RunOf(b, [e1, e2, e3, e4, e5]) == StepOf(StepOf(StepOf(StepOf(StepOf(b, e1), e2), e3), e4), e5)
  {
    RunFrom(b, [e1, e2, e3, e4, e5], e1, [e2, e3, e4, e5]);
    RunFrom(StepOf(b, e1), [e2, e3, e4, e5], e2, [e3, e4, e5]);
    RunFrom(StepOf(StepOf(b, e1), e2), [e3, e4, e5], e3, [e4, e5]);
    RunTwo(StepOf(StepOf(StepOf(b, e1), e2), e3), e4, e5);
  }

  /** The lock is free again, the cookie replaced, and the siblings are told. */
  predicate Refreshed(b: Browser, end: Browser, tab: nat, token: string, expiresAt: int, news: Held) {
    && end.jar.exchange.Free? && end.jar.cookie == Some(token) && end.jar.alarms == b.jar.alarms
    && end.jar.rows.Keys == b.jar.rows.Keys + {token}
    && end.jar.rows[token].expiresAt == expiresAt && !end.jar.rows[token].consumed
    && end == Broadcast(b, tab, NewsOf(news), false).(jar := end.jar)
  }

  function NewsOf(held: Held): Message {
    TokenNews(held.accessToken, held.expiresAtMs)
  }

  lemma WholeRefresh(b: Browser, tab: nat, now: int, token: string, expiresAt: int, news: Held)
    requires CanRenew(b, tab, now) && token !in b.jar.rows
    ensures Refreshed(b, RunOf(b, RefreshRun(tab, now, token, expiresAt, news)), tab, token, expiresAt, news)
  {
    var receive := Receive(news.accessToken, news.expiresAtMs);
    RunFive(b, Acquire(tab), Ask(now), Rotate(now), Renew(token, expiresAt, true), receive);
    var asked := StepOf(StepOf(b, Acquire(tab)), Ask(now));
    assert asked == b.(jar := b.jar.(exchange := Requested(tab, b.jar.cookie)));
    var renewed := StepOf(StepOf(asked, Rotate(now)), Renew(token, expiresAt, true));
    assert renewed.jar.exchange == Replied(tab, b.jar.cookie, Renewed(token));
    assert renewed == b.(jar := renewed.jar);
  }

  /** A whole sign-in: the browser ends with the new cookie, the tab signed in with the new token, the siblings told. */
  lemma WholeSignIn(b: Browser, id: nat, tab: nat, userId: string, token: string, expiresAt: int, news: Held)
    requires id !in b.jar.signIns && token !in b.jar.rows && tab in b.tabs
    ensures var answered := StepOf(StepOf(b, StartSignIn(id, tab)), AnswerSignIn(id, userId, token, expiresAt));
            var end := StepOf(answered, ReceiveSignIn(id, news.accessToken, news.expiresAtMs));
            && answered.jar.cookie == b.jar.cookie && answered.tabs == b.tabs
            && end.jar.cookie == Some(token) && end.jar.rows == b.jar.rows[token := Row(userId, expiresAt, false)]
            && end.jar.alarms == b.jar.alarms && id !in end.jar.signIns
            && end.tabs[tab] == Tab(Some(news), SignedIn) && end.mail == Told(b.mail, tab, NewsOf(news))
            && forall t | t in b.tabs && t != tab :: t in end.tabs && end.tabs[t] == b.tabs[t]
  {
  }

  /** A whole sign-out: the presented token is spent, the cookie gone, the tab signed out, the siblings told. */
  lemma WholeSignOut(b: Browser, id: nat, tab: nat, now: int)
    requires id !in b.jar.calls && tab in b.tabs && Accepts(b.jar.rows, b.jar.cookie, now)
    ensures var handled := StepOf(StepOf(b, StartSignOut(id, tab)), Handle(id, now));
            var end := StepOf(handled, ReceiveSignOut(id));
            && handled.jar.cookie == b.jar.cookie && handled.tabs == b.tabs
            && end.jar.cookie == None && end.jar.alarms == b.jar.alarms && id !in end.jar.calls
            && end.jar.rows
               == b.jar.rows[b.jar.cookie.value := b.jar.rows[b.jar.cookie.value].(consumed := true)]
            && end.tabs[tab] == Tab(None, SignedOut(None)) && end.mail == Told(b.mail, tab, SessionOver(None))
            && forall t | t in b.tabs && t != tab :: t in end.tabs && end.tabs[t] == b.tabs[t]
  {
  }

  /**
   * A refresh that is refused: with no cookie the tab is signed out without a word; a spent
   * or unknown cookie goes, and its tab is told which of the two it was.
   */
  lemma RefusedRefresh(b: Browser, tab: nat, now: int, access: string, expiresAtMs: int)
    requires b.jar.exchange.Free? && tab in b.tabs && !IsFresh(b.tabs[tab].held, now)
    requires !Accepts(b.jar.rows, b.jar.cookie, now)
    ensures var rotated := StepOf(StepOf(StepOf(b, Acquire(tab)), Ask(now)), Rotate(now));
            var end := StepOf(rotated, Receive(access, expiresAtMs));
            var reused := b.jar.cookie.Some? && b.jar.cookie.value in b.jar.rows && b.jar.rows[b.jar.cookie.value].consumed;
            var notice := if b.jar.cookie == None then None
                          else if reused then Some("Your session was ended for security reasons. Sign in again.")
                          else Some("Your session has expired. Sign in again.");
            && end.jar.exchange.Free? && end.jar.cookie == None
            && end.jar.alarms == b.jar.alarms + (if reused then 1 else 0)
            && end.tabs[tab] == Tab(None, SignedOut(notice)) && end.mail == Told(b.mail, tab, SessionOver(notice))
  {
    var asked := StepOf(StepOf(b, Acquire(tab)), Ask(now));
    assert asked == b.(jar := b.jar.(exchange := Requested(tab, b.jar.cookie)));
  }

  lemma SecondCanRenew(b: Browser, middle: Browser, left: nat, right: nat, now: int, first: string, second: string,
                       expiresAt: int, news: Held)
    requires Refreshed(b, middle, left, first, expiresAt, news) && CanRenew(b, right, now) && left != right
    requires second !in b.jar.rows && first != second && now <= expiresAt
    ensures CanRenew(middle, right, now) && second !in middle.jar.rows
  {
  }

  /** Two tabs that each hear the other's outcome after their own end up holding each other's. */
  lemma HeardAcross(b: Browser, left: nat, right: nat, fromLeft: Message, fromRight: Message)
    requires left in b.tabs && right in b.tabs && b.mail.Keys == b.tabs.Keys && left != right && Delivered(b)
    ensures var sent := Broadcast(Broadcast(b, left, fromLeft, false), right, fromRight, false);
            var end := Deliver1(Deliver1(sent, left), right);
            && left in end.tabs && right in end.tabs
            && (b.tabs.Keys == {left, right} ==> Delivered(end))
            && end.tabs[left].held == TokenIn(fromRight) && end.tabs[right].held == TokenIn(fromLeft)
  {
  }

  lemma BothHeard(b: Browser, middle: Browser, sent: Browser, left: nat, right: nat, first: string, second: string,
                  expiresAt: int, fromLeft: Held, fromRight: Held)
    requires b.mail.Keys == b.tabs.Keys == {left, right} && left != right && Delivered(b)
    requires Refreshed(b, middle, left, first, expiresAt, fromLeft)
    requires Refreshed(middle, sent, right, second, expiresAt, fromRight)
    ensures var end := RunOf(sent, [Deliver(left), Deliver(right)]);
            && Delivered(end) && end.jar.alarms == b.jar.alarms && left in end.tabs && right in end.tabs
            && end.tabs[left].held == Some(fromRight) && end.tabs[right].held == Some(fromLeft)
  {
    RunTwo(sent, Deliver(left), Deliver(right));
    var one := Broadcast(b, left, NewsOf(fromLeft), false);
    var two := Broadcast(one, right, NewsOf(fromRight), false);
    assert middle == one.(jar := middle.jar) && sent == two.(jar := sent.jar);
    HeardAcross(b, left, right, NewsOf(fromLeft), NewsOf(fromRight));
    assert StepOf(sent, Deliver(left)) == Deliver1(two, left).(jar := sent.jar);
  }

  /**
   * Outcomes can cross: one tab refreshes, the other refreshes before it has heard of
   * it, and once both have heard each other they hold each other's token.
   */
  lemma CrossingOutcomesSwap(b: Browser, left: nat, right: nat, now: int, first: string, second: string,
                             expiresAt: int, fromLeft: Held, fromRight: Held)
    requires b.mail.Keys == b.tabs.Keys == {left, right} && left != right && Delivered(b)
    requires CanRenew(b, left, now) && CanRenew(b, right, now)
    requires first !in b.jar.rows && second !in b.jar.rows && first != second && now <= expiresAt
    ensures var events := RefreshRun(left, now, first, expiresAt, fromLeft)
                          + RefreshRun(right, now, second, expiresAt, fromRight) + [Deliver(left), Deliver(right)];
            var end := RunOf(b, events);
            && Delivered(end) && end.jar.alarms == b.jar.alarms && left in end.tabs && right in end.tabs
            && end.tabs[left].held == Some(fromRight) && end.tabs[right].held == Some(fromLeft)
  {
    var one, two := RefreshRun(left, now, first, expiresAt, fromLeft), RefreshRun(right, now, second, expiresAt, fromRight);
    var middle := RunOf(b, one);
    RunJoins(b, one + two, [Deliver(left), Deliver(right)]);
    RunJoins(b, one, two);
    WholeRefresh(b, left, now, first, expiresAt, fromLeft);
    SecondCanRenew(b, middle, left, right, now, first, second, expiresAt, fromLeft);
    WholeRefresh(middle, right, now, second, expiresAt, fromRight);
    BothHeard(b, middle, RunOf(middle, two), left, right, first, second, expiresAt, fromLeft, fromRight);
  }
}
