/**
 * The login limiter (packages/identity/src/rate-limit.ts): a fixed window of
 * failures per email and one for all, with expired entries swept lazily; and the
 * demo's sliding window (apps/ledger-demo/server/session.ts). Every call reads
 * the clock once.
 */
module RateLimit {
  import opened Wrappers

  datatype Window = Window(count: nat, startMs: int)

  datatype Config = Config(maxPerEmail: nat, maxGlobal: nat, windowMs: nat)

  datatype Decision = Allowed | Denied(retryAfterSeconds: int)

  datatype Limiter = Limiter(perEmail: map<string, Window>, all: Window)

  const SWEEP_SIZE := 10000

  predicate Sensible(c: Config) {
    c.maxPerEmail > 0 && c.maxGlobal > 0 && c.windowMs > 0
  }

  lemma SmallestBudgets()
    ensures Sensible(Config(1, 1, 1))
  {
  }

  predicate Expired(c: Config, w: Window, now: int) {
    now - w.startMs >= c.windowMs
  }

  /** A window past its length starts over. */
  function Current(c: Config, w: Window, now: int): Window {
    if Expired(c, w, now) then Window(0, now) else w
  }

  function Swept(c: Config, perEmail: map<string, Window>, now: int): map<string, Window> {
    map e | e in perEmail && !Expired(c, perEmail[e], now) :: perEmail[e]
  }

  /** The email's window, created when missing; creating one may sweep the expired ones. */
  function WithEmail(c: Config, l: Limiter, email: string, now: int, sweeping: bool): Limiter {
    if email in l.perEmail then l.(perEmail := l.perEmail[email := Current(c, l.perEmail[email], now)])
    else
      var grown := l.perEmail[email := Window(0, now)];
      l.(perEmail := (if sweeping && |grown| > SWEEP_SIZE then Swept(c, grown, now) else grown)[email := Window(0, now)])
  }

  /** With ten thousand emails listed, the next new one leaves only those whose window still runs, and itself. */
  lemma SweptWhenFull(c: Config, l: Limiter, email: string, now: int)
    requires email !in l.perEmail
    ensures var after := WithEmail(c, l, email, now, true).perEmail;
            forall e :: e in after <==> e == email || (e in l.perEmail && (|l.perEmail| >= 10000 ==> now - l.perEmail[e].startMs < c.windowMs))
  {
    assert l.perEmail[email := Window(0, now)].Keys == l.perEmail.Keys + {email};
    assert |l.perEmail[email := Window(0, now)]| == |l.perEmail| + 1 by {
      assert |l.perEmail[email := Window(0, now)].Keys| == |l.perEmail.Keys| + 1;
    }
  }

  function CeilDiv(n: int, d: int): int
    requires d > 0
  {
    -((-n) / d)
  }

  function RetryAfter(c: Config, w: Window, now: int): int {
    var seconds := CeilDiv(w.startMs + c.windowMs - now, 1000);
    if seconds < 1 then 1 else seconds
  }

  function Check(c: Config, l: Limiter, email: string, now: int, sweeping: bool): (Limiter, Decision) {
    var l1 := WithEmail(c, l, email, now, sweeping);
    var e := l1.perEmail[email];
    if e.count >= c.maxPerEmail then (l1, Denied(RetryAfter(c, e, now)))
    else
      var l2 := l1.(all := Current(c, l1.all, now));
      if l2.all.count >= c.maxGlobal then (l2, Denied(RetryAfter(c, l2.all, now))) else (l2, Allowed)
  }

  /** One more failure: the first of a window starts it. */
  function Counted(c: Config, w: Window, now: int): Window {
    var now1 := Current(c, w, now);
    Window(now1.count + 1, if now1.count == 0 then now else now1.startMs)
  }

  function RecordFailure(c: Config, l: Limiter, email: string, now: int, sweeping: bool): Limiter {
    var l1 := WithEmail(c, l, email, now, sweeping);
    l1.(perEmail := l1.perEmail[email := Counted(c, l1.perEmail[email], now)], all := Counted(c, l1.all, now))
  }

  function RecordSuccess(l: Limiter, email: string): Limiter {
    l.(perEmail := l.perEmail - {email})
  }

  /* ------------------------------ waiting it out ------------------------------------ */

  /** Waiting as long as the refusal says expires the window that refused; a second less does not. */
  lemma RetryAfterExpires(c: Config, w: Window, now: int)
    ensures Expired(c, w, now + 1000 * RetryAfter(c, w, now))
    ensures RetryAfter(c, w, now) > 1 ==> !Expired(c, w, now + 1000 * (RetryAfter(c, w, now) - 1))
  {
    CeilBounds(w.startMs + c.windowMs - now);
  }

  /**
   * A refusal, by cause: the email has used up its budget in its running window, or else
   * everyone has theirs; and the wait it names is the time until that window is over.
   */
  lemma DeniedIff(c: Config, l: Limiter, email: string, now: int)
    requires Sensible(c)
    ensures var mine := if email in l.perEmail && !Expired(c, l.perEmail[email], now) then l.perEmail[email] else Window(0, now);
            var d := Check(c, l, email, now, true).1;
            && (d.Denied? <==> mine.count >= c.maxPerEmail
                               || (now - l.all.startMs < c.windowMs && l.all.count >= c.maxGlobal))
            && (d.Denied? ==>
                  var full := if mine.count >= c.maxPerEmail then mine else l.all;
                  && now + 1000 * d.retryAfterSeconds >= full.startMs + c.windowMs
                  && (d.retryAfterSeconds > 1 ==> now + 1000 * (d.retryAfterSeconds - 1) < full.startMs + c.windowMs)
                  && d.retryAfterSeconds >= 1)
  {
    RetryAfterExpires(c, Check(c, l, email, now, true).0.perEmail[email], now);
    RetryAfterExpires(c, l.all, now);
  }

  lemma CeilBounds(n: int)
    ensures 1000 * CeilDiv(n, 1000) >= n && 1000 * (CeilDiv(n, 1000) - 1) < n
  {
  }

  /* ------------------------- the sweep changes no decision --------------------------- */

  /** The part of an email's window a decision can depend on. */
  function Live(c: Config, l: Limiter, email: string, now: int): Option<Window> {
    if email in l.perEmail && !Expired(c, l.perEmail[email], now) && l.perEmail[email].count > 0
    then Some(l.perEmail[email]) else None
  }

  ghost predicate Alike(c: Config, a: Limiter, b: Limiter, now: int) {
    a.all == b.all && forall e :: Live(c, a, e, now) == Live(c, b, e, now)
  }

  datatype Call = Ask(email: string) | Fail(email: string) | Succeed(email: string)

  function After(c: Config, l: Limiter, call: Call, now: int, sweeping: bool): (Limiter, Option<Decision>) {
    match call
    case Ask(email) => var (l1, d) := Check(c, l, email, now, sweeping); (l1, Some(d))
    case Fail(email) => (RecordFailure(c, l, email, now, sweeping), None)
    case Succeed(email) => (RecordSuccess(l, email), None)
  }

  /** Time passing forgets the same windows in both. */
  lemma AlikeLater(c: Config, a: Limiter, b: Limiter, now: int, later: int)
    requires Alike(c, a, b, now) && now <= later
    ensures Alike(c, a, b, later)
  {
    forall e ensures Live(c, a, e, later) == Live(c, b, e, later) {
      assert Live(c, a, e, now) == Live(c, b, e, now);
    }
  }

  /** Touching an email changes nothing a decision depends on. */
  lemma WithEmailLive(c: Config, l: Limiter, email: string, now: int, sweeping: bool)
    requires Sensible(c)
    ensures forall e :: Live(c, WithEmail(c, l, email, now, sweeping), e, now) == Live(c, l, e, now)
    ensures var w := WithEmail(c, l, email, now, sweeping).perEmail[email];
            !Expired(c, w, now) && (Live(c, l, email, now) == if w.count > 0 then Some(w) else None)
    ensures WithEmail(c, l, email, now, sweeping).all == l.all
  {
  }

  lemma AskAlike(c: Config, a: Limiter, b: Limiter, email: string, now: int)
    requires Sensible(c) && Alike(c, a, b, now)
    ensures Check(c, a, email, now, true).1 == Check(c, b, email, now, false).1
    ensures Alike(c, Check(c, a, email, now, true).0, Check(c, b, email, now, false).0, now)
  {
    WithEmailLive(c, a, email, now, true);
    WithEmailLive(c, b, email, now, false);
    var a1, b1 := Check(c, a, email, now, true).0, Check(c, b, email, now, false).0;
    assert Live(c, a, email, now) == Live(c, b, email, now);
    forall e ensures Live(c, a1, e, now) == Live(c, b1, e, now) {
      assert Live(c, a1, e, now) == Live(c, WithEmail(c, a, email, now, true), e, now);
      assert Live(c, b1, e, now) == Live(c, WithEmail(c, b, email, now, false), e, now);
      assert Live(c, a, e, now) == Live(c, b, e, now);
    }
  }

  lemma SucceedAlike(c: Config, a: Limiter, b: Limiter, email: string, now: int)
    requires Alike(c, a, b, now)
    ensures Alike(c, RecordSuccess(a, email), RecordSuccess(b, email), now)
  {
    forall e ensures Live(c, RecordSuccess(a, email), e, now) == Live(c, RecordSuccess(b, email), e, now) {
      assert Live(c, a, e, now) == Live(c, b, e, now);
    }
  }

  lemma CallsAlike(c: Config, a: Limiter, b: Limiter, call: Call, now: int)
    requires Sensible(c) && Alike(c, a, b, now)
    ensures After(c, a, call, now, true).1 == After(c, b, call, now, false).1
    ensures Alike(c, After(c, a, call, now, true).0, After(c, b, call, now, false).0, now)
  {
    match call
    case Ask(email) => AskAlike(c, a, b, email, now);
    case Fail(email) => FailAlike(c, a, b, email, now);
    case Succeed(email) => SucceedAlike(c, a, b, email, now);
  }

  lemma FailAlike(c: Config, a: Limiter, b: Limiter, email: string, now: int)
    requires Sensible(c) && Alike(c, a, b, now)
    ensures Alike(c, RecordFailure(c, a, email, now, true), RecordFailure(c, b, email, now, false), now)
  {
    WithEmailLive(c, a, email, now, true);
    WithEmailLive(c, b, email, now, false);
    var a1, b1 := RecordFailure(c, a, email, now, true), RecordFailure(c, b, email, now, false);
    assert Live(c, a, email, now) == Live(c, b, email, now);
    assert a1.perEmail[email] == b1.perEmail[email];
    forall e ensures Live(c, a1, e, now) == Live(c, b1, e, now) {
      assert Live(c, a, e, now) == Live(c, b, e, now);
      if e != email {
        assert Live(c, a1, e, now) == Live(c, WithEmail(c, a, email, now, true), e, now);
        assert Live(c, b1, e, now) == Live(c, WithEmail(c, b, email, now, false), e, now);
      }
    }
  }

  function Decisions(c: Config, l: Limiter, calls: seq<(Call, int)>, sweeping: bool): seq<Option<Decision>>
    decreases |calls|
  {
    if calls == [] then []
    else
      var (l1, d) := After(c, l, calls[0].0, calls[0].1, sweeping);
      [d] + Decisions(c, l1, calls[1..], sweeping)
  }

  predicate ClockForward(calls: seq<(Call, int)>, start: int) {
    forall i | 0 <= i < |calls| :: start <= calls[i].1 && (i > 0 ==> calls[i - 1].1 <= calls[i].1)
  }

  /** Calls may share a moment. */
  lemma SameMoment(one: Call, other: Call, now: int)
    ensures ClockForward([(one, now), (other, now)], now)
  {
  }

  /** Over any run the limiter answers exactly as one that never sweeps. */
  lemma {:induction false} SweepChangesNoDecision(c: Config, a: Limiter, b: Limiter, calls: seq<(Call, int)>, start: int)
    requires Sensible(c) && Alike(c, a, b, start) && ClockForward(calls, start)
    ensures Decisions(c, a, calls, true) == Decisions(c, b, calls, false)
    decreases |calls|
  {
    if calls != [] {
      var (call, now) := calls[0];
      AlikeLater(c, a, b, start, now);
      CallsAlike(c, a, b, call, now);
      assert ClockForward(calls[1..], now) by {
        ClockRest(calls, start);
      }
      SweepChangesNoDecision(c, After(c, a, call, now, true).0, After(c, b, call, now, false).0, calls[1..], now);
    }
  }

  lemma {:induction false} ClockRest(calls: seq<(Call, int)>, start: int)
    requires calls != [] && ClockForward(calls, start)
    ensures ClockForward(calls[1..], calls[0].1)
  {
    var rest := calls[1..];
    forall i | 0 <= i < |rest| ensures calls[0].1 <= rest[i].1 && (i > 0 ==> rest[i - 1].1 <= rest[i].1) {
      ClockFromFirst(calls, start, i + 1);
    }
  }

  lemma {:induction false} ClockFromFirst(calls: seq<(Call, int)>, start: int, i: nat)
    requires i < |calls| && ClockForward(calls, start)
    ensures calls[0].1 <= calls[i].1
  {
    if i > 0 {
      ClockFromFirst(calls, start, i - 1);
    }
  }

  /* ------------------------------ how many get through ------------------------------- */

  /**
   * Every failure recorded so far, in order, and where in that list each window
   * began: `starts` is kept beside the limiter to say what its window stands for.
   */
  datatype Log = Log(failures: seq<int>, starts: seq<nat>)

  function Logged(c: Config, log: Log, w: Window, now: int): Log {
    Log(log.failures + [now],
        if Current(c, w, now).count == 0 then log.starts + [|log.failures|] else log.starts)
  }

  /** The list in time order, cut into windows of at most `max` that begin a window's length apart. */
  ghost predicate CutIntoWindows(c: Config, max: nat, log: Log) {
    && InOrder(log.failures)
    && (log.failures == [] <==> log.starts == [])
    && (log.starts != [] ==> log.starts[0] == 0)
    && (forall j | 0 <= j < |log.starts| :: log.starts[j] < |log.failures|)
    && (forall j | 0 <= j < |log.starts| - 1 :: OpensAfter(c, max, log.failures, log.starts[j], log.starts[j + 1]))
  }

  /** Two consecutive windows: at most `max` failures and at least a window's length apart. */
  predicate OpensAfter(c: Config, max: nat, failures: seq<int>, first: nat, next: nat)
    requires first < |failures| && next < |failures|
  {
    first < next <= first + max && failures[first] + c.windowMs <= failures[next]
  }

  predicate InOrder(times: seq<int>) {
    forall i, k | 0 <= i < k < |times| :: times[i] <= times[k]
  }

  lemma InOrderGrows(times: seq<int>, now: int)
    requires InOrder(times) && (times != [] ==> times[|times| - 1] <= now)
    ensures InOrder(times + [now])
  {
  }

  /** The limiter's window is the last one of the list. */
  ghost predicate Tracks(c: Config, max: nat, log: Log, w: Window, now: int) {
    && CutIntoWindows(c, max, log)
    && (log.failures != [] ==> log.failures[|log.failures| - 1] <= now)
    && w.count <= max
    && (log.starts != [] ==>
          var first := log.starts[|log.starts| - 1];
          && |log.failures| - first <= max
          && (if w.count > 0 then w.count == |log.failures| - first && w.startMs == log.failures[first]
              else log.failures[first] + c.windowMs <= now))
    && (log.starts == [] ==> w.count == 0)
  }

  lemma TracksLater(c: Config, max: nat, log: Log, w: Window, now: int, later: int)
    requires Tracks(c, max, log, w, now) && now <= later
    ensures Tracks(c, max, log, w, later) && Tracks(c, max, log, Current(c, w, later), later)
  {
  }

  lemma CutGrows(c: Config, max: nat, log: Log, now: int, opens: bool)
    requires CutIntoWindows(c, max, log)
    requires log.failures != [] ==> log.failures[|log.failures| - 1] <= now
    requires !opens ==> log.starts != []
    requires opens && log.starts != [] ==>
               var first := log.starts[|log.starts| - 1];
               |log.failures| - first <= max && log.failures[first] + c.windowMs <= now
    ensures CutIntoWindows(c, max, Log(log.failures + [now], if opens then log.starts + [|log.failures|] else log.starts))
  {
  }

  /** A failure let through while the window has room keeps the list cut that way. */
  lemma TracksFailure(c: Config, max: nat, log: Log, w: Window, now: int)
    requires Tracks(c, max, log, w, now) && Current(c, w, now).count < max
    ensures Tracks(c, max, Logged(c, log, w, now), Counted(c, w, now), now)
  {
    TracksLater(c, max, log, w, now, now);
    CutGrows(c, max, log, now, Current(c, w, now).count == 0);
  }

  /** The window a failure belongs to. */
  lemma {:induction false} WindowOf(c: Config, max: nat, log: Log, i: nat, j: nat) returns (k: nat)
    requires CutIntoWindows(c, max, log) && i < |log.failures| && j < |log.starts| && log.starts[j] <= i
    ensures j <= k < |log.starts| && log.starts[k] <= i
    ensures k + 1 < |log.starts| ==> i < log.starts[k + 1]
    decreases |log.starts| - j
  {
    if j + 1 < |log.starts| && log.starts[j + 1] <= i {
      k := WindowOf(c, max, log, i, j + 1);
    } else {
      k := j;
    }
  }

  /** Any `2 * max` failures in a row span at least a window's length. */
  lemma SpanOfTwiceTheBudget(c: Config, max: nat, log: Log, w: Window, now: int, i: nat)
    requires max > 0 && Tracks(c, max, log, w, now) && i + 2 * max - 1 < |log.failures|
    ensures log.failures[i] + c.windowMs <= log.failures[i + 2 * max - 1]
  {
    var last := i + 2 * max - 1;
    var k := WindowOf(c, max, log, i, 0);
    if k + 1 < |log.starts| {
      assert OpensAfter(c, max, log.failures, log.starts[k], log.starts[k + 1]);
      if log.starts[k] < i && k + 2 < |log.starts| {
        assert OpensAfter(c, max, log.failures, log.starts[k + 1], log.starts[k + 2]);
        assert log.starts[k + 2] <= log.starts[k + 1] + max <= log.starts[k] + 2 * max <= last;
        assert log.failures[i] <= log.failures[log.starts[k + 1]];
        assert log.failures[log.starts[k + 2]] <= log.failures[last];
      } else {
        assert log.failures[log.starts[k + 1]] <= log.failures[last];
      }
    }
  }

  /* ------------------- attempts in flight: checked now, settled later -------------------- */

  /** What a bound is about: the failures of all emails, or of one since it last signed in. */
  type Scope = Option<string>

  predicate Covers(scope: Scope, email: string) {
    scope.None? || scope.value == email
  }

  function Budget(c: Config, scope: Scope): nat {
    if scope.None? then c.maxGlobal else c.maxPerEmail
  }

  /** The window a check of that scope reads: an email without one has an empty one. */
  function Seen(l: Limiter, scope: Scope): Window {
    match scope
    case None => l.all
    case Some(email) => if email in l.perEmail then l.perEmail[email] else Window(0, 0)
  }

  /** A check that lets an attempt through puts it in flight; it is settled by a later call. */
  datatype Move = Begin(id: nat, email: string, now: int) | Settle(id: nat, succeeds: bool, now: int)

  datatype Desk = Desk(limiter: Limiter, inFlight: map<nat, string>, log: Log)

  const NewDesk := Desk(Limiter(map[], Window(0, 0)), map[], Log([], []))

  function Pending(d: Desk, scope: Scope): set<nat> {
    set id | id in d.inFlight && Covers(scope, d.inFlight[id])
  }

  predicate Possible(d: Desk, m: Move) {
    m.Begin? <==> m.id !in d.inFlight
  }

  /** `log` keeps the failures the scope covers; a success of its one email starts it afresh. */
  function Moved(c: Config, scope: Scope, d: Desk, m: Move): Desk
    requires Possible(d, m)
  {
    match m
    case Begin(id, email, now) =>
      var (l, decision) := Check(c, d.limiter, email, now, true);
      Desk(l, if decision.Allowed? then d.inFlight[id := email] else d.inFlight, d.log)
    case Settle(id, succeeds, now) =>
      var email := d.inFlight[id];
      if succeeds then
        Desk(RecordSuccess(d.limiter, email), d.inFlight - {id}, if scope == Some(email) then Log([], []) else d.log)
      else
        Desk(RecordFailure(c, d.limiter, email, now, true), d.inFlight - {id},
             if Covers(scope, email) then Logged(c, d.log, Seen(d.limiter, scope), now) else d.log)
  }

  /** A move that cannot happen here is no move. */
  function MoveOf(c: Config, scope: Scope, d: Desk, m: Move): Desk {
    if Possible(d, m) then Moved(c, scope, d, m) else d
  }

  function RunOf(c: Config, scope: Scope, d: Desk, moves: seq<Move>): Desk
    decreases |moves|
  {
    if moves == [] then d else RunOf(c, scope, MoveOf(c, scope, d, moves[0]), moves[1..])
  }

  /** The clock does not go back, and at most `p` attempts of the scope are in flight at once. */
  predicate Orderly(c: Config, scope: Scope, p: nat, d: Desk, moves: seq<Move>, clock: int)
    decreases |moves|
  {
    moves == []
    || (&& clock <= moves[0].now
        && (moves[0].Begin? && Covers(scope, moves[0].email) ==> |Pending(d, scope)| < p)
        && Orderly(c, scope, p, MoveOf(c, scope, d, moves[0]), moves[1..], moves[0].now))
  }

  /** With `p` in flight, a window can take in `p - 1` failures more than its budget. */
  function Reach(c: Config, scope: Scope, p: nat): int {
    Budget(c, scope) + p - 1
  }

  ghost predicate InReach(c: Config, scope: Scope, p: nat, d: Desk, now: int) {
    && Reach(c, scope, p) >= 0
    && Tracks(c, Reach(c, scope, p), d.log, Seen(d.limiter, scope), now)
    && Seen(d.limiter, scope).count + |Pending(d, scope)| <= Reach(c, scope, p)
  }

  /** An empty window stands for any that has expired, or that was empty already. */
  lemma TracksEmptied(c: Config, max: nat, log: Log, w: Window, now: int, empty: Window)
    requires Tracks(c, max, log, w, now) && empty.count == 0 && (w.count == 0 || Expired(c, w, now))
    ensures Tracks(c, max, log, empty, now)
  {
  }

  /** The window is as it was, or an empty one in place of one that has expired or was empty. */
  predicate Eased(c: Config, before: Window, after: Window, now: int) {
    after == before || (after.count == 0 && (before.count == 0 || Expired(c, before, now)))
  }

  /** A check at most eases the windows, and lets through only while those it reads have room. */
  lemma CheckSeen(c: Config, l: Limiter, email: string, scope: Scope, now: int)
    requires Sensible(c)
    ensures var (l1, decision) := Check(c, l, email, now, true);
            && Eased(c, Seen(l, scope), Seen(l1, scope), now)
            && (decision.Allowed? && Covers(scope, email) ==> Seen(l1, scope).count < Budget(c, scope))
  {
  }

  /** A failure counts in the windows that cover its email, and at most eases the others. */
  lemma FailureSeen(c: Config, l: Limiter, email: string, scope: Scope, now: int)
    requires Sensible(c)
    ensures var before, after := Seen(l, scope), Seen(RecordFailure(c, l, email, now, true), scope);
            if Covers(scope, email) then after == Counted(c, before, now) else Eased(c, before, after, now)
  {
  }

  lemma TracksEased(c: Config, max: nat, log: Log, before: Window, after: Window, now: int)
    requires Tracks(c, max, log, before, now) && Eased(c, before, after, now)
    ensures Tracks(c, max, log, after, now)
  {
    if after != before {
      TracksEmptied(c, max, log, before, now, after);
    }
  }

  lemma BeginPends(d: Desk, scope: Scope, id: nat, email: string)
    requires id !in d.inFlight
    ensures var next := d.(inFlight := d.inFlight[id := email]);
            |Pending(next, scope)| == |Pending(d, scope)| + if Covers(scope, email) then 1 else 0
  {
    var next := d.(inFlight := d.inFlight[id := email]);
    assert Pending(next, scope) == Pending(d, scope) + if Covers(scope, email) then {id} else {};
  }

  lemma SettlePends(d: Desk, scope: Scope, id: nat)
    requires id in d.inFlight
    ensures var next := d.(inFlight := d.inFlight - {id});
            |Pending(d, scope)| == |Pending(next, scope)| + if Covers(scope, d.inFlight[id]) then 1 else 0
  {
    var next := d.(inFlight := d.inFlight - {id});
    assert Pending(next, scope) == Pending(d, scope) - {id};
  }

  lemma BeginInReach(c: Config, scope: Scope, p: nat, d: Desk, m: Move, start: int)
    requires Sensible(c) && InReach(c, scope, p, d, start) && start <= m.now && Possible(d, m) && m.Begin?
    requires Covers(scope, m.email) ==> |Pending(d, scope)| < p
    ensures InReach(c, scope, p, Moved(c, scope, d, m), m.now)
  {
    var next := Moved(c, scope, d, m);
    var before, after := Seen(d.limiter, scope), Seen(next.limiter, scope);
    TracksLater(c, Reach(c, scope, p), d.log, before, start, m.now);
    CheckSeen(c, d.limiter, m.email, scope, m.now);
    TracksEased(c, Reach(c, scope, p), d.log, before, after, m.now);
    BeginPends(d, scope, m.id, m.email);
    assert Pending(next, scope) == Pending(d, scope)
           || Pending(next, scope) == Pending(d.(inFlight := d.inFlight[m.id := m.email]), scope);
  }

  lemma SettleInReach(c: Config, scope: Scope, p: nat, d: Desk, m: Move, start: int)
    requires Sensible(c) && InReach(c, scope, p, d, start) && start <= m.now && Possible(d, m) && m.Settle?
    ensures InReach(c, scope, p, Moved(c, scope, d, m), m.now)
  {
    var next := Moved(c, scope, d, m);
    var email, max := d.inFlight[m.id], Reach(c, scope, p);
    var before := Seen(d.limiter, scope);
    TracksLater(c, max, d.log, before, start, m.now);
    SettlePends(d, scope, m.id);
    assert Pending(next, scope) == Pending(d.(inFlight := d.inFlight - {m.id}), scope);
    if !m.succeeds {
      FailureSeen(c, d.limiter, email, scope, m.now);
      if Covers(scope, email) {
        TracksFailure(c, max, d.log, before, m.now);
      } else {
        TracksEased(c, max, d.log, before, Seen(next.limiter, scope), m.now);
      }
    }
  }

  lemma {:induction false} RunInReach(c: Config, scope: Scope, p: nat, d: Desk, moves: seq<Move>, start: int)
    returns (end: int)
    requires Sensible(c) && InReach(c, scope, p, d, start) && Orderly(c, scope, p, d, moves, start)
    ensures InReach(c, scope, p, RunOf(c, scope, d, moves), end)
    decreases |moves|
  {
    if moves == [] {
      end := start;
    } else {
      var m := moves[0];
      if !Possible(d, m) {
        TracksLater(c, Reach(c, scope, p), d.log, Seen(d.limiter, scope), start, m.now);
      } else if m.Begin? {
        BeginInReach(c, scope, p, d, m, start);
      } else {
        SettleInReach(c, scope, p, d, m, start);
      }
      end := RunInReach(c, scope, p, MoveOf(c, scope, d, m), moves[1..], m.now);
    }
  }

  lemma BudgetOfTracked(c: Config, max: nat, log: Log, w: Window, now: int, i: nat, k: nat)
    requires max > 0 && Tracks(c, max, log, w, now)
    requires i <= k < |log.failures| && log.failures[k] < log.failures[i] + c.windowMs
    ensures k - i + 1 <= 2 * max - 1
  {
    var last := i + 2 * max - 1;
    if last <= k {
      SpanOfTwiceTheBudget(c, max, log, w, now, i);
    }
  }

  /**
   * However checks and settlements interleave with at most `p` attempts in flight, no
   * half-open interval of a window's length holds as many failures as twice the budget
   * and the `p - 1` that can overrun it; for all emails together against the global
   * budget, and for one email since it last signed in against its own, although other
   * emails' attempts may sweep its window away.
   */
  lemma BudgetHolds(c: Config, scope: Scope, p: nat, moves: seq<Move>, start: int, i: nat, k: nat)
    requires Sensible(c) && p > 0 && Orderly(c, scope, p, NewDesk, moves, start)
    requires var failures := RunOf(c, scope, NewDesk, moves).log.failures;
             i <= k < |failures| && failures[k] < failures[i] + c.windowMs
    ensures k - i + 1 <= 2 * (Budget(c, scope) + p - 1) - 1
  {
    var end := RunInReach(c, scope, p, NewDesk, moves, start);
    var after := RunOf(c, scope, NewDesk, moves);
    BudgetOfTracked(c, Reach(c, scope, p), after.log, Seen(after.limiter, scope), end, i, k);
  }

  /* ------------------------------ the bound is reached ----------------------------------- */

  lemma {:induction false} RunJoins(c: Config, scope: Scope, p: nat, d: Desk, first: seq<Move>, rest: seq<Move>,
                                    clock: int, middle: int)
    requires Orderly(c, scope, p, d, first, clock) && clock <= middle
    requires forall i | 0 <= i < |first| :: first[i].now <= middle
    requires Orderly(c, scope, p, RunOf(c, scope, d, first), rest, middle)
    ensures RunOf(c, scope, d, first + rest) == RunOf(c, scope, RunOf(c, scope, d, first), rest)
    ensures Orderly(c, scope, p, d, first + rest, clock)
    decreases |first|
  {
    if first == [] {
      assert first + rest == rest;
      LaterClock(c, scope, p, d, rest, clock, middle);
    } else {
      assert (first + rest)[1..] == first[1..] + rest;
      assert forall i | 0 <= i < |first[1..]| :: first[1..][i] == first[i + 1];
      RunJoins(c, scope, p, MoveOf(c, scope, d, first[0]), first[1..], rest, first[0].now, middle);
    }
  }

  lemma LaterClock(c: Config, scope: Scope, p: nat, d: Desk, moves: seq<Move>, clock: int, later: int)
    requires clock <= later && Orderly(c, scope, p, d, moves, later)
    ensures Orderly(c, scope, p, d, moves, clock)
  {
  }

  /** One email's budget can be used up only if it is no larger than everyone's. */
  predicate Reachable(c: Config, scope: Scope) {
    Budget(c, scope) <= c.maxGlobal
  }

  /** The email of an attempt: the scope's own, or one to itself. */
  function Name(scope: Scope, id: nat): string {
    if scope.Some? then scope.value else seq(id, _ => 'a')
  }

  function Flight(scope: Scope, lo: nat, hi: nat): map<nat, string> {
    map id: nat | lo <= id < hi :: Name(scope, id)
  }

  lemma {:induction false} FlightSize(scope: Scope, lo: nat, hi: nat)
    requires lo <= hi
    ensures |Flight(scope, lo, hi).Keys| == hi - lo
    decreases hi
  {
    if lo < hi {
      FlightSize(scope, lo, hi - 1);
      assert Flight(scope, lo, hi).Keys == Flight(scope, lo, hi - 1).Keys + {hi - 1};
    } else {
      assert Flight(scope, lo, hi).Keys == {};
    }
  }

  /** Attempts `lo..hi` are in flight, and those from `base` on before them have failed in this window. */
  ghost predicate Conveying(c: Config, scope: Scope, d: Desk, base: nat, lo: nat, hi: nat, first: int) {
    && base <= lo <= hi && d.inFlight == Flight(scope, lo, hi)
    && (scope.None? ==> forall e | e in d.limiter.perEmail :: |e| < hi)
    && (if lo == base then
          Current(c, d.limiter.all, first).count == Current(c, Seen(d.limiter, scope), first).count == 0
        else d.limiter.all == Seen(d.limiter, scope) == Window(lo - base, first))
  }

  /** The move can happen, within `p`, and leads to this desk. */
  predicate Leads(c: Config, scope: Scope, p: nat, d: Desk, m: Move, next: Desk) {
    Possible(d, m) && (m.Begin? ==> |Pending(d, scope)| < p) && Moved(c, scope, d, m) == next
  }

  lemma BeginConveys(c: Config, scope: Scope, p: nat, d: Desk, base: nat, lo: nat, hi: nat, first: int, now: int)
    returns (next: Desk)
    requires Sensible(c) && Reachable(c, scope) && Conveying(c, scope, d, base, lo, hi, first) && hi < lo + p && lo < base + Budget(c, scope)
    requires first <= now < first + c.windowMs && (lo == base ==> now == first)
    ensures Leads(c, scope, p, d, Begin(hi, Name(scope, hi), now), next)
    ensures Conveying(c, scope, next, base, lo, hi + 1, first) && next.log == d.log
  {
    FlightSize(scope, lo, hi);
    assert Pending(d, scope) == Flight(scope, lo, hi).Keys;
    assert scope.None? ==> Name(scope, hi) !in d.limiter.perEmail;
    assert Flight(scope, lo, hi)[hi := Name(scope, hi)] == Flight(scope, lo, hi + 1);
    next := Moved(c, scope, d, Begin(hi, Name(scope, hi), now));
  }

  lemma SettleConveys(c: Config, scope: Scope, d: Desk, base: nat, lo: nat, hi: nat, first: int, now: int) returns (next: Desk)
    requires Sensible(c) && Reachable(c, scope) && Conveying(c, scope, d, base, lo, hi, first) && lo < hi
    requires first <= now < first + c.windowMs && (lo == base ==> now == first)
    ensures Leads(c, scope, 0, d, Settle(lo, false, now), next)
    ensures Conveying(c, scope, next, base, lo + 1, hi, first) && next.log.failures == d.log.failures + [now]
  {
    assert Flight(scope, lo, hi) - {lo} == Flight(scope, lo + 1, hi);
    next := Moved(c, scope, d, Settle(lo, false, now));
    FailureCounts(c, scope, d.limiter, lo, base, lo, first, now);
    FailureNames(c, scope, d.limiter, lo, hi, now);
  }

  /** The failure counts in the global window and in the scope's. */
  lemma FailureCounts(c: Config, scope: Scope, l: Limiter, id: nat, base: nat, lo: nat, first: int, now: int)
    requires Sensible(c) && base <= lo && first <= now < first + c.windowMs && (lo == base ==> now == first)
    requires if lo == base then Current(c, l.all, first).count == Current(c, Seen(l, scope), first).count == 0
             else l.all == Seen(l, scope) == Window(lo - base, first)
    ensures var after := RecordFailure(c, l, Name(scope, id), now, true);
            after.all == Seen(after, scope) == Window(lo + 1 - base, first)
  {
    FailureSeen(c, l, Name(scope, id), None, now);
    FailureSeen(c, l, Name(scope, id), scope, now);
  }

  lemma FailureNames(c: Config, scope: Scope, l: Limiter, id: nat, hi: nat, now: int)
    requires scope.None? && id < hi ==> forall e | e in l.perEmail :: |e| < hi
    ensures scope.None? && id < hi ==>
              forall e | e in RecordFailure(c, l, Name(scope, id), now, true).perEmail :: |e| < hi
  {
    assert scope.None? ==> |Name(scope, id)| == id;
  }

  /** Failures recorded from the attempt `lo` on, each at its time. */
  function Times(base: nat, lo: nat, end: nat, first: int, later: int): seq<int>
    requires lo <= end
  {
    seq(end - lo, i requires 0 <= i < end - lo => if lo + i == base then first else later)
  }

  /** Orderly moves that begin and fail everything up to `end`, the rest of the window at `later`. */
  ghost predicate Conveyed(c: Config, scope: Scope, p: nat, d: Desk, moves: seq<Move>, base: nat, lo: nat, end: nat,
                           first: int, later: int)
    requires lo <= end
  {
    var after := RunOf(c, scope, d, moves);
    && Orderly(c, scope, p, d, moves, if lo == base then first else later)
    && (forall i | 0 <= i < |moves| :: moves[i].now <= later)
    && Conveying(c, scope, after, base, end, end, first)
    && after.log.failures == d.log.failures + Times(base, lo, end, first, later)
  }

  lemma BeginsConveyed(c: Config, scope: Scope, p: nat, d: Desk, next: Desk, moves: seq<Move>, base: nat, lo: nat,
                       hi: nat, end: nat, first: int, later: int)
    requires lo <= end && first <= later
    requires Leads(c, scope, p, d, Begin(hi, Name(scope, hi), if lo == base then first else later), next) && next.log == d.log
    requires Conveyed(c, scope, p, next, moves, base, lo, end, first, later)
    ensures var all := [Begin(hi, Name(scope, hi), if lo == base then first else later)] + moves;
            Conveyed(c, scope, p, d, all, base, lo, end, first, later)
  {
    var all := [Begin(hi, Name(scope, hi), if lo == base then first else later)] + moves;
    assert all[1..] == moves;
    assert forall i | 0 < i < |all| :: all[i] == moves[i - 1];
  }

  lemma SettlesConveyed(c: Config, scope: Scope, p: nat, d: Desk, next: Desk, moves: seq<Move>, base: nat, lo: nat,
                        end: nat, first: int, later: int)
    requires base <= lo < end && first <= later
    requires var now := if lo == base then first else later;
             Leads(c, scope, 0, d, Settle(lo, false, now), next) && next.log.failures == d.log.failures + [now]
    requires Conveyed(c, scope, p, next, moves, base, lo + 1, end, first, later)
    ensures var all := [Settle(lo, false, if lo == base then first else later)] + moves;
            Conveyed(c, scope, p, d, all, base, lo, end, first, later)
  {
    var now := if lo == base then first else later;
    var all := [Settle(lo, false, now)] + moves;
    assert all[1..] == moves;
    assert forall i | 0 < i < |all| :: all[i] == moves[i - 1];
    LaterClock(c, scope, p, next, moves, now, later);
    assert Times(base, lo, end, first, later) == [now] + Times(base, lo + 1, end, first, later);
  }

  lemma NothingConveyed(c: Config, scope: Scope, p: nat, d: Desk, base: nat, end: nat, first: int, later: int)
    requires Conveying(c, scope, d, base, end, end, first)
    ensures Conveyed(c, scope, p, d, [], base, end, end, first, later)
  {
    assert d.log.failures + Times(base, end, end, first, later) == d.log.failures;
  }

  /**
   * Keep `p` in flight: begin whenever there is room, settle the oldest otherwise, until
   * `end` attempts have begun. The window opens at `first`; the rest happens at `later`.
   */
  lemma {:induction false} Convey(c: Config, scope: Scope, p: nat, d: Desk, base: nat, lo: nat, hi: nat, end: nat, first: int, later: int)
    returns (moves: seq<Move>)
    requires Sensible(c) && Reachable(c, scope) && p > 0 && Conveying(c, scope, d, base, lo, hi, first) && hi <= end == base + Budget(c, scope) + p - 1
    requires first <= later < first + c.windowMs
    requires lo > base ==> hi == end || hi + 1 >= lo + p
    ensures Conveyed(c, scope, p, d, moves, base, lo, end, first, later)
    decreases 2 * end - lo - hi, 1
  {
    if hi < end && hi < lo + p {
      moves := ConveyBegin(c, scope, p, d, base, lo, hi, end, first, later);
    } else if lo < hi {
      moves := ConveySettle(c, scope, p, d, base, lo, hi, end, first, later);
    } else {
      moves := [];
      NothingConveyed(c, scope, p, d, base, end, first, later);
    }
  }

  lemma {:induction false} ConveyBegin(c: Config, scope: Scope, p: nat, d: Desk, base: nat, lo: nat, hi: nat, end: nat, first: int, later: int)
    returns (moves: seq<Move>)
    requires Sensible(c) && Reachable(c, scope) && p > 0 && Conveying(c, scope, d, base, lo, hi, first) && hi <= end == base + Budget(c, scope) + p - 1
    requires first <= later < first + c.windowMs
    requires lo > base ==> hi == end || hi + 1 >= lo + p
    requires hi < end && hi < lo + p
    ensures Conveyed(c, scope, p, d, moves, base, lo, end, first, later)
    decreases 2 * end - lo - hi, 0
  {
    var now := if lo == base then first else later;
    var next := BeginConveys(c, scope, p, d, base, lo, hi, first, now);
    var rest := Convey(c, scope, p, next, base, lo, hi + 1, end, first, later);
    BeginsConveyed(c, scope, p, d, next, rest, base, lo, hi, end, first, later);
    moves := [Begin(hi, Name(scope, hi), now)] + rest;
  }

  lemma {:induction false} ConveySettle(c: Config, scope: Scope, p: nat, d: Desk, base: nat, lo: nat, hi: nat, end: nat, first: int, later: int)
    returns (moves: seq<Move>)
    requires Sensible(c) && Reachable(c, scope) && p > 0 && Conveying(c, scope, d, base, lo, hi, first) && hi <= end == base + Budget(c, scope) + p - 1
    requires first <= later < first + c.windowMs
    requires lo > base ==> hi == end || hi + 1 >= lo + p
    requires lo < hi && (hi == end || hi >= lo + p)
    ensures Conveyed(c, scope, p, d, moves, base, lo, end, first, later)
    decreases 2 * end - lo - hi, 0
  {
    var now := if lo == base then first else later;
    var next := SettleConveys(c, scope, d, base, lo, hi, first, now);
    var rest := Convey(c, scope, p, next, base, lo + 1, hi, end, first, later);
    SettlesConveyed(c, scope, p, d, next, rest, base, lo, end, first, later);
    moves := [Settle(lo, false, now)] + rest;
  }

  /**
   * The bound is reached for every `p`, for all emails together and for one alone: one failure opens a window, the rest of it fails
   * in the window's last millisecond and the whole of the next one right after. So with
   * more than one attempt in flight the bound for one at a time is exceeded.
   */
  lemma BudgetIsTight(c: Config, scope: Scope, p: nat) returns (moves: seq<Move>, i: nat, k: nat)
    requires Sensible(c) && (scope.Some? ==> c.maxPerEmail <= c.maxGlobal) && p > 0 && c.windowMs > 1
    ensures Orderly(c, scope, p, NewDesk, moves, 0)
    ensures var failures := RunOf(c, scope, NewDesk, moves).log.failures;
            && i <= k < |failures| && failures[k] < failures[i] + c.windowMs
            && k - i + 1 == 2 * (Budget(c, scope) + p - 1) - 1
  {
    var n := Budget(c, scope) + p - 1;
    var one := Convey(c, scope, p, NewDesk, 0, 0, 0, n, 0, c.windowMs - 1);
    var middle := RunOf(c, scope, NewDesk, one);
    var two := Convey(c, scope, p, middle, n, n, n, 2 * n, c.windowMs, c.windowMs);
    RunJoins(c, scope, p, NewDesk, one, two, 0, c.windowMs);
    moves, i, k := one + two, 1, 2 * n - 1;
  }

  /* -------------------------------- the demo's window ----------------------------------- */

  const MINUTE_MS := 60000
  const MAX_WRONG_PER_MINUTE: nat := 10

  datatype Answer = Right | Wrong | Limited

  function Recent(wrong: seq<int>, now: int): seq<int> {
    if wrong == [] then []
    else (if wrong[0] > now - MINUTE_MS then [wrong[0]] else []) + Recent(wrong[1..], now)
  }

  /** A try is listed for less than the next 60000 milliseconds. */
  lemma RecentOne(t: int, wrong: seq<int>, now: int)
    ensures Recent([t] + wrong, now) == (if now < t + 60000 then [t] else []) + Recent(wrong, now)
  {
    assert ([t] + wrong)[1..] == wrong;
  }

  lemma {:induction false} AllRecent(wrong: seq<int>, now: int)
    requires forall i | 0 <= i < |wrong| :: wrong[i] > now - MINUTE_MS
    ensures Recent(wrong, now) == wrong
  {
    if wrong != [] {
      AllRecent(wrong[1..], now);
    }
  }

  /** Dropping the old tries drops a prefix: the listed ones are in time order. */
  lemma {:induction false} RecentIsSuffix(wrong: seq<int>, now: int) returns (cut: nat)
    requires InOrder(wrong)
    ensures cut <= |wrong| && Recent(wrong, now) == wrong[cut..]
    ensures forall i | 0 <= i < cut :: wrong[i] <= now - MINUTE_MS
    ensures forall i | cut <= i < |wrong| :: wrong[i] > now - MINUTE_MS
  {
    if wrong == [] {
      cut := 0;
    } else if wrong[0] > now - MINUTE_MS {
      cut := 0;
      AllRecent(wrong, now);
    } else {
      var rest := wrong[1..];
      var c := RecentIsSuffix(rest, now);
      cut := c + 1;
      assert rest[c..] == wrong[cut..];
      forall i | cut <= i < |wrong| ensures wrong[i] > now - MINUTE_MS {
        assert wrong[i] == rest[i - 1];
      }
      forall i | 1 <= i < cut ensures wrong[i] <= now - MINUTE_MS {
        assert wrong[i] == rest[i - 1];
      }
    }
  }

  /** Any eleven wrong tries in a row span at least a minute. */
  ghost predicate TenAMinute(history: seq<int>) {
    forall i | 0 <= i < |history| - MAX_WRONG_PER_MINUTE :: history[i] + MINUTE_MS <= history[i + MAX_WRONG_PER_MINUTE]
  }

  /** One more wrong try, with fewer than ten listed, keeps to it: the tenth before it is an old one. */
  lemma TenAMinuteGrows(dropped: seq<int>, wrong: seq<int>, now: int)
    requires TenAMinute(dropped + wrong) && |wrong| < MAX_WRONG_PER_MINUTE
    requires forall i | 0 <= i < |dropped| :: dropped[i] <= now - MINUTE_MS
    ensures TenAMinute(dropped + wrong + [now])
  {
  }

  /** So no minute, however it is placed, holds more than ten. */
  lemma NoMinuteHoldsEleven(history: seq<int>, i: nat, k: nat)
    requires TenAMinute(history) && InOrder(history) && i + 10 <= k < |history|
    ensures history[i] + 60000 <= history[k]
  {
    assert history[i] + MINUTE_MS <= history[i + MAX_WRONG_PER_MINUTE];
  }

  /** The tries dropped as old and those still listed, as of a time. */
  ghost predicate Tally(dropped: seq<int>, wrong: seq<int>, clock: int) {
    && InOrder(dropped + wrong) && TenAMinute(dropped + wrong)
    && (dropped + wrong != [] ==> (dropped + wrong)[|dropped + wrong| - 1] <= clock)
    && forall i | 0 <= i < |dropped| :: dropped[i] <= clock - MINUTE_MS
  }

  lemma ListedInOrder(dropped: seq<int>, wrong: seq<int>, clock: int)
    requires Tally(dropped, wrong, clock)
    ensures InOrder(wrong)
  {
    forall i, k | 0 <= i < k < |wrong| ensures wrong[i] <= wrong[k] {
      assert (dropped + wrong)[|dropped| + i] <= (dropped + wrong)[|dropped| + k];
    }
  }

  lemma TallyForgets(dropped: seq<int>, wrong: seq<int>, clock: int, now: int, cut: nat)
    requires Tally(dropped, wrong, clock) && clock <= now && cut <= |wrong|
    requires forall i | 0 <= i < cut :: wrong[i] <= now - MINUTE_MS
    ensures Tally(dropped + wrong[..cut], wrong[cut..], now)
    ensures dropped + wrong[..cut] + wrong[cut..] == dropped + wrong
  {
    assert dropped + wrong[..cut] + wrong[cut..] == dropped + wrong;
    forall i | 0 <= i < |dropped + wrong[..cut]| ensures (dropped + wrong[..cut])[i] <= now - MINUTE_MS {
      if i < |dropped| {
        assert dropped[i] <= clock - MINUTE_MS;
      } else {
        assert wrong[i - |dropped|] <= now - MINUTE_MS;
      }
    }
  }

  lemma TallyGrows(dropped: seq<int>, wrong: seq<int>, now: int)
    requires Tally(dropped, wrong, now) && |wrong| < MAX_WRONG_PER_MINUTE
    ensures Tally(dropped, wrong + [now], now) && dropped + (wrong + [now]) == dropped + wrong + [now]
  {
    TenAMinuteGrows(dropped, wrong, now);
    InOrderGrows(dropped + wrong, now);
    assert dropped + (wrong + [now]) == dropped + wrong + [now];
  }

  class Sessions {
    const passcode: string
    var wrong: seq<int>
    ghost var dropped: seq<int>
    ghost var clock: int

    ghost predicate Valid()
      reads this
    {
      Tally(dropped, wrong, clock)
    }

    /** Every wrong try there was, in order. */
    ghost function History(): seq<int>
      reads this
    {
      dropped + wrong
    }

    constructor (passcode: string)
      ensures Valid() && History() == [] && this.passcode == passcode
    {
      this.passcode, wrong, dropped, clock := passcode, [], [], 0;
    }

    /** Forgets the tries a minute old or older. */
    method Forget(now: int)
      requires Valid() && clock <= now
      modifies this
      ensures Valid() && clock == now && History() == old(History())
      ensures wrong == Recent(old(wrong), now)
    {
      ListedInOrder(dropped, wrong, clock);
      ghost var cut := RecentIsSuffix(wrong, now);
      TallyForgets(dropped, wrong, clock, now, cut);
      dropped := dropped + wrong[..cut];
      wrong := Recent(wrong, now);
      clock := now;
    }

    /**
     * A try at `now`: limited exactly when ten wrong ones fall in the last minute,
     * and a wrong answer is remembered. No minute ever holds more than ten of them.
     */
    method CheckPasscode(attempt: string, now: int) returns (answer: Answer)
      requires Valid() && clock <= now
      modifies this
      ensures Valid() && clock == now && TenAMinute(History())
      ensures answer == Limited <==> |Recent(old(wrong), now)| >= 10
      ensures answer == Right ==> attempt == passcode
      ensures answer == Wrong ==> attempt != passcode
      ensures History() == old(History()) + if answer == Wrong then [now] else []
    {
      Forget(now);
      if |wrong| >= MAX_WRONG_PER_MINUTE {
        return Limited;
      }
      if attempt == passcode {
        return Right;
      }
      TallyGrows(dropped, wrong, now);
      wrong := wrong + [now];
      answer := Wrong;
    }
  }

  /* ------------------------------------ the limiter itself ------------------------------- */

  class MemoryRateLimiter {
    const config: Config
    var perEmail: map<string, Window>
    var all: Window

    function View(): Limiter
      reads this
    {
      Limiter(perEmail, all)
    }

    constructor (config: Config)
      requires Sensible(config)
      ensures this.config == config && View() == Limiter(map[], Window(0, 0))
    {
      this.config, perEmail, all := config, map[], Window(0, 0);
    }

    /** Deletes the expired entries one by one. */
    method Sweep(now: int)
      modifies this`perEmail
      ensures perEmail == Swept(config, old(perEmail), now)
    {
      var keys := perEmail.Keys;
      while keys != {}
        invariant keys <= perEmail.Keys <= old(perEmail).Keys
        invariant forall e | e in perEmail :: perEmail[e] == old(perEmail)[e]
        invariant forall e | e in old(perEmail) && e !in keys :: e in perEmail <==> !Expired(config, old(perEmail)[e], now)
        decreases |keys|
      {
        var e :| e in keys;
        keys := keys - {e};
        if Expired(config, perEmail[e], now) {
          perEmail := perEmail - {e};
        }
      }
    }

    method EmailWindow(email: string, now: int)
      requires Sensible(config)
      modifies this`perEmail
      ensures View() == WithEmail(config, old(View()), email, now, true)
    {
      if email in perEmail {
        perEmail := perEmail[email := Current(config, perEmail[email], now)];
        return;
      }
      perEmail := perEmail[email := Window(0, now)];
      if |perEmail| > SWEEP_SIZE {
        Sweep(now);
      }
      perEmail := perEmail[email := Window(0, now)];
    }

    method Check(email: string, now: int) returns (decision: Decision)
      requires Sensible(config)
      modifies this
      ensures (View(), Some(decision)) == After(config, old(View()), Ask(email), now, true)
    {
      EmailWindow(email, now);
      var e := perEmail[email];
      if e.count >= config.maxPerEmail {
        return Denied(RetryAfter(config, e, now));
      }
      all := Current(config, all, now);
      if all.count >= config.maxGlobal {
        return Denied(RetryAfter(config, all, now));
      }
      decision := Allowed;
    }

    method RecordFailure(email: string, now: int)
      requires Sensible(config)
      modifies this
      ensures View() == After(config, old(View()), Fail(email), now, true).0
    {
      EmailWindow(email, now);
      perEmail := perEmail[email := Counted(config, perEmail[email], now)];
      all := Counted(config, all, now);
    }

    method RecordSuccess(email: string)
      modifies this`perEmail
      ensures View() == After(config, old(View()), Succeed(email), 0, true).0
    {
      perEmail := perEmail - {email};
    }
  }
}
