/**
 * A matter's derived facts and the events that keep them (case-resource.ts,
 * lead-membership-handler.ts, next-hearing-refresh-handler.ts and
 * hearing-resource.ts under apps/law/backend/src/domain): the lead is an active
 * member, and the stored next hearing date is the earliest one still to come.
 */
module Matters {
  import opened Wrappers
  import opened Tuples
  import opened TextOrder
  import opened FirmRows
  import opened FirmIndex
  import Publisher

  datatype Hearing = Hearing(id: string, caseId: string, date: string, outcome: Option<string>)

  /** The firm's rows with their engine, and the diary. */
  datatype Matter = Matter(index: State, hearings: map<string, Hearing>)

  /**
   * What a request runs in: the firm's calendar day, the id minted for a
   * membership the cascade may create, and the tuples the engine refuses.
   */
  datatype Env = Env(today: string, minted: string, refused: set<TupleKey>)

  datatype Event = HearingWritten(caseId: string) | CaseWritten(caseId: string) | MembershipWritten | MemberWritten

  /** Each handler writes a kind of lower rank, which is why the cascade ends. */
  function Rank(e: Event): nat {
    match e
    case HearingWritten(_) => 2
    case CaseWritten(_) => 1
    case MembershipWritten => 0
    case MemberWritten => 0
  }

  /* -------------------------- the next hearing date ------------------------- */

  /** Dates of the case's hearings without an outcome, today's included. */
  function Upcoming(hearings: map<string, Hearing>, caseId: string, today: string): set<string> {
    set h | h in hearings && hearings[h].caseId == caseId && hearings[h].outcome.None?
            && TextLe(today, hearings[h].date) :: hearings[h].date
  }

  lemma SomeLeast(dates: set<string>)
    requires dates != {}
    ensures exists d :: IsLeast(dates, d)
  {
    var d := LeastExists(dates);
    assert IsLeast(dates, d);
  }

  ghost function Earliest(dates: set<string>): (d: Option<string>)
    ensures d.None? <==> dates == {}
    ensures d.Some? ==> IsLeast(dates, d.value)
  {
    if dates == {} then None
    else
      SomeLeast(dates);
      var d :| IsLeast(dates, d);
      Some(d)
  }

  lemma EarliestIs(dates: set<string>, d: string)
    requires IsLeast(dates, d)
    ensures Earliest(dates) == Some(d)
  {
    LeastUnique(dates, d, Earliest(dates).value);
  }

  /** The recompute step over the complete listing of hearings. */
  method RecomputeNextHearing(listing: seq<Hearing>, caseId: string, today: string, ghost hearings: map<string, Hearing>)
    returns (next: Option<string>)
    requires forall id | id in hearings :: hearings[id] in listing
    requires forall h | h in listing :: h.id in hearings && hearings[h.id] == h
    ensures next == Earliest(Upcoming(hearings, caseId, today))
  {
    next := None;
    ghost var seen: set<string> := {};
    for i := 0 to |listing|
      invariant seen == set k | 0 <= k < i && listing[k].caseId == caseId && listing[k].outcome.None?
                                && TextLe(today, listing[k].date) :: listing[k].date
      invariant next.None? <==> seen == {}
      invariant next.Some? ==> IsLeast(seen, next.value)
    {
      var h := listing[i];
      if h.caseId == caseId && h.outcome.None? && TextLe(today, h.date) {
        TextLeReflexive(h.date);
        if next.Some? {
          TextLeTotal(h.date, next.value);
        }
        if next.None? || !TextLe(next.value, h.date) {
          forall d | d in seen ensures TextLe(h.date, d) {
            TextLeTransitive(h.date, next.value, d);
          }
          next := Some(h.date);
        }
        seen := seen + {h.date};
      }
    }
    assert seen == Upcoming(hearings, caseId, today) by {
      assert forall id | id in hearings :: exists k :: 0 <= k < |listing| && listing[k] == hearings[id];
      assert forall k | 0 <= k < |listing| :: hearings[listing[k].id] == listing[k];
    }
    if next.Some? {
      EarliestIs(seen, next.value);
    }
  }

  /* ------------------------------- the cascade ------------------------------ */

  ghost function Recomputed(m: Matter, caseId: string, today: string): Option<string> {
    Earliest(Upcoming(m.hearings, caseId, today))
  }

  /** A case request persists the recomputed date, whatever it was sent with. */
  ghost function WithRecomputedDate(m: Matter, op: Op, today: string): Op {
    match op
    case CreateCase(id, fileNumber, lead, _) => CreateCase(id, fileNumber, lead, Recomputed(m, id, today))
    case UpdateCase(id, fileNumber, lead, _) => UpdateCase(id, fileNumber, lead, Recomputed(m, id, today))
    case _ => op
  }

  function EventOf(op: Op): Event {
    match op
    case CreateMember(_, _, _, _) => MemberWritten
    case UpdateMember(_, _, _, _, _) => MemberWritten
    case CreateCase(id, _, _, _) => CaseWritten(id)
    case UpdateCase(id, _, _, _) => CaseWritten(id)
    case AddMembership(_, _, _) => MembershipWritten
    case RemoveMembership(_) => MembershipWritten
  }

  /** A firm request: its row write and sync, then its event. A refused one changes nothing. */
  ghost function WriteFirm(m: Matter, op: Op, env: Env): Matter
    decreases Rank(EventOf(op)), 2
  {
    var recomputed := WithRecomputedDate(m, op, env.today);
    if Plan(m.index.rows, recomputed).Err? then m
    else Publish(m.(index := Step(m.index, recomputed, env.refused)), EventOf(op), env)
  }

  /** The subscribed handlers, run before the publishing request returns. */
  ghost function Publish(m: Matter, e: Event, env: Env): Matter
    decreases Rank(e), 0
  {
    match e
    case HearingWritten(caseId) =>
      if caseId !in m.index.rows.cases then m
      else
        var c := m.index.rows.cases[caseId];
        WriteFirm(m, UpdateCase(caseId, c.fileNumber, c.leadLawyerId, c.nextHearingDate), env)
    case CaseWritten(caseId) =>
      if caseId !in m.index.rows.cases then m
      else
        var lead := m.index.rows.cases[caseId].leadLawyerId;
        if lead == "" || PeriodOpen(m.index.rows, caseId, lead) then m
        else WriteFirm(m, AddMembership(env.minted, caseId, lead), env)
    case MembershipWritten => m
    case MemberWritten => m
  }

  /* -------------------------------- operations ------------------------------ */

  datatype MatterOp =
    | Firm(op: Op)
    | SetLifecycle(caseId: string)
    | Schedule(id: string, caseId: string, date: string)
    | Reschedule(id: string, caseId: string, date: string)
    | RecordOutcome(id: string, outcome: string, attendedBy: seq<string>, nextDate: Option<string>, nextId: string)

  function PlanSchedule(m: Matter, id: string, caseId: string, date: string): Result<Hearing, Code> {
    if caseId == "" || date == "" then Err(InvalidArgument)
    else if caseId !in m.index.rows.cases then Err(FailedPrecondition)
    else if id == "" || id in m.hearings then Err(Internal)
    else Ok(Hearing(id, caseId, date, None))
  }

  function PlanReschedule(m: Matter, id: string, caseId: string, date: string): Result<Hearing, Code> {
    if caseId == "" || date == "" then Err(InvalidArgument)
    else if id !in m.hearings then Err(NotFound)
    else if m.hearings[id].outcome.Some? then Err(FailedPrecondition)
    else if caseId !in m.index.rows.cases then Err(FailedPrecondition)
    else Ok(m.hearings[id].(caseId := caseId, date := date))
  }

  function PlanOutcome(m: Matter, op: MatterOp): Result<Hearing, Code>
    requires op.RecordOutcome?
  {
    if op.id !in m.hearings then Err(NotFound)
    else if m.hearings[op.id].outcome.Some? then Err(FailedPrecondition)
    else if op.nextDate.Some? && TextLe(op.nextDate.value, m.hearings[op.id].date) then Err(InvalidArgument)
    else if exists a | a in op.attendedBy :: a !in m.index.rows.members then Err(FailedPrecondition)
    else Ok(m.hearings[op.id].(outcome := Some(op.outcome)))
  }

  ghost function WriteHearing(m: Matter, planned: Result<Hearing, Code>, env: Env): Matter {
    match planned
    case Err(_) => m
    case Ok(h) => Publish(m.(hearings := m.hearings[h.id := h]), HearingWritten(h.caseId), env)
  }

  /** Recording an outcome is two writes in sequence: the outcome, then the next hearing. */
  ghost function Record(m: Matter, op: MatterOp, env: Env): Matter
    requires op.RecordOutcome?
  {
    var recorded := PlanOutcome(m, op);
    var first := WriteHearing(m, recorded, env);
    if recorded.Err? || op.nextDate.None? then first
    else WriteHearing(first, PlanSchedule(first, op.nextId, recorded.value.caseId, op.nextDate.value), env)
  }

  ghost function Perform(m: Matter, op: MatterOp, env: Env): Matter {
    match op
    case Firm(firmOp) => WriteFirm(m, firmOp, env)
    case SetLifecycle(caseId) => Publish(m, CaseWritten(caseId), env)
    case Schedule(id, caseId, date) => WriteHearing(m, PlanSchedule(m, id, caseId, date), env)
    case Reschedule(id, caseId, date) => WriteHearing(m, PlanReschedule(m, id, caseId, date), env)
    case RecordOutcome(_, _, _, _, _) => Record(m, op, env)
  }

  /* ------------------------------- the invariant ---------------------------- */

  /** The membership period that makes the case's lead a member. */
  ghost predicate LeadHeld(rows: Rows, caseId: string)
    requires caseId in rows.cases
  {
    exists i :: i in rows.memberships && InForce(rows.memberships[i])
                && rows.memberships[i].caseId == caseId && rows.memberships[i].memberId == rows.cases[caseId].leadLawyerId
  }

  ghost predicate DateCurrent(m: Matter, caseId: string, today: string)
    requires caseId in m.index.rows.cases
  {
    m.index.rows.cases[caseId].nextHearingDate == Recomputed(m, caseId, today)
  }

  /** Every case but `open` has its lead as a member and its date current. */
  ghost predicate FactsHold(m: Matter, today: string, open: Option<string>) {
    forall c | c in m.index.rows.cases && open != Some(c) :: LeadHeld(m.index.rows, c) && DateCurrent(m, c, today)
  }

  /** Case ids are minted without a colon and cases carry a file number. */
  ghost predicate WellNamed(m: Matter) {
    && (forall c | c in m.index.rows.cases :: ':' !in c && m.index.rows.cases[c].fileNumber != "")
    && (forall i | i in m.index.rows.memberships :: ':' !in m.index.rows.memberships[i].caseId)
    && (forall h | h in m.hearings :: m.hearings[h].id == h && m.hearings[h].caseId in m.index.rows.cases)
  }

  ghost predicate Settled(m: Matter, today: string) {
    RowsOk(m.index.rows) && WellNamed(m) && FactsHold(m, today, None)
  }

  /** What a run must respect: minted ids are new and colon-free, and hearings keep their case. */
  ghost predicate Proper(m: Matter, op: MatterOp, env: Env) {
    && Fresh(m, env)
    && (op.Firm? && op.op.CreateCase? ==> ':' !in op.op.id)
    && (op.Reschedule? && op.id in m.hearings ==> m.hearings[op.id].caseId == op.caseId)
  }

  /** Operations that open no case and move no hearing ask for nothing but a new id. */
  lemma MostAreProper(m: Matter, op: MatterOp, env: Env)
    requires Fresh(m, env) && !op.Reschedule? && (op.Firm? ==> !op.op.CreateCase?)
    ensures Proper(m, op, env)
  {
  }

  /* ------------------------- one step of the cascade ------------------------ */

  lemma StepRows(s: State, op: Op, refused: set<TupleKey>)
    ensures Step(s, op, refused).rows == if Plan(s.rows, op).Ok? then Apply(s.rows, Plan(s.rows, op).value) else s.rows
  {
  }

  /** Writes no handler listens to end with the write itself. */
  lemma WrittenQuietly(m: Matter, op: Op, env: Env)
    requires !op.CreateCase? && !op.UpdateCase?
    ensures WriteFirm(m, op, env) == m.(index := Step(m.index, op, env.refused))
  {
  }

  lemma WrittenCase(m: Matter, op: Op, env: Env)
    requires op.CreateCase? || op.UpdateCase?
    ensures var recomputed := WithRecomputedDate(m, op, env.today);
            WriteFirm(m, op, env)
            == if Plan(m.index.rows, recomputed).Err? then m
               else Publish(m.(index := Step(m.index, recomputed, env.refused)), CaseWritten(op.id), env)
  {
  }

  /** The system's update of a case with its own spec. */
  ghost function Refresh(m: Matter, caseId: string): Op
    requires caseId in m.index.rows.cases
  {
    var c := m.index.rows.cases[caseId];
    UpdateCase(caseId, c.fileNumber, c.leadLawyerId, c.nextHearingDate)
  }

  lemma HearingIsCaseWrite(m: Matter, caseId: string, env: Env)
    requires caseId in m.index.rows.cases
    ensures Publish(m, HearingWritten(caseId), env) == WriteFirm(m, Refresh(m, caseId), env)
  {
  }

  /* ------------------------- the cascade is the dispatcher's ------------------ */

  const LEAD_MEMBERSHIP: Publisher.Handler := 0
  const NEXT_HEARING_REFRESH: Publisher.Handler := 1

  /** The two subscriptions whose handlers write rows modelled here. */
  const Wiring: seq<(string, Publisher.Handler)> := [("Case", LEAD_MEMBERSHIP), ("Hearing", NEXT_HEARING_REFRESH)]

  function KindOf(e: Event): string {
    match e
    case HearingWritten(_) => "Hearing"
    case CaseWritten(_) => "Case"
    case MembershipWritten => "CaseMember"
    case MemberWritten => "FirmMember"
  }

  /** What one handler does about an event: its own request, with everything that sets off. */
  ghost function Handled(m: Matter, handler: Publisher.Handler, e: Event, env: Env): Matter {
    if !(e.HearingWritten? || e.CaseWritten?) || e.caseId !in m.index.rows.cases then m
    else if handler == NEXT_HEARING_REFRESH then WriteFirm(m, Refresh(m, e.caseId), env)
    else if handler == LEAD_MEMBERSHIP then
      var lead := m.index.rows.cases[e.caseId].leadLawyerId;
      if lead == "" || PeriodOpen(m.index.rows, e.caseId, lead) then m
      else WriteFirm(m, AddMembership(env.minted, e.caseId, lead), env)
    else m
  }

  ghost function HandledByAll(m: Matter, ran: seq<Publisher.Handler>, e: Event, env: Env): Matter {
    if ran == [] then m else Handled(HandledByAll(m, ran[..|ran| - 1], e, env), ran[|ran| - 1], e, env)
  }

  lemma SubscribedHere(kind: string)
    ensures Publisher.Subscribed(Wiring, kind)
            == if kind == "Case" then [LEAD_MEMBERSHIP] else if kind == "Hearing" then [NEXT_HEARING_REFRESH] else []
  {
    assert Wiring[..1] == [Wiring[0]] && Wiring[..1][..0] == [];
    assert Publisher.Subscribed(Wiring[..1], kind) == if kind == "Case" then [LEAD_MEMBERSHIP] else [];
  }

  /** Publishing runs exactly the handlers the dispatcher runs for the event's kind, in its order. */
  lemma PublishIsDispatch(m: Matter, e: Event, env: Env)
    ensures Publish(m, e, env)
            == HandledByAll(m, Publisher.Subscribed(Wiring, KindOf(e))
                               + Publisher.Subscribed(Wiring, Publisher.ANY_KIND), e, env)
  {
    SubscribedHere(KindOf(e));
    SubscribedHere(Publisher.ANY_KIND);
    var ran := Publisher.Subscribed(Wiring, KindOf(e)) + Publisher.Subscribed(Wiring, Publisher.ANY_KIND);
    if ran != [] {
      assert ran[..0] == [];
      assert HandledByAll(m, ran, e, env) == Handled(m, ran[0], e, env);
    }
  }

  /* ----------------------------- each event settles -------------------------- */

  /** With colon-free case ids the composed key finds exactly the lead's period. */
  lemma LeadHeldIffOpen(m: Matter, caseId: string)
    requires WellNamed(m) && caseId in m.index.rows.cases
    ensures PeriodOpen(m.index.rows, caseId, m.index.rows.cases[caseId].leadLawyerId) <==> LeadHeld(m.index.rows, caseId)
  {
    var rows, lead := m.index.rows, m.index.rows.cases[caseId].leadLawyerId;
    if PeriodOpen(rows, caseId, lead) {
      var i :| i in rows.memberships && InForce(rows.memberships[i])
               && MembershipKey(rows.memberships[i].caseId, rows.memberships[i].memberId) == MembershipKey(caseId, lead);
      var p := rows.memberships[i];
      assert MembershipKey(p.caseId, p.memberId) == p.caseId + [':'] + p.memberId;
      assert MembershipKey(caseId, lead) == caseId + [':'] + lead;
      SplitUnique(p.caseId, p.memberId, caseId, lead, ':');
    }
  }

  /** The membership write leaves every case and its date alone and takes no member away. */
  lemma NewPeriodKeepsFacts(m: Matter, next: Matter, p: CaseMember, today: string, open: Option<string>)
    requires FactsHold(m, today, open)
    requires next.hearings == m.hearings && p.id !in m.index.rows.memberships
    requires next.index.rows == Apply(m.index.rows, PutMembership(p))
    ensures FactsHold(next, today, open)
  {
    forall c | c in next.index.rows.cases && open != Some(c)
      ensures LeadHeld(next.index.rows, c) && DateCurrent(next, c, today)
    {
      var i :| i in m.index.rows.memberships && InForce(m.index.rows.memberships[i])
               && m.index.rows.memberships[i].caseId == c
               && m.index.rows.memberships[i].memberId == m.index.rows.cases[c].leadLawyerId;
      assert i in next.index.rows.memberships && next.index.rows.memberships[i] == m.index.rows.memberships[i];
    }
  }

  lemma NewPeriodSettles(m: Matter, next: Matter, p: CaseMember, today: string)
    requires WellNamed(m) && p.caseId in m.index.rows.cases && FactsHold(m, today, Some(p.caseId))
    requires InForce(p) && p.memberId == m.index.rows.cases[p.caseId].leadLawyerId && DateCurrent(m, p.caseId, today)
    requires next.hearings == m.hearings && p.id !in m.index.rows.memberships
    requires next.index.rows == Apply(m.index.rows, PutMembership(p))
    ensures FactsHold(next, today, None) && WellNamed(next)
  {
    NewPeriodKeepsFacts(m, next, p, today, Some(p.caseId));
    assert next.index.rows.memberships[p.id] == p;
    assert LeadHeld(next.index.rows, p.caseId) && DateCurrent(next, p.caseId, today);
  }

  ghost predicate Fresh(m: Matter, env: Env) {
    env.minted != "" && env.minted !in m.index.rows.memberships
  }

  lemma LeadOpens(m: Matter, caseId: string, env: Env)
    requires RowsOk(m.index.rows) && WellNamed(m) && Fresh(m, env) && caseId in m.index.rows.cases
    requires !LeadHeld(m.index.rows, caseId)
    ensures var lead := m.index.rows.cases[caseId].leadLawyerId;
            var p := CaseMember(env.minted, caseId, lead, Some(true));
            && Publish(m, CaseWritten(caseId), env)
               == m.(index := Step(m.index, AddMembership(env.minted, caseId, lead), env.refused))
            && Plan(m.index.rows, AddMembership(env.minted, caseId, lead)) == Ok(PutMembership(p))
  {
    LeadHeldIffOpen(m, caseId);
    WrittenQuietly(m, AddMembership(env.minted, caseId, m.index.rows.cases[caseId].leadLawyerId), env);
  }

  /** A case event leaves the case's lead a member. */
  lemma CaseEventSettles(m: Matter, caseId: string, env: Env)
    requires RowsOk(m.index.rows) && WellNamed(m) && Fresh(m, env)
    requires FactsHold(m, env.today, Some(caseId))
    requires caseId in m.index.rows.cases && DateCurrent(m, caseId, env.today)
    ensures Settled(Publish(m, CaseWritten(caseId), env), env.today)
  {
    var next := Publish(m, CaseWritten(caseId), env);
    LeadHeldIffOpen(m, caseId);
    if !LeadHeld(m.index.rows, caseId) {
      var lead := m.index.rows.cases[caseId].leadLawyerId;
      var p := CaseMember(env.minted, caseId, lead, Some(true));
      LeadOpens(m, caseId, env);
      StepRows(m.index, AddMembership(env.minted, caseId, lead), env.refused);
      StepKeepsRows(m.index, AddMembership(env.minted, caseId, lead), env.refused);
      NewPeriodSettles(m, next, p, env.today);
    }
  }

  /** The rows after a case write with the recomputed date. */
  lemma CaseWriteKeepsOthers(m: Matter, next: Matter, c: Case, today: string)
    requires FactsHold(m, today, Some(c.id))
    requires next.hearings == m.hearings && next.index.rows == Apply(m.index.rows, PutCase(c))
    requires c.nextHearingDate == Recomputed(m, c.id, today)
    requires WellNamed(m) && ':' !in c.id && c.fileNumber != ""
    ensures FactsHold(next, today, Some(c.id)) && DateCurrent(next, c.id, today) && WellNamed(next)
  {
  }

  lemma CaseWriteSettles(m: Matter, op: Op, env: Env)
    requires RowsOk(m.index.rows) && WellNamed(m) && Fresh(m, env)
    requires op.CreateCase? || op.UpdateCase?
    requires op.CreateCase? ==> ':' !in op.id
    requires FactsHold(m, env.today, Some(op.id)) && Plan(m.index.rows, WithRecomputedDate(m, op, env.today)).Ok?
    ensures Settled(WriteFirm(m, op, env), env.today)
  {
    var recomputed := WithRecomputedDate(m, op, env.today);
    var next := m.(index := Step(m.index, recomputed, env.refused));
    var c := Case(op.id, op.fileNumber, op.leadLawyerId, Recomputed(m, op.id, env.today));
    assert Plan(m.index.rows, recomputed) == Ok(PutCase(c));
    StepRows(m.index, recomputed, env.refused);
    StepKeepsRows(m.index, recomputed, env.refused);
    CaseWriteKeepsOthers(m, next, c, env.today);
    CaseEventSettles(next, op.id, env);
  }

  /** A hearing event leaves the case's stored date current. */
  lemma HearingEventSettles(m: Matter, caseId: string, env: Env)
    requires RowsOk(m.index.rows) && WellNamed(m) && Fresh(m, env) && caseId in m.index.rows.cases
    requires FactsHold(m, env.today, Some(caseId))
    ensures Settled(Publish(m, HearingWritten(caseId), env), env.today)
  {
    HearingIsCaseWrite(m, caseId, env);
    CaseWriteSettles(m, Refresh(m, caseId), env);
  }

  /* --------------------------- each operation settles ------------------------- */

  lemma MemberRowsOnly(m: Matter, next: Matter, op: Op, today: string)
    requires FactsHold(m, today, None) && WellNamed(m) && (op.CreateMember? || op.UpdateMember?)
    requires Plan(m.index.rows, op).Ok? && next.index.rows == Apply(m.index.rows, Plan(m.index.rows, op).value)
    requires next.hearings == m.hearings
    ensures FactsHold(next, today, None) && WellNamed(next)
  {
  }

  lemma MemberWriteSettles(m: Matter, op: Op, env: Env)
    requires Settled(m, env.today) && (op.CreateMember? || op.UpdateMember?)
    ensures Settled(WriteFirm(m, op, env), env.today)
  {
    var next := WriteFirm(m, op, env);
    WrittenQuietly(m, op, env);
    StepRows(m.index, op, env.refused);
    if Plan(m.index.rows, op).Ok? {
      StepKeepsRows(m.index, op, env.refused);
      MemberRowsOnly(m, next, op, env.today);
    }
  }

  lemma AdditionKeepsFacts(m: Matter, next: Matter, op: Op, today: string)
    requires FactsHold(m, today, None) && WellNamed(m)
    requires op.AddMembership? && Plan(m.index.rows, op).Ok?
    requires next.hearings == m.hearings && next.index.rows == Apply(m.index.rows, Plan(m.index.rows, op).value)
    ensures FactsHold(next, today, None) && WellNamed(next)
  {
    NewPeriodKeepsFacts(m, next, CaseMember(op.id, op.caseId, op.memberId, Some(true)), today, None);
  }

  lemma AddMembershipSettles(m: Matter, op: Op, env: Env)
    requires Settled(m, env.today) && op.AddMembership?
    ensures Settled(WriteFirm(m, op, env), env.today)
  {
    WrittenQuietly(m, op, env);
    StepRows(m.index, op, env.refused);
    if Plan(m.index.rows, op).Ok? {
      StepKeepsRows(m.index, op, env.refused);
      AdditionKeepsFacts(m, WriteFirm(m, op, env), op, env.today);
    }
  }

  /** Closing a period never takes a lead's membership: the guard refuses that one. */
  lemma RemovalKeepsLeads(rows: Rows, op: Op, caseId: string)
    requires Keyed(rows) && op.RemoveMembership? && Plan(rows, op).Ok?
    requires caseId in rows.cases && LeadHeld(rows, caseId)
    ensures LeadHeld(Apply(rows, Plan(rows, op).value), caseId)
  {
    var after := Apply(rows, Plan(rows, op).value);
    var i :| i in rows.memberships && InForce(rows.memberships[i])
             && rows.memberships[i].caseId == caseId && rows.memberships[i].memberId == rows.cases[caseId].leadLawyerId;
    assert i != op.id;
    assert i in after.memberships && after.memberships[i] == rows.memberships[i];
  }

  lemma RemovalKeepsFacts(m: Matter, next: Matter, op: Op, today: string)
    requires Keyed(m.index.rows) && FactsHold(m, today, None) && WellNamed(m)
    requires op.RemoveMembership? && Plan(m.index.rows, op).Ok?
    requires next.hearings == m.hearings && next.index.rows == Apply(m.index.rows, Plan(m.index.rows, op).value)
    ensures FactsHold(next, today, None) && WellNamed(next)
  {
    forall c | c in next.index.rows.cases ensures LeadHeld(next.index.rows, c) && DateCurrent(next, c, today) {
      assert LeadHeld(m.index.rows, c) && DateCurrent(m, c, today);
      RemovalKeepsLeads(m.index.rows, op, c);
    }
  }

  lemma RemoveMembershipSettles(m: Matter, op: Op, env: Env)
    requires Settled(m, env.today) && op.RemoveMembership?
    ensures Settled(WriteFirm(m, op, env), env.today)
  {
    var next := WriteFirm(m, op, env);
    WrittenQuietly(m, op, env);
    StepRows(m.index, op, env.refused);
    if Plan(m.index.rows, op).Ok? {
      StepKeepsRows(m.index, op, env.refused);
      RemovalKeepsFacts(m, next, op, env.today);
    }
  }

  lemma FirmSettles(m: Matter, op: Op, env: Env)
    requires Settled(m, env.today) && Fresh(m, env) && (op.CreateCase? ==> ':' !in op.id)
    ensures Settled(WriteFirm(m, op, env), env.today)
  {
    if op.CreateMember? || op.UpdateMember? {
      MemberWriteSettles(m, op, env);
    } else if op.AddMembership? {
      AddMembershipSettles(m, op, env);
    } else if op.RemoveMembership? {
      RemoveMembershipSettles(m, op, env);
    } else if Plan(m.index.rows, WithRecomputedDate(m, op, env.today)).Ok? {
      CaseWriteSettles(m, op, env);
    }
  }

  /** A hearing that keeps its case can only put that one case's date out. */
  lemma HearingWriteKeepsOthers(m: Matter, h: Hearing, today: string)
    requires FactsHold(m, today, None)
    requires h.id in m.hearings ==> m.hearings[h.id].caseId == h.caseId
    ensures FactsHold(m.(hearings := m.hearings[h.id := h]), today, Some(h.caseId))
  {
    var next := m.(hearings := m.hearings[h.id := h]);
    forall c | c in next.index.rows.cases && c != h.caseId ensures LeadHeld(next.index.rows, c) && DateCurrent(next, c, today) {
      assert Upcoming(next.hearings, c, today) == Upcoming(m.hearings, c, today) by {
        assert forall k | k in next.hearings && next.hearings[k].caseId == c :: k in m.hearings && next.hearings[k] == m.hearings[k];
        assert forall k | k in m.hearings && m.hearings[k].caseId == c :: next.hearings[k] == m.hearings[k];
      }
    }
  }

  /** A planned hearing is on a stored case, and stays on it. */
  predicate OnItsCase(m: Matter, planned: Result<Hearing, Code>) {
    planned.Ok? ==>
      && planned.value.caseId in m.index.rows.cases
      && (planned.value.id in m.hearings ==> m.hearings[planned.value.id].caseId == planned.value.caseId)
  }

  lemma PlannedOnItsCase(m: Matter, op: MatterOp, id: string, caseId: string, date: string)
    requires WellNamed(m)
    ensures OnItsCase(m, PlanSchedule(m, id, caseId, date))
    ensures (id in m.hearings ==> m.hearings[id].caseId == caseId) ==> OnItsCase(m, PlanReschedule(m, id, caseId, date))
    ensures op.RecordOutcome? ==> OnItsCase(m, PlanOutcome(m, op))
  {
  }

  lemma HearingSettles(m: Matter, planned: Result<Hearing, Code>, env: Env)
    requires Settled(m, env.today) && Fresh(m, env)
    requires OnItsCase(m, planned)
    ensures Settled(WriteHearing(m, planned, env), env.today)
  {
    if planned.Ok? {
      HearingWriteKeepsOthers(m, planned.value, env.today);
      HearingEventSettles(m.(hearings := m.hearings[planned.value.id := planned.value]), planned.value.caseId, env);
    }
  }

  lemma LifecycleSettles(m: Matter, caseId: string, env: Env)
    requires Settled(m, env.today) && Fresh(m, env)
    ensures Settled(Publish(m, CaseWritten(caseId), env), env.today)
  {
  }

  lemma ScheduleSettles(m: Matter, id: string, caseId: string, date: string, env: Env)
    requires Settled(m, env.today) && Fresh(m, env)
    ensures Settled(WriteHearing(m, PlanSchedule(m, id, caseId, date), env), env.today)
  {
    PlannedOnItsCase(m, SetLifecycle(caseId), id, caseId, date);
    HearingSettles(m, PlanSchedule(m, id, caseId, date), env);
  }

  lemma RescheduleSettles(m: Matter, id: string, caseId: string, date: string, env: Env)
    requires Settled(m, env.today) && Fresh(m, env)
    requires id in m.hearings ==> m.hearings[id].caseId == caseId
    ensures Settled(WriteHearing(m, PlanReschedule(m, id, caseId, date), env), env.today)
  {
    PlannedOnItsCase(m, SetLifecycle(caseId), id, caseId, date);
    HearingSettles(m, PlanReschedule(m, id, caseId, date), env);
  }

  lemma OutcomeSettles(m: Matter, op: MatterOp, env: Env)
    requires Settled(m, env.today) && Fresh(m, env) && op.RecordOutcome?
    ensures Settled(WriteHearing(m, PlanOutcome(m, op), env), env.today)
  {
    PlannedOnItsCase(m, op, op.id, "", "");
    HearingSettles(m, PlanOutcome(m, op), env);
  }

  /** With the lead already a member, a hearing event mints nothing. */
  lemma HearingMintsNothing(m: Matter, h: Hearing, env: Env)
    requires WellNamed(m) && h.caseId in m.index.rows.cases && LeadHeld(m.index.rows, h.caseId)
    ensures WriteHearing(m, Ok(h), env).index.rows.memberships == m.index.rows.memberships
  {
    var written := m.(hearings := m.hearings[h.id := h]);
    var op := Refresh(written, h.caseId);
    var recomputed := WithRecomputedDate(written, op, env.today);
    HearingIsCaseWrite(written, h.caseId, env);
    WrittenCase(written, op, env);
    if Plan(m.index.rows, recomputed).Ok? {
      StepRows(m.index, recomputed, env.refused);
      var next := written.(index := Step(m.index, recomputed, env.refused));
      LeadStaysOpen(m, next, h.caseId);
      HeldLeadIsQuiet(next, h.caseId, env);
    }
  }

  lemma HeldLeadIsQuiet(m: Matter, caseId: string, env: Env)
    requires caseId in m.index.rows.cases && PeriodOpen(m.index.rows, caseId, m.index.rows.cases[caseId].leadLawyerId)
    ensures Publish(m, CaseWritten(caseId), env) == m
  {
  }

  lemma LeadStaysOpen(m: Matter, next: Matter, caseId: string)
    requires WellNamed(m) && caseId in m.index.rows.cases && LeadHeld(m.index.rows, caseId)
    requires caseId in next.index.rows.cases && next.index.rows.memberships == m.index.rows.memberships
    requires next.index.rows.cases[caseId].leadLawyerId == m.index.rows.cases[caseId].leadLawyerId
    ensures PeriodOpen(next.index.rows, caseId, next.index.rows.cases[caseId].leadLawyerId)
  {
  }

  /** The second write of a recorded outcome starts where the first one settled. */
  lemma NextHearingSettles(m: Matter, h: Hearing, nextId: string, nextDate: string, env: Env)
    requires Settled(m, env.today) && Fresh(m, env) && h.caseId in m.index.rows.cases
    requires Settled(WriteHearing(m, Ok(h), env), env.today)
    ensures var first := WriteHearing(m, Ok(h), env);
            Settled(WriteHearing(first, PlanSchedule(first, nextId, h.caseId, nextDate), env), env.today)
  {
    assert LeadHeld(m.index.rows, h.caseId);
    HearingMintsNothing(m, h, env);
    ScheduleSettles(WriteHearing(m, Ok(h), env), nextId, h.caseId, nextDate, env);
  }

  lemma RecordingSettles(m: Matter, op: MatterOp, env: Env)
    requires Settled(m, env.today) && Fresh(m, env) && op.RecordOutcome?
    ensures Settled(Record(m, op, env), env.today)
  {
    var recorded := PlanOutcome(m, op);
    OutcomeSettles(m, op, env);
    if recorded.Ok? && op.nextDate.Some? {
      RecordedKeepsCase(m, op);
      NextHearingSettles(m, recorded.value, op.nextId, op.nextDate.value, env);
    }
  }

  /** A hearing write leaves every case its number and its lead, and every other case its date. */
  lemma HearingWriteOnCases(m: Matter, h: Hearing, env: Env)
    requires Keyed(m.index.rows) && h.caseId in m.index.rows.cases
    ensures var before, after := m.index.rows, WriteHearing(m, Ok(h), env).index.rows;
            && after.members == before.members && after.cases.Keys == before.cases.Keys
            && forall c | c in before.cases ::
                 after.cases[c] == if c == h.caseId then before.cases[c].(nextHearingDate := after.cases[c].nextHearingDate)
                                   else before.cases[c]
  {
    var written := m.(hearings := m.hearings[h.id := h]);
    var op := Refresh(written, h.caseId);
    var recomputed := WithRecomputedDate(written, op, env.today);
    HearingIsCaseWrite(written, h.caseId, env);
    WrittenCase(written, op, env);
    StepRows(m.index, recomputed, env.refused);
    if Plan(m.index.rows, recomputed).Ok? {
      CaseEventKeepsCases(written.(index := Step(m.index, recomputed, env.refused)), h.caseId, env);
    }
  }

  /** What scheduling leaves in the diary: refused, nothing; else one new open hearing. */
  lemma ScheduledIs(m: Matter, id: string, caseId: string, date: string, env: Env)
    requires Keyed(m.index.rows)
    ensures var end := Perform(m, Schedule(id, caseId, date), env);
            if caseId in m.index.rows.cases && date != "" && id != "" && id !in m.hearings
            then end.hearings == m.hearings[id := Hearing(id, caseId, date, None)]
            else end == m
  {
    if PlanSchedule(m, id, caseId, date).Ok? {
      HearingWriteKeepsDiary(m, PlanSchedule(m, id, caseId, date).value, env);
    }
  }

  /** What rescheduling leaves: refused, nothing; else the open hearing on its new date, and case. */
  lemma RescheduledIs(m: Matter, id: string, caseId: string, date: string, env: Env)
    requires Keyed(m.index.rows) && WellNamed(m)
    ensures var end := Perform(m, Reschedule(id, caseId, date), env);
            if caseId in m.index.rows.cases && date != "" && id in m.hearings && m.hearings[id].outcome == None
            then end.hearings == m.hearings[id := Hearing(id, caseId, date, None)]
            else end == m
  {
    if PlanReschedule(m, id, caseId, date).Ok? {
      HearingWriteKeepsDiary(m, PlanReschedule(m, id, caseId, date).value, env);
    }
  }

  /** An accepted case request stores its row with the recomputed date, whatever date it was sent with. */
  lemma CaseStoredIs(m: Matter, op: Op, env: Env)
    requires op.CreateCase? || op.UpdateCase?
    ensures var date := Recomputed(m, op.id, env.today);
            var recomputed := if op.CreateCase? then CreateCase(op.id, op.fileNumber, op.leadLawyerId, date)
                              else UpdateCase(op.id, op.fileNumber, op.leadLawyerId, date);
            var end := Perform(m, Firm(op), env);
            if Plan(m.index.rows, recomputed).Ok? then
              && end.hearings == m.hearings
              && end.index.rows.cases
                 == m.index.rows.cases[op.id := Case(op.id, op.fileNumber, op.leadLawyerId, Recomputed(m, op.id, env.today))]
            else end == m
  {
    var recomputed := WithRecomputedDate(m, op, env.today);
    WrittenCase(m, op, env);
    StepRows(m.index, recomputed, env.refused);
    if Plan(m.index.rows, recomputed).Ok? {
      CaseEventKeepsCases(m.(index := Step(m.index, recomputed, env.refused)), op.id, env);
    }
  }

  /** A lifecycle change leaves the cases and the diary as they were; other requests leave their own step. */
  lemma OthersLeave(m: Matter, op: Op, caseId: string, env: Env)
    ensures var end := Perform(m, SetLifecycle(caseId), env);
            end.index.rows.cases == m.index.rows.cases && end.hearings == m.hearings
    ensures !op.CreateCase? && !op.UpdateCase? ==>
              Perform(m, Firm(op), env) == m.(index := Step(m.index, op, env.refused))
  {
    CaseEventKeepsCases(m, caseId, env);
    if !op.CreateCase? && !op.UpdateCase? {
      WrittenQuietly(m, op, env);
    }
  }

  /**
   * What recording leaves in the diary: refused, nothing; else the hearing with its outcome
   * and, with a next date, one new open hearing of the same case on that date.
   */
  lemma RecordedIs(m: Matter, op: MatterOp, env: Env)
    requires op.RecordOutcome? && Keyed(m.index.rows) && WellNamed(m)
    requires op.nextDate.Some? ==> op.nextId != "" && op.nextId !in m.hearings
    requires op.nextDate != Some("")
    ensures var end := Perform(m, op, env);
            var taken := && op.id in m.hearings && m.hearings[op.id].outcome.None?
                         && (op.nextDate.Some? ==> !TextLe(op.nextDate.value, m.hearings[op.id].date))
                         && forall a | a in op.attendedBy :: a in m.index.rows.members;
            if !taken then end == m
            else
              var recorded := m.hearings[op.id := m.hearings[op.id].(outcome := Some(op.outcome))];
              end.hearings == if op.nextDate.None? then recorded
                              else recorded[op.nextId := Hearing(op.nextId, m.hearings[op.id].caseId, op.nextDate.value, None)]
  {
    var recorded := PlanOutcome(m, op);
    if recorded.Ok? {
      HearingWriteKeepsDiary(m, recorded.value, env);
      if op.nextDate.Some? {
        HearingWriteOnCases(m, recorded.value, env);
        var first := WriteHearing(m, recorded, env);
        var planned := PlanSchedule(first, op.nextId, recorded.value.caseId, op.nextDate.value);
        HearingWriteKeepsDiary(first, planned.value, env);
      }
    }
  }

  lemma RecordedKeepsCase(m: Matter, op: MatterOp)
    requires WellNamed(m) && op.RecordOutcome? && PlanOutcome(m, op).Ok?
    ensures PlanOutcome(m, op).value.caseId in m.index.rows.cases
  {
  }

  /**
   * Every operation, with its whole event cascade, leaves every case's lead a
   * member and every stored next hearing date the earliest one still to come.
   */
  lemma OperationSettles(m: Matter, op: MatterOp, env: Env)
    requires Settled(m, env.today) && Proper(m, op, env)
    ensures Settled(Perform(m, op, env), env.today)
  {
    match op
    case Firm(firmOp) => FirmSettles(m, firmOp, env);
    case SetLifecycle(caseId) => LifecycleSettles(m, caseId, env);
    case Schedule(id, caseId, date) => ScheduleSettles(m, id, caseId, date, env);
    case Reschedule(id, caseId, date) => RescheduleSettles(m, id, caseId, date, env);
    case RecordOutcome(_, _, _, _, _) => RecordingSettles(m, op, env);
  }

  ghost function Run(m: Matter, ops: seq<(MatterOp, Env)>): Matter
    decreases |ops|
  {
    if ops == [] then m else Run(Perform(m, ops[0].0, ops[0].1), ops[1..])
  }

  ghost predicate ProperRun(m: Matter, ops: seq<(MatterOp, Env)>, today: string)
    decreases |ops|
  {
    ops == []
    || (Proper(m, ops[0].0, ops[0].1) && ops[0].1.today == today
        && ProperRun(Perform(m, ops[0].0, ops[0].1), ops[1..], today))
  }

  lemma {:induction false} RunSettles(m: Matter, ops: seq<(MatterOp, Env)>, today: string)
    requires Settled(m, today) && ProperRun(m, ops, today)
    ensures Settled(Run(m, ops), today)
    decreases |ops|
  {
    if ops != [] {
      OperationSettles(m, ops[0].0, ops[0].1);
      RunSettles(Perform(m, ops[0].0, ops[0].1), ops[1..], today);
    }
  }

  /** The lead's periods in force on a case. */
  ghost function LeadPeriods(rows: Rows, caseId: string): set<string>
    requires caseId in rows.cases
  {
    set i | i in rows.memberships && InForce(rows.memberships[i]) && rows.memberships[i].caseId == caseId
            && rows.memberships[i].memberId == rows.cases[caseId].leadLawyerId
  }

  lemma OnePeriod(rows: Rows, caseId: string)
    requires caseId in rows.cases && UniquePeriods(rows) && LeadHeld(rows, caseId)
    ensures |LeadPeriods(rows, caseId)| == 1
  {
    var i :| i in rows.memberships && InForce(rows.memberships[i]) && rows.memberships[i].caseId == caseId
             && rows.memberships[i].memberId == rows.cases[caseId].leadLawyerId;
    forall k | k in LeadPeriods(rows, caseId) ensures k == i {
      assert SamePair(rows.memberships[i], rows.memberships[k]);
    }
    assert LeadPeriods(rows, caseId) == {i};
  }

  /** In a settled matter the lead holds exactly one period in force. */
  lemma LeadHoldsExactlyOne(m: Matter, today: string, caseId: string)
    requires Settled(m, today) && caseId in m.index.rows.cases
    ensures |LeadPeriods(m.index.rows, caseId)| == 1
  {
    assert LeadHeld(m.index.rows, caseId);
    OnePeriod(m.index.rows, caseId);
  }

  /* ---------------------------- the engine follows too ------------------------ */

  ghost predicate Healthy(m: Matter) {
    RowsOk(m.index.rows) && InSync(m.index)
  }

  lemma HealthyStep(m: Matter, op: Op)
    requires Healthy(m) && KeepsUser(m.index.rows, op)
    ensures Healthy(m.(index := Step(m.index, op, {})))
  {
    StepKeepsSync(m.index, op);
  }

  lemma RecomputedKeepsUser(m: Matter, op: Op, today: string)
    requires KeepsUser(m.index.rows, op)
    ensures KeepsUser(m.index.rows, WithRecomputedDate(m, op, today))
  {
  }

  /** The cascade's own writes sync as well: the engine stays the projection of the rows. */
  lemma {:induction false} WriteFirmKeepsSync(m: Matter, op: Op, env: Env)
    requires Healthy(m) && env.refused == {} && KeepsUser(m.index.rows, op)
    ensures var end := WriteFirm(m, op, env); Healthy(end)
    decreases Rank(EventOf(op)), 2
  {
    var recomputed := WithRecomputedDate(m, op, env.today);
    if Plan(m.index.rows, recomputed).Ok? {
      RecomputedKeepsUser(m, op, env.today);
      HealthyStep(m, recomputed);
      PublishKeepsSync(m.(index := Step(m.index, recomputed, {})), EventOf(op), env);
    }
  }

  lemma {:induction false} HearingEventKeepsSync(m: Matter, caseId: string, env: Env)
    requires Healthy(m) && env.refused == {}
    ensures var end := Publish(m, HearingWritten(caseId), env); Healthy(end)
    decreases Rank(HearingWritten(caseId)), 0
  {
    if caseId in m.index.rows.cases {
      WriteFirmKeepsSync(m, Refresh(m, caseId), env);
    }
  }

  lemma {:induction false} CaseEventKeepsSync(m: Matter, caseId: string, env: Env)
    requires Healthy(m) && env.refused == {}
    ensures var end := Publish(m, CaseWritten(caseId), env); Healthy(end)
    decreases Rank(CaseWritten(caseId)), 0
  {
    CaseEventIs(m, caseId, env);
    if caseId in m.index.rows.cases {
      WriteFirmKeepsSync(m, AddMembership(env.minted, caseId, m.index.rows.cases[caseId].leadLawyerId), env);
    }
  }

  /** Nothing, or the lead's membership. */
  lemma CaseEventIs(m: Matter, caseId: string, env: Env)
    ensures Publish(m, CaseWritten(caseId), env) == m
            || (caseId in m.index.rows.cases
                && Publish(m, CaseWritten(caseId), env)
                   == WriteFirm(m, AddMembership(env.minted, caseId, m.index.rows.cases[caseId].leadLawyerId), env))
  {
  }

  lemma {:induction false} PublishKeepsSync(m: Matter, e: Event, env: Env)
    requires Healthy(m) && env.refused == {}
    ensures var end := Publish(m, e, env); Healthy(end)
    decreases Rank(e), 1
  {
    match e
    case HearingWritten(caseId) => HearingEventKeepsSync(m, caseId, env);
    case CaseWritten(caseId) => CaseEventKeepsSync(m, caseId, env);
    case MembershipWritten =>
    case MemberWritten =>
  }

  lemma WriteHearingKeepsSync(m: Matter, planned: Result<Hearing, Code>, env: Env)
    requires Healthy(m) && env.refused == {}
    ensures var end := WriteHearing(m, planned, env); Healthy(end)
  {
    if planned.Ok? {
      PublishKeepsSync(m.(hearings := m.hearings[planned.value.id := planned.value]), HearingWritten(planned.value.caseId), env);
    }
  }

  lemma RecordKeepsSync(m: Matter, op: MatterOp, env: Env)
    requires Healthy(m) && env.refused == {} && op.RecordOutcome?
    ensures Healthy(Record(m, op, env))
  {
    var recorded := PlanOutcome(m, op);
    WriteHearingKeepsSync(m, recorded, env);
    if recorded.Ok? && op.nextDate.Some? {
      var first := WriteHearing(m, recorded, env);
      WriteHearingKeepsSync(first, PlanSchedule(first, op.nextId, recorded.value.caseId, op.nextDate.value), env);
    }
  }

  /** What an operation does to the diary is one write of a hearing, or two. */
  lemma PerformIs(m: Matter, op: MatterOp, env: Env)
    ensures op.Schedule? ==> Perform(m, op, env) == WriteHearing(m, PlanSchedule(m, op.id, op.caseId, op.date), env)
    ensures op.Reschedule? ==> Perform(m, op, env) == WriteHearing(m, PlanReschedule(m, op.id, op.caseId, op.date), env)
    ensures op.RecordOutcome? ==> Perform(m, op, env) == Record(m, op, env)
  {
  }

  lemma HearingOperationKeepsSync(m: Matter, op: MatterOp, env: Env)
    requires Healthy(m) && env.refused == {} && !op.Firm? && !op.SetLifecycle?
    ensures var end := Perform(m, op, env); Healthy(end)
  {
    PerformIs(m, op, env);
    if op.Schedule? {
      WriteHearingKeepsSync(m, PlanSchedule(m, op.id, op.caseId, op.date), env);
    } else if op.Reschedule? {
      WriteHearingKeepsSync(m, PlanReschedule(m, op.id, op.caseId, op.date), env);
    } else {
      RecordKeepsSync(m, op, env);
    }
  }

  /** One operation with its cascade keeps the engine equal to the projection of the rows. */
  lemma OperationKeepsSync(m: Matter, op: MatterOp, env: Env)
    requires Healthy(m) && env.refused == {}
    requires op.Firm? ==> KeepsUser(m.index.rows, op.op)
    ensures Healthy(Perform(m, op, env))
  {
    match op
    case Firm(firmOp) => WriteFirmKeepsSync(m, firmOp, env);
    case SetLifecycle(caseId) => PublishKeepsSync(m, CaseWritten(caseId), env);
    case _ => HearingOperationKeepsSync(m, op, env);
  }

  /* ----------------------- where the claim needs its conditions ---------------- */

  /** Another open hearing of the case falls on the same day. */
  ghost predicate DayCovered(m: Matter, h: Hearing) {
    exists k :: k in m.hearings && k != h.id && m.hearings[k].caseId == h.caseId
                && m.hearings[k].outcome.None? && m.hearings[k].date == h.date
  }

  lemma EarliestWithout(dates: set<string>, fewer: set<string>, d: string)
    requires fewer <= dates && dates - fewer <= {d}
    ensures Earliest(fewer) == Earliest(dates) <==> d in fewer || Earliest(dates) != Some(d)
  {
    var least := Earliest(dates);
    if least.Some? && least.value in fewer {
      EarliestIs(fewer, least.value);
    }
    if least.Some? && least.value !in fewer {
      assert least.value in dates - fewer;
    }
    if d in fewer {
      forall x | x in dates ensures x in fewer {
        assert x in dates - fewer ==> x in {d};
      }
      assert fewer == dates;
    }
  }

  lemma UpcomingAfterMove(m: Matter, h: Hearing, moved: Hearing, today: string)
    requires h.id in m.hearings && m.hearings[h.id] == h && h.outcome.None? && moved.caseId != h.caseId
    ensures var before := Upcoming(m.hearings, h.caseId, today);
            var after := Upcoming(m.hearings[h.id := moved], h.caseId, today);
            && after <= before && before - after <= {h.date}
            && (TextLe(today, h.date) ==> (h.date in after <==> DayCovered(m, h)))
            && (!TextLe(today, h.date) ==> after == before)
  {
    var diary := m.hearings[h.id := moved];
    forall k | k in m.hearings && k != h.id ensures diary[k] == m.hearings[k] {
    }
    if DayCovered(m, h) {
      var k :| k in m.hearings && k != h.id && m.hearings[k].caseId == h.caseId
               && m.hearings[k].outcome.None? && m.hearings[k].date == h.date;
      assert diary[k].date == h.date;
    }
  }

  lemma EarliestAfterMove(m: Matter, h: Hearing, moved: Hearing, today: string)
    requires h.id in m.hearings && m.hearings[h.id] == h && h.outcome.None? && moved.caseId != h.caseId
    requires h.caseId in m.index.rows.cases && DateCurrent(m, h.caseId, today)
    ensures Earliest(Upcoming(m.hearings[h.id := moved], h.caseId, today)) == m.index.rows.cases[h.caseId].nextHearingDate <==>
            m.index.rows.cases[h.caseId].nextHearingDate != Some(h.date) || DayCovered(m, h)
  {
    var before := Upcoming(m.hearings, h.caseId, today);
    var after := Upcoming(m.hearings[h.id := moved], h.caseId, today);
    UpcomingAfterMove(m, h, moved, today);
    EarliestWithout(before, after, h.date);
  }

  /**
   * Moving a hearing to another case, with the whole cascade it sets off, refreshes only
   * the case it moves to. The case it leaves keeps a current date exactly when its stored
   * date is another day's, or another open hearing of it falls on the same day.
   */
  lemma MovedHearingLeavesDateIff(m: Matter, id: string, caseId: string, date: string, env: Env)
    requires PlanReschedule(m, id, caseId, date).Ok? && m.hearings[id].id == id && m.hearings[id].caseId != caseId
    requires m.hearings[id].caseId in m.index.rows.cases && DateCurrent(m, m.hearings[id].caseId, env.today)
    ensures var h, end := m.hearings[id], Perform(m, Reschedule(id, caseId, date), env);
            && h.caseId in end.index.rows.cases
            && (DateCurrent(end, h.caseId, env.today) <==>
                m.index.rows.cases[h.caseId].nextHearingDate != Some(h.date) || DayCovered(m, h))
  {
    var h, moved := m.hearings[id], PlanReschedule(m, id, caseId, date).value;
    EarliestAfterMove(m, h, moved, env.today);
    MoveRefreshesOneCase(m, moved, env, h.caseId);
    HearingWriteKeepsDiary(m, moved, env);
  }

  lemma HearingWriteKeepsDiary(m: Matter, h: Hearing, env: Env)
    requires h.caseId in m.index.rows.cases
    ensures WriteHearing(m, Ok(h), env).hearings == m.hearings[h.id := h]
  {
    var written := m.(hearings := m.hearings[h.id := h]);
    var op := Refresh(written, h.caseId);
    var recomputed := WithRecomputedDate(written, op, env.today);
    HearingIsCaseWrite(written, h.caseId, env);
    WrittenCase(written, op, env);
    if Plan(m.index.rows, recomputed).Ok? {
      CaseEventKeepsCases(written.(index := Step(m.index, recomputed, env.refused)), h.caseId, env);
    }
  }

  /** The refresh of the receiving case leaves the other case's row as it was. */
  lemma MoveRefreshesOneCase(m: Matter, h: Hearing, env: Env, other: string)
    requires h.caseId in m.index.rows.cases && other in m.index.rows.cases && other != h.caseId
    ensures var end := WriteHearing(m, Ok(h), env);
            other in end.index.rows.cases && end.index.rows.cases[other] == m.index.rows.cases[other]
  {
    var written := m.(hearings := m.hearings[h.id := h]);
    var op := Refresh(written, h.caseId);
    var recomputed := WithRecomputedDate(written, op, env.today);
    HearingIsCaseWrite(written, h.caseId, env);
    WrittenCase(written, op, env);
    StepRows(m.index, recomputed, env.refused);
    if Plan(m.index.rows, recomputed).Ok? {
      var next := written.(index := Step(m.index, recomputed, env.refused));
      CaseEventKeepsCases(next, h.caseId, env);
    }
  }

  lemma CaseEventKeepsCases(m: Matter, caseId: string, env: Env)
    ensures var end := Publish(m, CaseWritten(caseId), env);
            && end.index.rows.cases == m.index.rows.cases && end.index.rows.members == m.index.rows.members
            && end.hearings == m.hearings
  {
    if caseId in m.index.rows.cases {
      var op := AddMembership(env.minted, caseId, m.index.rows.cases[caseId].leadLawyerId);
      WrittenQuietly(m, op, env);
      StepRows(m.index, op, env.refused);
    }
  }

  /** When the day turns, a stored date stays current exactly when it has not passed. */
  lemma DayTurnIff(m: Matter, caseId: string, today: string, later: string)
    requires caseId in m.index.rows.cases && DateCurrent(m, caseId, today) && TextLe(today, later)
    ensures var stored := m.index.rows.cases[caseId].nextHearingDate;
            DateCurrent(m, caseId, later) <==> (stored.Some? ==> TextLe(later, stored.value))
  {
    var before, after := Upcoming(m.hearings, caseId, today), Upcoming(m.hearings, caseId, later);
    forall d | d in after ensures d in before {
      TextLeTransitive(today, later, d);
    }
    var stored := m.index.rows.cases[caseId].nextHearingDate;
    if stored.Some? && TextLe(later, stored.value) {
      EarliestIs(after, stored.value);
    }
  }
}
