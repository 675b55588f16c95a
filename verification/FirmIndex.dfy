/**
 * The write operations on FirmMember, Case and CaseMember with their
 * same-request tuple sync (firmmember-resource.ts, case-resource.ts,
 * casemember-resource.ts and authz/tuples.ts under apps/law/backend/src/domain),
 * and what every run of them keeps: the rows' invariants, and an engine that is
 * exactly the projection of the rows.
 */
module FirmIndex {
  import opened Wrappers
  import opened Tuples
  import opened Engine
  import opened Reconcile
  import opened FirmRows
  import opened Projection

  datatype Code = InvalidArgument | NotFound | AlreadyExists | FailedPrecondition | PermissionDenied | Internal

  /** A validated, authorized request; `id` on a create is the freshly minted one. */
  datatype Op =
    | CreateMember(id: string, userId: string, role: FirmRole, active: Option<bool>)
    | UpdateMember(id: string, userId: string, role: FirmRole, active: Option<bool>, caller: Option<string>)
    | CreateCase(id: string, fileNumber: string, leadLawyerId: string, nextHearingDate: Option<string>)
    | UpdateCase(id: string, fileNumber: string, leadLawyerId: string, nextHearingDate: Option<string>)
    | AddMembership(id: string, caseId: string, memberId: string)
    | RemoveMembership(id: string)

  datatype State = State(rows: Rows, tuples: set<TupleKey>)

  /* ------------------------------ pipelines ------------------------------- */

  /** An unsent flag means active. */
  function DefaultActive(active: Option<bool>): Option<bool> {
    if active.None? then Some(true) else active
  }

  predicate UserTaken(rows: Rows, userId: string, except: string) {
    exists id | id in rows.members :: id != except && rows.members[id].userId == userId
  }

  predicate FileNumberTaken(rows: Rows, fileNumber: string, except: string) {
    exists id | id in rows.cases :: id != except && rows.cases[id].fileNumber == fileNumber
  }

  predicate PeriodOpen(rows: Rows, caseId: string, memberId: string) {
    exists id | id in rows.memberships ::
      InForce(rows.memberships[id])
      && MembershipKey(rows.memberships[id].caseId, rows.memberships[id].memberId) == MembershipKey(caseId, memberId)
  }

  predicate ActingManagingPartner(m: FirmMember) {
    IsActive(m) && m.role == ManagingPartner
  }

  /** The lockout guards: nobody deactivates themselves, and an administrator always remains. */
  function Lockout(rows: Rows, previous: FirmMember, next: FirmMember, caller: Option<string>): Option<Code> {
    if caller == Some(previous.userId) && IsActive(previous) && !IsActive(next) then Some(PermissionDenied)
    else if ActingManagingPartner(previous) && !ActingManagingPartner(next)
            && !(exists id | id in rows.members :: id != previous.id && ActingManagingPartner(rows.members[id]))
    then Some(FailedPrecondition)
    else None
  }

  function PlanMember(rows: Rows, op: Op): Result<RowWrite, Code>
    requires op.CreateMember? || op.UpdateMember?
  {
    var next := FirmMember(op.id, op.userId, op.role, DefaultActive(op.active));
    if op.userId == "" then Err(InvalidArgument)
    else if op.CreateMember? then
      if UserTaken(rows, op.userId, "") then Err(AlreadyExists)
      else if op.id == "" || op.id in rows.members then Err(Internal)
      else Ok(PutMember(next))
    else if op.id !in rows.members then Err(NotFound)
    else if op.userId != rows.members[op.id].userId && UserTaken(rows, op.userId, op.id) then Err(AlreadyExists)
    else
      match Lockout(rows, rows.members[op.id], next, op.caller)
      case Some(code) => Err(code)
      case None => Ok(PutMember(next))
  }

  function PlanCase(rows: Rows, op: Op): Result<RowWrite, Code>
    requires op.CreateCase? || op.UpdateCase?
  {
    var next := Case(op.id, op.fileNumber, op.leadLawyerId, op.nextHearingDate);
    if op.fileNumber == "" || op.leadLawyerId == "" then Err(InvalidArgument)
    else if op.UpdateCase? && op.id !in rows.cases then Err(NotFound)
    else if op.UpdateCase? && op.fileNumber != rows.cases[op.id].fileNumber
            && FileNumberTaken(rows, op.fileNumber, op.id) then Err(AlreadyExists)
    else if op.CreateCase? && FileNumberTaken(rows, op.fileNumber, "") then Err(AlreadyExists)
    else if op.leadLawyerId !in rows.members then Err(FailedPrecondition)
    else if op.CreateCase? && (op.id == "" || op.id in rows.cases) then Err(Internal)
    else Ok(PutCase(next))
  }

  function PlanMembership(rows: Rows, op: Op): Result<RowWrite, Code>
    requires op.AddMembership? || op.RemoveMembership?
  {
    match op
    case AddMembership(id, caseId, memberId) =>
      if caseId == "" || memberId == "" then Err(InvalidArgument)
      else if PeriodOpen(rows, caseId, memberId) then Err(AlreadyExists)
      else if caseId !in rows.cases || memberId !in rows.members then Err(FailedPrecondition)
      else if id == "" || id in rows.memberships then Err(Internal)
      else Ok(PutMembership(CaseMember(id, caseId, memberId, Some(true))))
    case RemoveMembership(id) =>
      if id == "" then Err(InvalidArgument)
      else if id !in rows.memberships then Err(NotFound)
      else
        var m := rows.memberships[id];
        if !InForce(m) then Err(FailedPrecondition)
        else if m.caseId in rows.cases && rows.cases[m.caseId].leadLawyerId == m.memberId then Err(FailedPrecondition)
        else Ok(PutMembership(m.(active := Some(false))))
  }

  /** The row a request persists, or the code it is refused with, checks in pipeline order. */
  function Plan(rows: Rows, op: Op): Result<RowWrite, Code> {
    if op.CreateMember? || op.UpdateMember? then PlanMember(rows, op)
    else if op.CreateCase? || op.UpdateCase? then PlanCase(rows, op)
    else PlanMembership(rows, op)
  }

  ghost function Synced(tuples: set<TupleKey>, delta: TupleDelta, refused: set<TupleKey>): set<TupleKey> {
    tuples + (SetOf(delta.writes) - refused) - (SetOf(delta.deletes) - refused)
  }

  /** The row write, then the contained sync: what the engine refuses is simply not applied. */
  ghost function WriteAndSync(s: State, w: RowWrite, refused: set<TupleKey>): State {
    State(Apply(s.rows, w), Synced(s.tuples, DeltaOf(s.rows, w), refused))
  }

  ghost function Step(s: State, op: Op, refused: set<TupleKey>): State {
    match Plan(s.rows, op)
    case Err(_) => s
    case Ok(w) => WriteAndSync(s, w, refused)
  }

  ghost predicate InSync(s: State) {
    s.tuples == Projected(s.rows)
  }

  /** The request does not rebind a stored member to another user. */
  predicate KeepsUser(rows: Rows, op: Op) {
    op.UpdateMember? && op.id in rows.members ==> rows.members[op.id].userId == op.userId
  }

  lemma PlanMemberAdmissible(rows: Rows, op: Op)
    requires Keyed(rows) && UniqueUsers(rows) && (op.CreateMember? || op.UpdateMember?) && PlanMember(rows, op).Ok?
    ensures Admissible(rows, PlanMember(rows, op).value)
    ensures KeepsUser(rows, op) ==> KeepsUsers(rows, PlanMember(rows, op).value)
  {
  }

  lemma PlanCaseAdmissible(rows: Rows, op: Op)
    requires Keyed(rows) && UniqueFileNumbers(rows) && (op.CreateCase? || op.UpdateCase?) && PlanCase(rows, op).Ok?
    ensures Admissible(rows, PlanCase(rows, op).value)
  {
  }

  lemma PlanMembershipAdmissible(rows: Rows, op: Op)
    requires Keyed(rows) && ReferencesResolve(rows) && (op.AddMembership? || op.RemoveMembership?)
    requires PlanMembership(rows, op).Ok?
    ensures Admissible(rows, PlanMembership(rows, op).value)
  {
  }

  /** The pipelines' checks give exactly what the natural keys and references need. */
  lemma PlanAdmissible(rows: Rows, op: Op)
    requires RowsOk(rows) && Plan(rows, op).Ok?
    ensures Admissible(rows, Plan(rows, op).value)
    ensures KeepsUser(rows, op) ==> KeepsUsers(rows, Plan(rows, op).value)
  {
    if op.CreateMember? || op.UpdateMember? {
      PlanMemberAdmissible(rows, op);
    } else if op.CreateCase? || op.UpdateCase? {
      PlanCaseAdmissible(rows, op);
    } else {
      PlanMembershipAdmissible(rows, op);
    }
  }

  /* ------------------ what each request is answered, on its fields ------------------ */

  lemma UnsentMeansActive(active: Option<bool>)
    ensures DefaultActive(active) == Some(active != Some(false))
  {
    if active.Some? {
      assert if active.value then active == Some(true) else active == Some(false);
    }
  }

  /** A new member: a user nobody is bound to; active unless it says otherwise. */
  lemma CreateMemberIff(rows: Rows, id: string, userId: string, role: FirmRole, active: Option<bool>)
    ensures var r := Plan(rows, CreateMember(id, userId, role, active));
            && (r.Ok? <==> userId != "" && id != "" && id !in rows.members
                           && forall k | k in rows.members :: k != "" ==> rows.members[k].userId != userId)
            && (r.Ok? ==> r.value == PutMember(FirmMember(id, userId, role, Some(active != Some(false)))))
            && (r == Err(InvalidArgument) <==> userId == "")
            && (r == Err(AlreadyExists) <==>
                userId != "" && exists k | k in rows.members :: k != "" && rows.members[k].userId == userId)
            && (r.Err? ==> r.error in {InvalidArgument, AlreadyExists, Internal})
  {
    UnsentMeansActive(active);
  }

  /** The row as it will be: an unsent flag means active. */
  predicate StaysActing(role: FirmRole, active: Option<bool>) {
    role == ManagingPartner && active != Some(false)
  }

  /**
   * A member's update: refused to whoever would deactivate themselves, and to whoever would
   * leave the firm without an acting managing partner; otherwise the row is as it was sent.
   */
  lemma UpdateMemberIff(rows: Rows, id: string, userId: string, role: FirmRole, active: Option<bool>, caller: Option<string>)
    requires id in rows.members && rows.members[id].id == id && userId != ""
    requires userId == rows.members[id].userId || forall k | k in rows.members && k != id :: rows.members[k].userId != userId
    ensures var r, before := Plan(rows, UpdateMember(id, userId, role, active, caller)), rows.members[id];
            var leaving := caller == Some(before.userId) && before.active == Some(true) && active == Some(false);
            var last := && before.active == Some(true) && before.role == ManagingPartner && !StaysActing(role, active)
                        && forall k | k in rows.members && k != id ::
                             !(rows.members[k].active == Some(true) && rows.members[k].role == ManagingPartner);
            && (r == Err(PermissionDenied) <==> leaving)
            && (r == Err(FailedPrecondition) <==> !leaving && last)
            && (r.Ok? <==> !leaving && !last)
            && (r.Ok? ==> r.value == PutMember(FirmMember(id, userId, role, Some(active != Some(false)))))
  {
    UnsentMeansActive(active);
  }

  /** The update is not even looked at without a user, a row, or when another member has the user. */
  lemma UpdateMemberRefused(rows: Rows, id: string, userId: string, role: FirmRole, active: Option<bool>, caller: Option<string>)
    ensures var r := Plan(rows, UpdateMember(id, userId, role, active, caller));
            && (r == Err(InvalidArgument) <==> userId == "")
            && (r == Err(NotFound) <==> userId != "" && id !in rows.members)
            && (r == Err(AlreadyExists) <==>
                userId != "" && id in rows.members && userId != rows.members[id].userId
                && exists k | k in rows.members && k != id :: rows.members[k].userId == userId)
  {
  }

  predicate FileNumberFree(rows: Rows, fileNumber: string, except: string) {
    forall k | k in rows.cases && k != except :: rows.cases[k].fileNumber != fileNumber
  }

  /** A new case: its number free, its lead a member; the row is as it was sent. */
  lemma CreateCaseIff(rows: Rows, id: string, fileNumber: string, lead: string, date: Option<string>)
    requires Keyed(rows)
    ensures var r := Plan(rows, CreateCase(id, fileNumber, lead, date));
            && (r == Err(InvalidArgument) <==> fileNumber == "" || lead == "")
            && (r == Err(AlreadyExists) <==> fileNumber != "" && lead != "" && !FileNumberFree(rows, fileNumber, ""))
            && (r == Err(FailedPrecondition) <==>
                fileNumber != "" && lead != "" && FileNumberFree(rows, fileNumber, "") && lead !in rows.members)
            && (r.Ok? <==> fileNumber != "" && lead != "" && FileNumberFree(rows, fileNumber, "") && lead in rows.members
                           && id != "" && id !in rows.cases)
            && (r.Ok? ==> r.value == PutCase(Case(id, fileNumber, lead, date)))
  {
  }

  /** A case's update: a number it keeps, or one no other case has. */
  lemma UpdateCaseIff(rows: Rows, id: string, fileNumber: string, lead: string, date: Option<string>)
    ensures var r := Plan(rows, UpdateCase(id, fileNumber, lead, date));
            var kept := id in rows.cases && (fileNumber == rows.cases[id].fileNumber || FileNumberFree(rows, fileNumber, id));
            && (r == Err(InvalidArgument) <==> fileNumber == "" || lead == "")
            && (r == Err(NotFound) <==> fileNumber != "" && lead != "" && id !in rows.cases)
            && (r == Err(AlreadyExists) <==> fileNumber != "" && lead != "" && id in rows.cases && !kept)
            && (r == Err(FailedPrecondition) <==> fileNumber != "" && lead != "" && kept && lead !in rows.members)
            && (r.Ok? <==> fileNumber != "" && lead != "" && kept && lead in rows.members)
            && (r.Ok? ==> r.value == PutCase(Case(id, fileNumber, lead, date)))
  {
  }

  /** A period is opened for a pair that has none in force, of a case and a member that exist. */
  lemma AddMembershipIff(rows: Rows, id: string, caseId: string, memberId: string)
    ensures var r := Plan(rows, AddMembership(id, caseId, memberId));
            var open := exists k | k in rows.memberships ::
              (rows.memberships[k].active == Some(true)
               && rows.memberships[k].caseId + ":" + rows.memberships[k].memberId == caseId + ":" + memberId);
            && (r == Err(InvalidArgument) <==> caseId == "" || memberId == "")
            && (r == Err(AlreadyExists) <==> caseId != "" && memberId != "" && open)
            && (r == Err(FailedPrecondition) <==>
                caseId != "" && memberId != "" && !open && (caseId !in rows.cases || memberId !in rows.members))
            && (r.Ok? <==> caseId != "" && memberId != "" && !open && caseId in rows.cases && memberId in rows.members
                           && id != "" && id !in rows.memberships)
            && (r.Ok? ==> r.value == PutMembership(CaseMember(id, caseId, memberId, Some(true))))
  {
  }

  /** A period in force is ended, unless it makes the case's lead a member; the row is kept. */
  lemma RemoveMembershipIff(rows: Rows, id: string)
    ensures var r := Plan(rows, RemoveMembership(id));
            && (r == Err(InvalidArgument) <==> id == "")
            && (r == Err(NotFound) <==> id != "" && id !in rows.memberships)
            && (id != "" && id in rows.memberships ==>
                  var p := rows.memberships[id];
                  var leads := p.caseId in rows.cases && rows.cases[p.caseId].leadLawyerId == p.memberId;
                  && (r == Err(FailedPrecondition) <==> p.active != Some(true) || leads)
                  && (r.Ok? <==> p.active == Some(true) && !leads)
                  && (r.Ok? ==> r.value == PutMembership(CaseMember(p.id, p.caseId, p.memberId, Some(false)))))
  {
  }

  /** A write whose sync succeeds keeps the engine equal to the projection of the rows. */
  lemma StepKeepsSync(s: State, op: Op)
    requires RowsOk(s.rows) && InSync(s) && KeepsUser(s.rows, op)
    ensures RowsOk(Step(s, op, {}).rows) && InSync(Step(s, op, {}))
  {
    if Plan(s.rows, op).Ok? {
      var w := Plan(s.rows, op).value;
      PlanAdmissible(s.rows, op);
      ApplyKeepsRows(s.rows, w);
      DeltaSyncs(s.rows, w);
      CleanSync(s.tuples, DeltaOf(s.rows, w));
    }
  }

  lemma CleanSync(tuples: set<TupleKey>, d: TupleDelta)
    ensures Synced(tuples, d, {}) == tuples + SetOf(d.writes) - SetOf(d.deletes)
  {
  }

  /* ---------------------------------- runs --------------------------------- */

  /** A request of a run, with the tuples the engine refused while it synced. */
  datatype Request = Request(op: Op, refused: set<TupleKey>)

  ghost function Run(s: State, requests: seq<Request>): State
    decreases |requests|
  {
    if requests == [] then s else Run(Step(s, requests[0].op, requests[0].refused), requests[1..])
  }

  /** Every sync of the run succeeds and no member is rebound to another user. */
  ghost predicate Faithful(s: State, requests: seq<Request>)
    decreases |requests|
  {
    requests == []
    || (requests[0].refused == {} && KeepsUser(s.rows, requests[0].op)
        && Faithful(Step(s, requests[0].op, {}), requests[1..]))
  }

  /** The engine equals the full projection after every write of a faithful run. */
  lemma {:induction false} RunKeepsSync(s: State, requests: seq<Request>)
    requires RowsOk(s.rows) && InSync(s) && Faithful(s, requests)
    ensures RowsOk(Run(s, requests).rows) && InSync(Run(s, requests))
    decreases |requests|
  {
    if requests != [] {
      StepKeepsSync(s, requests[0].op);
      RunKeepsSync(Step(s, requests[0].op, {}), requests[1..]);
    }
  }

  lemma StepKeepsRows(s: State, op: Op, refused: set<TupleKey>)
    requires RowsOk(s.rows)
    ensures RowsOk(Step(s, op, refused).rows)
  {
    if Plan(s.rows, op).Ok? {
      PlanAdmissible(s.rows, op);
      ApplyKeepsRows(s.rows, Plan(s.rows, op).value);
    }
  }

  /** Whatever the engine refused, the rows keep their invariants. */
  lemma {:induction false} RunKeepsRows(s: State, requests: seq<Request>)
    requires RowsOk(s.rows)
    ensures RowsOk(Run(s, requests).rows)
    decreases |requests|
  {
    if requests != [] {
      StepKeepsRows(s, requests[0].op, requests[0].refused);
      RunKeepsRows(Step(s, requests[0].op, requests[0].refused), requests[1..]);
    }
  }

  lemma StepKeepsCallerActive(s: State, op: Op, refused: set<TupleKey>, memberId: string)
    requires RowsOk(s.rows) && op.UpdateMember? && memberId in s.rows.members
    requires s.rows.members[memberId].active == Some(true) && op.caller == Some(s.rows.members[memberId].userId)
    ensures var after := Step(s, op, refused).rows.members;
            memberId in after && after[memberId].active == Some(true)
  {
    UnsentMeansActive(op.active);
  }

  /** Over any run, no request deactivates the active member whose user sent it. */
  lemma NobodyDeactivatesThemselves(s: State, requests: seq<Request>, k: nat, memberId: string)
    requires RowsOk(s.rows) && k < |requests| && requests[k].op.UpdateMember?
    requires var before := Run(s, requests[..k]).rows.members;
             memberId in before && before[memberId].active == Some(true)
             && requests[k].op.caller == Some(before[memberId].userId)
    ensures var after := Run(s, requests[..k + 1]).rows.members;
            memberId in after && after[memberId].active == Some(true)
  {
    RunKeepsRows(s, requests[..k]);
    StepKeepsCallerActive(Run(s, requests[..k]), requests[k].op, requests[k].refused, memberId);
    RunOneMore(s, requests, k);
  }

  lemma {:induction false} RunOneMore(s: State, requests: seq<Request>, k: nat)
    requires k < |requests|
    ensures Run(s, requests[..k + 1]) == Step(Run(s, requests[..k]), requests[k].op, requests[k].refused)
    decreases k
  {
    if k > 0 {
      var rest := requests[1..];
      assert requests[..k + 1][1..] == rest[..k] && requests[..k][1..] == rest[..k - 1];
      RunOneMore(Step(s, requests[0].op, requests[0].refused), rest, k - 1);
    } else {
      assert requests[..1][1..] == [];
    }
  }

  /* ------------------------- the reconciler's ground ------------------------- */

  /** No bar in any case's id (or, the other way, in any member's user id). */
  ghost predicate BarFree(rows: Rows, byObject: bool) {
    if byObject then
      && (forall id :: id in rows.cases ==> '|' !in rows.cases[id].id && '|' !in id)
      && (forall id :: id in rows.memberships ==> '|' !in rows.memberships[id].caseId)
    else forall id :: id in rows.members ==> '|' !in rows.members[id].userId
  }

  predicate BarFreeOp(op: Op, byObject: bool) {
    if byObject then op.CreateCase? ==> '|' !in op.id
    else op.CreateMember? || op.UpdateMember? ==> '|' !in op.userId
  }

  ghost predicate AllSeparable(ts: set<TupleKey>, byObject: bool) {
    forall t :: t in ts ==> Separable(t, byObject)
  }

  /** A bar-free user in a new firm, and a bar-free case id, keep it so. */
  lemma NewFirmIsBarFree(m: FirmMember, c: Case, byObject: bool)
    requires '|' !in m.userId && '|' !in c.id
    ensures BarFree(Rows(map[m.id := m], map[c.id := c], map[]), byObject)
    ensures BarFreeOp(CreateMember(m.id, m.userId, m.role, m.active), byObject)
    ensures BarFreeOp(CreateCase(c.id, c.fileNumber, c.leadLawyerId, c.nextHearingDate), byObject)
  {
  }

  lemma RoleTupleSeparable(m: FirmMember, byObject: bool)
    requires RoleTuple(m).Some? && (byObject || '|' !in m.userId)
    ensures Separable(RoleTuple(m).value, byObject)
  {
    assert '|' !in RoleRelation(m.role).value;
  }

  lemma CaseTuplesSeparable(userId: string, caseId: string, byObject: bool)
    requires '|' !in (if byObject then caseId else userId)
    ensures Separable(FirmTuple(caseId), byObject)
    ensures Separable(LeadTuple(userId, caseId), byObject) && Separable(MemberTuple(userId, caseId), byObject)
  {
  }

  lemma SupportSeparable(rows: Rows, r: RowRef, byObject: bool)
    requires BarFree(rows, byObject)
    ensures AllSeparable(Support(rows, r), byObject)
  {
    forall t | t in Support(rows, r) ensures Separable(t, byObject) {
      match r
      case MemberRow(id) =>
        RoleTupleSeparable(rows.members[id], byObject);
      case CaseRow(id) =>
        CaseTuplesSeparable(UserOf(rows, rows.cases[id].leadLawyerId), rows.cases[id].id, byObject);
      case MembershipRow(id) =>
        CaseTuplesSeparable(UserOf(rows, rows.memberships[id].memberId), rows.memberships[id].caseId, byObject);
    }
  }

  lemma ProjectedSeparable(rows: Rows, byObject: bool)
    requires BarFree(rows, byObject)
    ensures AllSeparable(Projected(rows), byObject)
  {
    forall t | t in Projected(rows) ensures Separable(t, byObject) {
      ProjectedIsSupport(rows, t);
      var r :| t in Support(rows, r);
      SupportSeparable(rows, r, byObject);
    }
  }

  /** A delta writes only tuples that the written row supports afterwards. */
  lemma DeltaWritesSupported(rows: Rows, w: RowWrite)
    requires Keyed(rows)
    ensures SetOf(DeltaOf(rows, w).writes) <= Support(Apply(rows, w), Written(w))
  {
  }

  lemma PlanStaysBarFree(rows: Rows, op: Op, byObject: bool)
    requires Keyed(rows) && BarFree(rows, byObject) && BarFreeOp(op, byObject) && Plan(rows, op).Ok?
    ensures var after := Apply(rows, Plan(rows, op).value); Keyed(after) && BarFree(after, byObject)
  {
    PlanIsBarFree(rows, op, byObject);
    BarFreeWriteStays(rows, Plan(rows, op).value, byObject);
  }

  predicate BarFreeWrite(w: RowWrite, byObject: bool) {
    match w
    case PutMember(m) => m.id != "" && (byObject || '|' !in m.userId)
    case PutCase(c) => c.id != "" && (!byObject || '|' !in c.id)
    case PutMembership(m) => m.id != "" && (!byObject || '|' !in m.caseId)
  }

  lemma PlanIsBarFree(rows: Rows, op: Op, byObject: bool)
    requires Keyed(rows) && BarFree(rows, byObject) && BarFreeOp(op, byObject) && Plan(rows, op).Ok?
    ensures BarFreeWrite(Plan(rows, op).value, byObject)
  {
  }

  lemma BarFreeWriteStays(rows: Rows, w: RowWrite, byObject: bool)
    requires Keyed(rows) && BarFree(rows, byObject) && BarFreeWrite(w, byObject)
    ensures Keyed(Apply(rows, w)) && BarFree(Apply(rows, w), byObject)
  {
  }

  lemma StepStaysSeparable(s: State, op: Op, refused: set<TupleKey>, byObject: bool)
    requires Keyed(s.rows) && BarFree(s.rows, byObject) && AllSeparable(s.tuples, byObject) && BarFreeOp(op, byObject)
    ensures var after := Step(s, op, refused);
            Keyed(after.rows) && BarFree(after.rows, byObject) && AllSeparable(after.tuples, byObject)
  {
    if Plan(s.rows, op).Ok? {
      var w := Plan(s.rows, op).value;
      PlanStaysBarFree(s.rows, op, byObject);
      DeltaWritesSupported(s.rows, w);
      SupportSeparable(Apply(s.rows, w), Written(w), byObject);
    }
  }

  /**
   * With bar-free case ids, or with bar-free user ids, and however many syncs failed
   * along the way, the reconciler's set identity stays sound: no stored or desired
   * tuple is mistaken for another.
   */
  lemma {:induction false} RunNeverClashes(s: State, requests: seq<Request>, byObject: bool)
    requires Keyed(s.rows) && BarFree(s.rows, byObject) && AllSeparable(s.tuples, byObject)
    requires forall k :: 0 <= k < |requests| ==> BarFreeOp(requests[k].op, byObject)
    ensures NoClash(Run(s, requests).tuples + Projected(Run(s, requests).rows))
    decreases |requests|
  {
    if requests == [] {
      ProjectedSeparable(s.rows, byObject);
      SeparableNoClash(s.tuples + Projected(s.rows), byObject);
    } else {
      assert BarFreeOp(requests[0].op, byObject);
      StepStaysSeparable(s, requests[0].op, requests[0].refused, byObject);
      assert forall k :: 0 <= k < |requests[1..]| ==> requests[1..][k] == requests[k + 1];
      RunNeverClashes(Step(s, requests[0].op, requests[0].refused), requests[1..], byObject);
    }
  }

  /* ------------------- where the claim needs its conditions ------------------ */

  /** Some case or period in force names this member. */
  ghost predicate Referenced(rows: Rows, memberId: string) {
    || (exists id :: id in rows.cases && rows.cases[id].leadLawyerId == memberId)
    || (exists id :: id in rows.memberships && InForce(rows.memberships[id]) && rows.memberships[id].memberId == memberId)
  }

  /** A projected tuple about a user is supported by a stored member bound to that user. */
  lemma TupleUserIsBound(rows: Rows, t: TupleKey, userId: string)
    requires t in Projected(rows) && t.user == UserRef(userId) && userId != ""
    ensures exists i :: i in rows.members && rows.members[i].userId == userId
  {
    ProjectedIsSupport(rows, t);
    var r :| t in Support(rows, r);
    match r
    case MemberRow(id) =>
      ReferencesDiffer(userId, rows.members[id].userId);
    case CaseRow(id) =>
      ReferencesDiffer(userId, UserOf(rows, rows.cases[id].leadLawyerId));
    case MembershipRow(id) =>
      ReferencesDiffer(userId, UserOf(rows, rows.memberships[id].memberId));
  }

  /** A case row or period of the rebound member still has its old user's tuple in the engine. */
  lemma StaleAfterRebind(rows: Rows, w: RowWrite, r: RowRef, stale: TupleKey)
    requires RowsOk(rows) && Admissible(rows, w) && w.PutMember? && w.member.id in rows.members && !KeepsUsers(rows, w)
    requires !r.MemberRow? && stale in Support(rows, r)
    requires stale.user == UserRef(rows.members[w.member.id].userId)
    ensures stale in Projected(rows) && stale !in Projected(Apply(rows, w))
    ensures stale !in SetOf(DeltaOf(rows, w).deletes)
  {
    var after := Apply(rows, w);
    var user := rows.members[w.member.id].userId;
    ProjectedIsSupport(rows, stale);
    RebindDeletesOnFirm(rows, w, r, stale);
    assert forall i | i in after.members :: after.members[i].userId != user;
    if stale in Projected(after) {
      TupleUserIsBound(after, stale, user);
    }
  }

  /** The delta of a member write speaks of the firm only, and a case's tuples do not. */
  lemma RebindDeletesOnFirm(rows: Rows, w: RowWrite, r: RowRef, stale: TupleKey)
    requires RowsOk(rows) && w.PutMember? && !r.MemberRow? && stale in Support(rows, r)
    ensures stale !in SetOf(DeltaOf(rows, w).deletes)
  {
    ShapeOfSupport(rows, stale, r);
  }

  lemma ReferencedHasTuple(rows: Rows, memberId: string) returns (r: RowRef, t: TupleKey)
    requires RowsOk(rows) && memberId in rows.members && Referenced(rows, memberId)
    ensures !r.MemberRow? && t in Support(rows, r) && t.user == UserRef(rows.members[memberId].userId)
  {
    var user := rows.members[memberId].userId;
    if id :| id in rows.cases && rows.cases[id].leadLawyerId == memberId {
      r, t := CaseRow(id), LeadTuple(user, id);
    } else {
      var id :| id in rows.memberships && InForce(rows.memberships[id]) && rows.memberships[id].memberId == memberId;
      assert rows.memberships[id].caseId in rows.cases;
      r, t := MembershipRow(id), MemberTuple(user, rows.memberships[id].caseId);
    }
  }

  lemma UnreferencedRebindSyncs(rows: Rows, w: RowWrite)
    requires RowsOk(rows) && Admissible(rows, w) && w.PutMember? && w.member.id in rows.members
    requires !Referenced(rows, w.member.id)
    ensures Projected(rows) + SetOf(DeltaOf(rows, w).writes) - SetOf(DeltaOf(rows, w).deletes)
            == Projected(Apply(rows, w))
  {
    var after := Apply(rows, w);
    var changed := MemberRow(w.member.id);
    FirmMemberDeltaIsRowDiff(Some(rows.members[w.member.id]), w.member);
    UnreferencedRebindMovesOneRow(rows, w);
    forall r, t | r != changed && t in Support(rows, changed) ensures t !in Support(rows, r) {
      if t in Support(rows, r) {
        OneSupporter(rows, t, r, changed);
      }
    }
    RowDiffSyncs(rows, after, changed, DeltaOf(rows, w));
  }

  lemma UnreferencedRebindMovesOneRow(rows: Rows, w: RowWrite)
    requires w.PutMember? && !Referenced(rows, w.member.id)
    ensures forall r :: r != MemberRow(w.member.id) ==> Support(rows, r) == Support(Apply(rows, w), r)
  {
  }

  /**
   * Rebinding a member to another user keeps the engine in sync exactly when no
   * case is led by the member and no period of theirs is in force: the delta of
   * a FirmMember write moves the role tuple only.
   */
  lemma RebindSyncsIffUnreferenced(s: State, op: Op)
    requires RowsOk(s.rows) && InSync(s)
    requires op.UpdateMember? && Plan(s.rows, op).Ok? && !KeepsUser(s.rows, op)
    ensures InSync(Step(s, op, {})) <==> !Referenced(s.rows, op.id)
  {
    var w := Plan(s.rows, op).value;
    PlanAdmissible(s.rows, op);
    CleanSync(s.tuples, DeltaOf(s.rows, w));
    if Referenced(s.rows, op.id) {
      var r, stale := ReferencedHasTuple(s.rows, op.id);
      StaleAfterRebind(s.rows, w, r, stale);
      assert stale in Step(s, op, {}).tuples;
    } else {
      UnreferencedRebindSyncs(s.rows, w);
    }
  }

  /**
   * What a failed sync leaves behind, exactly: the refused writes are missing
   * (a grant not yet given) and the refused deletes remain (a grant not yet
   * taken away).
   */
  lemma DriftOfFailedSync(s: State, op: Op, refused: set<TupleKey>)
    requires RowsOk(s.rows) && InSync(s) && KeepsUser(s.rows, op) && Plan(s.rows, op).Ok?
    ensures var after := Step(s, op, refused);
            var d := DeltaOf(s.rows, Plan(s.rows, op).value);
            && Projected(after.rows) - after.tuples == SetOf(d.writes) * refused
            && after.tuples - Projected(after.rows) == SetOf(d.deletes) * refused
  {
    var w := Plan(s.rows, op).value;
    PlanAdmissible(s.rows, op);
    DeltaSyncs(s.rows, w);
    DeltaIsExact(s.rows, w);
    var d := DeltaOf(s.rows, w);
    DriftAlgebra(s.tuples, SetOf(d.writes), SetOf(d.deletes), refused);
  }

  /* -------------------- two syncs, tuple by tuple ---------------------------- */

  /** One tuple of one of two syncs, as the engine applies it. */
  datatype TupleOp = TupleOp(second: bool, write: bool, tuple: TupleKey)

  function Applied(tuples: set<TupleKey>, ops: seq<TupleOp>): set<TupleKey> {
    if ops == [] then tuples
    else
      var before, last := Applied(tuples, ops[..|ops| - 1]), ops[|ops| - 1];
      if last.write then before + {last.tuple} else before - {last.tuple}
  }

  /** The operations are exactly those of the two deltas, each applied once, in some order. */
  ghost predicate Interleaves(ops: seq<TupleOp>, first: TupleDelta, second: TupleDelta) {
    && (forall i, k | 0 <= i < k < |ops| :: ops[i] != ops[k])
    && (forall op :: op in ops <==> op.tuple in SetOf(Part(if op.second then second else first, op.write)))
  }

  function Part(d: TupleDelta, writes: bool): seq<TupleKey> {
    if writes then d.writes else d.deletes
  }

  /** One write alone is such an order of its own sync. */
  lemma OneWriteInterleaves(t: TupleKey)
    ensures Interleaves([TupleOp(false, true, t)], TupleDelta([t], []), TupleDelta([], []))
  {
  }

  /** The last operation on a tuple decides whether it is stored. */
  lemma {:induction false} LastDecides(tuples: set<TupleKey>, ops: seq<TupleOp>, k: nat)
    requires k < |ops| && forall i | k < i < |ops| :: ops[i].tuple != ops[k].tuple
    ensures ops[k].tuple in Applied(tuples, ops) <==> ops[k].write
  {
    if k < |ops| - 1 {
      var front := ops[..|ops| - 1];
      assert front[k] == ops[k] && forall i | k < i < |front| :: front[i] == ops[i];
      LastDecides(tuples, front, k);
    }
  }

  lemma {:induction false} UntouchedStays(tuples: set<TupleKey>, ops: seq<TupleOp>, t: TupleKey)
    requires forall i | 0 <= i < |ops| :: ops[i].tuple != t
    ensures t in Applied(tuples, ops) <==> t in tuples
  {
    if ops != [] {
      var front := ops[..|ops| - 1];
      assert forall i | 0 <= i < |front| :: front[i] == ops[i];
      UntouchedStays(tuples, front, t);
    }
  }

  /** What two deltas, the second planned after the first, can have to do with each other. */
  ghost predicate Planned(tuples: set<TupleKey>, first: TupleDelta, second: TupleDelta) {
    var middle := tuples + SetOf(first.writes) - SetOf(first.deletes);
    && SetOf(first.deletes) <= tuples && SetOf(first.writes) !! tuples
    && SetOf(second.deletes) <= middle && SetOf(second.writes) !! middle
  }

  /** Every tuple both deltas touch is touched by the first before the second. */
  predicate InOrderOnEach(ops: seq<TupleOp>) {
    forall i, k | 0 <= i < |ops| && 0 <= k < |ops| ::
      ops[i].tuple == ops[k].tuple && !ops[i].second && ops[k].second ==> i < k
  }

  ghost function Both(tuples: set<TupleKey>, first: TupleDelta, second: TupleDelta): set<TupleKey> {
    tuples + SetOf(first.writes) - SetOf(first.deletes) + SetOf(second.writes) - SetOf(second.deletes)
  }

  /** A sync touches a tuple once. */
  lemma TouchedOnce(tuples: set<TupleKey>, first: TupleDelta, second: TupleDelta, ops: seq<TupleOp>, i: nat, k: nat)
    requires Planned(tuples, first, second) && Interleaves(ops, first, second)
    requires i < |ops| && k < |ops| && ops[i].tuple == ops[k].tuple && ops[i].second == ops[k].second
    ensures i == k
  {
    assert ops[i] in ops && ops[k] in ops;
  }

  /** The second delta's operation on a tuple is what the two leave of it, and the first's does the opposite. */
  lemma SecondDecides(tuples: set<TupleKey>, first: TupleDelta, second: TupleDelta, ops: seq<TupleOp>, k: nat)
    requires Planned(tuples, first, second) && Interleaves(ops, first, second) && k < |ops|
    ensures ops[k].second ==> (ops[k].tuple in Both(tuples, first, second) <==> ops[k].write)
    ensures forall i | 0 <= i < |ops| && ops[i].tuple == ops[k].tuple && ops[i].second && !ops[k].second ::
              ops[i].write != ops[k].write
    ensures !ops[k].second && (forall i | 0 <= i < |ops| :: ops[i].tuple == ops[k].tuple ==> i == k) ==>
              (ops[k].tuple in Both(tuples, first, second) <==> ops[k].write)
  {
    assert ops[k] in ops;
    forall i | 0 <= i < |ops| && ops[i].tuple == ops[k].tuple && ops[i].second && !ops[k].second
      ensures ops[i].write != ops[k].write
    {
      assert ops[i] in ops;
    }
    var t := ops[k].tuple;
    assert TupleOp(true, true, t) in ops <==> t in SetOf(second.writes);
    assert TupleOp(true, false, t) in ops <==> t in SetOf(second.deletes);
  }

  lemma {:induction false} LastTouch(ops: seq<TupleOp>, t: TupleKey, from: nat) returns (k: nat)
    requires from < |ops| && ops[from].tuple == t
    ensures from <= k < |ops| && ops[k].tuple == t && forall i | k < i < |ops| :: ops[i].tuple != t
    decreases |ops| - from
  {
    if i :| from < i < |ops| && ops[i].tuple == t {
      k := LastTouch(ops, t, i);
    } else {
      k := from;
    }
  }

  lemma TupleSettles(tuples: set<TupleKey>, first: TupleDelta, second: TupleDelta, ops: seq<TupleOp>, t: TupleKey)
    requires Planned(tuples, first, second) && Interleaves(ops, first, second) && InOrderOnEach(ops)
    ensures t in Applied(tuples, ops) <==> t in Both(tuples, first, second)
  {
    if from :| 0 <= from < |ops| && ops[from].tuple == t {
      var k := LastTouch(ops, t, from);
      LastDecides(tuples, ops, k);
      SecondDecides(tuples, first, second, ops, k);
      if !ops[k].second {
        forall i | 0 <= i < |ops| && ops[i].tuple == t ensures i == k {
          TouchedOnce(tuples, first, second, ops, if ops[i].second then k else i, k);
        }
      }
    } else {
      UntouchedStays(tuples, ops, t);
      assert forall x, y :: TupleOp(x, y, t) !in ops;
      assert TupleOp(false, true, t) !in ops && TupleOp(false, false, t) !in ops;
      assert TupleOp(true, true, t) !in ops && TupleOp(true, false, t) !in ops;
    }
  }

  lemma OvertakenTupleIsWrong(tuples: set<TupleKey>, first: TupleDelta, second: TupleDelta, ops: seq<TupleOp>, i: nat, k: nat)
    requires Planned(tuples, first, second) && Interleaves(ops, first, second)
    requires k < i < |ops| && ops[i].tuple == ops[k].tuple && !ops[i].second && ops[k].second
    ensures Applied(tuples, ops) != Both(tuples, first, second)
  {
    forall n | i < n < |ops| ensures ops[n].tuple != ops[i].tuple {
      if ops[n].tuple == ops[i].tuple {
        TouchedOnce(tuples, first, second, ops, n, if ops[n].second then k else i);
      }
    }
    LastDecides(tuples, ops, i);
    SecondDecides(tuples, first, second, ops, k);
    SecondDecides(tuples, first, second, ops, i);
  }

  /**
   * A row write and its sync are two steps, and the engine applies a sync tuple by tuple.
   * However the syncs of two writes interleave, the engine ends up in sync exactly when
   * every tuple both touch is touched by the earlier write's sync first: taking a member
   * off a case and putting them back on it must not cross.
   */
  lemma InterleavedSyncsIff(s: State, first: Op, second: Op, ops: seq<TupleOp>)
    requires RowsOk(s.rows) && InSync(s) && KeepsUser(s.rows, first) && Plan(s.rows, first).Ok?
    requires var middle := Step(s, first, {});
             && KeepsUser(middle.rows, second) && Plan(middle.rows, second).Ok?
             && Interleaves(ops, DeltaOf(s.rows, Plan(s.rows, first).value),
                            DeltaOf(middle.rows, Plan(middle.rows, second).value))
    ensures Applied(s.tuples, ops) == Projected(Step(Step(s, first, {}), second, {}).rows) <==> InOrderOnEach(ops)
  {
    var d1 := DeltaOf(s.rows, Plan(s.rows, first).value);
    var middle := Step(s, first, {});
    var d2 := DeltaOf(middle.rows, Plan(middle.rows, second).value);
    PairIsPlanned(s, first, second);
    AppliedIff(s.tuples, d1, d2, ops);
  }

  lemma AppliedIff(tuples: set<TupleKey>, first: TupleDelta, second: TupleDelta, ops: seq<TupleOp>)
    requires Planned(tuples, first, second) && Interleaves(ops, first, second)
    ensures Applied(tuples, ops) == Both(tuples, first, second) <==> InOrderOnEach(ops)
  {
    if InOrderOnEach(ops) {
      forall t ensures t in Applied(tuples, ops) <==> t in Both(tuples, first, second) {
        TupleSettles(tuples, first, second, ops, t);
      }
    } else {
      var i, k :| 0 <= i < |ops| && 0 <= k < |ops| && ops[i].tuple == ops[k].tuple
                  && !ops[i].second && ops[k].second && !(i < k);
      OvertakenTupleIsWrong(tuples, first, second, ops, i, k);
    }
  }

  lemma PairIsPlanned(s: State, first: Op, second: Op)
    requires RowsOk(s.rows) && InSync(s) && KeepsUser(s.rows, first) && Plan(s.rows, first).Ok?
    requires var middle := Step(s, first, {});
             KeepsUser(middle.rows, second) && Plan(middle.rows, second).Ok?
    ensures var middle := Step(s, first, {});
            var d1, d2 := DeltaOf(s.rows, Plan(s.rows, first).value), DeltaOf(middle.rows, Plan(middle.rows, second).value);
            Planned(s.tuples, d1, d2) && Both(s.tuples, d1, d2) == Projected(Step(middle, second, {}).rows)
  {
    var middle := Step(s, first, {});
    var w1, w2 := Plan(s.rows, first).value, Plan(middle.rows, second).value;
    StepKeepsSync(s, first);
    StepKeepsSync(middle, second);
    PlanAdmissible(s.rows, first);
    PlanAdmissible(middle.rows, second);
    DeltaIsExact(s.rows, w1);
    DeltaIsExact(middle.rows, w2);
    CleanSync(s.tuples, DeltaOf(s.rows, w1));
    CleanSync(middle.tuples, DeltaOf(middle.rows, w2));
  }

  /** No member is rebound to another user, and the engine refuses no delete. */
  ghost predicate RefusesNoDelete(s: State, requests: seq<Request>)
    decreases |requests|
  {
    requests == []
    || (&& KeepsUser(s.rows, requests[0].op)
        && (Plan(s.rows, requests[0].op).Ok? ==>
              SetOf(DeltaOf(s.rows, Plan(s.rows, requests[0].op).value).deletes) !! requests[0].refused)
        && RefusesNoDelete(Step(s, requests[0].op, requests[0].refused), requests[1..]))
  }

  lemma StepOnlyWithholds(s: State, op: Op, refused: set<TupleKey>)
    requires RowsOk(s.rows) && s.tuples <= Projected(s.rows) && KeepsUser(s.rows, op)
    requires Plan(s.rows, op).Ok? ==> SetOf(DeltaOf(s.rows, Plan(s.rows, op).value).deletes) !! refused
    ensures Step(s, op, refused).tuples <= Projected(Step(s, op, refused).rows)
  {
    if Plan(s.rows, op).Ok? {
      var w := Plan(s.rows, op).value;
      PlanAdmissible(s.rows, op);
      DeltaSyncs(s.rows, w);
      SyncedWithin(s.tuples, Projected(s.rows), DeltaOf(s.rows, w), refused);
    }
  }

  /** From fewer tuples, with fewer writes and every delete, no more come out. */
  lemma SyncedWithin(tuples: set<TupleKey>, all: set<TupleKey>, d: TupleDelta, refused: set<TupleKey>)
    requires tuples <= all && SetOf(d.deletes) !! refused
    ensures Synced(tuples, d, refused) <= all + SetOf(d.writes) - SetOf(d.deletes)
  {
  }

  /** While no delete is refused the engine never holds more than the projection, however many writes it refuses. */
  lemma {:induction false} RunOnlyWithholds(s: State, requests: seq<Request>)
    requires RowsOk(s.rows) && s.tuples <= Projected(s.rows) && RefusesNoDelete(s, requests)
    ensures Run(s, requests).tuples <= Projected(Run(s, requests).rows)
    decreases |requests|
  {
    if requests != [] {
      var op, refused := requests[0].op, requests[0].refused;
      StepKeepsRows(s, op, refused);
      StepOnlyWithholds(s, op, refused);
      RunOnlyWithholds(Step(s, op, refused), requests[1..]);
    }
  }

  /** A delta writes only what is missing and deletes only what is there. */
  lemma DeltaIsExact(rows: Rows, w: RowWrite)
    requires RowsOk(rows) && Admissible(rows, w) && KeepsUsers(rows, w)
    ensures SetOf(DeltaOf(rows, w).deletes) <= Projected(rows)
    ensures SetOf(DeltaOf(rows, w).writes) !! Projected(rows)
  {
    DeltaIsRowDiff(rows, w);
    ApplyKeepsRows(rows, w);
    var d := DeltaOf(rows, w);
    forall t | t in SetOf(d.deletes) ensures t in Projected(rows) {
      ProjectedIsSupport(rows, t);
    }
    forall t | t in SetOf(d.writes) ensures t !in Projected(rows) {
      ProjectedIsSupport(rows, t);
      if r :| t in Support(rows, r) {
        if r != Written(w) {
          OthersUnchanged(rows, w, r);
          OneSupporter(Apply(rows, w), t, r, Written(w));
        }
      }
    }
  }

  lemma DriftAlgebra(tuples: set<TupleKey>, writes: set<TupleKey>, deletes: set<TupleKey>, refused: set<TupleKey>)
    requires deletes <= tuples && writes !! tuples
    ensures var clean := tuples + writes - deletes;
            var got := tuples + (writes - refused) - (deletes - refused);
            clean - got == writes * refused && got - clean == deletes * refused
  {
  }

  /** Once a firm has an acting managing partner, no request leaves it without one. */
  ghost predicate Administered(rows: Rows) {
    exists id :: id in rows.members && ActingManagingPartner(rows.members[id])
  }

  lemma StepStaysAdministered(rows: Rows, op: Op)
    requires Keyed(rows) && Administered(rows) && Plan(rows, op).Ok?
    ensures Administered(Apply(rows, Plan(rows, op).value))
  {
    var after := Apply(rows, Plan(rows, op).value);
    var id :| id in rows.members && ActingManagingPartner(rows.members[id]);
    if op.UpdateMember? && op.id == id && !ActingManagingPartner(after.members[id]) {
      var other :| other in rows.members && other != id && ActingManagingPartner(rows.members[other]);
      assert other in after.members && ActingManagingPartner(after.members[other]);
    } else {
      assert id in after.members && ActingManagingPartner(after.members[id]);
    }
  }

  lemma {:induction false} RunStaysAdministered(s: State, requests: seq<Request>)
    requires RowsOk(s.rows) && Administered(s.rows)
    ensures Administered(Run(s, requests).rows)
    decreases |requests|
  {
    if requests != [] {
      var op := requests[0].op;
      StepKeepsRows(s, op, requests[0].refused);
      if Plan(s.rows, op).Ok? {
        StepStaysAdministered(s.rows, op);
      }
      RunStaysAdministered(Step(s, op, requests[0].refused), requests[1..]);
    }
  }

  /* ---------------- the guard reads, the save comes later -------------------- */

  /** Requests in flight: each was planned on the rows as they were when it began. */
  datatype Office = Office(rows: Rows, pending: map<nat, RowWrite>)

  datatype Turn = Begin(id: nat, op: Op) | Commit(id: nat)

  function Turned(o: Office, t: Turn): Office {
    match t
    case Begin(id, op) =>
      if id in o.pending || Plan(o.rows, op).Err? then o else o.(pending := o.pending[id := Plan(o.rows, op).value])
    case Commit(id) => if id in o.pending then Office(Apply(o.rows, o.pending[id]), o.pending - {id}) else o
  }

  function Turns(o: Office, turns: seq<Turn>): Office
    decreases |turns|
  {
    if turns == [] then o else Turns(Turned(o, turns[0]), turns[1..])
  }

  /** The row it saves is no acting managing partner's. */
  predicate Lowers(w: RowWrite) {
    w.PutMember? && !ActingManagingPartner(w.member)
  }

  predicate Demotes(rows: Rows, w: RowWrite) {
    Lowers(w) && w.member.id in rows.members && ActingManagingPartner(rows.members[w.member.id])
  }

  /** An acting managing partner whom no update in flight lowers. */
  predicate Unthreatened(o: Office, memberId: string) {
    && memberId in o.rows.members && ActingManagingPartner(o.rows.members[memberId])
    && forall i | i in o.pending :: Lowers(o.pending[i]) ==> o.pending[i].member.id != memberId
  }

  predicate Steady(o: Office) {
    exists a | a in o.rows.members :: Unthreatened(o, a)
  }

  /** A demotion begins only while some other acting managing partner is not being lowered too. */
  predicate LeavesOne(o: Office, t: Turn) {
    t.Begin? && Plan(o.rows, t.op).Ok? && Demotes(o.rows, Plan(o.rows, t.op).value) ==>
      exists a | a in o.rows.members :: Unthreatened(o, a) && a != Plan(o.rows, t.op).value.member.id
  }

  predicate LeavingOne(o: Office, turns: seq<Turn>)
    decreases |turns|
  {
    turns == [] || (LeavesOne(o, turns[0]) && LeavingOne(Turned(o, turns[0]), turns[1..]))
  }

  /** With no lowering in flight the guard's own check is enough. */
  lemma AloneLeavesOne(o: Office, t: Turn)
    requires Keyed(o.rows) && forall i | i in o.pending :: !Lowers(o.pending[i])
    ensures LeavesOne(o, t)
  {
    if t.Begin? && Plan(o.rows, t.op).Ok? && Demotes(o.rows, Plan(o.rows, t.op).value) {
      var id := Plan(o.rows, t.op).value.member.id;
      var a :| a in o.rows.members && a != id && ActingManagingPartner(o.rows.members[a]);
      assert Unthreatened(o, a);
    }
  }

  lemma TurnStaysSteady(o: Office, t: Turn)
    requires Steady(o) && LeavesOne(o, t)
    ensures Steady(Turned(o, t))
  {
    var next := Turned(o, t);
    if t.Begin? && next != o {
      var w := next.pending[t.id];
      var a :| a in o.rows.members && Unthreatened(o, a) && (Lowers(w) ==> a != w.member.id);
      assert Unthreatened(next, a);
    } else {
      var a :| a in o.rows.members && Unthreatened(o, a);
      assert Unthreatened(next, a);
    }
  }

  /** However requests interleave, if every demotion leaves one then an acting managing partner always remains. */
  lemma {:induction false} TurnsStayAdministered(o: Office, turns: seq<Turn>)
    requires Steady(o) && LeavingOne(o, turns)
    ensures Steady(Turns(o, turns)) && Administered(Turns(o, turns).rows)
    decreases |turns|
  {
    if turns == [] {
      var a :| a in o.rows.members && Unthreatened(o, a);
    } else {
      TurnStaysSteady(o, turns[0]);
      TurnsStayAdministered(Turned(o, turns[0]), turns[1..]);
    }
  }

  /** The updates in flight that lower a member. */
  function Lowering(o: Office): set<nat> {
    set i | i in o.pending && Lowers(o.pending[i])
  }

  /** Saving everything in flight that lowers a member leaves no acting managing partner where all were threatened. */
  lemma {:induction false} AllSaved(o: Office) returns (turns: seq<Turn>)
    requires !Steady(o)
    ensures LeavingOne(o, turns) && !Administered(Turns(o, turns).rows)
    decreases |Lowering(o)|
  {
    if Lowering(o) == {} {
      turns := [];
      assert forall i | i in o.pending :: Lowers(o.pending[i]) ==> i in Lowering(o);
      assert forall a | a in o.rows.members && ActingManagingPartner(o.rows.members[a]) :: Unthreatened(o, a);
    } else {
      var i :| i in Lowering(o);
      var next := Turned(o, Commit(i));
      assert Lowering(next) == Lowering(o) - {i};
      forall a | a in next.rows.members ensures !Unthreatened(next, a) {
        if ActingManagingPartner(next.rows.members[a]) {
          assert a != o.pending[i].member.id && !Unthreatened(o, a);
          var k :| k in o.pending && Lowers(o.pending[k]) && o.pending[k].member.id == a;
          assert next.pending[k] == o.pending[k];
        }
      }
      var rest := AllSaved(next);
      turns := [Commit(i)] + rest;
      assert turns[1..] == rest;
    }
  }

  /** And only then: an acting managing partner always remains exactly when one is not threatened now. */
  lemma SteadyIff(o: Office)
    ensures Steady(o) <==> forall turns | LeavingOne(o, turns) :: Administered(Turns(o, turns).rows)
  {
    if Steady(o) {
      forall turns | LeavingOne(o, turns) ensures Administered(Turns(o, turns).rows) {
        TurnsStayAdministered(o, turns);
      }
    } else {
      var turns := AllSaved(o);
    }
  }

  lemma BothLowered(rows: Rows, one: FirmMember, two: FirmMember)
    requires one.id != two.id && !ActingManagingPartner(one) && !ActingManagingPartner(two)
    ensures Administered(Apply(Apply(rows, PutMember(one)), PutMember(two))) <==>
            exists a :: a in rows.members && a != one.id && a != two.id && ActingManagingPartner(rows.members[a])
  {
    var end := Apply(Apply(rows, PutMember(one)), PutMember(two));
    if a :| a in rows.members && a != one.id && a != two.id && ActingManagingPartner(rows.members[a]) {
      assert a in end.members && ActingManagingPartner(end.members[a]);
    }
  }

  /**
   * Two demotions that both pass the guard before either is saved leave the firm
   * administered exactly when there was a third acting managing partner; so of two
   * partners who demote each other, neither remains.
   */
  lemma CrossedDemotionsIff(rows: Rows, first: Op, second: Op)
    requires Keyed(rows) && Plan(rows, first).Ok? && Plan(rows, second).Ok?
    requires Demotes(rows, Plan(rows, first).value) && Demotes(rows, Plan(rows, second).value) && first.id != second.id
    ensures var o := Turned(Turned(Office(rows, map[]), Begin(1, first)), Begin(2, second));
            Administered(Turned(Turned(o, Commit(1)), Commit(2)).rows) <==>
            exists a :: a in rows.members && a != first.id && a != second.id && ActingManagingPartner(rows.members[a])
  {
    var o := Turned(Turned(Office(rows, map[]), Begin(1, first)), Begin(2, second));
    var one, two := Plan(rows, first).value, Plan(rows, second).value;
    assert one.member.id == first.id && two.member.id == second.id;
    assert o.pending == map[1 := one, 2 := two];
    assert Turned(Turned(o, Commit(1)), Commit(2)).rows == Apply(Apply(rows, one), two);
    BothLowered(rows, one.member, two.member);
  }

  /** Kept both inside and outside the refused tuples, a set is unchanged. */
  lemma NothingToDo(have: set<TupleKey>, after: set<TupleKey>, refused: set<TupleKey>)
    ensures after - refused == have - refused && after * refused == have * refused ==> after == have
  {
    if after - refused == have - refused && after * refused == have * refused {
      assert after == (after - refused) + (after * refused);
      assert have == (have - refused) + (have * refused);
    }
  }

  /* --------------------------------- service -------------------------------- */

  /** The running server: its three tables and the engine it keeps in step with them. */
  class FirmService {
    var members: map<string, FirmMember>
    var cases: map<string, Case>
    var memberships: map<string, CaseMember>
    const engine: Engine

    ghost predicate Valid()
      reads this, engine
    {
      engine.Valid() && RowsOk(CurrentRows())
    }

    function CurrentRows(): Rows
      reads this
    {
      Rows(members, cases, memberships)
    }

    ghost function View(): State
      reads this, engine
    {
      State(CurrentRows(), engine.Contents())
    }

    constructor (engine: Engine)
      requires engine.Valid()
      ensures Valid() && this.engine == engine
      ensures View() == State(Rows(map[], map[], map[]), engine.Contents())
    {
      this.engine := engine;
      members, cases, memberships := map[], map[], map[];
    }

    /**
     * Applies a delta without letting an engine failure surface; an empty delta
     * never reaches the engine.
     */
    method ApplyTupleDeltaSafely(delta: TupleDelta, refused: set<TupleKey>)
      requires engine.Valid()
      modifies engine`stored
      ensures engine.Valid()
      ensures engine.Contents() == Synced(old(engine.Contents()), delta, refused)
    {
      if |delta.writes| == 0 && |delta.deletes| == 0 {
        return;
      }
      var applied := engine.Write(delta.writes, delta.deletes, refused);
    }

    method SyncDelta(before: Rows, w: RowWrite) returns (delta: TupleDelta)
      ensures delta == DeltaOf(before, w)
    {
      match w
      case PutMember(m) => delta := FirmMemberTupleDelta(Prior(before.members, m.id), m);
      case PutCase(c) => delta := CaseTupleDelta(Apply(before, w), Prior(before.cases, c.id), c);
      case PutMembership(m) => delta := CaseMemberTupleDelta(Apply(before, w), Prior(before.memberships, m.id), m);
    }

    /** One request through its pipeline: checks, row write, same-request sync. */
    method Handle(op: Op, refused: set<TupleKey>) returns (r: Result<RowWrite, Code>)
      requires Valid()
      modifies this, engine`stored
      ensures Valid()
      ensures r == Plan(old(CurrentRows()), op)
      ensures View() == Step(old(View()), op, refused)
    {
      var before := CurrentRows();
      r := Plan(before, op);
      StepKeepsRows(View(), op, refused);
      if r.Ok? {
        match r.value {
          case PutMember(m) => members := members[m.id := m];
          case PutCase(c) => cases := cases[c.id := c];
          case PutMembership(m) => memberships := memberships[m.id := m];
        }
        var delta := SyncDelta(before, r.value);
        ApplyTupleDeltaSafely(delta, refused);
      }
    }

    /**
     * The boot and periodic reconcile over the complete listings: from whatever
     * the engine holds, one pass with no refusals restores the projection, and
     * a pass that finds nothing to do reports nothing.
     */
    method ReconcileAuthzOnce(memberList: seq<FirmMember>, caseList: seq<Case>, membershipList: seq<CaseMember>,
                              refused: set<TupleKey>)
      returns (ok: bool, result: ReconcileResult)
      requires Valid()
      requires ListsMembers(memberList, CurrentRows()) && ListsCases(caseList, CurrentRows())
      requires ListsMemberships(membershipList, CurrentRows())
      requires exists byObject :: BarFree(CurrentRows(), byObject) && AllSeparable(engine.Contents(), byObject)
      modifies engine`stored
      ensures Valid()
      ensures refused == {} ==> InSync(View())
      ensures engine.Contents() - refused == Projected(CurrentRows()) - refused
      ensures result.written == |Projected(CurrentRows()) - old(engine.Contents())|
      ensures result.deleted == |old(engine.Contents()) - Projected(CurrentRows())|
      ensures old(InSync(View())) ==> InSync(View()) && ok && result == ReconcileResult(0, 0)
    {
      var desired := ProjectAuthorizationTuples(memberList, caseList, membershipList, CurrentRows());
      ghost var byObject :| BarFree(CurrentRows(), byObject) && AllSeparable(engine.Contents(), byObject);
      ProjectedSeparable(CurrentRows(), byObject);
      SeparableNoClash(engine.Contents() + SetOf(desired), byObject);
      ghost var have := engine.Contents();
      ok, result := ReconcileTuples(engine, desired, refused);
      NothingToDo(have, engine.Contents(), refused);
    }
  }
}
