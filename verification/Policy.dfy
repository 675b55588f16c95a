/**
 * The firm policy (apps/law/backend/src/domain/authz/policy.ts): the liveness
 * gate, the case-content rules, the operation matrix and the query scopes, and
 * what they mean in terms of the rows when the engine is in sync with them.
 */
module Policy {
  import opened Wrappers
  import opened Tuples
  import opened Engine
  import opened FirmRows
  import opened Projection
  import opened AuthzModel
  import FirmIndex

  /* ------------------------------ row vocabulary ----------------------------- */

  predicate PartnerLevel(role: FirmRole) {
    role == ManagingPartner || role == Partner
  }

  predicate LawyerLevel(role: FirmRole) {
    PartnerLevel(role) || role == Associate || role == Junior
  }

  predicate CaseWorkerLevel(role: FirmRole) {
    LawyerLevel(role) || role == Clerk
  }

  /** An active CaseMember row puts this member on this case. */
  ghost predicate WorksOn(rows: Rows, memberId: string, caseId: string) {
    exists id :: id in rows.memberships && InForce(rows.memberships[id])
                 && rows.memberships[id].caseId == caseId && rows.memberships[id].memberId == memberId
  }

  /** Who may touch a case's content, read off the rows alone. */
  ghost predicate MayWork(rows: Rows, m: FirmMember, caseId: string) {
    IsActive(m) && caseId in rows.cases
    && (PartnerLevel(m.role) || (CaseWorkerLevel(m.role) && WorksOn(rows, m.id, caseId)))
  }

  /** Who may enter a case's deadlines: the same rule without clerks. */
  ghost predicate MayEnterDeadline(rows: Rows, m: FirmMember, caseId: string) {
    MayWork(rows, m, caseId) && LawyerLevel(m.role)
  }

  ghost predicate MayManage(rows: Rows, m: FirmMember, caseId: string) {
    caseId in rows.cases
    && (rows.cases[caseId].leadLawyerId == m.id || (IsActive(m) && PartnerLevel(m.role)))
  }

  ghost predicate StoredMember(rows: Rows, m: FirmMember) {
    m.id in rows.members && rows.members[m.id] == m
  }

  /* ---------------------- direct tuples, read off the rows -------------------- */

  function RelationOf(role: FirmRole): Relation
    requires role != Unspecified
  {
    match role
    case ManagingPartner => ManagingPartnerRole
    case Partner => PartnerRole
    case Associate => AssociateRole
    case Junior => JuniorRole
    case Clerk => ClerkRole
    case OfficeStaff => OfficeStaffRole
  }

  lemma RoleNames(a: FirmRole, b: FirmRole)
    requires a != Unspecified && b != Unspecified
    ensures RoleRelation(a) == Some(DirectName(RelationOf(a)))
    ensures RoleRelation(a) == RoleRelation(b) <==> a == b
  {
  }

  /** What the row lemmas below need of the tables. */
  ghost predicate Joinable(rows: Rows) {
    Keyed(rows) && UniqueUsers(rows) && forall id :: id in rows.members ==> rows.members[id].userId != ""
  }

  lemma RoleTupleIff(rows: Rows, m: FirmMember, role: FirmRole)
    requires Joinable(rows) && StoredMember(rows, m) && role != Unspecified
    ensures HasRole(Projected(rows), UserRef(m.userId), RelationOf(role), FIRM_OBJECT) <==> IsActive(m) && m.role == role
  {
    var t := TupleKey(UserRef(m.userId), DirectName(RelationOf(role)), FIRM_OBJECT);
    RoleNames(role, role);
    ProjectedIsSupport(rows, t);
    if IsActive(m) && m.role == role {
      assert t in Support(rows, MemberRow(m.id));
    }
    if t in Projected(rows) {
      var r :| t in Support(rows, r);
      ShapeOfSupport(rows, t, r);
      ReferencesDiffer(m.userId, rows.members[r.id].userId);
      assert r.id == m.id;
      RoleNames(role, m.role);
    }
  }

  lemma FirmLinkIff(rows: Rows, t: TupleKey, caseId: string)
    requires Keyed(rows)
    requires t.relation == "firm" && t.target == CaseRef(caseId)
    ensures t in Projected(rows) <==> t == FirmTuple(caseId) && caseId in rows.cases
  {
    ProjectedIsSupport(rows, t);
    ReferencesDiffer(caseId, "");
    if caseId in rows.cases && t == FirmTuple(caseId) {
      assert t in Support(rows, CaseRow(caseId));
    }
    if t in Projected(rows) {
      var r :| t in Support(rows, r);
      ShapeOfSupport(rows, t, r);
      ReferencesDiffer(caseId, r.id);
    }
  }

  lemma MemberTupleIff(rows: Rows, m: FirmMember, caseId: string)
    requires Joinable(rows) && StoredMember(rows, m) && caseId != ""
    ensures MemberTuple(m.userId, caseId) in Projected(rows) <==> WorksOn(rows, m.id, caseId)
  {
    var t := MemberTuple(m.userId, caseId);
    ProjectedIsSupport(rows, t);
    if WorksOn(rows, m.id, caseId) {
      var id :| id in rows.memberships && InForce(rows.memberships[id])
                && rows.memberships[id].caseId == caseId && rows.memberships[id].memberId == m.id;
      assert t in Support(rows, MembershipRow(id));
    }
    if t in Projected(rows) {
      var r :| t in Support(rows, r);
      ShapeOfSupport(rows, t, r);
      ReferencesDiffer(caseId, "");
      var row := rows.memberships[r.id];
      ReferencesDiffer(caseId, row.caseId);
      ReferencesDiffer(m.userId, UserOf(rows, row.memberId));
    }
  }

  lemma LeadTupleIff(rows: Rows, m: FirmMember, caseId: string)
    requires Joinable(rows) && StoredMember(rows, m)
    ensures LeadTuple(m.userId, caseId) in Projected(rows) <==>
            caseId in rows.cases && rows.cases[caseId].leadLawyerId == m.id
  {
    var t := LeadTuple(m.userId, caseId);
    ProjectedIsSupport(rows, t);
    ReferencesDiffer(caseId, "");
    if caseId in rows.cases && rows.cases[caseId].leadLawyerId == m.id {
      assert t in Support(rows, CaseRow(caseId));
    }
    if t in Projected(rows) {
      var r :| t in Support(rows, r);
      LeadTupleSupport(rows, m, caseId, r);
    }
  }

  lemma LeadTupleSupport(rows: Rows, m: FirmMember, caseId: string, r: RowRef)
    requires Joinable(rows) && StoredMember(rows, m) && LeadTuple(m.userId, caseId) in Support(rows, r)
    ensures caseId in rows.cases && rows.cases[caseId].leadLawyerId == m.id
  {
    ShapeOfSupport(rows, LeadTuple(m.userId, caseId), r);
    ReferencesDiffer(caseId, r.id);
    ReferencesDiffer(m.userId, UserOf(rows, rows.cases[r.id].leadLawyerId));
  }

  /* ------------------------- engine answers in sync -------------------------- */

  /** The engine as one member's policy asks it: relations on the firm, relations on a case. */
  datatype Answers = Answers(onFirm: Relation -> bool, onCase: (Relation, string) -> bool)

  function AnswersFor(tuples: set<TupleKey>, m: FirmMember): Answers {
    Answers(r => Check(tuples, UserRef(m.userId), r, FIRM_OBJECT),
            (r, caseId) => Check(tuples, UserRef(m.userId), r, CaseRef(caseId)))
  }

  /** The engine's answers are what the member's rows say. */
  ghost predicate AgreesOnFirm(e: Answers, m: FirmMember) {
    && (e.onFirm(Partners) <==> IsActive(m) && PartnerLevel(m.role))
    && (e.onFirm(Lawyers) <==> IsActive(m) && LawyerLevel(m.role))
    && (e.onFirm(CaseWorkers) <==> IsActive(m) && CaseWorkerLevel(m.role))
    && (e.onFirm(OfficeStaffRole) <==> IsActive(m) && m.role == OfficeStaff)
    && (e.onFirm(CanManageFirmMembers) <==> IsActive(m) && m.role == ManagingPartner)
    && (e.onFirm(CanCreateCase) <==> IsActive(m) && (PartnerLevel(m.role) || m.role == Associate))
    && (e.onFirm(CanManageClients) <==> IsActive(m) && (PartnerLevel(m.role) || m.role == Associate))
    && (e.onFirm(CanViewClients) <==> IsActive(m) && LawyerLevel(m.role))
    && (e.onFirm(CanListCases) <==> IsActive(m) && CaseWorkerLevel(m.role))
    && (e.onFirm(CanViewMoney) <==> IsActive(m) && PartnerLevel(m.role))
    && (e.onFirm(CanViewAudit) <==> IsActive(m) && PartnerLevel(m.role))
  }

  ghost predicate AgreesOnCase(e: Answers, rows: Rows, m: FirmMember, caseId: string) {
    && (e.onCase(CanWorkContent, caseId) <==> MayWork(rows, m, caseId))
    && (e.onCase(CanEnterDeadline, caseId) <==> MayEnterDeadline(rows, m, caseId))
    && (e.onCase(CanEdit, caseId) <==> MayManage(rows, m, caseId))
    && (e.onCase(CanManageMembers, caseId) <==> MayManage(rows, m, caseId))
  }

  ghost predicate Agrees(e: Answers, rows: Rows, m: FirmMember) {
    AgreesOnFirm(e, m) && forall c :: AgreesOnCase(e, rows, m, c)
  }

  lemma RoleGroupsAnswered(rows: Rows, m: FirmMember)
    requires Joinable(rows) && StoredMember(rows, m)
    ensures var tuples, user := Projected(rows), UserRef(m.userId);
            && (Check(tuples, user, Partners, FIRM_OBJECT) <==> IsActive(m) && PartnerLevel(m.role))
            && (Check(tuples, user, Lawyers, FIRM_OBJECT) <==> IsActive(m) && LawyerLevel(m.role))
            && (Check(tuples, user, CaseWorkers, FIRM_OBJECT) <==> IsActive(m) && CaseWorkerLevel(m.role))
  {
    var tuples, user := Projected(rows), UserRef(m.userId);
    RoleTupleIff(rows, m, ManagingPartner);
    RoleTupleIff(rows, m, Partner);
    RoleTupleIff(rows, m, Associate);
    RoleTupleIff(rows, m, Junior);
    RoleTupleIff(rows, m, Clerk);
    PartnersAre(tuples, user, FIRM_OBJECT);
    LawyersAre(tuples, user, FIRM_OBJECT);
    CaseWorkersAre(tuples, user, FIRM_OBJECT);
  }

  /** The firm's own link to a case. */
  lemma FirmLinkAnswered(rows: Rows, caseId: string)
    requires Keyed(rows)
    ensures Check(Projected(rows), FIRM_OBJECT, CaseFirm, CaseRef(caseId)) <==> caseId in rows.cases
  {
    FirmLinkIff(rows, FirmTuple(caseId), caseId);
    CheckDirect(Projected(rows), FIRM_OBJECT, CaseFirm, CaseRef(caseId));
  }

  /** The two groups no verb of the policy uses: every member with a role, and whoever records in the ledger. */
  lemma OtherGroupsAnswered(rows: Rows, m: FirmMember)
    requires Joinable(rows) && StoredMember(rows, m)
    ensures Check(Projected(rows), UserRef(m.userId), AnyMember, FIRM_OBJECT) <==> IsActive(m) && m.role != Unspecified
    ensures Check(Projected(rows), UserRef(m.userId), CanRecordLedger, FIRM_OBJECT) <==>
            IsActive(m) && (PartnerLevel(m.role) || m.role == OfficeStaff)
  {
    RoleGroupsAnswered(rows, m);
    SingleRoleAnswered(rows, m, OfficeStaff);
    OtherGroupsAre(Projected(rows), UserRef(m.userId));
  }

  lemma OtherGroupsAre(tuples: set<TupleKey>, user: string)
    ensures Check(tuples, user, AnyMember, FIRM_OBJECT) <==>
            Check(tuples, user, CaseWorkers, FIRM_OBJECT) || Check(tuples, user, OfficeStaffRole, FIRM_OBJECT)
    ensures Check(tuples, user, CanRecordLedger, FIRM_OBJECT) <==>
            Check(tuples, user, Partners, FIRM_OBJECT) || Check(tuples, user, OfficeStaffRole, FIRM_OBJECT)
  {
    CheckEither(tuples, user, AnyMember, CaseWorkers, OfficeStaffRole, FIRM_OBJECT);
    CheckEither(tuples, user, CanRecordLedger, Partners, OfficeStaffRole, FIRM_OBJECT);
  }

  lemma SingleRoleAnswered(rows: Rows, m: FirmMember, role: FirmRole)
    requires Joinable(rows) && StoredMember(rows, m) && role != Unspecified
    ensures Check(Projected(rows), UserRef(m.userId), RelationOf(role), FIRM_OBJECT) <==> IsActive(m) && m.role == role
  {
    RoleTupleIff(rows, m, role);
    CheckDirect(Projected(rows), UserRef(m.userId), RelationOf(role), FIRM_OBJECT);
  }

  lemma InSyncAgreesOnFirm(rows: Rows, m: FirmMember)
    requires Joinable(rows) && StoredMember(rows, m)
    ensures AgreesOnFirm(AnswersFor(Projected(rows), m), m)
  {
    RoleGroupsAnswered(rows, m);
    SingleRoleAnswered(rows, m, ManagingPartner);
    SingleRoleAnswered(rows, m, Associate);
    SingleRoleAnswered(rows, m, OfficeStaff);
    VerbsFollowGroups(Projected(rows), UserRef(m.userId));
    ListingFollowsGroup(Projected(rows), UserRef(m.userId));
    VerbsFollowPartners(Projected(rows), UserRef(m.userId));
    VerbsFollowAssociates(Projected(rows), UserRef(m.userId));
  }

  lemma VerbsFollowGroups(tuples: set<TupleKey>, user: string)
    ensures Check(tuples, user, CanManageFirmMembers, FIRM_OBJECT) <==> Check(tuples, user, ManagingPartnerRole, FIRM_OBJECT)
    ensures Check(tuples, user, CanViewClients, FIRM_OBJECT) <==> Check(tuples, user, Lawyers, FIRM_OBJECT)
  {
  }

  lemma ListingFollowsGroup(tuples: set<TupleKey>, user: string)
    ensures Check(tuples, user, CanListCases, FIRM_OBJECT) <==> Check(tuples, user, CaseWorkers, FIRM_OBJECT)
  {
  }

  lemma VerbsFollowPartners(tuples: set<TupleKey>, user: string)
    ensures Check(tuples, user, CanViewMoney, FIRM_OBJECT) <==> Check(tuples, user, Partners, FIRM_OBJECT)
    ensures Check(tuples, user, CanViewAudit, FIRM_OBJECT) <==> Check(tuples, user, Partners, FIRM_OBJECT)
  {
  }

  lemma VerbsFollowAssociates(tuples: set<TupleKey>, user: string)
    ensures Check(tuples, user, CanCreateCase, FIRM_OBJECT) <==>
            Check(tuples, user, Partners, FIRM_OBJECT) || Check(tuples, user, AssociateRole, FIRM_OBJECT)
    ensures Check(tuples, user, CanManageClients, FIRM_OBJECT) <==>
            Check(tuples, user, Partners, FIRM_OBJECT) || Check(tuples, user, AssociateRole, FIRM_OBJECT)
  {
    CheckEither(tuples, user, CanCreateCase, Partners, AssociateRole, FIRM_OBJECT);
    CheckEither(tuples, user, CanManageClients, Partners, AssociateRole, FIRM_OBJECT);
  }

  lemma CaseLinkedToFirm(rows: Rows, caseId: string)
    requires Keyed(rows)
    ensures LinkedOnlyTo(Projected(rows), CaseRef(caseId), FIRM_OBJECT)
    ensures TupleKey(FIRM_OBJECT, "firm", CaseRef(caseId)) in Projected(rows) <==> caseId in rows.cases
  {
    FirmLinkIff(rows, FirmTuple(caseId), caseId);
    forall t | t in Projected(rows) && t.relation == "firm" && t.target == CaseRef(caseId) ensures t.user == FIRM_OBJECT {
      FirmLinkIff(rows, t, caseId);
    }
  }

  /** The case verbs answer the row rules. */
  lemma InSyncAgreesOnCase(rows: Rows, m: FirmMember, caseId: string)
    requires Joinable(rows) && StoredMember(rows, m)
    ensures AgreesOnCase(AnswersFor(Projected(rows), m), rows, m, caseId)
  {
    var tuples, user, target := Projected(rows), UserRef(m.userId), CaseRef(caseId);
    CaseLinkedToFirm(rows, caseId);
    RoleGroupsAnswered(rows, m);
    LeadTupleIff(rows, m, caseId);
    if caseId in rows.cases {
      MemberTupleIff(rows, m, caseId);
    }
    CaseContentVerb(tuples, user, CanWorkContent, target, FIRM_OBJECT);
    CaseContentVerb(tuples, user, CanEnterDeadline, target, FIRM_OBJECT);
    CaseManagementVerb(tuples, user, CanEdit, target, FIRM_OBJECT);
    CaseManagementVerb(tuples, user, CanManageMembers, target, FIRM_OBJECT);
  }

  /** With the tuples in sync, every question the policy asks is answered by the rows. */
  lemma InSyncAgrees(rows: Rows, m: FirmMember)
    requires RowsOk(rows) && StoredMember(rows, m)
    ensures Agrees(AnswersFor(Projected(rows), m), rows, m)
  {
    InSyncAgreesOnFirm(rows, m);
    forall c ensures AgreesOnCase(AnswersFor(Projected(rows), m), rows, m, c) {
      InSyncAgreesOnCase(rows, m, c);
    }
  }

  /* -------------------------------- guards ----------------------------------- */

  /** Partner, or on the case; with no case only the partner arm is left. */
  predicate CanTouchCaseContent(e: Answers, caseId: Option<string>, clerkAllowed: bool) {
    if caseId == None || caseId == Some("") then e.onFirm(Partners)
    else e.onCase(if clerkAllowed then CanWorkContent else CanEnterDeadline, caseId.value)
  }

  /** The scope of a content query: None is unscoped. */
  function VisibleCaseIds(tuples: set<TupleKey>, m: FirmMember): Option<set<string>> {
    if AnswersFor(tuples, m).onFirm(Partners) then None
    else Some(set o | o in ListObjects(tuples, UserRef(m.userId), CanWorkContent, "case") :: IdOf(o))
  }

  /** The scope of the case list lines: lawyers see them all. */
  function CaseListScope(tuples: set<TupleKey>, m: FirmMember): Option<set<string>> {
    if AnswersFor(tuples, m).onFirm(Lawyers) then None else VisibleCaseIds(tuples, m)
  }

  lemma PrefixedIsCaseRef(o: string)
    requires TypePrefix("case") <= o
    ensures o == CaseRef(IdOf(o))
  {
    var rest := o[5..];
    assert o == TypePrefix("case") + rest;
    assert o == CaseRef(rest);
    ReferencesDiffer(rest, rest);
  }

  /** The listed objects, as ids, are exactly the cases the member may work. */
  lemma ListedCasesAreWorkable(rows: Rows, m: FirmMember, c: string)
    requires Joinable(rows) && StoredMember(rows, m)
    ensures c in (set o | o in ListObjects(Projected(rows), UserRef(m.userId), CanWorkContent, "case") :: IdOf(o))
            <==> MayWork(rows, m, c)
  {
    var objects := ListObjects(Projected(rows), UserRef(m.userId), CanWorkContent, "case");
    InSyncAgreesOnCase(rows, m, c);
    ReferencesDiffer(c, c);
    if MayWork(rows, m, c) {
      CaseLinkedToFirm(rows, c);
      assert FirmTuple(c) in Projected(rows) && FirmTuple(c).target == CaseRef(c);
      assert TypePrefix("case") <= CaseRef(c);
      assert CaseRef(c) in objects && IdOf(CaseRef(c)) == c;
    }
    if o :| o in objects && IdOf(o) == c {
      PrefixedIsCaseRef(o);
    }
  }

  /** A non-partner's scope is exactly the cases whose content they may work. */
  lemma VisibleCasesAreWorkable(rows: Rows, m: FirmMember)
    requires RowsOk(rows) && StoredMember(rows, m)
    ensures VisibleCaseIds(Projected(rows), m).None? <==> IsActive(m) && PartnerLevel(m.role)
    ensures VisibleCaseIds(Projected(rows), m).Some? ==>
              forall c :: c in VisibleCaseIds(Projected(rows), m).value <==> MayWork(rows, m, c)
    ensures CaseListScope(Projected(rows), m).None? <==> IsActive(m) && LawyerLevel(m.role)
    ensures CaseListScope(Projected(rows), m).Some? ==>
              forall c :: c in CaseListScope(Projected(rows), m).value <==> MayWork(rows, m, c)
  {
    assert Joinable(rows);
    InSyncAgreesOnFirm(rows, m);
    forall c ensures c in (set o | o in ListObjects(Projected(rows), UserRef(m.userId), CanWorkContent, "case") :: IdOf(o))
                     <==> MayWork(rows, m, c)
    {
      ListedCasesAreWorkable(rows, m, c);
    }
  }

  /* ---------------------------- the operation matrix -------------------------- */

  datatype Kind =
    | UserKind | FirmMemberKind | ClientKind | CitationKind | CaseKind | CaseMemberKind
    | HearingKind | CaseNoteKind | DocumentKind | DocumentAnnotationKind | CitationUseKind | TaskKind
    | TaskCommentKind | DocumentPageKind | DeadlineKind | FeeArrangementKind | LedgerEntryKind
    | NotificationKind | AuditEntryKind | UnknownKind

  datatype Operation =
    | Create | Update | Get | List | UpdateStatus | Remove | Search | MarkRead
    | SetPassword | IssueActivationCode | RecordExtraction | OtherOperation

  /** The fields the matrix reads off a loaded resource or a proposed input. */
  datatype Subject = Subject(
    id: string, caseId: string, taskId: string, documentId: string,
    ownerId: string, recipientId: string, isReceipt: bool)

  /** Parents whose case a proposal is judged by: a comment's task, a mark's document. */
  datatype Parents = Parents(taskCase: map<string, string>, documentCase: map<string, string>)

  datatype Principal = Anonymous | Operator | System | Person(userId: string)

  function Present(s: string): Option<string> {
    if s == "" then None else Some(s)
  }

  function CaseIdOf(parents: Parents, kind: Kind, subject: Option<Subject>, proposed: bool): Option<string> {
    if subject.None? then None
    else
      var s := subject.value;
      match kind
      case TaskCommentKind =>
        // A task with an empty case id answers "", not an absence.
        if s.taskId != "" && s.taskId in parents.taskCase then Some(parents.taskCase[s.taskId]) else None
      case DocumentAnnotationKind =>
        if !proposed then Present(s.caseId)
        else if s.documentId == "" then None
        else if s.documentId in parents.documentCase && parents.documentCase[s.documentId] != ""
        then Some(parents.documentCase[s.documentId])
        else Present(s.caseId)
      case CaseKind => Present(s.id)
      case CaseMemberKind | HearingKind | DeadlineKind | FeeArrangementKind | LedgerEntryKind | TaskKind
      | CaseNoteKind | DocumentKind | DocumentPageKind | CitationUseKind => Present(s.caseId)
      case _ => None
  }

  /** The case an operation acts on: the stored one, or the one a proposal names. */
  function ActedOnCase(parents: Parents, kind: Kind, resource: Option<Subject>, input: Option<Subject>): Option<string> {
    if resource.Some? then CaseIdOf(parents, kind, resource, false) else CaseIdOf(parents, kind, input, true)
  }

  predicate CanTouchProposedCaseToo(e: Answers, parents: Parents, kind: Kind, op: Operation,
                                    caseId: Option<string>, input: Option<Subject>)
  {
    op != Update || input.None? ||
    var proposed := CaseIdOf(parents, kind, input, true);
    proposed == None || proposed == Some("") || proposed == caseId
    || CanTouchCaseContent(e, proposed, true)
  }

  predicate AuthorizeContent(e: Answers, parents: Parents, kind: Kind, op: Operation,
                             caseId: Option<string>, input: Option<Subject>)
  {
    if kind == DocumentKind && op == RecordExtraction then false
    else if op == Create then
      e.onFirm(CaseWorkers) && (caseId.None? || CanTouchCaseContent(e, caseId, true))
    else if op == List then e.onFirm(CaseWorkers)
    else if op == Update && !CanTouchProposedCaseToo(e, parents, kind, op, caseId, input) then false
    else if (kind == DocumentKind || kind == DocumentAnnotationKind) && caseId.None? then e.onFirm(CaseWorkers)
    else CanTouchCaseContent(e, caseId, true)
  }

  predicate AuthorizeCase(e: Answers, op: Operation, caseId: Option<string>) {
    match op
    case Create => e.onFirm(CanCreateCase)
    case Update | UpdateStatus =>
      if caseId.Some? then e.onCase(CanEdit, caseId.value) else e.onFirm(Partners)
    case Get => CanTouchCaseContent(e, caseId, true)
    case List => e.onFirm(CanListCases)
    case _ => false
  }

  predicate AuthorizeCaseMember(e: Answers, op: Operation, caseId: Option<string>) {
    match op
    case Create =>
      if caseId.Some? then e.onCase(CanManageMembers, caseId.value) else e.onFirm(Lawyers)
    case Remove =>
      if caseId.Some? then e.onCase(CanManageMembers, caseId.value) else e.onFirm(Partners)
    case List => e.onFirm(CaseWorkers)
    case _ => CanTouchCaseContent(e, caseId, true)
  }

  predicate AuthorizeDeadline(e: Answers, m: FirmMember, op: Operation, caseId: Option<string>, resource: Option<Subject>) {
    match op
    case Create =>
      e.onFirm(Lawyers) && (caseId.None? || CanTouchCaseContent(e, caseId, false))
    case Update | UpdateStatus =>
      e.onFirm(Partners) || (resource.Some? && resource.value.ownerId == m.id)
    case Get => CanTouchCaseContent(e, caseId, true)
    case List => e.onFirm(CaseWorkers)
    case _ => false
  }

  /** The user-role matrix for an active member; anything not listed is denied. */
  predicate AuthorizeUser(e: Answers, parents: Parents, m: FirmMember, kind: Kind, op: Operation,
                          resource: Option<Subject>, input: Option<Subject>)
  {
    var caseId := ActedOnCase(parents, kind, resource, input);
    match kind
    case UserKind =>
      (match op
       case Get => (resource.Some? && resource.value.id == m.userId) || e.onFirm(CanManageFirmMembers)
       case Create | Update | IssueActivationCode => e.onFirm(CanManageFirmMembers)
       case _ => false)
    case FirmMemberKind => if op == Create || op == Update then e.onFirm(CanManageFirmMembers) else true
    case ClientKind =>
      if op == Create || op == Update then e.onFirm(CanManageClients) else e.onFirm(CanViewClients)
    case CitationKind => e.onFirm(CaseWorkers)
    case CaseKind => AuthorizeCase(e, op, caseId)
    case CaseMemberKind => AuthorizeCaseMember(e, op, caseId)
    case HearingKind | CaseNoteKind | DocumentKind | DocumentAnnotationKind | CitationUseKind | TaskKind =>
      AuthorizeContent(e, parents, kind, op, caseId, input)
    case TaskCommentKind =>
      if op == List then e.onFirm(CaseWorkers)
      else if op == Create then
        e.onFirm(CaseWorkers) && (caseId.None? || CanTouchCaseContent(e, caseId, true))
      else CanTouchCaseContent(e, caseId, true)
    case DocumentPageKind =>
      if op == List || op == Search then e.onFirm(CaseWorkers)
      else if op == Get then
        if caseId.None? then e.onFirm(CaseWorkers) else CanTouchCaseContent(e, caseId, true)
      else false
    case DeadlineKind => AuthorizeDeadline(e, m, op, caseId, resource)
    case FeeArrangementKind => e.onFirm(CanViewMoney)
    case LedgerEntryKind =>
      if op == Create then
        e.onFirm(Partners)
        || (e.onFirm(OfficeStaffRole) && input.Some? && input.value.isReceipt)
      else e.onFirm(CanViewMoney)
    case NotificationKind =>
      if op == Create then false
      else if op == MarkRead then resource.Some? && resource.value.recipientId == m.userId
      else true
    case AuditEntryKind => op == List && e.onFirm(CanViewAudit)
    case UnknownKind => false
  }

  /** In-process automation: each seam by name, nothing else. */
  predicate AuthorizeSystem(kind: Kind, op: Operation) {
    || (kind == NotificationKind && op == Create)
    || (kind == AuditEntryKind && op == Create)
    || (kind == CaseKind && op == Update)
    || (kind == CaseMemberKind && op == Create)
    || (kind == DocumentPageKind && op == Create)
    || (kind == DocumentKind && op == RecordExtraction)
  }

  /** The liveness gate: the row of the caller's user, and only while active. */
  ghost predicate LiveMember(rows: Rows, userId: string, m: FirmMember) {
    StoredMember(rows, m) && m.userId == userId && IsActive(m)
  }

  ghost predicate Authorize(rows: Rows, tuples: set<TupleKey>, parents: Parents, caller: Principal, kind: Kind, op: Operation,
                            resource: Option<Subject>, input: Option<Subject>)
  {
    match caller
    case Anonymous => false
    case Operator => kind == UserKind || kind == FirmMemberKind
    case System => AuthorizeSystem(kind, op)
    case Person(userId) =>
      exists m :: LiveMember(rows, userId, m) && AuthorizeUser(AnswersFor(tuples, m), parents, m, kind, op, resource, input)
  }

  /* ------------------------- what the matrix guarantees ----------------------- */

  /**
   * A deactivated member is refused everything, whatever the engine holds: the
   * gate reads the row, not the tuples.
   */
  lemma DeactivationRefusesEverything(rows: Rows, tuples: set<TupleKey>, parents: Parents, m: FirmMember,
                                      kind: Kind, op: Operation, resource: Option<Subject>, input: Option<Subject>)
    requires Joinable(rows) && StoredMember(rows, m) && !IsActive(m)
    ensures !Authorize(rows, tuples, parents, Person(m.userId), kind, op, resource, input)
  {
    forall n | StoredMember(rows, n) && n.userId == m.userId ensures n == m {
      assert rows.members[n.id].userId == rows.members[m.id].userId;
    }
  }

  /** The gate picks the caller's one row: in sync, the matrix is asked about it and answered by the rows. */
  lemma AuthorizeInSync(rows: Rows, parents: Parents, m: FirmMember, kind: Kind, op: Operation,
                        resource: Option<Subject>, input: Option<Subject>)
    requires RowsOk(rows) && StoredMember(rows, m)
    ensures var e := AnswersFor(Projected(rows), m);
            && Agrees(e, rows, m)
            && (Authorize(rows, Projected(rows), parents, Person(m.userId), kind, op, resource, input) <==>
                IsActive(m) && AuthorizeUser(e, parents, m, kind, op, resource, input))
  {
    InSyncAgrees(rows, m);
    OnlyRowOfUser(rows, m);
  }

  lemma OnlyRowOfUser(rows: Rows, m: FirmMember)
    requires Joinable(rows) && StoredMember(rows, m)
    ensures forall n :: LiveMember(rows, m.userId, n) <==> n == m && IsActive(m)
  {
    forall n | LiveMember(rows, m.userId, n) ensures n == m {
      assert rows.members[n.id].userId == rows.members[m.id].userId;
    }
  }

  /* What a member may do, kind by kind, on the subject's own fields: the cells over the engine's
     answers first, each followed by the same statement end to end, gate and tuples included. */

  /** The case of a mark about to be made: its document's, or on a library paper the one it claims. */
  function MarkedCase(parents: Parents, mark: Subject): string {
    if mark.documentId == "" then ""
    else if mark.documentId in parents.documentCase && parents.documentCase[mark.documentId] != ""
    then parents.documentCase[mark.documentId]
    else mark.caseId
  }

  /** Who may read or change a piece of content whose case is `caseId`, "" for none. */
  ghost predicate MayTouch(rows: Rows, m: FirmMember, kind: Kind, caseId: string) {
    if caseId != "" then MayWork(rows, m, caseId)
    else IsActive(m) && (PartnerLevel(m.role) || ((kind == DocumentKind || kind == DocumentAnnotationKind
                                                   || kind == DocumentPageKind) && CaseWorkerLevel(m.role)))
  }

  predicate SixContentKinds(kind: Kind) {
    kind == HearingKind || kind == CaseNoteKind || kind == DocumentKind || kind == DocumentAnnotationKind
    || kind == CitationUseKind || kind == TaskKind
  }

  lemma TouchIs(e: Answers, rows: Rows, m: FirmMember, kind: Kind, caseId: string)
    requires Agrees(e, rows, m)
    ensures MayTouch(rows, m, kind, caseId) <==>
            if caseId == "" && (kind == DocumentKind || kind == DocumentAnnotationKind || kind == DocumentPageKind)
            then e.onFirm(CaseWorkers) else CanTouchCaseContent(e, Present(caseId), true)
  {
    assert AgreesOnCase(e, rows, m, caseId);
  }

  lemma ContentCellAsks(e: Answers, parents: Parents, m: FirmMember, kind: Kind, op: Operation,
                        resource: Subject, input: Option<Subject>)
    requires SixContentKinds(kind) && op != Create && op != List && !(kind == DocumentKind && op == RecordExtraction)
    ensures AuthorizeUser(e, parents, m, kind, op, Some(resource), input) <==>
            && (if resource.caseId == "" && (kind == DocumentKind || kind == DocumentAnnotationKind)
                then e.onFirm(CaseWorkers) else CanTouchCaseContent(e, Present(resource.caseId), true))
            && (op == Update && input.Some? ==>
                  var moved := if kind == DocumentAnnotationKind then MarkedCase(parents, input.value) else input.value.caseId;
                  moved == "" || moved == resource.caseId || CanTouchCaseContent(e, Some(moved), true))
  {
  }

  lemma ContentCells(e: Answers, rows: Rows, parents: Parents, m: FirmMember, kind: Kind, op: Operation,
                     resource: Subject, input: Option<Subject>)
    requires Agrees(e, rows, m)
    requires SixContentKinds(kind) && op != Create && op != List && !(kind == DocumentKind && op == RecordExtraction)
    ensures AuthorizeUser(e, parents, m, kind, op, Some(resource), input) <==>
            && MayTouch(rows, m, kind, resource.caseId)
            && (op == Update && input.Some? ==>
                  var moved := if kind == DocumentAnnotationKind then MarkedCase(parents, input.value) else input.value.caseId;
                  moved == "" || moved == resource.caseId || MayWork(rows, m, moved))
  {
    ContentCellAsks(e, parents, m, kind, op, resource, input);
    TouchIs(e, rows, m, kind, resource.caseId);
    if input.Some? {
      assert AgreesOnCase(e, rows, m, input.value.caseId) && AgreesOnCase(e, rows, m, MarkedCase(parents, input.value));
    }
  }

  /**
   * Content is read and changed by those who may work the case its own row names, or with
   * none, a library paper, by every case worker; and moved to another case by those who
   * may work that too, a mark's being its document's.
   */
  lemma StoredContentIff(rows: Rows, parents: Parents, m: FirmMember, kind: Kind, op: Operation,
                         resource: Subject, input: Option<Subject>)
    requires RowsOk(rows) && StoredMember(rows, m)
    requires kind == HearingKind || kind == CaseNoteKind || kind == DocumentKind || kind == DocumentAnnotationKind
             || kind == CitationUseKind || kind == TaskKind
    requires op != Create && op != List && !(kind == DocumentKind && op == RecordExtraction)
    ensures Authorize(rows, Projected(rows), parents, Person(m.userId), kind, op, Some(resource), input) <==>
            && MayTouch(rows, m, kind, resource.caseId)
            && (op == Update && input.Some? ==>
                  var moved := if kind == DocumentAnnotationKind then MarkedCase(parents, input.value) else input.value.caseId;
                  moved == "" || moved == resource.caseId || MayWork(rows, m, moved))
  {
    AuthorizeInSync(rows, parents, m, kind, op, Some(resource), input);
    ContentCells(AnswersFor(Projected(rows), m), rows, parents, m, kind, op, resource, input);
  }

  lemma ReadingCellAsks(e: Answers, parents: Parents, m: FirmMember, kind: Kind, op: Operation,
                        resource: Subject, input: Option<Subject>)
    requires ((kind == CaseKind || kind == DeadlineKind || kind == DocumentPageKind) && op == Get)
             || (kind == CaseMemberKind && op != Create && op != Remove && op != List)
    ensures var caseId := if kind == CaseKind then resource.id else resource.caseId;
            AuthorizeUser(e, parents, m, kind, op, Some(resource), input) <==>
            if caseId == "" && kind == DocumentPageKind then e.onFirm(CaseWorkers)
            else CanTouchCaseContent(e, Present(caseId), true)
  {
  }

  lemma ReadingCells(e: Answers, rows: Rows, parents: Parents, m: FirmMember, kind: Kind, op: Operation,
                     resource: Subject, input: Option<Subject>)
    requires Agrees(e, rows, m)
    requires ((kind == CaseKind || kind == DeadlineKind || kind == DocumentPageKind) && op == Get)
             || (kind == CaseMemberKind && op != Create && op != Remove && op != List)
    ensures AuthorizeUser(e, parents, m, kind, op, Some(resource), input) <==>
            MayTouch(rows, m, kind, if kind == CaseKind then resource.id else resource.caseId)
  {
    ReadingCellAsks(e, parents, m, kind, op, resource, input);
    TouchIs(e, rows, m, kind, if kind == CaseKind then resource.id else resource.caseId);
  }

  /** A case is read on its own id; its deadlines, pages and members on the case their rows name. */
  lemma ReadingIff(rows: Rows, parents: Parents, m: FirmMember, kind: Kind, op: Operation,
                   resource: Subject, input: Option<Subject>)
    requires RowsOk(rows) && StoredMember(rows, m)
    requires ((kind == CaseKind || kind == DeadlineKind || kind == DocumentPageKind) && op == Get)
             || (kind == CaseMemberKind && op != Create && op != Remove && op != List)
    ensures Authorize(rows, Projected(rows), parents, Person(m.userId), kind, op, Some(resource), input) <==>
            MayTouch(rows, m, kind, if kind == CaseKind then resource.id else resource.caseId)
  {
    AuthorizeInSync(rows, parents, m, kind, op, Some(resource), input);
    ReadingCells(AnswersFor(Projected(rows), m), rows, parents, m, kind, op, resource, input);
  }

  lemma CommentCells(e: Answers, rows: Rows, parents: Parents, m: FirmMember, op: Operation,
                     comment: Subject, input: Option<Subject>)
    requires Agrees(e, rows, m)
    ensures var found := comment.taskId != "" && comment.taskId in parents.taskCase;
            && (op != Create && op != List ==>
                  (AuthorizeUser(e, parents, m, TaskCommentKind, op, Some(comment), input) <==>
                   MayTouch(rows, m, TaskCommentKind, if found then parents.taskCase[comment.taskId] else "")))
            && (AuthorizeUser(e, parents, m, TaskCommentKind, Create, None, Some(comment)) <==>
                if found then MayTouch(rows, m, TaskCommentKind, parents.taskCase[comment.taskId])
                else IsActive(m) && CaseWorkerLevel(m.role))
  {
    if comment.taskId in parents.taskCase {
      assert AgreesOnCase(e, rows, m, parents.taskCase[comment.taskId]);
    }
  }

  /** A comment belongs to the case of its task; one on a task that is not there is for its reference check to refuse. */
  lemma CommentIff(rows: Rows, parents: Parents, m: FirmMember, op: Operation, comment: Subject, input: Option<Subject>)
    requires RowsOk(rows) && StoredMember(rows, m)
    ensures var found := comment.taskId != "" && comment.taskId in parents.taskCase;
            && (op != Create && op != List ==>
                  (Authorize(rows, Projected(rows), parents, Person(m.userId), TaskCommentKind, op, Some(comment), input) <==>
                   MayTouch(rows, m, TaskCommentKind, if found then parents.taskCase[comment.taskId] else "")))
            && (Authorize(rows, Projected(rows), parents, Person(m.userId), TaskCommentKind, Create, None, Some(comment)) <==>
                if found then MayTouch(rows, m, TaskCommentKind, parents.taskCase[comment.taskId])
                else IsActive(m) && CaseWorkerLevel(m.role))
  {
    AuthorizeInSync(rows, parents, m, TaskCommentKind, op, Some(comment), input);
    AuthorizeInSync(rows, parents, m, TaskCommentKind, Create, None, Some(comment));
    CommentCells(AnswersFor(Projected(rows), m), rows, parents, m, op, comment, input);
  }

  lemma CreatingCellIff(e: Answers, rows: Rows, parents: Parents, m: FirmMember, kind: Kind, input: Subject)
    requires Agrees(e, rows, m)
    requires kind == HearingKind || kind == CaseNoteKind || kind == DocumentKind || kind == DocumentAnnotationKind
             || kind == CitationUseKind || kind == TaskKind
    ensures var named := if kind == DocumentAnnotationKind then MarkedCase(parents, input) else input.caseId;
            AuthorizeUser(e, parents, m, kind, Create, None, Some(input)) <==>
            if named == "" then IsActive(m) && CaseWorkerLevel(m.role) else MayWork(rows, m, named)
  {
    assert AgreesOnCase(e, rows, m, input.caseId) && AgreesOnCase(e, rows, m, MarkedCase(parents, input));
  }

  /** Creating content needs the right to work the case it names, a mark its document's; with none, a case-worker role. */
  lemma CreatingContentIff(rows: Rows, parents: Parents, m: FirmMember, kind: Kind, input: Subject)
    requires RowsOk(rows) && StoredMember(rows, m)
    requires kind == HearingKind || kind == CaseNoteKind || kind == DocumentKind || kind == DocumentAnnotationKind
             || kind == CitationUseKind || kind == TaskKind
    ensures var named := if kind == DocumentAnnotationKind then MarkedCase(parents, input) else input.caseId;
            Authorize(rows, Projected(rows), parents, Person(m.userId), kind, Create, None, Some(input)) <==>
            if named == "" then IsActive(m) && CaseWorkerLevel(m.role) else MayWork(rows, m, named)
  {
    AuthorizeInSync(rows, parents, m, kind, Create, None, Some(input));
    CreatingCellIff(AnswersFor(Projected(rows), m), rows, parents, m, kind, input);
  }

  lemma ManagingCells(e: Answers, rows: Rows, parents: Parents, m: FirmMember, op: Operation, subject: Subject,
                      input: Option<Subject>)
    requires Agrees(e, rows, m) && IsActive(m)
    ensures op == Update || op == UpdateStatus ==>
              (AuthorizeUser(e, parents, m, CaseKind, op, Some(subject), input) <==>
               if subject.id == "" then PartnerLevel(m.role) else MayManage(rows, m, subject.id))
    ensures AuthorizeUser(e, parents, m, CaseMemberKind, Remove, Some(subject), input) <==>
            if subject.caseId == "" then PartnerLevel(m.role) else MayManage(rows, m, subject.caseId)
    ensures AuthorizeUser(e, parents, m, CaseMemberKind, Create, None, Some(subject)) <==>
            if subject.caseId == "" then LawyerLevel(m.role) else MayManage(rows, m, subject.caseId)
    ensures AuthorizeUser(e, parents, m, CaseKind, Create, None, Some(subject)) <==>
            PartnerLevel(m.role) || m.role == Associate
  {
    assert AgreesOnCase(e, rows, m, subject.caseId) && AgreesOnCase(e, rows, m, subject.id);
  }

  /** A case and its member set are managed by its lead and by partners; partners and associates open cases. */
  lemma ManagingIff(rows: Rows, parents: Parents, m: FirmMember, op: Operation, subject: Subject, input: Option<Subject>)
    requires RowsOk(rows) && StoredMember(rows, m)
    ensures op == Update || op == UpdateStatus ==>
              (Authorize(rows, Projected(rows), parents, Person(m.userId), CaseKind, op, Some(subject), input) <==>
               IsActive(m) && if subject.id == "" then PartnerLevel(m.role) else MayManage(rows, m, subject.id))
    ensures Authorize(rows, Projected(rows), parents, Person(m.userId), CaseMemberKind, Remove, Some(subject), input) <==>
            IsActive(m) && if subject.caseId == "" then PartnerLevel(m.role) else MayManage(rows, m, subject.caseId)
    ensures Authorize(rows, Projected(rows), parents, Person(m.userId), CaseMemberKind, Create, None, Some(subject)) <==>
            IsActive(m) && if subject.caseId == "" then LawyerLevel(m.role) else MayManage(rows, m, subject.caseId)
    ensures Authorize(rows, Projected(rows), parents, Person(m.userId), CaseKind, Create, None, Some(subject)) <==>
            IsActive(m) && (PartnerLevel(m.role) || m.role == Associate)
  {
    AuthorizeInSync(rows, parents, m, CaseKind, op, Some(subject), input);
    AuthorizeInSync(rows, parents, m, CaseMemberKind, Remove, Some(subject), input);
    AuthorizeInSync(rows, parents, m, CaseMemberKind, Create, None, Some(subject));
    AuthorizeInSync(rows, parents, m, CaseKind, Create, None, Some(subject));
    if IsActive(m) {
      ManagingCells(AnswersFor(Projected(rows), m), rows, parents, m, op, subject, input);
    }
  }

  /** The kinds whose lists, and the library shelf whole, are open to every case worker. */
  predicate ListedToCaseWorkers(kind: Kind, op: Operation) {
    kind == CitationKind || (kind == DocumentPageKind && op == Search)
    || (op == List && (kind == HearingKind || kind == CaseNoteKind || kind == DocumentKind || kind == DocumentAnnotationKind
                       || kind == CitationUseKind || kind == TaskKind || kind == TaskCommentKind || kind == DocumentPageKind
                       || kind == DeadlineKind || kind == CaseKind || kind == CaseMemberKind))
  }

  /** What nobody does through the matrix: the seams of the system and of the operator. */
  predicate NobodysCell(kind: Kind, op: Operation) {
    match kind
    case UserKind => op != Create && op != Update && op != Get && op != IssueActivationCode
    case CaseKind => op != Create && op != Update && op != UpdateStatus && op != Get && op != List
    case DeadlineKind => op != Create && op != Update && op != UpdateStatus && op != Get && op != List
    case DocumentKind => op == RecordExtraction
    case DocumentPageKind => op != Get && op != List && op != Search
    case NotificationKind => op == Create
    case AuditEntryKind => op != List
    case UnknownKind => true
    case _ => false
  }

  lemma ListCells(e: Answers, parents: Parents, m: FirmMember, kind: Kind, op: Operation,
                  resource: Option<Subject>, input: Option<Subject>)
    requires AgreesOnFirm(e, m) && ListedToCaseWorkers(kind, op)
    ensures AuthorizeUser(e, parents, m, kind, op, resource, input) <==> IsActive(m) && CaseWorkerLevel(m.role)
  {
  }

  lemma NobodysCells(e: Answers, parents: Parents, m: FirmMember, kind: Kind, op: Operation,
                     resource: Option<Subject>, input: Option<Subject>)
    requires NobodysCell(kind, op)
    ensures !AuthorizeUser(e, parents, m, kind, op, resource, input)
  {
  }

  /** Lists are for case workers, and what no cell names is for nobody. */
  lemma ListingIff(rows: Rows, parents: Parents, m: FirmMember, kind: Kind, op: Operation,
                   resource: Option<Subject>, input: Option<Subject>)
    requires RowsOk(rows) && StoredMember(rows, m)
    ensures var allowed := Authorize(rows, Projected(rows), parents, Person(m.userId), kind, op, resource, input);
            && (ListedToCaseWorkers(kind, op) ==> (allowed <==> IsActive(m) && CaseWorkerLevel(m.role)))
            && (NobodysCell(kind, op) ==> !allowed)
  {
    AuthorizeInSync(rows, parents, m, kind, op, resource, input);
    if ListedToCaseWorkers(kind, op) {
      ListCells(AnswersFor(Projected(rows), m), parents, m, kind, op, resource, input);
    } else if NobodysCell(kind, op) {
      NobodysCells(AnswersFor(Projected(rows), m), parents, m, kind, op, resource, input);
    }
  }

  /** The firm's own registers: what a role, or being the account or the recipient, lets an active member do. */
  predicate RegisterRule(m: FirmMember, kind: Kind, op: Operation, resource: Option<Subject>)
    requires kind == FirmMemberKind || kind == UserKind || kind == ClientKind || kind == AuditEntryKind
             || kind == NotificationKind
  {
    match kind
    case FirmMemberKind => op == Create || op == Update ==> m.role == ManagingPartner
    case UserKind =>
      || (op in {Create, Update, Get, IssueActivationCode} && m.role == ManagingPartner)
      || (op == Get && resource.Some? && resource.value.id == m.userId)
    case ClientKind => if op in {Create, Update} then PartnerLevel(m.role) || m.role == Associate else LawyerLevel(m.role)
    case AuditEntryKind => op == List && PartnerLevel(m.role)
    case NotificationKind => op != Create && (op == MarkRead ==> resource.Some? && resource.value.recipientId == m.userId)
    case _ => false
  }

  lemma RegisterCells(e: Answers, parents: Parents, m: FirmMember, kind: Kind, op: Operation,
                      resource: Option<Subject>, input: Option<Subject>)
    requires AgreesOnFirm(e, m) && IsActive(m)
    requires kind == FirmMemberKind || kind == UserKind || kind == ClientKind || kind == AuditEntryKind
             || kind == NotificationKind
    ensures AuthorizeUser(e, parents, m, kind, op, resource, input) <==> RegisterRule(m, kind, op, resource)
  {
  }

  /** Members, accounts, clients, change history and notifications, end to end. */
  lemma RegistersIff(rows: Rows, parents: Parents, m: FirmMember, kind: Kind, op: Operation,
                     resource: Option<Subject>, input: Option<Subject>)
    requires RowsOk(rows) && StoredMember(rows, m)
    requires kind == FirmMemberKind || kind == UserKind || kind == ClientKind || kind == AuditEntryKind
             || kind == NotificationKind
    ensures Authorize(rows, Projected(rows), parents, Person(m.userId), kind, op, resource, input) <==>
            IsActive(m) && RegisterRule(m, kind, op, resource)
  {
    AuthorizeInSync(rows, parents, m, kind, op, resource, input);
    if IsActive(m) {
      RegisterCells(AnswersFor(Projected(rows), m), parents, m, kind, op, resource, input);
    }
  }

  /** The callers who are no person: nobody at all, and the operator for accounts. */
  lemma OperatorIff(rows: Rows, tuples: set<TupleKey>, parents: Parents, kind: Kind, op: Operation,
                    resource: Option<Subject>, input: Option<Subject>)
    ensures !Authorize(rows, tuples, parents, Anonymous, kind, op, resource, input)
    ensures Authorize(rows, tuples, parents, Operator, kind, op, resource, input) <==>
            kind.UserKind? || kind.FirmMemberKind?
  {
  }

  /** And each seam of the system, by name. */
  lemma SystemIff(rows: Rows, tuples: set<TupleKey>, parents: Parents, kind: Kind, op: Operation,
                  resource: Option<Subject>, input: Option<Subject>)
    ensures Authorize(rows, tuples, parents, System, kind, op, resource, input) <==>
            || (op.Create? && (kind.NotificationKind? || kind.AuditEntryKind? || kind.CaseMemberKind? || kind.DocumentPageKind?))
            || (op.Update? && kind.CaseKind?)
            || (op.RecordExtraction? && kind.DocumentKind?)
  {
    SystemSeams(kind, op);
  }

  lemma SystemSeams(kind: Kind, op: Operation)
    ensures AuthorizeSystem(kind, op) <==>
            || (op.Create? && (kind.NotificationKind? || kind.AuditEntryKind? || kind.CaseMemberKind? || kind.DocumentPageKind?))
            || (op.Update? && kind.CaseKind?)
            || (op.RecordExtraction? && kind.DocumentKind?)
  {
  }

  /** No cell is left out: each is a list or nobody's, or one that the lemma of its kind states. */
  lemma EveryCellIsStated(kind: Kind, op: Operation)
    ensures || ListedToCaseWorkers(kind, op) || NobodysCell(kind, op)
            || kind.FirmMemberKind? || kind.UserKind? || kind.ClientKind? || kind.AuditEntryKind? || kind.NotificationKind?
            || kind.FeeArrangementKind? || kind.LedgerEntryKind? || kind.TaskCommentKind? || kind.CaseMemberKind?
            || (kind.CaseKind? && (op.Create? || op.Update? || op.UpdateStatus? || op.Get?))
            || (kind.DeadlineKind? && (op.Create? || op.Update? || op.UpdateStatus? || op.Get?))
            || (kind.DocumentPageKind? && op.Get?)
            || (SixContentKinds(kind) && !op.List?)
  {
  }

  lemma DeadlineCells(e: Answers, rows: Rows, parents: Parents, m: FirmMember, op: Operation,
                      resource: Option<Subject>, input: Option<Subject>)
    requires Agrees(e, rows, m)
    ensures resource.None? && input.Some? ==>
              (AuthorizeUser(e, parents, m, DeadlineKind, Create, resource, input) <==>
               if input.value.caseId == "" then IsActive(m) && LawyerLevel(m.role)
               else MayEnterDeadline(rows, m, input.value.caseId))
    ensures resource.Some? && (op == Update || op == UpdateStatus) ==>
              (AuthorizeUser(e, parents, m, DeadlineKind, op, resource, input) <==>
               (IsActive(m) && PartnerLevel(m.role)) || resource.value.ownerId == m.id)
  {
    if input.Some? {
      assert AgreesOnCase(e, rows, m, input.value.caseId);
    }
  }

  /** Entering a deadline needs a lawyer's role and the right to work its case. */
  lemma EnteringDeadlineIff(rows: Rows, parents: Parents, m: FirmMember, input: Subject)
    requires RowsOk(rows) && StoredMember(rows, m)
    ensures Authorize(rows, Projected(rows), parents, Person(m.userId), DeadlineKind, Create, None, Some(input)) <==>
            if input.caseId == "" then IsActive(m) && LawyerLevel(m.role) else MayEnterDeadline(rows, m, input.caseId)
  {
    AuthorizeInSync(rows, parents, m, DeadlineKind, Create, None, Some(input));
    DeadlineCells(AnswersFor(Projected(rows), m), rows, parents, m, Create, None, Some(input));
  }

  /**
   * Changing or resolving a deadline is another matter: a partner may, and its owner,
   * whatever their role, on the case or off it, and whatever the change.
   */
  lemma ChangingDeadlineIff(rows: Rows, parents: Parents, m: FirmMember, op: Operation, resource: Subject,
                            input: Option<Subject>)
    requires RowsOk(rows) && StoredMember(rows, m) && (op == Update || op == UpdateStatus)
    ensures Authorize(rows, Projected(rows), parents, Person(m.userId), DeadlineKind, op, Some(resource), input) <==>
            IsActive(m) && (PartnerLevel(m.role) || resource.ownerId == m.id)
  {
    AuthorizeInSync(rows, parents, m, DeadlineKind, op, Some(resource), input);
    DeadlineCells(AnswersFor(Projected(rows), m), rows, parents, m, op, Some(resource), input);
  }

  /** So a clerk resolves a deadline exactly when they own it. */
  lemma ClerkResolvesIff(rows: Rows, parents: Parents, m: FirmMember, resource: Subject, input: Option<Subject>)
    requires RowsOk(rows) && StoredMember(rows, m) && m.role == Clerk && IsActive(m)
    ensures Authorize(rows, Projected(rows), parents, Person(m.userId), DeadlineKind, UpdateStatus, Some(resource), input)
            <==> resource.ownerId == m.id
  {
    ChangingDeadlineIff(rows, parents, m, UpdateStatus, resource, input);
  }

  /**
   * And a deadline is moved to a case its mover may not work exactly when its owner moves
   * it there, an active member who is no partner and, if a case worker, is not on that case.
   */
  lemma UncheckedMoveIff(rows: Rows, parents: Parents, m: FirmMember, resource: Subject, input: Subject)
    requires RowsOk(rows) && StoredMember(rows, m) && input.caseId in rows.cases
    ensures Authorize(rows, Projected(rows), parents, Person(m.userId), DeadlineKind, Update, Some(resource), Some(input))
            && !MayWork(rows, m, input.caseId)
            <==> IsActive(m) && !PartnerLevel(m.role) && resource.ownerId == m.id
                 && !(CaseWorkerLevel(m.role) && WorksOn(rows, m.id, input.caseId))
  {
    ChangingDeadlineIff(rows, parents, m, Update, resource, Some(input));
  }

  /** A clerk never passes the deadline verb, on any case, in or out of their own, nor enters one. */
  lemma ClerksNeverEnterDeadlines(rows: Rows, parents: Parents, m: FirmMember, caseId: string, input: Subject)
    requires RowsOk(rows) && StoredMember(rows, m) && m.role == Clerk
    ensures !CanTouchCaseContent(AnswersFor(Projected(rows), m), Some(caseId), false)
    ensures !Authorize(rows, Projected(rows), parents, Person(m.userId), DeadlineKind, Create, None, Some(input))
  {
    EnteringDeadlineIff(rows, parents, m, input);
    InSyncAgrees(rows, m);
    assert AgreesOnCase(AnswersFor(Projected(rows), m), rows, m, caseId);
  }

  lemma MoneyCells(e: Answers, rows: Rows, parents: Parents, m: FirmMember, op: Operation,
                   resource: Option<Subject>, input: Option<Subject>)
    requires AgreesOnFirm(e, m)
    ensures AuthorizeUser(e, parents, m, FeeArrangementKind, op, resource, input) <==> IsActive(m) && PartnerLevel(m.role)
    ensures AuthorizeUser(e, parents, m, LedgerEntryKind, op, resource, input) <==>
            IsActive(m)
            && (PartnerLevel(m.role) || (m.role == OfficeStaff && op == Create && input.Some? && input.value.isReceipt))
  {
  }

  /** Money is partners only, except that office staff record receipts. */
  lemma MoneyIff(rows: Rows, parents: Parents, m: FirmMember, op: Operation, resource: Option<Subject>, input: Option<Subject>)
    requires RowsOk(rows) && StoredMember(rows, m)
    ensures Authorize(rows, Projected(rows), parents, Person(m.userId), FeeArrangementKind, op, resource, input) <==>
            IsActive(m) && PartnerLevel(m.role)
    ensures Authorize(rows, Projected(rows), parents, Person(m.userId), LedgerEntryKind, op, resource, input) <==>
            IsActive(m)
            && (PartnerLevel(m.role) || (m.role == OfficeStaff && op == Create && input.Some? && input.value.isReceipt))
  {
    AuthorizeInSync(rows, parents, m, FeeArrangementKind, op, resource, input);
    AuthorizeInSync(rows, parents, m, LedgerEntryKind, op, resource, input);
    MoneyCells(AnswersFor(Projected(rows), m), rows, parents, m, op, resource, input);
  }

  /**
   * Everything office staff can ever do: the roster, their own account and
   * notifications, receipts, and what they hold by name, as the lead of the case
   * acted on or a deadline's owner. No case content by membership.
   */
  lemma OfficeStaffReach(rows: Rows, parents: Parents, m: FirmMember, kind: Kind, op: Operation,
                         resource: Option<Subject>, input: Option<Subject>)
    requires RowsOk(rows) && StoredMember(rows, m) && m.role == OfficeStaff
    requires Authorize(rows, Projected(rows), parents, Person(m.userId), kind, op, resource, input)
    ensures || (kind == FirmMemberKind && op != Create && op != Update)
            || (kind == UserKind && op == Get && resource.Some? && resource.value.id == m.userId)
            || (kind == NotificationKind && op != Create)
            || (kind == LedgerEntryKind && op == Create && input.Some? && input.value.isReceipt)
            || (kind == DeadlineKind && (op == Update || op == UpdateStatus) && resource.Some? && resource.value.ownerId == m.id)
            || ((kind == CaseKind || kind == CaseMemberKind)
                && var c := ActedOnCase(parents, kind, resource, input);
                   c.Some? && c.value in rows.cases && rows.cases[c.value].leadLawyerId == m.id)
  {
    AuthorizeInSync(rows, parents, m, kind, op, resource, input);
    OfficeStaffCells(AnswersFor(Projected(rows), m), rows, parents, m, kind, op, resource, input);
  }

  lemma OfficeStaffCells(e: Answers, rows: Rows, parents: Parents, m: FirmMember, kind: Kind, op: Operation,
                         resource: Option<Subject>, input: Option<Subject>)
    requires Agrees(e, rows, m) && m.role == OfficeStaff
    requires AuthorizeUser(e, parents, m, kind, op, resource, input)
    ensures || (kind == FirmMemberKind && op != Create && op != Update)
            || (kind == UserKind && op == Get && resource.Some? && resource.value.id == m.userId)
            || (kind == NotificationKind && op != Create)
            || (kind == LedgerEntryKind && op == Create && input.Some? && input.value.isReceipt)
            || (kind == DeadlineKind && (op == Update || op == UpdateStatus) && resource.Some? && resource.value.ownerId == m.id)
            || ((kind == CaseKind || kind == CaseMemberKind)
                && var c := ActedOnCase(parents, kind, resource, input);
                   c.Some? && c.value in rows.cases && rows.cases[c.value].leadLawyerId == m.id)
  {
    var caseId := ActedOnCase(parents, kind, resource, input);
    if caseId.Some? {
      assert AgreesOnCase(e, rows, m, caseId.value);
    }
  }

  /* ------------------------------ a missed revocation ------------------------- */

  lemma RemovalEndsWork(rows: Rows, op: FirmIndex.Op, m: FirmMember)
    requires Keyed(rows) && UniquePeriods(rows)
    requires op.RemoveMembership? && FirmIndex.Plan(rows, op).Ok? && rows.memberships[op.id].memberId == m.id
    requires !PartnerLevel(m.role)
    ensures !MayWork(Apply(rows, FirmIndex.Plan(rows, op).value), m, rows.memberships[op.id].caseId)
  {
    var after := Apply(rows, FirmIndex.Plan(rows, op).value);
    var period := rows.memberships[op.id];
    forall id | id in after.memberships && InForce(after.memberships[id])
      ensures !(after.memberships[id].caseId == period.caseId && after.memberships[id].memberId == m.id)
    {
      assert id != op.id;
      assert rows.memberships[id] == after.memberships[id];
      assert !SamePair(rows.memberships[id], period);
    }
  }

  /**
   * Over any run in which no delete is refused, failed syncs only withhold: every
   * permission the engine gives, the rows give, to any user, on any relation and object.
   */
  lemma RefusedWritesOnlyWithhold(s: FirmIndex.State, requests: seq<FirmIndex.Request>,
                                  user: string, r: Relation, target: string)
    requires RowsOk(s.rows) && s.tuples <= Projected(s.rows) && FirmIndex.RefusesNoDelete(s, requests)
    ensures var after := FirmIndex.Run(s, requests);
            Check(after.tuples, user, r, target) ==> Check(Projected(after.rows), user, r, target)
  {
    var after := FirmIndex.Run(s, requests);
    if Check(after.tuples, user, r, target) {
      FirmIndex.RunOnlyWithholds(s, requests);
      CheckMonotone(after.tuples, Projected(after.rows), user, r, target);
    }
  }

  /** The delta of a removal is the one membership tuple. */
  lemma RemovalDeletes(rows: Rows, op: FirmIndex.Op, m: FirmMember)
    requires RowsOk(rows) && StoredMember(rows, m)
    requires op.RemoveMembership? && FirmIndex.Plan(rows, op).Ok? && rows.memberships[op.id].memberId == m.id
    ensures DeltaOf(rows, FirmIndex.Plan(rows, op).value)
            == TupleDelta([], [MemberTuple(m.userId, rows.memberships[op.id].caseId)])
  {
  }

  function CaseSubject(caseId: string): Subject {
    Subject(caseId, "", "", "", "", "", false)
  }

  lemma CaseGetIff(e: Answers, rows: Rows, parents: Parents, m: FirmMember, caseId: string)
    requires AgreesOnCase(e, rows, m, caseId) && caseId != ""
    ensures AuthorizeUser(e, parents, m, CaseKind, Get, Some(CaseSubject(caseId)), None) <==> MayWork(rows, m, caseId)
  {
  }

  /**
   * The other direction is not safe. After a case worker is taken off a case, the policy
   * still opens it to them exactly when they are active and either a partner, whom every
   * case is open to, or of case-worker level with the delete of their tuple refused;
   * in the last case no row lets them in any more.
   */
  lemma RemovalStillOpensIff(s: FirmIndex.State, op: FirmIndex.Op, refused: set<TupleKey>, parents: Parents, m: FirmMember)
    requires RowsOk(s.rows) && FirmIndex.InSync(s) && StoredMember(s.rows, m)
    requires op.RemoveMembership? && FirmIndex.Plan(s.rows, op).Ok? && s.rows.memberships[op.id].memberId == m.id
    ensures var after, caseId := FirmIndex.Step(s, op, refused), s.rows.memberships[op.id].caseId;
            && (Authorize(after.rows, after.tuples, parents, Person(m.userId), CaseKind, Get, Some(CaseSubject(caseId)), None) <==>
                IsActive(m)
                && (PartnerLevel(m.role) || (CaseWorkerLevel(m.role) && MemberTuple(m.userId, caseId) in refused)))
            && (MayWork(after.rows, m, caseId) <==> IsActive(m) && PartnerLevel(m.role))
  {
    var after, caseId := FirmIndex.Step(s, op, refused), s.rows.memberships[op.id].caseId;
    if MemberTuple(m.userId, caseId) in refused {
      RefusedRemovalOpens(s, op, refused, parents, m);
    } else {
      RemovalCloses(s, op, refused, parents, m);
    }
    RemovalRows(s, op, refused, m);
  }

  /** What the rows themselves say after the removal. */
  lemma RemovalRows(s: FirmIndex.State, op: FirmIndex.Op, refused: set<TupleKey>, m: FirmMember)
    requires RowsOk(s.rows) && StoredMember(s.rows, m)
    requires op.RemoveMembership? && FirmIndex.Plan(s.rows, op).Ok? && s.rows.memberships[op.id].memberId == m.id
    ensures var after, caseId := FirmIndex.Step(s, op, refused), s.rows.memberships[op.id].caseId;
            && StoredMember(after.rows, m) && caseId != "" && WorksOn(s.rows, m.id, caseId)
            && (MayWork(after.rows, m, caseId) <==> IsActive(m) && PartnerLevel(m.role))
  {
    if !PartnerLevel(m.role) {
      RemovalEndsWork(s.rows, op, m);
    }
  }

  lemma GateThenMatrix(rows: Rows, tuples: set<TupleKey>, parents: Parents, m: FirmMember, kind: Kind, op: Operation,
                       resource: Option<Subject>, input: Option<Subject>)
    requires Joinable(rows) && StoredMember(rows, m)
    ensures Authorize(rows, tuples, parents, Person(m.userId), kind, op, resource, input) <==>
            IsActive(m) && AuthorizeUser(AnswersFor(tuples, m), parents, m, kind, op, resource, input)
  {
    OnlyRowOfUser(rows, m);
  }

  lemma RefusedRemovalOpens(s: FirmIndex.State, op: FirmIndex.Op, refused: set<TupleKey>, parents: Parents, m: FirmMember)
    requires RowsOk(s.rows) && FirmIndex.InSync(s) && StoredMember(s.rows, m)
    requires op.RemoveMembership? && FirmIndex.Plan(s.rows, op).Ok? && s.rows.memberships[op.id].memberId == m.id
    requires MemberTuple(m.userId, s.rows.memberships[op.id].caseId) in refused
    ensures var after, caseId := FirmIndex.Step(s, op, refused), s.rows.memberships[op.id].caseId;
            Authorize(after.rows, after.tuples, parents, Person(m.userId), CaseKind, Get, Some(CaseSubject(caseId)), None) <==>
            IsActive(m) && (PartnerLevel(m.role) || CaseWorkerLevel(m.role))
  {
    var after, caseId := FirmIndex.Step(s, op, refused), s.rows.memberships[op.id].caseId;
    RefusedRemovalKeepsTuples(s, op, refused, m);
    RemovalRows(s, op, refused, m);
    FirmIndex.StepKeepsRows(s, op, refused);
    GateThenMatrix(after.rows, after.tuples, parents, m, CaseKind, Get, Some(CaseSubject(caseId)), None);
    InSyncAgreesOnCase(s.rows, m, caseId);
    CaseGetIff(AnswersFor(after.tuples, m), s.rows, parents, m, caseId);
  }

  lemma RemovalCloses(s: FirmIndex.State, op: FirmIndex.Op, refused: set<TupleKey>, parents: Parents, m: FirmMember)
    requires RowsOk(s.rows) && FirmIndex.InSync(s) && StoredMember(s.rows, m)
    requires op.RemoveMembership? && FirmIndex.Plan(s.rows, op).Ok? && s.rows.memberships[op.id].memberId == m.id
    requires MemberTuple(m.userId, s.rows.memberships[op.id].caseId) !in refused
    ensures var after, caseId := FirmIndex.Step(s, op, refused), s.rows.memberships[op.id].caseId;
            Authorize(after.rows, after.tuples, parents, Person(m.userId), CaseKind, Get, Some(CaseSubject(caseId)), None) <==>
            MayWork(after.rows, m, caseId)
  {
    var after, caseId := FirmIndex.Step(s, op, refused), s.rows.memberships[op.id].caseId;
    CleanRemovalSyncs(s, op, refused, m);
    RemovalRows(s, op, refused, m);
    FirmIndex.StepKeepsRows(s, op, refused);
    GateThenMatrix(after.rows, after.tuples, parents, m, CaseKind, Get, Some(CaseSubject(caseId)), None);
    InSyncAgreesOnCase(after.rows, m, caseId);
    CaseGetIff(AnswersFor(after.tuples, m), after.rows, parents, m, caseId);
  }

  lemma CleanRemovalSyncs(s: FirmIndex.State, op: FirmIndex.Op, refused: set<TupleKey>, m: FirmMember)
    requires RowsOk(s.rows) && FirmIndex.InSync(s) && StoredMember(s.rows, m)
    requires op.RemoveMembership? && FirmIndex.Plan(s.rows, op).Ok? && s.rows.memberships[op.id].memberId == m.id
    requires MemberTuple(m.userId, s.rows.memberships[op.id].caseId) !in refused
    ensures FirmIndex.InSync(FirmIndex.Step(s, op, refused))
  {
    RemovalDeletes(s.rows, op, m);
    FirmIndex.StepKeepsSync(s, op);
    assert FirmIndex.Step(s, op, refused).tuples == FirmIndex.Step(s, op, {}).tuples;
  }

  lemma RefusedRemovalKeepsTuples(s: FirmIndex.State, op: FirmIndex.Op, refused: set<TupleKey>, m: FirmMember)
    requires RowsOk(s.rows) && FirmIndex.InSync(s) && StoredMember(s.rows, m)
    requires op.RemoveMembership? && FirmIndex.Plan(s.rows, op).Ok? && s.rows.memberships[op.id].memberId == m.id
    requires MemberTuple(m.userId, s.rows.memberships[op.id].caseId) in refused
    ensures FirmIndex.Step(s, op, refused).tuples == Projected(s.rows)
  {
    RemovalDeletes(s.rows, op, m);
  }
}
