/**
 * The firm's rows that authorization is projected from: FirmMember, Case and
 * CaseMember, each table keyed by row id, and the invariants the store's
 * natural keys and the pipelines' reference checks keep on them. An absent spec
 * or field reads as an empty one, which is how every consumer here reads it.
 */
module FirmRows {
  import opened Wrappers

  datatype FirmRole =
    | Unspecified
    | ManagingPartner
    | Partner
    | Associate
    | Junior
    | Clerk
    | OfficeStaff

  datatype FirmMember = FirmMember(id: string, userId: string, role: FirmRole, active: Option<bool>)

  datatype Case = Case(id: string, fileNumber: string, leadLawyerId: string, nextHearingDate: Option<string>)

  datatype CaseMember = CaseMember(id: string, caseId: string, memberId: string, active: Option<bool>)

  datatype Rows = Rows(
    members: map<string, FirmMember>,
    cases: map<string, Case>,
    memberships: map<string, CaseMember>)

  /** Every row is stored under its own, non-empty id. */
  ghost predicate Keyed(rows: Rows) {
    && (forall id :: id in rows.members ==> id != "" && rows.members[id].id == id)
    && (forall id :: id in rows.cases ==> id != "" && rows.cases[id].id == id)
    && (forall id :: id in rows.memberships ==> id != "" && rows.memberships[id].id == id)
  }

  predicate IsActive(m: FirmMember) {
    m.active == Some(true)
  }

  predicate InForce(m: CaseMember) {
    m.active == Some(true)
  }

  predicate SamePair(a: CaseMember, b: CaseMember) {
    a.caseId == b.caseId && a.memberId == b.memberId
  }

  /** The composed natural key of a membership. */
  function MembershipKey(caseId: string, memberId: string): string {
    caseId + ":" + memberId
  }

  /** The FirmMember natural key: one row per user. */
  ghost predicate UniqueUsers(rows: Rows) {
    forall i, j | i in rows.members && j in rows.members ::
      rows.members[i].userId == rows.members[j].userId != "" ==> i == j
  }

  /** The CaseMember natural key, which exists only while a period is in force. */
  ghost predicate UniquePeriods(rows: Rows) {
    forall i, j | i in rows.memberships && j in rows.memberships ::
      (InForce(rows.memberships[i]) && InForce(rows.memberships[j])
       && SamePair(rows.memberships[i], rows.memberships[j])) ==> i == j
  }

  ghost predicate UniqueFileNumbers(rows: Rows) {
    forall i, j | i in rows.cases && j in rows.cases ::
      rows.cases[i].fileNumber == rows.cases[j].fileNumber != "" ==> i == j
  }

  /** What the create and update pipelines' reference checks establish. */
  ghost predicate ReferencesResolve(rows: Rows) {
    && (forall id :: id in rows.members ==> rows.members[id].userId != "")
    && (forall id :: id in rows.cases ==> rows.cases[id].leadLawyerId in rows.members)
    && (forall id :: id in rows.memberships ==>
          rows.memberships[id].caseId in rows.cases && rows.memberships[id].memberId in rows.members)
  }

  ghost predicate RowsOk(rows: Rows) {
    Keyed(rows) && UniqueUsers(rows) && UniquePeriods(rows) && UniqueFileNumbers(rows) && ReferencesResolve(rows)
  }

  /** The user behind a FirmMember id, or "" when there is none. */
  function UserOf(rows: Rows, memberId: string): string {
    if memberId in rows.members then rows.members[memberId].userId else ""
  }

  /* ------------------------------ row writes ------------------------------ */

  /** One persisted row: an insert when its id is new, a replacement otherwise. */
  datatype RowWrite =
    | PutMember(member: FirmMember)
    | PutCase(theCase: Case)
    | PutMembership(membership: CaseMember)

  function Apply(rows: Rows, w: RowWrite): Rows {
    match w
    case PutMember(m) => rows.(members := rows.members[m.id := m])
    case PutCase(c) => rows.(cases := rows.cases[c.id := c])
    case PutMembership(m) => rows.(memberships := rows.memberships[m.id := m])
  }

  /** What the natural keys and the reference checks demand of a row about to be written. */
  ghost predicate Admissible(rows: Rows, w: RowWrite) {
    match w
    case PutMember(m) =>
      && m.id != "" && m.userId != ""
      && forall i | i in rows.members && i != m.id :: rows.members[i].userId != m.userId
    case PutCase(c) =>
      && c.id != "" && c.leadLawyerId in rows.members
      && forall i | i in rows.cases && i != c.id :: rows.cases[i].fileNumber != c.fileNumber
    case PutMembership(m) =>
      && m.id != "" && m.caseId in rows.cases && m.memberId in rows.members
      && (m.id in rows.memberships ==> SamePair(rows.memberships[m.id], m))
      && (InForce(m) ==> forall i | i in rows.memberships && i != m.id ::
            InForce(rows.memberships[i]) ==> !SamePair(rows.memberships[i], m))
  }

  lemma KeepsUniqueUsers(rows: Rows, w: RowWrite)
    requires UniqueUsers(rows) && Admissible(rows, w)
    ensures UniqueUsers(Apply(rows, w))
  {
  }

  lemma KeepsUniqueFileNumbers(rows: Rows, w: RowWrite)
    requires UniqueFileNumbers(rows) && Admissible(rows, w)
    ensures UniqueFileNumbers(Apply(rows, w))
  {
  }

  lemma KeepsUniquePeriods(rows: Rows, w: RowWrite)
    requires UniquePeriods(rows) && Admissible(rows, w)
    ensures UniquePeriods(Apply(rows, w))
  {
  }

  lemma KeepsReferences(rows: Rows, w: RowWrite)
    requires ReferencesResolve(rows) && Admissible(rows, w)
    ensures ReferencesResolve(Apply(rows, w))
  {
  }

  lemma ApplyKeepsRows(rows: Rows, w: RowWrite)
    requires RowsOk(rows) && Admissible(rows, w)
    ensures RowsOk(Apply(rows, w))
  {
    KeepsUniqueUsers(rows, w);
    KeepsUniqueFileNumbers(rows, w);
    KeepsUniquePeriods(rows, w);
    KeepsReferences(rows, w);
    assert Keyed(Apply(rows, w));
  }
}
