/**
 * How the firm's rows become relationship tuples
 * (apps/law/backend/src/domain/authz/tuples.ts): the full projection the
 * reconciler aims at, the per-request deltas, and why a delta is exactly the
 * difference between the projections before and after one row's write.
 */
module Projection {
  import opened Wrappers
  import opened Tuples
  import opened Engine
  import opened FirmRows

  const FIRM_OBJECT := Ref("firm", "firm")

  function UserRef(userId: string): string {
    Ref("user", userId)
  }

  function CaseRef(caseId: string): string {
    Ref("case", caseId)
  }

  /** The model's relation for a role; an unspecified role has none. */
  function RoleRelation(role: FirmRole): Option<string> {
    match role
    case Unspecified => None
    case ManagingPartner => Some("managing_partner")
    case Partner => Some("partner")
    case Associate => Some("associate")
    case Junior => Some("junior")
    case Clerk => Some("clerk")
    case OfficeStaff => Some("office_staff")
  }

  /** The member's role tuple; inactive, unknown and malformed members have none. */
  function RoleTuple(m: FirmMember): Option<TupleKey> {
    if !IsActive(m) || m.userId == "" || RoleRelation(m.role).None? then None
    else Some(TupleKey(UserRef(m.userId), RoleRelation(m.role).value, FIRM_OBJECT))
  }

  function FirmTuple(caseId: string): TupleKey {
    TupleKey(FIRM_OBJECT, "firm", CaseRef(caseId))
  }

  /** The tuples as the engine is sent them. */
  lemma SpelledOut(userId: string, caseId: string)
    ensures FirmTuple(caseId) == TupleKey("firm:firm", "firm", "case:" + caseId)
    ensures LeadTuple(userId, caseId) == TupleKey("user:" + userId, "lead", "case:" + caseId)
    ensures MemberTuple(userId, caseId) == TupleKey("user:" + userId, "member", "case:" + caseId)
  {
  }

  function LeadTuple(userId: string, caseId: string): TupleKey {
    TupleKey(UserRef(userId), "lead", CaseRef(caseId))
  }

  function MemberTuple(userId: string, caseId: string): TupleKey {
    TupleKey(UserRef(userId), "member", CaseRef(caseId))
  }

  /* ------------------------- what each row supports ------------------------- */

  ghost function MemberRowTuples(m: FirmMember): set<TupleKey> {
    if RoleTuple(m).Some? then {RoleTuple(m).value} else {}
  }

  ghost function LeadSet(userId: string, caseId: string): set<TupleKey> {
    if userId == "" then {} else {LeadTuple(userId, caseId)}
  }

  ghost function CaseRowTuples(rows: Rows, c: Case): set<TupleKey> {
    if c.id == "" then {} else {FirmTuple(c.id)} + LeadSet(UserOf(rows, c.leadLawyerId), c.id)
  }

  ghost function MembershipRowTuples(rows: Rows, m: CaseMember): set<TupleKey> {
    if !InForce(m) || m.caseId == "" || UserOf(rows, m.memberId) == "" then {}
    else {MemberTuple(UserOf(rows, m.memberId), m.caseId)}
  }

  /** The desired tuple set. */
  ghost function Projected(rows: Rows): set<TupleKey> {
    (set id, t | id in rows.members && t in MemberRowTuples(rows.members[id]) :: t)
    + (set id, t | id in rows.cases && t in CaseRowTuples(rows, rows.cases[id]) :: t)
    + (set id, t | id in rows.memberships && t in MembershipRowTuples(rows, rows.memberships[id]) :: t)
  }

  datatype RowRef = MemberRow(id: string) | CaseRow(id: string) | MembershipRow(id: string)

  /** The tuples one stored row supports; a row that is not stored supports none. */
  ghost function Support(rows: Rows, r: RowRef): set<TupleKey> {
    match r
    case MemberRow(id) => if id in rows.members then MemberRowTuples(rows.members[id]) else {}
    case CaseRow(id) => if id in rows.cases then CaseRowTuples(rows, rows.cases[id]) else {}
    case MembershipRow(id) =>
      if id in rows.memberships then MembershipRowTuples(rows, rows.memberships[id]) else {}
  }

  lemma ProjectedIsSupport(rows: Rows, t: TupleKey)
    ensures t in Projected(rows) <==> exists r :: t in Support(rows, r)
  {
    if id :| id in rows.members && t in MemberRowTuples(rows.members[id]) {
      assert t in Support(rows, MemberRow(id));
    }
    if id :| id in rows.cases && t in CaseRowTuples(rows, rows.cases[id]) {
      assert t in Support(rows, CaseRow(id));
    }
    if id :| id in rows.memberships && t in MembershipRowTuples(rows, rows.memberships[id]) {
      assert t in Support(rows, MembershipRow(id));
    }
  }

  lemma ReferencesDiffer(a: string, b: string)
    ensures UserRef(a) == UserRef(b) <==> a == b
    ensures CaseRef(a) == CaseRef(b) <==> a == b
    ensures CaseRef(a) != FIRM_OBJECT && UserRef(a) != FIRM_OBJECT && UserRef(a) != CaseRef(b)
    ensures IdOf(CaseRef(a)) == a
  {
    RefRoundTrip("user", a, "user", b);
    RefRoundTrip("case", a, "case", b);
    RefRoundTrip("user", a, "firm", "firm");
    RefRoundTrip("case", a, "firm", "firm");
    RefRoundTrip("user", a, "case", b);
  }

  lemma ShapeOfSupport(rows: Rows, t: TupleKey, r: RowRef)
    requires t in Support(rows, r)
    ensures r.MemberRow? <==> t.target == FIRM_OBJECT
    ensures r.MembershipRow? ==> t.relation == "member"
    ensures r.CaseRow? ==> t.relation != "member" && t.target == CaseRef(rows.cases[r.id].id)
  {
    match r
    case MemberRow(_) =>
    case CaseRow(id) => ReferencesDiffer(rows.cases[id].id, "");
    case MembershipRow(id) => ReferencesDiffer(rows.memberships[id].caseId, "");
  }

  /**
   * A projected tuple has exactly one supporting row. This is where the natural
   * keys matter: deleting the tuple of one row can take nothing from another.
   */
  lemma OneSupporter(rows: Rows, t: TupleKey, a: RowRef, b: RowRef)
    requires Keyed(rows) && UniqueUsers(rows) && UniquePeriods(rows)
    requires t in Support(rows, a) && t in Support(rows, b)
    ensures a == b
  {
    ShapeOfSupport(rows, t, a);
    ShapeOfSupport(rows, t, b);
    match a
    case MemberRow(i) =>
      ReferencesDiffer(rows.members[i].userId, rows.members[b.id].userId);
    case CaseRow(i) =>
      ReferencesDiffer(i, b.id);
    case MembershipRow(i) =>
      var m, n := rows.memberships[i], rows.memberships[b.id];
      ReferencesDiffer(m.caseId, n.caseId);
      ReferencesDiffer(UserOf(rows, m.memberId), UserOf(rows, n.memberId));
  }

  /* ---------------------------- full projection ---------------------------- */

  ghost predicate ListsMembers(listing: seq<FirmMember>, rows: Rows) {
    && (forall m :: m in listing ==> m.id in rows.members && rows.members[m.id] == m)
    && (forall id :: id in rows.members ==> rows.members[id] in listing)
  }

  /** A listing is the table's rows, each at least once, and no other. */
  lemma ListsOne(m: FirmMember, c: Case, p: CaseMember)
    ensures var rows := Rows(map[m.id := m], map[c.id := c], map[p.id := p]);
            ListsMembers([m], rows) && ListsCases([c], rows) && ListsMemberships([p], rows)
    ensures ListsMembers([], Rows(map[], map[], map[])) && ListsCases([], Rows(map[], map[], map[]))
            && ListsMemberships([], Rows(map[], map[], map[]))
  {
    assert [m][0] == m && [c][0] == c && [p][0] == p;
  }

  ghost predicate ListsCases(listing: seq<Case>, rows: Rows) {
    && (forall c :: c in listing ==> c.id in rows.cases && rows.cases[c.id] == c)
    && (forall id :: id in rows.cases ==> rows.cases[id] in listing)
  }

  ghost predicate ListsMemberships(listing: seq<CaseMember>, rows: Rows) {
    && (forall m :: m in listing ==> m.id in rows.memberships && rows.memberships[m.id] == m)
    && (forall id :: id in rows.memberships ==> rows.memberships[id] in listing)
  }

  /** FirmMember id to user id, from every row, active or not. */
  method UsersById(members: seq<FirmMember>, ghost rows: Rows) returns (userOf: map<string, string>)
    requires Keyed(rows) && ListsMembers(members, rows)
    ensures forall id :: (if id in userOf then userOf[id] else "") == UserOf(rows, id)
  {
    userOf := map[];
    for i := 0 to |members|
      invariant forall id :: id in userOf ==> id in rows.members && userOf[id] == rows.members[id].userId
      invariant forall k :: 0 <= k < i && members[k].userId != "" ==> members[k].id in userOf
    {
      assert members[i] in members;
      if members[i].id != "" && members[i].userId != "" {
        userOf := userOf[members[i].id := members[i].userId];
      }
    }
    forall id ensures (if id in userOf then userOf[id] else "") == UserOf(rows, id) {
      if id in rows.members {
        var k :| 0 <= k < |members| && members[k] == rows.members[id];
      }
    }
  }

  method RoleTuplesOf(members: seq<FirmMember>) returns (tuples: seq<TupleKey>)
    ensures forall t :: t in tuples <==> exists k :: 0 <= k < |members| && t in MemberRowTuples(members[k])
  {
    tuples := [];
    for i := 0 to |members|
      invariant forall t :: t in tuples <==> exists k :: 0 <= k < i && t in MemberRowTuples(members[k])
    {
      var role := RoleTuple(members[i]);
      if role.Some? {
        tuples := tuples + [role.value];
      }
    }
  }

  method CaseTuplesOf(cases: seq<Case>, userOf: map<string, string>, ghost rows: Rows) returns (tuples: seq<TupleKey>)
    requires forall id :: (if id in userOf then userOf[id] else "") == UserOf(rows, id)
    ensures forall t :: t in tuples <==> exists k :: 0 <= k < |cases| && t in CaseRowTuples(rows, cases[k])
  {
    tuples := [];
    for i := 0 to |cases|
      invariant forall t :: t in tuples <==> exists k :: 0 <= k < i && t in CaseRowTuples(rows, cases[k])
    {
      var c := cases[i];
      if c.id != "" {
        tuples := tuples + [FirmTuple(c.id)];
        var leadUserId := if c.leadLawyerId in userOf then userOf[c.leadLawyerId] else "";
        if leadUserId != "" {
          tuples := tuples + [LeadTuple(leadUserId, c.id)];
        }
      }
    }
  }

  method MembershipTuplesOf(memberships: seq<CaseMember>, userOf: map<string, string>, ghost rows: Rows)
    returns (tuples: seq<TupleKey>)
    requires forall id :: (if id in userOf then userOf[id] else "") == UserOf(rows, id)
    ensures forall t :: t in tuples <==>
      exists k :: 0 <= k < |memberships| && t in MembershipRowTuples(rows, memberships[k])
  {
    tuples := [];
    for i := 0 to |memberships|
      invariant forall t :: t in tuples <==> exists k :: 0 <= k < i && t in MembershipRowTuples(rows, memberships[k])
    {
      var m := memberships[i];
      var memberUserId := if m.memberId in userOf then userOf[m.memberId] else "";
      if InForce(m) && m.caseId != "" && memberUserId != "" {
        tuples := tuples + [MemberTuple(memberUserId, m.caseId)];
      }
    }
  }

  /** The desired tuples, computed from the three complete listings. */
  method ProjectAuthorizationTuples(members: seq<FirmMember>, cases: seq<Case>, memberships: seq<CaseMember>,
                                    ghost rows: Rows)
    returns (tuples: seq<TupleKey>)
    requires Keyed(rows)
    requires ListsMembers(members, rows) && ListsCases(cases, rows) && ListsMemberships(memberships, rows)
    ensures SetOf(tuples) == Projected(rows)
  {
    var userOf := UsersById(members, rows);
    var roles := RoleTuplesOf(members);
    var links := CaseTuplesOf(cases, userOf, rows);
    var periods := MembershipTuplesOf(memberships, userOf, rows);
    tuples := roles + links + periods;
    forall t ensures t in tuples <==> t in Projected(rows) {
      ListingsSupport(members, cases, memberships, rows, t);
    }
  }

  lemma ListingsSupport(members: seq<FirmMember>, cases: seq<Case>, memberships: seq<CaseMember>, rows: Rows, t: TupleKey)
    requires ListsMembers(members, rows) && ListsCases(cases, rows) && ListsMemberships(memberships, rows)
    ensures t in Projected(rows) <==>
            (exists k :: 0 <= k < |members| && t in MemberRowTuples(members[k]))
            || (exists k :: 0 <= k < |cases| && t in CaseRowTuples(rows, cases[k]))
            || (exists k :: 0 <= k < |memberships| && t in MembershipRowTuples(rows, memberships[k]))
  {
  }

  /* --------------------------- per-request deltas --------------------------- */

  datatype TupleDelta = TupleDelta(writes: seq<TupleKey>, deletes: seq<TupleKey>)

  const NO_DELTA := TupleDelta([], [])

  function AsSeq(t: Option<TupleKey>): seq<TupleKey> {
    if t.Some? then [t.value] else []
  }

  /** Role or activation transition on a FirmMember write. */
  function FirmMemberTupleDelta(previous: Option<FirmMember>, next: FirmMember): TupleDelta {
    var before := if previous.Some? then RoleTuple(previous.value) else None;
    var after := RoleTuple(next);
    if before == after then NO_DELTA else TupleDelta(AsSeq(after), AsSeq(before))
  }

  /** Firm link on create; lead transition on any Case write. */
  method CaseTupleDelta(rows: Rows, previous: Option<Case>, next: Case) returns (delta: TupleDelta)
    ensures delta == CaseDelta(rows, previous, next)
  {
    if next.id == "" {
      return NO_DELTA;
    }
    var writes, deletes := [], [];
    if previous.None? {
      writes := writes + [FirmTuple(next.id)];
    }
    var previousLead := if previous.Some? then previous.value.leadLawyerId else "";
    if previousLead != next.leadLawyerId {
      var previousUserId := UserOf(rows, previousLead);
      if previousUserId != "" {
        deletes := deletes + [LeadTuple(previousUserId, next.id)];
      }
      var nextUserId := UserOf(rows, next.leadLawyerId);
      if nextUserId != "" {
        writes := writes + [LeadTuple(nextUserId, next.id)];
      }
    }
    delta := TupleDelta(writes, deletes);
  }

  function LeadTuples(userId: string, caseId: string): seq<TupleKey> {
    if userId == "" then [] else [LeadTuple(userId, caseId)]
  }

  /** The delta as a value, by case: no id, same lead, changed lead. */
  function CaseDelta(rows: Rows, previous: Option<Case>, next: Case): TupleDelta {
    var link := if previous.None? then [FirmTuple(next.id)] else [];
    var previousLead := if previous.Some? then previous.value.leadLawyerId else "";
    if next.id == "" then NO_DELTA
    else if previousLead == next.leadLawyerId then TupleDelta(link, [])
    else TupleDelta(link + LeadTuples(UserOf(rows, next.leadLawyerId), next.id), LeadTuples(UserOf(rows, previousLead), next.id))
  }

  /** Activation transition on a CaseMember write. */
  function CaseMemberTupleDelta(rows: Rows, previous: Option<CaseMember>, next: CaseMember): TupleDelta {
    var wasActive := previous.Some? && InForce(previous.value);
    if wasActive == InForce(next) then NO_DELTA
    else
      var userId := UserOf(rows, next.memberId);
      if next.caseId == "" || userId == "" then NO_DELTA
      else if InForce(next) then TupleDelta([MemberTuple(userId, next.caseId)], [])
      else TupleDelta([], [MemberTuple(userId, next.caseId)])
  }

  ghost predicate IsRowDiff(delta: TupleDelta, before: set<TupleKey>, after: set<TupleKey>) {
    SetOf(delta.writes) == after - before && SetOf(delta.deletes) == before - after
  }

  lemma FirmMemberDeltaIsRowDiff(previous: Option<FirmMember>, next: FirmMember)
    ensures IsRowDiff(FirmMemberTupleDelta(previous, next),
                      if previous.Some? then MemberRowTuples(previous.value) else {}, MemberRowTuples(next))
  {
    var before := if previous.Some? then RoleTuple(previous.value) else None;
    var after := RoleTuple(next);
    assert forall t :: t in AsSeq(before) <==> before == Some(t);
    assert forall t :: t in AsSeq(after) <==> after == Some(t);
  }

  /** Two users' lead tuples on one case differ, and neither is the case's firm link. */
  lemma LeadSetsDisjoint(u: string, v: string, caseId: string)
    requires u == v ==> u == ""
    ensures LeadSet(u, caseId) !! LeadSet(v, caseId)
    ensures FirmTuple(caseId) !in LeadSet(u, caseId)
    ensures SetOf(LeadTuples(u, caseId)) == LeadSet(u, caseId)
  {
    RefRoundTrip("user", u, "user", v);
    RefRoundTrip("user", u, "firm", "firm");
    assert SetOf(LeadTuples(u, caseId)) == LeadSet(u, caseId);
  }

  /**
   * A lead transition is an exact row difference because two FirmMember ids
   * never stand for one user: otherwise the delta would write and delete the
   * same lead tuple.
   */
  lemma CaseDeltaIsRowDiff(rows: Rows, previous: Option<Case>, next: Case)
    requires UniqueUsers(rows)
    requires previous.Some? ==> previous.value.id == next.id
    requires previous.None? ==> "" !in rows.members
    ensures IsRowDiff(CaseDelta(rows, previous, next),
                      if previous.Some? then CaseRowTuples(rows, previous.value) else {}, CaseRowTuples(rows, next))
  {
    var previousLead := if previous.Some? then previous.value.leadLawyerId else "";
    var d := CaseDelta(rows, previous, next);
    if next.id != "" {
      var u, v := UserOf(rows, previousLead), UserOf(rows, next.leadLawyerId);
      if previousLead == next.leadLawyerId {
        assert SetOf(d.writes) == if previous.None? then {FirmTuple(next.id)} else {};
        assert SetOf(d.deletes) == {};
      } else {
        LeadSetsDisjoint(u, v, next.id);
        LeadSetsDisjoint(v, u, next.id);
        var link := if previous.None? then [FirmTuple(next.id)] else [];
        assert d.writes == link + LeadTuples(v, next.id);
        assert SetOf(d.writes) == SetOf(link) + LeadSet(v, next.id);
      }
    }
  }

  lemma CaseMemberDeltaIsRowDiff(rows: Rows, previous: Option<CaseMember>, next: CaseMember)
    requires previous.Some? ==> previous.value.caseId == next.caseId && previous.value.memberId == next.memberId
    ensures IsRowDiff(CaseMemberTupleDelta(rows, previous, next),
                      if previous.Some? then MembershipRowTuples(rows, previous.value) else {},
                      MembershipRowTuples(rows, next))
  {
  }

  /**
   * The incremental step: when one row changes, every other row supports what
   * it did, and no tuple of the changed row is supported by another, applying
   * the row's difference to the old projection gives the new one.
   */
  lemma RowDiffSyncs(before: Rows, after: Rows, changed: RowRef, delta: TupleDelta)
    requires forall r :: r != changed ==> Support(before, r) == Support(after, r)
    requires forall r, t :: r != changed && t in Support(before, changed) ==> t !in Support(before, r)
    requires IsRowDiff(delta, Support(before, changed), Support(after, changed))
    ensures Projected(before) + SetOf(delta.writes) - SetOf(delta.deletes) == Projected(after)
  {
    forall t ensures t in Projected(before) + SetOf(delta.writes) - SetOf(delta.deletes) <==> t in Projected(after) {
      ProjectedIsSupport(before, t);
      ProjectedIsSupport(after, t);
      if t in Projected(before) {
        var r :| t in Support(before, r);
        if r != changed { assert t in Support(after, r); }
      }
      if t in Projected(after) {
        var r :| t in Support(after, r);
        if r != changed { assert t in Support(before, r); }
      }
    }
  }

  /* -------------------------- the delta of a write -------------------------- */

  function Prior<T>(table: map<string, T>, id: string): Option<T> {
    if id in table then Some(table[id]) else None
  }

  /** The sync step's delta, resolved against the rows as just persisted. */
  function DeltaOf(before: Rows, w: RowWrite): TupleDelta {
    var after := Apply(before, w);
    match w
    case PutMember(m) => FirmMemberTupleDelta(Prior(before.members, m.id), m)
    case PutCase(c) => CaseDelta(after, Prior(before.cases, c.id), c)
    case PutMembership(m) => CaseMemberTupleDelta(after, Prior(before.memberships, m.id), m)
  }

  function Written(w: RowWrite): RowRef {
    match w
    case PutMember(m) => MemberRow(m.id)
    case PutCase(c) => CaseRow(c.id)
    case PutMembership(m) => MembershipRow(m.id)
  }

  /** The write does not rebind a stored member to another user. */
  predicate KeepsUsers(rows: Rows, w: RowWrite) {
    w.PutMember? && w.member.id in rows.members ==> rows.members[w.member.id].userId == w.member.userId
  }

  /** Only the written row's support changes. */
  lemma OthersUnchanged(rows: Rows, w: RowWrite, r: RowRef)
    requires ReferencesResolve(rows) && KeepsUsers(rows, w) && r != Written(w)
    ensures Support(Apply(rows, w), r) == Support(rows, r)
  {
  }

  lemma DeltaIsRowDiff(rows: Rows, w: RowWrite)
    requires RowsOk(rows) && Admissible(rows, w) && KeepsUsers(rows, w)
    ensures IsRowDiff(DeltaOf(rows, w), Support(rows, Written(w)), Support(Apply(rows, w), Written(w)))
  {
    var after := Apply(rows, w);
    match w
    case PutMember(m) =>
      FirmMemberDeltaIsRowDiff(Prior(rows.members, m.id), m);
    case PutCase(c) =>
      CaseDeltaIsRowDiff(after, Prior(rows.cases, c.id), c);
    case PutMembership(m) =>
      CaseMemberDeltaIsRowDiff(after, Prior(rows.memberships, m.id), m);
  }

  /** One write and its delta take the projection of the rows to the projection of the new rows. */
  lemma DeltaSyncs(rows: Rows, w: RowWrite)
    requires RowsOk(rows) && Admissible(rows, w) && KeepsUsers(rows, w)
    ensures Projected(rows) + SetOf(DeltaOf(rows, w).writes) - SetOf(DeltaOf(rows, w).deletes)
            == Projected(Apply(rows, w))
  {
    DeltaIsRowDiff(rows, w);
    forall r | r != Written(w) ensures Support(rows, r) == Support(Apply(rows, w), r) {
      OthersUnchanged(rows, w, r);
    }
    forall r, t | r != Written(w) && t in Support(rows, Written(w)) ensures t !in Support(rows, r) {
      if t in Support(rows, r) {
        OneSupporter(rows, t, r, Written(w));
      }
    }
    RowDiffSyncs(rows, Apply(rows, w), Written(w), DeltaOf(rows, w));
  }
}
