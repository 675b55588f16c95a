/**
 * The firm's relationship model (apps/law/backend/src/domain/authz/model.ts) as
 * rewrite rules, and their evaluation over a tuple set: direct tuples, another
 * relation on the same object, a relation on the object's firm, union and
 * intersection.
 */
module AuthzModel {
  import opened Tuples

  datatype Relation =
    // type firm
    | ManagingPartnerRole | PartnerRole | AssociateRole | JuniorRole | ClerkRole | OfficeStaffRole
    | Partners | Lawyers | CaseWorkers | AnyMember
    | CanManageFirmMembers | CanCreateCase | CanManageClients | CanViewClients
    | CanListCases | CanViewMoney | CanRecordLedger | CanViewAudit
    // type case
    | CaseFirm | CaseMembership | CaseLead
    | CanWorkContent | CanEnterDeadline | CanEdit | CanManageMembers

  datatype Rewrite =
    | Direct
    | Computed(relation: Relation)
    | FromFirm(relation: Relation)
    | Or(left: Rewrite, right: Rewrite)
    | And(left: Rewrite, right: Rewrite)

  /** The relation's name as the tuples spell it; only direct relations have tuples. */
  function DirectName(r: Relation): string {
    match r
    case ManagingPartnerRole => "managing_partner"
    case PartnerRole => "partner"
    case AssociateRole => "associate"
    case JuniorRole => "junior"
    case ClerkRole => "clerk"
    case OfficeStaffRole => "office_staff"
    case CaseFirm => "firm"
    case CaseMembership => "member"
    case CaseLead => "lead"
    case _ => ""
  }

  function Definition(r: Relation): Rewrite {
    match r
    case Partners => Or(Computed(ManagingPartnerRole), Computed(PartnerRole))
    case Lawyers => Or(Or(Computed(Partners), Computed(AssociateRole)), Computed(JuniorRole))
    case CaseWorkers => Or(Computed(Lawyers), Computed(ClerkRole))
    case AnyMember => Or(Computed(CaseWorkers), Computed(OfficeStaffRole))
    case CanManageFirmMembers => Computed(ManagingPartnerRole)
    case CanCreateCase => Or(Computed(Partners), Computed(AssociateRole))
    case CanManageClients => Or(Computed(Partners), Computed(AssociateRole))
    case CanViewClients => Computed(Lawyers)
    case CanListCases => Computed(CaseWorkers)
    case CanViewMoney => Computed(Partners)
    case CanRecordLedger => Or(Computed(Partners), Computed(OfficeStaffRole))
    case CanViewAudit => Computed(Partners)
    case CanWorkContent => Or(And(Computed(CaseMembership), FromFirm(CaseWorkers)), FromFirm(Partners))
    case CanEnterDeadline => Or(And(Computed(CaseMembership), FromFirm(Lawyers)), FromFirm(Partners))
    case CanEdit => Or(Computed(CaseLead), FromFirm(Partners))
    case CanManageMembers => Or(Computed(CaseLead), FromFirm(Partners))
    case _ => Direct
  }

  /** Definitions only mention relations of a lower level, so evaluation ends. */
  function Level(r: Relation): nat {
    match r
    case Partners => 1
    case Lawyers => 2
    case CaseWorkers => 3
    case AnyMember => 4
    case _ => if Definition(r).Direct? then 0 else 5
  }

  predicate Below(w: Rewrite, level: nat) {
    match w
    case Direct => true
    case Computed(r) => Level(r) < level
    case FromFirm(r) => Level(r) < level
    case Or(a, b) => Below(a, level) && Below(b, level)
    case And(a, b) => Below(a, level) && Below(b, level)
  }

  lemma DefinitionsBelow(r: Relation)
    ensures Below(Definition(r), Level(r))
  {
  }

  /** True when `user` holds `r` on `target`. */
  predicate Check(tuples: set<TupleKey>, user: string, r: Relation, target: string)
    decreases Level(r), 1, Definition(r), user
  {
    DefinitionsBelow(r);
    Holds(tuples, user, r, Definition(r), target)
  }

  predicate Holds(tuples: set<TupleKey>, user: string, r: Relation, w: Rewrite, target: string)
    requires Below(w, Level(r))
    decreases Level(r), 0, w, user
  {
    match w
    case Direct => TupleKey(user, DirectName(r), target) in tuples
    case Computed(q) => Check(tuples, user, q, target)
    case FromFirm(q) =>
      exists t | t in tuples :: t.relation == "firm" && t.target == target && Check(tuples, user, q, t.user)
    case Or(a, b) => Holds(tuples, user, r, a, target) || Holds(tuples, user, r, b, target)
    case And(a, b) => Holds(tuples, user, r, a, target) && Holds(tuples, user, r, b, target)
  }

  function TypePrefix(kind: string): string {
    kind + ":"
  }

  /** Every object of `kind` named in the tuples on which the user holds `r`. */
  function ListObjects(tuples: set<TupleKey>, user: string, r: Relation, kind: string): (objects: set<string>)
    ensures forall o :: o in objects <==>
      TypePrefix(kind) <= o && (exists t :: t in tuples && t.target == o) && Check(tuples, user, r, o)
  {
    set t | t in tuples && TypePrefix(kind) <= t.target && Check(tuples, user, r, t.target) :: t.target
  }

  /* ------------------ what the rules amount to, by direct tuples ------------------ */

  predicate HasRole(tuples: set<TupleKey>, user: string, r: Relation, firm: string) {
    TupleKey(user, DirectName(r), firm) in tuples
  }

  lemma CheckDirect(tuples: set<TupleKey>, user: string, r: Relation, target: string)
    requires Definition(r).Direct?
    ensures Check(tuples, user, r, target) <==> HasRole(tuples, user, r, target)
  {
  }

  lemma HoldsComputed(tuples: set<TupleKey>, user: string, r: Relation, q: Relation, target: string)
    requires Level(q) < Level(r)
    ensures Holds(tuples, user, r, Computed(q), target) <==> Check(tuples, user, q, target)
  {
  }

  lemma HoldsEither(tuples: set<TupleKey>, user: string, r: Relation, a: Rewrite, b: Rewrite, target: string)
    requires Below(a, Level(r)) && Below(b, Level(r))
    ensures Holds(tuples, user, r, Or(a, b), target) <==>
            Holds(tuples, user, r, a, target) || Holds(tuples, user, r, b, target)
  {
  }

  lemma HoldsBoth(tuples: set<TupleKey>, user: string, r: Relation, a: Rewrite, b: Rewrite, target: string)
    requires Below(a, Level(r)) && Below(b, Level(r))
    ensures Holds(tuples, user, r, And(a, b), target) <==>
            Holds(tuples, user, r, a, target) && Holds(tuples, user, r, b, target)
  {
  }

  /** A union of a rewrite and one further relation. */
  lemma CheckUnion(tuples: set<TupleKey>, user: string, r: Relation, a: Rewrite, b: Relation, target: string)
    requires Definition(r) == Or(a, Computed(b))
    ensures Below(a, Level(r)) && Level(b) < Level(r)
    ensures Check(tuples, user, r, target) <==> Holds(tuples, user, r, a, target) || Check(tuples, user, b, target)
  {
    DefinitionsBelow(r);
    HoldsEither(tuples, user, r, a, Computed(b), target);
    HoldsComputed(tuples, user, r, b, target);
  }

  lemma CheckEither(tuples: set<TupleKey>, user: string, r: Relation, a: Relation, b: Relation, target: string)
    requires Definition(r) == Or(Computed(a), Computed(b))
    ensures Check(tuples, user, r, target) <==> Check(tuples, user, a, target) || Check(tuples, user, b, target)
  {
    CheckUnion(tuples, user, r, Computed(a), b, target);
    HoldsComputed(tuples, user, r, a, target);
  }

  lemma PartnersAre(tuples: set<TupleKey>, user: string, firm: string)
    ensures Check(tuples, user, Partners, firm) <==>
            HasRole(tuples, user, ManagingPartnerRole, firm) || HasRole(tuples, user, PartnerRole, firm)
  {
    CheckEither(tuples, user, Partners, ManagingPartnerRole, PartnerRole, firm);
    CheckDirect(tuples, user, ManagingPartnerRole, firm);
    CheckDirect(tuples, user, PartnerRole, firm);
  }

  lemma LawyersAre(tuples: set<TupleKey>, user: string, firm: string)
    ensures Check(tuples, user, Lawyers, firm) <==>
            Check(tuples, user, Partners, firm)
            || HasRole(tuples, user, AssociateRole, firm) || HasRole(tuples, user, JuniorRole, firm)
  {
    var seniors := Or(Computed(Partners), Computed(AssociateRole));
    CheckUnion(tuples, user, Lawyers, seniors, JuniorRole, firm);
    HoldsEither(tuples, user, Lawyers, Computed(Partners), Computed(AssociateRole), firm);
    HoldsComputed(tuples, user, Lawyers, Partners, firm);
    HoldsComputed(tuples, user, Lawyers, AssociateRole, firm);
    CheckDirect(tuples, user, AssociateRole, firm);
    CheckDirect(tuples, user, JuniorRole, firm);
  }

  lemma CaseWorkersAre(tuples: set<TupleKey>, user: string, firm: string)
    ensures Check(tuples, user, CaseWorkers, firm) <==>
            Check(tuples, user, Lawyers, firm) || HasRole(tuples, user, ClerkRole, firm)
  {
    CheckEither(tuples, user, CaseWorkers, Lawyers, ClerkRole, firm);
    CheckDirect(tuples, user, ClerkRole, firm);
  }

  /** Every firm link of the object leads to the one firm. */
  predicate LinkedOnlyTo(tuples: set<TupleKey>, target: string, firm: string) {
    forall t | t in tuples :: t.relation == "firm" && t.target == target ==> t.user == firm
  }

  lemma FromTheFirm(tuples: set<TupleKey>, user: string, r: Relation, q: Relation, target: string, firm: string)
    requires Level(q) < Level(r) && LinkedOnlyTo(tuples, target, firm)
    ensures Holds(tuples, user, r, FromFirm(q), target) <==>
            TupleKey(firm, "firm", target) in tuples && Check(tuples, user, q, firm)
  {
  }

  lemma MemberInGroup(tuples: set<TupleKey>, user: string, verb: Relation, group: Relation, target: string, firm: string)
    requires LinkedOnlyTo(tuples, target, firm)
    requires Level(group) < Level(verb) && Level(verb) == 5
    ensures Holds(tuples, user, verb, And(Computed(CaseMembership), FromFirm(group)), target) <==>
            TupleKey(user, "member", target) in tuples
            && TupleKey(firm, "firm", target) in tuples && Check(tuples, user, group, firm)
  {
    HoldsBoth(tuples, user, verb, Computed(CaseMembership), FromFirm(group), target);
    HoldsComputed(tuples, user, verb, CaseMembership, target);
    FromTheFirm(tuples, user, verb, group, target, firm);
    CheckDirect(tuples, user, CaseMembership, target);
  }

  /** The case verbs by direct tuples: membership with the verb's role group, or the firm's partners. */
  lemma CaseContentVerb(tuples: set<TupleKey>, user: string, verb: Relation, target: string, firm: string)
    requires LinkedOnlyTo(tuples, target, firm)
    requires verb == CanWorkContent || verb == CanEnterDeadline
    ensures Check(tuples, user, verb, target) <==>
            TupleKey(firm, "firm", target) in tuples
            && ((TupleKey(user, "member", target) in tuples
                 && Check(tuples, user, if verb == CanWorkContent then CaseWorkers else Lawyers, firm))
                || Check(tuples, user, Partners, firm))
  {
    var group := if verb == CanWorkContent then CaseWorkers else Lawyers;
    HoldsEither(tuples, user, verb, And(Computed(CaseMembership), FromFirm(group)), FromFirm(Partners), target);
    MemberInGroup(tuples, user, verb, group, target, firm);
    FromTheFirm(tuples, user, verb, Partners, target, firm);
    assert Definition(verb) == Or(And(Computed(CaseMembership), FromFirm(group)), FromFirm(Partners));
  }

  lemma CaseManagementVerb(tuples: set<TupleKey>, user: string, verb: Relation, target: string, firm: string)
    requires LinkedOnlyTo(tuples, target, firm)
    requires verb == CanEdit || verb == CanManageMembers
    ensures Check(tuples, user, verb, target) <==>
            TupleKey(user, "lead", target) in tuples
            || (TupleKey(firm, "firm", target) in tuples && Check(tuples, user, Partners, firm))
  {
    HoldsEither(tuples, user, verb, Computed(CaseLead), FromFirm(Partners), target);
    HoldsComputed(tuples, user, verb, CaseLead, target);
    FromTheFirm(tuples, user, verb, Partners, target, firm);
    CheckDirect(tuples, user, CaseLead, target);
    assert Definition(verb) == Or(Computed(CaseLead), FromFirm(Partners));
  }

  /** The model has no negation: more tuples never take a permission away. */
  lemma {:induction false} CheckMonotone(small: set<TupleKey>, large: set<TupleKey>, user: string, r: Relation, target: string)
    requires small <= large && Check(small, user, r, target)
    ensures Check(large, user, r, target)
    decreases Level(r), 1, Definition(r), user
  {
    DefinitionsBelow(r);
    HoldsMonotone(small, large, user, r, Definition(r), target);
  }

  lemma {:induction false} HoldsMonotone(small: set<TupleKey>, large: set<TupleKey>, user: string, r: Relation, w: Rewrite, target: string)
    requires Below(w, Level(r))
    requires small <= large && Holds(small, user, r, w, target)
    ensures Holds(large, user, r, w, target)
    decreases Level(r), 0, w, user
  {
    match w
    case Direct =>
    case Computed(q) => CheckMonotone(small, large, user, q, target);
    case FromFirm(q) =>
      var t :| t in small && t.relation == "firm" && t.target == target && Check(small, user, q, t.user);
      CheckMonotone(small, large, user, q, t.user);
      assert t in large;
    case Or(a, b) =>
      if Holds(small, user, r, a, target) {
        HoldsMonotone(small, large, user, r, a, target);
      } else {
        HoldsMonotone(small, large, user, r, b, target);
      }
    case And(a, b) =>
      HoldsMonotone(small, large, user, r, a, target);
      HoldsMonotone(small, large, user, r, b, target);
  }
}
