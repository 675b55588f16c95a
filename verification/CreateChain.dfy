/**
 * The create chain under concurrency (packages/resource-api/src/resource.ts):
 * any number of creates, each a sequence of steps against one shared table, in
 * any interleaving. Rows are not updated or deleted meanwhile.
 */
module CreateChain {
  import opened Wrappers
  import opened Store

  datatype Mode = Refuse | Idempotent

  /**
   * A validated, authorized create. `inputKey` is the natural key of the input
   * ("" when it has none); `prepared` is the row the shaping steps build from it.
   */
  datatype Request = Request(inputKey: string, prepared: Row)

  datatype Answer =
    | Created(row: Row)
    | Recorded(row: Row)
    | Exists
    | ExistsWithDifferentContent
    /** The minted id was stored already. */
    | Failed
    /** A step before the write threw. */
    | Aborted

  datatype Proc =
    | Waiting(request: Request)
    | Shaped(request: Request, holder: Option<Row>)
    | Raced(request: Request, value: string)
    | Persisted(request: Request)
    | Unannounced(request: Request)
    | Done(request: Request, answer: Answer)

  datatype Creates = Creates(
    mode: Mode,
    table: Table,
    procs: map<nat, Proc>,
    inserted: seq<string>,
    announced: seq<string>)

  /** `Abort` is a step that throws: before the write nothing is written, after it nothing is announced. */
  datatype Event = Check(p: nat) | Persist(p: nat) | Reread(p: nat) | Announce(p: nat) | Abort(p: nat)

  /** The verdict on a held key, the same for the pre-check and for the race. */
  function SettleOnHolder(r: Request, holder: Row): Answer {
    if holder.fields == r.prepared.fields then Recorded(holder) else ExistsWithDifferentContent
  }

  function Checked(s: Creates, r: Request): Proc {
    var holder := if r.inputKey == "" then None else HolderOf(s.table, r.inputKey);
    if holder.Some? && s.mode == Refuse then Done(r, Exists) else Shaped(r, holder)
  }

  predicate Enabled(s: Creates, e: Event) {
    e.p in s.procs &&
    var proc := s.procs[e.p];
    match e
    case Check(_) => proc.Waiting?
    case Persist(_) => proc.Shaped?
    case Reread(_) => proc.Raced?
    case Announce(_) => proc.Persisted?
    case Abort(_) => proc.Waiting? || proc.Shaped? || proc.Persisted?
  }

  function Become(s: Creates, p: nat, proc: Proc): Creates {
    s.(procs := s.procs[p := proc])
  }

  /** Resolve-duplicate, then the insert with its race arm. */
  function AfterPersist(s: Creates, p: nat): Creates
    requires p in s.procs && s.procs[p].Shaped?
  {
    var r := s.procs[p].request;
    if s.procs[p].holder.Some? then Become(s, p, Done(r, SettleOnHolder(r, s.procs[p].holder.value)))
    else
      match Inserted(s.table, r.prepared).0
      case Written =>
        Become(s, p, Persisted(r)).(table := Inserted(s.table, r.prepared).1, inserted := s.inserted + [r.prepared.id])
      case DuplicateId(_) => Become(s, p, Done(r, Failed))
      case DuplicateKey(value) => Become(s, p, if s.mode == Idempotent then Raced(r, value) else Done(r, Exists))
  }

  function Next(s: Creates, e: Event): Creates
    requires Enabled(s, e)
  {
    var proc := s.procs[e.p];
    var r := proc.request;
    match e
    case Check(p) => Become(s, p, Checked(s, r))
    case Persist(p) => AfterPersist(s, p)
    case Reread(p) =>
      var holder := HolderOf(s.table, proc.value);
      Become(s, p, Done(r, if holder.Some? then SettleOnHolder(r, holder.value) else Exists))
    case Announce(p) => Become(s, p, Done(r, Created(r.prepared))).(announced := s.announced + [r.prepared.id])
    case Abort(p) => Become(s, p, if proc.Persisted? then Unannounced(r) else Done(r, Aborted))
  }

  /* -------------------------------- the invariant ------------------------------- */

  /** The row holds the key the request asked for, or the one it would have persisted. */
  predicate HoldsFor(h: Row, r: Request) {
    h.key == Some(r.inputKey) || (h.key == r.prepared.key && h.key.Some?)
  }

  predicate Owns(proc: Proc) {
    proc.Persisted? || proc.Unannounced? || (proc.Done? && proc.answer.Created?)
  }

  ghost predicate ProcOk(s: Creates, proc: Proc) {
    var r := proc.request;
    match proc
    case Waiting(_) => true
    case Shaped(_, holder) =>
      holder.Some? ==> s.mode == Idempotent && holder.value in s.table && holder.value.key == Some(r.inputKey)
    case Raced(_, value) =>
      s.mode == Idempotent && r.prepared.key == Some(value) && exists h :: h in s.table && h.key == Some(value)
    case Persisted(_) => r.prepared in s.table && r.prepared.id in s.inserted && r.prepared.id !in s.announced
    case Unannounced(_) => r.prepared in s.table && r.prepared.id in s.inserted && r.prepared.id !in s.announced
    case Done(_, answer) =>
      match answer
      case Created(row) => row == r.prepared && row in s.table && row.id in s.inserted && row.id in s.announced
      case Recorded(row) => s.mode == Idempotent && row in s.table && row.fields == r.prepared.fields && HoldsFor(row, r)
      case Exists => s.mode == Refuse && exists h :: h in s.table && HoldsFor(h, r)
      case ExistsWithDifferentContent =>
        s.mode == Idempotent && exists h :: h in s.table && HoldsFor(h, r) && h.fields != r.prepared.fields
      case Failed => HasId(s.table, r.prepared.id)
      case Aborted => true
  }

  /** What was inserted is what stands after the rows that were there before, in order. */
  ghost predicate Grown(s: Creates, before: Table) {
    && |s.table| == |before| + |s.inserted|
    && before == s.table[..|before|]
    && forall i | 0 <= i < |s.inserted| :: s.table[|before| + i].id == s.inserted[i]
  }

  /** A create that has written this row and not announced it. */
  predicate Pending(s: Creates, id: string) {
    exists p | p in s.procs :: (s.procs[p].Persisted? || s.procs[p].Unannounced?) && s.procs[p].request.prepared.id == id
  }

  /** Nothing is announced twice, and only what was inserted. */
  ghost predicate AnnouncedOnce(s: Creates) {
    && (forall i, k | 0 <= i < k < |s.announced| :: s.announced[i] != s.announced[k])
    && (forall id | id in s.announced :: id in s.inserted)
  }

  ghost predicate InsertedCovered(s: Creates) {
    forall id | id in s.inserted :: id in s.announced || Pending(s, id)
  }

  /** No two creates own one row. */
  ghost predicate OneOwner(s: Creates) {
    forall p, q | p in s.procs && q in s.procs && Owns(s.procs[p]) && Owns(s.procs[q]) ::
      s.procs[p].request.prepared.id == s.procs[q].request.prepared.id ==> p == q
  }

  ghost predicate Accounted(s: Creates) {
    AnnouncedOnce(s) && InsertedCovered(s) && OneOwner(s)
  }

  ghost predicate Inv(s: Creates, before: Table) {
    && ValidTable(s.table) && Grown(s, before) && Accounted(s)
    && forall p | p in s.procs :: ProcOk(s, s.procs[p])
  }

  /** Creates about to start on a valid table. */
  lemma StartsOk(s: Creates)
    requires ValidTable(s.table) && s.inserted == [] && s.announced == []
    requires forall p | p in s.procs :: s.procs[p].Waiting?
    ensures Inv(s, s.table)
  {
  }

  /** A proc's facts only speak of rows that stay. */
  lemma ProcStaysOk(s: Creates, next: Creates, proc: Proc)
    requires ProcOk(s, proc) && next.mode == s.mode
    requires forall h | h in s.table :: h in next.table
    requires forall id | id in s.inserted :: id in next.inserted
    requires forall id | id in s.announced :: id in next.announced
    requires proc.Persisted? || proc.Unannounced? ==> proc.request.prepared.id !in next.announced
    ensures ProcOk(next, proc)
  {
  }

  lemma QuietStepAccounted(s: Creates, p: nat, proc: Proc)
    requires Accounted(s) && p in s.procs && proc.request == s.procs[p].request
    requires Owns(proc) <==> Owns(s.procs[p])
    requires proc.Persisted? || proc.Unannounced? <==> s.procs[p].Persisted? || s.procs[p].Unannounced?
    ensures Accounted(Become(s, p, proc))
  {
    var next := Become(s, p, proc);
    forall id | Pending(s, id) ensures Pending(next, id) {
      var q :| q in s.procs && (s.procs[q].Persisted? || s.procs[q].Unannounced?) && s.procs[q].request.prepared.id == id;
      assert q in next.procs && next.procs[q].request.prepared.id == id;
    }
  }

  lemma QuietStepKeeps(s: Creates, p: nat, proc: Proc, before: Table)
    requires Inv(s, before) && p in s.procs && ProcOk(s, proc) && proc.request == s.procs[p].request
    requires Owns(proc) <==> Owns(s.procs[p])
    requires proc.Persisted? || proc.Unannounced? <==> s.procs[p].Persisted? || s.procs[p].Unannounced?
    ensures Inv(Become(s, p, proc), before)
  {
    var next := Become(s, p, proc);
    forall q | q in next.procs ensures ProcOk(next, next.procs[q]) {
      ProcStaysOk(s, next, next.procs[q]);
    }
    QuietStepAccounted(s, p, proc);
  }

  lemma InsertedAreStored(s: Creates, before: Table)
    requires Grown(s, before)
    ensures forall id | id in s.inserted :: HasId(s.table, id)
  {
  }

  lemma OwnersAreStored(s: Creates)
    requires forall p | p in s.procs :: ProcOk(s, s.procs[p])
    ensures forall p | p in s.procs && Owns(s.procs[p]) :: HasId(s.table, s.procs[p].request.prepared.id)
  {
  }

  lemma InsertAccounted(s: Creates, p: nat, r: Request, table: Table)
    requires Accounted(s) && p in s.procs && s.procs[p].request == r && !Owns(s.procs[p])
    requires r.prepared.id !in s.inserted
    requires forall q | q in s.procs && Owns(s.procs[q]) :: s.procs[q].request.prepared.id != r.prepared.id
    ensures Accounted(Become(s, p, Persisted(r)).(table := table, inserted := s.inserted + [r.prepared.id]))
  {
    var next := Become(s, p, Persisted(r)).(table := table, inserted := s.inserted + [r.prepared.id]);
    forall id | Pending(s, id) || id == r.prepared.id ensures Pending(next, id) {
      if id == r.prepared.id {
        assert next.procs[p].Persisted?;
      } else {
        var q :| q in s.procs && (s.procs[q].Persisted? || s.procs[q].Unannounced?) && s.procs[q].request.prepared.id == id;
        assert q in next.procs && next.procs[q] == s.procs[q];
      }
    }
  }

  lemma InsertKeeps(s: Creates, p: nat, before: Table)
    requires Inv(s, before) && p in s.procs && s.procs[p].Shaped? && s.procs[p].holder.None?
    requires Inserted(s.table, s.procs[p].request.prepared).0.Written?
    ensures Inv(AfterPersist(s, p), before)
  {
    var r, next := s.procs[p].request, AfterPersist(s, p);
    WritesKeepValid(s.table, r.prepared);
    InsertedAreStored(s, before);
    OwnersAreStored(s);
    InsertAccounted(s, p, r, next.table);
    InsertGrows(s, next, before, r.prepared);
    OthersStayOk(s, next, p);
    assert ProcOk(next, next.procs[p]);
  }

  lemma OthersStayOk(s: Creates, next: Creates, p: nat)
    requires forall q | q in s.procs :: ProcOk(s, s.procs[q])
    requires next.mode == s.mode && next.announced == s.announced
    requires forall h | h in s.table :: h in next.table
    requires forall id | id in s.inserted :: id in next.inserted
    requires forall q | q in next.procs && q != p :: q in s.procs && next.procs[q] == s.procs[q]
    ensures forall q | q in next.procs && q != p :: ProcOk(next, next.procs[q])
  {
    forall q | q in next.procs && q != p ensures ProcOk(next, next.procs[q]) {
      assert ProcOk(s, s.procs[q]);
      ProcStaysOk(s, next, next.procs[q]);
    }
  }

  lemma InsertGrows(s: Creates, next: Creates, before: Table, row: Row)
    requires Grown(s, before) && next.table == s.table + [row] && next.inserted == s.inserted + [row.id]
    ensures Grown(next, before) && row in next.table && row.id in next.inserted
    ensures forall h | h in s.table :: h in next.table
    ensures forall id | id in s.inserted :: id in next.inserted
  {
  }

  lemma AnnounceAccounted(s: Creates, p: nat, r: Request)
    requires Accounted(s) && p in s.procs && s.procs[p] == Persisted(r)
    requires r.prepared.id in s.inserted && r.prepared.id !in s.announced
    ensures Accounted(Become(s, p, Done(r, Created(r.prepared))).(announced := s.announced + [r.prepared.id]))
  {
    var next := Become(s, p, Done(r, Created(r.prepared))).(announced := s.announced + [r.prepared.id]);
    forall id | Pending(s, id) && id != r.prepared.id ensures Pending(next, id) {
      var q :| q in s.procs && (s.procs[q].Persisted? || s.procs[q].Unannounced?) && s.procs[q].request.prepared.id == id;
      assert q in next.procs && next.procs[q] == s.procs[q];
    }
    assert forall id | id in next.announced :: id in s.announced || id == r.prepared.id;
  }

  lemma AnnounceKeeps(s: Creates, p: nat, before: Table)
    requires Inv(s, before) && p in s.procs && s.procs[p].Persisted?
    ensures Inv(Next(s, Announce(p)), before)
  {
    var r, next := s.procs[p].request, Next(s, Announce(p));
    assert ProcOk(s, s.procs[p]) && Owns(s.procs[p]);
    AnnounceAccounted(s, p, r);
    assert r.prepared.id in next.announced;
    forall q | q in next.procs && q != p ensures ProcOk(next, next.procs[q]) {
      ProcStaysOk(s, next, next.procs[q]);
    }
  }

  lemma PersistKeeps(s: Creates, p: nat, before: Table)
    requires Inv(s, before) && p in s.procs && s.procs[p].Shaped?
    ensures Inv(AfterPersist(s, p), before)
  {
    var proc := s.procs[p];
    assert ProcOk(s, proc);
    if proc.holder.None? && Inserted(s.table, proc.request.prepared).0.Written? {
      InsertKeeps(s, p, before);
    } else {
      QuietStepKeeps(s, p, AfterPersist(s, p).procs[p], before);
    }
  }

  lemma StepKeepsInv(s: Creates, e: Event, before: Table)
    requires Inv(s, before) && Enabled(s, e)
    ensures Inv(Next(s, e), before)
  {
    assert ProcOk(s, s.procs[e.p]);
    match e
    case Persist(p) => PersistKeeps(s, p, before);
    case Announce(p) => AnnounceKeeps(s, p, before);
    case Check(p) => QuietStepKeeps(s, p, Next(s, e).procs[p], before);
    case Reread(p) => QuietStepKeeps(s, p, Next(s, e).procs[p], before);
    case Abort(p) => QuietStepKeeps(s, p, Next(s, e).procs[p], before);
  }

  function Run(s: Creates, events: seq<Event>): Creates
    decreases |events|
  {
    if events == [] then s else Run(if Enabled(s, events[0]) then Next(s, events[0]) else s, events[1..])
  }

  /** Any interleaving keeps the invariant, and with it one row per natural key. */
  lemma {:induction false} RunKeepsInv(s: Creates, events: seq<Event>, before: Table)
    requires Inv(s, before)
    ensures Inv(Run(s, events), before) && Run(s, events).mode == s.mode
    ensures before <= Run(s, events).table
    decreases |events|
  {
    if events != [] {
      if Enabled(s, events[0]) {
        StepKeepsInv(s, events[0], before);
        RunKeepsInv(Next(s, events[0]), events[1..], before);
      } else {
        RunKeepsInv(s, events[1..], before);
      }
    }
  }

  /* ------------------------------- what it gives --------------------------------- */

  predicate Succeeded(proc: Proc) {
    proc.Done? && (proc.answer.Created? || proc.answer.Recorded?)
  }

  /** The shaping steps kept the input's key. */
  predicate KeepsKey(r: Request) {
    r.inputKey != "" && r.prepared.key == Some(r.inputKey)
  }

  lemma SuccessHoldsKey(s: Creates, p: nat, before: Table)
    requires Inv(s, before) && p in s.procs && Succeeded(s.procs[p]) && KeepsKey(s.procs[p].request)
    ensures var row := s.procs[p].answer.row;
            row in s.table && row.key == Some(s.procs[p].request.inputKey)
            && row.fields == s.procs[p].request.prepared.fields
  {
  }

  /**
   * Two successes on one key answer one and the same row, whose content is what
   * each of them asked for; and two of them happen only in an idempotent kind.
   */
  lemma SuccessesAgree(s: Creates, p: nat, q: nat, before: Table)
    requires Inv(s, before) && p in s.procs && q in s.procs && p != q
    requires s.procs[p].Done? && (s.procs[p].answer.Created? || s.procs[p].answer.Recorded?)
    requires s.procs[q].Done? && (s.procs[q].answer.Created? || s.procs[q].answer.Recorded?)
    requires KeepsKey(s.procs[p].request) && KeepsKey(s.procs[q].request)
    requires s.procs[p].request.inputKey == s.procs[q].request.inputKey
    ensures s.mode == Idempotent
    ensures s.procs[p].answer.row == s.procs[q].answer.row
    ensures s.procs[p].request.prepared.fields == s.procs[q].request.prepared.fields == s.procs[p].answer.row.fields
  {
    SuccessHoldsKey(s, p, before);
    SuccessHoldsKey(s, q, before);
    SameRow(s.table, s.procs[p].answer.row, s.procs[q].answer.row);
    assert ProcOk(s, s.procs[p]) && ProcOk(s, s.procs[q]);
    assert Owns(s.procs[p]) && Owns(s.procs[q]) ==> p == q;
  }

  /** Minted ids are all different, and none is stored before its own create has written it. */
  ghost predicate Minted(s: Creates) {
    && (forall p, q | p in s.procs && q in s.procs && p != q ::
          s.procs[p].request.prepared.id != s.procs[q].request.prepared.id)
    && (forall p | p in s.procs && !Owns(s.procs[p]) :: !HasId(s.table, s.procs[p].request.prepared.id))
  }

  /** A proc moves on with its own request; the table stays, or grows by its row once it owns it. */
  lemma MovesKeepMinted(s: Creates, next: Creates, p: nat)
    requires Minted(s) && p in s.procs && p in next.procs && next.procs == s.procs[p := next.procs[p]]
    requires next.procs[p].request == s.procs[p].request && (Owns(s.procs[p]) ==> Owns(next.procs[p]))
    requires next.table == s.table || (Owns(next.procs[p]) && next.table == s.table + [s.procs[p].request.prepared])
    ensures Minted(next)
  {
    forall q | q in next.procs && !Owns(next.procs[q]) ensures !HasId(next.table, next.procs[q].request.prepared.id) {
      assert q == p || next.procs[q] == s.procs[q];
    }
  }

  lemma StepKeepsMinted(s: Creates, e: Event)
    requires Minted(s) && Enabled(s, e)
    ensures Minted(Next(s, e))
  {
    MovesKeepMinted(s, Next(s, e), e.p);
  }

  /** Creates about to start, each with an id of its own that is not stored. */
  lemma StartsMinted(s: Creates)
    requires forall p | p in s.procs :: s.procs[p].Waiting?
    requires forall p, q | p in s.procs && q in s.procs :: p != q ==>
               s.procs[p].request.prepared.id != s.procs[q].request.prepared.id
    requires forall p, row | p in s.procs && row in s.table :: row.id != s.procs[p].request.prepared.id
    ensures Minted(s)
  {
  }

  lemma {:induction false} RunKeepsMinted(s: Creates, events: seq<Event>)
    requires Minted(s)
    ensures Minted(Run(s, events))
    decreases |events|
  {
    if events != [] {
      if Enabled(s, events[0]) {
        StepKeepsMinted(s, events[0]);
        RunKeepsMinted(Next(s, events[0]), events[1..]);
      } else {
        RunKeepsMinted(s, events[1..]);
      }
    }
  }

  /** Nothing but an id stored already fails a create; with minted ids nothing does. */
  lemma FailedOnlyByItsId(s: Creates, p: nat, before: Table)
    requires Inv(s, before) && p in s.procs && s.procs[p].Done? && s.procs[p].answer.Failed?
    ensures HasId(s.table, s.procs[p].request.prepared.id)
    ensures !Minted(s)
  {
    assert ProcOk(s, s.procs[p]) && !Owns(s.procs[p]);
  }

  /**
   * The verdict of a finished create depends only on the row that ends up holding its key,
   * whether the pre-check or the race arm decided. Its own: it was created. Another's: a
   * refuse kind says it exists, an idempotent one answers it when the content is equal and
   * says that it differs otherwise. Nothing else is ever answered.
   */
  lemma VerdictIff(s: Creates, p: nat, before: Table)
    requires Inv(s, before) && Minted(s) && p in s.procs && s.procs[p].Done? && !s.procs[p].answer.Aborted?
    requires KeepsKey(s.procs[p].request)
    ensures var r, holder := s.procs[p].request, HolderOf(s.table, s.procs[p].request.inputKey);
            && holder.Some?
            && s.procs[p].answer ==
               if holder.value.id == r.prepared.id then Created(r.prepared)
               else if s.mode == Refuse then Exists
               else if holder.value.fields == r.prepared.fields then Recorded(holder.value)
               else ExistsWithDifferentContent
  {
    var r := s.procs[p].request;
    assert ProcOk(s, s.procs[p]);
    OnlyHolder(s.table, r.inputKey);
  }

  /** A create without a key meets nobody: unless it was aborted it is created. */
  lemma KeylessIsCreated(s: Creates, p: nat, before: Table)
    requires Inv(s, before) && Minted(s) && p in s.procs && s.procs[p].Done? && !s.procs[p].answer.Aborted?
    requires s.procs[p].request.inputKey == "" && s.procs[p].request.prepared.key.None?
    requires forall row | row in s.table :: row.key != Some("")
    ensures s.procs[p].answer == Created(s.procs[p].request.prepared)
  {
    assert ProcOk(s, s.procs[p]);
  }

  /** A refused create in a refuse kind really met a holder, and the plain answer is only ever given there. */
  lemma RefusalIsHonest(s: Creates, p: nat, before: Table)
    requires Inv(s, before) && p in s.procs && s.procs[p].Done? && s.procs[p].answer.Exists?
    ensures s.mode == Refuse && exists h :: h in s.table && HoldsFor(h, s.procs[p].request)
  {
    assert ProcOk(s, s.procs[p]);
  }

  /** Once every create has finished, what was announced is what was inserted, each exactly once. */
  lemma AnnouncedIsInserted(s: Creates, before: Table)
    requires Inv(s, before) && forall p | p in s.procs :: s.procs[p].Done?
    ensures multiset(s.announced) == multiset(s.inserted)
  {
    InsertedDiffer(s, before);
    SameMembersSameMultiset(s.announced, s.inserted);
  }

  lemma InsertedDiffer(s: Creates, before: Table)
    requires ValidTable(s.table) && Grown(s, before)
    ensures forall i, k | 0 <= i < k < |s.inserted| :: s.inserted[i] != s.inserted[k]
  {
  }

  lemma {:induction false} CountInDistinct(ids: seq<string>, id: string)
    requires forall i, k | 0 <= i < k < |ids| :: ids[i] != ids[k]
    ensures multiset(ids)[id] == if id in ids then 1 else 0
  {
    if ids != [] {
      assert ids == [ids[0]] + ids[1..];
      CountInDistinct(ids[1..], id);
    }
  }

  lemma SameMembersSameMultiset(a: seq<string>, b: seq<string>)
    requires forall i, k | 0 <= i < k < |a| :: a[i] != a[k]
    requires forall i, k | 0 <= i < k < |b| :: b[i] != b[k]
    requires forall id :: id in a <==> id in b
    ensures multiset(a) == multiset(b)
  {
    forall id ensures multiset(a)[id] == multiset(b)[id] {
      CountInDistinct(a, id);
      CountInDistinct(b, id);
    }
  }

  /* --------------------------- one create, on its own ------------------------------ */

  /** The answer of a create that nothing interleaves with, and the table it leaves. */
  function Alone(mode: Mode, table: Table, r: Request): (Answer, Table) {
    var holder := if r.inputKey == "" then None else HolderOf(table, r.inputKey);
    if holder.Some? then (if mode == Refuse then Exists else SettleOnHolder(r, holder.value), table)
    else
      match Inserted(table, r.prepared).0
      case Written => (Created(r.prepared), Inserted(table, r.prepared).1)
      case DuplicateId(_) => (Failed, table)
      case DuplicateKey(value) =>
        var other := HolderOf(table, value);
        (if mode == Idempotent && other.Some? then SettleOnHolder(r, other.value) else Exists, table)
  }

  /** What it answers, and the table it leaves, by what the table holds. */
  lemma AloneIff(mode: Mode, table: Table, r: Request)
    requires ValidTable(table) && KeepsKey(r)
    ensures var (answer, after) := Alone(mode, table, r);
            && (forall h | h in table && h.key == Some(r.inputKey) ::
                  && after == table
                  && (mode == Refuse ==> answer == Exists)
                  && (mode == Idempotent ==>
                        answer == if h.fields == r.prepared.fields then Recorded(h) else ExistsWithDifferentContent))
            && ((forall h | h in table :: h.key != Some(r.inputKey)) ==>
                  if exists h | h in table :: h.id == r.prepared.id then answer == Failed && after == table
                  else answer == Created(r.prepared) && after == table + [r.prepared])
  {
    if HolderOf(table, r.inputKey).Some? {
      OnlyHolder(table, r.inputKey);
    }
  }

  function Try(s: Creates, e: Event): Creates {
    if Enabled(s, e) then Next(s, e) else s
  }

  /** It is one of the interleavings: the create's own steps in order. */
  lemma AloneIsARun(mode: Mode, table: Table, r: Request)
    ensures var end := Try(Try(Try(Try(Creates(mode, table, map[0 := Waiting(r)], [], []),
                                       Check(0)), Persist(0)), Reread(0)), Announce(0));
            var (answer, after) := Alone(mode, table, r);
            && end.procs[0] == Done(r, answer) && end.table == after
            && end.announced == if answer.Created? then [r.prepared.id] else []
  {
    var checked := Try(Creates(mode, table, map[0 := Waiting(r)], [], []), Check(0));
    var persisted := Try(checked, Persist(0));
    if checked.procs[0].Shaped? && checked.procs[0].holder.None? {
      assert persisted == AfterPersist(checked, 0);
      assert Inserted(table, r.prepared).0.DuplicateKey? ==> HolderOf(table, r.prepared.key.value).Some?;
    }
  }

  /** The executor's code path, against the store it writes to. */
  method Create(store: MemoryStore, mode: Mode, r: Request) returns (answer: Answer, announced: bool)
    requires store.Valid()
    modifies store
    ensures store.Valid()
    ensures (answer, store.table) == Alone(mode, old(store.table), r)
    ensures announced <==> answer.Created?
  {
    announced := false;
    var holder := None;
    if r.inputKey != "" {
      holder := store.GetByNaturalKey(r.inputKey);
    }
    if holder.Some? {
      answer := if mode == Refuse then Exists else SettleOnHolder(r, holder.value);
      return;
    }
    var result := store.Insert(r.prepared);
    match result
    case Written =>
      announced := true;
      answer := Created(r.prepared);
    case DuplicateId(_) =>
      answer := Failed;
    case DuplicateKey(value) =>
      answer := Exists;
      if mode == Idempotent {
        holder := store.GetByNaturalKey(value);
        if holder.Some? {
          answer := SettleOnHolder(r, holder.value);
        }
      }
  }
}
