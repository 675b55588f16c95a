/**
 * The set-diff reconciler (packages/authorization/src/reconcile.ts) and the
 * claim that any number of replicas running it converge
 * (apps/law/backend/src/domain/authz/reconcile-loop.ts).
 */
module Reconcile {
  import opened Tuples
  import opened Engine

  datatype ReconcileResult = ReconcileResult(written: nat, deleted: nat)

  /** No two different tuples in play share a set identity. */
  ghost predicate NoClash(ts: set<TupleKey>) {
    forall a, b {:trigger TupleId(a), TupleId(b)} :: a in ts && b in ts && TupleId(a) == TupleId(b) ==> a == b
  }

  lemma SeparableNoClash(ts: set<TupleKey>, byObject: bool)
    requires forall t :: t in ts ==> Separable(t, byObject)
    ensures NoClash(ts)
  {
    forall a, b | a in ts && b in ts && TupleId(a) == TupleId(b) ensures a == b {
      TupleIdInjective(a, b, byObject);
    }
  }

  /** `new Map(desired.map(t => [tupleId(t), t]))`: the last tuple of an id wins. */
  method ById(ts: seq<TupleKey>) returns (m: map<string, TupleKey>)
    ensures forall id :: id in m ==> TupleId(m[id]) == id && m[id] in ts
    ensures forall t :: t in ts ==> TupleId(t) in m
  {
    m := map[];
    for i := 0 to |ts|
      invariant forall id :: id in m ==> TupleId(m[id]) == id && m[id] in ts
      invariant forall k :: 0 <= k < i ==> TupleId(ts[k]) in m
    {
      m := m[TupleId(ts[i]) := ts[i]];
    }
  }

  method Ids(ts: seq<TupleKey>) returns (ids: set<string>)
    ensures forall id :: id in ids <==> exists t :: t in ts && TupleId(t) == id
  {
    ids := {};
    for i := 0 to |ts|
      invariant forall id :: id in ids <==> exists k :: 0 <= k < i && TupleId(ts[k]) == id
    {
      ids := ids + {TupleId(ts[i])};
    }
  }

  /** The map's entries whose id is not among `ids`, each once. */
  method EntriesOutside(m: map<string, TupleKey>, ids: set<string>) returns (ts: seq<TupleKey>)
    requires forall id :: id in m ==> TupleId(m[id]) == id
    ensures Distinct(ts)
    ensures forall t :: t in ts <==> TupleId(t) in m && m[TupleId(t)] == t && TupleId(t) !in ids
  {
    ts := [];
    var left := m.Keys;
    while left != {}
      invariant left <= m.Keys && Distinct(ts)
      invariant forall t :: t in ts <==> TupleId(t) in m.Keys - left && m[TupleId(t)] == t && TupleId(t) !in ids
    {
      var id :| id in left;
      left := left - {id};
      if id !in ids {
        assert m[id] !in ts;
        ts := ts + [m[id]];
      }
    }
  }

  method Outside(ts: seq<TupleKey>, m: map<string, TupleKey>) returns (kept: seq<TupleKey>)
    requires Distinct(ts)
    ensures Distinct(kept)
    ensures forall t :: t in kept <==> t in ts && TupleId(t) !in m
  {
    kept := [];
    for i := 0 to |ts|
      invariant Distinct(kept)
      invariant forall t :: t in kept <==> t in ts[..i] && TupleId(t) !in m
    {
      assert ts[..i + 1] == ts[..i] + [ts[i]];
      if TupleId(ts[i]) !in m {
        assert ts[i] !in ts[..i];
        kept := kept + [ts[i]];
      }
    }
    assert ts[..|ts|] == ts;
  }

  lemma CardinalityOfDistinct(ts: seq<TupleKey>)
    requires Distinct(ts)
    ensures |SetOf(ts)| == |ts|
  {
    if ts != [] {
      var last := |ts| - 1;
      CardinalityOfDistinct(ts[..last]);
      assert ts == ts[..last] + [ts[last]];
      assert SetOf(ts) == SetOf(ts[..last]) + {ts[last]};
    }
  }

  /** Without clashes, comparing by id is comparing tuples. */
  lemma DiffByIdIsSetDiff(have: set<TupleKey>, want: set<TupleKey>, byId: map<string, TupleKey>, ids: set<string>)
    requires NoClash(have + want)
    requires forall id :: id in byId ==> TupleId(byId[id]) == id && byId[id] in want
    requires forall t :: t in want ==> TupleId(t) in byId
    requires forall id :: id in ids <==> exists t :: t in have && TupleId(t) == id
    ensures forall t :: t in want - have <==> TupleId(t) in byId && byId[TupleId(t)] == t && TupleId(t) !in ids
    ensures forall t :: t in have - want <==> t in have && TupleId(t) !in byId
  {
  }

  /** The diff of two listings: what to write, what to delete. */
  method Diff(actual: seq<TupleKey>, desired: seq<TupleKey>)
    returns (writes: seq<TupleKey>, deletes: seq<TupleKey>)
    requires Distinct(actual)
    requires NoClash(SetOf(actual) + SetOf(desired))
    ensures SetOf(writes) == SetOf(desired) - SetOf(actual) && |writes| == |SetOf(desired) - SetOf(actual)|
    ensures SetOf(deletes) == SetOf(actual) - SetOf(desired) && |deletes| == |SetOf(actual) - SetOf(desired)|
  {
    var desiredById := ById(desired);
    var actualIds := Ids(actual);
    writes := EntriesOutside(desiredById, actualIds);
    deletes := Outside(actual, desiredById);
    DiffByIdIsSetDiff(SetOf(actual), SetOf(desired), desiredById, actualIds);
    assert SetOf(writes) == SetOf(desired) - SetOf(actual);
    assert SetOf(deletes) == SetOf(actual) - SetOf(desired);
    CardinalityOfDistinct(writes);
    CardinalityOfDistinct(deletes);
  }

  /** A refusal touches no drift exactly when both sides agree on the refused tuples. */
  lemma RefusedDrift(have: set<TupleKey>, want: set<TupleKey>, refused: set<TupleKey>)
    ensures refused !! (want - have) + (have - want) <==> refused * have == refused * want
  {
    if refused * have == refused * want {
      forall t | t in refused ensures t !in want - have && t !in have - want {
        assert t in refused * have <==> t in refused * want;
      }
    } else {
      var t :| t in refused * have + refused * want && (t !in refused * have || t !in refused * want);
      assert t in (want - have) + (have - want);
    }
  }

  /** Where a diff with refusals leaves the stored set. */
  lemma AppliedDiff(have: set<TupleKey>, want: set<TupleKey>, refused: set<TupleKey>, after: set<TupleKey>)
    requires after == have + ((want - have) - refused) - ((have - want) - refused)
    ensures refused == {} ==> after == want
    ensures after - refused == want - refused
    ensures after * refused == have * refused
  {
  }

  /**
   * One reconcile from ANY stored set. The counts are the sizes of the drift in
   * each direction. Every tuple the server does not refuse ends exactly as
   * desired, so when it refuses none the stored set IS the desired set; a
   * refused tuple stays as it was and the call fails if it was part of the drift.
   */
  method ReconcileTuples(engine: Engine, desired: seq<TupleKey>, refused: set<TupleKey>)
    returns (ok: bool, r: ReconcileResult)
    requires engine.Valid()
    requires NoClash(engine.Contents() + SetOf(desired))
    modifies engine`stored
    ensures engine.Valid()
    ensures r.written == |SetOf(desired) - old(engine.Contents())|
    ensures r.deleted == |old(engine.Contents()) - SetOf(desired)|
    ensures refused == {} ==> engine.Contents() == SetOf(desired)
    ensures engine.Contents() - refused == SetOf(desired) - refused
    ensures engine.Contents() * refused == old(engine.Contents()) * refused
    ensures ok <==> refused * old(engine.Contents()) == refused * SetOf(desired)
  {
    var actual := engine.ReadAll();
    var writes, deletes := Diff(actual, desired);
    ghost var have := engine.Contents();
    RefusedDrift(have, SetOf(desired), refused);
    ok := engine.Write(writes, deletes, refused);
    AppliedDiff(have, SetOf(desired), refused, engine.Contents());
    r := ReconcileResult(|writes|, |deletes|);
  }

  /* ---------------- replicas racing over the same rows ---------------- */

  /**
   * One replica's reconcile in flight: the tuples it has seen and those its pages
   * have been past, then what it has still to write and delete. It reads page by
   * page and the engine applies a batch tuple by tuple, so other replicas' steps
   * fall between any two of them.
   */
  datatype Replica =
    | Idle
    | Reading(seen: set<TupleKey>, past: set<TupleKey>)
    | Applying(writes: set<TupleKey>, deletes: set<TupleKey>)

  datatype Race = Race(tuples: set<TupleKey>, replicas: map<nat, Replica>, completed: bool)

  datatype RaceStep =
    | Start(replica: nat)
    | Page(replica: nat, range: set<TupleKey>)
    | EndOfPages(replica: nat)
    | ApplyWrite(replica: nat, tuple: TupleKey)
    | ApplyDelete(replica: nat, tuple: TupleKey)
    | Finish(replica: nat)
    /** A refused tuple, a lost connection, a crash: the rest of the batch is abandoned. */
    | Abandon(replica: nat)

  predicate Enabled(r: Race, step: RaceStep) {
    step.replica in r.replicas &&
    var p := r.replicas[step.replica];
    match step
    case Start(_) => p.Idle?
    case Page(_, _) => p.Reading?
    case EndOfPages(_) => p.Reading? && r.tuples <= p.past
    case ApplyWrite(_, t) => p.Applying? && t in p.writes
    case ApplyDelete(_, t) => p.Applying? && p.writes == {} && t in p.deletes
    case Finish(_) => p == Applying({}, {})
    case Abandon(_) => !p.Idle?
  }

  function Next(r: Race, desired: set<TupleKey>, step: RaceStep): Race
    requires Enabled(r, step)
  {
    var i := step.replica;
    var p := r.replicas[i];
    match step
    case Start(_) => r.(replicas := r.replicas[i := Reading({}, {})])
    case Page(_, range) => r.(replicas := r.replicas[i := Reading(p.seen + range * r.tuples, p.past + range)])
    case EndOfPages(_) => r.(replicas := r.replicas[i := Applying(desired - p.seen, p.seen - desired)])
    case ApplyWrite(_, t) =>
      r.(tuples := r.tuples + {t}, replicas := r.replicas[i := p.(writes := p.writes - {t})])
    case ApplyDelete(_, t) =>
      r.(tuples := r.tuples - {t}, replicas := r.replicas[i := p.(deletes := p.deletes - {t})])
    case Finish(_) => r.(replicas := r.replicas[i := Idle], completed := true)
    case Abandon(_) => r.(replicas := r.replicas[i := Idle])
  }

  predicate Possible(r: Race, desired: set<TupleKey>, steps: seq<RaceStep>)
    decreases |steps|
  {
    steps == [] || (Enabled(r, steps[0]) && Possible(Next(r, desired, steps[0]), desired, steps[1..]))
  }

  function Outcome(r: Race, desired: set<TupleKey>, steps: seq<RaceStep>): Race
    requires Possible(r, desired, steps)
    decreases |steps|
  {
    if steps == [] then r else Outcome(Next(r, desired, steps[0]), desired, steps[1..])
  }

  /**
   * Every replica in flight still covers the whole remaining drift, and plans nothing
   * else; one still reading has seen what is left of the drift behind it.
   */
  ghost predicate RaceInv(r: Race, desired: set<TupleKey>) {
    (forall i :: i in r.replicas && r.replicas[i].Reading? ==>
       && r.replicas[i].seen * desired <= r.tuples
       && r.replicas[i].past * (r.tuples - desired) <= r.replicas[i].seen) &&
    (forall i :: i in r.replicas && r.replicas[i].Applying? ==>
       && desired - r.tuples <= r.replicas[i].writes <= desired
       && r.tuples - desired <= r.replicas[i].deletes
       && r.replicas[i].deletes !! desired)
    && (r.completed ==> r.tuples == desired)
  }

  /**
   * As soon as one replica has finished, the engine equals the desired set, and
   * it stays so: from any stored set, under any interleaving of any number of
   * replicas, abandoned ones included.
   */
  lemma {:induction false} RaceConverges(r: Race, desired: set<TupleKey>, steps: seq<RaceStep>)
    requires RaceInv(r, desired)
    requires Possible(r, desired, steps)
    ensures RaceInv(Outcome(r, desired, steps), desired)
    ensures Outcome(r, desired, steps).completed ==> Outcome(r, desired, steps).tuples == desired
    decreases |steps|
  {
    if steps != [] {
      RaceConverges(Next(r, desired, steps[0]), desired, steps[1..]);
    }
  }

  /** A replica in flight may give up at any point, and then start again. */
  lemma MayGiveUp(r: Race, desired: set<TupleKey>, i: nat)
    requires i in r.replicas
    ensures Enabled(r, Abandon(i)) <==> r.replicas[i] != Idle
    ensures Enabled(r, Abandon(i)) ==> Enabled(Next(r, desired, Abandon(i)), Start(i))
  {
  }

  /** What is left of a batch is applied write by write, then delete by delete. */
  lemma {:induction false} AppliesTheRest(r: Race, desired: set<TupleKey>, i: nat) returns (steps: seq<RaceStep>)
    requires i in r.replicas && r.replicas[i].Applying?
    ensures Possible(r, desired, steps) && Outcome(r, desired, steps).completed
    ensures Outcome(r, desired, steps).replicas == r.replicas[i := Idle]
    decreases |r.replicas[i].writes|, |r.replicas[i].deletes|
  {
    var p := r.replicas[i];
    var step := Finish(i);
    if p.writes != {} {
      var t :| t in p.writes;
      step := ApplyWrite(i, t);
    } else if p.deletes != {} {
      var t :| t in p.deletes;
      step := ApplyDelete(i, t);
    }
    var next := Next(r, desired, step);
    var rest: seq<RaceStep> := [];
    if !step.Finish? {
      rest := AppliesTheRest(next, desired, i);
    }
    steps := [step] + rest;
    StepFirst(r, desired, step, rest);
  }

  /** From any stored set a replica can always finish its pass: read every page, apply, be done. */
  lemma CanAlwaysFinish(r: Race, desired: set<TupleKey>, i: nat) returns (steps: seq<RaceStep>)
    requires i in r.replicas && r.replicas[i] == Idle
    ensures Possible(r, desired, steps) && Outcome(r, desired, steps).completed
    ensures Outcome(r, desired, steps).replicas == r.replicas
  {
    var started := Next(r, desired, Start(i));
    var read := Next(started, desired, Page(i, r.tuples));
    var planned := Next(read, desired, EndOfPages(i));
    var rest := AppliesTheRest(planned, desired, i);
    StepFirst(read, desired, EndOfPages(i), rest);
    StepFirst(started, desired, Page(i, r.tuples), [EndOfPages(i)] + rest);
    steps := [Start(i)] + ([Page(i, r.tuples)] + ([EndOfPages(i)] + rest));
    StepFirst(r, desired, Start(i), steps[1..]);
  }

  lemma StepFirst(r: Race, desired: set<TupleKey>, step: RaceStep, rest: seq<RaceStep>)
    requires Enabled(r, step) && Possible(Next(r, desired, step), desired, rest)
    ensures Possible(r, desired, [step] + rest)
    ensures Outcome(r, desired, [step] + rest) == Outcome(Next(r, desired, step), desired, rest)
  {
    assert ([step] + rest)[1..] == rest;
  }

  /** A step never moves the engine away from the desired set. */
  lemma {:induction false} DriftOnlyShrinks(r: Race, desired: set<TupleKey>, steps: seq<RaceStep>)
    requires RaceInv(r, desired)
    requires Possible(r, desired, steps)
    ensures desired - Outcome(r, desired, steps).tuples <= desired - r.tuples
    ensures Outcome(r, desired, steps).tuples - desired <= r.tuples - desired
    decreases |steps|
  {
    if steps != [] {
      DriftOnlyShrinks(Next(r, desired, steps[0]), desired, steps[1..]);
    }
  }

  /** A replica alone, from any stored set: its reads and writes end in the desired set. */
  lemma {:induction false} RaceStartsAnywhere(tuples: set<TupleKey>, desired: set<TupleKey>, replicas: set<nat>, steps: seq<RaceStep>)
    requires Possible(Race(tuples, map i | i in replicas :: Idle, false), desired, steps)
    requires exists k :: 0 <= k < |steps| && steps[k].Finish?
    ensures Outcome(Race(tuples, map i | i in replicas :: Idle, false), desired, steps).tuples == desired
  {
    var r := Race(tuples, map i | i in replicas :: Idle, false);
    RaceConverges(r, desired, steps);
    CompletedAfterFinish(r, desired, steps);
  }

  lemma {:induction false} CompletedAfterFinish(r: Race, desired: set<TupleKey>, steps: seq<RaceStep>)
    requires Possible(r, desired, steps)
    ensures Outcome(r, desired, steps).completed <==>
            r.completed || exists k :: 0 <= k < |steps| && steps[k].Finish?
    decreases |steps|
  {
    if steps != [] {
      CompletedAfterFinish(Next(r, desired, steps[0]), desired, steps[1..]);
      assert forall k :: 0 <= k < |steps[1..]| ==> steps[1..][k] == steps[k + 1];
      if exists k :: 0 <= k < |steps| && steps[k].Finish? {
        var k :| 0 <= k < |steps| && steps[k].Finish?;
        assert k > 0 ==> steps[1..][k - 1].Finish?;
      }
    }
  }
}
