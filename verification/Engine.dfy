/**
 * The authorization engine's tuple store behind its client
 * (packages/authorization/src/engine.ts): idempotent, non-transactional writes
 * and a paged read of everything stored.
 */
module Engine {
  import opened Tuples

  /** How the server answers for one tuple of a batch. */
  datatype TupleStatus = Settled | AlreadyStored | NotStored | Refused

  ghost function SetOf(ts: seq<TupleKey>): set<TupleKey> {
    set t | t in ts
  }

  predicate Distinct(ts: seq<TupleKey>) {
    forall i, j :: 0 <= i < j < |ts| ==> ts[i] != ts[j]
  }

  function Without(ts: seq<TupleKey>, t: TupleKey): (r: seq<TupleKey>)
    ensures forall x :: x in r <==> x in ts && x != t
    ensures Distinct(ts) ==> Distinct(r)
  {
    if ts == [] then []
    else
      var rest := Without(ts[1..], t);
      assert Distinct(ts) ==> ts[0] !in ts[1..];
      assert forall i :: 0 <= i < |rest| ==> rest[i] in rest;
      if ts[0] == t then rest else [ts[0]] + rest
  }

  class Engine {
    /** Stored tuples in insertion order. */
    var stored: seq<TupleKey>
    /** The server's read page. */
    const pageSize: nat

    ghost predicate Valid()
      reads this
    {
      pageSize > 0 && Distinct(stored)
    }

    ghost function Contents(): set<TupleKey>
      reads this
    {
      SetOf(stored)
    }

    constructor (pageSize: nat)
      requires pageSize > 0
      ensures Valid() && Contents() == {} && this.pageSize == pageSize
    {
      this.pageSize := pageSize;
      stored := [];
    }

    method WriteOne(t: TupleKey, refused: set<TupleKey>) returns (status: TupleStatus)
      requires Valid()
      modifies this`stored
      ensures Valid()
      ensures Contents() == if t in refused then old(Contents()) else old(Contents()) + {t}
      ensures status == Refused <==> t in refused
    {
      if t in refused {
        status := Refused;
      } else if t in stored {
        status := AlreadyStored;
      } else {
        stored := stored + [t];
        status := Settled;
      }
    }

    method DeleteOne(t: TupleKey, refused: set<TupleKey>) returns (status: TupleStatus)
      requires Valid()
      modifies this`stored
      ensures Valid()
      ensures Contents() == if t in refused then old(Contents()) else old(Contents()) - {t}
      ensures status == Refused <==> t in refused
    {
      if t in refused {
        status := Refused;
      } else if t !in stored {
        status := NotStored;
      } else {
        stored := Without(stored, t);
        status := Settled;
      }
    }

    method WriteEach(writes: seq<TupleKey>, refused: set<TupleKey>) returns (statuses: seq<TupleStatus>)
      requires Valid()
      modifies this`stored
      ensures Valid() && Contents() == old(Contents()) + (SetOf(writes) - refused)
      ensures AnswersFor(statuses, writes, refused)
    {
      statuses := [];
      for i := 0 to |writes|
        invariant Valid() && Contents() == old(Contents()) + (SetOf(writes[..i]) - refused)
        invariant AnswersFor(statuses, writes[..i], refused)
      {
        var status := WriteOne(writes[i], refused);
        statuses := statuses + [status];
        assert writes[..i + 1] == writes[..i] + [writes[i]];
      }
      assert writes[..|writes|] == writes;
    }

    method DeleteEach(deletes: seq<TupleKey>, refused: set<TupleKey>) returns (statuses: seq<TupleStatus>)
      requires Valid()
      modifies this`stored
      ensures Valid() && Contents() == old(Contents()) - (SetOf(deletes) - refused)
      ensures AnswersFor(statuses, deletes, refused)
    {
      statuses := [];
      for i := 0 to |deletes|
        invariant Valid() && Contents() == old(Contents()) - (SetOf(deletes[..i]) - refused)
        invariant AnswersFor(statuses, deletes[..i], refused)
      {
        var status := DeleteOne(deletes[i], refused);
        statuses := statuses + [status];
        assert deletes[..i + 1] == deletes[..i] + [deletes[i]];
      }
      assert deletes[..|deletes|] == deletes;
    }

    /**
     * Applies a batch, writes before deletes, each tuple on its own. The call
     * succeeds exactly when the server refused none of them: an existing write
     * and a missing delete are settled, not failures.
     */
    method Write(writes: seq<TupleKey>, deletes: seq<TupleKey>, refused: set<TupleKey>) returns (ok: bool)
      requires Valid()
      modifies this`stored
      ensures Valid()
      ensures Contents() == old(Contents()) + (SetOf(writes) - refused) - (SetOf(deletes) - refused)
      ensures ok <==> refused !! SetOf(writes) + SetOf(deletes)
    {
      var written := WriteEach(writes, refused);
      var deleted := DeleteEach(deletes, refused);
      ok := AssertSettled(written);
      if ok {
        ok := AssertSettled(deleted);
      }
      RefusalsShow(written, writes, refused);
      RefusalsShow(deleted, deletes, refused);
    }

    /** One page of the stored tuples, and the token of the next one (0 is none). */
    function Page(token: nat): (nat, nat)
      reads this
      requires pageSize > 0 && token <= |stored|
    {
      var end := if token + pageSize < |stored| then token + pageSize else |stored|;
      (end, if end == |stored| then 0 else end)
    }

    /** Follows continuation tokens until the server answers none: every stored tuple, once. */
    method ReadAll() returns (tuples: seq<TupleKey>)
      requires Valid()
      ensures tuples == stored && Distinct(tuples) && SetOf(tuples) == Contents()
    {
      tuples := [];
      var token := 0;
      var more := true;
      while more
        invariant token <= |stored|
        invariant more ==> tuples == stored[..token] && (token == 0 || token < |stored|)
        invariant !more ==> tuples == stored
        decreases more, |stored| - token
      {
        var (end, next) := Page(token);
        tuples := tuples + stored[token..end];
        more := next != 0;
        token := next;
      }
    }
  }

  /** One answer per tuple; exactly the refused tuples are answered with a refusal. */
  ghost predicate AnswersFor(statuses: seq<TupleStatus>, ts: seq<TupleKey>, refused: set<TupleKey>) {
    |statuses| == |ts| && forall k :: 0 <= k < |ts| ==> (statuses[k] == Refused <==> ts[k] in refused)
  }

  lemma RefusalsShow(statuses: seq<TupleStatus>, ts: seq<TupleKey>, refused: set<TupleKey>)
    requires AnswersFor(statuses, ts, refused)
    ensures (exists k :: 0 <= k < |statuses| && statuses[k] == Refused) <==> !(refused !! SetOf(ts))
  {
  }

  /** The first refused answer fails the batch; settled ones are passed over. */
  method AssertSettled(statuses: seq<TupleStatus>) returns (ok: bool)
    ensures ok <==> forall k :: 0 <= k < |statuses| ==> statuses[k] != Refused
  {
    for i := 0 to |statuses|
      invariant forall k :: 0 <= k < i ==> statuses[k] != Refused
    {
      if statuses[i] == Refused {
        return false;
      }
    }
    return true;
  }
}
