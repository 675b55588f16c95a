/**
 * One-time activation codes (packages/identity/src/postgres/stores.ts): one
 * live code per user, replaced by the next one issued, gone once presented.
 */
module ActivationCodes {
  import opened Wrappers

  datatype Code = Code(hash: string, expiresAt: int)

  /** Keyed by user; code hashes are unique across users. */
  type Codes = map<string, Code>

  datatype Step =
    | Issue(userId: string, hash: string, expiresAt: int)
    | Redeem(hash: string, now: int)

  ghost predicate UniqueCodes(codes: Codes) {
    forall u, v | u in codes && v in codes :: codes[u].hash == codes[v].hash ==> u == v
  }

  /** The upsert; a hash another user holds violates the unique column and changes nothing. */
  function AfterIssue(codes: Codes, userId: string, hash: string, expiresAt: int): Codes {
    if exists u | u in codes :: u != userId && codes[u].hash == hash then codes
    else codes[userId := Code(hash, expiresAt)]
  }

  function Next(codes: Codes, step: Step): Codes {
    match step
    case Issue(userId, hash, expiresAt) => AfterIssue(codes, userId, hash, expiresAt)
    case Redeem(hash, _) => map u | u in codes && codes[u].hash != hash :: codes[u]
  }

  /** The redeem answers this user: the deleted row was theirs and had not expired. */
  predicate Answers(codes: Codes, hash: string, now: int, userId: string) {
    userId in codes && codes[userId].hash == hash && codes[userId].expiresAt >= now
  }

  function CodesAt(codes: Codes, steps: seq<Step>, k: nat): Codes
    requires k <= |steps|
  {
    if k == 0 then codes else Next(CodesAt(codes, steps, k - 1), steps[k - 1])
  }

  predicate Holds(codes: Codes, hash: string) {
    exists u | u in codes :: codes[u].hash == hash
  }

  ghost predicate FreshCodes(codes: Codes, steps: seq<Step>) {
    && (forall k | 0 <= k < |steps| :: steps[k].Issue? ==> !Holds(codes, steps[k].hash))
    && (forall i, k | 0 <= i < k < |steps| :: (steps[i].Issue? && steps[k].Issue?) ==> steps[i].hash != steps[k].hash)
  }

  /** A run stays fresh exactly as long as each code issued next was neither held at the start nor issued before. */
  lemma FreshNextIff(codes: Codes, steps: seq<Step>, step: Step)
    ensures FreshCodes(codes, []) && FreshCodes(codes, steps + [step]) <==>
            FreshCodes(codes, steps)
            && (step.Issue? ==>
                  !Holds(codes, step.hash) && forall i | 0 <= i < |steps| :: steps[i].Issue? ==> steps[i].hash != step.hash)
  {
    var all := steps + [step];
    assert forall k | 0 <= k < |steps| :: all[k] == steps[k];
    assert all[|steps|] == step;
  }

  lemma {:induction false} HeldWasIssued(codes: Codes, steps: seq<Step>, k: nat, hash: string)
    requires k <= |steps| && Holds(CodesAt(codes, steps, k), hash)
    ensures Holds(codes, hash) || exists i :: 0 <= i < k && steps[i].Issue? && steps[i].hash == hash
  {
    if k > 0 && Holds(CodesAt(codes, steps, k - 1), hash) {
      HeldWasIssued(codes, steps, k - 1, hash);
    }
  }

  /** What ends a code: a newer one for the same user, or any presentation of it. */
  predicate Ends(step: Step, userId: string, hash: string) {
    (step.Issue? && step.userId == userId) || (step.Redeem? && step.hash == hash)
  }

  ghost predicate Standing(steps: seq<Step>, i: nat, k: nat)
    requires i < k <= |steps| && steps[i].Issue?
  {
    forall m | i < m < k :: !Ends(steps[m], steps[i].userId, steps[i].hash)
  }

  /** One step on a fresh code's fate. */
  lemma CodeStep(codes: Codes, step: Step, userId: string, code: Code)
    requires step.Issue? ==> step.hash != code.hash && !Holds(codes, step.hash)
    requires forall u | u in codes :: codes[u].hash == code.hash ==> u == userId && codes[u] == code
    ensures var after := Next(codes, step);
            && (Holds(after, code.hash) <==> Holds(codes, code.hash) && !Ends(step, userId, code.hash))
            && (forall u | u in after :: after[u].hash == code.hash ==> u == userId && after[u] == code)
  {
    var after := Next(codes, step);
    if Holds(codes, code.hash) && !Ends(step, userId, code.hash) {
      assert userId in codes && codes[userId] == code;
      assert after[userId] == code;
    }
  }

  lemma {:induction false} CodeStandsIff(codes: Codes, steps: seq<Step>, i: nat, k: nat)
    requires FreshCodes(codes, steps) && i < k <= |steps| && steps[i].Issue?
    ensures var code, now := Code(steps[i].hash, steps[i].expiresAt), CodesAt(codes, steps, k);
            && (Holds(now, code.hash) <==> Standing(steps, i, k))
            && (forall u | u in now :: now[u].hash == code.hash ==> u == steps[i].userId && now[u] == code)
    decreases k
  {
    var userId, code := steps[i].userId, Code(steps[i].hash, steps[i].expiresAt);
    if k == i + 1 {
      var before := CodesAt(codes, steps, i);
      if Holds(before, code.hash) {
        HeldWasIssued(codes, steps, i, code.hash);
      }
      assert CodesAt(codes, steps, k) == before[userId := code];
      assert CodesAt(codes, steps, k)[userId].hash == code.hash;
    } else {
      var before := CodesAt(codes, steps, k - 1);
      CodeStandsIff(codes, steps, i, k - 1);
      if steps[k - 1].Issue? && Holds(before, steps[k - 1].hash) {
        HeldWasIssued(codes, steps, k - 1, steps[k - 1].hash);
      }
      CodeStep(before, steps[k - 1], userId, code);
    }
  }

  /**
   * A code redeems for the user it was issued to, exactly when it is presented in
   * time, was not presented before and was not replaced by a newer one; it
   * redeems for nobody else.
   */
  lemma RedeemIff(codes: Codes, steps: seq<Step>, i: nat, j: nat, userId: string)
    requires FreshCodes(codes, steps) && i < j < |steps|
    requires steps[i].Issue? && steps[j].Redeem? && steps[j].hash == steps[i].hash
    ensures Answers(CodesAt(codes, steps, j), steps[j].hash, steps[j].now, userId) <==>
            userId == steps[i].userId && steps[j].now <= steps[i].expiresAt && Standing(steps, i, j)
  {
    CodeStandsIff(codes, steps, i, j);
  }

  class ActivationCodeStore {
    var codes: Codes

    ghost predicate Valid()
      reads this
    {
      UniqueCodes(codes)
    }

    constructor ()
      ensures Valid() && codes == map[]
    {
      codes := map[];
    }

    method Issue(userId: string, hash: string, expiresAt: int) returns (stored: bool)
      requires Valid()
      modifies this
      ensures Valid()
      ensures codes == Next(old(codes), Step.Issue(userId, hash, expiresAt))
      ensures stored <==> (userId in codes && codes[userId] == Code(hash, expiresAt))
    {
      stored := !(exists u | u in codes :: u != userId && codes[u].hash == hash);
      if stored {
        codes := codes[userId := Code(hash, expiresAt)];
      }
    }

    /** Deletes and answers in one statement; uniqueness makes the answer the only candidate. */
    method Consume(hash: string, now: int) returns (userId: Option<string>)
      requires Valid()
      modifies this
      ensures Valid()
      ensures codes == Next(old(codes), Redeem(hash, now))
      ensures userId.Some? <==> exists u :: Answers(old(codes), hash, now, u)
      ensures userId.Some? ==> Answers(old(codes), hash, now, userId.value)
    {
      ghost var before := codes;
      userId := None;
      if u :| u in codes && codes[u].hash == hash {
        if codes[u].expiresAt >= now {
          userId := Some(u);
          assert Answers(before, hash, now, u);
        }
        assert forall v | v in before && before[v].hash == hash :: v == u;
      }
      codes := map u | u in codes && codes[u].hash != hash :: codes[u];
    }
  }
}
