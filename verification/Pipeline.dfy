/**
 * The operation pipeline (packages/resource-api/src/pipeline.ts): named steps run
 * in order and halt on the first failure, and a chain that could answer
 * "permission denied" for a missing resource is refused when it is built.
 */
module Pipeline {
  import opened Wrappers

  datatype StepTrait = ExistenceCheck | Authorization

  datatype PipelineStep = PipelineStep(name: string, traits: set<StepTrait>)

  /** A step's failure: a client-facing code, or an untyped error, which is a bug. */
  datatype Failure = NotFound | PermissionDenied | OtherCode(code: nat) | Untyped

  const INTERNAL := Failure.OtherCode(13)

  function FirstWith(steps: seq<PipelineStep>, t: StepTrait): (i: nat)
    ensures i <= |steps|
    ensures i < |steps| ==> t in steps[i].traits
    ensures forall k | 0 <= k < i :: t !in steps[k].traits
  {
    if steps == [] || t in steps[0].traits then 0 else 1 + FirstWith(steps[1..], t)
  }

  predicate Accepted(steps: seq<PipelineStep>) {
    FirstWith(steps, ExistenceCheck) == |steps| || FirstWith(steps, Authorization) == |steps|
    || FirstWith(steps, ExistenceCheck) <= FirstWith(steps, Authorization)
  }

  /** `failures[i]` is how step `i` would fail, if it would. */
  function FirstFailure(failures: seq<Option<Failure>>): (i: nat)
    ensures i <= |failures|
    ensures i < |failures| ==> failures[i].Some?
    ensures forall k | 0 <= k < i :: failures[k].None?
  {
    if failures == [] || failures[0].Some? then 0 else 1 + FirstFailure(failures[1..])
  }

  /** What the client hears: the first failure, with an untyped one as INTERNAL. */
  function Heard(failures: seq<Option<Failure>>): Option<Failure> {
    var i := FirstFailure(failures);
    if i == |failures| then None
    else if failures[i].value.Untyped? then Some(INTERNAL) else failures[i]
  }

  method Execute(steps: seq<PipelineStep>, failures: seq<Option<Failure>>)
    returns (heard: Option<Failure>, ran: seq<PipelineStep>)
    requires |failures| == |steps|
    ensures heard == Heard(failures)
    ensures ran == if heard.None? then steps else steps[..FirstFailure(failures) + 1]
  {
    ran := [];
    for i := 0 to |steps|
      invariant ran == steps[..i]
      invariant forall k | 0 <= k < i :: failures[k].None?
    {
      ran := ran + [steps[i]];
      if failures[i].Some? {
        heard := if failures[i].value.Untyped? then Some(INTERNAL) else failures[i];
        return;
      }
    }
    heard := None;
  }

  /** Nothing is heard when nothing fails, and otherwise the first failure, an untyped one as code 13. */
  lemma HeardIff(failures: seq<Option<Failure>>, i: nat)
    ensures Heard(failures).None? <==> forall k | 0 <= k < |failures| :: failures[k].None?
    ensures i < |failures| && failures[i].Some? && (forall k | 0 <= k < i :: failures[k].None?) ==>
              && FirstFailure(failures) == i
              && Heard(failures) == if failures[i].value.Untyped? then Some(OtherCode(13)) else failures[i]
  {
  }

  /** Each existence check misses the resource and each authorization refuses; the rest pass. */
  ghost predicate MissingAndRefused(steps: seq<PipelineStep>, failures: seq<Option<Failure>>) {
    && |failures| == |steps|
    && forall i | 0 <= i < |steps| ::
         if ExistenceCheck in steps[i].traits then failures[i] == Some(NotFound)
         else if Authorization in steps[i].traits then failures[i] == Some(PermissionDenied)
         else failures[i].None?
  }

  /**
   * A chain with both kinds of step is accepted exactly when a caller without
   * permission asking for a missing resource hears NOT_FOUND.
   */
  lemma AcceptedIffMissingIsNotFound(steps: seq<PipelineStep>, failures: seq<Option<Failure>>)
    requires MissingAndRefused(steps, failures)
    requires exists i | 0 <= i < |steps| :: ExistenceCheck in steps[i].traits
    requires exists i | 0 <= i < |steps| :: Authorization in steps[i].traits
    ensures Accepted(steps) <==> Heard(failures) == Some(NotFound)
    ensures !Accepted(steps) <==> Heard(failures) == Some(PermissionDenied)
  {
    var e, a, f := FirstWith(steps, ExistenceCheck), FirstWith(steps, Authorization), FirstFailure(failures);
    assert f == if e <= a then e else a;
  }
}
