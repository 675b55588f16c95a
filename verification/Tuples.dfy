/**
 * Relationship tuples in the engine's `type:id` reference form
 * (packages/authorization/src/tuples.ts): building references, reading the id
 * half back, and the canonical identity the reconciler's set operations use.
 */
module Tuples {

  /** `user` holds `relation` on `target` (the source calls the target `object`). */
  datatype TupleKey = TupleKey(user: string, relation: string, target: string)

  function Ref(kind: string, id: string): string {
    kind + ":" + id
  }

  /** Position of the first `c` in `s`, or -1. */
  function IndexOf(s: string, c: char): (i: int)
    ensures -1 <= i < |s|
    ensures i == -1 ==> c !in s
    ensures 0 <= i ==> s[i] == c && c !in s[..i]
  {
    if s == "" then -1
    else if s[0] == c then 0
    else
      var rest := IndexOf(s[1..], c);
      assert s == [s[0]] + s[1..];
      if rest == -1 then -1 else
      assert s[..rest + 1] == [s[0]] + s[1..][..rest];
      rest + 1
  }

  function IdOf(reference: string): string {
    var separator := IndexOf(reference, ':');
    if separator == -1 then reference else reference[separator + 1..]
  }

  function TupleId(t: TupleKey): string {
    t.user + "|" + t.relation + "|" + t.target
  }

  /** Two splits of one text at the first `c` are the same split. */
  lemma SplitUnique(a: string, b: string, a': string, b': string, c: char)
    requires c !in a && c !in a'
    requires a + [c] + b == a' + [c] + b'
    ensures a == a' && b == b'
  {
    var s := a + [c] + b;
    assert s[|a|] == c && s[|a'|] == c;
    assert forall i :: 0 <= i < |a| ==> s[i] in a;
    assert forall i :: 0 <= i < |a'| ==> s[i] in a';
    assert |a| == |a'|;
    assert a == s[..|a|] == a';
    assert b == s[|a| + 1..] == b';
  }

  /** A text that is no reference is its own id. */
  lemma PlainId(text: string)
    requires ':' !in text
    ensures IdOf(text) == text
  {
  }

  /** A reference is read back exactly, and never confused with one of another type. */
  lemma RefRoundTrip(kind: string, id: string, kind': string, id': string)
    requires ':' !in kind && ':' !in kind'
    ensures IdOf(Ref(kind, id)) == id
    ensures Ref(kind, id) == Ref(kind', id') <==> kind == kind' && id == id'
  {
    var r := Ref(kind, id);
    var i := IndexOf(r, ':');
    assert r[|kind|] == ':';
    assert i >= 0;
    assert r == r[..i] + [':'] + r[i + 1..];
    SplitUnique(r[..i], r[i + 1..], kind, id, ':');
    if r == Ref(kind', id') {
      SplitUnique(kind, id, kind', id', ':');
    }
  }

  lemma LastSplitUnique(a: string, b: string, a': string, b': string, c: char)
    requires c !in b && c !in b'
    requires a + [c] + b == a' + [c] + b'
    ensures a == a' && b == b'
  {
    var s := a + [c] + b;
    assert s[|a|] == c && s[|a'|] == c;
    assert forall i :: |a| < i < |s| ==> s[i] in b;
    assert forall i :: |a'| < i < |s| ==> s[i] in b';
    assert |a| == |a'|;
    assert a == s[..|a|] == a';
    assert b == s[|a| + 1..] == b';
  }

  /** No bar in the relation, nor in the object (or, the other way, the user): one side of the identity is unambiguous. */
  predicate Separable(t: TupleKey, byObject: bool) {
    '|' !in t.relation && '|' !in (if byObject then t.target else t.user)
  }

  /** Set identity is sound on tuples whose users are bar-free, and on tuples whose objects are. */
  lemma TupleIdInjective(a: TupleKey, b: TupleKey, byObject: bool)
    requires Separable(a, byObject) && Separable(b, byObject)
    ensures TupleId(a) == TupleId(b) <==> a == b
  {
    if TupleId(a) == TupleId(b) {
      if byObject {
        assert TupleId(a) == (a.user + "|" + a.relation) + ['|'] + a.target;
        assert TupleId(b) == (b.user + "|" + b.relation) + ['|'] + b.target;
        LastSplitUnique(a.user + "|" + a.relation, a.target, b.user + "|" + b.relation, b.target, '|');
        LastSplitUnique(a.user, a.relation, b.user, b.relation, '|');
      } else {
        assert TupleId(a) == a.user + ['|'] + (a.relation + "|" + a.target);
        assert TupleId(b) == b.user + ['|'] + (b.relation + "|" + b.target);
        SplitUnique(a.user, a.relation + "|" + a.target, b.user, b.relation + "|" + b.target, '|');
        SplitUnique(a.relation, a.target, b.relation, b.target, '|');
      }
    }
  }

  /** With bar-free relations a clash takes a bar in a user and a bar in an object. */
  lemma ClashTakesBothBars(a: TupleKey, b: TupleKey)
    requires '|' !in a.relation && '|' !in b.relation && a != b && TupleId(a) == TupleId(b)
    ensures ('|' in a.user || '|' in b.user) && ('|' in a.target || '|' in b.target)
  {
    if '|' !in a.user && '|' !in b.user {
      TupleIdInjective(a, b, false);
    } else if '|' !in a.target && '|' !in b.target {
      TupleIdInjective(a, b, true);
    }
  }

  /** And with both there is one, on references the firm's cases and users can have. */
  lemma TupleIdCollides(user: string, relation: string, caseId: string, other: string)
    ensures var inCase := TupleKey(Ref("user", user), relation, Ref("case", caseId + "|" + relation + "|" + Ref("case", other)));
            var inUser := TupleKey(Ref("user", user + "|" + relation + "|" + Ref("case", caseId)), relation, Ref("case", other));
            TupleId(inCase) == TupleId(inUser) && inCase != inUser
  {
    var inCase := TupleKey(Ref("user", user), relation, Ref("case", caseId + "|" + relation + "|" + Ref("case", other)));
    var inUser := TupleKey(Ref("user", user + "|" + relation + "|" + Ref("case", caseId)), relation, Ref("case", other));
    assert |inUser.user| > |inCase.user|;
    var middle := "|" + relation + "|";
    assert TupleId(inCase) == Ref("user", user) + middle + (Ref("case", caseId) + middle + Ref("case", other));
    assert TupleId(inUser) == Ref("user", user) + middle + Ref("case", caseId) + middle + Ref("case", other);
  }
}
