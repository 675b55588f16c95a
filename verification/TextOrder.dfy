/**
 * Code-unit order on text, as both store adapters compare stored fields, and what
 * every argument that a sorted arrangement is the only one needs.
 */
module TextOrder {
  predicate TextLe(a: string, b: string) {
    a == [] || (b != [] && (a[0] < b[0] || (a[0] == b[0] && TextLe(a[1..], b[1..]))))
  }

  predicate TextLt(a: string, b: string) {
    !TextLe(b, a)
  }

  /** The order of dictionaries: one begins the other, or the first difference decides. */
  lemma {:induction false} TextLeIff(a: string, b: string)
    ensures TextLe(a, b) <==>
            a <= b || exists i :: 0 <= i < |a| && i < |b| && a[..i] == b[..i] && a[i] < b[i]
  {
    if a != "" && b != "" {
      if a[0] == b[0] {
        TextLeIff(a[1..], b[1..]);
        assert a == [a[0]] + a[1..] && b == [b[0]] + b[1..];
        if i :| 0 <= i < |a[1..]| && i < |b[1..]| && a[1..][..i] == b[1..][..i] && a[1..][i] < b[1..][i] {
          assert a[..i + 1] == [a[0]] + a[1..][..i] && b[..i + 1] == [b[0]] + b[1..][..i];
          assert a[i + 1] < b[i + 1];
        }
        if i :| 0 <= i < |a| && i < |b| && a[..i] == b[..i] && a[i] < b[i] {
          assert a[1..][..i - 1] == a[..i][1..] && b[1..][..i - 1] == b[..i][1..];
          assert a[1..][i - 1] < b[1..][i - 1];
        }
      } else {
        if i :| 0 <= i < |a| && i < |b| && a[..i] == b[..i] && a[i] < b[i] {
          assert i == 0;
        }
        assert a[..0] == b[..0];
      }
    }
  }

  lemma {:induction false} TextLeTotal(a: string, b: string)
    ensures TextLe(a, b) || TextLe(b, a)
    ensures TextLe(a, b) && TextLe(b, a) ==> a == b
    ensures TextLe(a, a)
  {
    if a != [] && b != [] && a[0] == b[0] {
      TextLeTotal(a[1..], b[1..]);
      assert a == [a[0]] + a[1..] && b == [b[0]] + b[1..];
    }
    if a != [] {
      TextLeReflexive(a);
    }
  }

  lemma {:induction false} TextLeReflexive(a: string)
    ensures TextLe(a, a)
  {
    if a != [] {
      TextLeReflexive(a[1..]);
    }
  }

  lemma {:induction false} TextLeTransitive(a: string, b: string, c: string)
    requires TextLe(a, b) && TextLe(b, c)
    ensures TextLe(a, c)
  {
    if a != [] && b != [] && c != [] && a[0] == b[0] == c[0] {
      TextLeTransitive(a[1..], b[1..], c[1..]);
    }
  }

  /** Every non-empty set of texts has a least one. */
  lemma {:induction false} LeastExists(texts: set<string>) returns (least: string)
    requires texts != {}
    ensures least in texts && forall t | t in texts :: TextLe(least, t)
    decreases |texts|
  {
    var one :| one in texts;
    if texts == {one} {
      least := one;
      TextLeReflexive(one);
    } else {
      var rest := texts - {one};
      assert rest != {} by {
        assert texts == rest + {one};
      }
      var other := LeastExists(rest);
      TextLeTotal(one, other);
      least := if TextLe(one, other) then one else other;
      forall t | t in texts ensures TextLe(least, t) {
        if t == one {
          TextLeReflexive(one);
        } else if least == one {
          TextLeTransitive(one, other, t);
        }
      }
    }
  }

  ghost predicate IsLeast(texts: set<string>, least: string) {
    least in texts && forall t | t in texts :: TextLe(least, t)
  }

  lemma LeastUnique(texts: set<string>, a: string, b: string)
    requires IsLeast(texts, a) && IsLeast(texts, b)
    ensures a == b
  {
    TextLeTotal(a, b);
  }

  /** Two arrangements of the same items that begin alike go on with the same items. */
  lemma TailsMatch<T>(a: seq<T>, b: seq<T>)
    requires multiset(a) == multiset(b) && a != [] && b != [] && a[0] == b[0]
    ensures multiset(a[1..]) == multiset(b[1..])
  {
    assert a == [a[0]] + a[1..] && b == [b[0]] + b[1..];
    assert multiset(a[1..]) == multiset(a) - multiset{a[0]};
    assert multiset(b[1..]) == multiset(b) - multiset{b[0]};
  }
}
