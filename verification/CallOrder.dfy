/**
 * Python's ordering of `(turn_id, call_id)` string pairs and the `sorted(...)`
 * built from it.
 */
module CallOrder {

  type Key = (string, string)

  /** Lexicographic order on code points. */
  predicate StringLeq(a: string, b: string)
    decreases |a|
  {
    if a == [] then true
    else if b == [] then false
    else a[0] < b[0] || (a[0] == b[0] && StringLeq(a[1..], b[1..]))
  }

  /** The strings first differ at `k`, where `a` has the smaller character. */
  ghost predicate SmallerAt(a: string, b: string, k: int) {
    0 <= k < |a| && k < |b| && a[..k] == b[..k] && a[k] < b[k]
  }

  /** A string comes before what it begins, and is otherwise ordered where the two first differ. */
  lemma {:induction false} StringLeqIsLexicographic(a: string, b: string)
    ensures StringLeq(a, b) <==> a <= b || exists k :: SmallerAt(a, b, k)
    decreases |a|
  {
    if a != [] && b != [] {
      assert a == [a[0]] + a[1..] && b == [b[0]] + b[1..];
      if a[0] < b[0] {
        assert SmallerAt(a, b, 0);
      } else if a[0] == b[0] {
        StringLeqIsLexicographic(a[1..], b[1..]);
        if k :| SmallerAt(a[1..], b[1..], k) {
          assert a[..k + 1] == [a[0]] + a[1..][..k] && b[..k + 1] == [b[0]] + b[1..][..k];
          assert SmallerAt(a, b, k + 1);
        }
        if k :| SmallerAt(a, b, k) {
          assert a[1..][..k - 1] == a[..k][1..] && b[1..][..k - 1] == b[..k][1..];
          assert SmallerAt(a[1..], b[1..], k - 1);
        }
      }
    }
  }

  lemma {:induction false} StringLeqTotal(a: string, b: string)
    ensures StringLeq(a, b) || StringLeq(b, a)
    decreases |a|
  {
    if a != [] && b != [] && a[0] == b[0] {
      StringLeqTotal(a[1..], b[1..]);
    }
  }

  lemma {:induction false} StringLeqAntisymmetric(a: string, b: string)
    requires StringLeq(a, b) && StringLeq(b, a)
    ensures a == b
    decreases |a|
  {
    if a != [] && b != [] {
      StringLeqAntisymmetric(a[1..], b[1..]);
      assert a == [a[0]] + a[1..] && b == [b[0]] + b[1..];
    }
  }

  lemma {:induction false} StringLeqTransitive(a: string, b: string, c: string)
    requires StringLeq(a, b) && StringLeq(b, c)
    ensures StringLeq(a, c)
    decreases |a|
  {
    if a != [] && a[0] == b[0] && b[0] == c[0] {
      StringLeqTransitive(a[1..], b[1..], c[1..]);
    }
  }

  predicate KeyLeq(a: Key, b: Key) {
    if a.0 == b.0 then StringLeq(a.1, b.1) else StringLeq(a.0, b.0)
  }

  lemma KeyLeqTotal(a: Key, b: Key)
    ensures KeyLeq(a, b) || KeyLeq(b, a)
  {
    StringLeqTotal(a.0, b.0);
    StringLeqTotal(a.1, b.1);
  }

  lemma KeyLeqAntisymmetric(a: Key, b: Key)
    requires KeyLeq(a, b) && KeyLeq(b, a)
    ensures a == b
  {
    if a.0 == b.0 {
      StringLeqAntisymmetric(a.1, b.1);
    } else {
      StringLeqAntisymmetric(a.0, b.0);
    }
  }

  lemma KeyLeqTransitive(a: Key, b: Key, c: Key)
    requires KeyLeq(a, b) && KeyLeq(b, c)
    ensures KeyLeq(a, c)
  {
    if a.0 == b.0 == c.0 {
      StringLeqTransitive(a.1, b.1, c.1);
    } else if a.0 != b.0 && b.0 != c.0 {
      StringLeqTransitive(a.0, b.0, c.0);
      if a.0 == c.0 {
        StringLeqAntisymmetric(a.0, b.0);
      }
    }
  }

  ghost predicate IsLeast(k: Key, keys: set<Key>) {
    k in keys && forall other <- keys :: KeyLeq(k, other)
  }

  lemma {:induction false} LeastExists(keys: set<Key>)
    requires keys != {}
    ensures exists k :: IsLeast(k, keys)
  {
    var k :| k in keys;
    KeyLeqTotal(k, k);
    if keys == {k} {
      assert IsLeast(k, keys);
    } else {
      LeastExists(keys - {k});
      var rest :| IsLeast(rest, keys - {k});
      KeyLeqTotal(k, rest);
      var least := if KeyLeq(k, rest) then k else rest;
      forall other <- keys
        ensures KeyLeq(least, other)
      {
        if other != k && KeyLeq(k, rest) { KeyLeqTransitive(k, rest, other); }
      }
      assert IsLeast(least, keys);
    }
  }

  ghost function Least(keys: set<Key>): (k: Key)
    requires keys != {}
    ensures IsLeast(k, keys)
  {
    LeastExists(keys);
    var k :| IsLeast(k, keys);
    k
  }

  /** `sorted(keys)`: the least key, then the rest in order. */
  ghost function Sorted(keys: set<Key>): seq<Key>
    decreases keys
  {
    if keys == {} then []
    else
      var k := Least(keys);
      [k] + Sorted(keys - {k})
  }

  lemma {:induction false} SortedIsOrderedEnumeration(keys: set<Key>)
    ensures forall k :: k in Sorted(keys) <==> k in keys
    ensures |Sorted(keys)| == |keys|
    ensures forall i, j :: 0 <= i < j < |Sorted(keys)| ==>
                             Sorted(keys)[i] != Sorted(keys)[j] && KeyLeq(Sorted(keys)[i], Sorted(keys)[j])
    decreases keys
  {
    if keys != {} {
      SortedIsOrderedEnumeration(keys - {Least(keys)});
      var rest := Sorted(keys - {Least(keys)});
      assert Sorted(keys) == [Least(keys)] + rest;
      forall i, j | 0 <= i < j < |Sorted(keys)|
        ensures Sorted(keys)[i] != Sorted(keys)[j] && KeyLeq(Sorted(keys)[i], Sorted(keys)[j])
      {
        assert Sorted(keys)[j] == rest[j - 1] && rest[j - 1] in rest;
      }
    }
  }

  lemma SortedUnfold(keys: set<Key>, k: Key)
    requires IsLeast(k, keys)
    ensures Sorted(keys) == [k] + Sorted(keys - {k})
  {
    KeyLeqAntisymmetric(k, Least(keys));
  }

  method FindLeast(keys: set<Key>) returns (least: Key)
    requires keys != {}
    ensures IsLeast(least, keys)
  {
    least :| least in keys;
    KeyLeqTotal(least, least);
    var unseen := keys - {least};
    while unseen != {}
      invariant unseen <= keys
      invariant IsLeast(least, keys - unseen)
      decreases unseen
    {
      var k :| k in unseen;
      KeyLeqTotal(k, k);
      KeyLeqTotal(least, k);
      if !KeyLeq(least, k) {
        forall other <- keys - unseen
          ensures KeyLeq(k, other)
        {
          KeyLeqTransitive(k, least, other);
        }
        least := k;
      }
      unseen := unseen - {k};
    }
    assert keys - unseen == keys;
  }

  /** The executable form: repeatedly take the least key that is left. */
  method Sort(keys: set<Key>) returns (r: seq<Key>)
    ensures r == Sorted(keys)
  {
    r := [];
    var left := keys;
    while left != {}
      invariant r + Sorted(left) == Sorted(keys)
      decreases left
    {
      var least := FindLeast(left);
      SortedUnfold(left, least);
      assert r + ([least] + Sorted(left - {least})) == (r + [least]) + Sorted(left - {least});
      r, left := r + [least], left - {least};
    }
  }
}
