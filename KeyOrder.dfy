/**
 * The order in which the server's client registry, a std::map keyed by host
 * string, visits its keys: ascending lexicographic order, character by
 * character, a proper prefix coming first.
 */
module KeyOrder {

  /** Strict lexicographic order on strings, as std::string's operator< compares them. */
  predicate KeyLess(a: string, b: string)
    decreases |a|
  {
    if a == [] then b != []
    else if b == [] then false
    else if a[0] != b[0] then a[0] < b[0]
    else KeyLess(a[1..], b[1..])
  }

  /** Every element of `s` is `k` or comes after it. */
  predicate IsLeast(k: string, s: set<string>)
  {
    k in s && forall x :: x in s && x != k ==> KeyLess(k, x)
  }

  /** Strictly ascending, hence without duplicates. */
  predicate Ascending(keys: seq<string>)
  {
    forall i, j :: 0 <= i < j < |keys| ==> KeyLess(keys[i], keys[j])
  }

  lemma {:induction false} KeyLessIrreflexive(a: string)
    ensures !KeyLess(a, a)
    decreases |a|
  {
    if a != [] {
      KeyLessIrreflexive(a[1..]);
    }
  }

  lemma {:induction false} KeyLessTransitive(a: string, b: string, c: string)
    requires KeyLess(a, b) && KeyLess(b, c)
    ensures KeyLess(a, c)
    decreases |a|
  {
    if a != [] && b != [] && c != [] && a[0] == b[0] && b[0] == c[0] {
      KeyLessTransitive(a[1..], b[1..], c[1..]);
    }
  }

  lemma {:induction false} KeyLessTotal(a: string, b: string)
    ensures a == b || KeyLess(a, b) || KeyLess(b, a)
    decreases |a|
  {
    if a != [] && b != [] && a[0] == b[0] {
      KeyLessTotal(a[1..], b[1..]);
      assert a == [a[0]] + a[1..] && b == [b[0]] + b[1..];
    }
  }

  lemma KeyLessAsymmetric(a: string, b: string)
    requires KeyLess(a, b)
    ensures !KeyLess(b, a)
  {
  }

  /** A finite non-empty set of keys has a least key. */
  lemma {:induction false} LeastExists(s: set<string>)
    requires s != {}
    ensures exists k :: IsLeast(k, s)
    decreases |s|
  {
    var x :| x in s;
    var rest := s - {x};
    if rest == {} {
      assert s == {x};
      assert IsLeast(x, s);
    } else {
      LeastExists(rest);
      var y :| IsLeast(y, rest);
      KeyLessTotal(x, y);
      if KeyLess(x, y) {
        forall z | z in s && z != x
          ensures KeyLess(x, z)
        {
          if z != y {
            KeyLessTransitive(x, y, z);
          }
        }
        assert IsLeast(x, s);
      } else {
        assert IsLeast(y, s);
      }
    }
  }

  /** The least key of a set is unique. */
  lemma LeastUnique(s: set<string>)
    ensures forall a, b :: IsLeast(a, s) && IsLeast(b, s) ==> a == b
  {
    forall a, b | IsLeast(a, s) && IsLeast(b, s)
      ensures a == b
    {
      if a != b {
        KeyLessAsymmetric(a, b);
      }
    }
  }

  /** The keys of `s` in the order a std::map iterates them. */
  function SortedKeys(s: set<string>): (r: seq<string>)
    ensures |r| == |s|
    ensures forall k :: k in r <==> k in s
    ensures Ascending(r)
    decreases |s|
  {
    if s == {} then []
    else
      LeastExists(s);
      LeastUnique(s);
      var k :| IsLeast(k, s);
      [k] + SortedKeys(s - {k})
  }

  /** An ascending enumeration of a set is unique, so SortedKeys is the only one. */
  lemma {:induction false} AscendingUnique(a: seq<string>, b: seq<string>)
    requires Ascending(a) && Ascending(b)
    requires forall k :: k in a <==> k in b
    ensures a == b
    decreases |a|
  {
    if a != [] && b != [] {
      if a[0] != b[0] {
        assert b[0] in a;
        assert KeyLess(a[0], b[0]);
        assert a[0] in b;
        KeyLessAsymmetric(a[0], b[0]);
      }
      forall k
        ensures k in a[1..] <==> k in b[1..]
      {
        if k in a[1..] {
          var j :| 1 <= j < |a| && a[j] == k;
          KeyLessIrreflexive(a[0]);
          assert k in b && k != b[0];
          assert k == b[1..][IndexOf(b, k) - 1];
        }
        if k in b[1..] {
          var j :| 1 <= j < |b| && b[j] == k;
          KeyLessIrreflexive(b[0]);
          assert k in a && k != a[0];
          assert k == a[1..][IndexOf(a, k) - 1];
        }
      }
      AscendingUnique(a[1..], b[1..]);
    } else if a != [] {
      HeadIsMember(a);
      assert false;
    } else if b != [] {
      HeadIsMember(b);
      assert false;
    }
  }

  /** Names the term `keys[0] in keys`, so that an impossible branch can end in a bare `assert false`. */
  lemma HeadIsMember(keys: seq<string>)
    requires keys != []
    ensures keys[0] in keys
  {
  }

  function IndexOf(keys: seq<string>, k: string): (i: nat)
    requires k in keys
    ensures i < |keys| && keys[i] == k
  {
    if keys[0] == k then 0 else 1 + IndexOf(keys[1..], k)
  }

  lemma SortedKeysUnique(s: set<string>, order: seq<string>)
    requires Ascending(order)
    requires forall k :: k in order <==> k in s
    ensures order == SortedKeys(s)
  {
    AscendingUnique(order, SortedKeys(s));
  }
}
