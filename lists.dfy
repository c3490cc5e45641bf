/**
 * The two list operations the registry of published names is built with:
 * an order-preserving, duplicate-free union and an order-preserving difference.
 */
module Lists {

  predicate NoDup<T(==)>(s: seq<T>) {
    forall i, j | 0 <= i < j < |s| :: s[i] != s[j]
  }

  function Elems<T>(s: seq<T>): set<T> {
    set x | x in s
  }

  lemma ElemsConcat<T>(a: seq<T>, b: seq<T>)
    ensures Elems(a + b) == Elems(a) + Elems(b)
  {
  }

  lemma NoDupTail<T>(a: seq<T>)
    requires NoDup(a) && a != []
    ensures a[0] !in Elems(a[1..]) && NoDup(a[1..])
  {
  }

  lemma NoDupConcat<T>(p: seq<T>, q: seq<T>)
    requires NoDup(p) && NoDup(q) && Elems(p) !! Elems(q)
    ensures NoDup(p + q)
  {
    forall i, j | 0 <= i < j < |p + q| ensures (p + q)[i] != (p + q)[j] {
      if j < |p| {
      } else if i < |p| {
        assert (p + q)[i] in Elems(p) && (p + q)[j] == q[j - |p|] && q[j - |p|] in Elems(q);
      } else {
        assert (p + q)[i] == q[i - |p|] && (p + q)[j] == q[j - |p|];
      }
    }
  }

  /** Appends to `acc` each element of `s`, in order, that is not there yet. */
  function AppendNew<T(==)>(acc: seq<T>, s: seq<T>): (r: seq<T>)
    ensures NoDup(acc) ==> NoDup(r)
    ensures |acc| <= |r| && r[..|acc|] == acc
    ensures Elems(r) == Elems(acc) + Elems(s)
    decreases |s|
  {
    if s == [] then acc
    else
      var next := if s[0] in acc then acc else acc + [s[0]];
      assert Elems(s) == {s[0]} + Elems(s[1..]) by { assert s == [s[0]] + s[1..]; ElemsConcat([s[0]], s[1..]); }
      assert Elems(next) == Elems(acc) + {s[0]} by { ElemsConcat(acc, [s[0]]); }
      var r := AppendNew(next, s[1..]);
      assert r[..|acc|] == r[..|next|][..|acc|];
      r
  }

  lemma {:induction false} AppendNewConcat<T>(acc: seq<T>, a: seq<T>, b: seq<T>)
    ensures AppendNew(acc, a + b) == AppendNew(AppendNew(acc, a), b)
    decreases |a|
  {
    if a != [] {
      assert (a + b)[0] == a[0] && (a + b)[1..] == a[1..] + b;
      AppendNewConcat(if a[0] in acc then acc else acc + [a[0]], a[1..], b);
    } else {
      assert a + b == b;
    }
  }

  lemma {:induction false} AppendNewFresh<T>(acc: seq<T>, s: seq<T>)
    requires NoDup(acc + s)
    ensures AppendNew(acc, s) == acc + s
    decreases |s|
  {
    if s != [] {
      assert s[0] == (acc + s)[|acc|];
      forall i | 0 <= i < |acc| ensures acc[i] != s[0] {
        assert (acc + s)[i] == acc[i];
      }
      assert (acc + [s[0]]) + s[1..] == acc + s;
      AppendNewFresh(acc + [s[0]], s[1..]);
    }
  }

  lemma {:induction false} AppendNewKnown<T>(acc: seq<T>, s: seq<T>)
    requires Elems(s) <= Elems(acc)
    ensures AppendNew(acc, s) == acc
    decreases |s|
  {
    if s != [] {
      assert s[0] in Elems(s);
      assert Elems(s[1..]) <= Elems(s) by { assert forall x | x in s[1..] :: x in s; }
      AppendNewKnown(acc, s[1..]);
    }
  }

  /**
   * Underscore's `_.union(a, b)`: the distinct elements of `a + b` in order of
   * first occurrence. A list `a` without repeats is kept as it is, and the
   * elements of `b` it lacks follow, in their order in `b`, each once.
   */
  function Union<T(==)>(a: seq<T>, b: seq<T>): (r: seq<T>)
    ensures NoDup(r)
    ensures Elems(r) == Elems(a) + Elems(b)
    ensures NoDup(a) ==> |a| <= |r| && r[..|a|] == a
    ensures NoDup(a) ==> r == a + AppendNew([], Difference(b, a))
    ensures NoDup(a) && NoDup(b) ==> r == a + Difference(b, a)
    ensures NoDup(a + b) ==> r == a + b
  {
    ElemsConcat(a, b);
    if NoDup(a) then
      AppendNewConcat([], a, b);
      AppendNewFresh([], a);
      assert [] + a == a;
      AppendNewDifference(a, b);
      assert NoDup(b) ==> AppendNew([], Difference(b, a)) == Difference(b, a) by {
        if NoDup(b) {
          AppendNewFresh([], Difference(b, a));
          assert [] + Difference(b, a) == Difference(b, a);
        }
      }
      assert NoDup(a + b) ==> AppendNew([], a + b) == a + b by {
        if NoDup(a + b) {
          AppendNewFresh([], a + b);
          assert [] + (a + b) == a + b;
        }
      }
      AppendNew([], a + b)
    else
      assert !NoDup(a + b) by {
        var i, j :| 0 <= i < j < |a| && a[i] == a[j];
        assert (a + b)[i] == a[i] && (a + b)[j] == a[j];
      }
      AppendNew([], a + b)
  }

  /** Underscore's `_.difference(a, b)`: the elements of `a` not in `b`, in their order in `a`. */
  function Difference<T(==)>(a: seq<T>, b: seq<T>): (r: seq<T>)
    ensures Elems(r) == Elems(a) - Elems(b)
    ensures NoDup(a) ==> NoDup(r)
    ensures |r| <= |a|
  {
    if a == [] then []
    else
      var head := if a[0] in b then [] else [a[0]];
      var rest := Difference(a[1..], b);
      assert Elems(a) == {a[0]} + Elems(a[1..]) by { assert a == [a[0]] + a[1..]; ElemsConcat([a[0]], a[1..]); }
      ElemsConcat(head, rest);
      if NoDup(a) then
        NoDupTail(a);
        NoDupConcat(head, rest);
        head + rest
      else
        head + rest
  }

  /** Removing `b` and then `c` is removing `b + c`. */
  lemma {:induction false} DifferenceTwice<T>(a: seq<T>, b: seq<T>, c: seq<T>)
    ensures Difference(Difference(a, b), c) == Difference(a, b + c)
    decreases |a|
  {
    if a != [] {
      var head := if a[0] in b then [] else [a[0]];
      DifferenceConcat(head, Difference(a[1..], b), c);
      DifferenceTwice(a[1..], b, c);
      assert Difference(head, c) == if a[0] in b + c then [] else [a[0]] by {
        if head != [] {
          assert head[1..] == [];
        }
      }
    }
  }

  /** Appending to `acc` adds, in order and once each, the elements of `s` that `acc` lacks. */
  lemma {:induction false} AppendNewDifference<T>(acc: seq<T>, s: seq<T>)
    ensures AppendNew(acc, s) == acc + AppendNew([], Difference(s, acc))
    decreases |s|
  {
    if s == [] {
      assert acc + [] == acc;
    } else if s[0] in acc {
      assert AppendNew(acc, s) == AppendNew(acc, s[1..]);
      assert Difference(s, acc) == Difference(s[1..], acc);
      AppendNewDifference(acc, s[1..]);
    } else {
      var x, d := s[0], Difference(s[1..], acc);
      var e := Difference(s[1..], acc + [x]);
      var t := AppendNew([], e);
      assert acc + [x] + t == acc + ([x] + t);
      assert AppendNew(acc, s) == AppendNew(acc + [x], s[1..]);
      AppendNewDifference(acc + [x], s[1..]);
      assert Difference(s, acc) == [x] + d;
      assert ([x] + d)[0] == x && ([x] + d)[1..] == d && [] + [x] == [x];
      assert AppendNew([], [x] + d) == AppendNew([x], d);
      AppendNewDifference([x], d);
      DifferenceTwice(s[1..], acc, [x]);
      assert AppendNew([x], d) == [x] + t;
    }
  }

  /** Removing is a filter: it distributes over concatenation, so the order of what stays is kept. */
  lemma {:induction false} DifferenceConcat<T>(p: seq<T>, q: seq<T>, b: seq<T>)
    ensures Difference(p + q, b) == Difference(p, b) + Difference(q, b)
    decreases |p|
  {
    if p == [] {
      assert p + q == q;
    } else {
      assert (p + q)[0] == p[0] && (p + q)[1..] == p[1..] + q;
      DifferenceConcat(p[1..], q, b);
    }
  }

  /** Removing names that are not there changes nothing; removing nothing changes nothing. */
  lemma {:induction false} DifferenceDisjoint<T>(a: seq<T>, b: seq<T>)
    requires Elems(a) !! Elems(b)
    ensures Difference(a, b) == a
    decreases |a|
  {
    if a != [] {
      assert a[0] in Elems(a);
      assert Elems(a[1..]) <= Elems(a) by { assert forall x | x in a[1..] :: x in a; }
      DifferenceDisjoint(a[1..], b);
      assert a == [a[0]] + a[1..];
    }
  }

  /** Removing every element of `b` from a list whose elements all lie in `b` leaves nothing. */
  lemma {:induction false} DifferenceCovered<T>(a: seq<T>, b: seq<T>)
    requires Elems(a) <= Elems(b)
    ensures Difference(a, b) == []
    decreases |a|
  {
    if a != [] {
      assert a[0] in Elems(a);
      assert Elems(a[1..]) <= Elems(a) by { assert forall x | x in a[1..] :: x in a; }
      DifferenceCovered(a[1..], b);
    }
  }
}
