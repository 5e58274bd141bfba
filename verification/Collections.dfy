/** Stock containers, and what it means to visit a Go map in some order. */
module Collections {

  datatype Option<+T> = None | Some(value: T)

  datatype Result<+T, +E> = Ok(value: T) | Err(error: E)

  ghost predicate NoDup<T>(s: seq<T>) {
    forall i, j | 0 <= i < j < |s| :: s[i] != s[j]
  }

  function SetOf<T>(s: seq<T>): set<T> {
    set x | x in s
  }

  /** Go visits a map's keys in an arbitrary order: `order` is one such visit of `keys`. */
  ghost predicate IsEnumeration<T>(order: seq<T>, keys: set<T>) {
    && NoDup(order)
    && (forall x | x in order :: x in keys)
    && (forall x | x in keys :: x in order)
  }

  predicate Within<T(==)>(order: seq<T>, keys: set<T>) {
    forall i | 0 <= i < |order| :: order[i] in keys
  }

  lemma EnumerationWithin<T>(order: seq<T>, keys: set<T>)
    ensures IsEnumeration(order, keys) ==> Within(order, keys)
  {
  }

  lemma ExtendEnumeration<T>(order: seq<T>, keys: set<T>, x: T)
    requires IsEnumeration(order, keys) && x !in keys
    ensures IsEnumeration(order + [x], keys + {x})
  {
  }

  /** Go picks the next key of a map as it likes. */
  method Pick<T(==)>(s: set<T>) returns (x: T)
    requires s != {}
    ensures x in s
  {
    x :| x in s;
  }

  /** Every finite set of keys can be visited. */
  lemma EnumerationExists<T>(keys: set<T>) returns (order: seq<T>)
    ensures IsEnumeration(order, keys) && (keys != {} ==> order != [])
  {
    if keys == {} {
      order := [];
    } else {
      var x :| x in keys;
      var rest := EnumerationExists(keys - {x});
      ExtendEnumeration(rest, keys - {x}, x);
      assert keys - {x} + {x} == keys;
      order := rest + [x];
    }
  }

  /** A sequence never has more distinct elements than positions. */
  lemma {:induction false} SetOfSize<T>(s: seq<T>)
    ensures |SetOf(s)| <= |s|
    ensures NoDup(s) <==> |SetOf(s)| == |s|
  {
    if s != [] {
      var init, last := s[..|s| - 1], s[|s| - 1];
      SetOfSize(init);
      assert s == init + [last];
      assert SetOf(s) == SetOf(init) + {last};
      if last in init {
        var i :| 0 <= i < |init| && init[i] == last;
        assert s[i] == s[|s| - 1] && SetOf(s) == SetOf(init);
      } else {
        assert last !in SetOf(init);
      }
    }
  }

  /** The values filed under key `k`, in order. */
  function Select<K(==), V>(adds: seq<(K, V)>, k: K): seq<V> {
    if adds == [] then []
    else
      var init, last := adds[..|adds| - 1], adds[|adds| - 1];
      if last.0 == k then Select(init, k) + [last.1] else Select(init, k)
  }

  lemma {:induction false} SelectConcat<K, V>(a: seq<(K, V)>, b: seq<(K, V)>, k: K)
    ensures Select(a + b, k) == Select(a, k) + Select(b, k)
  {
    if b == [] {
      assert a + b == a;
    } else {
      var init := b[..|b| - 1];
      assert (a + b)[..|a + b| - 1] == a + init;
      SelectConcat(a, init, k);
    }
  }

  lemma {:induction false} SelectAbsent<K, V>(adds: seq<(K, V)>, k: K)
    ensures Select(adds, k) == [] <==> forall i | 0 <= i < |adds| :: adds[i].0 != k
  {
    if adds != [] {
      SelectAbsent(adds[..|adds| - 1], k);
    }
  }

  function Filter<T>(p: T -> bool, s: seq<T>): seq<T> {
    if s == [] then [] else Filter(p, s[..|s| - 1]) + (if p(s[|s| - 1]) then [s[|s| - 1]] else [])
  }

  lemma {:induction false} FilterMembers<T>(p: T -> bool, s: seq<T>)
    ensures forall x :: x in Filter(p, s) <==> x in s && p(x)
  {
    if s != [] {
      FilterMembers(p, s[..|s| - 1]);
      assert s == s[..|s| - 1] + [s[|s| - 1]];
    }
  }

  function Flatten<T>(ss: seq<seq<T>>): seq<T> {
    if ss == [] then [] else Flatten(ss[..|ss| - 1]) + ss[|ss| - 1]
  }

  lemma {:induction false} FlattenMembers<T>(ss: seq<seq<T>>)
    ensures forall x :: x in Flatten(ss) <==> exists i | 0 <= i < |ss| :: x in ss[i]
  {
    if ss != [] {
      var init := ss[..|ss| - 1];
      FlattenMembers(init);
      assert forall i | 0 <= i < |init| :: init[i] == ss[i];
    }
  }
}
