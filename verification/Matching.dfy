/** xds/utils.go, resourcesMatch: the test that lets a request skip a snapshot update. */
module Matching {
  import opened Collections

  predicate ResourcesMatch(stored: seq<string>, requested: seq<string>) {
    |stored| == |requested| && forall e | e in requested :: e in stored
  }

  method ComputeResourcesMatch(stored: seq<string>, requested: seq<string>) returns (same: bool)
    ensures same == ResourcesMatch(stored, requested)
  {
    if |stored| != |requested| {
      return false;
    }
    for i := 0 to |requested|
      invariant forall e | e in requested[..i] :: e in stored
    {
      var inSlice := false;
      for j := 0 to |stored|
        invariant !inSlice && requested[i] !in stored[..j]
      {
        if requested[i] == stored[j] {
          inSlice := true;
          break;
        }
      }
      if !inSlice {
        assert stored[..|stored|] == stored;
        return false;
      }
    }
    return true;
  }

  lemma SubsetOfSameSize<T>(a: set<T>, b: set<T>)
    requires a <= b && |b| <= |a|
    ensures a == b
  {
    assert |b| == |a| + |b - a| by {
      assert b == a + (b - a);
    }
  }

  /** A pigeonhole argument: a duplicate-free request that matches names exactly the stored names. */
  lemma MatchNamesTheSame(stored: seq<string>, requested: seq<string>)
    requires ResourcesMatch(stored, requested) && NoDup(requested)
    ensures SetOf(stored) == SetOf(requested) && NoDup(stored)
  {
    SetOfSize(stored);
    SetOfSize(requested);
    SubsetOfSameSize(SetOf(requested), SetOf(stored));
  }

  /** Asking for the stored names again, in any order, is a match. */
  lemma ReorderingMatches(stored: seq<string>, requested: seq<string>)
    requires multiset(stored) == multiset(requested)
    ensures ResourcesMatch(stored, requested)
  {
    assert |stored| == |multiset(stored)| == |multiset(requested)| == |requested|;
    forall e | e in requested ensures e in stored {
      assert e in multiset(requested);
    }
  }

  /** For lists without duplicates a match means neither more nor less than the same names. */
  lemma MatchExactly(stored: seq<string>, requested: seq<string>)
    requires NoDup(stored) && NoDup(requested)
    ensures ResourcesMatch(stored, requested) <==> SetOf(stored) == SetOf(requested)
  {
    if ResourcesMatch(stored, requested) {
      MatchNamesTheSame(stored, requested);
    }
    if SetOf(stored) == SetOf(requested) {
      SetOfSize(stored);
      SetOfSize(requested);
      assert forall e | e in requested :: e in SetOf(requested);
    }
  }

  function TotalLength(names: seq<string>): nat {
    if names == [] then 0 else TotalLength(names[..|names| - 1]) + |names[|names| - 1]|
  }

  lemma {:induction false} LengthBound(names: seq<string>, name: string)
    requires name in names
    ensures |name| <= TotalLength(names)
  {
    if names[|names| - 1] != name {
      assert name in names[..|names| - 1];
      LengthBound(names[..|names| - 1], name);
    }
  }

  /**
    Exactly when the test can be trusted: whatever was stored, a match means the same set of names
    if and only if the request has no duplicates.
   */
  lemma MatchTrustworthy(requested: seq<string>)
    ensures (forall stored | ResourcesMatch(stored, requested) :: SetOf(stored) == SetOf(requested)) <==> NoDup(requested)
  {
    if NoDup(requested) {
      forall stored | ResourcesMatch(stored, requested) ensures SetOf(stored) == SetOf(requested) {
        MatchNamesTheSame(stored, requested);
      }
    } else {
      var i, j :| 0 <= i < j < |requested| && requested[i] == requested[j];
      var unseen := seq(TotalLength(requested) + 1, _ => 'x');
      if unseen in requested {
        LengthBound(requested, unseen);
      }
      var stored := requested[j := unseen];
      forall e | e in requested ensures e in stored {
        var k :| 0 <= k < |requested| && requested[k] == e;
        assert stored[if k == j then i else k] == e;
      }
      assert stored[j] in SetOf(stored) && unseen !in SetOf(requested);
      assert ResourcesMatch(stored, requested) && SetOf(stored) != SetOf(requested);
    }
  }

  /** The shortest failure: stored [x, y] passes for the request [x, x]. */
  lemma DuplicatesFoolTheMatch(x: string, y: string)
    requires x != y
    ensures ResourcesMatch([x, y], [x, x]) && SetOf([x, y]) != SetOf([x, x])
  {
    assert y in SetOf([x, y]) && y !in SetOf([x, x]);
  }
}
