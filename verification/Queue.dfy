/** queue/queue.go: which keys the worker loop considers unresolved. */
module Queue {
  import opened Collections

  /** One turn of the worker loop: the key taken from the queue, and whether reconciling it would fail. */
  datatype Item = Item(key: string, failing: bool)

  function Slashes(key: string): nat {
    if key == "" then 0 else Slashes(key[1..]) + if key[0] == '/' then 1 else 0
  }

  /** Keys are namespace/name or name; anything else cannot be split and is never reconciled. */
  predicate Splits(key: string) {
    Slashes(key) <= 1
  }

  /** A key splits exactly when it has no two slashes: name and namespace/name do, a/b/c does not. */
  lemma SplitsExactly(key: string)
    ensures Splits(key) <==> forall i, j | 0 <= i < j < |key| :: key[i] != '/' || key[j] != '/'
  {
    SlashCount(key);
  }

  lemma {:induction false} SlashCount(key: string)
    ensures Slashes(key) > 0 <==> exists i | 0 <= i < |key| :: key[i] == '/'
    ensures Slashes(key) > 1 <==> exists i, j | 0 <= i < j < |key| :: key[i] == '/' && key[j] == '/'
  {
    if key != "" {
      var rest := key[1..];
      SlashCount(rest);
      assert forall i | 0 <= i < |rest| :: rest[i] == key[i + 1];
      assert forall i | 0 < i < |key| :: key[i] == rest[i - 1];
    }
  }

  /** Processing the item ends in a reconcile error: its key can be split, and reconciling it fails. */
  ghost predicate EndsInError(item: Item) {
    && item.failing
    && forall i, j | 0 <= i < j < |item.key| :: item.key[i] != '/' || item.key[j] != '/'
  }

  /** The most recent processing of `key` ended in a reconcile error. */
  ghost predicate LastFailed(history: seq<Item>, key: string) {
    exists i | 0 <= i < |history| ::
      && history[i].key == key && EndsInError(history[i])
      && forall j | i < j < |history| :: history[j].key != key
  }

  ghost function Unresolved(history: seq<Item>): set<string> {
    set i | 0 <= i < |history| && LastFailed(history, history[i].key) :: history[i].key
  }

  /** Processing an item settles its own key and no other. */
  lemma LastFailedAppend(history: seq<Item>, item: Item, key: string)
    ensures LastFailed(history + [item], key) <==> if item.key == key then EndsInError(item) else LastFailed(history, key)
  {
    var longer := history + [item];
    if item.key == key {
      assert longer[|history|] == item;
    } else {
      if LastFailed(history, key) {
        var i :| 0 <= i < |history| && history[i].key == key && EndsInError(history[i])
                 && forall j | i < j < |history| :: history[j].key != key;
        assert longer[i] == history[i];
      }
      if LastFailed(longer, key) {
        var i :| 0 <= i < |longer| && longer[i].key == key && EndsInError(longer[i])
                 && forall j | i < j < |longer| :: longer[j].key != key;
        assert forall j | i < j < |history| :: longer[j] == history[j];
      }
    }
  }

  /** `requeued` lists exactly the unresolved keys, each once. */
  ghost predicate Lists(requeued: seq<string>, history: seq<Item>) {
    NoDup(requeued) && forall key :: key in requeued <==> LastFailed(history, key)
  }

  /** So its length, which is what the metrics report, is the number of unresolved keys. */
  lemma LengthCountsUnresolved(requeued: seq<string>, history: seq<Item>)
    requires Lists(requeued, history)
    ensures |requeued| == |Unresolved(history)|
  {
    forall key ensures key in SetOf(requeued) <==> key in Unresolved(history) {
      assert key in requeued <==> LastFailed(history, key);
    }
    assert SetOf(requeued) == Unresolved(history);
    SetOfSize(requeued);
  }

  class Queue {
    var requeued: seq<string>
    ghost var history: seq<Item>

    ghost predicate Valid()
      reads this
    {
      Lists(requeued, history)
    }

    constructor ()
      ensures Valid() && history == [] && requeued == []
    {
      requeued, history := [], [];
    }

    method AddRequeued(key: string)
      modifies this`requeued
      ensures requeued == if key in old(requeued) then old(requeued) else old(requeued) + [key]
    {
      for i := 0 to |requeued|
        invariant requeued == old(requeued) && key !in requeued[..i]
      {
        if requeued[i] == key {
          return;
        }
      }
      assert requeued[..|requeued|] == requeued;
      requeued := requeued + [key];
    }

    /** Only the first occurrence is spliced out. */
    method RemoveRequeued(key: string)
      modifies this`requeued
      ensures if key in old(requeued)
              then exists i | 0 <= i < |old(requeued)| ::
                     && old(requeued)[i] == key && key !in old(requeued)[..i]
                     && requeued == old(requeued)[..i] + old(requeued)[i + 1..]
              else requeued == old(requeued)
    {
      for i := 0 to |requeued|
        invariant requeued == old(requeued) && key !in requeued[..i]
      {
        if requeued[i] == key {
          requeued := requeued[..i] + requeued[i + 1..];
          return;
        }
      }
      assert requeued[..|requeued|] == requeued;
    }

    method ProcessItem(item: Item)
      requires Valid()
      modifies this
      ensures Valid() && history == old(history) + [item]
    {
      SplitsExactly(item.key);
      hide Slashes;
      ghost var before := requeued;
      if !Splits(item.key) {
        RemoveRequeued(item.key);
        Resolved(before, requeued, history, item);
      } else if item.failing {
        AddRequeued(item.key);
        Failed(before, requeued, history, item);
      } else {
        RemoveRequeued(item.key);
        Resolved(before, requeued, history, item);
      }
      history := history + [item];
    }

    /** The worker loop, until the queue is shut down after `items`. */
    method Run(items: seq<Item>)
      requires Valid()
      modifies this
      ensures Valid() && history == old(history) + items
      ensures |requeued| == |Unresolved(history)|
    {
      hide Lists;
      for i := 0 to |items|
        invariant Valid() && history == old(history) + items[..i]
      {
        ProcessItem(items[i]);
      }
      assert items[..|items|] == items;
      LengthCountsUnresolved(requeued, history);
    }
  }

  lemma Failed(before: seq<string>, after: seq<string>, history: seq<Item>, item: Item)
    requires Lists(before, history) && EndsInError(item)
    requires after == if item.key in before then before else before + [item.key]
    ensures Lists(after, history + [item])
  {
    hide LastFailed;
    forall key ensures key in after <==> LastFailed(history + [item], key) {
      LastFailedAppend(history, item, key);
    }
  }

  lemma Resolved(before: seq<string>, after: seq<string>, history: seq<Item>, item: Item)
    requires Lists(before, history) && !EndsInError(item)
    requires if item.key in before
             then exists i | 0 <= i < |before| ::
                    before[i] == item.key && item.key !in before[..i] && after == before[..i] + before[i + 1..]
             else after == before
    ensures Lists(after, history + [item])
  {
    hide LastFailed;
    if item.key in before {
      var i :| 0 <= i < |before| && before[i] == item.key && after == before[..i] + before[i + 1..];
      SplicedOut(before, after, i);
    }
    forall key ensures key in after <==> LastFailed(history + [item], key) {
      LastFailedAppend(history, item, key);
    }
  }

  lemma SplicedOut(before: seq<string>, after: seq<string>, i: nat)
    requires NoDup(before) && i < |before| && after == before[..i] + before[i + 1..]
    ensures NoDup(after) && forall key :: key in after <==> key in before && key != before[i]
  {
    assert forall j | 0 <= j < |after| :: after[j] == if j < i then before[j] else before[j + 1];
    forall key | key in before && key != before[i] ensures key in after {
      var j :| 0 <= j < |before| && before[j] == key;
      assert after[if j < i then j else j - 1] == key;
    }
  }
}
