/** ORDER BY ... LIMIT picks exactly one set of rows. */
module Claims {
  import opened Tables
  import opened Machine
  import opened Rows

  /** The row that precedes all others of a non-empty set. */
  lemma {:induction false} EarliestExists(t: QueueTable, ids: set<MessageId>) returns (m: MessageId)
    requires ids <= t.Keys && ids != {} && DistinctPositions(t)
    ensures m in ids && forall j | j in ids && j != m :: Precedes(t[m], t[j])
  {
    m :| m in ids;
    if ids != {m} {
      var n := EarliestExists(t, ids - {m});
      if !Precedes(t[m], t[n]) {
        m := n;
      }
    }
  }

  lemma {:induction false} FirstExists(t: QueueTable, candidates: set<MessageId>, limit: nat)
    returns (chosen: set<MessageId>)
    requires candidates <= t.Keys && DistinctPositions(t)
    ensures IsFirst(t, candidates, limit, chosen)
  {
    if limit == 0 || candidates == {} {
      chosen := {};
    } else {
      var m := EarliestExists(t, candidates);
      var rest := FirstExists(t, candidates - {m}, limit - 1);
      chosen := rest + {m};
      assert |chosen| == |rest| + 1;
      assert |candidates| == |candidates - {m}| + 1;
    }
  }

  lemma {:induction false} SubsetSize<T>(a: set<T>, b: set<T>)
    requires a <= b
    ensures |a| <= |b|
  {
    if a != {} {
      var x :| x in a;
      SubsetSize(a - {x}, b - {x});
    }
  }

  lemma SubsetSmaller<T>(a: set<T>, b: set<T>, x: T)
    requires a <= b && x in b && x !in a
    ensures |a| < |b|
  {
    SubsetSize(a, b - {x});
  }

  lemma FirstIncluded(t: QueueTable, candidates: set<MessageId>, limit: nat, a: set<MessageId>, b: set<MessageId>)
    requires candidates <= t.Keys
    requires IsFirst(t, candidates, limit, a) && IsFirst(t, candidates, limit, b)
    ensures a <= b
  {
    forall i | i in a ensures i in b {
      if i !in b && b <= a {
        SubsetSmaller(b, a, i);
      }
    }
  }

  /** Two choices of the same limit agree, whatever the order the database scanned the rows in. */
  lemma FirstUnique(t: QueueTable, candidates: set<MessageId>, limit: nat, a: set<MessageId>, b: set<MessageId>)
    requires candidates <= t.Keys
    requires IsFirst(t, candidates, limit, a) && IsFirst(t, candidates, limit, b)
    ensures a == b
  {
    FirstIncluded(t, candidates, limit, a, b);
    FirstIncluded(t, candidates, limit, b, a);
  }

  lemma {:induction false} ListingSize(order: seq<MessageId>)
    requires Distinct(order)
    ensures |Elements(order)| == |order|
  {
    if order != [] {
      var init := order[..|order| - 1];
      ListingSize(init);
      assert Elements(order) == Elements(init) + {order[|order| - 1]};
    }
  }

  /** A claim takes row i before any row behind it: i is left out only when `limit` rows are ahead. */
  lemma LeftOutMeansFull(t: QueueTable, candidates: set<MessageId>, limit: nat, chosen: set<MessageId>, i: MessageId)
    requires candidates <= t.Keys && IsFirst(t, candidates, limit, chosen)
    requires i in candidates && i !in chosen
    ensures |chosen| == limit && forall j | j in chosen :: Precedes(t[j], t[i])
  {
    SubsetSmaller(chosen, candidates, i);
  }
}
