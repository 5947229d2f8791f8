/** The two listing orders and the stable sort that applies them. */
module RegistryOrder {
  import opened RegistryTypes
  import opened Text

  datatype Order = BlockedFirst | OldestFirst

  /** The comparator is negative. */
  predicate Precedes(o: Order, a: Outcome, b: Outcome) {
    if o == BlockedFirst && a.blocked != b.blocked then a.blocked
    else if a.since != b.since then a.since < b.since
    else Before(a.runId, b.runId)
  }

  predicate Ordered(o: Order, q: seq<Outcome>) {
    forall i, j :: 0 <= i < j < |q| ==> !Precedes(o, q[j], q[i])
  }

  /** Put `x` after everything it does not precede. */
  function Insert(o: Order, x: Outcome, q: seq<Outcome>): (r: seq<Outcome>)
    ensures |r| == |q| + 1
  {
    if q == [] || !Precedes(o, x, q[|q| - 1]) then q + [x]
    else Insert(o, x, q[..|q| - 1]) + [q[|q| - 1]]
  }

  function Sort(o: Order, q: seq<Outcome>): (r: seq<Outcome>)
    ensures |r| == |q|
  {
    if q == [] then [] else Insert(o, q[|q| - 1], Sort(o, q[..|q| - 1]))
  }

  lemma LastCounted(q: seq<Outcome>)
    requires q != []
    ensures multiset(q) == multiset(q[..|q| - 1]) + multiset{q[|q| - 1]}
  {
    assert q == q[..|q| - 1] + [q[|q| - 1]];
  }

  lemma {:induction false} InsertAdds(o: Order, x: Outcome, q: seq<Outcome>)
    ensures multiset(Insert(o, x, q)) == multiset(q) + multiset{x}
  {
    if q != [] && Precedes(o, x, q[|q| - 1]) {
      InsertAdds(o, x, q[..|q| - 1]);
      assert q == q[..|q| - 1] + [q[|q| - 1]];
    }
  }

  lemma {:induction false} SortPermutes(o: Order, q: seq<Outcome>)
    ensures multiset(Sort(o, q)) == multiset(q)
  {
    if q != [] {
      var n := |q| - 1;
      SortPermutes(o, q[..n]);
      InsertAdds(o, q[n], Sort(o, q[..n]));
      LastCounted(q);
    }
  }

  lemma PrecedesTransitive(o: Order, a: Outcome, b: Outcome, c: Outcome)
    requires !Precedes(o, b, a) && !Precedes(o, c, b)
    ensures !Precedes(o, c, a)
  {
    BeforeTotal(a.runId, b.runId);
    BeforeTotal(b.runId, c.runId);
    BeforeTotal(a.runId, c.runId);
    if Before(a.runId, b.runId) && Before(b.runId, c.runId) { BeforeTransitive(a.runId, b.runId, c.runId); }
  }

  lemma PrecedesAsymmetric(o: Order, a: Outcome, b: Outcome)
    requires Precedes(o, a, b)
    ensures !Precedes(o, b, a)
  {
    BeforeTotal(a.runId, b.runId);
  }

  lemma InsertMembers(o: Order, x: Outcome, q: seq<Outcome>)
    ensures forall i :: 0 <= i < |Insert(o, x, q)| ==> Insert(o, x, q)[i] == x || Insert(o, x, q)[i] in q
  {
    var r := Insert(o, x, q);
    InsertAdds(o, x, q);
    forall i | 0 <= i < |r| ensures r[i] == x || r[i] in q {
      assert r[i] in multiset(r);
      assert r[i] in multiset(q) || r[i] == x;
    }
  }

  lemma {:induction false} InsertOrdered(o: Order, x: Outcome, q: seq<Outcome>)
    requires Ordered(o, q)
    ensures Ordered(o, Insert(o, x, q))
  {
    if q != [] {
      var n := |q| - 1;
      if Precedes(o, x, q[n]) {
        InsertOrdered(o, x, q[..n]);
        InsertMembers(o, x, q[..n]);
        PrecedesAsymmetric(o, x, q[n]);
        var front := Insert(o, x, q[..n]);
        forall i | 0 <= i < |front| ensures !Precedes(o, q[n], front[i]) {
          if front[i] != x {
            var j :| 0 <= j < n && q[..n][j] == front[i];
          }
        }
      } else {
        forall i | 0 <= i < |q| ensures !Precedes(o, x, q[i]) {
          if i < n { PrecedesTransitive(o, q[i], q[n], x); }
        }
      }
    }
  }

  lemma {:induction false} SortOrdered(o: Order, q: seq<Outcome>)
    ensures Ordered(o, Sort(o, q))
  {
    if q != [] {
      SortOrdered(o, q[..|q| - 1]);
      InsertOrdered(o, q[|q| - 1], Sort(o, q[..|q| - 1]));
    }
  }

  lemma SortMembers(o: Order, q: seq<Outcome>, p: Outcome)
    ensures p in Sort(o, q) <==> p in q
  {
    SortPermutes(o, q);
    assert p in Sort(o, q) <==> p in multiset(Sort(o, q));
    assert p in q <==> p in multiset(q);
  }

  predicate DistinctIds(q: seq<Outcome>) {
    forall i, j :: 0 <= i < j < |q| ==> q[i].runId != q[j].runId
  }
}
