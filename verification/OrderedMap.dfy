/** A map that remembers insertion order: overwriting keeps a key's place, deleting gives it up. */
module OrderedMap {
  import opened Options

  predicate Distinct<T>(m: seq<(string, T)>) {
    forall i, j :: 0 <= i < j < |m| ==> m[i].0 != m[j].0
  }

  function Find<T>(m: seq<(string, T)>, id: string): (r: Option<T>)
    ensures r.None? <==> forall i :: 0 <= i < |m| ==> m[i].0 != id
    ensures r.Some? ==> exists i :: 0 <= i < |m| && m[i] == (id, r.value)
  {
    if m == [] then None
    else if m[0].0 == id then Some(m[0].1)
    else
      var rest := Find(m[1..], id);
      assert rest.Some? ==> exists i :: 0 <= i < |m[1..]| && m[1..][i] == m[i + 1] == (id, rest.value);
      assert forall i :: 0 < i < |m| ==> m[i] == m[1..][i - 1];
      rest
  }

  /** Overwrite in place, or append. */
  function Put<T>(m: seq<(string, T)>, id: string, e: T): seq<(string, T)> {
    if m == [] then [(id, e)]
    else if m[0].0 == id then [(id, e)] + m[1..]
    else [m[0]] + Put(m[1..], id, e)
  }

  function Drop<T>(m: seq<(string, T)>, id: string): seq<(string, T)> {
    if m == [] then []
    else if m[0].0 == id then m[1..]
    else [m[0]] + Drop(m[1..], id)
  }

  lemma {:induction false} PutFinds<T>(m: seq<(string, T)>, id: string, e: T, other: string)
    ensures Find(Put(m, id, e), other) == if other == id then Some(e) else Find(m, other)
  {
    if m != [] {
      var rest := Put(m, id, e)[1..];
      if m[0].0 == id {
        assert rest == m[1..];
      } else {
        assert rest == Put(m[1..], id, e);
        PutFinds(m[1..], id, e, other);
      }
    }
  }

  lemma {:induction false} DropFinds<T>(m: seq<(string, T)>, id: string, other: string)
    requires Distinct(m)
    ensures Find(Drop(m, id), other) == if other == id then None else Find(m, other)
  {
    if m != [] {
      if m[0].0 != id {
        assert Drop(m, id)[1..] == Drop(m[1..], id);
        DropFinds(m[1..], id, other);
      }
    }
  }

  lemma {:induction false} PutIds<T>(m: seq<(string, T)>, id: string, e: T)
    requires Distinct(m)
    ensures Distinct(Put(m, id, e))
    ensures forall i :: 0 <= i < |Put(m, id, e)| ==> Put(m, id, e)[i].0 == id || Find(m, Put(m, id, e)[i].0).Some?
  {
    if m != [] && m[0].0 != id {
      PutIds(m[1..], id, e);
      var rest := Put(m[1..], id, e);
      assert Put(m, id, e) == [m[0]] + rest;
      forall i | 0 <= i < |rest| ensures rest[i].0 != m[0].0 {
        assert rest[i].0 == id || Find(m[1..], rest[i].0).Some?;
      }
    }
  }

  lemma {:induction false} DropIds<T>(m: seq<(string, T)>, id: string)
    requires Distinct(m)
    ensures Distinct(Drop(m, id))
    ensures forall i :: 0 <= i < |Drop(m, id)| ==> exists k :: 0 <= k < |m| && m[k] == Drop(m, id)[i]
  {
    if m != [] && m[0].0 != id {
      DropIds(m[1..], id);
      assert Drop(m, id) == [m[0]] + Drop(m[1..], id);
    }
  }
}
