/** Records with an id, and the dedupe loop both halves of a batch use. */
module Records {
  import opened Wrappers

  type Id = string

  datatype Keyed<T> = Keyed(id: Id, v: T)

  /** The last record of the list with this id. */
  function Last<T>(xs: seq<Keyed<T>>, id: Id): Option<Keyed<T>> {
    if xs == [] then None
    else if xs[|xs| - 1].id == id then Some(xs[|xs| - 1])
    else Last(xs[..|xs| - 1], id)
  }

  /** Position of the first record with this id, or |xs|. */
  function First<T>(xs: seq<Keyed<T>>, id: Id): nat {
    if xs == [] then 0
    else
      var p := First(xs[..|xs| - 1], id);
      if p < |xs| - 1 then p
      else if xs[|xs| - 1].id == id then |xs| - 1 else |xs|
  }

  ghost predicate DistinctIds<T>(xs: seq<Keyed<T>>) {
    forall i, j :: 0 <= i < j < |xs| ==> xs[i].id != xs[j].id
  }

  ghost predicate HasId<T>(xs: seq<Keyed<T>>, id: Id) {
    exists k :: 0 <= k < |xs| && xs[k].id == id
  }

  /** Each id once, in order of first appearance, with its last value. */
  ghost predicate IsDedupe<T>(xs: seq<Keyed<T>>, out: seq<Keyed<T>>) {
    && DistinctIds(out)
    && (forall k :: 0 <= k < |out| ==> Last(xs, out[k].id) == Some(out[k]))
    && (forall id :: HasId(xs, id) ==> HasId(out, id))
    && (forall i, j :: 0 <= i < j < |out| ==> First(xs, out[i].id) < First(xs, out[j].id))
  }

  lemma {:induction false} FirstBounds<T>(xs: seq<Keyed<T>>, id: Id)
    ensures First(xs, id) <= |xs|
    ensures HasId(xs, id) <==> First(xs, id) < |xs|
    ensures HasId(xs, id) <==> Last(xs, id).Some?
    ensures Last(xs, id).Some? ==> Last(xs, id).value in xs && Last(xs, id).value.id == id
  {
    if xs != [] {
      var init := xs[..|xs| - 1];
      FirstBounds(init, id);
      assert forall k :: 0 <= k < |init| ==> init[k] == xs[k];
      if HasId(xs, id) && xs[|xs| - 1].id != id {
        var k :| 0 <= k < |xs| && xs[k].id == id;
        assert init[k].id == id;
      }
    }
  }

  /** What the dedupe loop builds: a repeated id overwrites its first position. */
  function Deduped<T>(xs: seq<Keyed<T>>): seq<Keyed<T>> {
    if xs == [] then []
    else
      var d, x := Deduped(xs[..|xs| - 1]), xs[|xs| - 1];
      if First(d, x.id) < |d| then d[First(d, x.id) := x] else d + [x]
  }

  lemma FirstOfDistinct<T>(xs: seq<Keyed<T>>, i: nat)
    requires DistinctIds(xs) && i < |xs|
    ensures First(xs, xs[i].id) == i
  {
    FirstBounds(xs, xs[i].id);
    FirstHasId(xs, xs[i].id);
  }

  lemma {:induction false} FirstHasId<T>(xs: seq<Keyed<T>>, id: Id)
    ensures First(xs, id) < |xs| ==> xs[First(xs, id)].id == id
  {
    if xs != [] { FirstHasId(xs[..|xs| - 1], id); }
  }

  lemma {:induction false} DedupedIsDedupe<T>(xs: seq<Keyed<T>>)
    ensures IsDedupe(xs, Deduped(xs))
  {
    if xs != [] {
      var init, x := xs[..|xs| - 1], xs[|xs| - 1];
      var d := Deduped(init);
      DedupedIsDedupe(init);
      assert xs == init + [x];
      FirstHasId(d, x.id);
      if First(d, x.id) < |d| {
        DedupeReplaces(init, x, d, First(d, x.id));
      } else {
        FirstBounds(d, x.id);
        DedupeAppends(init, x, d);
      }
    }
  }

  /** The index finds every record of the list by its id. */
  ghost predicate Indexes<T>(index: map<Id, nat>, out: seq<Keyed<T>>) {
    && (forall id :: id in index ==> index[id] < |out| && out[index[id]].id == id)
    && (forall k :: 0 <= k < |out| ==> out[k].id in index)
  }

  lemma Overwritten<T>(index: map<Id, nat>, out: seq<Keyed<T>>, x: Keyed<T>)
    requires DistinctIds(out) && Indexes(index, out) && x.id in index
    ensures var out' := out[index[x.id] := x]; DistinctIds(out') && Indexes(index, out')
    ensures First(out, x.id) == index[x.id]
  {
    FirstOfDistinct(out, index[x.id]);
    assert forall k :: 0 <= k < |out| ==> out[index[x.id] := x][k].id == out[k].id;
  }

  lemma NotThereYet<T>(index: map<Id, nat>, out: seq<Keyed<T>>, id: Id)
    requires Indexes(index, out) && id !in index
    ensures forall k :: 0 <= k < |out| ==> out[k].id != id
    ensures First(out, id) >= |out|
  {
    FirstHasId(out, id);
  }

  lemma Appended<T>(index: map<Id, nat>, out: seq<Keyed<T>>, x: Keyed<T>)
    requires DistinctIds(out) && Indexes(index, out) && forall k :: 0 <= k < |out| ==> out[k].id != x.id
    ensures DistinctIds(out + [x]) && Indexes(index[x.id := |out|], out + [x])
  {
    var index', out' := index[x.id := |out|], out + [x];
    forall id | id in index' ensures index'[id] < |out'| && out'[index'[id]].id == id {
      if id != x.id { assert index'[id] == index[id]; }
    }
    forall k | 0 <= k < |out'| ensures out'[k].id in index' {
      if k < |out| { assert out'[k] == out[k]; }
    }
  }

  method Dedupe<T>(xs: seq<Keyed<T>>) returns (out: seq<Keyed<T>>)
    ensures out == Deduped(xs) && IsDedupe(xs, out)
  {
    out := [];
    var index: map<Id, nat> := map[];
    for i := 0 to |xs|
      invariant out == Deduped(xs[..i]) && DistinctIds(out) && Indexes(index, out)
    {
      var x := xs[i];
      assert xs[..i + 1][..i] == xs[..i];
      if x.id in index {
        Overwritten(index, out, x);
        out := out[index[x.id] := x];
      } else {
        NotThereYet(index, out, x.id);
        Appended(index, out, x);
        index := index[x.id := |out|];
        out := out + [x];
      }
    }
    assert xs[..|xs|] == xs;
    DedupedIsDedupe(xs);
  }

  lemma DedupeReplaces<T>(xs: seq<Keyed<T>>, x: Keyed<T>, out: seq<Keyed<T>>, i: nat)
    requires IsDedupe(xs, out) && i < |out| && out[i].id == x.id
    ensures IsDedupe(xs + [x], out[i := x])
  {
    var out' := out[i := x];
    assert forall k :: 0 <= k < |out| ==> out'[k].id == out[k].id;
    forall id | HasId(xs + [x], id) ensures HasId(out', id) {
      if HasId(xs, id) {
        var k :| 0 <= k < |out| && out[k].id == id;
        assert out'[k].id == id;
      } else {
        assert out'[i].id == id;
      }
    }
    forall j, k | 0 <= j < k < |out| ensures First(xs + [x], out'[j].id) < First(xs + [x], out'[k].id) {
      OldFirst(xs, x, out, j);
      OldFirst(xs, x, out, k);
    }
  }

  lemma OldFirst<T>(xs: seq<Keyed<T>>, x: Keyed<T>, out: seq<Keyed<T>>, k: nat)
    requires IsDedupe(xs, out) && k < |out|
    ensures First(xs + [x], out[k].id) == First(xs, out[k].id) < |xs|
  {
    assert Last(xs, out[k].id).Some?;
    FirstBounds(xs, out[k].id);
  }

  lemma DedupeAppends<T>(xs: seq<Keyed<T>>, x: Keyed<T>, out: seq<Keyed<T>>)
    requires IsDedupe(xs, out)
    requires forall k :: 0 <= k < |out| ==> out[k].id != x.id
    ensures IsDedupe(xs + [x], out + [x])
  {
    var out' := out + [x];
    assert !HasId(out, x.id);
    assert !HasId(xs, x.id);
    FirstBounds(xs, x.id);
    forall id | HasId(xs + [x], id) ensures HasId(out', id) {
      if HasId(xs, id) {
        var k :| 0 <= k < |out| && out[k].id == id;
        assert out'[k].id == id;
      } else {
        assert out'[|out|].id == id;
      }
    }
    forall j, k | 0 <= j < k < |out'| ensures First(xs + [x], out'[j].id) < First(xs + [x], out'[k].id) {
      OldFirst(xs, x, out, j);
      if k < |out| { OldFirst(xs, x, out, k); }
    }
  }

  /** Deduplication keeps exactly what the last delivery of each id says. */
  lemma DedupeKeepsLast<T>(xs: seq<Keyed<T>>, out: seq<Keyed<T>>, id: Id)
    requires IsDedupe(xs, out)
    ensures Last(out, id) == Last(xs, id)
  {
    FirstBounds(xs, id);
    FirstBounds(out, id);
  }

  lemma {:induction false} LastOfAppend<T>(xs: seq<Keyed<T>>, ys: seq<Keyed<T>>, id: Id)
    ensures Last(xs + ys, id) == if Last(ys, id).Some? then Last(ys, id) else Last(xs, id)
  {
    if ys == [] {
      assert xs + ys == xs;
    } else {
      assert (xs + ys)[..|xs + ys| - 1] == xs + ys[..|ys| - 1];
      LastOfAppend(xs, ys[..|ys| - 1], id);
    }
  }

  lemma LastOfDistinct<T>(u: seq<Keyed<T>>, x: Keyed<T>)
    requires DistinctIds(u) && x in u
    ensures Last(u, x.id) == Some(x)
  {
    assert HasId(u, x.id);
    FirstBounds(u, x.id);
  }
}
