/**
  Properties of the render-queue stage that relate several operations: the
  stage invariant is kept by every submission, pools are conserved across a
  frame, and Draw emits every submitted display list exactly once, batches in
  layer order.
 */
module RenderQueueStageProperties {
  import opened Wrappers
  import opened RenderQueueStage

  function Max(a: int, b: int): int { if a >= b then a else b }

  // ---------------------------------------------------------------------------
  // Sequence helpers

  lemma {:induction false} TotalElementsAppend<M>(a: seq<Batch<M>>, b: seq<Batch<M>>)
    ensures TotalElements(a + b) == TotalElements(a) + TotalElements(b)
  {
    if |a| == 0 {
      assert a + b == b;
    } else {
      assert (a + b)[1..] == a[1..] + b;
      TotalElementsAppend(a[1..], b);
    }
  }

  lemma {:induction false} ElementListsAppend<M>(a: seq<Batch<M>>, b: seq<Batch<M>>)
    ensures ElementLists(a + b) == ElementLists(a) + ElementLists(b)
  {
    if |a| == 0 {
      assert a + b == b;
    } else {
      assert (a + b)[1..] == a[1..] + b;
      ElementListsAppend(a[1..], b);
    }
  }

  /** Splitting a batch list around index `k`. */
  lemma SplitAt<M>(bs: seq<Batch<M>>, k: nat)
    requires k < |bs|
    ensures TotalElements(bs) == TotalElements(bs[..k]) + |bs[k].elements| + TotalElements(bs[k + 1..])
    ensures ElementLists(bs) == ElementLists(bs[..k]) + ListsOf(bs[k].elements) + ElementLists(bs[k + 1..])
  {
    assert bs == bs[..k] + [bs[k]] + bs[k + 1..];
    TotalElementsAppend(bs[..k] + [bs[k]], bs[k + 1..]);
    TotalElementsAppend(bs[..k], [bs[k]]);
    ElementListsAppend(bs[..k] + [bs[k]], bs[k + 1..]);
    ElementListsAppend(bs[..k], [bs[k]]);
    assert [bs[k]][1..] == [];
  }

  /** Inserting a batch with no elements changes neither the element count
      nor the element lists. */
  lemma InsertEmptyBatch<M>(bs: seq<Batch<M>>, p: nat, b: Batch<M>)
    requires p <= |bs| && b.elements == []
    ensures TotalElements(bs[..p] + [b] + bs[p..]) == TotalElements(bs)
    ensures ElementLists(bs[..p] + [b] + bs[p..]) == ElementLists(bs)
  {
    InsertEmptyBatchTotal(bs, p, b);
    InsertEmptyBatchLists(bs, p, b);
  }

  lemma InsertEmptyBatchTotal<M>(bs: seq<Batch<M>>, p: nat, b: Batch<M>)
    requires p <= |bs| && b.elements == []
    ensures TotalElements(bs[..p] + [b] + bs[p..]) == TotalElements(bs)
  {
    var front, back := bs[..p], bs[p..];
    assert TotalElements([b]) == 0;
    TotalElementsAppend(front + [b], back);
    TotalElementsAppend(front, [b]);
    assert front + [b] + back == (front + [b]) + back;
    TotalElementsAppend(front, back);
    assert front + back == bs;
  }

  lemma {:induction false} InsertEmptyBatchLists<M>(bs: seq<Batch<M>>, p: nat, b: Batch<M>)
    requires p <= |bs| && b.elements == []
    ensures ElementLists(bs[..p] + [b] + bs[p..]) == ElementLists(bs)
  {
    var r := bs[..p] + [b] + bs[p..];
    if p == 0 {
      assert r == [b] + bs;
      assert r[1..] == bs;
      assert ListsOf(b.elements) == [];
    } else {
      assert r[0] == bs[0];
      assert r[1..] == bs[1..][..p - 1] + [b] + bs[1..][p - 1..];
      InsertEmptyBatchLists(bs[1..], p - 1, b);
    }
  }

  /** Inserting at the position FindBatch picks keeps the layer order. */
  lemma InsertKeepsSorted<M>(bs: seq<Batch<M>>, p: nat, b: Batch<M>)
    requires SortedByLayer(bs) && p <= |bs|
    requires forall j :: 0 <= j < p ==> bs[j].material.layer <= b.material.layer
    requires p < |bs| ==> bs[p].material.layer > b.material.layer
    ensures SortedByLayer(bs[..p] + [b] + bs[p..])
  {
    var r := bs[..p] + [b] + bs[p..];
    assert forall t :: 0 <= t < p ==> r[t] == bs[t];
    assert r[p] == b;
    assert forall t :: p < t < |r| ==> r[t] == bs[t - 1];
  }

  /** Prepending an element to batch `k` adds exactly that element's list. */
  lemma PrependToBatch<M>(bs: seq<Batch<M>>, k: nat, e: Element<M>)
    requires k < |bs|
    ensures var bs' := bs[k := Batch(bs[k].material, [e] + bs[k].elements)];
      && TotalElements(bs') == TotalElements(bs) + 1
      && multiset(ElementLists(bs')) == multiset(ElementLists(bs)) + multiset{e.list}
  {
    var bs' := bs[k := Batch(bs[k].material, [e] + bs[k].elements)];
    SplitAt(bs, k);
    SplitAt(bs', k);
    assert bs'[..k] == bs[..k];
    assert bs'[k + 1..] == bs[k + 1..];
    assert ([e] + bs[k].elements)[1..] == bs[k].elements;
  }

  // ---------------------------------------------------------------------------
  // FindBatch and AddBatch keep the stage invariant

  /** A new batch never breaks the layer order, and it lands after every batch
      of equal layer already present (stable insertion). */
  lemma FindBatchKeepsOrder<M>(s: Stage<M>, m: Material, same: MaterialEq)
    requires SortedByLayer(s.batches)
    ensures var (f, k) := FindBatch(s, m, same);
      && SortedByLayer(f.batches)
      && (f != s ==> forall j :: 0 <= j < |f.batches| && f.batches[j].material.layer == m.layer ==> j <= k)
  {
    var (f, p) := FindBatch(s, m, same);
    if forall j :: 0 <= j < |s.batches| ==> !same(s.batches[j].material, m) {
      InsertKeepsSorted(s.batches, p, Batch(m, []));
    }
  }

  /** The bookkeeping FindBatch keeps: the count tracks the list, pools
      balance, and a batch is allocated only when the pool is empty, so the
      allocation total is the high-water mark of the list length. */
  lemma FindBatchKeepsPools<M>(s: Stage<M>, m: Material, same: MaterialEq)
    requires s.batchCount == |s.batches| && PoolsBalanced(s)
    ensures var f := FindBatch(s, m, same).0;
      && f.batchCount == |f.batches|
      && PoolsBalanced(f)
      && f.batchesAllocated == Max(s.batchesAllocated, |f.batches|)
      && ElementLists(f.batches) == ElementLists(s.batches)
  {
    var (f, p) := FindBatch(s, m, same);
    if forall j :: 0 <= j < |s.batches| ==> !same(s.batches[j].material, m) {
      InsertEmptyBatch(s.batches, p, Batch(m, []));
    }
  }

  /** Batches that were already in the list keep their elements. */
  lemma FindBatchKeepsNonEmpty<M>(s: Stage<M>, m: Material, same: MaterialEq)
    requires AllNonEmpty(s.batches)
    ensures var (f, k) := FindBatch(s, m, same);
      forall t :: 0 <= t < |f.batches| && t != k ==> |f.batches[t].elements| > 0
  {
    var (f, k) := FindBatch(s, m, same);
    if f != s {
      assert forall t :: 0 <= t < k ==> f.batches[t] == s.batches[t];
      assert forall t :: k < t < |f.batches| ==> f.batches[t] == s.batches[t - 1];
    }
  }

  /** Attaching an element to batch `k` completes the stage invariant. */
  lemma PrependKeepsValid<M>(f: Stage<M>, k: nat, e: Element<M>)
    requires k < |f.batches|
    requires SortedByLayer(f.batches) && f.batchCount == |f.batches| && PoolsBalanced(f)
    requires forall t :: 0 <= t < |f.batches| && t != k ==> |f.batches[t].elements| > 0
    ensures var r := PrependElement(f, k, e);
      && Valid(r)
      && TotalElements(r.batches) == TotalElements(f.batches) + 1
      && multiset(ElementLists(r.batches)) == multiset(ElementLists(f.batches)) + multiset{e.list}
      && r.elementsAllocated == Max(f.elementsAllocated, TotalElements(r.batches))
  {
    var r := PrependElement(f, k, e);
    var b := Batch(f.batches[k].material, [e] + f.batches[k].elements);
    assert r.batches == f.batches[k := b];
    PrependToBatch(f.batches, k, e);
    assert SortedByLayer(r.batches) by {
      UpdateKeepsSorted(f.batches, k, b);
    }
    assert AllNonEmpty(r.batches);
  }

  lemma UpdateKeepsSorted<M>(bs: seq<Batch<M>>, k: nat, b: Batch<M>)
    requires k < |bs| && SortedByLayer(bs) && b.material == bs[k].material
    ensures SortedByLayer(bs[k := b])
  {
    var r := bs[k := b];
    assert forall t :: 0 <= t < |r| ==> r[t].material == bs[t].material;
  }

  /** AddBatch keeps the stage valid and adds exactly one element, taken from
      the pool or allocated only when the pool is empty. */
  lemma {:induction false} AddBatchCounts<M>(s: Stage<M>, m: Material, matrix: M, list: DisplayListRef, same: MaterialEq)
    requires Valid(s)
    ensures var r := AddBatch(s, m, matrix, list, same);
      && Valid(r)
      && TotalElements(r.batches) == TotalElements(s.batches) + 1
      && |s.batches| <= |r.batches|
      && r.batchesAllocated == Max(s.batchesAllocated, |r.batches|)
      && r.elementsAllocated == Max(s.elementsAllocated, TotalElements(r.batches))
  {
    var (f, k) := FindBatch(s, m, same);
    FindBatchKeepsOrder(s, m, same);
    FindBatchKeepsPools(s, m, same);
    FindBatchKeepsNonEmpty(s, m, same);
    PrependKeepsValid(f, k, Element(matrix, list));
    if f != s {
      InsertEmptyBatchTotal(s.batches, k, Batch(m, []));
    }
    assert AddBatch(s, m, matrix, list, same) == PrependElement(f, k, Element(matrix, list));
  }

  /** AddBatch keeps the stage valid, adds exactly one element (taken from the
      pool, or allocated only when the pool is empty) and exactly one more
      occurrence of the submitted display list. */
  lemma AddBatchKeepsValid<M>(s: Stage<M>, m: Material, matrix: M, list: DisplayListRef, same: MaterialEq)
    requires Valid(s)
    ensures var r := AddBatch(s, m, matrix, list, same);
      && Valid(r)
      && TotalElements(r.batches) == TotalElements(s.batches) + 1
      && multiset(ElementLists(r.batches)) == multiset(ElementLists(s.batches)) + multiset{list}
      && r.batchesAllocated == Max(s.batchesAllocated, |r.batches|)
      && r.elementsAllocated == Max(s.elementsAllocated, TotalElements(r.batches))
  {
    AddBatchCounts(s, m, matrix, list, same);
    var (f, k) := FindBatch(s, m, same);
    FindBatchKeepsPools(s, m, same);
    PrependToBatch(f.batches, k, Element(matrix, list));
    assert AddBatch(s, m, matrix, list, same).batches
        == f.batches[k := Batch(f.batches[k].material, [Element(matrix, list)] + f.batches[k].elements)];
  }

  // ---------------------------------------------------------------------------
  // A frame

  lemma {:induction false} AddAllKeepsValid<M>(s: Stage<M>, subs: seq<Submission<M>>, same: MaterialEq)
    requires Valid(s)
    ensures var r := AddAll(s, subs, same);
      && Valid(r)
      && TotalElements(r.batches) == TotalElements(s.batches) + |subs|
      && multiset(ElementLists(r.batches)) == multiset(ElementLists(s.batches)) + multiset(SubmittedLists(subs))
    decreases |subs|
  {
    if |subs| > 0 {
      var s1 := AddBatch(s, subs[0].material, subs[0].matrix, subs[0].list, same);
      AddBatchKeepsValid(s, subs[0].material, subs[0].matrix, subs[0].list, same);
      AddAllKeepsValid(s1, subs[1..], same);
    }
  }

  /** Across a frame's submissions the allocation totals track the high-water
      marks of batches and elements in use, and batches are never removed. */
  lemma {:induction false} AddAllHighWater<M>(s: Stage<M>, subs: seq<Submission<M>>, same: MaterialEq)
    requires Valid(s)
    ensures var r := AddAll(s, subs, same);
      && r.batchesAllocated == Max(s.batchesAllocated, |r.batches|)
      && r.elementsAllocated == Max(s.elementsAllocated, TotalElements(r.batches))
      && |s.batches| <= |r.batches|
      && TotalElements(s.batches) <= TotalElements(r.batches)
    decreases |subs|
  {
    if |subs| > 0 {
      var s1 := AddBatch(s, subs[0].material, subs[0].matrix, subs[0].list, same);
      AddBatchCounts(s, subs[0].material, subs[0].matrix, subs[0].list, same);
      AddAllHighWater(s1, subs[1..], same);
    }
  }

  /** The display lists Draw appends are the elements' lists, batch by batch;
      the materials it selects are the batches' materials, in list order. */
  lemma DrawBatchesContents<M>(bs: seq<Batch<M>>)
    ensures AppendedLists(DrawBatches(bs)) == ElementLists(bs)
    ensures SelectedMaterials(DrawBatches(bs)) == MaterialsOf(bs)
  {
    DrawBatchesLists(bs);
    DrawBatchesMaterials(bs);
  }

  lemma {:induction false} DrawBatchesLists<M>(bs: seq<Batch<M>>)
    ensures AppendedLists(DrawBatches(bs)) == ElementLists(bs)
  {
    if |bs| > 0 {
      var first: seq<DrawOp<M>> := [SetMaterial(bs[0].material)];
      var elems, rest := DrawElements(bs[0].elements), DrawBatches(bs[1..]);
      var lists, tail := ListsOf(bs[0].elements), ElementLists(bs[1..]);
      assert DrawBatches(bs) == (first + elems) + rest;
      assert ElementLists(bs) == lists + tail;
      assert AppendedLists(first + elems) == lists by {
        AppendedListsAppend(first, elems);
        assert AppendedLists(first) == [] by { assert first[1..] == []; }
        DrawElementsContents(bs[0].elements);
        assert [] + lists == lists;
      }
      assert AppendedLists(rest) == tail by { DrawBatchesLists(bs[1..]); }
      AppendedListsAppend(first + elems, rest);
    }
  }

  lemma {:induction false} DrawBatchesMaterials<M>(bs: seq<Batch<M>>)
    ensures SelectedMaterials(DrawBatches(bs)) == MaterialsOf(bs)
  {
    if |bs| > 0 {
      var first: seq<DrawOp<M>> := [SetMaterial(bs[0].material)];
      var elems, rest := DrawElements(bs[0].elements), DrawBatches(bs[1..]);
      var tail := MaterialsOf(bs[1..]);
      assert DrawBatches(bs) == (first + elems) + rest;
      assert MaterialsOf(bs) == [bs[0].material] + tail;
      assert SelectedMaterials(first + elems) == [bs[0].material] by {
        SelectedMaterialsAppend(first, elems);
        assert SelectedMaterials(first) == [bs[0].material] by { assert first[1..] == []; }
        DrawElementsContents(bs[0].elements);
        assert [bs[0].material] + [] == [bs[0].material];
      }
      assert SelectedMaterials(rest) == tail by { DrawBatchesMaterials(bs[1..]); }
      SelectedMaterialsAppend(first + elems, rest);
    }
  }

  function MaterialsOf<M>(bs: seq<Batch<M>>): seq<Material>
  {
    if |bs| == 0 then [] else [bs[0].material] + MaterialsOf(bs[1..])
  }

  lemma {:induction false} DrawElementsContents<M>(es: seq<Element<M>>)
    ensures AppendedLists(DrawElements(es)) == ListsOf(es)
    ensures SelectedMaterials(DrawElements(es)) == []
  {
    if |es| > 0 {
      var frame := [SetMatrix(es[0].matrix), Append(es[0].list), PopTransform];
      assert DrawElements(es) == frame + DrawElements(es[1..]);
      FrameContents(es[0]);
      AppendedListsAppend(frame, DrawElements(es[1..]));
      SelectedMaterialsAppend(frame, DrawElements(es[1..]));
      DrawElementsContents(es[1..]);
    }
  }

  lemma FrameContents<M>(e: Element<M>)
    ensures AppendedLists([SetMatrix(e.matrix), Append(e.list), PopTransform]) == [e.list]
    ensures SelectedMaterials([SetMatrix(e.matrix), Append(e.list), PopTransform]) == []
  {
    var frame: seq<DrawOp<M>> := [SetMatrix(e.matrix), Append(e.list), PopTransform];
    assert frame[1..] == [Append(e.list), PopTransform];
    assert frame[1..][1..] == [PopTransform];
    assert frame[1..][1..][1..] == [];
    assert AppendedLists(frame[1..][1..]) == [];
    assert AppendedLists(frame[1..]) == [e.list];
    assert SelectedMaterials(frame[1..][1..]) == [];
    assert SelectedMaterials(frame[1..]) == [];
  }

  lemma {:induction false} AppendedListsAppend<M>(a: seq<DrawOp<M>>, b: seq<DrawOp<M>>)
    ensures AppendedLists(a + b) == AppendedLists(a) + AppendedLists(b)
  {
    if |a| == 0 {
      assert a + b == b;
    } else {
      assert (a + b)[1..] == a[1..] + b;
      AppendedListsAppend(a[1..], b);
    }
  }

  lemma {:induction false} SelectedMaterialsAppend<M>(a: seq<DrawOp<M>>, b: seq<DrawOp<M>>)
    ensures SelectedMaterials(a + b) == SelectedMaterials(a) + SelectedMaterials(b)
  {
    if |a| == 0 {
      assert a + b == b;
    } else {
      assert (a + b)[1..] == a[1..] + b;
      SelectedMaterialsAppend(a[1..], b);
    }
  }

  /** Over one frame from an empty, valid stage: Draw appends every submitted
      display list exactly once, selects materials in non-decreasing layer
      order, and EndRender then returns every allocated batch and element to
      its pool, the totals being the high-water marks of the frames so far. */
  lemma FrameRoundTrip<M>(s: Stage<M>, subs: seq<Submission<M>>, same: MaterialEq)
    requires Valid(s) && |s.batches| == 0
    ensures var r := AddAll(StartRender(s), subs, same);
      && Valid(r)
      && multiset(AppendedLists(Draw(r))) == multiset(SubmittedLists(subs))
      && (forall i, j :: 0 <= i < j < |SelectedMaterials(Draw(r))| ==>
            SelectedMaterials(Draw(r))[i].layer <= SelectedMaterials(Draw(r))[j].layer)
      && var e := EndRender(r);
         && e.batches == [] && e.batchCount == 0
         && e.batchPool == e.batchesAllocated
         && e.batchesAllocated == Max(s.batchesAllocated, |r.batches|)
         && e.elementPool == e.elementsAllocated
         && e.elementsAllocated == Max(s.elementsAllocated, |subs|)
  {
    FrameDraws(s, subs, same);
    FrameReturns(s, subs, same);
  }

  /** The Draw half of a frame. */
  lemma FrameDraws<M>(s: Stage<M>, subs: seq<Submission<M>>, same: MaterialEq)
    requires Valid(s) && |s.batches| == 0
    ensures var r := AddAll(StartRender(s), subs, same);
      && Valid(r)
      && multiset(AppendedLists(Draw(r))) == multiset(SubmittedLists(subs))
      && (forall i, j :: 0 <= i < j < |SelectedMaterials(Draw(r))| ==>
            SelectedMaterials(Draw(r))[i].layer <= SelectedMaterials(Draw(r))[j].layer)
  {
    var s0 := StartRender(s);
    var r := AddAll(s0, subs, same);
    AddAllKeepsValid(s0, subs, same);
    DrawBatchesContents(r.batches);
    MaterialsOfSorted(r.batches);
  }

  /** The EndRender half of a frame. */
  lemma FrameReturns<M>(s: Stage<M>, subs: seq<Submission<M>>, same: MaterialEq)
    requires Valid(s) && |s.batches| == 0
    ensures var r := AddAll(StartRender(s), subs, same);
      && AllNonEmpty(r.batches)
      && var e := EndRender(r);
         && e.batches == [] && e.batchCount == 0
         && e.batchPool == e.batchesAllocated
         && e.batchesAllocated == Max(s.batchesAllocated, |r.batches|)
         && e.elementPool == e.elementsAllocated
         && e.elementsAllocated == Max(s.elementsAllocated, |subs|)
  {
    var s0 := StartRender(s);
    var r := AddAll(s0, subs, same);
    AddAllKeepsValid(s0, subs, same);
    AddAllHighWater(s0, subs, same);
  }

  lemma {:induction false} MaterialsOfSorted<M>(bs: seq<Batch<M>>)
    requires SortedByLayer(bs)
    ensures |MaterialsOf(bs)| == |bs|
    ensures forall i :: 0 <= i < |bs| ==> MaterialsOf(bs)[i] == bs[i].material
  {
    if |bs| > 0 {
      MaterialsOfSorted(bs[1..]);
    }
  }

  /** Submissions that all use one material (equal to itself) end up in a
      single batch whose elements are in reverse submission order. */
  lemma {:induction false} OneMaterialReversed<M>(s: Stage<M>, m: Material, subs: seq<Submission<M>>, same: MaterialEq)
    requires |subs| > 0 && same(m, m)
    requires forall i :: 0 <= i < |subs| ==> subs[i].material == m
    requires |s.batches| == 0
    ensures AddAll(s, subs, same).batches == [Batch(m, Reversed(subs))]
    decreases |subs|
  {
    var s1 := AddBatch(s, m, subs[0].matrix, subs[0].list, same);
    var (f, k) := FindBatch(s, m, same);
    var e := Element(subs[0].matrix, subs[0].list);
    assert f.batches == [Batch(m, [])] && k == 0;
    assert s1 == PrependElement(f, 0, e);
    assert [e] + [] == [e];
    assert s1.batches == [Batch(m, [e])];
    assert AddAll(s, subs, same) == AddAll(s1, subs[1..], same);
    ReversedAfter(s1, m, [e], subs[1..], same);
    assert Reversed(subs) == Reversed(subs[1..]) + [e];
  }

  lemma {:induction false} ReversedAfter<M>(s: Stage<M>, m: Material, es: seq<Element<M>>, subs: seq<Submission<M>>, same: MaterialEq)
    requires same(m, m) && s.batches == [Batch(m, es)]
    requires forall i :: 0 <= i < |subs| ==> subs[i].material == m
    ensures AddAll(s, subs, same).batches == [Batch(m, Reversed(subs) + es)]
    decreases |subs|
  {
    if |subs| == 0 {
      assert Reversed(subs) + es == es;
      assert AddAll(s, subs, same) == s;
    } else {
      var e := Element(subs[0].matrix, subs[0].list);
      var s1 := AddBatch(s, m, subs[0].matrix, subs[0].list, same);
      assert FindExisting(s.batches, m, same) == Some(0);
      assert FindBatch(s, m, same) == (s, 0);
      assert s1 == PrependElement(s, 0, e);
      assert s1.batches == [Batch(m, [e] + es)];
      assert AddAll(s, subs, same) == AddAll(s1, subs[1..], same);
      ReversedAfter(s1, m, [e] + es, subs[1..], same);
      assert Reversed(subs) == Reversed(subs[1..]) + [e];
      assert Reversed(subs[1..]) + ([e] + es) == (Reversed(subs[1..]) + [e]) + es;
    }
  }

  function Reversed<M>(subs: seq<Submission<M>>): seq<Element<M>>
  {
    if |subs| == 0 then [] else Reversed(subs[1..]) + [Element(subs[0].matrix, subs[0].list)]
  }

  // ---------------------------------------------------------------------------
  // Scenarios

  function Structural(a: Material, b: Material): bool { a == b }

  /** A material that matches no batch gets a new one-element batch at the
      first position whose batch has a greater layer. */
  lemma InsertFresh<M>(s: Stage<M>, m: Material, matrix: M, list: DisplayListRef, same: MaterialEq, p: nat)
    requires p <= |s.batches|
    requires forall j :: 0 <= j < |s.batches| ==> !same(s.batches[j].material, m)
    requires forall j :: 0 <= j < p ==> s.batches[j].material.layer <= m.layer
    requires p < |s.batches| ==> s.batches[p].material.layer > m.layer
    ensures AddBatch(s, m, matrix, list, same).batches
         == s.batches[..p] + [Batch(m, [Element(matrix, list)])] + s.batches[p..]
  {
    var (f, k) := FindBatch(s, m, same);
    assert k == p;
    assert AddBatch(s, m, matrix, list, same) == PrependElement(f, k, Element(matrix, list));
    assert [Element(matrix, list)] + [] == [Element(matrix, list)];
  }

  /** Folding AddBatch over a non-empty sequence starts with its head. */
  lemma AddAllCons<M>(s: Stage<M>, sub: Submission<M>, rest: seq<Submission<M>>, same: MaterialEq)
    ensures AddAll(s, [sub] + rest, same)
         == AddAll(AddBatch(s, sub.material, sub.matrix, sub.list, same), rest, same)
  {
    assert ([sub] + rest)[1..] == rest;
  }

  lemma AddAllPair<M>(s: Stage<M>, a: Submission<M>, b: Submission<M>, same: MaterialEq)
    ensures AddAll(s, [a, b], same)
         == AddBatch(AddBatch(s, a.material, a.matrix, a.list, same), b.material, b.matrix, b.list, same)
  {
    AddAllCons(s, a, [b], same);
    assert [a] + [b] == [a, b];
    assert [b][1..] == [];
  }

  lemma AddAllTriple<M>(s: Stage<M>, a: Submission<M>, b: Submission<M>, c: Submission<M>, same: MaterialEq)
    ensures AddAll(s, [a, b, c], same)
         == AddBatch(AddBatch(AddBatch(s, a.material, a.matrix, a.list, same),
                              b.material, b.matrix, b.list, same), c.material, c.matrix, c.list, same)
  {
    AddAllCons(s, a, [b, c], same);
    assert [a] + [b, c] == [a, b, c];
    AddAllPair(AddBatch(s, a.material, a.matrix, a.list, same), b, c, same);
  }

  lemma MaterialsOfPair<M>(x: Batch<M>, y: Batch<M>)
    ensures MaterialsOf([x, y]) == [x.material, y.material]
  {
    assert MaterialsOf([y]) == [y.material] by { assert [y][1..] == []; }
    assert [x, y][1..] == [y];
  }

  lemma MaterialsOfTriple<M>(x: Batch<M>, y: Batch<M>, z: Batch<M>)
    ensures MaterialsOf([x, y, z]) == [x.material, y.material, z.material]
  {
    MaterialsOfPair(y, z);
    assert [x, y, z][1..] == [y, z];
  }

  /** Layers 5, 1, 3 submitted in that order to a stage holding no batch
      (as after StartRender) are drawn 1, 3, 5. */
  lemma LayerScenario<M>(s0: Stage<M>, mat: M)
    requires s0.batches == []
    ensures var subs := [Submission(Material(0, 5, false, false), mat, Persistent(0)),
                         Submission(Material(1, 1, false, false), mat, Persistent(1)),
                         Submission(Material(2, 3, false, false), mat, Persistent(2))];
      MaterialsOf(AddAll(s0, subs, Structural).batches)
        == [Material(1, 1, false, false), Material(2, 3, false, false), Material(0, 5, false, false)]
  {
    var m5, m1, m3 := Material(0, 5, false, false), Material(1, 1, false, false), Material(2, 3, false, false);
    var b5, b1, b3 := Batch(m5, [Element(mat, Persistent(0))]), Batch(m1, [Element(mat, Persistent(1))]),
                      Batch(m3, [Element(mat, Persistent(2))]);
    var s1 := AddBatch(s0, m5, mat, Persistent(0), Structural);
    InsertFresh(s0, m5, mat, Persistent(0), Structural, 0);
    assert s1.batches == [b5];
    var s2 := AddBatch(s1, m1, mat, Persistent(1), Structural);
    LayerStep2(s1, mat);
    var s3 := AddBatch(s2, m3, mat, Persistent(2), Structural);
    LayerStep3(s2, mat);
    AddAllTriple(s0, Submission(m5, mat, Persistent(0)), Submission(m1, mat, Persistent(1)),
                 Submission(m3, mat, Persistent(2)), Structural);
    MaterialsOfTriple(b1, b3, b5);
  }

  lemma LayerStep2<M>(s1: Stage<M>, mat: M)
    requires s1.batches == [Batch(Material(0, 5, false, false), [Element(mat, Persistent(0))])]
    ensures AddBatch(s1, Material(1, 1, false, false), mat, Persistent(1), Structural).batches
         == [Batch(Material(1, 1, false, false), [Element(mat, Persistent(1))]),
             Batch(Material(0, 5, false, false), [Element(mat, Persistent(0))])]
  {
    InsertFresh(s1, Material(1, 1, false, false), mat, Persistent(1), Structural, 0);
  }

  lemma LayerStep3<M>(s2: Stage<M>, mat: M)
    requires s2.batches == [Batch(Material(1, 1, false, false), [Element(mat, Persistent(1))]),
                            Batch(Material(0, 5, false, false), [Element(mat, Persistent(0))])]
    ensures AddBatch(s2, Material(2, 3, false, false), mat, Persistent(2), Structural).batches
         == [Batch(Material(1, 1, false, false), [Element(mat, Persistent(1))]),
             Batch(Material(2, 3, false, false), [Element(mat, Persistent(2))]),
             Batch(Material(0, 5, false, false), [Element(mat, Persistent(0))])]
  {
    InsertFresh(s2, Material(2, 3, false, false), mat, Persistent(2), Structural, 1);
    assert s2.batches[..1] == [s2.batches[0]] && s2.batches[1..] == [s2.batches[1]];
  }

  /** Two distinct materials of equal layer are drawn in the order first
      submitted. */
  lemma EqualLayerScenario<M>(s0: Stage<M>, mat: M)
    requires s0.batches == []
    ensures var subs := [Submission(Material(10, 2, false, false), mat, Persistent(0)),
                         Submission(Material(11, 2, false, false), mat, Persistent(1))];
      MaterialsOf(AddAll(s0, subs, Structural).batches)
        == [Material(10, 2, false, false), Material(11, 2, false, false)]
  {
    var ma, mb := Material(10, 2, false, false), Material(11, 2, false, false);
    var ba, bb := Batch(ma, [Element(mat, Persistent(0))]), Batch(mb, [Element(mat, Persistent(1))]);
    var s1 := AddBatch(s0, ma, mat, Persistent(0), Structural);
    InsertFresh(s0, ma, mat, Persistent(0), Structural, 0);
    assert s1.batches == [ba];
    var s2 := AddBatch(s1, mb, mat, Persistent(1), Structural);
    EqualLayerStep2(s1, mat);
    AddAllPair(s0, Submission(ma, mat, Persistent(0)), Submission(mb, mat, Persistent(1)), Structural);
    MaterialsOfPair(ba, bb);
  }

  lemma EqualLayerStep2<M>(s1: Stage<M>, mat: M)
    requires s1.batches == [Batch(Material(10, 2, false, false), [Element(mat, Persistent(0))])]
    ensures AddBatch(s1, Material(11, 2, false, false), mat, Persistent(1), Structural).batches
         == [Batch(Material(10, 2, false, false), [Element(mat, Persistent(0))]),
             Batch(Material(11, 2, false, false), [Element(mat, Persistent(1))])]
  {
    InsertFresh(s1, Material(11, 2, false, false), mat, Persistent(1), Structural, 1);
  }
}
