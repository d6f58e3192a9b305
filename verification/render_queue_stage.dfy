/**
  vsRenderQueueStage: one rendering pass. It holds a singly linked list of
  batches kept sorted by material layer, each batch holding the elements
  (matrix, display list) submitted with that material during the frame, and
  two free-list pools that recycle batches and elements from frame to frame.

  The intrusive linked lists become sequences (head first). A pool becomes the
  number of free objects on it; `batchesAllocated` and `elementsAllocated`
  count the objects ever created with `new`, so that conservation can be
  stated. Matrices are an opaque type parameter `M`.
 */
module RenderQueueStage {
  import opened Wrappers

  /** The material fields the queue reads. `handle` stands for everything else
      in the material (texture, colour, shader), which only the material's own
      equality test looks at. */
  datatype Material = Material(handle: nat, layer: int, glow: bool, postGlow: bool)

  /** vsMaterial's equality operator, supplied by the caller: its definition
      lies outside this model. The first argument is the batch's captured
      copy, the second the material being submitted. */
  type MaterialEq = (Material, Material) -> bool

  /** A display list handed to the stage: a persistent one owned by a caller,
      or the `slot`-th temporary list the stage made during this frame. */
  datatype DisplayListRef = Persistent(id: nat) | Temporary(slot: nat)

  datatype Element<M> = Element(matrix: M, list: DisplayListRef)

  /** A batch captures its material by value; its element list is head first. */
  datatype Batch<M> = Batch(material: Material, elements: seq<Element<M>>)

  datatype Stage<M> = Stage(
    batches: seq<Batch<M>>,
    batchCount: int,
    batchPool: nat,
    elementPool: nat,
    batchesAllocated: nat,
    elementsAllocated: nat,
    temporaryLists: seq<int>)  // requested sizes of this frame's temporary lists

  /** The commands a stage writes into the output display list. */
  datatype DrawOp<M> =
    | SetMaterial(material: Material)
    | SetMatrix(matrix: M)
    | Append(list: DisplayListRef)
    | PopTransform

  /** One submission to AddBatch. */
  datatype Submission<M> = Submission(material: Material, matrix: M, list: DisplayListRef)

  // ---------------------------------------------------------------------------
  // Bookkeeping predicates

  function TotalElements<M>(bs: seq<Batch<M>>): nat
  {
    if |bs| == 0 then 0 else |bs[0].elements| + TotalElements(bs[1..])
  }

  /** The display lists of every element, batch by batch, each batch head first. */
  function ElementLists<M>(bs: seq<Batch<M>>): seq<DisplayListRef>
  {
    if |bs| == 0 then [] else ListsOf(bs[0].elements) + ElementLists(bs[1..])
  }

  function ListsOf<M>(es: seq<Element<M>>): seq<DisplayListRef>
  {
    if |es| == 0 then [] else [es[0].list] + ListsOf(es[1..])
  }

  predicate SortedByLayer<M>(bs: seq<Batch<M>>)
  {
    forall i, j :: 0 <= i < j < |bs| ==> bs[i].material.layer <= bs[j].material.layer
  }

  predicate AllNonEmpty<M>(bs: seq<Batch<M>>)
  {
    forall i :: 0 <= i < |bs| ==> |bs[i].elements| > 0
  }

  /** Every object ever allocated is either free on its pool or in use. */
  predicate PoolsBalanced<M>(s: Stage<M>)
  {
    && s.batchPool + |s.batches| == s.batchesAllocated
    && s.elementPool + TotalElements(s.batches) == s.elementsAllocated
  }

  /** The state a stage is in between public operations. */
  predicate Valid<M>(s: Stage<M>)
  {
    && SortedByLayer(s.batches)
    && AllNonEmpty(s.batches)
    && s.batchCount == |s.batches|
    && PoolsBalanced(s)
  }

  /** A freshly constructed stage: no batches, empty pools. */
  function NewStage<M>(): (s: Stage<M>)
    ensures Valid(s) && |s.batches| == 0 && s.batchCount == 0 && |s.temporaryLists| == 0
    ensures s.batchPool == s.batchesAllocated == 0 && s.elementPool == s.elementsAllocated == 0
  {
    Stage([], 0, 0, 0, 0, 0, [])
  }

  // ---------------------------------------------------------------------------
  // FindBatch

  /** The first batch whose captured material compares equal to `m`. */
  function FindExisting<M>(bs: seq<Batch<M>>, m: Material, same: MaterialEq): (r: Option<nat>)
    ensures r.Some? ==> r.value < |bs| && same(bs[r.value].material, m)
    ensures r.Some? ==> forall j :: 0 <= j < r.value ==> !same(bs[j].material, m)
    ensures r.None? ==> forall j :: 0 <= j < |bs| ==> !same(bs[j].material, m)
  {
    if |bs| == 0 then None
    else if same(bs[0].material, m) then Some(0)
    else match FindExisting(bs[1..], m, same)
      case None => None
      case Some(k) => Some(k + 1)
  }

  /** Where a batch of layer `layer` goes: before the first batch whose layer
      is strictly greater, else at the end. */
  function InsertionPoint<M>(bs: seq<Batch<M>>, layer: int): (r: nat)
    ensures r <= |bs|
    ensures forall j :: 0 <= j < r ==> bs[j].material.layer <= layer
    ensures r < |bs| ==> bs[r].material.layer > layer
  {
    if |bs| == 0 || bs[0].material.layer > layer then 0
    else 1 + InsertionPoint(bs[1..], layer)
  }

  /** Returns the stage (changed only when a batch was created) and the index
      of the batch for `m`. */
  function FindBatch<M>(s: Stage<M>, m: Material, same: MaterialEq): (r: (Stage<M>, nat))
    ensures r.1 < |r.0.batches|
    // a batch whose material compares equal exists: the first such is returned, nothing changes
    ensures (exists j :: 0 <= j < |s.batches| && same(s.batches[j].material, m)) ==>
      && r.0 == s
      && same(s.batches[r.1].material, m)
      && (forall j :: 0 <= j < r.1 ==> !same(s.batches[j].material, m))
    // otherwise a new batch capturing `m` goes before the first batch of greater layer
    ensures (forall j :: 0 <= j < |s.batches| ==> !same(s.batches[j].material, m)) ==>
      && r.1 <= |s.batches|
      && r.0.batches == s.batches[..r.1] + [Batch(m, [])] + s.batches[r.1..]
      && (forall j :: 0 <= j < r.1 ==> s.batches[j].material.layer <= m.layer)
      && (r.1 < |s.batches| ==> s.batches[r.1].material.layer > m.layer)
      && r.0.batchCount == s.batchCount + 1
      && (if s.batchPool == 0
          then r.0.batchPool == 0 && r.0.batchesAllocated == s.batchesAllocated + 1
          else r.0.batchPool == s.batchPool - 1 && r.0.batchesAllocated == s.batchesAllocated)
      && r.0.elementPool == s.elementPool
      && r.0.elementsAllocated == s.elementsAllocated
      && r.0.temporaryLists == s.temporaryLists
  {
    match FindExisting(s.batches, m, same)
    case Some(k) => (s, k)
    case None =>
      var p := InsertionPoint(s.batches, m.layer);
      var inserted := s.(batches := s.batches[..p] + [Batch(m, [])] + s.batches[p..],
                         batchCount := s.batchCount + 1);
      if s.batchPool == 0 then (inserted.(batchesAllocated := s.batchesAllocated + 1), p)
      else (inserted.(batchPool := s.batchPool - 1), p)
  }

  // ---------------------------------------------------------------------------
  // AddBatch and MakeTemporaryBatchList

  /** Takes an element from the pool (allocating one if the pool is empty) and
      pushes it on the front of batch `k`'s element list. */
  function PrependElement<M>(s: Stage<M>, k: nat, e: Element<M>): (r: Stage<M>)
    requires k < |s.batches|
  {
    var b := s.batches[k];
    var attached := s.(batches := s.batches[k := Batch(b.material, [e] + b.elements)]);
    if s.elementPool == 0 then attached.(elementsAllocated := s.elementsAllocated + 1)
    else attached.(elementPool := s.elementPool - 1)
  }

  function AddBatch<M>(s: Stage<M>, m: Material, matrix: M, list: DisplayListRef, same: MaterialEq): (r: Stage<M>)
    ensures var (f, k) := FindBatch(s, m, same);
      && |r.batches| == |f.batches|
      && r.batches[k] == Batch(f.batches[k].material, [Element(matrix, list)] + f.batches[k].elements)
      && (forall j :: 0 <= j < |r.batches| && j != k ==> r.batches[j] == f.batches[j])
      && r.batchCount == f.batchCount
      && r.batchPool == f.batchPool
      && r.batchesAllocated == f.batchesAllocated
    ensures if s.elementPool == 0
      then r.elementPool == 0 && r.elementsAllocated == s.elementsAllocated + 1
      else r.elementPool == s.elementPool - 1 && r.elementsAllocated == s.elementsAllocated
    ensures r.temporaryLists == s.temporaryLists
  {
    var (f, k) := FindBatch(s, m, same);
    PrependElement(f, k, Element(matrix, list))
  }

  /** Like AddBatch, but the display list is a new temporary list of the given
      size, recorded so that EndRender can release it. */
  function MakeTemporaryBatchList<M>(s: Stage<M>, m: Material, matrix: M, size: int, same: MaterialEq)
    : (r: (Stage<M>, DisplayListRef))
    ensures r.1 == Temporary(|s.temporaryLists|)
    ensures r.0.temporaryLists == s.temporaryLists + [size]
    ensures var a := AddBatch(s, m, matrix, r.1, same);
      && r.0.batches == a.batches && r.0.batchCount == a.batchCount
      && r.0.batchPool == a.batchPool && r.0.batchesAllocated == a.batchesAllocated
      && r.0.elementPool == a.elementPool && r.0.elementsAllocated == a.elementsAllocated
    ensures if s.elementPool == 0
      then r.0.elementPool == 0 && r.0.elementsAllocated == s.elementsAllocated + 1
      else r.0.elementPool == s.elementPool - 1 && r.0.elementsAllocated == s.elementsAllocated
  {
    var t := Temporary(|s.temporaryLists|);
    (AddBatch(s, m, matrix, t, same).(temporaryLists := s.temporaryLists + [size]), t)
  }

  // ---------------------------------------------------------------------------
  // StartRender, Draw, EndRender

  /** Opens a frame: the batch count is reset. The source then asserts that
      the previous EndRender emptied the batch list; if it did not, the
      batches are kept and the frame carries on with them. */
  function StartRender<M>(s: Stage<M>): (r: Stage<M>)
    ensures r.batchCount == 0 && r.batches == s.batches
    ensures r.batchPool == s.batchPool && r.elementPool == s.elementPool
    ensures r.batchesAllocated == s.batchesAllocated && r.elementsAllocated == s.elementsAllocated
    ensures r.temporaryLists == s.temporaryLists
    ensures |s.batches| == 0 && PoolsBalanced(s) ==> Valid(r)
  {
    s.(batchCount := 0)
  }

  /** SetMatrix / Append / PopTransform for each element, in list order. */
  function DrawElements<M>(es: seq<Element<M>>): (r: seq<DrawOp<M>>)
    ensures |r| == 3 * |es|
  {
    if |es| == 0 then []
    else [SetMatrix(es[0].matrix), Append(es[0].list), PopTransform] + DrawElements(es[1..])
  }

  /** Element `i` is framed as SetMatrix, Append, PopTransform at 3i..3i+2. */
  lemma {:induction false} DrawElementsFrames<M>(es: seq<Element<M>>, i: nat)
    requires i < |es|
    ensures DrawElements(es)[3 * i] == SetMatrix(es[i].matrix)
    ensures DrawElements(es)[3 * i + 1] == Append(es[i].list)
    ensures DrawElements(es)[3 * i + 2] == PopTransform
  {
    if i > 0 {
      DrawElementsFrames(es[1..], i - 1);
      assert 3 * i == 3 + 3 * (i - 1);
    }
  }

  /** One SetMaterial per batch, followed by that batch's elements. */
  function DrawBatches<M>(bs: seq<Batch<M>>): (r: seq<DrawOp<M>>)
    ensures |r| == |bs| + 3 * TotalElements(bs)
  {
    if |bs| == 0 then []
    else [SetMaterial(bs[0].material)] + DrawElements(bs[0].elements) + DrawBatches(bs[1..])
  }

  function Draw<M>(s: Stage<M>): (r: seq<DrawOp<M>>)
    ensures |r| == |s.batches| + 3 * TotalElements(s.batches)
  {
    DrawBatches(s.batches)
  }

  /** Returns every batch and element to its pool and clears the frame. The
      source walks each batch's element list without a null check, so every
      batch must hold an element. */
  function EndRender<M>(s: Stage<M>): (r: Stage<M>)
    requires AllNonEmpty(s.batches)
    ensures r.batches == [] && r.batchCount == 0 && r.temporaryLists == []
    ensures r.batchPool == s.batchPool + |s.batches|
    ensures r.elementPool == s.elementPool + TotalElements(s.batches)
    ensures r.batchesAllocated == s.batchesAllocated && r.elementsAllocated == s.elementsAllocated
    ensures PoolsBalanced(s) ==> r.batchPool == r.batchesAllocated && r.elementPool == r.elementsAllocated
  {
    Stage([], 0, s.batchPool + |s.batches|, s.elementPool + TotalElements(s.batches),
          s.batchesAllocated, s.elementsAllocated, [])
  }

  // ---------------------------------------------------------------------------
  // A frame's worth of submissions

  function AddAll<M>(s: Stage<M>, subs: seq<Submission<M>>, same: MaterialEq): Stage<M>
    decreases |subs|
  {
    if |subs| == 0 then s
    else AddAll(AddBatch(s, subs[0].material, subs[0].matrix, subs[0].list, same), subs[1..], same)
  }

  function SubmittedLists<M>(subs: seq<Submission<M>>): seq<DisplayListRef>
  {
    if |subs| == 0 then [] else [subs[0].list] + SubmittedLists(subs[1..])
  }

  function AppendedBy<M>(op: DrawOp<M>): seq<DisplayListRef>
  {
    if op.Append? then [op.list] else []
  }

  /** The display lists a sequence of draw commands appends, in order. */
  function AppendedLists<M>(ops: seq<DrawOp<M>>): seq<DisplayListRef>
  {
    if |ops| == 0 then [] else AppendedBy(ops[0]) + AppendedLists(ops[1..])
  }

  function SelectedBy<M>(op: DrawOp<M>): seq<Material>
  {
    if op.SetMaterial? then [op.material] else []
  }

  /** The materials a sequence of draw commands selects, in order. */
  function SelectedMaterials<M>(ops: seq<DrawOp<M>>): seq<Material>
  {
    if |ops| == 0 then [] else SelectedBy(ops[0]) + SelectedMaterials(ops[1..])
  }
}
