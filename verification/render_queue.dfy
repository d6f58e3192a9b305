/**
  vsRenderQueue: a fixed number of stages, one generic display list drawn
  after them, and the bounded transform stack. Materials are routed to a
  stage by their glow flags; the queue's frame methods call the stage's on
  every stage in index order.

  The generic list is kept as the sequence of draw commands written into it;
  what callers put there is outside this model.
 */
module RenderQueue {
  import opened Wrappers
  import S = RenderQueueStage
  import P = RenderQueueStageProperties
  import T = TransformStack

  datatype Queue<M> = Queue(stages: seq<S.Stage<M>>, generic: seq<S.DrawOp<M>>, stack: T.Stack<M>)

  predicate Valid<M>(q: Queue<M>)
  {
    && (forall i :: 0 <= i < |q.stages| ==> S.Valid(q.stages[i]))
    && T.Valid(q.stack)
  }

  /** No stage holds a batch: the state between EndRender and StartRender. */
  predicate Idle<M>(q: Queue<M>)
  {
    forall i :: 0 <= i < |q.stages| ==> |q.stages[i].batches| == 0
  }

  /** The queue's constructor: `stageCount` fresh stages, an empty generic
      list and an uninitialised transform stack whose slot contents are
      `blank`. */
  function NewQueue<M>(stageCount: nat, blank: M): (q: Queue<M>)
    ensures Valid(q) && Idle(q) && |q.stages| == stageCount
    ensures q.stack.level == 0 && q.generic == []
  {
    Queue(seq(stageCount, i => S.Stage([], 0, 0, 0, 0, 0, [])),
          [], T.Stack(seq(T.MaxSceneStack, i => blank), 0))
  }

  // ---------------------------------------------------------------------------
  // Routing

  /** Post-glow materials go to stage 2, glow materials to stage 1, all
      others to stage 0; post-glow wins when both flags are set. */
  function PickStageForMaterial(m: S.Material): (r: nat)
    ensures r <= 2
    ensures r == 2 <==> m.postGlow
    ensures r == 1 <==> m.glow && !m.postGlow
    ensures r == 0 <==> !m.glow && !m.postGlow
  {
    if m.postGlow then 2 else if m.glow then 1 else 0
  }

  /** Whether the stage the material routes to exists; the source indexes its
      stage array without a check. */
  predicate Routable<M>(q: Queue<M>, m: S.Material)
  {
    PickStageForMaterial(m) < |q.stages|
  }

  /** vsRenderQueue::AddBatch: the submission goes to the picked stage and
      nothing else in the queue changes. */
  function AddBatch<M>(q: Queue<M>, m: S.Material, matrix: M, list: S.DisplayListRef, same: S.MaterialEq): (r: Queue<M>)
    requires Routable(q, m)
    ensures |r.stages| == |q.stages| && r.generic == q.generic && r.stack == q.stack
    ensures r.stages[PickStageForMaterial(m)] == S.AddBatch(q.stages[PickStageForMaterial(m)], m, matrix, list, same)
    ensures forall i :: 0 <= i < |q.stages| && i != PickStageForMaterial(m) ==> r.stages[i] == q.stages[i]
  {
    var k := PickStageForMaterial(m);
    q.(stages := q.stages[k := S.AddBatch(q.stages[k], m, matrix, list, same)])
  }

  /** A fragment: its material and its display list. */
  datatype Fragment = Fragment(material: S.Material, list: S.DisplayListRef)

  /** AddFragmentBatch submits the fragment under the matrix currently on top
      of the transform stack: in the picked stage the batch for its material
      gains, at the front, an element pairing that matrix with the fragment's
      list; nothing else in the queue changes. */
  function AddFragmentBatch<M>(q: Queue<M>, f: Fragment, same: S.MaterialEq): (r: Queue<M>)
    requires Routable(q, f.material) && T.Valid(q.stack) && q.stack.level > 0
    ensures |r.stages| == |q.stages| && r.generic == q.generic && r.stack == q.stack
    ensures var k := PickStageForMaterial(f.material);
      var (found, j) := S.FindBatch(q.stages[k], f.material, same);
      && j < |r.stages[k].batches|
      && r.stages[k].batches[j].elements == [S.Element(T.Top(q.stack), f.list)] + found.batches[j].elements
    ensures forall i :: 0 <= i < |q.stages| && i != PickStageForMaterial(f.material) ==> r.stages[i] == q.stages[i]
  {
    AddBatch(q, f.material, T.Top(q.stack), f.list, same)
  }

  /** vsRenderQueue::MakeTemporaryBatchList with an explicit matrix. */
  function MakeTemporaryBatchList<M>(q: Queue<M>, m: S.Material, matrix: M, size: int, same: S.MaterialEq)
    : (r: (Queue<M>, S.DisplayListRef))
    requires Routable(q, m)
    ensures |r.0.stages| == |q.stages| && r.0.generic == q.generic && r.0.stack == q.stack
    ensures var k := PickStageForMaterial(m);
      && (r.0.stages[k], r.1) == S.MakeTemporaryBatchList(q.stages[k], m, matrix, size, same)
      && forall i :: 0 <= i < |q.stages| && i != k ==> r.0.stages[i] == q.stages[i]
  {
    var k := PickStageForMaterial(m);
    var (st, list) := S.MakeTemporaryBatchList(q.stages[k], m, matrix, size, same);
    (q.(stages := q.stages[k := st]), list)
  }

  /** The overload without a matrix uses slot 0 of the transform stack, the
      camera matrix, read without any depth check: the picked stage records a
      new temporary list of `size`, and its batch for `m` gains, at the front,
      an element pairing the camera matrix with that list. */
  function MakeTemporaryBatchListAtCamera<M>(q: Queue<M>, m: S.Material, size: int, same: S.MaterialEq)
    : (r: (Queue<M>, S.DisplayListRef))
    requires Routable(q, m) && T.Valid(q.stack)
    ensures |r.0.stages| == |q.stages| && r.0.generic == q.generic && r.0.stack == q.stack
    ensures var k := PickStageForMaterial(m);
      var (found, j) := S.FindBatch(q.stages[k], m, same);
      && r.1 == S.Temporary(|q.stages[k].temporaryLists|)
      && r.0.stages[k].temporaryLists == q.stages[k].temporaryLists + [size]
      && j < |r.0.stages[k].batches|
      && r.0.stages[k].batches[j].elements == [S.Element(q.stack.slots[0], r.1)] + found.batches[j].elements
    ensures forall i :: 0 <= i < |q.stages| && i != PickStageForMaterial(m) ==> r.0.stages[i] == q.stages[i]
  {
    MakeTemporaryBatchList(q, m, q.stack.slots[0], size, same)
  }

  /** GetStage: the i-th stage, or nothing (a null pointer) out of range. */
  function GetStage<M>(q: Queue<M>, i: int): (r: Option<S.Stage<M>>)
    ensures r.Some? <==> 0 <= i < |q.stages|
    ensures r.Some? ==> r.value == q.stages[i]
  {
    if 0 <= i < |q.stages| then Some(q.stages[i]) else None
  }

  // ---------------------------------------------------------------------------
  // Frame

  /** StartRender: seeds the transform stack and opens every stage; the
      generic list is cleared. */
  function StartRender<M>(q: Queue<M>, cam: T.CameraInput<M>, o: T.Orientation, rotZ: int -> M, mul: (M, M) -> M)
    : (r: Queue<M>)
    requires |q.stack.slots| == T.MaxSceneStack
    ensures |r.stages| == |q.stages| && r.generic == []
    ensures Idle(q) ==> Idle(r)
    ensures Valid(q) && Idle(q) ==> Valid(r)
    ensures r.stack == T.Initialise(q.stack, cam, o, rotZ, mul) && r.stack.level == 1
    ensures forall i :: 0 <= i < |q.stages| ==> r.stages[i] == S.StartRender(q.stages[i])
  {
    Queue(seq(|q.stages|, i requires 0 <= i < |q.stages| => S.StartRender(q.stages[i])),
          [], T.Initialise(q.stack, cam, o, rotZ, mul))
  }

  /** The commands of stages i, i+1, ... in index order. */
  function DrawStages<M>(stages: seq<S.Stage<M>>): (r: seq<S.DrawOp<M>>)
  {
    if |stages| == 0 then [] else S.Draw(stages[0]) + DrawStages(stages[1..])
  }

  /** Every display list held by the stages, stage by stage. */
  function StageLists<M>(stages: seq<S.Stage<M>>): seq<S.DisplayListRef>
  {
    if |stages| == 0 then [] else S.ElementLists(stages[0].batches) + StageLists(stages[1..])
  }

  /** vsRenderQueue::Draw: appends the stages' commands in index order, then
      the generic list, to `out`, and takes the transform stack down one
      level. `balanced` is the condition the source asserts afterwards:
      the stack is back at depth 0. */
  function Draw<M>(q: Queue<M>, out: seq<S.DrawOp<M>>): (r: (Queue<M>, seq<S.DrawOp<M>>, bool))
    ensures r.0 == q.(stack := T.Deinitialise(q.stack))
    ensures |r.1| >= |out| + |q.generic| && r.1[..|out|] == out
    ensures r.1[|r.1| - |q.generic|..] == q.generic
    ensures r.2 <==> q.stack.level == 1
  {
    var stack := T.Deinitialise(q.stack);
    (q.(stack := stack), out + DrawStages(q.stages) + q.generic, stack.level == 0)
  }

  /** vsRenderQueue::EndRender: every stage returns its batches and elements
      to its pools; the generic list is cleared. */
  function EndRender<M>(q: Queue<M>): (r: Queue<M>)
    requires forall i :: 0 <= i < |q.stages| ==> S.AllNonEmpty(q.stages[i].batches)
    ensures Idle(r) && |r.stages| == |q.stages| && r.generic == [] && r.stack == q.stack
    ensures Valid(q) ==> Valid(r)
    ensures forall i :: 0 <= i < |q.stages| ==> r.stages[i] == S.EndRender(q.stages[i])
  {
    Queue(seq(|q.stages|, i requires 0 <= i < |q.stages| => S.EndRender(q.stages[i])), [], q.stack)
  }

  // ---------------------------------------------------------------------------
  // Properties

  /** Draw's output appends the display lists of every stage, stage by stage
      and each stage's batches in list order, and then those of the generic
      list: every submitted list is drawn exactly once. */
  lemma {:induction false} DrawStagesContents<M>(stages: seq<S.Stage<M>>)
    ensures S.AppendedLists(DrawStages(stages)) == StageLists(stages)
  {
    if |stages| > 0 {
      P.AppendedListsAppend(S.Draw(stages[0]), DrawStages(stages[1..]));
      P.DrawBatchesContents(stages[0].batches);
      DrawStagesContents(stages[1..]);
    }
  }

  lemma DrawContents<M>(q: Queue<M>, out: seq<S.DrawOp<M>>)
    ensures S.AppendedLists(Draw(q, out).1)
         == S.AppendedLists(out) + StageLists(q.stages) + S.AppendedLists(q.generic)
  {
    P.AppendedListsAppend(out, DrawStages(q.stages));
    P.AppendedListsAppend(out + DrawStages(q.stages), q.generic);
    DrawStagesContents(q.stages);
  }

  /** A submission to the queue adds its display list to the picked stage and
      to that stage only, and every stage stays valid. */
  lemma AddBatchRoutes<M>(q: Queue<M>, m: S.Material, matrix: M, list: S.DisplayListRef, same: S.MaterialEq, i: nat)
    requires Valid(q) && Routable(q, m) && i < |q.stages|
    ensures var r := AddBatch(q, m, matrix, list, same);
      && Valid(r)
      && multiset(S.ElementLists(r.stages[i].batches))
         == multiset(S.ElementLists(q.stages[i].batches))
            + (if i == PickStageForMaterial(m) then multiset{list} else multiset{})
  {
    var k := PickStageForMaterial(m);
    var r := AddBatch(q, m, matrix, list, same);
    P.AddBatchKeepsValid(q.stages[k], m, matrix, list, same);
    forall j | 0 <= j < |r.stages| ensures S.Valid(r.stages[j]) {
      if j != k { assert r.stages[j] == q.stages[j]; }
    }
    if i != k {
      assert r.stages[i] == q.stages[i];
    }
  }

  /** A fragment's display list is added to the picked stage and to that
      stage only, and every stage stays valid. */
  lemma FragmentRoutes<M>(q: Queue<M>, f: Fragment, same: S.MaterialEq, i: nat)
    requires Valid(q) && Routable(q, f.material) && q.stack.level > 0 && i < |q.stages|
    ensures var r := AddFragmentBatch(q, f, same);
      && Valid(r)
      && multiset(S.ElementLists(r.stages[i].batches))
         == multiset(S.ElementLists(q.stages[i].batches))
            + (if i == PickStageForMaterial(f.material) then multiset{f.list} else multiset{})
  {
    AddBatchRoutes(q, f.material, T.Top(q.stack), f.list, same, i);
  }

  /** A temporary list made at the camera matrix is added to the picked stage
      and to that stage only, every stage stays valid, and the returned list
      is the one recorded for release at EndRender. */
  lemma TemporaryRoutes<M>(q: Queue<M>, m: S.Material, size: int, same: S.MaterialEq, i: nat)
    requires Valid(q) && Routable(q, m) && i < |q.stages|
    ensures var (r, list) := MakeTemporaryBatchListAtCamera(q, m, size, same);
      && Valid(r)
      && multiset(S.ElementLists(r.stages[i].batches))
         == multiset(S.ElementLists(q.stages[i].batches))
            + (if i == PickStageForMaterial(m) then multiset{list} else multiset{})
      && list.Temporary?
      && list.slot < |r.stages[PickStageForMaterial(m)].temporaryLists|
  {
    var k := PickStageForMaterial(m);
    var (r, list) := MakeTemporaryBatchListAtCamera(q, m, size, same);
    var a := S.AddBatch(q.stages[k], m, q.stack.slots[0], list, same);
    P.AddBatchKeepsValid(q.stages[k], m, q.stack.slots[0], list, same);
    assert r.stages[k].batches == a.batches;
    forall j | 0 <= j < |r.stages| ensures S.Valid(r.stages[j]) {
      if j != k { assert r.stages[j] == q.stages[j]; }
    }
    if i != k {
      assert r.stages[i] == q.stages[i];
    }
  }

  /** A frame whose pushes and pops pair up within the bound leaves Draw's
      balance assertion satisfied: the stack is back at depth 0. */
  lemma FrameBalanced<M>(q: Queue<M>, cam: T.CameraInput<M>, o: T.Orientation, rotZ: int -> M,
                         mul: (M, M) -> M, ms: seq<M>, out: seq<S.DrawOp<M>>)
    requires Valid(q) && Idle(q) && |ms| < T.MaxSceneStack
    ensures var q1 := StartRender(q, cam, o, rotZ, mul);
      var q2 := q1.(stack := T.PopN(T.PushAll(q1.stack, ms, mul), |ms|));
      && T.Top(q2.stack) == T.Top(q1.stack)
      && Draw(q2, out).2
  {
    var q1 := StartRender(q, cam, o, rotZ, mul);
    T.PushPopBalanced(q1.stack, ms, mul);
  }
}
