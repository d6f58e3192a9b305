/**
  The render queue's bounded matrix stack and the starting transform it is
  seeded with at the beginning of a frame.

  Matrices are an opaque type `M`; matrix multiplication is the caller-supplied
  function `mul`, about which nothing is assumed. The contents of the stack can
  therefore be stated as a left fold of `mul` over the pushed matrices without
  any floating-point reasoning.
 */
module TransformStack {

  /** MAX_SCENE_STACK: the number of matrix slots. Pushes write only below it. */
  const MaxSceneStack: nat := 20

  /** `slots` is the fixed array of matrices, `level` the current depth. */
  datatype Stack<M> = Stack(slots: seq<M>, level: int)

  predicate Valid<M>(st: Stack<M>)
  {
    |st.slots| == MaxSceneStack && 0 <= st.level <= MaxSceneStack
  }

  /** The product base * ms[0] * ms[1] * ... , associated to the left. */
  function Compose<M>(base: M, ms: seq<M>, mul: (M, M) -> M): M
  {
    if |ms| == 0 then base else mul(Compose(base, ms[..|ms| - 1], mul), ms[|ms| - 1])
  }

  // ---------------------------------------------------------------------------
  // Stack operations

  /** The end of InitialiseTransformStack: slot 0 receives the starting
      matrix and the depth becomes 1. */
  function Seed<M>(st: Stack<M>, start: M): (r: Stack<M>)
    requires |st.slots| == MaxSceneStack
    ensures Valid(r) && r.level == 1
    ensures r.slots[0] == start
    ensures forall i :: 1 <= i < MaxSceneStack ==> r.slots[i] == st.slots[i]
  {
    Stack(st.slots[0 := start], 1)
  }

  /** PushMatrix. Below the bound the new top is the old top times `m`; at the
      bound nothing is written and the depth stays put. Either way the
      matrix now on top is returned. */
  function Push<M>(st: Stack<M>, m: M, mul: (M, M) -> M): (r: (Stack<M>, M))
    requires Valid(st) && st.level > 0
    ensures Valid(r.0) && r.0.level > 0
    ensures st.level < MaxSceneStack ==>
      && r.0.level == st.level + 1
      && r.0.slots == st.slots[st.level := mul(st.slots[st.level - 1], m)]
    ensures st.level == MaxSceneStack ==> r.0 == st
    ensures r.1 == r.0.slots[r.0.level - 1]
  {
    var next := if st.level < MaxSceneStack
      then Stack(st.slots[st.level := mul(st.slots[st.level - 1], m)], st.level + 1)
      else st;
    (next, next.slots[next.level - 1])
  }

  /** PushTransform2D: the same bounded write as PushMatrix, written out in
      the source with the transform's matrix (float math left out, supplied
      as `toMatrix`). Below the bound the new top is the old top times the
      matrix and the slots underneath are kept; at the bound nothing
      changes. */
  function PushTransform2D<M, T>(st: Stack<M>, t: T, toMatrix: T -> M, mul: (M, M) -> M): (r: (Stack<M>, M))
    requires Valid(st) && st.level > 0
    ensures Valid(r.0) && r.0.level > 0 && r.1 == Top(r.0)
    ensures st.level < MaxSceneStack ==>
      && r.0.level == st.level + 1
      && r.1 == mul(Top(st), toMatrix(t))
      && r.0.slots[..st.level] == st.slots[..st.level]
    ensures st.level == MaxSceneStack ==> r.0 == st
  {
    if st.level < MaxSceneStack then
      var matrix := toMatrix(t);
      var next := Stack(st.slots[st.level := mul(st.slots[st.level - 1], matrix)], st.level + 1);
      (next, next.slots[next.level - 1])
    else
      (st, st.slots[st.level - 1])
  }

  /** PushTranslation: the translation matrix of `t` (built by `translate`)
      goes through PushMatrix. */
  function PushTranslation<M, V>(st: Stack<M>, t: V, translate: V -> M, mul: (M, M) -> M): (r: (Stack<M>, M))
    requires Valid(st) && st.level > 0
    ensures Valid(r.0) && r.0.level > 0 && r.1 == Top(r.0)
    ensures st.level < MaxSceneStack ==>
      && r.0.level == st.level + 1
      && r.1 == mul(Top(st), translate(t))
      && r.0.slots[..st.level] == st.slots[..st.level]
    ensures st.level == MaxSceneStack ==> r.0 == st
  {
    Push(st, translate(t), mul)
  }

  /** Pushing a 2D transform is pushing its matrix. */
  lemma PushTransform2DIsPush<M, T>(st: Stack<M>, t: T, toMatrix: T -> M, mul: (M, M) -> M)
    requires Valid(st) && st.level > 0
    ensures PushTransform2D(st, t, toMatrix, mul) == Push(st, toMatrix(t), mul)
  {
  }

  /** PopMatrix: the depth drops by one; no slot changes. Popping an empty
      stack is an assertion failure in the source. */
  function Pop<M>(st: Stack<M>): (r: Stack<M>)
    requires Valid(st) && st.level > 0
    ensures Valid(r) && r.level == st.level - 1 && r.slots == st.slots
  {
    Stack(st.slots, st.level - 1)
  }

  /** DeinitialiseTransformStack: one unconditional decrement, in both the 3D
      and the 2D branch. */
  function Deinitialise<M>(st: Stack<M>): (r: Stack<M>)
    ensures r.level == st.level - 1 && r.slots == st.slots
  {
    Stack(st.slots, st.level - 1)
  }

  /** GetMatrix: the matrix on top of the stack. */
  function Top<M>(st: Stack<M>): (r: M)
    requires Valid(st) && st.level > 0
    ensures r == st.slots[st.level - 1]
  {
    st.slots[st.level - 1]
  }

  /** GetTopMatrix: slot 0, the camera matrix, at any depth. The source
      asserts a positive depth first, but slot 0 is readable at depth 0 too,
      so the read is modelled there as well. */
  function Bottom<M>(st: Stack<M>): (r: M)
    requires |st.slots| == MaxSceneStack
    ensures r == st.slots[0]
  {
    st.slots[0]
  }

  /** A run of PushMatrix calls. The depth grows by one per push until it
      reaches the bound. */
  function PushAll<M>(st: Stack<M>, ms: seq<M>, mul: (M, M) -> M): (r: Stack<M>)
    requires Valid(st) && st.level > 0
    ensures Valid(r) && r.level == Min(st.level + |ms|, MaxSceneStack)
    decreases |ms|
  {
    if |ms| == 0 then st else PushAll(Push(st, ms[0], mul).0, ms[1..], mul)
  }

  /** A run of `n` PopMatrix calls. */
  function PopN<M>(st: Stack<M>, n: nat): (r: Stack<M>)
    requires Valid(st) && n <= st.level
    ensures Valid(r) && r.level == st.level - n && r.slots == st.slots
    decreases n
  {
    if n == 0 then st else PopN(Pop(st), n - 1)
  }

  // ---------------------------------------------------------------------------
  // Properties

  function Min(a: int, b: int): int
  {
    if a <= b then a else b
  }

  /** Slots 0 .. level-1 hold the running products of `base` and the pushes
      so far. */
  ghost predicate Holds<M>(st: Stack<M>, base: M, pushed: seq<M>, mul: (M, M) -> M)
    requires Valid(st)
  {
    forall i :: 0 <= i < st.level && i <= |pushed| ==> st.slots[i] == Compose(base, pushed[..i], mul)
  }

  /** A run of pushes from depth d leaves depth min(d + |ms|, 20), and every
      live slot holds the product of the starting matrix with the matrices
      pushed below it: pushes past the bound are dropped without a write. */
  lemma {:induction false} PushAllComposes<M>(st: Stack<M>, base: M, pre: seq<M>, ms: seq<M>, mul: (M, M) -> M)
    requires Valid(st) && st.level == |pre| + 1
    requires Holds(st, base, pre, mul)
    ensures var r := PushAll(st, ms, mul);
      && Holds(r, base, pre + ms, mul)
      && r.slots[r.level - 1] == Compose(base, (pre + ms)[..r.level - 1], mul)
    decreases |ms|
  {
    var r := PushAll(st, ms, mul);
    if |ms| == 0 {
      assert pre + ms == pre;
    } else if st.level == MaxSceneStack {
      PushAllBlocked(st, ms, mul);
      HoldsExtended(st, base, pre, ms, mul);
    } else {
      PushHolds(st, base, pre, ms[0], mul);
      PushAllComposes(Push(st, ms[0], mul).0, base, pre + [ms[0]], ms[1..], mul);
      assert pre + [ms[0]] + ms[1..] == pre + ms;
    }
    assert r.level - 1 <= |pre + ms|;
  }

  /** One push below the bound extends the running products by one. */
  lemma PushHolds<M>(st: Stack<M>, base: M, pre: seq<M>, m: M, mul: (M, M) -> M)
    requires Valid(st) && st.level == |pre| + 1 && st.level < MaxSceneStack
    requires Holds(st, base, pre, mul)
    ensures Holds(Push(st, m, mul).0, base, pre + [m], mul)
  {
    var s1 := Push(st, m, mul).0;
    var pre1 := pre + [m];
    forall i | 0 <= i < s1.level && i <= |pre1|
      ensures s1.slots[i] == Compose(base, pre1[..i], mul)
    {
      if i < st.level {
        assert pre1[..i] == pre[..i];
      } else {
        assert pre1[..i] == pre1 && pre1[..|pre|] == pre[..|pre|];
      }
    }
  }

  /** Products of a prefix do not depend on what is appended after it. */
  lemma HoldsExtended<M>(st: Stack<M>, base: M, pre: seq<M>, ms: seq<M>, mul: (M, M) -> M)
    requires Valid(st) && st.level == |pre| + 1
    requires Holds(st, base, pre, mul)
    ensures Holds(st, base, pre + ms, mul)
  {
    forall i | 0 <= i < st.level && i <= |pre + ms|
      ensures st.slots[i] == Compose(base, (pre + ms)[..i], mul)
    {
      assert (pre + ms)[..i] == pre[..i];
    }
  }

  /** At the bound every further push is a no-op. */
  lemma {:induction false} PushAllBlocked<M>(st: Stack<M>, ms: seq<M>, mul: (M, M) -> M)
    requires Valid(st) && st.level == MaxSceneStack
    ensures PushAll(st, ms, mul) == st
    decreases |ms|
  {
    if |ms| > 0 {
      PushAllBlocked(st, ms[1..], mul);
    }
  }

  /** Pushing k matrices and popping k again, without reaching the bound,
      returns the stack to its former depth and former top matrix. */
  lemma {:induction false} PushPopBalanced<M>(st: Stack<M>, ms: seq<M>, mul: (M, M) -> M)
    requires Valid(st) && st.level > 0 && st.level + |ms| <= MaxSceneStack
    ensures var r := PopN(PushAll(st, ms, mul), |ms|);
      r.level == st.level && Top(r) == Top(st) && Bottom(r) == Bottom(st)
    decreases |ms|
  {
    if |ms| > 0 {
      var s1 := Push(st, ms[0], mul).0;
      PushPopBalanced(s1, ms[1..], mul);
      PushAllKeepsBelow(s1, ms[1..], mul);
    }
  }

  /** Pushes never change the slots below the depth they start from. */
  lemma {:induction false} PushAllKeepsBelow<M>(st: Stack<M>, ms: seq<M>, mul: (M, M) -> M)
    requires Valid(st) && st.level > 0
    ensures var r := PushAll(st, ms, mul);
      r.level >= st.level && forall i :: 0 <= i < st.level ==> r.slots[i] == st.slots[i]
    decreases |ms|
  {
    if |ms| > 0 {
      PushAllKeepsBelow(Push(st, ms[0], mul).0, ms[1..], mul);
    }
  }

  /** GetMatrix after a push is the product of the previous GetMatrix and
      the pushed matrix, and a pop brings the previous one back; at the bound
      the push leaves GetMatrix as it was. */
  lemma TopOfPush<M>(st: Stack<M>, m: M, mul: (M, M) -> M)
    requires Valid(st) && st.level > 0
    ensures st.level < MaxSceneStack ==>
      && Top(Push(st, m, mul).0) == mul(Top(st), m)
      && Top(Pop(Push(st, m, mul).0)) == Top(st)
    ensures st.level == MaxSceneStack ==> Top(Push(st, m, mul).0) == Top(st)
  {
  }

  /** GetTopMatrix is the same at every depth the frame's pushes and pops
      reach while the depth stays positive. */
  lemma BottomStable<M>(st: Stack<M>, ms: seq<M>, mul: (M, M) -> M, n: nat)
    requires Valid(st) && st.level > 0
    requires n < PushAll(st, ms, mul).level
    ensures Bottom(PushAll(st, ms, mul)) == Bottom(st)
    ensures Bottom(PopN(PushAll(st, ms, mul), n)) == Bottom(st)
  {
    PushAllKeepsBelow(st, ms, mul);
  }

  /** Pushing one matrix more than the stack can hold and popping as many
      times does not bring a freshly seeded stack back to depth 1: the
      dropped push is not undone, so the pops take it to depth 0. */
  lemma OverflowThenPopsEmpties<M>(st: Stack<M>, start: M, ms: seq<M>, mul: (M, M) -> M)
    requires |st.slots| == MaxSceneStack && |ms| == MaxSceneStack
    ensures var pushed := PushAll(Seed(st, start), ms, mul);
      && pushed.level == MaxSceneStack
      && PopN(pushed, |ms|).level == 0
  {
    var s := Seed(st, start);
    assert Holds(s, start, [], mul);
    PushAllComposes(s, start, [], ms, mul);
  }

  // ---------------------------------------------------------------------------
  // Starting transform

  /** Screen orientation, in the order of the Orientation enum. */
  datatype Orientation = Normal | Three | Six | Nine

  /** Rotation about Z chosen by the 3D branch, in degrees. */
  function RotationDegrees3D(o: Orientation): (d: int)
    ensures 0 <= d < 360 && d % 90 == 0
  {
    match o
    case Normal => 0
    case Six => 180
    case Three => 270
    case Nine => 90
  }

  /** Rotation about Z chosen by the 2D branch, in degrees. */
  function RotationDegrees2D(o: Orientation): (d: int)
    ensures 0 <= d < 360 && d % 90 == 0
  {
    match o
    case Normal => 0
    case Six => 180
    case Three => 90
    case Nine => 270
  }

  /** The two branches turn the same orientation in opposite senses: each
      angle is the other's complement to a full turn, so they agree only on
      Normal and Six. */
  lemma RotationsMirror(o: Orientation)
    ensures RotationDegrees2D(o) == (360 - RotationDegrees3D(o)) % 360
    ensures RotationDegrees2D(o) == RotationDegrees3D(o) <==> (o == Normal || o == Six)
  {
  }

  /** Each branch gives the four orientations four different angles. */
  lemma RotationsDistinct(a: Orientation, b: Orientation)
    ensures RotationDegrees3D(a) == RotationDegrees3D(b) <==> a == b
    ensures RotationDegrees2D(a) == RotationDegrees2D(b) <==> a == b
  {
  }

  /** The camera-side matrices InitialiseTransformStack reads from the scene.
      Their float computations (look-at basis, inversion, scale reset) are
      left out; the matrices arrive already built. */
  datatype CameraInput<M> =
    | Camera3D(handednessFlip: M, inverseBasis: M, negativePosition: M)
    | Camera2D(cameraMatrix: M)

  /** The matrix InitialiseTransformStack stores in slot 0. `rotZ(d)` is the
      rotation by d degrees about Z (the identity for 0). In 3D:
      ((rotation * flip) * inverse basis) * translation; in 2D:
      camera * rotation. */
  function StartingMatrix<M>(cam: CameraInput<M>, o: Orientation, rotZ: int -> M, mul: (M, M) -> M): M
  {
    match cam
    case Camera3D(flip, inv, offset) =>
      mul(mul(mul(rotZ(RotationDegrees3D(o)), flip), inv), offset)
    case Camera2D(c) =>
      mul(c, rotZ(RotationDegrees2D(o)))
  }

  /** InitialiseTransformStack. */
  function Initialise<M>(st: Stack<M>, cam: CameraInput<M>, o: Orientation, rotZ: int -> M, mul: (M, M) -> M): (r: Stack<M>)
    requires |st.slots| == MaxSceneStack
    ensures Valid(r) && r.level == 1
    ensures Bottom(r) == Top(r)
    ensures cam.Camera3D? ==>
      Top(r) == mul(mul(mul(rotZ(RotationDegrees3D(o)), cam.handednessFlip), cam.inverseBasis), cam.negativePosition)
    ensures cam.Camera2D? ==> Top(r) == mul(cam.cameraMatrix, rotZ(RotationDegrees2D(o)))
  {
    Seed(st, StartingMatrix(cam, o, rotZ, mul))
  }
}
