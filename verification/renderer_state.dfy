/**
  vsRendererState: a fixed table of lazily flushed GPU state slots (thirteen
  booleans, one integer, one pair of floats). Setting a slot only records
  the requested value; Flush issues one API call for each slot whose value
  differs from the one last issued; Force reissues every boolean and integer
  slot unconditionally.

  The per-slot change detection lives in the StateSetter template, whose
  header is not part of this model. It is modelled as a (value, shadow) pair:
  `value` is the requested state, `shadow` the state last issued to the API,
  equal to `value` on construction. API calls are trace events.
 */
module RendererState {

  /** The boolean slots, in index order. */
  datatype BoolSlot =
    | Blend | ColorMaterial | CullFace | DepthTest | StencilTest | ScissorTest
    | Multisample | PolygonOffsetFill | DepthMask
    | VertexArray | TextureCoordinateArray | NormalArray | ColorArray

  const BoolSlots: seq<BoolSlot> := [
    Blend, ColorMaterial, CullFace, DepthTest, StencilTest, ScissorTest,
    Multisample, PolygonOffsetFill, DepthMask,
    VertexArray, TextureCoordinateArray, NormalArray, ColorArray]

  const BoolCount: nat := 13

  /** The index of a boolean slot in the table. */
  function IndexOf(slot: BoolSlot): (i: nat)
    ensures i < BoolCount && BoolSlots[i] == slot
  {
    match slot
    case Blend => 0
    case ColorMaterial => 1
    case CullFace => 2
    case DepthTest => 3
    case StencilTest => 4
    case ScissorTest => 5
    case Multisample => 6
    case PolygonOffsetFill => 7
    case DepthMask => 8
    case VertexArray => 9
    case TextureCoordinateArray => 10
    case NormalArray => 11
    case ColorArray => 12
  }

  /** The integer slots and the float-pair slots, one of each. */
  datatype IntSlot = CullFaceMode
  datatype Float2Slot = PolygonOffsetConstantAndFactor

  const IntSlots: seq<IntSlot> := [CullFaceMode]
  const Float2Slots: seq<Float2Slot> := [PolygonOffsetConstantAndFactor]

  const IntCount: nat := 1
  const Float2Count: nat := 1

  /** The API calls the setters issue. */
  datatype Call =
    | Enable(cap: BoolSlot)
    | Disable(cap: BoolSlot)
    | EnableVertexAttribArray(index: nat)
    | DisableVertexAttribArray(index: nat)
    | SetDepthMask(flag: bool)
    | SetCullFace(mode: int)
    | SetPolygonOffset(factor: real, units: real)

  /** One slot: the requested value and the value last issued. */
  datatype Setter<T> = Setter(value: T, shadow: T)

  datatype State = State(
    bools: seq<Setter<bool>>,
    ints: seq<Setter<int>>,
    float2s: seq<Setter<(real, real)>>)

  predicate Valid(s: State)
  {
    |s.bools| == BoolCount && |s.ints| == IntCount && |s.float2s| == Float2Count
  }

  predicate Dirty<T(==)>(x: Setter<T>)
  {
    x.value != x.shadow
  }

  /** Every slot has been issued with its current value. */
  predicate Synced(s: State)
  {
    && (forall i :: 0 <= i < |s.bools| ==> !Dirty(s.bools[i]))
    && (forall i :: 0 <= i < |s.ints| ==> !Dirty(s.ints[i]))
    && (forall i :: 0 <= i < |s.float2s| ==> !Dirty(s.float2s[i]))
  }

  // ---------------------------------------------------------------------------
  // DoFlush of each setter class

  /** The call a boolean slot issues for `v`: glEnable/glDisable for the
      capability slots, glDepthMask for the depth-mask slot, and
      glEnable/DisableVertexAttribArray with attribute 0..3 for the four
      client-array slots. */
  function BoolCall(slot: BoolSlot, v: bool): (r: Call)
    ensures Enables(r) <==> v
    ensures r.SetDepthMask? <==> slot == DepthMask
    ensures r.Enable? || r.Disable? <==> IndexOf(slot) < 8
    ensures r.Enable? || r.Disable? ==> r.cap == slot
    ensures r.EnableVertexAttribArray? || r.DisableVertexAttribArray? <==> IndexOf(slot) >= 9
    ensures r.EnableVertexAttribArray? || r.DisableVertexAttribArray? ==> r.index == IndexOf(slot) - 9
  {
    match slot
    case DepthMask => SetDepthMask(v)
    case VertexArray => if v then EnableVertexAttribArray(0) else DisableVertexAttribArray(0)
    case TextureCoordinateArray => if v then EnableVertexAttribArray(1) else DisableVertexAttribArray(1)
    case NormalArray => if v then EnableVertexAttribArray(2) else DisableVertexAttribArray(2)
    case ColorArray => if v then EnableVertexAttribArray(3) else DisableVertexAttribArray(3)
    case _ => if v then Enable(slot) else Disable(slot)
  }

  /** Whether a call switches its state on. */
  predicate Enables(c: Call)
  {
    c.Enable? || c.EnableVertexAttribArray? || (c.SetDepthMask? && c.flag)
  }

  /** glCullFace with the stored mode. */
  function IntCall(slot: IntSlot, v: int): Call
  {
    SetCullFace(v)
  }

  /** glPolygonOffset is given the stored pair (A, B) as (B, A). */
  function Float2Call(slot: Float2Slot, v: (real, real)): Call
  {
    SetPolygonOffset(v.1, v.0)
  }

  // ---------------------------------------------------------------------------
  // Construction and setters

  /** The constructor: every boolean slot false, the cull-face mode 0, the
      polygon offset (0, 0); nothing has been issued yet, and each setter's
      shadow starts equal to its value. */
  function Init(): (s: State)
    ensures Valid(s) && Synced(s)
    ensures forall i :: 0 <= i < BoolCount ==> s.bools[i].value == false
    ensures s.ints[0].value == 0 && s.float2s[0].value == (0.0, 0.0)
  {
    State(seq(BoolCount, i => Setter(false, false)), [Setter(0, 0)], [Setter((0.0, 0.0), (0.0, 0.0))])
  }

  function Set<T>(x: Setter<T>, v: T): Setter<T>
  {
    Setter(v, x.shadow)
  }

  /** SetBool records the value; no call is issued and no other slot, nor
      any shadow, changes. */
  function SetBool(s: State, key: nat, v: bool): (r: State)
    requires Valid(s) && key < BoolCount
    ensures Valid(r) && r.ints == s.ints && r.float2s == s.float2s
    ensures r.bools[key].value == v
    ensures forall i :: 0 <= i < BoolCount ==> r.bools[i].shadow == s.bools[i].shadow
    ensures forall i :: 0 <= i < BoolCount && i != key ==> r.bools[i] == s.bools[i]
  {
    s.(bools := s.bools[key := Set(s.bools[key], v)])
  }

  function SetInt(s: State, key: nat, v: int): (r: State)
    requires Valid(s) && key < IntCount
    ensures Valid(r) && r.bools == s.bools && r.float2s == s.float2s
    ensures r.ints[key].value == v && r.ints[key].shadow == s.ints[key].shadow
  {
    s.(ints := s.ints[key := Set(s.ints[key], v)])
  }

  function SetFloat2(s: State, key: nat, a: real, b: real): (r: State)
    requires Valid(s) && key < Float2Count
    ensures Valid(r) && r.bools == s.bools && r.ints == s.ints
    ensures r.float2s[key].value == (a, b) && r.float2s[key].shadow == s.float2s[key].shadow
  {
    s.(float2s := s.float2s[key := Set(s.float2s[key], (a, b))])
  }

  // ---------------------------------------------------------------------------
  // Flush and Force

  /** After a flush or force the shadow matches the value. */
  function Issued<T>(x: Setter<T>): Setter<T>
  {
    Setter(x.value, x.value)
  }

  function IssueAll<T>(xs: seq<Setter<T>>): (r: seq<Setter<T>>)
    ensures |r| == |xs|
    ensures forall i :: 0 <= i < |xs| ==> r[i].value == xs[i].value && r[i].shadow == xs[i].value
  {
    seq(|xs|, i requires 0 <= i < |xs| => Issued(xs[i]))
  }

  /** What one setter issues on a flush: its call if it is dirty, nothing
      otherwise. `call` is the setter class's DoFlush. */
  function FlushCall<K, T(==)>(x: Setter<T>, key: K, call: (K, T) -> Call): seq<Call>
  {
    if Dirty(x) then [call(key, x.value)] else []
  }

  /** The flush calls of a run of setters of one class, in slot order;
      `keys` names their slots. */
  function FlushCalls<K, T(==)>(xs: seq<Setter<T>>, keys: seq<K>, call: (K, T) -> Call): seq<Call>
    requires |keys| == |xs|
    decreases |xs|
  {
    if |xs| == 0 then [] else FlushCall(xs[0], keys[0], call) + FlushCalls(xs[1..], keys[1..], call)
  }

  /** Flush: the boolean slots in index order, then the integer slots, then
      the float-pair slots; each dirty slot issues its call. Every slot is
      synchronised afterwards. */
  function Flush(s: State): (r: (State, seq<Call>))
    requires Valid(s)
    ensures Valid(r.0) && Synced(r.0)
    ensures forall i :: 0 <= i < BoolCount ==> r.0.bools[i].value == s.bools[i].value
    ensures r.0.ints[0].value == s.ints[0].value && r.0.float2s[0].value == s.float2s[0].value
  {
    (State(IssueAll(s.bools), IssueAll(s.ints), IssueAll(s.float2s)),
     FlushCalls(s.bools, BoolSlots, BoolCall)
       + FlushCalls(s.ints, IntSlots, IntCall)
       + FlushCalls(s.float2s, Float2Slots, Float2Call))
  }

  /** Each setter of a run issues its call unconditionally, in slot order. */
  function ForceCalls<K, T>(xs: seq<Setter<T>>, keys: seq<K>, call: (K, T) -> Call): (r: seq<Call>)
    requires |keys| == |xs|
    ensures |r| == |xs|
    ensures forall i :: 0 <= i < |xs| ==> r[i] == call(keys[i], xs[i].value)
    decreases |xs|
  {
    if |xs| == 0 then [] else [call(keys[0], xs[0].value)] + ForceCalls(xs[1..], keys[1..], call)
  }

  /** Force: every boolean and integer slot issues its call whatever its
      shadow says; the float-pair slot is not visited and stays as it is. */
  function Force(s: State): (r: (State, seq<Call>))
    requires Valid(s)
    ensures Valid(r.0) && r.0.float2s == s.float2s
    ensures |r.1| == BoolCount + IntCount
    ensures forall i :: 0 <= i < BoolCount ==> r.1[i] == BoolCall(BoolSlots[i], s.bools[i].value)
    ensures r.1[BoolCount] == SetCullFace(s.ints[0].value)
    ensures forall i :: 0 <= i < BoolCount ==> r.0.bools[i] == Setter(s.bools[i].value, s.bools[i].value)
    ensures r.0.ints[0] == Setter(s.ints[0].value, s.ints[0].value)
  {
    (s.(bools := IssueAll(s.bools), ints := IssueAll(s.ints)),
     ForceCalls(s.bools, BoolSlots, BoolCall) + ForceCalls(s.ints, IntSlots, IntCall))
  }

  // ---------------------------------------------------------------------------
  // Properties

  /** The number of dirty slots of a kind. */
  function DirtyCount<T(==)>(xs: seq<Setter<T>>): nat
  {
    if |xs| == 0 then 0 else (if Dirty(xs[0]) then 1 else 0) + DirtyCount(xs[1..])
  }

  lemma {:induction false} FlushCallsCount<K, T>(xs: seq<Setter<T>>, keys: seq<K>, call: (K, T) -> Call)
    requires |keys| == |xs|
    ensures |FlushCalls(xs, keys, call)| == DirtyCount(xs)
    decreases |xs|
  {
    if |xs| > 0 {
      FlushCallsCount(xs[1..], keys[1..], call);
    }
  }

  lemma {:induction false} DirtyCountZero<T>(xs: seq<Setter<T>>)
    ensures DirtyCount(xs) == 0 <==> forall i :: 0 <= i < |xs| ==> !Dirty(xs[i])
    decreases |xs|
  {
    if |xs| > 0 {
      DirtyCountZero(xs[1..]);
      if DirtyCount(xs) == 0 {
        forall i | 0 <= i < |xs| ensures !Dirty(xs[i]) {
          if i > 0 { assert xs[i] == xs[1..][i - 1]; }
        }
      }
      if forall i :: 0 <= i < |xs| ==> !Dirty(xs[i]) {
        assert forall i :: 0 <= i < |xs[1..]| ==> !Dirty(xs[1..][i]) by {
          forall i | 0 <= i < |xs[1..]| ensures !Dirty(xs[1..][i]) {
            assert xs[1..][i] == xs[i + 1];
          }
        }
      }
    }
  }

  /** Flush issues exactly one call per slot whose value changed since it
      was last issued: none when everything is in sync. */
  lemma FlushIsMinimal(s: State)
    requires Valid(s)
    ensures |Flush(s).1| == DirtyCount(s.bools) + DirtyCount(s.ints) + DirtyCount(s.float2s)
    ensures Flush(s).1 == [] <==> Synced(s)
  {
    FlushCallsCount(s.bools, BoolSlots, BoolCall);
    FlushCallsCount(s.ints, IntSlots, IntCall);
    FlushCallsCount(s.float2s, Float2Slots, Float2Call);
    DirtyCountZero(s.bools);
    DirtyCountZero(s.ints);
    DirtyCountZero(s.float2s);
  }

  /** A second Flush issues nothing and changes nothing. */
  lemma FlushIdempotent(s: State)
    requires Valid(s)
    ensures Flush(Flush(s).0).1 == []
    ensures Flush(Flush(s).0).0 == Flush(s).0
  {
    var s1 := Flush(s).0;
    FlushIsMinimal(s1);
    assert IssueAll(s1.bools) == s1.bools;
    assert IssueAll(s1.ints) == s1.ints;
    assert IssueAll(s1.float2s) == s1.float2s;
  }

  /** Setters that are in sync contribute nothing to a flush. */
  lemma {:induction false} FlushCallsClean<K, T>(xs: seq<Setter<T>>, keys: seq<K>, call: (K, T) -> Call)
    requires |keys| == |xs|
    requires forall i :: 0 <= i < |xs| ==> !Dirty(xs[i])
    ensures FlushCalls(xs, keys, call) == []
    decreases |xs|
  {
    if |xs| > 0 {
      FlushCallsClean(xs[1..], keys[1..], call);
    }
  }

  /** The flush calls of two runs of setters are those of the first run
      followed by those of the second. */
  lemma {:induction false} FlushCallsAppend<K, T>(a: seq<Setter<T>>, ka: seq<K>, b: seq<Setter<T>>, kb: seq<K>,
                                                  call: (K, T) -> Call)
    requires |ka| == |a| && |kb| == |b|
    ensures FlushCalls(a + b, ka + kb, call) == FlushCalls(a, ka, call) + FlushCalls(b, kb, call)
    decreases |a|
  {
    if |a| == 0 {
      assert a + b == b && ka + kb == kb;
    } else {
      assert (a + b)[1..] == a[1..] + b && (ka + kb)[1..] == ka[1..] + kb;
      assert (a + b)[0] == a[0] && (ka + kb)[0] == ka[0];
      FlushCallsAppend(a[1..], ka[1..], b, kb, call);
    }
  }

  /** With exactly one dirty setter `k`, the flush of the run is that
      setter's single call. */
  lemma {:induction false} FlushCallsSingle<K, T>(xs: seq<Setter<T>>, keys: seq<K>, call: (K, T) -> Call, k: nat)
    requires |keys| == |xs| && k < |xs|
    requires forall i :: 0 <= i < |xs| && i != k ==> !Dirty(xs[i])
    ensures FlushCalls(xs, keys, call) == FlushCall(xs[k], keys[k], call)
  {
    var front, back := xs[..k], xs[k + 1..];
    var kfront, kback := keys[..k], keys[k + 1..];
    assert xs == front + ([xs[k]] + back);
    assert keys == kfront + ([keys[k]] + kback);
    FlushCallsAppend(front, kfront, [xs[k]] + back, [keys[k]] + kback, call);
    FlushCallsAppend([xs[k]], [keys[k]], back, kback, call);
    forall i | 0 <= i < |front| ensures !Dirty(front[i]) { assert front[i] == xs[i]; }
    forall i | 0 <= i < |back| ensures !Dirty(back[i]) { assert back[i] == xs[k + 1 + i]; }
    FlushCallsClean(front, kfront, call);
    FlushCallsClean(back, kback, call);
    assert FlushCalls([xs[k]], [keys[k]], call) == FlushCall(xs[k], keys[k], call) + [] by {
      assert [xs[k]][1..] == [] && [keys[k]][1..] == [];
    }
  }

  /** From a synchronised state, setting one boolean slot and flushing issues
      that slot's call for the new value if it differs from the old one, and
      nothing at all otherwise. */
  lemma SetBoolThenFlush(s: State, key: nat, v: bool)
    requires Valid(s) && Synced(s) && key < BoolCount
    ensures Flush(SetBool(s, key, v)).1
         == if v != s.bools[key].value then [BoolCall(BoolSlots[key], v)] else []
  {
    var s1 := SetBool(s, key, v);
    FlushCallsSingle(s1.bools, BoolSlots, BoolCall, key);
    FlushCallsClean(s1.ints, IntSlots, IntCall);
    FlushCallsClean(s1.float2s, Float2Slots, Float2Call);
  }

  /** After Force only the float-pair slot can still be out of sync, so a
      Flush right after a Force issues the polygon-offset call or nothing. */
  lemma ForceThenFlush(s: State)
    requires Valid(s)
    ensures Flush(Force(s).0).1 == FlushCall(s.float2s[0], PolygonOffsetConstantAndFactor, Float2Call)
  {
    var f := Force(s).0;
    FlushCallsClean(f.bools, BoolSlots, BoolCall);
    FlushCallsClean(f.ints, IntSlots, IntCall);
    assert FlushCalls(f.float2s, Float2Slots, Float2Call)
        == FlushCall(f.float2s[0], Float2Slots[0], Float2Call) + FlushCalls([], [], Float2Call) by {
      assert f.float2s[1..] == [] && Float2Slots[1..] == [];
    }
  }

  /** The setter mapping: a true value enables, a false value disables; the
      client-array slots address attributes 0..3 in order. */
  lemma BoolCallMapping(i: nat, v: bool)
    requires i < BoolCount
    ensures BoolSlots[i] == DepthMask ==> BoolCall(BoolSlots[i], v) == SetDepthMask(v)
    ensures 9 <= i ==>
      BoolCall(BoolSlots[i], v) == (if v then EnableVertexAttribArray(i - 9) else DisableVertexAttribArray(i - 9))
    ensures i < 8 ==> BoolCall(BoolSlots[i], v) == (if v then Enable(BoolSlots[i]) else Disable(BoolSlots[i]))
  {
  }

  /** Distinct boolean slots never issue the same call, so a trace tells
      which slot was flushed. */
  lemma BoolCallInjective(a: BoolSlot, b: BoolSlot, v: bool, w: bool)
    ensures BoolCall(a, v) == BoolCall(b, w) ==> a == b && v == w
  {
  }

  /** The cull-face call carries the stored mode, and the polygon-offset call
      carries the stored pair with its halves swapped; neither can be
      mistaken for a boolean slot's call, so a trace tells every slot's
      value apart. */
  lemma ScalarCalls(m: int, n: int, p: (real, real), q: (real, real), slot: BoolSlot, v: bool)
    ensures IntCall(CullFaceMode, m) == IntCall(CullFaceMode, n) <==> m == n
    ensures IntCall(CullFaceMode, m).SetCullFace? && IntCall(CullFaceMode, m).mode == m
    ensures Float2Call(PolygonOffsetConstantAndFactor, p) == Float2Call(PolygonOffsetConstantAndFactor, q) <==> p == q
    ensures var c := Float2Call(PolygonOffsetConstantAndFactor, p);
      c.SetPolygonOffset? && c.factor == p.1 && c.units == p.0
    ensures BoolCall(slot, v) != IntCall(CullFaceMode, m)
    ensures BoolCall(slot, v) != Float2Call(PolygonOffsetConstantAndFactor, p)
  {
  }
}
