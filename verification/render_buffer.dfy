/**
  vsRenderBuffer: a CPU byte array with a capacity (`arrayBytes`) and an
  active size (`activeBytes`), optionally mirrored into a GPU buffer object
  whose allocated size (`glArrayBytes`) only ever grows between device
  resets. Each typed SetArray overload records what the bytes hold.

  GPU calls are reduced to the decision each upload makes (reallocate, or
  orphan and map-copy); pointer set-up for drawing is left out. The sizes of
  the vertex layouts come from headers outside this model and are a
  parameter `sizeOf`; a newly allocated CPU array holds `Unset` cells.
 */
module RenderBuffer {
  import opened Wrappers
  import RS = RendererState

  type Byte = bv8

  /** A CPU array cell: uninitialised, or holding a byte. */
  datatype Cell = Unset | Written(value: Byte)

  datatype BufferType = NoVBO | Static | Dynamic | Stream

  /** The interleaved vertex layouts: P(osition), C(olour), N(ormal), T(exel). */
  datatype StructKind = PC | PT | PN | PCT | PNT | PCN | PCNT

  /** m_contentType. */
  datatype Content = Custom | Layout(kind: StructKind)

  /** The element type of each SetArray overload. */
  datatype ElementKind = Struct(kind: StructKind) | Vector3D | Vector2D | Color | Index16

  /** sizeof of each element type. The constructor asserts sizeof(uint16) == 2. */
  type Sizes = ElementKind -> nat

  predicate SizesOk(sizeOf: Sizes)
  {
    && (forall k: StructKind :: sizeOf(Struct(k)) > 0)
    && sizeOf(Vector3D) > 0 && sizeOf(Vector2D) > 0 && sizeOf(Color) > 0
    && sizeOf(Index16) == 2
  }

  datatype Buffer = Buffer(
    cpu: Option<seq<Cell>>,   // m_array; None is a null pointer
    arrayBytes: int,            // capacity of m_array
    glArrayBytes: int,          // bytes allocated in the GPU buffer object
    activeBytes: int,           // bytes in use
    bufferType: BufferType,
    content: Content,
    vbo: bool,                  // a GPU buffer object is in use
    indexType: bool)            // the data is an index (element) array

  predicate Valid(b: Buffer)
  {
    && (b.cpu.None? ==> b.arrayBytes == 0)
    && (b.cpu.Some? ==> |b.cpu.value| == b.arrayBytes)
    && 0 <= b.activeBytes <= b.arrayBytes
    && 0 <= b.glArrayBytes
  }

  /** The constructor. A buffer object is created when the driver offers
      glGenBuffers and the type is not NoVBO. */
  function NewBuffer(t: BufferType, hasGenBuffers: bool): (b: Buffer)
    ensures Valid(b) && b.cpu.None? && b.activeBytes == 0 && b.glArrayBytes == 0
    ensures b.content == Custom && !b.indexType
    ensures b.vbo <==> hasGenBuffers && t != NoVBO
  {
    Buffer(None, 0, 0, 0, t, Custom, hasGenBuffers && t != NoVBO, false)
  }

  function Cells(bytes: seq<Byte>): (r: seq<Cell>)
    ensures |r| == |bytes| && forall i :: 0 <= i < |bytes| ==> r[i] == Written(bytes[i])
  {
    seq(|bytes|, i requires 0 <= i < |bytes| => Written(bytes[i]))
  }

  // ---------------------------------------------------------------------------
  // Sizing and uploading

  /** SetArraySize_Internal (and ResizeArray). The CPU array is replaced by a
      fresh one of exactly `size` bytes when there is none or the request
      exceeds the capacity; otherwise it is kept with its contents. The
      active size becomes the request either way. */
  function SetArraySize(b: Buffer, size: int): (r: Buffer)
    requires Valid(b) && size >= 0
    ensures Valid(r) && r.activeBytes == size && r.arrayBytes >= size
    ensures b.cpu.None? || size > b.arrayBytes ==>
      r.cpu == Some(seq(size, i => Unset)) && r.arrayBytes == size
    ensures b.cpu.Some? && size <= b.arrayBytes ==>
      r.cpu == b.cpu && r.arrayBytes == b.arrayBytes
    ensures r.glArrayBytes == b.glArrayBytes && r.bufferType == b.bufferType && r.content == b.content
    ensures r.vbo == b.vbo && r.indexType == b.indexType
  {
    var kept := if b.cpu.Some? && size > b.arrayBytes then None else b.cpu;
    if kept.None? then b.(cpu := Some(seq(size, i => Unset)), arrayBytes := size, activeBytes := size)
    else b.(activeBytes := size)
  }

  /** Where SetArray_Internal's bytes come from: the buffer's own array (as
      in BakeArray) or a caller's array. */
  datatype Source = OwnArray | External(bytes: seq<Byte>)

  /** What SetArray_Internal does to the GPU buffer object. */
  datatype Upload = NoUpload | Reallocate(size: int) | MapCopy(size: int)

  /** `cells` with its first |bytes| cells overwritten by `bytes`. */
  function Overwrite(cells: seq<Cell>, bytes: seq<Byte>): (r: seq<Cell>)
    requires |bytes| <= |cells|
    ensures |r| == |cells|
    ensures forall i :: 0 <= i < |bytes| ==> r[i] == Written(bytes[i])
    ensures forall i :: |bytes| <= i < |cells| ==> r[i] == cells[i]
  {
    seq(|cells|, i requires 0 <= i < |cells| => if i < |bytes| then Written(bytes[i]) else cells[i])
  }

  /** SetArray_Internal. A zero-length upload trips an assertion, after which
      the code carries on as for any other size. With a buffer object, the GPU storage is reallocated exactly when the upload
      is larger than any since the last reset, and otherwise orphaned and
      filled through a mapping. Bytes from a caller are then copied into the
      CPU array, resized to `size` first; the buffer's own bytes stay put. */
  function SetArrayInternal(b: Buffer, data: Source, size: int, elementArray: bool): (r: (Buffer, Upload))
    requires Valid(b) && size >= 0
    requires data.External? ==> size <= |data.bytes|
    requires data.OwnArray? ==> size <= b.arrayBytes
    ensures Valid(r.0)
    ensures r.0.indexType == elementArray
    ensures r.0.bufferType == b.bufferType && r.0.content == b.content && r.0.vbo == b.vbo
    ensures r.1.NoUpload? <==> !b.vbo
    ensures r.1.Reallocate? <==> b.vbo && size > b.glArrayBytes
    ensures r.1.Reallocate? || r.1.MapCopy? ==> r.1.size == size
    ensures r.0.glArrayBytes == if r.1.Reallocate? then size else b.glArrayBytes
    ensures data.OwnArray? ==>
      r.0.cpu == b.cpu && r.0.arrayBytes == b.arrayBytes && r.0.activeBytes == b.activeBytes
    ensures data.External? ==>
      && r.0.activeBytes == size
      && r.0.cpu.Some?
      && (forall i :: 0 <= i < size ==> r.0.cpu.value[i] == Written(data.bytes[i]))
      && (b.cpu.Some? && size <= b.arrayBytes ==>
            r.0.arrayBytes == b.arrayBytes
            && forall i :: size <= i < b.arrayBytes ==> r.0.cpu.value[i] == b.cpu.value[i])
      && (b.cpu.None? || size > b.arrayBytes ==> r.0.arrayBytes == size)
  {
    var b1 := b.(indexType := elementArray);
    var up := if !b1.vbo then NoUpload else if size > b1.glArrayBytes then Reallocate(size) else MapCopy(size);
    var b2 := if up.Reallocate? then b1.(glArrayBytes := size) else b1;
    match data
    case OwnArray => (b2, up)
    case External(bytes) =>
      var b3 := SetArraySize(b2, size);
      (b3.(cpu := Some(Overwrite(b3.cpu.value, bytes[..size]))), up)
  }

  /** The records laid end to end. */
  function Flatten(records: seq<seq<Byte>>): seq<Byte>
  {
    if |records| == 0 then [] else records[0] + Flatten(records[1..])
  }

  predicate Uniform(records: seq<seq<Byte>>, width: nat)
  {
    forall i :: 0 <= i < |records| ==> |records[i]| == width
  }

  lemma {:induction false} FlattenLength(records: seq<seq<Byte>>, width: nat)
    requires Uniform(records, width)
    ensures |Flatten(records)| == |records| * width
    decreases |records|
  {
    if |records| > 0 {
      FlattenLength(records[1..], width);
    }
  }

  /** Byte j of record i sits at offset i * width + j. */
  lemma {:induction false} FlattenIndex(records: seq<seq<Byte>>, width: nat, i: nat, j: nat)
    requires Uniform(records, width) && i < |records| && j < width
    ensures |Flatten(records)| == |records| * width
    ensures i * width + j < |Flatten(records)|
    ensures Flatten(records)[i * width + j] == records[i][j]
    decreases |records|
  {
    FlattenLength(records, width);
    if i > 0 {
      FlattenIndex(records[1..], width, i - 1, j);
      assert i * width + j == width + ((i - 1) * width + j);
    }
    assert i * width + j < |records| * width by {
      MulLess(i, |records|, width, j);
    }
  }

  lemma MulLess(i: nat, n: nat, w: nat, j: nat)
    requires i < n && j < w
    ensures i * w + j < n * w
  {
    assert (i + 1) * w <= n * w;
  }

  /** The typed SetArray overloads: a layout array records its layout tag, an
      index array marks the buffer as index data, and the vsVector3D,
      vsVector2D and vsColor arrays leave the tag as it was. The byte count
      is the element count times the element size. */
  function SetArray(b: Buffer, kind: ElementKind, records: seq<seq<Byte>>, sizeOf: Sizes): (r: (Buffer, Upload))
    requires Valid(b) && SizesOk(sizeOf)
    requires Uniform(records, sizeOf(kind))
    ensures r.0.content == if kind.Struct? then Layout(kind.kind) else b.content
    ensures r.0.indexType <==> kind == Index16
    ensures r.0.activeBytes == |records| * sizeOf(kind)
    ensures var bytes := Flatten(records);
      |bytes| == |records| * sizeOf(kind) &&
      r == SetArrayInternal(b.(content := r.0.content), External(bytes), |bytes|, kind == Index16)
  {
    var tagged := if kind.Struct? then b.(content := Layout(kind.kind)) else b;
    var bytes := Flatten(records);
    FlattenLength(records, sizeOf(kind));
    SetArrayInternal(tagged, External(bytes), |records| * sizeOf(kind), kind == Index16)
  }

  /** SetVector3DArraySize, SetVector2DArraySize, SetColorArraySize and
      SetIntArraySize: a CPU-only resize to `count` elements. The CPU array
      is kept when it can hold them and otherwise replaced by a fresh one of
      exactly that size; nothing on the GPU side or in the tags changes. */
  function SetElementArraySize(b: Buffer, kind: ElementKind, count: nat, sizeOf: Sizes): (r: Buffer)
    requires Valid(b) && SizesOk(sizeOf) && !kind.Struct?
    ensures Valid(r) && r.activeBytes == count * sizeOf(kind)
    ensures b.cpu.Some? && count * sizeOf(kind) <= b.arrayBytes ==>
      r.cpu == b.cpu && r.arrayBytes == b.arrayBytes
    ensures b.cpu.None? || count * sizeOf(kind) > b.arrayBytes ==>
      r.cpu == Some(seq(count * sizeOf(kind), i => Unset)) && r.arrayBytes == count * sizeOf(kind)
    ensures r.content == b.content && r.indexType == b.indexType && r.bufferType == b.bufferType
    ensures r.vbo == b.vbo && r.glArrayBytes == b.glArrayBytes
  {
    SetArraySize(b, count * sizeOf(kind))
  }

  /** BakeArray / BakeIndexArray: the active bytes of the CPU array are sent
      to the GPU as vertex or index data. An empty buffer sends nothing but
      still goes through the same steps. */
  function Bake(b: Buffer, asIndex: bool): (r: (Buffer, Upload))
    requires Valid(b)
    ensures r == SetArrayInternal(b, OwnArray, b.activeBytes, asIndex)
    ensures r.0 == b.(indexType := asIndex, glArrayBytes := r.0.glArrayBytes)
  {
    SetArrayInternal(b, OwnArray, b.activeBytes, asIndex)
  }

  // ---------------------------------------------------------------------------
  // Reading back and drawing

  /** The size of the layout in use, if any. */
  function LayoutSize(b: Buffer, sizeOf: Sizes): (r: nat)
    requires SizesOk(sizeOf)
    ensures b.content.Layout? ==> r > 0
  {
    match b.content
    case Custom => 0
    case Layout(k) => sizeOf(Struct(k))
  }

  /** GetPositionCount: the capacity in bytes divided by the layout size; 0
      (after an assertion) when no layout is recorded. */
  function GetPositionCount(b: Buffer, sizeOf: Sizes): (r: int)
    requires Valid(b) && SizesOk(sizeOf)
    ensures b.content.Custom? ==> r == 0
    ensures b.content.Layout? ==> r * LayoutSize(b, sizeOf) <= b.arrayBytes
    ensures b.content.Layout? ==> b.arrayBytes < (r + 1) * LayoutSize(b, sizeOf)
  {
    if b.content.Custom? then 0 else b.arrayBytes / LayoutSize(b, sizeOf)
  }

  /** What GetPosition returns: a record read from the CPU array, or the
      zero vector its fallback returns. */
  datatype Position = Stored(cells: seq<Cell>) | ZeroVector

  /** The layouts GetPosition's switch has a case for. PCT has none. */
  predicate Readable(c: Content)
  {
    c.Layout? && c.kind != PCT
  }

  /** GetPosition: the i-th record of the CPU array (the position is its
      leading field). Its switch has no case for PCT, so a PCT buffer, like
      one without a layout, falls through an assertion to the zero vector.
      For the other layouts an index at or past GetPositionCount would read
      outside the array. */
  function GetPosition(b: Buffer, i: int, sizeOf: Sizes): (r: Position)
    requires Valid(b) && SizesOk(sizeOf)
    requires Readable(b.content) ==> 0 <= i < GetPositionCount(b, sizeOf)
    ensures r.ZeroVector? <==> !Readable(b.content)
    ensures r.Stored? ==>
      && |r.cells| == LayoutSize(b, sizeOf)
      && b.cpu.Some? && (i + 1) * LayoutSize(b, sizeOf) <= |b.cpu.value|
      && forall j :: 0 <= j < |r.cells| ==> r.cells[j] == b.cpu.value[i * LayoutSize(b, sizeOf) + j]
  {
    if !Readable(b.content) then ZeroVector
    else
      var w := LayoutSize(b, sizeOf);
      BelowQuotient(i, b.arrayBytes, w);
      Stored(b.cpu.value[i * w..(i + 1) * w])
  }

  /** The number of indices every indexed draw issues: active bytes over
      sizeof(uint16). */
  function IndexCount(b: Buffer): int
  {
    b.activeBytes / 2
  }

  datatype Primitive = TriangleStrip | Triangles | TriangleFan | LineStrip | Lines

  /** A glDrawElements call: the index count and whether the indices come
      from the buffer object or from the CPU array. */
  datatype DrawCall = DrawCall(primitive: Primitive, count: int, fromBufferObject: bool)

  /** TriStripBuffer, TriListBuffer, TriFanBuffer, LineStripBuffer and
      LineListBuffer. */
  function DrawIndexed(b: Buffer, p: Primitive): (r: DrawCall)
    ensures r.primitive == p && r.count == IndexCount(b) && r.fromBufferObject == b.vbo
  {
    DrawCall(p, b.activeBytes / 2, b.vbo)
  }

  // ---------------------------------------------------------------------------
  // Binding

  predicate HasColor(k: StructKind) { k in {PC, PCT, PCN, PCNT} }
  predicate HasNormal(k: StructKind) { k in {PN, PNT, PCN, PCNT} }
  predicate HasTexel(k: StructKind) { k in {PT, PCT, PNT, PCNT} }

  /** The client-array slots Bind sets, in the order it sets them. */
  function BindSlots(k: StructKind): seq<RS.BoolSlot>
  {
    match k
    case PC => [RS.VertexArray, RS.ColorArray]
    case PT => [RS.VertexArray, RS.TextureCoordinateArray]
    case PN => [RS.VertexArray, RS.NormalArray]
    case PNT => [RS.VertexArray, RS.NormalArray, RS.TextureCoordinateArray]
    case PCNT => [RS.VertexArray, RS.NormalArray, RS.ColorArray, RS.TextureCoordinateArray]
    case PCN => [RS.VertexArray, RS.NormalArray, RS.ColorArray]
    case PCT => [RS.VertexArray, RS.ColorArray, RS.TextureCoordinateArray]
  }

  /** The client-array slots Unbind clears, in the order it clears them. */
  function UnbindSlots(k: StructKind): seq<RS.BoolSlot>
  {
    match k
    case PC => [RS.VertexArray, RS.ColorArray]
    case PT => [RS.VertexArray, RS.TextureCoordinateArray]
    case PN => [RS.VertexArray, RS.NormalArray]
    case PNT => [RS.VertexArray, RS.NormalArray, RS.TextureCoordinateArray]
    case PCN => [RS.VertexArray, RS.NormalArray, RS.ColorArray]
    case PCT => [RS.VertexArray, RS.ColorArray, RS.TextureCoordinateArray]
    case PCNT => [RS.VertexArray, RS.NormalArray, RS.ColorArray, RS.TextureCoordinateArray]
  }

  /** SetBool on each slot in turn. */
  function SetSlots(st: RS.State, slots: seq<RS.BoolSlot>, v: bool): (r: RS.State)
    requires RS.Valid(st)
    ensures RS.Valid(r) && r.ints == st.ints && r.float2s == st.float2s
    ensures forall i :: 0 <= i < RS.BoolCount ==> r.bools[i].shadow == st.bools[i].shadow
    ensures forall s :: s in slots ==> r.bools[RS.IndexOf(s)].value == v
    ensures forall i :: 0 <= i < RS.BoolCount && RS.BoolSlots[i] !in slots ==> r.bools[i] == st.bools[i]
    decreases |slots|
  {
    if |slots| == 0 then st
    else
      var st1 := RS.SetBool(st, RS.IndexOf(slots[0]), v);
      var r := SetSlots(st1, slots[1..], v);
      assert forall s :: s in slots ==> s == slots[0] || s in slots[1..];
      r
  }

  /** Bind: marks the client arrays of the recorded layout enabled. With no
      layout it only asserts. Nothing is flushed. */
  function Bind(b: Buffer, st: RS.State): (r: RS.State)
    requires RS.Valid(st)
    ensures RS.Valid(r)
    ensures b.content.Custom? ==> r == st
    ensures b.content.Layout? ==>
      && r.ints == st.ints && r.float2s == st.float2s
      && (forall i :: 0 <= i < RS.BoolCount ==> r.bools[i].shadow == st.bools[i].shadow)
      && (forall s :: s in BindSlots(b.content.kind) ==> r.bools[RS.IndexOf(s)].value)
      && (forall i :: 0 <= i < RS.BoolCount && RS.BoolSlots[i] !in BindSlots(b.content.kind) ==>
            r.bools[i] == st.bools[i])
  {
    match b.content
    case Custom => st
    case Layout(k) => SetSlots(st, BindSlots(k), true)
  }

  /** Unbind: marks the client arrays of the recorded layout disabled. */
  function Unbind(b: Buffer, st: RS.State): (r: RS.State)
    requires RS.Valid(st)
    ensures RS.Valid(r)
    ensures b.content.Custom? ==> r == st
    ensures b.content.Layout? ==>
      && r.ints == st.ints && r.float2s == st.float2s
      && (forall i :: 0 <= i < RS.BoolCount ==> r.bools[i].shadow == st.bools[i].shadow)
      && (forall s :: s in UnbindSlots(b.content.kind) ==> !r.bools[RS.IndexOf(s)].value)
      && (forall i :: 0 <= i < RS.BoolCount && RS.BoolSlots[i] !in UnbindSlots(b.content.kind) ==>
            r.bools[i] == st.bools[i])
  {
    match b.content
    case Custom => st
    case Layout(k) => SetSlots(st, UnbindSlots(k), false)
  }

  // ---------------------------------------------------------------------------
  // Device reset

  /** UnmapAll: every buffer drops its buffer object; nothing is allocated on
      the GPU any more. */
  function UnmapAll(bs: seq<Buffer>): (r: seq<Buffer>)
    ensures |r| == |bs|
    ensures forall i :: 0 <= i < |bs| ==> r[i] == bs[i].(vbo := false, glArrayBytes := 0)
    ensures (forall i :: 0 <= i < |bs| ==> Valid(bs[i])) ==> forall i :: 0 <= i < |r| ==> Valid(r[i])
  {
    seq(|bs|, i requires 0 <= i < |bs| => bs[i].(vbo := false, glArrayBytes := 0))
  }

  /** What MapAll leaves of buffer `b` in `r`: a buffer object where there
      was one or where the driver and the type allow one, a GPU allocation
      grown to the active bytes when there is a buffer object, and the CPU
      side and the tags as they were. */
  predicate Remapped(b: Buffer, r: Buffer, hasGenBuffers: bool)
  {
    && (r.vbo <==> b.vbo || (hasGenBuffers && b.bufferType != NoVBO))
    && r.glArrayBytes == (if r.vbo && b.activeBytes > b.glArrayBytes then b.activeBytes else b.glArrayBytes)
    && r.cpu == b.cpu && r.arrayBytes == b.arrayBytes && r.activeBytes == b.activeBytes
    && r.indexType == b.indexType && r.content == b.content && r.bufferType == b.bufferType
  }

  /** One buffer of MapAll: a buffer object is re-created where the driver
      and the type allow it, then the CPU bytes are baked as index or vertex
      data according to the stored flag. */
  function Remap(b: Buffer, hasGenBuffers: bool): (r: Buffer)
    requires Valid(b)
    ensures Valid(r) && Remapped(b, r, hasGenBuffers)
  {
    var b1 := if hasGenBuffers && b.bufferType != NoVBO then b.(vbo := true) else b;
    Bake(b1, b1.indexType).0
  }

  /** MapAll over every buffer instance, empty ones included. */
  function MapAll(bs: seq<Buffer>, hasGenBuffers: bool): (r: seq<Buffer>)
    requires forall i :: 0 <= i < |bs| ==> Valid(bs[i])
    ensures |r| == |bs|
    ensures forall i :: 0 <= i < |bs| ==> Valid(r[i]) && Remapped(bs[i], r[i], hasGenBuffers)
  {
    seq(|bs|, i requires 0 <= i < |bs| => Remap(bs[i], hasGenBuffers))
  }

  // ---------------------------------------------------------------------------
  // Properties

  /** The GPU allocation is a high-water mark: each upload with a buffer
      object leaves it at the larger of its old value and the upload size. */
  lemma GpuHighWater(b: Buffer, data: Source, size: int, elementArray: bool)
    requires Valid(b) && size >= 0
    requires data.External? ==> size <= |data.bytes|
    requires data.OwnArray? ==> size <= b.arrayBytes
    ensures var r := SetArrayInternal(b, data, size, elementArray).0;
      && (b.vbo ==> r.glArrayBytes == if size > b.glArrayBytes then size else b.glArrayBytes)
      && (!b.vbo ==> r.glArrayBytes == b.glArrayBytes)
      && r.glArrayBytes >= b.glArrayBytes
  {
  }

  /** A typed upload followed by a read returns the records written: record
      i comes back from slot i, and the active size covers exactly the
      records written. The corrected reader does so for every layout;
      GetPosition does so for every layout but PCT. */
  lemma PositionRoundTrip(b: Buffer, k: StructKind, records: seq<seq<Byte>>, sizeOf: Sizes, i: nat)
    requires Valid(b) && SizesOk(sizeOf)
    requires Uniform(records, sizeOf(Struct(k))) && i < |records|
    ensures var r := SetArray(b, Struct(k), records, sizeOf).0;
      && ActivePositionCount(r, sizeOf) == |records|
      && GetPositionCount(r, sizeOf) >= |records|
      && GetActivePosition(r, i, sizeOf) == Cells(records[i])
      && (k != PCT ==> GetPosition(r, i, sizeOf) == Stored(Cells(records[i])))
  {
    var w := sizeOf(Struct(k));
    var r := SetArray(b, Struct(k), records, sizeOf).0;
    var bytes := Flatten(records);
    FlattenLength(records, w);
    assert r.activeBytes == |records| * w;
    DivMul(|records|, w);
    assert ActivePositionCount(r, sizeOf) == |records|;
    DivMonotone(r.activeBytes, r.arrayBytes, w);
    var got := GetActivePosition(r, i, sizeOf);
    forall j | 0 <= j < w
      ensures got[j] == Written(records[i][j])
    {
      FlattenIndex(records, w, i, j);
      assert got[j] == r.cpu.value[i * w + j];
    }
  }

  lemma MulCancelLess(x: int, y: int, w: int)
    requires w > 0 && w * x < w * y
    ensures x < y
  {
  }

  /** Euclidean division is determined by quotient and remainder. */
  lemma DivUnique(a: int, w: int, q: int, r: int)
    requires w > 0 && 0 <= r < w && a == w * q + r
    ensures a / w == q
  {
    var q' := a / w;
    assert a == w * q' + a % w;
    assert w * (q + 1) == w * q + w;
    assert w * (q' + 1) == w * q' + w;
    MulCancelLess(q', q + 1, w);
    MulCancelLess(q, q' + 1, w);
  }

  lemma DivMul(n: nat, w: nat)
    requires w > 0
    ensures n * w / w == n
  {
    DivUnique(n * w, w, n, 0);
  }

  lemma DivMonotone(a: int, b: int, w: int)
    requires 0 <= a <= b && w > 0
    ensures a / w <= b / w
  {
    assert a == w * (a / w) + a % w;
    assert b == w * (b / w) + b % w;
    assert w * (b / w + 1) == w * (b / w) + w;
    MulCancelLess(a / w, b / w + 1, w);
  }

  /** The corrected count: positions within the active bytes. */
  function ActivePositionCount(b: Buffer, sizeOf: Sizes): (r: int)
    requires Valid(b) && SizesOk(sizeOf)
    ensures b.content.Custom? ==> r == 0
    ensures 0 <= r <= GetPositionCount(b, sizeOf)
  {
    if b.content.Custom? then 0
    else
      DivMonotone(b.activeBytes, b.arrayBytes, LayoutSize(b, sizeOf));
      b.activeBytes / LayoutSize(b, sizeOf)
  }

  /** The corrected reader: the i-th record among the positions of the last
      upload, for every layout PCT included. Where GetPosition has a case
      for the layout, the two agree. */
  function GetActivePosition(b: Buffer, i: int, sizeOf: Sizes): (r: seq<Cell>)
    requires Valid(b) && SizesOk(sizeOf)
    requires 0 <= i < ActivePositionCount(b, sizeOf)
    ensures b.content.Layout? && |r| == LayoutSize(b, sizeOf)
    ensures (i + 1) * LayoutSize(b, sizeOf) <= b.activeBytes
    ensures b.cpu.Some? && forall j :: 0 <= j < |r| ==> r[j] == b.cpu.value[i * LayoutSize(b, sizeOf) + j]
    ensures Readable(b.content) ==> GetPosition(b, i, sizeOf) == Stored(r)
  {
    var w := LayoutSize(b, sizeOf);
    BelowQuotient(i, b.activeBytes, w);
    var cells := b.cpu.value;
    var r := cells[i * w..(i + 1) * w];
    assert Readable(b.content) ==> GetPosition(b, i, sizeOf) == Stored(r) by {
      if Readable(b.content) {
        assert GetPosition(b, i, sizeOf).cells == cells[i * w..(i + 1) * w];
      }
    }
    r
  }

  /** An index below the quotient a / w has its whole record within a. */
  lemma BelowQuotient(i: int, a: int, w: int)
    requires w > 0 && 0 <= a && 0 <= i < a / w
    ensures 0 <= i * w && (i + 1) * w <= a
  {
    assert a == w * (a / w) + a % w;
    assert (i + 1) * w <= (a / w) * w;
  }

  /** GetPosition loses PCT data: after a PCT upload it returns the zero
      vector for every record, while the record itself is in the array. */
  lemma PctPositionLost(b: Buffer, records: seq<seq<Byte>>, sizeOf: Sizes, i: nat)
    requires Valid(b) && SizesOk(sizeOf)
    requires Uniform(records, sizeOf(Struct(PCT))) && i < |records|
    ensures var r := SetArray(b, Struct(PCT), records, sizeOf).0;
      && GetPosition(r, i, sizeOf) == ZeroVector
      && ActivePositionCount(r, sizeOf) == |records|
      && GetActivePosition(r, i, sizeOf) == Cells(records[i])
  {
    PositionRoundTrip(b, PCT, records, sizeOf, i);
  }

  /** GetPositionCount counts capacity, not content: after uploading two
      records and then one, it still reports two positions, and the second
      is the stale record of the earlier upload. */
  lemma StalePositionCount(sizeOf: Sizes, x: seq<Byte>, y: seq<Byte>, z: seq<Byte>)
    requires SizesOk(sizeOf)
    requires |x| == |y| == |z| == sizeOf(Struct(PC))
    ensures var b1 := SetArray(NewBuffer(NoVBO, false), Struct(PC), [x, y], sizeOf).0;
      var b2 := SetArray(b1, Struct(PC), [z], sizeOf).0;
      && GetPositionCount(b2, sizeOf) == 2
      && ActivePositionCount(b2, sizeOf) == 1
      && GetPosition(b2, 1, sizeOf) == Stored(Cells(y))
  {
    var w := sizeOf(Struct(PC));
    var b1 := SetArray(NewBuffer(NoVBO, false), Struct(PC), [x, y], sizeOf).0;
    PositionRoundTrip(NewBuffer(NoVBO, false), PC, [x, y], sizeOf, 1);
    assert b1.arrayBytes == 2 * w;
    var b2 := SetArray(b1, Struct(PC), [z], sizeOf).0;
    assert Flatten([z]) == z by { assert [z][1..] == []; }
    assert b2.arrayBytes == 2 * w && b2.activeBytes == w;
    DivMul(2, w);
    DivMul(1, w);
    var got := GetPosition(b2, 1, sizeOf).cells;
    forall j | 0 <= j < w
      ensures got[j] == Written(y[j])
    {
      assert got[j] == b2.cpu.value[w + j];
      assert b2.cpu.value[w + j] == b1.cpu.value[w + j];
      assert GetPosition(b1, 1, sizeOf).cells[j] == b1.cpu.value[w + j];
    }
  }

  /** After an index upload every indexed draw issues one index per uint16
      written. */
  lemma IndexCountRoundTrip(b: Buffer, indices: seq<seq<Byte>>, sizeOf: Sizes, p: Primitive)
    requires Valid(b) && SizesOk(sizeOf)
    requires |indices| > 0 && Uniform(indices, 2)
    ensures var r := SetArray(b, Index16, indices, sizeOf).0;
      r.indexType && DrawIndexed(r, p).count == |indices|
  {
  }

  /** Bind enables, and Unbind disables, exactly the client arrays the layout
      carries: always the vertex array, and the colour, normal and texture
      coordinate arrays exactly when the layout has that field. */
  lemma BindSlotsMatchLayout(k: StructKind, s: RS.BoolSlot)
    ensures s in BindSlots(k) <==>
      || s == RS.VertexArray
      || (s == RS.ColorArray && HasColor(k))
      || (s == RS.NormalArray && HasNormal(k))
      || (s == RS.TextureCoordinateArray && HasTexel(k))
    ensures s in UnbindSlots(k) <==> s in BindSlots(k)
  {
  }

  /** The effect on the renderer state: the layout's slots become true
      (Bind) or false (Unbind); every other slot, and every shadow, is
      unchanged. Nothing is flushed. */
  lemma BindEffect(b: Buffer, st: RS.State, s: RS.BoolSlot)
    requires RS.Valid(st) && b.content.Layout?
    ensures var i := RS.IndexOf(s);
      && (s in BindSlots(b.content.kind) ==> Bind(b, st).bools[i].value)
      && (s in BindSlots(b.content.kind) ==> !Unbind(b, st).bools[i].value)
      && (s !in BindSlots(b.content.kind) ==>
            Bind(b, st).bools[i] == st.bools[i] && Unbind(b, st).bools[i] == st.bools[i])
      && Bind(b, st).bools[i].shadow == st.bools[i].shadow
  {
    BindSlotsMatchLayout(b.content.kind, s);
  }

  /** A device reset (UnmapAll then MapAll) re-creates the buffer objects the
      driver allows and re-uploads each buffer's active bytes, as index or
      vertex data as before, leaving the CPU side untouched. */
  lemma ResetReuploads(bs: seq<Buffer>, hasGenBuffers: bool, i: nat)
    requires forall j :: 0 <= j < |bs| ==> Valid(bs[j])
    requires i < |bs|
    ensures var r := MapAll(UnmapAll(bs), hasGenBuffers)[i];
      && (r.vbo <==> hasGenBuffers && bs[i].bufferType != NoVBO)
      && r.glArrayBytes == (if r.vbo then bs[i].activeBytes else 0)
      && r.cpu == bs[i].cpu && r.arrayBytes == bs[i].arrayBytes
      && r.activeBytes == bs[i].activeBytes && r.indexType == bs[i].indexType
      && r.content == bs[i].content
  {
    var u := UnmapAll(bs);
    assert Valid(u[i]);
  }

  /** Sizing an element array for n elements and then uploading n elements
      of that type reuses the CPU array: the upload fits in the capacity the
      size setter left, and every byte of it lands in place. */
  lemma SizeThenUpload(b: Buffer, kind: ElementKind, records: seq<seq<Byte>>, sizeOf: Sizes)
    requires Valid(b) && SizesOk(sizeOf) && !kind.Struct?
    requires Uniform(records, sizeOf(kind))
    ensures var sized := SetElementArraySize(b, kind, |records|, sizeOf);
      var r := SetArray(sized, kind, records, sizeOf).0;
      && r.arrayBytes == sized.arrayBytes && r.activeBytes == sized.activeBytes
      && r.cpu.Some? && |Flatten(records)| == r.activeBytes
      && forall i :: 0 <= i < r.activeBytes ==> r.cpu.value[i] == Written(Flatten(records)[i])
  {
    FlattenLength(records, sizeOf(kind));
  }
}
