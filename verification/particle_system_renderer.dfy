/** ParticleSystemRenderer's own part of the serialized renderer: which fields each
    engine version wrote, in which width and order, the defaults that stand in for the
    fields a version did not write, the meshes it references and its export node.
    Reading starts where the Renderer base part ends; that part is not modelled. */
module ParticleSystemRenderers {
  import opened Options
  import opened Bytes
  import opened Versions
  import opened Cursors
  import opened Yaml
  import opened VertexStreamMask

  /** ParticleSystemRenderMode.Mesh */
  const RenderModeMesh: int := 4
  /** ParticleSystemRenderSpace.View and .Local */
  const RenderSpaceView: int := 0
  const RenderSpaceLocal: int := 2

  /** 2017.1.0b2 */
  const MaskInteractionRelease: Version := Version(2017, 1, 0, Beta, 2)

  /** Byte sizes of the Vector3f and PPtr sub-records, whose own readers are not part
      of this model. */
  datatype SubSizes = SubSizes(vector3f: nat, pptr: nat)

  /** Sub-records kept as the bytes they were read from. */
  datatype Vector3f = Vector3f(raw: seq<byte>)
  datatype PPtr = PPtr(raw: seq<byte>)

  /** A reference that was never read: the zero-initialised struct (file 0, path 0). */
  function NullPPtr(sz: SubSizes): PPtr {
    PPtr(Zeros(sz.pptr))
  }

  /** The renderer's own fields. Enum fields hold the integer they were read as.
      vertexStreams is None where the source leaves its array null. */
  datatype ParticleSystemRenderer = ParticleSystemRenderer(
    renderMode: int,
    sortMode: int,
    minParticleSize: Single,
    maxParticleSize: Single,
    cameraVelocityScale: Single,
    velocityScale: Single,
    lengthScale: Single,
    sortingFudge: Single,
    normalDirection: Single,
    renderAlignment: int,
    pivot: Vector3f,
    useCustomVertexStreams: bool,
    vertexStreams: Option<seq<byte>>,
    mesh: PPtr,
    mesh1: PPtr,
    mesh2: PPtr,
    mesh3: PPtr,
    maskInteraction: int)

  /** A freshly constructed renderer: every field zero, the stream array null. */
  function Blank(sz: SubSizes): ParticleSystemRenderer {
    ParticleSystemRenderer(
      0, 0, ZeroSingle, ZeroSingle, ZeroSingle, ZeroSingle, ZeroSingle, ZeroSingle, ZeroSingle,
      0, Vector3f(Zeros(sz.vector3f)), false, None,
      NullPPtr(sz), NullPPtr(sz), NullPPtr(sz), NullPPtr(sz), 0)
  }

  // Version gates.

  function IsReadMinParticleSize(v: Version): (b: bool)
    ensures b <==> v.major > 5 || (v.major == 5 && v.minor >= 3)
  {
    ReleaseThreshold(v, 5, 3);
    IsGreaterEqual(v, Release(5, 3))
  }

  function IsReadNormalDirection(v: Version): (b: bool)
    ensures b <==> v.major >= 4
  {
    ReleaseThreshold(v, 4, 0);
    IsGreaterEqual(v, Release(4, 0))
  }

  function IsReadRenderAlignment(v: Version): (b: bool)
    ensures b <==> v.major > 5 || (v.major == 5 && v.minor >= 3)
  {
    ReleaseThreshold(v, 5, 3);
    IsGreaterEqual(v, Release(5, 3))
  }

  function IsReadUseCustomVertexStreams(v: Version): (b: bool)
    ensures b <==> v.major > 5 || (v.major == 5 && v.minor >= 5)
  {
    ReleaseThreshold(v, 5, 5);
    IsGreaterEqual(v, Release(5, 5))
  }

  /** Only the 5.5 release line stored the streams as a bitmask. */
  function IsReadVertexStreamMask(v: Version): (b: bool)
    ensures b <==> v.major == 5 && v.minor == 5
  {
    ReleaseThreshold(v, 5, 5);
    ReleaseThreshold(v, 5, 6);
    IsGreaterEqual(v, Release(5, 5)) && IsLess(v, Release(5, 6))
  }

  function IsReadMeshes(v: Version): (b: bool)
    ensures b <==> v.major >= 4
  {
    ReleaseThreshold(v, 4, 0);
    IsGreaterEqual(v, Release(4, 0))
  }

  function IsReadMaskInteraction(v: Version): (b: bool)
    ensures b <==> v.major > 2017 || (v.major == 2017 && (v.minor > 1 || (v.minor == 1 &&
                     (v.patch > 0 || Rank(v.kind) > 1 || (v.kind == Beta && v.build >= 2)))))
  {
    IsGreaterEqual(v, MaskInteractionRelease)
  }

  /** Render and sort mode are uint16 from 5.3 on, int32 before. */
  function IsModeShort(v: Version): (b: bool)
    ensures b <==> v.major > 5 || (v.major == 5 && v.minor >= 3)
  {
    ReleaseThreshold(v, 5, 3);
    IsGreaterEqual(v, Release(5, 3))
  }

  /** From 5.3 on the sort mode follows the render mode; before, it follows the
      normal direction. */
  function IsSortModeFirst(v: Version): (b: bool)
    ensures b <==> v.major > 5 || (v.major == 5 && v.minor >= 3)
  {
    ReleaseThreshold(v, 5, 3);
    IsGreaterEqual(v, Release(5, 3))
  }

  /** The schema revision written at the head of the export node. */
  function GetSerializedVersion(exportTopmost: bool, v: Version): (n: int)
    ensures 1 <= n <= 4
    ensures exportTopmost ==> n == 4
  {
    if exportTopmost then 4
    else if IsGreaterEqual(v, MaskInteractionRelease) then 4
    else if IsGreaterEqual(v, Release(5, 6)) then 3
    else if IsGreaterEqual(v, Release(5, 5)) then 2
    else 1
  }

  /** The highest threshold the version reaches picks the revision: each revision
      k >= 2 is reached exactly from its own threshold on. */
  lemma SerializedVersionRule(v: Version)
    ensures GetSerializedVersion(false, v) >= 2 <==> IsGreaterEqual(v, Release(5, 5))
    ensures GetSerializedVersion(false, v) >= 3 <==> IsGreaterEqual(v, Release(5, 6))
    ensures GetSerializedVersion(false, v) == 4 <==> IsGreaterEqual(v, MaskInteractionRelease)
  {
    if IsGreaterEqual(v, MaskInteractionRelease) {
      GreaterEqualMonotone(MaskInteractionRelease, v, Release(5, 6));
    }
    if IsGreaterEqual(v, Release(5, 6)) {
      GreaterEqualMonotone(Release(5, 6), v, Release(5, 5));
    }
  }

  /** A later version never gets an earlier revision. */
  lemma SerializedVersionMonotone(exportTopmost: bool, a: Version, b: Version)
    requires AtMost(a, b)
    ensures GetSerializedVersion(exportTopmost, a) <= GetSerializedVersion(exportTopmost, b)
  {
    SerializedVersionRule(a);
    SerializedVersionRule(b);
    if IsGreaterEqual(a, MaskInteractionRelease) {
      GreaterEqualMonotone(a, b, MaskInteractionRelease);
    }
    if IsGreaterEqual(a, Release(5, 6)) {
      GreaterEqualMonotone(a, b, Release(5, 6));
    }
    if IsGreaterEqual(a, Release(5, 5)) {
      GreaterEqualMonotone(a, b, Release(5, 5));
    }
  }

  // Byte layout, as offsets from the start of the renderer's own part.

  function Width(present: bool, n: nat): nat {
    if present then n else 0
  }

  function ModeWidth(v: Version): nat {
    if IsModeShort(v) then 2 else 4
  }

  function ModesSize(v: Version): nat {
    ModeWidth(v) + Width(IsSortModeFirst(v), 2)
  }

  /** The size and scale floats the version wrote, the normal direction included. */
  function ScalesSize(v: Version): nat {
    Width(IsReadMinParticleSize(v), 4) + 20 + Width(IsReadNormalDirection(v), 4)
  }

  function LateSortModeSize(v: Version): nat {
    Width(!IsSortModeFirst(v), 4)
  }

  /** Render mode, sort mode, the size/scale floats and the normal direction. */
  function HeadSize(v: Version): nat {
    ModesSize(v) + ScalesSize(v) + LateSortModeSize(v)
  }

  function AlignmentSize(v: Version, sz: SubSizes): nat {
    Width(IsReadRenderAlignment(v), 4 + sz.vector3f)
  }

  /** Where a stream list that starts at q ends, for n streams: an int32 mask, or a
      length-prefixed array padded to 4. */
  function StreamListEnd(v: Version, q: nat, n: nat): (e: nat)
    ensures e >= q + 4
  {
    if IsReadVertexStreamMask(v) then q + 4 else RoundUp4(q + 4 + n)
  }

  /** Where the vertex-stream part that starts at p ends, for an array of n streams:
      a boolean, padding to 4, then the stream list. */
  function StreamsEnd(v: Version, p: nat, n: nat): (e: nat)
    ensures e >= p
  {
    if !IsReadUseCustomVertexStreams(v) then p else StreamListEnd(v, RoundUp4(p + 1), n)
  }

  function MeshCount(v: Version): nat {
    if IsReadMeshes(v) then 4 else 1
  }

  /** The mesh references: one, or four from 4.0 on. */
  function MeshRefsSize(v: Version, sz: SubSizes): nat {
    sz.pptr + Width(IsReadMeshes(v), 3 * sz.pptr)
  }

  function MeshesSize(v: Version, sz: SubSizes): nat {
    MeshRefsSize(v, sz) + Width(IsReadMaskInteraction(v), 4)
  }

  /** Where the stream part and meshes that start at q end, for n streams. */
  function StreamsAndMeshesEnd(v: Version, sz: SubSizes, q: nat, n: nat): (e: nat)
    ensures e >= q + MeshesSize(v, sz)
  {
    StreamsEnd(v, q, n) + MeshesSize(v, sz)
  }

  /** Where everything after a head that ends at q ends, for n streams. */
  function AfterHeadEnd(v: Version, sz: SubSizes, q: nat, n: nat): (e: nat)
    ensures e >= q + AlignmentSize(v, sz)
  {
    StreamsAndMeshesEnd(v, sz, q + AlignmentSize(v, sz), n)
  }

  /** Where a renderer whose own part starts at p ends, n being its stream count. */
  function EndPos(v: Version, sz: SubSizes, p: nat, n: nat): (e: nat)
    ensures e >= p + HeadSize(v)
  {
    AfterHeadEnd(v, sz, p + HeadSize(v), n)
  }

  function StreamCount(r: ParticleSystemRenderer): nat {
    if r.vertexStreams.Some? then |r.vertexStreams.value| else 0
  }

  // Decoding. Every reader takes the position it starts at and returns the position
  // right after what it consumed.

  /** An enum field stored as uint16 when `short`, else as int32. */
  function ReadEnum(s: Source, p: nat, short: bool): (r: Option<(int, nat)>)
    ensures r.Some? <==> p + (if short then 2 else 4) <= |s.data|
    ensures r.Some? ==> r.value.1 == p + (if short then 2 else 4)
    ensures r.Some? ==> r.value.0 == (if short then UInt16At(s, p) as int else Int32At(s, p) as int)
  {
    if short then
      var x :- ReadUInt16(s, p);
      Some((x.0 as int, x.1))
    else
      var x :- ReadInt32(s, p);
      Some((x.0 as int, x.1))
  }

  /** Render mode, and the sort mode right after it from 5.3 on. */
  function ReadModes(s: Source, p: nat, v: Version, acc: ParticleSystemRenderer): (r: Option<(ParticleSystemRenderer, nat)>)
    ensures r.Some? <==> p + ModesSize(v) <= |s.data|
    ensures r.Some? ==> r.value.1 == p + ModesSize(v)
    ensures r.Some? ==> r.value.0 == acc.(renderMode := r.value.0.renderMode, sortMode := r.value.0.sortMode)
    ensures r.Some? ==>
      r.value.0.renderMode == (if IsModeShort(v) then UInt16At(s, p) as int else Int32At(s, p) as int)
    ensures r.Some? ==>
      r.value.0.sortMode == (if IsSortModeFirst(v) then UInt16At(s, p + ModeWidth(v)) as int else acc.sortMode)
  {
    var mode :- ReadEnum(s, p, IsModeShort(v));
    var sort :- if IsSortModeFirst(v) then ReadEnum(s, mode.1, true) else Some((acc.sortMode, mode.1));
    Some((acc.(renderMode := mode.0, sortMode := sort.0), sort.1))
  }

  /** The five floats every version wrote: max particle size, camera velocity scale,
      velocity scale, length scale and sorting fudge, in that order. */
  function ReadFiveSingles(s: Source, p: nat): (r: Option<((Single, Single, Single, Single, Single), nat)>)
    ensures r.Some? <==> p + 20 <= |s.data|
    ensures r.Some? ==> r.value.1 == p + 20
    ensures r.Some? ==>
      && r.value.0.0 == SingleAt(s, p)
      && r.value.0.1 == SingleAt(s, p + 4)
      && r.value.0.2 == SingleAt(s, p + 8)
      && r.value.0.3 == SingleAt(s, p + 12)
      && r.value.0.4 == SingleAt(s, p + 16)
  {
    var a :- ReadSingle(s, p);
    var b :- ReadSingle(s, a.1);
    var d :- ReadSingle(s, b.1);
    var e :- ReadSingle(s, d.1);
    var f :- ReadSingle(s, e.1);
    Some(((a.0, b.0, d.0, e.0, f.0), f.1))
  }

  /** The min particle size from 5.3 on, the five floats every version wrote, and the
      normal direction from 4.0 on. */
  function ReadScales(s: Source, p: nat, v: Version, acc: ParticleSystemRenderer): (r: Option<(ParticleSystemRenderer, nat)>)
    ensures r.Some? <==> p + ScalesSize(v) <= |s.data|
    ensures r.Some? ==> r.value.1 == p + ScalesSize(v)
    ensures r.Some? ==> r.value.0 == acc.(
      minParticleSize := r.value.0.minParticleSize, maxParticleSize := r.value.0.maxParticleSize,
      cameraVelocityScale := r.value.0.cameraVelocityScale, velocityScale := r.value.0.velocityScale,
      lengthScale := r.value.0.lengthScale, sortingFudge := r.value.0.sortingFudge,
      normalDirection := r.value.0.normalDirection)
    ensures r.Some? ==>
      var f := p + Width(IsReadMinParticleSize(v), 4);
      && r.value.0.minParticleSize == (if IsReadMinParticleSize(v) then SingleAt(s, p) else acc.minParticleSize)
      && r.value.0.maxParticleSize == SingleAt(s, f)
      && r.value.0.cameraVelocityScale == SingleAt(s, f + 4)
      && r.value.0.velocityScale == SingleAt(s, f + 8)
      && r.value.0.lengthScale == SingleAt(s, f + 12)
      && r.value.0.sortingFudge == SingleAt(s, f + 16)
      && r.value.0.normalDirection == (if IsReadNormalDirection(v) then SingleAt(s, f + 20) else acc.normalDirection)
  {
    var minSize :- if IsReadMinParticleSize(v) then ReadSingle(s, p) else Some((acc.minParticleSize, p));
    var five :- ReadFiveSingles(s, minSize.1);
    var normal :- if IsReadNormalDirection(v) then ReadSingle(s, five.1) else Some((acc.normalDirection, five.1));
    var (maxSize, cameraVelocity, velocity, length, fudge) := five.0;
    Some((acc.(
      minParticleSize := minSize.0, maxParticleSize := maxSize,
      cameraVelocityScale := cameraVelocity, velocityScale := velocity,
      lengthScale := length, sortingFudge := fudge, normalDirection := normal.0), normal.1))
  }

  /** Before 5.3 the sort mode comes here, after the normal direction, as an int32. */
  function ReadLateSortMode(s: Source, p: nat, v: Version, acc: ParticleSystemRenderer): (r: Option<(ParticleSystemRenderer, nat)>)
    ensures r.Some? <==> p + LateSortModeSize(v) <= |s.data| || IsSortModeFirst(v)
    ensures r.Some? ==> r.value.1 == p + LateSortModeSize(v)
    ensures r.Some? ==> r.value.0 == acc.(sortMode := r.value.0.sortMode)
    ensures r.Some? ==>
      r.value.0.sortMode == (if IsSortModeFirst(v) then acc.sortMode else Int32At(s, p) as int)
  {
    if IsSortModeFirst(v) then Some((acc, p))
    else
      var sort :- ReadInt32(s, p);
      Some((acc.(sortMode := sort.0 as int), sort.1))
  }

  /** Everything before the render alignment: modes, sizes and scales, late sort mode. */
  function ReadHead(s: Source, p: nat, v: Version, acc: ParticleSystemRenderer): (r: Option<(ParticleSystemRenderer, nat)>)
    ensures r.Some? <==> p + HeadSize(v) <= |s.data|
    ensures r.Some? ==> r.value.1 == p + HeadSize(v)
  {
    var modes :- ReadModes(s, p, v, acc);
    var scales :- ReadScales(s, modes.1, v, modes.0);
    ReadLateSortMode(s, scales.1, v, scales.0)
  }

  /** The alignment a version without the field implies: Local for mesh particles,
      View for every other render mode. */
  function DefaultRenderAlignment(renderMode: int): (a: int)
    ensures a == RenderSpaceLocal <==> renderMode == RenderModeMesh
    ensures a == RenderSpaceView <==> renderMode != RenderModeMesh
  {
    if renderMode == RenderModeMesh then RenderSpaceLocal else RenderSpaceView
  }

  /** Render alignment and pivot from 5.3 on; before, the alignment follows from the
      render mode already read and the pivot stays zero. */
  function ReadAlignment(s: Source, p: nat, v: Version, sz: SubSizes, acc: ParticleSystemRenderer): (r: Option<(ParticleSystemRenderer, nat)>)
    ensures r.Some? <==> p + AlignmentSize(v, sz) <= |s.data| || !IsReadRenderAlignment(v)
    ensures r.Some? ==> r.value.1 == p + AlignmentSize(v, sz)
    ensures r.Some? ==> r.value.0 == acc.(renderAlignment := r.value.0.renderAlignment, pivot := r.value.0.pivot)
    ensures r.Some? ==>
      r.value.0.renderAlignment ==
        (if IsReadRenderAlignment(v) then Int32At(s, p) as int else DefaultRenderAlignment(acc.renderMode))
    ensures r.Some? ==>
      r.value.0.pivot ==
        (if IsReadRenderAlignment(v) then Vector3f(s.data[p + 4..p + 4 + sz.vector3f]) else Vector3f(Zeros(sz.vector3f)))
  {
    if IsReadRenderAlignment(v) then
      var alignment :- ReadInt32(s, p);
      var pivot :- ReadBytes(s, alignment.1, sz.vector3f);
      Some((acc.(renderAlignment := alignment.0 as int, pivot := Vector3f(pivot.0)), pivot.1))
    else
      Some((acc.(renderAlignment := DefaultRenderAlignment(acc.renderMode), pivot := Vector3f(Zeros(sz.vector3f))), p))
  }

  /** The int32 count a stream array at p stores; -1, a count that fails, where its
      four bytes are missing. */
  function StoredCount(s: Source, p: nat): (n: int)
    ensures -0x8000_0000 <= n < 0x8000_0000
  {
    if p + 4 <= |s.data| then Int32At(s, p) as int else -1
  }

  /** The stream list after the padded boolean: an int32 bitmask in the 5.5 line, a
      length-prefixed byte array padded to 4 in later versions. */
  function ReadStreamList(s: Source, p: nat, v: Version): (r: Option<(seq<byte>, nat)>)
    ensures IsReadVertexStreamMask(v) ==> (r.Some? <==> p + 4 <= |s.data|)
    ensures IsReadVertexStreamMask(v) && r.Some? ==>
      r.value == (MaskStreams(Int32At(s, p)), p + 4)
    ensures !IsReadVertexStreamMask(v) ==>
      (r.Some? <==> 0 <= StoredCount(s, p) && p + 4 + StoredCount(s, p) <= |s.data|)
    ensures !IsReadVertexStreamMask(v) && r.Some? ==>
      && |r.value.0| == StoredCount(s, p)
      && |r.value.0| < 0x8000_0000
      && p + 4 + |r.value.0| <= |s.data|
      && r.value.0 == s.data[p + 4..p + 4 + |r.value.0|]
      && r.value.1 == RoundUp4(p + 4 + |r.value.0|)
  {
    if IsReadVertexStreamMask(v) then
      var mask :- ReadInt32(s, p);
      Some((MaskStreams(mask.0), mask.1))
    else
      var streams :- ReadByteArray(s, p);
      Some((streams.0, RoundUp4(streams.1)))
  }

  /** From 5.5 on a use-custom-vertex-streams stream part ends on a 4-byte boundary. */
  lemma StreamsEndAligned(v: Version, p: nat, n: nat)
    requires IsReadUseCustomVertexStreams(v)
    ensures StreamsEnd(v, p, n) % 4 == 0
  {
  }

  /** From 5.5 on: the use-custom-vertex-streams boolean, padding to 4, then the stream
      list. Before 5.5 nothing is read and the array stays null. */
  function ReadVertexStreams(s: Source, p: nat, v: Version, acc: ParticleSystemRenderer): (r: Option<(ParticleSystemRenderer, nat)>)
    ensures !IsReadUseCustomVertexStreams(v) ==> r.Some?
    ensures IsReadVertexStreamMask(v) ==> (r.Some? <==> StreamsEnd(v, p, 0) <= |s.data|)
    ensures IsReadUseCustomVertexStreams(v) && !IsReadVertexStreamMask(v) ==>
      var c := RoundUp4(p + 1);
      (r.Some? <==> 0 <= StoredCount(s, c) && c + 4 + StoredCount(s, c) <= |s.data|)
    ensures r.Some? ==> r.value.1 == StreamsEnd(v, p, StreamCount(r.value.0))
    ensures r.Some? ==> r.value.0 == acc.(
      useCustomVertexStreams := r.value.0.useCustomVertexStreams, vertexStreams := r.value.0.vertexStreams)
    ensures r.Some? && !IsReadUseCustomVertexStreams(v) ==>
      !r.value.0.useCustomVertexStreams && r.value.0.vertexStreams.None?
    ensures r.Some? && IsReadUseCustomVertexStreams(v) ==>
      && p < |s.data|
      && r.value.0.useCustomVertexStreams == (s.data[p] != 0)
      && r.value.0.vertexStreams.Some?
    ensures r.Some? && IsReadUseCustomVertexStreams(v) ==>
      ReadStreamList(s, RoundUp4(p + 1), v) == Some((r.value.0.vertexStreams.value, r.value.1))
  {
    if IsReadUseCustomVertexStreams(v) then
      var flag :- ReadBoolean(s, p);
      var streams :- ReadStreamList(s, RoundUp4(flag.1), v);
      Some((acc.(useCustomVertexStreams := flag.0, vertexStreams := Some(streams.0)), streams.1))
    else
      Some((acc.(useCustomVertexStreams := false, vertexStreams := None), p))
  }

  function ReadPPtr(s: Source, p: nat, sz: SubSizes): (r: Option<(PPtr, nat)>)
    ensures r.Some? <==> p + sz.pptr <= |s.data|
    ensures r.Some? ==> r.value == (PPtr(s.data[p..p + sz.pptr]), p + sz.pptr)
  {
    var raw :- ReadBytes(s, p, sz.pptr);
    Some((PPtr(raw.0), raw.1))
  }

  /** The three further mesh references written from 4.0 on; null references before. */
  function ReadExtraMeshes(s: Source, p: nat, v: Version, sz: SubSizes): (r: Option<((PPtr, PPtr, PPtr), nat)>)
    ensures r.Some? <==> !IsReadMeshes(v) || p + 3 * sz.pptr <= |s.data|
    ensures r.Some? ==> r.value.1 == p + Width(IsReadMeshes(v), 3 * sz.pptr)
    ensures r.Some? && !IsReadMeshes(v) ==> r.value.0 == (NullPPtr(sz), NullPPtr(sz), NullPPtr(sz))
    ensures r.Some? && IsReadMeshes(v) ==>
      var n := sz.pptr;
      r.value.0 == (PPtr(s.data[p..p + n]), PPtr(s.data[p + n..p + 2 * n]), PPtr(s.data[p + 2 * n..p + 3 * n]))
  {
    if IsReadMeshes(v) then
      var mesh1 :- ReadPPtr(s, p, sz);
      var mesh2 :- ReadPPtr(s, mesh1.1, sz);
      var mesh3 :- ReadPPtr(s, mesh2.1, sz);
      Some(((mesh1.0, mesh2.0, mesh3.0), mesh3.1))
    else
      Some(((NullPPtr(sz), NullPPtr(sz), NullPPtr(sz)), p))
  }

  /** The mesh reference, three more from 4.0 on, and the mask interaction from
      2017.1.0b2 on. */
  function ReadMeshes(s: Source, p: nat, v: Version, sz: SubSizes, acc: ParticleSystemRenderer): (r: Option<(ParticleSystemRenderer, nat)>)
    ensures r.Some? <==> p + MeshesSize(v, sz) <= |s.data|
    ensures r.Some? ==> r.value.1 == p + MeshesSize(v, sz)
    ensures r.Some? ==> r.value.0 == acc.(
      mesh := r.value.0.mesh, mesh1 := r.value.0.mesh1, mesh2 := r.value.0.mesh2, mesh3 := r.value.0.mesh3,
      maskInteraction := r.value.0.maskInteraction)
    ensures r.Some? ==> r.value.0.mesh == PPtr(s.data[p..p + sz.pptr])
    ensures r.Some? ==>
      ReadExtraMeshes(s, p + sz.pptr, v, sz) ==
        Some(((r.value.0.mesh1, r.value.0.mesh2, r.value.0.mesh3), p + MeshRefsSize(v, sz)))
    ensures r.Some? ==>
      r.value.0.maskInteraction ==
        (if IsReadMaskInteraction(v) then Int32At(s, p + MeshRefsSize(v, sz)) as int else 0)
  {
    var mesh :- ReadPPtr(s, p, sz);
    var more :- ReadExtraMeshes(s, mesh.1, v, sz);
    var mask :- if IsReadMaskInteraction(v) then ReadInt32(s, more.1) else Some((0, more.1));
    Some((acc.(mesh := mesh.0, mesh1 := more.0.0, mesh2 := more.0.1, mesh3 := more.0.2,
               maskInteraction := mask.0 as int), mask.1))
  }

  /** The last two stages of the decoder: the stream part, then the meshes. */
  function ReadStreamsAndMeshes(s: Source, p: nat, v: Version, sz: SubSizes, acc: ParticleSystemRenderer): (r: Option<(ParticleSystemRenderer, nat)>)
    ensures r.Some? ==> r.value.1 == StreamsAndMeshesEnd(v, sz, p, StreamCount(r.value.0))
    ensures r.Some? ==> r.value.1 <= |s.data|
    ensures !IsReadUseCustomVertexStreams(v) || IsReadVertexStreamMask(v) ==>
      (r.Some? <==> StreamsAndMeshesEnd(v, sz, p, 0) <= |s.data|)
    ensures IsReadUseCustomVertexStreams(v) && !IsReadVertexStreamMask(v) ==>
      var n := StoredCount(s, RoundUp4(p + 1));
      (r.Some? <==> 0 <= n && StreamsAndMeshesEnd(v, sz, p, n as nat) <= |s.data|)
  {
    var streams :- ReadVertexStreams(s, p, v, acc);
    var meshes :- ReadMeshes(s, streams.1, v, sz, streams.0);
    assert meshes.0.vertexStreams == streams.0.vertexStreams;
    Some(meshes)
  }

  /** Everything the decoder reads after the head: alignment, stream part, meshes. */
  function ReadAfterHead(s: Source, p: nat, v: Version, sz: SubSizes, acc: ParticleSystemRenderer): (r: Option<(ParticleSystemRenderer, nat)>)
  {
    var alignment :- ReadAlignment(s, p, v, sz, acc);
    ReadStreamsAndMeshes(s, alignment.1, v, sz, alignment.0)
  }

  /** Where ReadAfterHead stops, in terms of the number of custom streams it read. */
  lemma ReadAfterHeadEnds(s: Source, p: nat, v: Version, sz: SubSizes, acc: ParticleSystemRenderer)
    ensures var r := ReadAfterHead(s, p, v, sz, acc); r.Some? ==> r.value.1 == AfterHeadEnd(v, sz, p, StreamCount(r.value.0))
  {
    hide ReadAlignment, ReadStreamsAndMeshes;
    var a := ReadAlignment(s, p, v, sz, acc);
    if a.Some? {
      var q := a.value.1;
      assert q == p + AlignmentSize(v, sz);
      var rest := ReadStreamsAndMeshes(s, q, v, sz, a.value.0);
      assert ReadAfterHead(s, p, v, sz, acc) == rest;
      if rest.Some? {
        var n := StreamCount(rest.value.0);
        assert AfterHeadEnd(v, sz, p, n) == StreamsAndMeshesEnd(v, sz, q, n);
      }
    }
  }

  /** ReadAfterHead fails exactly when the source is too short for the rest of the
      record. With a fixed-width stream part that is its width for no streams; from
      5.6 on it is the width for the stored count, and a negative count fails. */
  lemma ReadAfterHeadSucceedsIff(s: Source, p: nat, v: Version, sz: SubSizes, acc: ParticleSystemRenderer)
    ensures !IsReadUseCustomVertexStreams(v) || IsReadVertexStreamMask(v) ==>
      (ReadAfterHead(s, p, v, sz, acc).Some? <==> AfterHeadEnd(v, sz, p, 0) <= |s.data|)
    ensures IsReadUseCustomVertexStreams(v) && !IsReadVertexStreamMask(v) ==>
      var n := StoredCount(s, RoundUp4(p + AlignmentSize(v, sz) + 1));
      (ReadAfterHead(s, p, v, sz, acc).Some? <==> 0 <= n && AfterHeadEnd(v, sz, p, n as nat) <= |s.data|)
  {
    hide ReadAlignment, ReadStreamsAndMeshes;
    var a := ReadAlignment(s, p, v, sz, acc);
    var q := p + AlignmentSize(v, sz);
    var n := StoredCount(s, RoundUp4(q + 1));
    if a.Some? {
      assert a.value.1 == q;
      var rest := ReadStreamsAndMeshes(s, q, v, sz, a.value.0);
      assert ReadAfterHead(s, p, v, sz, acc) == rest;
      assert AfterHeadEnd(v, sz, p, 0) == StreamsAndMeshesEnd(v, sz, q, 0);
      if 0 <= n {
        assert AfterHeadEnd(v, sz, p, n as nat) == StreamsAndMeshesEnd(v, sz, q, n as nat);
      }
    } else {
      assert ReadAfterHead(s, p, v, sz, acc).None?;
      assert AfterHeadEnd(v, sz, p, 0) > |s.data|;
    }
  }

  /** Decodes the renderer's own part, starting at p, for a file of version v. */
  function Read(s: Source, p: nat, v: Version, sz: SubSizes): (r: Option<(ParticleSystemRenderer, nat)>)
  {
    var head :- ReadHead(s, p, v, Blank(sz));
    ReadAfterHead(s, head.1, v, sz, head.0)
  }

  /** Where Read stops: the end position of the whole renderer record. */
  lemma ReadEnds(s: Source, p: nat, v: Version, sz: SubSizes)
    ensures var r := Read(s, p, v, sz); r.Some? ==> r.value.1 == EndPos(v, sz, p, StreamCount(r.value.0))
  {
    hide ReadHead, ReadAfterHead, AfterHeadEnd, StreamsAndMeshesEnd, StreamsEnd, StoredCount, HeadSize,
      AlignmentSize, RoundUp4, IsReadUseCustomVertexStreams, IsReadVertexStreamMask;
    var head := ReadHead(s, p, v, Blank(sz));
    if head.Some? {
      var q := head.value.1;
      assert q == p + HeadSize(v);
      ReadAfterHeadEnds(s, q, v, sz, head.value.0);
      var rest := ReadAfterHead(s, q, v, sz, head.value.0);
      assert Read(s, p, v, sz) == rest;
      if rest.Some? {
        var n := StreamCount(rest.value.0);
        assert EndPos(v, sz, p, n) == AfterHeadEnd(v, sz, q, n);
      }
    }
  }

  /** Read fails exactly when the source is too short for the record. With a
      fixed-width stream part (no custom stream list, or the bit mask form) that is
      the record's width for no streams; from 5.6 on it is its width for the stored
      stream count, and a negative count fails. */
  lemma ReadSucceedsIff(s: Source, p: nat, v: Version, sz: SubSizes)
    ensures !IsReadUseCustomVertexStreams(v) || IsReadVertexStreamMask(v) ==>
      (Read(s, p, v, sz).Some? <==> EndPos(v, sz, p, 0) <= |s.data|)
    ensures IsReadUseCustomVertexStreams(v) && !IsReadVertexStreamMask(v) ==>
      var n := StoredCount(s, RoundUp4(p + HeadSize(v) + AlignmentSize(v, sz) + 1));
      (Read(s, p, v, sz).Some? <==> 0 <= n && EndPos(v, sz, p, n as nat) <= |s.data|)
  {
    hide ReadHead, ReadAfterHead, AfterHeadEnd, StreamsAndMeshesEnd, StreamsEnd, StoredCount, HeadSize,
      AlignmentSize, RoundUp4, IsReadUseCustomVertexStreams, IsReadVertexStreamMask;
    var head := ReadHead(s, p, v, Blank(sz));
    var q := p + HeadSize(v);
    var n := StoredCount(s, RoundUp4(q + AlignmentSize(v, sz) + 1));
    if head.Some? {
      assert head.value.1 == q;
      ReadAfterHeadSucceedsIff(s, q, v, sz, head.value.0);
      assert Read(s, p, v, sz) == ReadAfterHead(s, q, v, sz, head.value.0);
      assert EndPos(v, sz, p, 0) == AfterHeadEnd(v, sz, q, 0);
      if 0 <= n {
        assert EndPos(v, sz, p, n as nat) == AfterHeadEnd(v, sz, q, n as nat);
      }
    } else {
      assert Read(s, p, v, sz).None?;
      assert EndPos(v, sz, p, 0) > |s.data|;
    }
  }

  // Dependencies and export.

  /** The references this renderer holds itself, one hop, in field order. Resolving
      them against the loaded files is not part of this model. */
  function FetchDependencies(r: ParticleSystemRenderer, v: Version): (deps: seq<PPtr>)
    ensures |deps| == MeshCount(v)
    ensures deps[0] == r.mesh
    ensures IsReadMeshes(v) ==> deps[1..] == [r.mesh1, r.mesh2, r.mesh3]
  {
    [r.mesh] + (if IsReadMeshes(v) then [r.mesh1, r.mesh2, r.mesh3] else [])
  }

  /** The exported normal direction: 1.0 for versions that did not store it. */
  function GetNormalDirection(r: ParticleSystemRenderer, v: Version): (d: Single)
    ensures !IsReadNormalDirection(v) ==> d == OneSingle
    ensures IsReadNormalDirection(v) ==> d == r.normalDirection
  {
    if IsReadNormalDirection(v) then r.normalDirection else OneSingle
  }

  const DefaultVertexStreams: seq<byte> := [0, 1, 3, 4, 5]

  /** The exported stream list: [0, 1, 3, 4, 5] for versions that did not store one;
      None where the source would hand on its null array. */
  function GetVertexStreams(r: ParticleSystemRenderer, v: Version): (streams: Option<seq<byte>>)
    ensures !IsReadUseCustomVertexStreams(v) ==> streams == Some([0, 1, 3, 4, 5])
    ensures IsReadUseCustomVertexStreams(v) ==> streams == r.vertexStreams
  {
    if IsReadUseCustomVertexStreams(v) then r.vertexStreams else Some(DefaultVertexStreams)
  }

  /** The export keys after the schema revision, the same 18 in the same order for
      every version. */
  const RendererKeys: seq<string> := [
    "m_RenderMode", "m_SortMode", "m_MinParticleSize", "m_MaxParticleSize",
    "m_CameraVelocityScale", "m_VelocityScale", "m_LengthScale", "m_SortingFudge",
    "m_NormalDirection", "m_RenderAlignment", "m_Pivot", "m_UseCustomVertexStreams",
    "m_VertexStreams", "m_Mesh", "m_Mesh1", "m_Mesh2", "m_Mesh3", "m_MaskInteraction"]

  /** The value of export entry i, in the order of the keys. */
  function ExportValue(r: ParticleSystemRenderer, v: Version, exportTopmost: bool, streams: seq<byte>, i: nat): Value
    requires i < 19
  {
    match i
    case 0 => Int(GetSerializedVersion(exportTopmost, v))
    case 1 => Int(ToInt16(r.renderMode))
    case 2 => Int(ToInt16(r.sortMode))
    case 3 => Float(r.minParticleSize)
    case 4 => Float(r.maxParticleSize)
    case 5 => Float(r.cameraVelocityScale)
    case 6 => Float(r.velocityScale)
    case 7 => Float(r.lengthScale)
    case 8 => Float(r.sortingFudge)
    case 9 => Float(GetNormalDirection(r, v))
    case 10 => Int(r.renderAlignment)
    case 11 => Nested(r.pivot.raw)
    case 12 => Flag(r.useCustomVertexStreams)
    case 13 => ByteList(streams)
    case 14 => Nested(r.mesh.raw)
    case 15 => Nested(r.mesh1.raw)
    case 16 => Nested(r.mesh2.raw)
    case 17 => Nested(r.mesh3.raw)
    case _ => Int(r.maskInteraction)
  }

  /** The export node: the schema revision first, then the renderer keys. None where
      the stream list would be the null array. */
  function ExportYAMLRoot(r: ParticleSystemRenderer, v: Version, exportTopmost: bool): (m: Option<seq<Entry>>)
    ensures m.Some? <==> GetVertexStreams(r, v).Some?
    ensures m.Some? ==> Keys(m.value) == ["serializedVersion"] + RendererKeys
  {
    var streams :- GetVertexStreams(r, v);
    Some(Node(["serializedVersion"] + RendererKeys,
      seq(19, i requires 0 <= i < 19 => ExportValue(r, v, exportTopmost, streams, i))))
  }
}
