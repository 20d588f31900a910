/** The byte layout of the renderer's own part, seen from the other side: which
    renderers a version can produce, a reference encoder for them, and the lemmas that
    tie the decoder to it (decoding what the encoder wrote gives the renderer back,
    and everything the decoder produces is something the encoder accepts). */
module ParticleSystemRendererLayout {
  import opened Options
  import opened Bytes
  import opened Versions
  import opened Cursors
  import opened VertexStreamMask
  import opened ParticleSystemRenderers

  // Well-formedness: what a decoded renderer looks like for a given version.

  /** An enum value the field's width can hold: uint16 when short, else int32. */
  predicate EnumFits(x: int, short: bool) {
    if short then 0 <= x < 0x1_0000 else -0x8000_0000 <= x < 0x8000_0000
  }

  predicate HeadWellFormed(r: ParticleSystemRenderer, v: Version) {
    && EnumFits(r.renderMode, IsModeShort(v))
    && EnumFits(r.sortMode, IsSortModeFirst(v))
    && (!IsReadMinParticleSize(v) ==> r.minParticleSize == ZeroSingle)
    && (!IsReadNormalDirection(v) ==> r.normalDirection == ZeroSingle)
  }

  predicate AlignmentWellFormed(r: ParticleSystemRenderer, v: Version, sz: SubSizes) {
    if IsReadRenderAlignment(v) then
      EnumFits(r.renderAlignment, false) && |r.pivot.raw| == sz.vector3f
    else
      r.renderAlignment == DefaultRenderAlignment(r.renderMode) && r.pivot == Vector3f(Zeros(sz.vector3f))
  }

  /** A stream list the mask can express: increasing indices below 8. */
  predicate MaskExpressible(s: seq<byte>) {
    StrictlyIncreasing(s) && forall k :: 0 <= k < |s| ==> s[k] < 8
  }

  predicate StreamsWellFormed(r: ParticleSystemRenderer, v: Version) {
    if !IsReadUseCustomVertexStreams(v) then
      !r.useCustomVertexStreams && r.vertexStreams.None?
    else
      && r.vertexStreams.Some?
      && (if IsReadVertexStreamMask(v) then MaskExpressible(r.vertexStreams.value)
          else |r.vertexStreams.value| < 0x8000_0000)
  }

  predicate MeshesWellFormed(r: ParticleSystemRenderer, v: Version, sz: SubSizes) {
    && |r.mesh.raw| == sz.pptr
    && (if IsReadMeshes(v) then
          |r.mesh1.raw| == sz.pptr && |r.mesh2.raw| == sz.pptr && |r.mesh3.raw| == sz.pptr
        else
          r.mesh1 == NullPPtr(sz) && r.mesh2 == NullPPtr(sz) && r.mesh3 == NullPPtr(sz))
    && (if IsReadMaskInteraction(v) then EnumFits(r.maskInteraction, false) else r.maskInteraction == 0)
  }

  predicate WellFormed(r: ParticleSystemRenderer, v: Version, sz: SubSizes) {
    && HeadWellFormed(r, v)
    && AlignmentWellFormed(r, v, sz)
    && StreamsWellFormed(r, v)
    && MeshesWellFormed(r, v, sz)
  }

  // The reference encoder, stage by stage.

  function EncodeEnum(x: int, short: bool, e: Endian): (bs: seq<byte>)
    requires EnumFits(x, short)
    ensures |bs| == (if short then 2 else 4)
  {
    if short then EncodeUInt16(x, e) else EncodeInt32(x, e)
  }

  function WriteModes(r: ParticleSystemRenderer, v: Version, e: Endian): (bs: seq<byte>)
    requires HeadWellFormed(r, v)
    ensures |bs| == ModesSize(v)
  {
    EncodeEnum(r.renderMode, IsModeShort(v), e)
      + (if IsSortModeFirst(v) then EncodeUInt16(r.sortMode, e) else [])
  }

  function WriteFiveSingles(r: ParticleSystemRenderer, e: Endian): (bs: seq<byte>)
    ensures |bs| == 20
  {
    EncodeSingle(r.maxParticleSize, e)
      + (EncodeSingle(r.cameraVelocityScale, e)
      + (EncodeSingle(r.velocityScale, e)
      + (EncodeSingle(r.lengthScale, e)
      + EncodeSingle(r.sortingFudge, e))))
  }

  function WriteScales(r: ParticleSystemRenderer, v: Version, e: Endian): (bs: seq<byte>)
    ensures |bs| == ScalesSize(v)
  {
    (if IsReadMinParticleSize(v) then EncodeSingle(r.minParticleSize, e) else [])
      + (WriteFiveSingles(r, e)
      + (if IsReadNormalDirection(v) then EncodeSingle(r.normalDirection, e) else []))
  }

  function WriteLateSortMode(r: ParticleSystemRenderer, v: Version, e: Endian): (bs: seq<byte>)
    requires HeadWellFormed(r, v)
    ensures |bs| == LateSortModeSize(v)
  {
    if IsSortModeFirst(v) then [] else EncodeInt32(r.sortMode, e)
  }

  function WriteHead(r: ParticleSystemRenderer, v: Version, e: Endian): (bs: seq<byte>)
    requires HeadWellFormed(r, v)
    ensures |bs| == HeadSize(v)
  {
    WriteModes(r, v, e) + (WriteScales(r, v, e) + WriteLateSortMode(r, v, e))
  }

  function WriteAlignment(r: ParticleSystemRenderer, v: Version, sz: SubSizes, e: Endian): (bs: seq<byte>)
    requires AlignmentWellFormed(r, v, sz)
    ensures |bs| == AlignmentSize(v, sz)
  {
    if IsReadRenderAlignment(v) then EncodeInt32(r.renderAlignment, e) + r.pivot.raw else []
  }

  /** The stream list after the padded boolean that starts at p + 1. */
  function WriteStreamList(s: seq<byte>, v: Version, q: nat, e: Endian): (bs: seq<byte>)
    requires IsReadVertexStreamMask(v) ==> MaskExpressible(s)
    requires !IsReadVertexStreamMask(v) ==> |s| < 0x8000_0000
    ensures q + |bs| == StreamListEnd(v, q, |s|)
  {
    if IsReadVertexStreamMask(v) then EncodeInt32(MaskOf(s), e)
    else EncodeByteArray(s, e) + Padding(q + 4 + |s|)
  }

  /** The stream part for a writer at absolute position p (the padding depends on it). */
  function WriteVertexStreams(r: ParticleSystemRenderer, v: Version, p: nat, e: Endian): (bs: seq<byte>)
    requires StreamsWellFormed(r, v)
    ensures p + |bs| == StreamsEnd(v, p, StreamCount(r))
  {
    if IsReadUseCustomVertexStreams(v) then
      EncodeBoolean(r.useCustomVertexStreams)
        + (Padding(p + 1) + WriteStreamList(r.vertexStreams.value, v, RoundUp4(p + 1), e))
    else []
  }

  function WriteMeshes(r: ParticleSystemRenderer, v: Version, sz: SubSizes, e: Endian): (bs: seq<byte>)
    requires MeshesWellFormed(r, v, sz)
    ensures |bs| == MeshesSize(v, sz)
  {
    r.mesh.raw
      + ((if IsReadMeshes(v) then r.mesh1.raw + (r.mesh2.raw + r.mesh3.raw) else [])
      + (if IsReadMaskInteraction(v) then EncodeInt32(r.maskInteraction, e) else []))
  }

  /** The stream part written at absolute position q, then the meshes. */
  function WriteStreamsAndMeshes(r: ParticleSystemRenderer, v: Version, sz: SubSizes, q: nat, e: Endian): (bs: seq<byte>)
    requires StreamsWellFormed(r, v) && MeshesWellFormed(r, v, sz)
    ensures q + |bs| == StreamsAndMeshesEnd(v, sz, q, StreamCount(r))
  {
    WriteVertexStreams(r, v, q, e) + WriteMeshes(r, v, sz, e)
  }

  /** Everything after the head, for a head that ends at absolute position p. */
  function WriteAfterHead(r: ParticleSystemRenderer, v: Version, sz: SubSizes, p: nat, e: Endian): (bs: seq<byte>)
    requires AlignmentWellFormed(r, v, sz) && StreamsWellFormed(r, v) && MeshesWellFormed(r, v, sz)
    ensures p + |bs| == AfterHeadEnd(v, sz, p, StreamCount(r))
  {
    WriteAlignment(r, v, sz, e) + WriteStreamsAndMeshes(r, v, sz, p + AlignmentSize(v, sz), e)
  }

  /** The bytes of a renderer's own part written at absolute position p. */
  function Write(r: ParticleSystemRenderer, v: Version, sz: SubSizes, p: nat, e: Endian): (bs: seq<byte>)
    requires WellFormed(r, v, sz)
    ensures p + |bs| == EndPos(v, sz, p, StreamCount(r))
  {
    WriteHead(r, v, e) + WriteAfterHead(r, v, sz, p + HeadSize(v), e)
  }

  // What each decoding stage puts into the renderer it is filling in, when the bytes
  // came from r: r's fields where the version stores them, acc's elsewhere.

  function WithModes(acc: ParticleSystemRenderer, r: ParticleSystemRenderer, v: Version): ParticleSystemRenderer {
    acc.(renderMode := r.renderMode, sortMode := if IsSortModeFirst(v) then r.sortMode else acc.sortMode)
  }

  function WithScales(acc: ParticleSystemRenderer, r: ParticleSystemRenderer, v: Version): ParticleSystemRenderer {
    acc.(
      minParticleSize := if IsReadMinParticleSize(v) then r.minParticleSize else acc.minParticleSize,
      maxParticleSize := r.maxParticleSize, cameraVelocityScale := r.cameraVelocityScale,
      velocityScale := r.velocityScale, lengthScale := r.lengthScale, sortingFudge := r.sortingFudge,
      normalDirection := if IsReadNormalDirection(v) then r.normalDirection else acc.normalDirection)
  }

  function WithLateSortMode(acc: ParticleSystemRenderer, r: ParticleSystemRenderer, v: Version): ParticleSystemRenderer {
    acc.(sortMode := if IsSortModeFirst(v) then acc.sortMode else r.sortMode)
  }

  function WithHead(acc: ParticleSystemRenderer, r: ParticleSystemRenderer, v: Version): ParticleSystemRenderer {
    WithLateSortMode(WithScales(WithModes(acc, r, v), r, v), r, v)
  }

  function WithAlignment(acc: ParticleSystemRenderer, r: ParticleSystemRenderer): ParticleSystemRenderer {
    acc.(renderAlignment := r.renderAlignment, pivot := r.pivot)
  }

  function WithStreams(acc: ParticleSystemRenderer, r: ParticleSystemRenderer): ParticleSystemRenderer {
    acc.(useCustomVertexStreams := r.useCustomVertexStreams, vertexStreams := r.vertexStreams)
  }

  function WithMeshes(acc: ParticleSystemRenderer, r: ParticleSystemRenderer): ParticleSystemRenderer {
    acc.(mesh := r.mesh, mesh1 := r.mesh1, mesh2 := r.mesh2, mesh3 := r.mesh3, maskInteraction := r.maskInteraction)
  }

  // Decoding what the encoder wrote, stage by stage. Each stage has a split lemma (the
  // stage's bytes start with each field's encoding at that field's offset), a lemma
  // reading each field back, and a lemma assembling the stage from its fields.

  lemma ReadEnumOfEncoded(s: Source, p: nat, x: int, short: bool)
    requires EnumFits(x, short)
    requires At(s, p, EncodeEnum(x, short, s.endian))
    ensures ReadEnum(s, p, short) == Some((x, p + (if short then 2 else 4)))
  {
    if short {
      ReadUInt16OfEncoded(s, p, x);
    } else {
      ReadInt32OfEncoded(s, p, x);
    }
  }

  lemma ModesOfWrite(s: Source, p: nat, v: Version, r: ParticleSystemRenderer, acc: ParticleSystemRenderer)
    requires HeadWellFormed(r, v)
    requires At(s, p, WriteModes(r, v, s.endian))
    ensures ReadModes(s, p, v, acc) == Some((WithModes(acc, r, v), p + ModesSize(v)))
  {
    var mode := EncodeEnum(r.renderMode, IsModeShort(v), s.endian);
    var sort := if IsSortModeFirst(v) then EncodeUInt16(r.sortMode, s.endian) else [];
    AtSplit(s, p, mode, sort, p + |mode|);
    ReadEnumOfEncoded(s, p, r.renderMode, IsModeShort(v));
    if IsSortModeFirst(v) {
      ReadEnumOfEncoded(s, p + |mode|, r.sortMode, true);
    }
  }

  lemma FiveSinglesSplit(s: Source, p: nat, r: ParticleSystemRenderer)
    requires At(s, p, WriteFiveSingles(r, s.endian))
    ensures At(s, p, EncodeSingle(r.maxParticleSize, s.endian))
    ensures At(s, p + 4, EncodeSingle(r.cameraVelocityScale, s.endian))
    ensures At(s, p + 8, EncodeSingle(r.velocityScale, s.endian))
    ensures At(s, p + 12, EncodeSingle(r.lengthScale, s.endian))
    ensures At(s, p + 16, EncodeSingle(r.sortingFudge, s.endian))
  {
    hide EncodeSingle;
    var e := s.endian;
    var tail := WriteFiveSingles(r, e)[4..];
    AtSplit(s, p, EncodeSingle(r.maxParticleSize, e), tail, p + 4);
    AtSplit(s, p + 4, EncodeSingle(r.cameraVelocityScale, e), tail[4..], p + 8);
    AtSplit(s, p + 8, EncodeSingle(r.velocityScale, e), tail[8..], p + 12);
    AtSplit(s, p + 12, EncodeSingle(r.lengthScale, e), EncodeSingle(r.sortingFudge, e), p + 16);
  }

  lemma ScalesSplit(s: Source, p: nat, v: Version, r: ParticleSystemRenderer)
    requires At(s, p, WriteScales(r, v, s.endian))
    ensures IsReadMinParticleSize(v) ==> At(s, p, EncodeSingle(r.minParticleSize, s.endian))
    ensures At(s, p + Width(IsReadMinParticleSize(v), 4), WriteFiveSingles(r, s.endian))
    ensures IsReadNormalDirection(v) ==>
      At(s, p + Width(IsReadMinParticleSize(v), 4) + 20, EncodeSingle(r.normalDirection, s.endian))
  {
    var e := s.endian;
    var f := p + Width(IsReadMinParticleSize(v), 4);
    var min := if IsReadMinParticleSize(v) then EncodeSingle(r.minParticleSize, e) else [];
    var normal := if IsReadNormalDirection(v) then EncodeSingle(r.normalDirection, e) else [];
    AtSplit(s, p, min, WriteFiveSingles(r, e) + normal, f);
    AtSplit(s, f, WriteFiveSingles(r, e), normal, f + 20);
  }

  lemma ScalesOfWrite(s: Source, p: nat, v: Version, r: ParticleSystemRenderer, acc: ParticleSystemRenderer)
    requires At(s, p, WriteScales(r, v, s.endian))
    ensures ReadScales(s, p, v, acc) == Some((WithScales(acc, r, v), p + ScalesSize(v)))
  {
    var f := p + Width(IsReadMinParticleSize(v), 4);
    ScalesSplit(s, p, v, r);
    if IsReadMinParticleSize(v) {
      SingleAtOfEncoded(s, p, r.minParticleSize);
    }
    FiveSinglesSplit(s, f, r);
    SingleAtOfEncoded(s, f, r.maxParticleSize);
    SingleAtOfEncoded(s, f + 4, r.cameraVelocityScale);
    SingleAtOfEncoded(s, f + 8, r.velocityScale);
    SingleAtOfEncoded(s, f + 12, r.lengthScale);
    SingleAtOfEncoded(s, f + 16, r.sortingFudge);
    if IsReadNormalDirection(v) {
      SingleAtOfEncoded(s, f + 20, r.normalDirection);
    }
  }

  lemma LateSortModeOfWrite(s: Source, p: nat, v: Version, r: ParticleSystemRenderer, acc: ParticleSystemRenderer)
    requires HeadWellFormed(r, v)
    requires At(s, p, WriteLateSortMode(r, v, s.endian))
    ensures ReadLateSortMode(s, p, v, acc) == Some((WithLateSortMode(acc, r, v), p + LateSortModeSize(v)))
  {
    if !IsSortModeFirst(v) {
      Int32AtOfEncoded(s, p, r.sortMode);
    }
  }

  lemma HeadSplit(s: Source, p: nat, v: Version, r: ParticleSystemRenderer)
    requires HeadWellFormed(r, v)
    requires At(s, p, WriteHead(r, v, s.endian))
    ensures At(s, p, WriteModes(r, v, s.endian))
    ensures At(s, p + ModesSize(v), WriteScales(r, v, s.endian))
    ensures At(s, p + ModesSize(v) + ScalesSize(v), WriteLateSortMode(r, v, s.endian))
  {
    var e := s.endian;
    AtSplit(s, p, WriteModes(r, v, e), WriteScales(r, v, e) + WriteLateSortMode(r, v, e), p + ModesSize(v));
    AtSplit(s, p + ModesSize(v), WriteScales(r, v, e), WriteLateSortMode(r, v, e), p + ModesSize(v) + ScalesSize(v));
  }

  lemma HeadOfWrite(s: Source, p: nat, v: Version, r: ParticleSystemRenderer, acc: ParticleSystemRenderer)
    requires HeadWellFormed(r, v)
    requires At(s, p, WriteHead(r, v, s.endian))
    ensures ReadHead(s, p, v, acc) == Some((WithHead(acc, r, v), p + HeadSize(v)))
  {
    hide ReadModes, ReadScales, ReadLateSortMode, WriteHead, WriteModes, WriteScales, WriteLateSortMode, At;
    var a1 := WithModes(acc, r, v);
    var a2 := WithScales(a1, r, v);
    HeadSplit(s, p, v, r);
    ModesOfWrite(s, p, v, r, acc);
    ScalesOfWrite(s, p + ModesSize(v), v, r, a1);
    LateSortModeOfWrite(s, p + ModesSize(v) + ScalesSize(v), v, r, a2);
  }

  lemma AlignmentOfWrite(s: Source, p: nat, v: Version, sz: SubSizes, r: ParticleSystemRenderer, acc: ParticleSystemRenderer)
    requires AlignmentWellFormed(r, v, sz)
    requires acc.renderMode == r.renderMode
    requires At(s, p, WriteAlignment(r, v, sz, s.endian))
    ensures ReadAlignment(s, p, v, sz, acc) == Some((WithAlignment(acc, r), p + AlignmentSize(v, sz)))
  {
    if IsReadRenderAlignment(v) {
      AtSplit(s, p, EncodeInt32(r.renderAlignment, s.endian), r.pivot.raw, p + 4);
      Int32AtOfEncoded(s, p, r.renderAlignment);
    }
  }

  lemma StreamListOfWrite(s: Source, p: nat, v: Version, list: seq<byte>)
    requires IsReadVertexStreamMask(v) ==> MaskExpressible(list)
    requires !IsReadVertexStreamMask(v) ==> |list| < 0x8000_0000
    requires At(s, p, WriteStreamList(list, v, p, s.endian))
    ensures ReadStreamList(s, p, v) == Some((list, StreamListEnd(v, p, |list|)))
  {
    if IsReadVertexStreamMask(v) {
      Int32AtOfEncoded(s, p, MaskOf(list));
      MaskStreamsOfMask(list);
    } else {
      AtSplit(s, p, EncodeByteArray(list, s.endian), Padding(p + 4 + |list|), p + 4 + |list|);
      ReadByteArrayOfEncoded(s, p, list);
    }
  }

  lemma VertexStreamsSplit(s: Source, p: nat, v: Version, r: ParticleSystemRenderer)
    requires StreamsWellFormed(r, v)
    requires IsReadUseCustomVertexStreams(v)
    requires At(s, p, WriteVertexStreams(r, v, p, s.endian))
    ensures At(s, p, EncodeBoolean(r.useCustomVertexStreams))
    ensures
      var q := RoundUp4(p + 1);
      At(s, q, WriteStreamList(r.vertexStreams.value, v, q, s.endian))
  {
    var q := RoundUp4(p + 1);
    var list := WriteStreamList(r.vertexStreams.value, v, q, s.endian);
    AtSplit(s, p, EncodeBoolean(r.useCustomVertexStreams), Padding(p + 1) + list, p + 1);
    AtSplit(s, p + 1, Padding(p + 1), list, q);
  }

  lemma VertexStreamsOfWrite(s: Source, p: nat, v: Version, r: ParticleSystemRenderer, acc: ParticleSystemRenderer)
    requires StreamsWellFormed(r, v)
    requires At(s, p, WriteVertexStreams(r, v, p, s.endian))
    ensures ReadVertexStreams(s, p, v, acc) == Some((WithStreams(acc, r), StreamsEnd(v, p, StreamCount(r))))
  {
    if IsReadUseCustomVertexStreams(v) {
      VertexStreamsSplit(s, p, v, r);
      ReadBooleanOfEncoded(s, p, r.useCustomVertexStreams);
      StreamListOfWrite(s, RoundUp4(p + 1), v, r.vertexStreams.value);
    }
  }

  lemma PPtrOfWrite(s: Source, p: nat, sz: SubSizes, x: PPtr)
    requires |x.raw| == sz.pptr
    requires At(s, p, x.raw)
    ensures ReadPPtr(s, p, sz) == Some((x, p + sz.pptr))
  {
  }

  /** The three further references of a meshes part that starts at p. */
  lemma ExtraMeshesOfWrite(s: Source, p: nat, v: Version, sz: SubSizes, r: ParticleSystemRenderer)
    requires MeshesWellFormed(r, v, sz)
    requires IsReadMeshes(v) ==> At(s, p + sz.pptr, r.mesh1.raw + (r.mesh2.raw + r.mesh3.raw))
    ensures ReadExtraMeshes(s, p + sz.pptr, v, sz) == Some(((r.mesh1, r.mesh2, r.mesh3), p + MeshRefsSize(v, sz)))
  {
    hide ReadPPtr, At;
    if IsReadMeshes(v) {
      var n := sz.pptr;
      AtSplit(s, p + n, r.mesh1.raw, r.mesh2.raw + r.mesh3.raw, p + n + n);
      AtSplit(s, p + n + n, r.mesh2.raw, r.mesh3.raw, p + n + n + n);
      PPtrOfWrite(s, p + n, sz, r.mesh1);
      PPtrOfWrite(s, p + n + n, sz, r.mesh2);
      PPtrOfWrite(s, p + n + n + n, sz, r.mesh3);
    }
  }

  /** The mask interaction, written from 2017.1.0b2 on at q. */
  lemma MaskInteractionOfWrite(s: Source, q: nat, v: Version, sz: SubSizes, r: ParticleSystemRenderer)
    requires MeshesWellFormed(r, v, sz)
    requires IsReadMaskInteraction(v) ==> At(s, q, EncodeInt32(r.maskInteraction, s.endian))
    ensures (if IsReadMaskInteraction(v) then ReadInt32(s, q) else Some((0, q))) ==
      Some((r.maskInteraction as i32, q + Width(IsReadMaskInteraction(v), 4)))
  {
    if IsReadMaskInteraction(v) {
      ReadInt32OfEncoded(s, q, r.maskInteraction);
    }
  }

  lemma MeshesSplit(s: Source, p: nat, v: Version, sz: SubSizes, r: ParticleSystemRenderer)
    requires MeshesWellFormed(r, v, sz)
    requires At(s, p, WriteMeshes(r, v, sz, s.endian))
    ensures At(s, p, r.mesh.raw)
    ensures IsReadMeshes(v) ==> At(s, p + sz.pptr, r.mesh1.raw + (r.mesh2.raw + r.mesh3.raw))
    ensures IsReadMaskInteraction(v) ==> At(s, p + MeshRefsSize(v, sz), EncodeInt32(r.maskInteraction, s.endian))
  {
    var extra := if IsReadMeshes(v) then r.mesh1.raw + (r.mesh2.raw + r.mesh3.raw) else [];
    var mask := if IsReadMaskInteraction(v) then EncodeInt32(r.maskInteraction, s.endian) else [];
    AtSplit(s, p, r.mesh.raw, extra + mask, p + sz.pptr);
    AtSplit(s, p + sz.pptr, extra, mask, p + MeshRefsSize(v, sz));
  }

  lemma MeshesOfPieces(s: Source, p: nat, v: Version, sz: SubSizes, r: ParticleSystemRenderer, acc: ParticleSystemRenderer)
    requires MeshesWellFormed(r, v, sz)
    requires ReadPPtr(s, p, sz) == Some((r.mesh, p + sz.pptr))
    requires ReadExtraMeshes(s, p + sz.pptr, v, sz) == Some(((r.mesh1, r.mesh2, r.mesh3), p + MeshRefsSize(v, sz)))
    requires
      var q := p + MeshRefsSize(v, sz);
      (if IsReadMaskInteraction(v) then ReadInt32(s, q) else Some((0, q))) ==
        Some((r.maskInteraction as i32, q + Width(IsReadMaskInteraction(v), 4)))
    ensures ReadMeshes(s, p, v, sz, acc) == Some((WithMeshes(acc, r), p + MeshesSize(v, sz)))
  {
    hide ReadPPtr, ReadExtraMeshes, ReadInt32;
  }

  lemma MeshesOfWrite(s: Source, p: nat, v: Version, sz: SubSizes, r: ParticleSystemRenderer, acc: ParticleSystemRenderer)
    requires MeshesWellFormed(r, v, sz)
    requires At(s, p, WriteMeshes(r, v, sz, s.endian))
    ensures ReadMeshes(s, p, v, sz, acc) == Some((WithMeshes(acc, r), p + MeshesSize(v, sz)))
  {
    hide ReadMeshes, ReadPPtr, ReadExtraMeshes, ReadInt32, WriteMeshes, At;
    MeshesSplit(s, p, v, sz, r);
    PPtrOfWrite(s, p, sz, r.mesh);
    ExtraMeshesOfWrite(s, p, v, sz, r);
    MaskInteractionOfWrite(s, p + MeshRefsSize(v, sz), v, sz, r);
    MeshesOfPieces(s, p, v, sz, r, acc);
  }
}
