/** Properties of the whole decoder: what it reads back from the reference encoder's
    bytes, what every renderer it produces looks like, where each field sits in the
    bytes it read, and what the dependency list and the export node hold for it. */
module ParticleSystemRendererProperties {
  import opened Options
  import opened Bytes
  import opened Versions
  import opened Cursors
  import opened Yaml
  import opened VertexStreamMask
  import opened ParticleSystemRenderers
  import opened ParticleSystemRendererLayout

  // The decoder in stages: a successful stage is followed by a successful read of the
  // rest right where the stage stopped, and the other way round.

  /** A successful decode ends with a successful read of everything after the head. */
  lemma HeadThenRest(s: Source, p: nat, v: Version, sz: SubSizes, res: (ParticleSystemRenderer, nat))
    requires Read(s, p, v, sz) == Some(res)
    ensures ReadHead(s, p, v, Blank(sz)).Some?
    ensures ReadAfterHead(s, p + HeadSize(v), v, sz, ReadHead(s, p, v, Blank(sz)).value.0) == Some(res)
  {
    hide ReadHead, ReadAfterHead;
  }

  /** A successful read after the head at p ends with a successful read of the stream
      part and the meshes after the alignment. */
  lemma AlignmentThenRest(s: Source, p: nat, v: Version, sz: SubSizes, acc: ParticleSystemRenderer,
                          res: (ParticleSystemRenderer, nat))
    requires ReadAfterHead(s, p, v, sz, acc) == Some(res)
    ensures ReadAlignment(s, p, v, sz, acc).Some?
    ensures
      var a := ReadAlignment(s, p, v, sz, acc).value.0;
      ReadStreamsAndMeshes(s, p + AlignmentSize(v, sz), v, sz, a) == Some(res)
  {
    hide ReadAlignment, ReadStreamsAndMeshes;
  }

  /** A successful read of the stream part and meshes at p ends with a successful read
      of the meshes after the stream part. */
  lemma StreamsThenMeshes(s: Source, p: nat, v: Version, sz: SubSizes, acc: ParticleSystemRenderer,
                          res: (ParticleSystemRenderer, nat))
    requires ReadStreamsAndMeshes(s, p, v, sz, acc) == Some(res)
    ensures ReadVertexStreams(s, p, v, acc).Some?
    ensures
      var st := ReadVertexStreams(s, p, v, acc).value.0;
      ReadMeshes(s, StreamsEnd(v, p, StreamCount(st)), v, sz, st) == Some(res)
  {
    hide ReadVertexStreams, ReadMeshes;
  }

  /** A head read and a read of the rest right after it make a successful decode. */
  lemma ReadOfParts(s: Source, p: nat, v: Version, sz: SubSizes, h: ParticleSystemRenderer,
                    res: (ParticleSystemRenderer, nat))
    requires ReadHead(s, p, v, Blank(sz)) == Some((h, p + HeadSize(v)))
    requires ReadAfterHead(s, p + HeadSize(v), v, sz, h) == Some(res)
    ensures Read(s, p, v, sz) == Some(res)
  {
    hide ReadHead, ReadAfterHead;
  }

  /** An alignment read and a read of the stream part and meshes right after it make a
      successful read after the head. */
  lemma AfterHeadOfParts(s: Source, p: nat, v: Version, sz: SubSizes, acc: ParticleSystemRenderer,
                         a: ParticleSystemRenderer, res: (ParticleSystemRenderer, nat))
    requires ReadAlignment(s, p, v, sz, acc) == Some((a, p + AlignmentSize(v, sz)))
    requires ReadStreamsAndMeshes(s, p + AlignmentSize(v, sz), v, sz, a) == Some(res)
    ensures ReadAfterHead(s, p, v, sz, acc) == Some(res)
  {
    hide ReadAlignment, ReadStreamsAndMeshes;
  }

  /** A stream part read and a meshes read right after it make a successful read of
      both. */
  lemma StreamsAndMeshesOfParts(s: Source, p: nat, v: Version, sz: SubSizes, acc: ParticleSystemRenderer,
                                st: ParticleSystemRenderer, res: (ParticleSystemRenderer, nat))
    requires ReadVertexStreams(s, p, v, acc) == Some((st, StreamsEnd(v, p, StreamCount(st))))
    requires ReadMeshes(s, StreamsEnd(v, p, StreamCount(st)), v, sz, st) == Some(res)
    ensures ReadStreamsAndMeshes(s, p, v, sz, acc) == Some(res)
  {
    hide ReadVertexStreams, ReadMeshes;
  }

  // Round trip.

  lemma StreamsAndMeshesSplit(s: Source, p: nat, v: Version, sz: SubSizes, r: ParticleSystemRenderer)
    requires StreamsWellFormed(r, v) && MeshesWellFormed(r, v, sz)
    requires At(s, p, WriteStreamsAndMeshes(r, v, sz, p, s.endian))
    ensures At(s, p, WriteVertexStreams(r, v, p, s.endian))
    ensures At(s, StreamsEnd(v, p, StreamCount(r)), WriteMeshes(r, v, sz, s.endian))
  {
    hide WriteVertexStreams, WriteMeshes, At;
    AtSplit(s, p, WriteVertexStreams(r, v, p, s.endian), WriteMeshes(r, v, sz, s.endian), StreamsEnd(v, p, StreamCount(r)));
  }

  lemma StreamsAndMeshesOfWrite(s: Source, p: nat, v: Version, sz: SubSizes, r: ParticleSystemRenderer,
                                acc: ParticleSystemRenderer)
    requires StreamsWellFormed(r, v) && MeshesWellFormed(r, v, sz)
    requires At(s, p, WriteStreamsAndMeshes(r, v, sz, p, s.endian))
    ensures ReadStreamsAndMeshes(s, p, v, sz, acc) ==
      Some((WithMeshes(WithStreams(acc, r), r), StreamsAndMeshesEnd(v, sz, p, StreamCount(r))))
  {
    hide Read, ReadHead, ReadAfterHead, ReadAlignment, ReadStreamsAndMeshes, ReadVertexStreams, ReadMeshes, WriteStreamsAndMeshes, WriteVertexStreams, WriteMeshes, At;
    var q := StreamsEnd(v, p, StreamCount(r));
    var st := WithStreams(acc, r);
    StreamsAndMeshesSplit(s, p, v, sz, r);
    VertexStreamsOfWrite(s, p, v, r, acc);
    MeshesOfWrite(s, q, v, sz, r, st);
    assert StreamCount(st) == StreamCount(r);
    StreamsAndMeshesOfParts(s, p, v, sz, acc, st, (WithMeshes(st, r), q + MeshesSize(v, sz)));
  }

  lemma AfterHeadSplit(s: Source, p: nat, v: Version, sz: SubSizes, r: ParticleSystemRenderer)
    requires AlignmentWellFormed(r, v, sz) && StreamsWellFormed(r, v) && MeshesWellFormed(r, v, sz)
    requires At(s, p, WriteAfterHead(r, v, sz, p, s.endian))
    ensures At(s, p, WriteAlignment(r, v, sz, s.endian))
    ensures
      var q := p + AlignmentSize(v, sz);
      At(s, q, WriteStreamsAndMeshes(r, v, sz, q, s.endian))
  {
    hide WriteAlignment, WriteStreamsAndMeshes, At;
    var q := p + AlignmentSize(v, sz);
    AtSplit(s, p, WriteAlignment(r, v, sz, s.endian), WriteStreamsAndMeshes(r, v, sz, q, s.endian), q);
  }

  lemma AfterHeadOfWrite(s: Source, p: nat, v: Version, sz: SubSizes, r: ParticleSystemRenderer,
                         acc: ParticleSystemRenderer)
    requires AlignmentWellFormed(r, v, sz) && StreamsWellFormed(r, v) && MeshesWellFormed(r, v, sz)
    requires acc.renderMode == r.renderMode
    requires At(s, p, WriteAfterHead(r, v, sz, p, s.endian))
    ensures ReadAfterHead(s, p, v, sz, acc) ==
      Some((WithMeshes(WithStreams(WithAlignment(acc, r), r), r), AfterHeadEnd(v, sz, p, StreamCount(r))))
  {
    hide Read, ReadHead, ReadAfterHead, ReadAlignment, ReadStreamsAndMeshes, ReadVertexStreams, ReadMeshes, WriteAfterHead, WriteAlignment, WriteStreamsAndMeshes, At;
    var q := p + AlignmentSize(v, sz);
    var a := WithAlignment(acc, r);
    AfterHeadSplit(s, p, v, sz, r);
    AlignmentOfWrite(s, p, v, sz, r, acc);
    StreamsAndMeshesOfWrite(s, q, v, sz, r, a);
    assert AfterHeadEnd(v, sz, p, StreamCount(r)) == StreamsAndMeshesEnd(v, sz, q, StreamCount(r));
    AfterHeadOfParts(s, p, v, sz, acc, a,
      (WithMeshes(WithStreams(a, r), r), StreamsAndMeshesEnd(v, sz, q, StreamCount(r))));
  }

  /** The renderer the four stages assemble, starting from a blank one, out of r's
      stored fields. */
  function Rebuilt(r: ParticleSystemRenderer, v: Version, sz: SubSizes): ParticleSystemRenderer {
    WithMeshes(WithStreams(WithAlignment(WithHead(Blank(sz), r, v), r), r), r)
  }

  /** A well-formed renderer is exactly what the stages assemble from its stored fields:
      every field a version does not store already holds its default. */
  lemma RebuiltWellFormed(r: ParticleSystemRenderer, v: Version, sz: SubSizes)
    requires WellFormed(r, v, sz)
    ensures Rebuilt(r, v, sz) == r
  {
  }

  lemma WriteSplit(s: Source, p: nat, v: Version, sz: SubSizes, r: ParticleSystemRenderer)
    requires WellFormed(r, v, sz)
    requires At(s, p, Write(r, v, sz, p, s.endian))
    ensures At(s, p, WriteHead(r, v, s.endian))
    ensures At(s, p + HeadSize(v), WriteAfterHead(r, v, sz, p + HeadSize(v), s.endian))
  {
    hide WriteHead, WriteAfterHead, At;
    var e := s.endian;
    AtSplit(s, p, WriteHead(r, v, e), WriteAfterHead(r, v, sz, p + HeadSize(v), e), p + HeadSize(v));
  }

  lemma ReadOfWritePieces(s: Source, p: nat, v: Version, sz: SubSizes, r: ParticleSystemRenderer)
    requires WellFormed(r, v, sz)
    requires At(s, p, WriteHead(r, v, s.endian))
    requires At(s, p + HeadSize(v), WriteAfterHead(r, v, sz, p + HeadSize(v), s.endian))
    ensures Read(s, p, v, sz) == Some((r, EndPos(v, sz, p, StreamCount(r))))
  {
    hide Read, ReadHead, ReadAfterHead, ReadAlignment, ReadStreamsAndMeshes, ReadVertexStreams, ReadMeshes, WriteHead, WriteAfterHead, At;
    var q := p + HeadSize(v);
    var h := WithHead(Blank(sz), r, v);
    HeadOfWrite(s, p, v, r, Blank(sz));
    AfterHeadOfWrite(s, q, v, sz, r, h);
    RebuiltWellFormed(r, v, sz);
    ReadOfParts(s, p, v, sz, h, (r, AfterHeadEnd(v, sz, q, StreamCount(r))));
  }

  /** Decoding the bytes the reference encoder wrote for a well-formed renderer gives
      that renderer back and stops right after them (the encoder's bytes end at EndPos). */
  lemma ReadOfWrite(s: Source, p: nat, v: Version, sz: SubSizes, r: ParticleSystemRenderer)
    requires WellFormed(r, v, sz)
    requires At(s, p, Write(r, v, sz, p, s.endian))
    ensures Read(s, p, v, sz) == Some((r, EndPos(v, sz, p, StreamCount(r))))
  {
    hide Read, ReadHead, ReadAfterHead, ReadAlignment, ReadStreamsAndMeshes, ReadVertexStreams, ReadMeshes, Write, WriteHead, WriteAfterHead, At;
    WriteSplit(s, p, v, sz, r);
    ReadOfWritePieces(s, p, v, sz, r);
  }

  // Everything the decoder produces is well-formed.

  lemma HeadReadWellFormed(s: Source, p: nat, v: Version, acc: ParticleSystemRenderer)
    requires acc.minParticleSize == ZeroSingle && acc.normalDirection == ZeroSingle
    requires ReadHead(s, p, v, acc).Some?
    ensures HeadWellFormed(ReadHead(s, p, v, acc).value.0, v)
    ensures
      var h := ReadHead(s, p, v, acc).value.0;
      h == acc.(
        renderMode := h.renderMode, sortMode := h.sortMode,
        minParticleSize := h.minParticleSize, maxParticleSize := h.maxParticleSize,
        cameraVelocityScale := h.cameraVelocityScale, velocityScale := h.velocityScale,
        lengthScale := h.lengthScale, sortingFudge := h.sortingFudge, normalDirection := h.normalDirection)
  {
    hide ReadModes, ReadScales, ReadLateSortMode, ReadFiveSingles, ReadEnum;
    var modes := ReadModes(s, p, v, acc).value;
    var scales := ReadScales(s, p + ModesSize(v), v, modes.0).value;
    assert ReadHead(s, p, v, acc) == ReadLateSortMode(s, p + ModesSize(v) + ScalesSize(v), v, scales.0);
  }

  lemma AlignmentReadWellFormed(s: Source, p: nat, v: Version, sz: SubSizes, acc: ParticleSystemRenderer)
    requires ReadAlignment(s, p, v, sz, acc).Some?
    ensures AlignmentWellFormed(ReadAlignment(s, p, v, sz, acc).value.0, v, sz)
  {
  }

  lemma StreamsReadWellFormed(s: Source, p: nat, v: Version, acc: ParticleSystemRenderer)
    requires ReadVertexStreams(s, p, v, acc).Some?
    ensures StreamsWellFormed(ReadVertexStreams(s, p, v, acc).value.0, v)
  {
  }

  lemma MeshesReadWellFormed(s: Source, p: nat, v: Version, sz: SubSizes, acc: ParticleSystemRenderer)
    requires ReadMeshes(s, p, v, sz, acc).Some?
    ensures MeshesWellFormed(ReadMeshes(s, p, v, sz, acc).value.0, v, sz)
  {
  }

  /** Every renderer the decoder produces is one the encoder accepts: enum values fit
      their width, and the fields the version does not store hold their defaults. */
  lemma ReadWellFormed(s: Source, p: nat, v: Version, sz: SubSizes)
    requires Read(s, p, v, sz).Some?
    ensures WellFormed(Read(s, p, v, sz).value.0, v, sz)
  {
    hide Read, ReadHead, ReadAfterHead, ReadAlignment, ReadStreamsAndMeshes, ReadVertexStreams, ReadMeshes;
    var res := Read(s, p, v, sz).value;
    HeadThenRest(s, p, v, sz, res);
    var h := ReadHead(s, p, v, Blank(sz)).value.0;
    HeadReadWellFormed(s, p, v, Blank(sz));
    var p1 := p + HeadSize(v);
    AlignmentThenRest(s, p1, v, sz, h, res);
    var a := ReadAlignment(s, p1, v, sz, h).value.0;
    AlignmentReadWellFormed(s, p1, v, sz, h);
    var p2 := p1 + AlignmentSize(v, sz);
    StreamsThenMeshes(s, p2, v, sz, a, res);
    var st := ReadVertexStreams(s, p2, v, a).value.0;
    StreamsReadWellFormed(s, p2, v, a);
    MeshesReadWellFormed(s, StreamsEnd(v, p2, StreamCount(st)), v, sz, st);
  }

  // Where each field comes from. Each stage's own facts are lifted through the later
  // stages, which leave the fields it filled in alone.

  predicate SameHead(a: ParticleSystemRenderer, b: ParticleSystemRenderer) {
    && a.renderMode == b.renderMode && a.sortMode == b.sortMode
    && a.minParticleSize == b.minParticleSize && a.maxParticleSize == b.maxParticleSize
    && a.cameraVelocityScale == b.cameraVelocityScale && a.velocityScale == b.velocityScale
    && a.lengthScale == b.lengthScale && a.sortingFudge == b.sortingFudge
    && a.normalDirection == b.normalDirection
  }

  predicate SameAlignment(a: ParticleSystemRenderer, b: ParticleSystemRenderer) {
    a.renderAlignment == b.renderAlignment && a.pivot == b.pivot
  }

  predicate SameStreams(a: ParticleSystemRenderer, b: ParticleSystemRenderer) {
    a.useCustomVertexStreams == b.useCustomVertexStreams && a.vertexStreams == b.vertexStreams
  }

  /** The stream part and the meshes at p keep the head and the alignment. */
  lemma StreamsAndMeshesFrame(s: Source, p: nat, v: Version, sz: SubSizes, acc: ParticleSystemRenderer,
                              res: (ParticleSystemRenderer, nat))
    requires ReadStreamsAndMeshes(s, p, v, sz, acc) == Some(res)
    ensures ReadVertexStreams(s, p, v, acc).Some?
    ensures SameHead(res.0, acc) && SameAlignment(res.0, acc)
    ensures SameStreams(res.0, ReadVertexStreams(s, p, v, acc).value.0)
  {
    hide Read, ReadHead, ReadAfterHead, ReadAlignment, ReadStreamsAndMeshes, ReadVertexStreams, ReadMeshes;
    StreamsThenMeshes(s, p, v, sz, acc, res);
  }

  /** Alignment, stream part and meshes at p keep the head. */
  lemma AfterHeadFrame(s: Source, p: nat, v: Version, sz: SubSizes, acc: ParticleSystemRenderer,
                       res: (ParticleSystemRenderer, nat))
    requires ReadAfterHead(s, p, v, sz, acc) == Some(res)
    ensures ReadAlignment(s, p, v, sz, acc).Some?
    ensures SameHead(res.0, acc)
    ensures SameAlignment(res.0, ReadAlignment(s, p, v, sz, acc).value.0)
  {
    hide Read, ReadHead, ReadAfterHead, ReadAlignment, ReadStreamsAndMeshes, ReadVertexStreams, ReadMeshes;
    AlignmentThenRest(s, p, v, sz, acc, res);
    var a := ReadAlignment(s, p, v, sz, acc).value.0;
    StreamsAndMeshesFrame(s, p + AlignmentSize(v, sz), v, sz, a, res);
  }

  /** The modes a successful head read produces, by position. */
  lemma ModesOfHead(s: Source, p: nat, v: Version, acc: ParticleSystemRenderer)
    requires ReadHead(s, p, v, acc).Some?
    ensures
      var h := ReadHead(s, p, v, acc).value.0;
      && h.renderMode == (if IsModeShort(v) then UInt16At(s, p) as int else Int32At(s, p) as int)
      && h.sortMode ==
           (if IsSortModeFirst(v) then UInt16At(s, p + 2) as int
            else Int32At(s, p + ModesSize(v) + ScalesSize(v)) as int)
  {
    hide ReadModes, ReadScales, ReadLateSortMode, ReadFiveSingles, ReadEnum;
    var modes := ReadModes(s, p, v, acc).value;
    var scales := ReadScales(s, p + ModesSize(v), v, modes.0).value;
    assert ReadHead(s, p, v, acc) == ReadLateSortMode(s, p + ModesSize(v) + ScalesSize(v), v, scales.0);
  }

  /** The size and scale floats a successful head read produces, by position. */
  lemma ScalesOfHead(s: Source, p: nat, v: Version, acc: ParticleSystemRenderer)
    requires ReadHead(s, p, v, acc).Some?
    ensures
      var h := ReadHead(s, p, v, acc).value.0;
      var f := p + ModesSize(v) + Width(IsReadMinParticleSize(v), 4);
      && h.minParticleSize == (if IsReadMinParticleSize(v) then SingleAt(s, p + ModesSize(v)) else acc.minParticleSize)
      && h.maxParticleSize == SingleAt(s, f)
      && h.cameraVelocityScale == SingleAt(s, f + 4)
      && h.velocityScale == SingleAt(s, f + 8)
      && h.lengthScale == SingleAt(s, f + 12)
      && h.sortingFudge == SingleAt(s, f + 16)
      && h.normalDirection == (if IsReadNormalDirection(v) then SingleAt(s, f + 20) else acc.normalDirection)
  {
    hide ReadModes, ReadScales, ReadLateSortMode, ReadFiveSingles, ReadEnum;
    var modes := ReadModes(s, p, v, acc).value;
    var scales := ReadScales(s, p + ModesSize(v), v, modes.0).value;
    assert ReadHead(s, p, v, acc) == ReadLateSortMode(s, p + ModesSize(v) + ScalesSize(v), v, scales.0);
  }

  /** The head of a successful decode is the head read from a blank renderer. */
  lemma HeadOfRead(s: Source, p: nat, v: Version, sz: SubSizes)
    requires Read(s, p, v, sz).Some?
    ensures ReadHead(s, p, v, Blank(sz)).Some?
    ensures SameHead(Read(s, p, v, sz).value.0, ReadHead(s, p, v, Blank(sz)).value.0)
  {
    hide Read, ReadHead, ReadAfterHead, ReadAlignment, ReadStreamsAndMeshes, ReadVertexStreams, ReadMeshes;
    var res := Read(s, p, v, sz).value;
    HeadThenRest(s, p, v, sz, res);
    AfterHeadFrame(s, p + HeadSize(v), v, sz, ReadHead(s, p, v, Blank(sz)).value.0, res);
  }

  /** The render mode is the first field, uint16 from 5.3 on and int32 before. The
      sort mode is read exactly once: as uint16 right after the render mode from 5.3
      on, as int32 right after the normal direction before. */
  lemma ModesOfRead(s: Source, p: nat, v: Version, sz: SubSizes)
    requires Read(s, p, v, sz).Some?
    ensures p + HeadSize(v) <= |s.data|
    ensures
      var r := Read(s, p, v, sz).value.0;
      && r.renderMode == (if IsModeShort(v) then UInt16At(s, p) as int else Int32At(s, p) as int)
      && r.sortMode ==
           (if IsSortModeFirst(v) then UInt16At(s, p + 2) as int
            else Int32At(s, p + ModesSize(v) + ScalesSize(v)) as int)
  {
    hide Read, ReadHead, ReadAfterHead, ReadAlignment, ReadStreamsAndMeshes, ReadVertexStreams, ReadMeshes;
    HeadOfRead(s, p, v, sz);
    ModesOfHead(s, p, v, Blank(sz));
  }

  /** The size and scale floats sit right after the modes, with the min particle size
      first from 5.3 on and the normal direction last from 4.0 on; fields a version
      does not store read as zero. */
  lemma ScalesOfRead(s: Source, p: nat, v: Version, sz: SubSizes)
    requires Read(s, p, v, sz).Some?
    ensures p + HeadSize(v) <= |s.data|
    ensures
      var r := Read(s, p, v, sz).value.0;
      var f := p + ModesSize(v) + Width(IsReadMinParticleSize(v), 4);
      && r.minParticleSize == (if IsReadMinParticleSize(v) then SingleAt(s, p + ModesSize(v)) else ZeroSingle)
      && r.maxParticleSize == SingleAt(s, f)
      && r.cameraVelocityScale == SingleAt(s, f + 4)
      && r.velocityScale == SingleAt(s, f + 8)
      && r.lengthScale == SingleAt(s, f + 12)
      && r.sortingFudge == SingleAt(s, f + 16)
      && r.normalDirection == (if IsReadNormalDirection(v) then SingleAt(s, f + 20) else ZeroSingle)
  {
    hide Read, ReadHead, ReadAfterHead, ReadAlignment, ReadStreamsAndMeshes, ReadVertexStreams, ReadMeshes;
    HeadOfRead(s, p, v, sz);
    ScalesOfHead(s, p, v, Blank(sz));
  }

  /** The alignment part of a successful read after the head at p, by position. */
  lemma AlignmentOfAfterHead(s: Source, p: nat, v: Version, sz: SubSizes, acc: ParticleSystemRenderer,
                             res: (ParticleSystemRenderer, nat))
    requires ReadAfterHead(s, p, v, sz, acc) == Some(res)
    ensures p + AlignmentSize(v, sz) <= |s.data|
    ensures
      var r := res.0;
      && r.renderMode == acc.renderMode
      && r.renderAlignment ==
           (if IsReadRenderAlignment(v) then Int32At(s, p) as int else DefaultRenderAlignment(acc.renderMode))
      && r.pivot ==
           (if IsReadRenderAlignment(v) then Vector3f(s.data[p + 4..p + 4 + sz.vector3f])
            else Vector3f(Zeros(sz.vector3f)))
  {
    hide Read, ReadHead, ReadAfterHead, ReadAlignment, ReadStreamsAndMeshes, ReadVertexStreams, ReadMeshes;
    AfterHeadFrame(s, p, v, sz, acc, res);
    AlignmentThenRest(s, p, v, sz, acc, res);
  }

  /** From 5.3 on the render alignment is the int32 after the head, followed by the
      pivot; before, it is Local exactly for mesh particles and View otherwise. */
  lemma AlignmentOfRead(s: Source, p: nat, v: Version, sz: SubSizes)
    requires Read(s, p, v, sz).Some?
    ensures p + HeadSize(v) + AlignmentSize(v, sz) <= |s.data|
    ensures
      var r := Read(s, p, v, sz).value.0;
      var q := p + HeadSize(v);
      && r.renderAlignment ==
           (if IsReadRenderAlignment(v) then Int32At(s, q) as int else DefaultRenderAlignment(r.renderMode))
      && r.pivot ==
           (if IsReadRenderAlignment(v) then Vector3f(s.data[q + 4..q + 4 + sz.vector3f]) else Vector3f(Zeros(sz.vector3f)))
    ensures
      var r := Read(s, p, v, sz).value.0;
      !IsReadRenderAlignment(v) ==> (r.renderAlignment == RenderSpaceLocal <==> r.renderMode == RenderModeMesh)
  {
    hide Read, ReadHead, ReadAfterHead, ReadAlignment, ReadStreamsAndMeshes, ReadVertexStreams, ReadMeshes;
    var res := Read(s, p, v, sz).value;
    HeadThenRest(s, p, v, sz, res);
    AlignmentOfAfterHead(s, p + HeadSize(v), v, sz, ReadHead(s, p, v, Blank(sz)).value.0, res);
  }

  /** The stream part of a successful read of the stream part and meshes at p, by
      position. */
  lemma StreamsOfStreamsAndMeshes(s: Source, p: nat, v: Version, sz: SubSizes, acc: ParticleSystemRenderer,
                                  res: (ParticleSystemRenderer, nat))
    requires ReadStreamsAndMeshes(s, p, v, sz, acc) == Some(res)
    ensures
      var r := res.0;
      !IsReadUseCustomVertexStreams(v) ==> !r.useCustomVertexStreams && r.vertexStreams.None?
    ensures
      var r := res.0;
      var q := RoundUp4(p + 1);
      IsReadUseCustomVertexStreams(v) ==>
        && p < |s.data|
        && r.useCustomVertexStreams == (s.data[p] != 0)
        && r.vertexStreams.Some?
        && ReadStreamList(s, q, v).Some?
        && r.vertexStreams.value == ReadStreamList(s, q, v).value.0
    ensures
      var r := res.0;
      var q := RoundUp4(p + 1);
      IsReadVertexStreamMask(v) ==>
        q + 4 <= |s.data| && r.vertexStreams == Some(MaskStreams(Int32At(s, q)))
  {
    hide Read, ReadHead, ReadAfterHead, ReadAlignment, ReadStreamsAndMeshes, ReadVertexStreams, ReadMeshes;
    StreamsAndMeshesFrame(s, p, v, sz, acc, res);
  }

  /** The stream part of a successful read after the head at p, by position. */
  lemma StreamsOfAfterHead(s: Source, p: nat, v: Version, sz: SubSizes, acc: ParticleSystemRenderer,
                           res: (ParticleSystemRenderer, nat))
    requires ReadAfterHead(s, p, v, sz, acc) == Some(res)
    ensures
      var r := res.0;
      !IsReadUseCustomVertexStreams(v) ==> !r.useCustomVertexStreams && r.vertexStreams.None?
    ensures
      var r := res.0;
      var b := p + AlignmentSize(v, sz);
      var q := RoundUp4(b + 1);
      IsReadUseCustomVertexStreams(v) ==>
        && b < |s.data|
        && r.useCustomVertexStreams == (s.data[b] != 0)
        && r.vertexStreams.Some?
        && ReadStreamList(s, q, v).Some?
        && r.vertexStreams.value == ReadStreamList(s, q, v).value.0
    ensures
      var r := res.0;
      var q := RoundUp4(p + AlignmentSize(v, sz) + 1);
      IsReadVertexStreamMask(v) ==>
        q + 4 <= |s.data| && r.vertexStreams == Some(MaskStreams(Int32At(s, q)))
  {
    hide *;
    AlignmentThenRest(s, p, v, sz, acc, res);
    var a := ReadAlignment(s, p, v, sz, acc).value.0;
    StreamsOfStreamsAndMeshes(s, p + AlignmentSize(v, sz), v, sz, a, res);
  }

  /** From 5.5 on: the boolean right after the alignment part, then the stream list at
      the next multiple of 4 (a bitmask in the 5.5 line). Before 5.5 the list is null
      and nothing is consumed for it. */
  lemma VertexStreamsOfRead(s: Source, p: nat, v: Version, sz: SubSizes)
    requires Read(s, p, v, sz).Some?
    ensures
      var r := Read(s, p, v, sz).value.0;
      !IsReadUseCustomVertexStreams(v) ==> !r.useCustomVertexStreams && r.vertexStreams.None?
    ensures
      var r := Read(s, p, v, sz).value.0;
      var b := p + HeadSize(v) + AlignmentSize(v, sz);
      var q := RoundUp4(b + 1);
      IsReadUseCustomVertexStreams(v) ==>
        && b < |s.data|
        && r.useCustomVertexStreams == (s.data[b] != 0)
        && r.vertexStreams.Some?
        && ReadStreamList(s, q, v).Some?
        && r.vertexStreams.value == ReadStreamList(s, q, v).value.0
    ensures
      var r := Read(s, p, v, sz).value.0;
      var q := RoundUp4(p + HeadSize(v) + AlignmentSize(v, sz) + 1);
      IsReadVertexStreamMask(v) ==>
        q + 4 <= |s.data| && r.vertexStreams == Some(MaskStreams(Int32At(s, q)))
  {
    hide Read, ReadHead, ReadAfterHead, ReadAlignment, ReadStreamsAndMeshes, ReadVertexStreams, ReadMeshes;
    var res := Read(s, p, v, sz).value;
    HeadThenRest(s, p, v, sz, res);
    StreamsOfAfterHead(s, p + HeadSize(v), v, sz, ReadHead(s, p, v, Blank(sz)).value.0, res);
  }

  /** r's mesh references and mask interaction are the ones stored in the meshes part
      at q: one reference below 4.0 and four from 4.0 on, then the int32 mask
      interaction from 2017.1.0b2 on (0 before). */
  predicate MeshesAt(r: ParticleSystemRenderer, s: Source, q: nat, v: Version, sz: SubSizes) {
    var n := sz.pptr;
    && q + MeshesSize(v, sz) <= |s.data|
    && r.mesh == PPtr(s.data[q..q + n])
    && (IsReadMeshes(v) ==>
          && r.mesh1 == PPtr(s.data[q + n..q + 2 * n])
          && r.mesh2 == PPtr(s.data[q + 2 * n..q + 3 * n])
          && r.mesh3 == PPtr(s.data[q + 3 * n..q + 4 * n]))
    && r.maskInteraction == (if IsReadMaskInteraction(v) then Int32At(s, q + MeshRefsSize(v, sz)) as int else 0)
  }

  /** The mesh references stored at q: one below 4.0 and four from 4.0 on. */
  function MeshRefsAt(s: Source, q: nat, v: Version, sz: SubSizes): seq<PPtr>
    requires q + MeshRefsSize(v, sz) <= |s.data|
  {
    var n := sz.pptr;
    [PPtr(s.data[q..q + n])]
      + (if IsReadMeshes(v) then
           [PPtr(s.data[q + n..q + 2 * n]), PPtr(s.data[q + 2 * n..q + 3 * n]), PPtr(s.data[q + 3 * n..q + 4 * n])]
         else [])
  }

  /** The dependency list of a renderer whose meshes are the ones stored at q. */
  lemma DependenciesOfMeshesAt(r: ParticleSystemRenderer, s: Source, q: nat, v: Version, sz: SubSizes)
    requires MeshesAt(r, s, q, v, sz)
    ensures FetchDependencies(r, v) == MeshRefsAt(s, q, v, sz)
  {
  }

  /** The meshes of a successful meshes read at q, by position. */
  lemma MeshesOfMeshes(s: Source, q: nat, v: Version, sz: SubSizes, acc: ParticleSystemRenderer,
                       res: (ParticleSystemRenderer, nat))
    requires ReadMeshes(s, q, v, sz, acc) == Some(res)
    ensures StreamCount(res.0) == StreamCount(acc)
    ensures MeshesAt(res.0, s, q, v, sz)
  {
    hide ReadMeshes, ReadExtraMeshes, ReadPPtr;
  }

  /** The meshes of a successful read of the stream part and meshes at p, by position. */
  lemma MeshesOfStreamsAndMeshes(s: Source, p: nat, v: Version, sz: SubSizes, acc: ParticleSystemRenderer,
                                 res: (ParticleSystemRenderer, nat))
    requires ReadStreamsAndMeshes(s, p, v, sz, acc) == Some(res)
    ensures MeshesAt(res.0, s, StreamsEnd(v, p, StreamCount(res.0)), v, sz)
  {
    hide Read, ReadHead, ReadAfterHead, ReadAlignment, ReadStreamsAndMeshes, ReadVertexStreams, ReadMeshes;
    StreamsThenMeshes(s, p, v, sz, acc, res);
    var st := ReadVertexStreams(s, p, v, acc).value.0;
    MeshesOfMeshes(s, StreamsEnd(v, p, StreamCount(st)), v, sz, st, res);
  }

  /** The meshes of a successful read after the head at p, by position. */
  lemma MeshesOfAfterHead(s: Source, p: nat, v: Version, sz: SubSizes, acc: ParticleSystemRenderer,
                          res: (ParticleSystemRenderer, nat))
    requires ReadAfterHead(s, p, v, sz, acc) == Some(res)
    ensures MeshesAt(res.0, s, StreamsEnd(v, p + AlignmentSize(v, sz), StreamCount(res.0)), v, sz)
  {
    hide Read, ReadHead, ReadAfterHead, ReadAlignment, ReadStreamsAndMeshes, ReadVertexStreams, ReadMeshes;
    AlignmentThenRest(s, p, v, sz, acc, res);
    var a := ReadAlignment(s, p, v, sz, acc).value.0;
    MeshesOfStreamsAndMeshes(s, p + AlignmentSize(v, sz), v, sz, a, res);
  }

  /** The references the renderer depends on are the ones it read, in the order it
      read them: one below 4.0 and four from 4.0 on, right after the stream part.
      The mask interaction follows them from 2017.1.0b2 on and is 0 before. */
  lemma DependenciesOfRead(s: Source, p: nat, v: Version, sz: SubSizes, res: (ParticleSystemRenderer, nat))
    requires Read(s, p, v, sz) == Some(res)
    ensures MeshesAt(res.0, s, StreamsEnd(v, p + HeadSize(v) + AlignmentSize(v, sz), StreamCount(res.0)), v, sz)
    ensures FetchDependencies(res.0, v) ==
              MeshRefsAt(s, StreamsEnd(v, p + HeadSize(v) + AlignmentSize(v, sz), StreamCount(res.0)), v, sz)
  {
    hide *;
    HeadThenRest(s, p, v, sz, res);
    MeshesOfAfterHead(s, p + HeadSize(v), v, sz, ReadHead(s, p, v, Blank(sz)).value.0, res);
    DependenciesOfMeshesAt(res.0, s, StreamsEnd(v, p + HeadSize(v) + AlignmentSize(v, sz), StreamCount(res.0)), v, sz);
  }

  // Export of a decoded renderer.

  /** The export node of a renderer: the schema revision and the modes. */
  lemma ExportModeEntries(r: ParticleSystemRenderer, v: Version, exportTopmost: bool)
    requires IsReadUseCustomVertexStreams(v) ==> r.vertexStreams.Some?
    ensures ExportYAMLRoot(r, v, exportTopmost).Some?
    ensures
      var m := ExportYAMLRoot(r, v, exportTopmost).value;
      && |m| == 19
      && m[0] == ("serializedVersion", Int(GetSerializedVersion(exportTopmost, v)))
      && m[1] == ("m_RenderMode", Int(ToInt16(r.renderMode)))
      && m[2] == ("m_SortMode", Int(ToInt16(r.sortMode)))
  {
    hide Node;
  }

  /** The export node of a renderer: the particle sizes and the camera velocity scale. */
  lemma ExportSizeEntries(r: ParticleSystemRenderer, v: Version, exportTopmost: bool)
    requires IsReadUseCustomVertexStreams(v) ==> r.vertexStreams.Some?
    ensures ExportYAMLRoot(r, v, exportTopmost).Some?
    ensures
      var m := ExportYAMLRoot(r, v, exportTopmost).value;
      && |m| == 19
      && m[3] == ("m_MinParticleSize", Float(r.minParticleSize))
      && m[4] == ("m_MaxParticleSize", Float(r.maxParticleSize))
      && m[5] == ("m_CameraVelocityScale", Float(r.cameraVelocityScale))
  {
    hide Node;
  }

  /** The export node of a renderer: the velocity and length scales and the sorting fudge. */
  lemma ExportScaleEntries(r: ParticleSystemRenderer, v: Version, exportTopmost: bool)
    requires IsReadUseCustomVertexStreams(v) ==> r.vertexStreams.Some?
    ensures ExportYAMLRoot(r, v, exportTopmost).Some?
    ensures
      var m := ExportYAMLRoot(r, v, exportTopmost).value;
      && |m| == 19
      && m[6] == ("m_VelocityScale", Float(r.velocityScale))
      && m[7] == ("m_LengthScale", Float(r.lengthScale))
      && m[8] == ("m_SortingFudge", Float(r.sortingFudge))
  {
    hide Node;
  }

  /** The export node of a renderer: the normal direction, the alignment and the streams. */
  lemma ExportStreamEntries(r: ParticleSystemRenderer, v: Version, exportTopmost: bool)
    requires IsReadUseCustomVertexStreams(v) ==> r.vertexStreams.Some?
    ensures ExportYAMLRoot(r, v, exportTopmost).Some?
    ensures
      var m := ExportYAMLRoot(r, v, exportTopmost).value;
      && |m| == 19
      && m[9] == ("m_NormalDirection", Float(if IsReadNormalDirection(v) then r.normalDirection else OneSingle))
      && m[10] == ("m_RenderAlignment", Int(r.renderAlignment))
      && m[11] == ("m_Pivot", Nested(r.pivot.raw))
      && m[12] == ("m_UseCustomVertexStreams", Flag(r.useCustomVertexStreams))
      && m[13] == ("m_VertexStreams",
                   ByteList(if IsReadUseCustomVertexStreams(v) then r.vertexStreams.value else DefaultVertexStreams))
  {
    hide Node;
  }

  /** The export node of a renderer: the meshes and the mask interaction. */
  lemma ExportMeshEntries(r: ParticleSystemRenderer, v: Version, exportTopmost: bool)
    requires IsReadUseCustomVertexStreams(v) ==> r.vertexStreams.Some?
    ensures ExportYAMLRoot(r, v, exportTopmost).Some?
    ensures
      var m := ExportYAMLRoot(r, v, exportTopmost).value;
      && |m| == 19
      && m[14] == ("m_Mesh", Nested(r.mesh.raw))
      && m[15] == ("m_Mesh1", Nested(r.mesh1.raw))
      && m[16] == ("m_Mesh2", Nested(r.mesh2.raw))
      && m[17] == ("m_Mesh3", Nested(r.mesh3.raw))
      && m[18] == ("m_MaskInteraction", Int(r.maskInteraction))
  {
    hide Node;
  }

  /** The export node of a renderer whose stream list is present, entry by entry. */
  lemma ExportEntries(r: ParticleSystemRenderer, v: Version, exportTopmost: bool)
    requires IsReadUseCustomVertexStreams(v) ==> r.vertexStreams.Some?
    ensures ExportYAMLRoot(r, v, exportTopmost).Some?
    ensures
      var m := ExportYAMLRoot(r, v, exportTopmost).value;
      && |m| == 19
      && m[0] == ("serializedVersion", Int(GetSerializedVersion(exportTopmost, v)))
      && m[1] == ("m_RenderMode", Int(ToInt16(r.renderMode)))
      && m[2] == ("m_SortMode", Int(ToInt16(r.sortMode)))
      && m[3] == ("m_MinParticleSize", Float(r.minParticleSize))
      && m[4] == ("m_MaxParticleSize", Float(r.maxParticleSize))
      && m[5] == ("m_CameraVelocityScale", Float(r.cameraVelocityScale))
      && m[6] == ("m_VelocityScale", Float(r.velocityScale))
      && m[7] == ("m_LengthScale", Float(r.lengthScale))
      && m[8] == ("m_SortingFudge", Float(r.sortingFudge))
      && m[9] == ("m_NormalDirection", Float(if IsReadNormalDirection(v) then r.normalDirection else OneSingle))
      && m[10] == ("m_RenderAlignment", Int(r.renderAlignment))
      && m[11] == ("m_Pivot", Nested(r.pivot.raw))
      && m[12] == ("m_UseCustomVertexStreams", Flag(r.useCustomVertexStreams))
      && m[13] == ("m_VertexStreams",
                   ByteList(if IsReadUseCustomVertexStreams(v) then r.vertexStreams.value else DefaultVertexStreams))
      && m[14] == ("m_Mesh", Nested(r.mesh.raw))
      && m[15] == ("m_Mesh1", Nested(r.mesh1.raw))
      && m[16] == ("m_Mesh2", Nested(r.mesh2.raw))
      && m[17] == ("m_Mesh3", Nested(r.mesh3.raw))
      && m[18] == ("m_MaskInteraction", Int(r.maskInteraction))
  {
    hide *;
    ExportModeEntries(r, v, exportTopmost);
    ExportSizeEntries(r, v, exportTopmost);
    ExportScaleEntries(r, v, exportTopmost);
    ExportStreamEntries(r, v, exportTopmost);
    ExportMeshEntries(r, v, exportTopmost);
  }

  /** Exporting a renderer with the version it was decoded with always succeeds, and
      every entry holds the decoded field under its key: the schema revision first,
      the modes cut to int16, the normal direction 1.0 before 4.0, the stream list
      [0, 1, 3, 4, 5] before 5.5, the sub-records as the bytes they were read from. */
  lemma ExportOfRead(s: Source, p: nat, v: Version, sz: SubSizes, exportTopmost: bool)
    requires Read(s, p, v, sz).Some?
    ensures
      var r := Read(s, p, v, sz).value.0;
      ExportYAMLRoot(r, v, exportTopmost).Some?
    ensures
      var r := Read(s, p, v, sz).value.0;
      var m := ExportYAMLRoot(r, v, exportTopmost).value;
      && |m| == 19
      && m[0] == ("serializedVersion", Int(GetSerializedVersion(exportTopmost, v)))
      && m[1] == ("m_RenderMode", Int(ToInt16(r.renderMode)))
      && m[2] == ("m_SortMode", Int(ToInt16(r.sortMode)))
      && m[3] == ("m_MinParticleSize", Float(r.minParticleSize))
      && m[4] == ("m_MaxParticleSize", Float(r.maxParticleSize))
      && m[5] == ("m_CameraVelocityScale", Float(r.cameraVelocityScale))
      && m[6] == ("m_VelocityScale", Float(r.velocityScale))
      && m[7] == ("m_LengthScale", Float(r.lengthScale))
      && m[8] == ("m_SortingFudge", Float(r.sortingFudge))
      && m[9] == ("m_NormalDirection", Float(if IsReadNormalDirection(v) then r.normalDirection else OneSingle))
      && m[10] == ("m_RenderAlignment", Int(r.renderAlignment))
      && m[11] == ("m_Pivot", Nested(r.pivot.raw))
      && m[12] == ("m_UseCustomVertexStreams", Flag(r.useCustomVertexStreams))
      && m[13] == ("m_VertexStreams",
                   ByteList(if IsReadUseCustomVertexStreams(v) then r.vertexStreams.value else DefaultVertexStreams))
      && m[14] == ("m_Mesh", Nested(r.mesh.raw))
      && m[15] == ("m_Mesh1", Nested(r.mesh1.raw))
      && m[16] == ("m_Mesh2", Nested(r.mesh2.raw))
      && m[17] == ("m_Mesh3", Nested(r.mesh3.raw))
      && m[18] == ("m_MaskInteraction", Int(r.maskInteraction))
  {
    hide Read, ReadHead, ReadAfterHead, ReadAlignment, ReadStreamsAndMeshes, ReadVertexStreams, ReadMeshes,
      ExportYAMLRoot;
    ReadWellFormed(s, p, v, sz);
    ExportEntries(Read(s, p, v, sz).value.0, v, exportTopmost);
  }

  /** The exported modes as the bytes hold them: from 5.3 on the uint16 read as a
      signed 16-bit value (65535 exports as -1), before 5.3 the low 16 bits of the
      int32. */
  lemma ExportedModesOfRead(s: Source, p: nat, v: Version, sz: SubSizes, exportTopmost: bool)
    requires Read(s, p, v, sz).Some?
    ensures p + HeadSize(v) <= |s.data|
    ensures
      var m := ExportYAMLRoot(Read(s, p, v, sz).value.0, v, exportTopmost);
      && m.Some? && |m.value| == 19
      && (IsModeShort(v) ==>
            var render := UInt16At(s, p) as int;
            var sort := UInt16At(s, p + 2) as int;
            && m.value[1].1 == Int(if render < 0x8000 then render else render - 0x1_0000)
            && m.value[2].1 == Int(if sort < 0x8000 then sort else sort - 0x1_0000))
      && (!IsModeShort(v) ==>
            && m.value[1].1 == Int(ToInt16(Int32At(s, p) as int))
            && m.value[2].1 == Int(ToInt16(Int32At(s, p + ModesSize(v) + ScalesSize(v)) as int)))
  {
    hide *;
    ModesOfRead(s, p, v, sz);
    ExportOfRead(s, p, v, sz, exportTopmost);
    var r := Read(s, p, v, sz).value.0;
    ToInt16OfShort(r.renderMode);
    ToInt16OfShort(r.sortMode);
  }

  /** The mesh entries of the export hold the renderer's dependencies: m_Mesh the
      first one, and from 4.0 on m_Mesh1 to m_Mesh3 the other three, in order. */
  lemma ExportedMeshesAreDependencies(r: ParticleSystemRenderer, v: Version, exportTopmost: bool)
    requires ExportYAMLRoot(r, v, exportTopmost).Some?
    ensures
      var m := ExportYAMLRoot(r, v, exportTopmost).value;
      var deps := FetchDependencies(r, v);
      && |m| == 19
      && forall i :: 0 <= i < |deps| ==> m[14 + i] == (RendererKeys[13 + i], Nested(deps[i].raw))
  {
    hide ExportYAMLRoot;
    ExportMeshEntries(r, v, exportTopmost);
  }

  // Sizes.

  /** Bytes the renderer's own part takes, version range by version range, for a part
      starting at p with n streams: the layout as a table. */
  lemma EndPosTable(v: Version, sz: SubSizes, p: nat, n: nat)
    ensures v.major < 4 ==> EndPos(v, sz, p, n) == p + 28 + sz.pptr
    ensures v.major == 4 || (v.major == 5 && v.minor < 3) ==> EndPos(v, sz, p, n) == p + 32 + 4 * sz.pptr
    ensures v.major == 5 && 3 <= v.minor < 5 ==> EndPos(v, sz, p, n) == p + 36 + sz.vector3f + 4 * sz.pptr
    ensures v.major == 5 && v.minor == 5 ==>
      EndPos(v, sz, p, n) == RoundUp4(p + 37 + sz.vector3f) + 4 + 4 * sz.pptr
    ensures v.major > 5 || (v.major == 5 && v.minor >= 6) ==>
      EndPos(v, sz, p, n) ==
        RoundUp4(RoundUp4(p + 37 + sz.vector3f) + 4 + n) + 4 * sz.pptr + Width(IsReadMaskInteraction(v), 4)
  {
  }
}
