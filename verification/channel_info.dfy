/** ChannelInfo: where one vertex attribute of a mesh lives — its stream, its byte
    offset in that stream, its element format and its number of components. */
module ChannelInfos {
  import opened Options
  import opened Bytes
  import opened Cursors
  import opened Yaml

  /** A ChannelFormat as the byte it is stored as; the named formats are not part of
      this model. */
  datatype ChannelFormat = ChannelFormat(code: byte)

  datatype ChannelInfo = ChannelInfo(stream: byte, offset: byte, format: ChannelFormat, dimension: byte)

  lemma ModShift256(x: int, k: int)
    ensures (x + 256 * k) % 256 == x % 256
  {
  }

  /** The byte size of `dimension` elements of `format`, as a byte. `size` stands for
      ChannelFormat.GetSize, whose table is not part of this model. The int product
      wraps at 32 bits and the byte cast keeps its low 8 bits, which together leave
      the product modulo 256. */
  function CalculateStride(size: ChannelFormat -> nat, format: ChannelFormat, dimension: int): (r: byte)
    ensures r == (size(format) * dimension) % 256
  {
    var x := size(format) * dimension;
    var wrapped := WrapInt32(x);
    var k := (wrapped - x) / 0x1_0000_0000;
    assert wrapped == x + 256 * (0x100_0000 * k);
    ModShift256(x, 0x100_0000 * k);
    wrapped % 256
  }

  /** The stride of this channel: zero when it has no components, and the exact
      byte size whenever that is below 256. */
  function GetStride(size: ChannelFormat -> nat, ci: ChannelInfo): (r: byte)
    ensures r == (size(ci.format) * ci.dimension) % 256
    ensures ci.dimension == 0 ==> r == 0
    ensures size(ci.format) * ci.dimension < 256 ==> r == size(ci.format) * ci.dimension
  {
    CalculateStride(size, ci.format, ci.dimension)
  }

  /** A channel is in use exactly when it has at least one component. */
  predicate IsSet(ci: ChannelInfo) {
    ci.dimension > 0
  }

  /** A channel that is not in use takes no room in its stream. */
  lemma UnsetChannelHasNoStride(size: ChannelFormat -> nat, ci: ChannelInfo)
    ensures !IsSet(ci) <==> ci.dimension == 0
    ensures !IsSet(ci) ==> GetStride(size, ci) == 0
  {
  }

  /** Four single bytes: stream, offset, format, dimension. */
  function Read(s: Source, p: nat): (r: Option<(ChannelInfo, nat)>)
    ensures r.Some? <==> p + 4 <= |s.data|
    ensures r.Some? ==> r.value.1 == p + 4
    ensures r.Some? ==>
      r.value.0 == ChannelInfo(s.data[p], s.data[p + 1], ChannelFormat(s.data[p + 2]), s.data[p + 3])
  {
    var stream :- ReadByte(s, p);
    var offset :- ReadByte(s, stream.1);
    var format :- ReadByte(s, offset.1);
    var dimension :- ReadByte(s, format.1);
    Some((ChannelInfo(stream.0, offset.0, ChannelFormat(format.0), dimension.0), dimension.1))
  }

  /** The four bytes Read decodes into ci. */
  function Write(ci: ChannelInfo): (bs: seq<byte>)
    ensures |bs| == 4
  {
    [ci.stream, ci.offset, ci.format.code, ci.dimension]
  }

  lemma ReadOfWrite(s: Source, p: nat, ci: ChannelInfo)
    requires At(s, p, Write(ci))
    ensures Read(s, p) == Some((ci, p + 4))
  {
    var w := Write(ci);
    assert s.data[p] == w[0] && s.data[p + 1] == w[1];
    assert s.data[p + 2] == w[2] && s.data[p + 3] == w[3];
  }

  const ExportKeys: seq<string> := ["stream", "offset", "format", "dimension"]

  /** The export node: the four fields in declaration order, format as its byte. */
  function ExportYAML(ci: ChannelInfo): (m: seq<Entry>)
    ensures Keys(m) == ExportKeys
  {
    Node(ExportKeys, [Int(ci.stream), Int(ci.offset), Int(ci.format.code), Int(ci.dimension)])
  }

  /** Reading then exporting shows the four bytes read, in the order they were read. */
  lemma ExportOfRead(s: Source, p: nat)
    requires p + 4 <= |s.data|
    ensures Read(s, p).Some?
    ensures ExportYAML(Read(s, p).value.0) ==
      [("stream", Int(s.data[p])), ("offset", Int(s.data[p + 1])),
       ("format", Int(s.data[p + 2])), ("dimension", Int(s.data[p + 3]))]
  {
  }
}
