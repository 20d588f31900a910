# ParticleSystemRenderer and ChannelInfo, modelled in Dafny

This project models two serialized classes of uTinyRipper, a tool that reads Unity
asset files and exports them as Unity YAML.

- **ParticleSystemRenderer** is the particle-specific part of a particle renderer
  component. The model covers:
  - the version gates that decide which fields a file of a given Unity version stores;
  - the binary decoder (`Read`);
  - the references the renderer depends on (`FetchDependencies`);
  - the YAML export node (`ExportYAMLRoot`) with its schema revision (`GetSerializedVersion`);
  - the export defaults for fields old versions did not store (`GetNormalDirection`,
    `GetVertexStreams`).
- **ChannelInfo** describes where one vertex attribute of a mesh lives. The model covers:
  - its stride (`CalculateStride`, `GetStride`);
  - its 4-byte record (`Read`);
  - its export node (`ExportYAML`);
  - the "in use" test (`IsSet`).

## Modules

| file | module | what it holds |
|---|---|---|
| options.dfy | `Options` | The `Option` failure-compatible type. |
| bytes.dfy | `Bytes` | Bytes, little/big-endian values, int32/int16 wrap-around, float bits. |
| versions.dfy | `Versions` | Unity versions `major.minor.patch` plus a release kind and build, and the ordering. |
| cursor.dfy | `Cursors` | The reader: a byte sequence with an endianness, read at an absolute position. It also holds the matching encoders. |
| yaml.dfy | `Yaml` | An export node as an ordered list of key/value entries. |
| vertex_stream_mask.dfy | `VertexStreamMask` | Decoding the 5.5-line stream bitmask. |
| channel_info.dfy | `ChannelInfos` | ChannelInfo. |
| particle_system_renderer.dfy | `ParticleSystemRenderers` | Gates, the staged decoder, dependencies and export. |
| particle_system_renderer_layout.dfy | `ParticleSystemRendererLayout` | The decoder's partner. It holds the well-formed renderers and a reference encoder. It also holds the per-stage "decoding what was written" lemmas. |
| particle_system_renderer_properties.dfy | `ParticleSystemRendererProperties` | Whole-record properties. These cover the round trip, well-formedness of decoded renderers, where each field comes from, the dependencies and export of a decoded renderer, and the size table. |

### The decoder

The decoder is written as a chain of stages. Each stage returns the renderer filled in
so far and the position after it, or `None` when the input is too short:

1. the head: render mode, sort mode, sizes and scales, and the late sort mode before 5.3;
2. the render alignment and pivot;
3. the stream part: the custom-vertex-streams flag, padding, and the list or bitmask;
4. the meshes and the mask interaction.

Positions are absolute offsets into the stream, so `AlignStream(Align4)` rounds the
position itself up to a multiple of 4.

### Design choices

- **Sub-records.** The renderer's `Vector3f` pivot and `PPtr<Mesh>` references are
  read as opaque byte slices. Their widths are the `SubSizes` parameter.
- **Floats** are kept as their 32-bit patterns (`Single`).
- **Defaults.** A field that a version does not store keeps the value the C# object
  starts with: zero, a null reference, or a null stream array (`None`). The one
  exception is the render alignment: before 5.3 it is derived from the render mode,
  Local for mesh particles and View otherwise.

## Model

| member | source | states |
|---|---|---|
| Versions.ReleaseThreshold | uTinyRipperCore/Parser/Classes/ParticleSystemRenderer/ParticleSystemRenderer.cs:22-61 | A threshold given only as major.minor is reached exactly when (major, minor) is at least the threshold's. Both directions are stated, for `IsGreaterEqual` and for `IsLess`. |
| Versions.GreaterEqualMonotone | uTinyRipperCore/Parser/Classes/ParticleSystemRenderer/ParticleSystemRenderer.cs:19-83 | A version at or above a threshold stays at or above it for every later version. |
| Versions.AtMostTotal | uTinyRipperCore/Parser/Classes/ParticleSystemRenderer/ParticleSystemRenderer.cs:52 | Any two versions are ordered, and `a <= b <= a` only when they are the same version. |
| Versions.AtMostTransitive | uTinyRipperCore/Parser/Classes/ParticleSystemRenderer/ParticleSystemRenderer.cs:52 | The version order is transitive. |
| Versions.Compare | uTinyRipperCore/Parser/Classes/ParticleSystemRenderer/ParticleSystemRenderer.cs:67 | The comparison is -1, 0 or 1, and 0 exactly for equal versions, release kind and build included. |
| ParticleSystemRenderers.IsReadMinParticleSize | uTinyRipperCore/Parser/Classes/ParticleSystemRenderer/ParticleSystemRenderer.cs:22-25 | True exactly from 5.3 on. |
| ParticleSystemRenderers.IsReadNormalDirection | uTinyRipperCore/Parser/Classes/ParticleSystemRenderer/ParticleSystemRenderer.cs:29-32 | True exactly from 4.0 on. |
| ParticleSystemRenderers.IsReadRenderAlignment | uTinyRipperCore/Parser/Classes/ParticleSystemRenderer/ParticleSystemRenderer.cs:36-39 | True exactly from 5.3 on. |
| ParticleSystemRenderers.IsReadUseCustomVertexStreams | uTinyRipperCore/Parser/Classes/ParticleSystemRenderer/ParticleSystemRenderer.cs:43-46 | True exactly from 5.5 on. |
| ParticleSystemRenderers.IsReadVertexStreamMask | uTinyRipperCore/Parser/Classes/ParticleSystemRenderer/ParticleSystemRenderer.cs:50-53 | True exactly for the 5.5 release line: major 5, minor 5. |
| ParticleSystemRenderers.IsReadMeshes | uTinyRipperCore/Parser/Classes/ParticleSystemRenderer/ParticleSystemRenderer.cs:58-61 | True exactly from 4.0 on. |
| ParticleSystemRenderers.IsReadMaskInteraction | uTinyRipperCore/Parser/Classes/ParticleSystemRenderer/ParticleSystemRenderer.cs:65-68 | True exactly from 2017.1.0b2 on, spelled out field by field: a later release, a later kind than Beta, or Beta build 2 or more. |
| ParticleSystemRenderers.IsModeShort | uTinyRipperCore/Parser/Classes/ParticleSystemRenderer/ParticleSystemRenderer.cs:73-76 | True exactly from 5.3 on. |
| ParticleSystemRenderers.IsSortModeFirst | uTinyRipperCore/Parser/Classes/ParticleSystemRenderer/ParticleSystemRenderer.cs:80-83 | True exactly from 5.3 on. |
| ParticleSystemRenderers.GetSerializedVersion | uTinyRipperCore/Parser/Classes/ParticleSystemRenderer/ParticleSystemRenderer.cs:85-105 | The revision is always 1 to 4, and 4 whenever the topmost-revision setting is on. |
| ParticleSystemRenderers.SerializedVersionRule | uTinyRipperCore/Parser/Classes/ParticleSystemRenderer/ParticleSystemRenderer.cs:92-104 | Without the setting, the revision is at least 2 exactly from 5.5 on, at least 3 exactly from 5.6 on, and 4 exactly from 2017.1.0b2 on. |
| ParticleSystemRenderers.SerializedVersionMonotone | uTinyRipperCore/Parser/Classes/ParticleSystemRenderer/ParticleSystemRenderer.cs:85-105 | A later version never gets a lower revision. |
| ParticleSystemRenderers.ReadEnum | uTinyRipperCore/Parser/Classes/ParticleSystemRenderer/ParticleSystemRenderer.cs:111 | An enum is a uint16 when short and an int32 otherwise. The read succeeds exactly when those bytes exist, and consumes exactly them. |
| ParticleSystemRenderers.ReadModes | uTinyRipperCore/Parser/Classes/ParticleSystemRenderer/ParticleSystemRenderer.cs:111-115 | The render mode comes first. From 5.3 on, both modes are uint16 and the sort mode follows right after. Before 5.3, the render mode is an int32 alone. The read succeeds iff the bytes exist, and no other field changes. |
| ParticleSystemRenderers.ReadFiveSingles | uTinyRipperCore/Parser/Classes/ParticleSystemRenderer/ParticleSystemRenderer.cs:121-125 | The five floats are read at offsets 0, 4, 8, 12 and 16, and the read succeeds iff 20 bytes exist. |
| ParticleSystemRenderers.ReadScales | uTinyRipperCore/Parser/Classes/ParticleSystemRenderer/ParticleSystemRenderer.cs:117-130 | The layout is: the min particle size from 5.3 on, then the five floats, then the normal direction from 4.0 on. Fields that are not stored are untouched. The read succeeds iff the bytes exist. |
| ParticleSystemRenderers.ReadLateSortMode | uTinyRipperCore/Parser/Classes/ParticleSystemRenderer/ParticleSystemRenderer.cs:131-134 | Before 5.3, the sort mode is the int32 at this position. From 5.3 on, nothing is read. Only the sort mode changes. |
| ParticleSystemRenderers.ReadHead | uTinyRipperCore/Parser/Classes/ParticleSystemRenderer/ParticleSystemRenderer.cs:111-134 | The head succeeds exactly when its version-dependent size fits, and it ends at `p + HeadSize(v)`. |
| ParticleSystemRenderers.DefaultRenderAlignment | uTinyRipperCore/Parser/Classes/ParticleSystemRenderer/ParticleSystemRenderer.cs:143 | The implied alignment is Local exactly for mesh particles and View for every other mode. |
| ParticleSystemRenderers.ReadAlignment | uTinyRipperCore/Parser/Classes/ParticleSystemRenderer/ParticleSystemRenderer.cs:136-144 | From 5.3 on, the alignment is an int32 followed by the pivot bytes. Before 5.3, the alignment is implied by the render mode, the pivot is the zero vector a fresh object holds, and nothing is read. No field other than the alignment and pivot changes. |
| ParticleSystemRenderers.ReadStreamList | uTinyRipperCore/Parser/Classes/ParticleSystemRenderer/ParticleSystemRenderer.cs:151-168 | In the 5.5 line, the list is the bitmask's streams and the read succeeds iff 4 bytes exist. After 5.5, it is the byte array behind an int32 count: the read succeeds iff the count is not negative and that many bytes follow it, the list has exactly that many bytes, and the position is aligned to 4 after it. |
| ParticleSystemRenderers.StreamsEndAligned | uTinyRipperCore/Parser/Classes/ParticleSystemRenderer/ParticleSystemRenderer.cs:149-167 | From 5.5 on, the stream part always ends on a 4-byte boundary. |
| ParticleSystemRenderers.ReadVertexStreams | uTinyRipperCore/Parser/Classes/ParticleSystemRenderer/ParticleSystemRenderer.cs:146-169 | Before 5.5, nothing is read, the flag is false and the list is null. From 5.5 on, the flag byte is read, then the list at the next multiple of 4. The part ends at `StreamsEnd`. The part succeeds iff its bytes exist: in the 5.5 line a fixed width, after 5.5 a non-negative stored count and that many bytes. |
| ParticleSystemRenderers.ReadPPtr | uTinyRipperCore/Parser/Classes/ParticleSystemRenderer/ParticleSystemRenderer.cs:171 | A reference is the next `pptr` bytes, and the read succeeds iff they exist. |
| ParticleSystemRenderers.ReadExtraMeshes | uTinyRipperCore/Parser/Classes/ParticleSystemRenderer/ParticleSystemRenderer.cs:172-177 | From 4.0 on, three more references are read in order. Before 4.0, they are the null references a fresh object holds and nothing is read. |
| ParticleSystemRenderers.ReadMeshes | uTinyRipperCore/Parser/Classes/ParticleSystemRenderer/ParticleSystemRenderer.cs:171-181 | The layout is: the mesh, the three further meshes from 4.0 on, then the int32 mask interaction from 2017.1.0b2 on. A version that does not store them gets null references and a mask interaction of 0, the values a fresh object holds. The read succeeds iff the bytes exist. No field other than the four meshes and the mask interaction changes. |
| ParticleSystemRenderers.ReadStreamsAndMeshes | uTinyRipperCore/Parser/Classes/ParticleSystemRenderer/ParticleSystemRenderer.cs:146-181 | The end position is determined by the number of streams. With a fixed-width stream part, it succeeds iff the source is long enough. After 5.5, it succeeds iff the stored stream count is not negative and the source is long enough for that count. |
| ParticleSystemRenderers.ReadAfterHeadEnds | uTinyRipperCore/Parser/Classes/ParticleSystemRenderer/ParticleSystemRenderer.cs:136-181 | Everything after the head ends at `AfterHeadEnd`, which is determined by the number of streams. |
| ParticleSystemRenderers.ReadAfterHeadSucceedsIff | uTinyRipperCore/Parser/Classes/ParticleSystemRenderer/ParticleSystemRenderer.cs:136-181 | With a fixed-width stream part, the rest succeeds iff the source is long enough. After 5.5, it succeeds iff the stored stream count is not negative and the source is long enough for that count. |
| ParticleSystemRenderers.ReadEnds | uTinyRipperCore/Parser/Classes/ParticleSystemRenderer/ParticleSystemRenderer.cs:107-182 | A successful decode stops at `EndPos`, the record's size for its version and stream count. |
| ParticleSystemRenderers.ReadSucceedsIff | uTinyRipperCore/Parser/Classes/ParticleSystemRenderer/ParticleSystemRenderer.cs:107-182 | Before 5.5 and in the 5.5 line, the decode fails exactly when the source is shorter than the record. From 5.6 on, it fails exactly when the stored stream count is negative or the source is shorter than the record for that count. |
| ParticleSystemRenderers.FetchDependencies | uTinyRipperCore/Parser/Classes/ParticleSystemRenderer/ParticleSystemRenderer.cs:191-197 | The renderer's own dependencies are `m_Mesh` first. From 4.0 on, they are followed by `m_Mesh1` to `m_Mesh3`, in that order. There is one reference before 4.0 and four after. |
| ParticleSystemRenderers.GetNormalDirection | uTinyRipperCore/Parser/Classes/ParticleSystemRenderer/ParticleSystemRenderer.cs:225-228 | The exported normal direction is the stored one from 4.0 on and 1.0 before. |
| ParticleSystemRenderers.GetVertexStreams | uTinyRipperCore/Parser/Classes/ParticleSystemRenderer/ParticleSystemRenderer.cs:229-232 | The exported stream list is the stored one from 5.5 on, null included, and [0, 1, 3, 4, 5] before. |
| ParticleSystemRenderers.ExportYAMLRoot | uTinyRipperCore/Parser/Classes/ParticleSystemRenderer/ParticleSystemRenderer.cs:200-232 | Export fails only when the stream list to export is the null array. The keys are the schema revision first and then the same 18 renderer keys in the same order, for every version. |
| VertexStreamMask.MaskStreams | uTinyRipperCore/Parser/Classes/ParticleSystemRenderer/ParticleSystemRenderer.cs:153-162 | At most 8 streams, each below 8, strictly increasing. A stream is listed exactly when its bit is set. |
| VertexStreamMask.CollectMaskStreams | uTinyRipperCore/Parser/Classes/ParticleSystemRenderer/ParticleSystemRenderer.cs:154-162 | The source's loop over bits 0 to 7 collects exactly `MaskStreams(mask)`, and a stream is listed iff its bit is set. |
| VertexStreamMask.MaskIgnoresHighBits | uTinyRipperCore/Parser/Classes/ParticleSystemRenderer/ParticleSystemRenderer.cs:155-157 | Only the low 8 bits of the int32 mask matter. This includes negative masks. |
| VertexStreamMask.MaskStreamsOfMask | uTinyRipperCore/Parser/Classes/ParticleSystemRenderer/ParticleSystemRenderer.cs:153-162 | Every strictly increasing list of streams below 8 is what its own mask decodes to. So the mask form loses nothing. |
| VertexStreamMask.IncreasingUnique | uTinyRipperCore/Parser/Classes/ParticleSystemRenderer/ParticleSystemRenderer.cs:155-161 | Two strictly increasing lists with the same members are equal. So the loop's output is fixed by which bits are set. |
| ParticleSystemRendererLayout.ModesOfWrite | uTinyRipperCore/Parser/Classes/ParticleSystemRenderer/ParticleSystemRenderer.cs:111-115 | Reading the encoded modes gives them back and consumes exactly their bytes. |
| ParticleSystemRendererLayout.ScalesOfWrite | uTinyRipperCore/Parser/Classes/ParticleSystemRenderer/ParticleSystemRenderer.cs:117-130 | Reading the encoded sizes and scales gives back the fields the version stores. |
| ParticleSystemRendererLayout.HeadOfWrite | uTinyRipperCore/Parser/Classes/ParticleSystemRenderer/ParticleSystemRenderer.cs:111-134 | Reading an encoded head gives back its fields and ends at `p + HeadSize(v)`. |
| ParticleSystemRendererLayout.AlignmentOfWrite | uTinyRipperCore/Parser/Classes/ParticleSystemRenderer/ParticleSystemRenderer.cs:136-144 | Reading an encoded alignment part gives back the alignment and pivot. |
| ParticleSystemRendererLayout.StreamListOfWrite | uTinyRipperCore/Parser/Classes/ParticleSystemRenderer/ParticleSystemRenderer.cs:151-168 | Reading an encoded stream list gives it back, both as a bitmask in the 5.5 line and as a byte array after it. |
| ParticleSystemRendererLayout.VertexStreamsOfWrite | uTinyRipperCore/Parser/Classes/ParticleSystemRenderer/ParticleSystemRenderer.cs:146-169 | Reading an encoded stream part gives back the flag and the list, and ends at `StreamsEnd`. |
| ParticleSystemRendererLayout.MeshesOfWrite | uTinyRipperCore/Parser/Classes/ParticleSystemRenderer/ParticleSystemRenderer.cs:171-181 | Reading encoded meshes gives back the four references and the mask interaction the version stores. |
| ParticleSystemRendererProperties.ReadOfWrite | uTinyRipperCore/Parser/Classes/ParticleSystemRenderer/ParticleSystemRenderer.cs:107-182 | Decoding the bytes the reference encoder wrote for a well-formed renderer gives that renderer back, and stops right after those bytes. |
| ParticleSystemRendererProperties.ReadWellFormed | uTinyRipperCore/Parser/Classes/ParticleSystemRenderer/ParticleSystemRenderer.cs:107-182 | Every decoded renderer is well-formed: enums fit their width, and the fields the version does not store hold their defaults. So every decoded renderer is in the domain of `ReadOfWrite`. |
| ParticleSystemRendererProperties.ModesOfRead | uTinyRipperCore/Parser/Classes/ParticleSystemRenderer/ParticleSystemRenderer.cs:111-134 | In a decoded renderer, the render mode is the first field. The sort mode is read once: as a uint16 after the render mode from 5.3 on, or as an int32 after the normal direction before. |
| ParticleSystemRendererProperties.ScalesOfRead | uTinyRipperCore/Parser/Classes/ParticleSystemRenderer/ParticleSystemRenderer.cs:117-130 | The size and scale floats come from their positions after the modes. Min particle size and normal direction read as zero in versions that do not store them. |
| ParticleSystemRendererProperties.AlignmentOfRead | uTinyRipperCore/Parser/Classes/ParticleSystemRenderer/ParticleSystemRenderer.cs:136-144 | From 5.3 on, the alignment and pivot come from right after the head. Before 5.3, the alignment is Local iff the render mode is Mesh. |
| ParticleSystemRendererProperties.VertexStreamsOfRead | uTinyRipperCore/Parser/Classes/ParticleSystemRenderer/ParticleSystemRenderer.cs:146-169 | Before 5.5, the list is null. From 5.5 on, the flag is the byte after the alignment part, and the list is read at the next multiple of 4. In the 5.5 line, the list is the streams of that int32 mask. |
| ParticleSystemRendererProperties.DependenciesOfRead | uTinyRipperCore/Parser/Classes/ParticleSystemRenderer/ParticleSystemRenderer.cs:171-197 | The dependencies of a decoded renderer are exactly the reference slices stored right after its stream part, in stored order. The mask interaction follows them. |
| ParticleSystemRendererProperties.ExportEntries | uTinyRipperCore/Parser/Classes/ParticleSystemRenderer/ParticleSystemRenderer.cs:200-232 | For a renderer whose stream list is present, the node holds 19 entries. Each entry is its key paired with its field: the schema revision first, the modes cut to int16, the scalars, the normal direction (1.0 before 4.0), the alignment, the pivot, the flag, the stream list ([0, 1, 3, 4, 5] before 5.5), the four meshes and the mask interaction. |
| ParticleSystemRendererProperties.ExportOfRead | uTinyRipperCore/Parser/Classes/ParticleSystemRenderer/ParticleSystemRenderer.cs:200-232 | Exporting with the version a renderer was decoded with always succeeds. All 19 entries hold the decoded fields under their keys, in the order of the export. |
| ParticleSystemRendererProperties.ExportedModesOfRead | uTinyRipperCore/Parser/Classes/ParticleSystemRenderer/ParticleSystemRenderer.cs:204-205 | The exported modes of a decoded renderer, in terms of the stored bytes: from 5.3 on, the uint16 read as a signed 16-bit value; before 5.3, the int32 cut to 16 bits. |
| ParticleSystemRendererProperties.ExportedMeshesAreDependencies | uTinyRipperCore/Parser/Classes/ParticleSystemRenderer/ParticleSystemRenderer.cs:191-197 | The exported `m_Mesh` to `m_Mesh3` entries hold exactly the references `FetchDependencies` yields, in the same order. Before 4.0, only `m_Mesh` is a dependency. |
| ParticleSystemRendererProperties.EndPosTable | uTinyRipperCore/Parser/Classes/ParticleSystemRenderer/ParticleSystemRenderer.cs:107-182 | The record's byte size for each version range: below 4.0, 4.0 to 5.2, 5.3 to 5.4, the 5.5 line, and 5.6 on. The 5.5 and later rows include the padding to 4. |
| Cursors.ReadByteArray | uTinyRipperCore/Parser/Classes/ParticleSystemRenderer/ParticleSystemRenderer.cs:166 | The read succeeds iff the int32 count exists, is not negative, and that many bytes follow it. The array is exactly those bytes, and the position moves past them. |
| Bytes.ToInt16OfShort | uTinyRipperCore/Parser/Classes/ParticleSystemRenderer/ParticleSystemRenderer.cs:204-205 | The `(short)` cast keeps every int16 value and maps the upper half of the uint16 range to the negative values. |
| ChannelInfos.CalculateStride | uTinyRipperCore/Parser/Classes/Mesh/ChannelInfo.cs:17-20 | The stride is the format's size times the dimension, modulo 256. This holds after the int32 wrap-around of the product and the byte cast. |
| ChannelInfos.GetStride | uTinyRipperCore/Parser/Classes/Mesh/ChannelInfo.cs:22-25 | A channel's stride is 0 when it has no components, and exact whenever the product is below 256. |
| ChannelInfos.UnsetChannelHasNoStride | uTinyRipperCore/Parser/Classes/Mesh/ChannelInfo.cs:50 | A channel is unset exactly when its dimension is 0, and an unset channel has stride 0. |
| ChannelInfos.Read | uTinyRipperCore/Parser/Classes/Mesh/ChannelInfo.cs:27-33 | The read succeeds iff 4 bytes exist. The record is stream, offset, format and dimension, one byte each, in that order, and exactly 4 bytes are consumed. |
| ChannelInfos.ReadOfWrite | uTinyRipperCore/Parser/Classes/Mesh/ChannelInfo.cs:27-33 | Reading the four bytes of a channel gives it back. |
| ChannelInfos.ExportYAML | uTinyRipperCore/Parser/Classes/Mesh/ChannelInfo.cs:35-43 | The node's keys are stream, offset, format and dimension, in that order. |
| ChannelInfos.ExportOfRead | uTinyRipperCore/Parser/Classes/Mesh/ChannelInfo.cs:27-43 | Reading and then exporting shows the four bytes read, under their keys, in read order, with the format as its byte. |

## Left out

- Renderer base class: `base.Read`, `base.FetchDependencies` and `base.ExportYAMLRoot` belong to the shared Renderer part, which is not part of this model. `Read` models the particle-specific part that starts where the base part ends.
- Vector3f and PPtr internals: their own formats are not part of this model. They are read as opaque slices of the widths given in `SubSizes`.
- FetchDependency resolution and logging: resolving a reference against the loaded files, and the log output, need the file collection. `FetchDependencies` returns the references themselves.
- YAML node internals: `YAMLMappingNode` and `InsertSerializedVersion` are modelled as an ordered key/value list with the revision inserted first. Scalar formatting is not modelled.
- Float semantics: floats are kept as raw 32-bit patterns. Nothing in the core does arithmetic on them.
- Version comparison: Version.cs is not part of this model. Versions compare by major, minor, patch, release type (Alpha < Beta < Final < Patch < China) and build, in that order. A threshold written as major.minor is completed with the least remaining values.
- `Config.IsExportTopmostSerializedVersion` is global configuration. It becomes the `exportTopmost` parameter.
- `ChannelFormat.GetSize` has a table that is not part of this model. It becomes the `size` parameter, and channel formats are kept as their stored byte.
- `ToString` of ChannelInfo only produces debug text.
- The ChannelInfo constructor is the datatype constructor `ChannelInfo(stream, offset, format, dimension)`, which stores its four arguments unchanged.
- Enum values: the enum declarations are not part of this model. The values used are Unity's public ones: ParticleSystemRenderMode.Mesh = 4, ParticleSystemRenderSpace.View = 0 and Local = 2.
- uTinyRipper's reader: its `ReadByteArray` and `AlignStream` are not part of this model. Three assumptions are made about them (used at ParticleSystemRenderer.cs:149 and 166-167):
  - the array is an int32 count followed by that many bytes;
  - a negative count or a short buffer fails the read;
  - alignment rounds the absolute position up to a multiple of 4.
- Null stream array: exporting with a version of 5.5 or later a renderer whose stream array is null (decoded below 5.5) would hand a null array on. The model returns `None` for that export.
- Byte-exact re-encoding: the reference encoder writes the boolean as 0 or 1 and writes zero padding. Inputs with other flag bytes or padding decode to the same renderer but do not re-encode to the same bytes. So the round trip is stated from renderer to bytes to renderer.
- ParticleSystemRenderers.Read and ParticleSystemRenderers.ReadAfterHead carry no contract of their own. Their end position, failure condition and field contents are stated by the `ReadEnds`, `ReadSucceedsIff` and `*OfRead` lemmas.
- Export casts: the `(short)` casts on the modes are modelled as int16 wrap-around (`ToInt16`). The `(int)`/`(byte)` casts of already in-range enum values are identity.
- ParticleSystemRenderers.ReadAlignment, ReadVertexStreams and ReadMeshes: for a field the version does not store, the C# leaves the field as it is, while these stages set it to the value a fresh object holds (zero pivot, a false flag and a null stream array, null meshes, mask interaction 0). The decoded renderer is the same, because the decoder starts from the blank renderer and no earlier stage writes these fields.
