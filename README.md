# BOM binary decoder, modelled in Dafny

This project models `THREE.BOMLoader.prototype.parse` from bom-three.js
(`examples/js/loaders/BOMLoader.js`). The function decodes a BOM file:
- a 6-byte header;
- an optional material library;
- assets made of objects;
- objects made of an optional shared vertex block plus groups.

It decodes forward, in one pass, with a single byte cursor. The output is
either one THREE.Group holding every mesh, or an array with one group per
asset (`responseType === 'array'`).

The model has three layers:

- **Byte layout** (`bom_layout.dfy`, module `BomLayout`).
  - Each record X is a pure function `XAt(d, p, ...)`. It returns the decoded
    value and the offset where the record ends, or the error that aborts the
    decode.
  - A JavaScript `RangeError` from an out-of-bounds `DataView` or typed-array
    read becomes `Truncated`.
  - The `TypeError` from `materials[id].clone()` with an id past the library
    becomes `NoSuchMaterial`.
  - `Decode(d, isAssetArray)` is the value `parse` returns.
  - THREE objects are replaced by plain datatypes (`bom_format.dfy`).
  - Float32 fields are kept as opaque 32-bit words, and strings as raw bytes.
- **Imperative decoder** (`bom_cursor.dfy`, `bom_loader.dfy`).
  - The class `BomCursor.Cursor` holds the buffer and the mutable `pos`.
  - Its read methods are the source's read helpers, including the aligned
    view path and the unaligned element loop of both typed-array readers.
  - The methods in `BomLoader` walk the records in the order `parse` reads
    them. Each one is proved to return what the matching layout function says
    and to leave `pos` at the end it names.
  - `BomLoader.Parse` is proved equal to `BomLayout.Decode`.
- **Group variables** (`Hoisted`, `Carried` and `Scope` in `bom_format.dfy`).
  - `parse` declares `groupName` (line 620), `indices` (line 631) and
    `material` (line 654) with `var` inside the group loop. A `var` belongs to
    the whole function, so these are never reset between groups, objects or
    assets.
  - A group whose NAME, INDEX or MATERIAL bit is clear keeps what an earlier
    group left there.
  - Before any group reads a material id, `material` still holds the last
    material the library loop built (line 502). A mesh then gets that library
    object itself, unshaded: the `Instance` case of `MeshMaterial`.
  - Every group, object and asset function takes the variables as it finds
    them (`Hoisted`) and returns them as it leaves them (`Carried`). `Start`
    gives their value before the first group.
  - `Scope` chooses where they live. `FunctionScope` is the code as written,
    and `Decode` and `Parse` use it. `GroupScope` starts every group with
    nothing, which is how the per-group declarations read. `DecodePerGroup`
    uses it.
- **Properties** (`bom_properties.dfy`, `bom_trailing.dfy`, `bom_truncation.dfy`).
  - Widths, gating, record shapes and the assembled scene, all stated about
    the layout functions.
  - Trailing bytes are ignored.
  - A buffer cut anywhere before the end of a file that decodes fails with
    `Truncated`. It never decodes to a different scene, and never fails with
    `NoSuchMaterial`.
  - `bom_runs.dfy` holds the one-record step lemmas shared by the loops and the
    inductive proofs.
- **Findings** (`bom_findings.dfy`).
  - Two small files decode differently in the two scopes.
  - The lemmas there prove what the per-group reading promises.

## Model

| member | source | states |
|---|---|---|
| BomCursor.Cursor.ReadUint8 | examples/js/loaders/BOMLoader.js:157-163 | returns the byte at `pos` and advances `pos` by 1; fails with Truncated when no byte is left |
| BomCursor.Cursor.ReadUint16 | examples/js/loaders/BOMLoader.js:165-171 | returns the little-endian u16 at `pos` and advances by 2, or fails when fewer than 2 bytes remain |
| BomCursor.Cursor.ReadUint32 | examples/js/loaders/BOMLoader.js:173-179 | returns the little-endian u32 at `pos` and advances by 4, or fails when fewer than 4 bytes remain |
| BomCursor.Cursor.ReadFloat32 | examples/js/loaders/BOMLoader.js:181-187 | returns the 4-byte little-endian word at `pos` and advances by 4, or fails |
| BomCursor.Cursor.ReadString | examples/js/loaders/BOMLoader.js:189-195 | returns the next `length` bytes and advances by `length`; a zero length reads nothing and cannot fail |
| BomCursor.Cursor.ReadUint16Array | examples/js/loaders/BOMLoader.js:197-213 | on a little-endian host, the aligned view and the unaligned loop both return the same n values as `U16ArrayAt` and both advance by 2n |
| BomCursor.Cursor.ReadFloat32Array | examples/js/loaders/BOMLoader.js:215-231 | on a little-endian host, the aligned view and the unaligned loop both return the same n words as `F32ArrayAt` and both advance by 4n |
| BomProperties.ReadWidths | examples/js/loaders/BOMLoader.js:157-187 | each fixed-width read (u8, u16, u32, f32) succeeds exactly when its 1, 2, 4 or 4 bytes lie in the buffer, consumes exactly them, and otherwise fails with Truncated |
| BomProperties.U16LittleEndian | examples/js/loaders/BOMLoader.js:167 | a u16 is low byte + 256 × high byte, and both bytes are recoverable from it |
| BomProperties.U32LittleEndian | examples/js/loaders/BOMLoader.js:175 | a u32 is the u16 at its first two bytes + 65536 × the u16 at its last two |
| BomProperties.StringLayout | examples/js/loaders/BOMLoader.js:189-195 | `readString(n)` succeeds exactly when n is 0 or n bytes remain; it yields those n bytes in order, and `readString(0)` yields nothing at any offset |
| BomProperties.Str16Layout | examples/js/loaders/BOMLoader.js:334 | `readString(readUint16())` succeeds exactly when the length and that many bytes fit, and yields those bytes |
| BomProperties.Str16Width | examples/js/loaders/BOMLoader.js:334 | a u16-length string takes 2 bytes more than it holds |
| BomProperties.Vec2Width | examples/js/loaders/BOMLoader.js:426-427 | a repeat or offset pair takes exactly 8 bytes |
| BomProperties.U16ArrayLayout | examples/js/loaders/BOMLoader.js:197-213 | an n-element u16 array succeeds exactly when 2n bytes remain; element i equals the single u16 read at p + 2i |
| BomProperties.F32ArrayLayout | examples/js/loaders/BOMLoader.js:215-231 | an n-element float32 array succeeds exactly when 4n bytes remain; element i equals the single read at p + 4i |
| BomProperties.HeaderLayout | examples/js/loaders/BOMLoader.js:273-282 | the header succeeds exactly when the buffer has at least 6 bytes: 3 signature bytes, the version byte and the u16 flags, with no signature or version check |
| BomLoader.ReadString16 | examples/js/loaders/BOMLoader.js:334 | reads a u16 length and that many bytes, as `Str16At` |
| BomLoader.ReadMaterialLibrary | examples/js/loaders/BOMLoader.js:294-507 | reads nothing without MATERIAL_LIBRARY; otherwise reads a u16 count and then exactly that many material records, as `LibraryAt` |
| BomProperties.LibraryGating | examples/js/loaders/BOMLoader.js:295-302 | without MATERIAL_LIBRARY the library is empty and 0 bytes are read; with it, the library has exactly as many materials as the u16 count says |
| BomProperties.MaterialsCount | examples/js/loaders/BOMLoader.js:302-505 | a run of k material records appends exactly k materials, after those already read |
| BomLoader.ReadMaterial | examples/js/loaders/BOMLoader.js:304-503 | reads the u32 flags, the name, then the 17 gated fields in bit order, as `MaterialAt` |
| BomLoader.ReadField | examples/js/loaders/BOMLoader.js:337-500 | one gated field: no bytes when the bit is clear; otherwise its bytes, with the parameter it sets, as `FieldAt` |
| BomLoader.ReadColor | examples/js/loaders/BOMLoader.js:389 | reads three float32 words, as `RgbAt` |
| BomLoader.ReadVec2 | examples/js/loaders/BOMLoader.js:426-427 | reads two float32 words, as `Vec2At` |
| BomLoader.ReadMap | examples/js/loaders/BOMLoader.js:410-489 | reads the u16 map flags, the path if PATH, a pair if SCALE, a pair if OFFSET, and the slot's scale word if its bit is set, as `MapAt` |
| BomProperties.FieldSkipped | examples/js/loaders/BOMLoader.js:338-492 | a field whose bit is clear consumes 0 bytes and leaves the parameters unchanged |
| BomProperties.FixedFieldWidth | examples/js/loaders/BOMLoader.js:337-408 | a set fixed-layout field consumes exactly 1 (illum, face culling), 4 (Ns, Ni, d) or 12 (Tf, Ka, Kd, Ks, Ke) bytes, dropped or kept, and fails with Truncated only when they are missing |
| BomProperties.MapFieldLayout | examples/js/loaders/BOMLoader.js:410-489 | a set map field reads one map record; only the bump slot reads BUMP_SCALE and only the displacement slot reads DISPLACEMENT_SCALE |
| BomProperties.DroppedFields | examples/js/loaders/BOMLoader.js:337-419 | illumination model, optical density, transmission filter, ambient reflectance and the ambient map change no material parameter |
| BomProperties.FaceCullingModes | examples/js/loaders/BOMLoader.js:491-500 | the face-culling byte is consumed; 3 hides the material, 1 sets BackSide, 2 sets FrontSide, and any other value sets DoubleSide |
| BomProperties.FieldTransparency | examples/js/loaders/BOMLoader.js:361-368 | for one field step, only DISSOLVE and DISSOLVE_MAP can set `transparent`, and only DISSOLVE can set an opacity; the name is kept |
| BomProperties.MaterialTransparency | examples/js/loaders/BOMLoader.js:305-465 | a decoded material is named by the string after its u32 flags; it is transparent exactly when DISSOLVE or DISSOLVE_MAP is set, and has an opacity exactly when DISSOLVE is set |
| BomProperties.MapPresence | examples/js/loaders/BOMLoader.js:424-428 | a map's path is the PATH string, or empty when PATH is clear; repeat, offset and scale are present exactly when their bits are set |
| BomProperties.MapWidth | examples/js/loaders/BOMLoader.js:413-416 | a map record takes 2 bytes + (2 + path length if PATH) + 8 if SCALE + 8 if OFFSET + 4 if the slot's scale bit is set |
| BomLoader.ReadGeometry | examples/js/loaders/BOMLoader.js:567-596 | reads the geometry flags, the u32 vertex count and the position, normal and UV arrays, as `GeometryAt` |
| BomProperties.GeometryLayout | examples/js/loaders/BOMLoader.js:567-596 | 3n position words always; 3n normals exactly when NORMAL is set; 2n UVs exactly when UV is set; the block takes 6 + 12n (+12n) (+8n) bytes |
| BomLoader.ReadGroupMesh | examples/js/loaders/BOMLoader.js:628-669 | reads the index list if INDEX, the smoothing byte if SMOOTHING and the material id if MATERIAL; it overwrites the carried indices and material only when their bits are set, then yields the mesh, as `GroupMeshAt` |
| BomLoader.ReadGroup | examples/js/loaders/BOMLoader.js:602-669 | reads the group flags and, if NAME, a name that replaces the carried one; then the geometry fields only when the object has geometry, as `GroupAt` |
| BomProperties.GroupWithoutGeometry | examples/js/loaders/BOMLoader.js:619-628 | without object geometry a group consumes only its flags and optional name and yields no mesh; of the carried variables it changes only the name, and only when NAME is set |
| BomProperties.GroupWithGeometry | examples/js/loaders/BOMLoader.js:628-667 | with object geometry every group yields exactly one mesh, sharing the object's vertex data |
| BomProperties.GroupMaterialLookup | examples/js/loaders/BOMLoader.js:654-663 | without MATERIAL nothing is read and no new material is written; a flagged id succeeds exactly when it is below the library size and fails with NoSuchMaterial otherwise; the new material is a clone of that library entry, smooth exactly when smoothing > 0 |
| BomProperties.GroupMeshLayout | examples/js/loaders/BOMLoader.js:620-667 | a group's mesh has the object's vertices and is named from the name variable; it has indices when INDEX is set and otherwise the carried ones; with MATERIAL it has a clone of a library entry, flat shaded without SMOOTHING, and otherwise the carried material; the variables it leaves are the name it found and the mesh's own indices and material |
| BomProperties.IndicesWidth | examples/js/loaders/BOMLoader.js:632-641 | an index list takes its u32 count plus 2 bytes per index, and nothing without INDEX |
| BomProperties.GroupMeshOrder | examples/js/loaders/BOMLoader.js:630-663 | indices, then the smoothing byte, then the material id: with INDEX the indices are the array after the u32 count; with MATERIAL the shading comes from the byte right after the indices and the library entry from the two bytes after that |
| BomProperties.GroupMeshWidth | examples/js/loaders/BOMLoader.js:630-663 | a group's geometry part takes the index list, 1 byte if SMOOTHING and 2 if MATERIAL |
| BomProperties.MeshNaming | examples/js/loaders/BOMLoader.js:619-666 | after a group the name variable holds the group's NAME string when NAME is set, and otherwise the name it found; the group's mesh is named exactly when that name is present and non-empty, and then by it |
| BomProperties.GroupsCount | examples/js/loaders/BOMLoader.js:598-671 | a run of k groups appends at most k meshes after those already read; none without geometry, exactly k with it |
| BomLoader.ReadObject | examples/js/loaders/BOMLoader.js:550-673 | reads the object flags, the geometry block if GEOMETRY, a u16 group count and that many groups, passing the group variables from each group to the next, as `ObjectAt` in function scope |
| BomProperties.ObjectWithoutGeometry | examples/js/loaders/BOMLoader.js:566-669 | an object without GEOMETRY contributes no mesh |
| BomProperties.ObjectsPrefix | examples/js/loaders/BOMLoader.js:550-673 | a run of objects keeps the meshes already read in front of those it appends |
| BomLoader.ReadAsset | examples/js/loaders/BOMLoader.js:513-675 | reads the asset flags, the name if NAME, a u16 object count and that many objects, passing the group variables on across objects, as `AssetAt` in function scope |
| BomProperties.AssetsCount | examples/js/loaders/BOMLoader.js:509-675 | a run of k asset records appends exactly k assets, after those already read |
| BomProperties.FileAssetCount | examples/js/loaders/BOMLoader.js:509-513 | a decoded file has exactly as many assets as its u16 asset count says |
| BomLoader.Parse | examples/js/loaders/BOMLoader.js:155-679 | the imperative decode returns exactly `Decode(buffer, responseType == "array")`: the same scene, or the same error; its group variables start from no name, no indices and the last library material, and are never reset |
| BomProperties.RootsShape | examples/js/loaders/BOMLoader.js:529-535 | in array mode there is one unnamed root per asset, in file order, holding that asset's meshes |
| BomProperties.AllMeshesAppend | examples/js/loaders/BOMLoader.js:667 | in grouped mode the mesh list of consecutive assets is the concatenation of their mesh lists |
| BomProperties.AllMeshesCount | examples/js/loaders/BOMLoader.js:667 | in grouped mode the shared root holds every asset's meshes, each asset's between those of the assets before and after it |
| BomProperties.LastNameShape | examples/js/loaders/BOMLoader.js:538-544 | in grouped mode the root is unnamed exactly when no asset carries a name; otherwise it carries the name of the last asset that does |
| BomProperties.ModesAgreeOnErrors | examples/js/loaders/BOMLoader.js:155 | the result type only changes assembly: both modes fail on the same buffers, with the error of the file decode |
| BomTrailing.TrailingBytesIgnored | examples/js/loaders/BOMLoader.js:675-679 | appending bytes to a buffer that decodes changes nothing: nothing checks for data after the last asset |
| BomTrailing.FileExtends | examples/js/loaders/BOMLoader.js:273-679 | the file record of a longer buffer that starts with a decodable one is the same value, ending at the same offset |
| BomTruncation.FileCut | examples/js/loaders/BOMLoader.js:157-679 | if `c + e` decodes, then `c` decodes to the same file when that file ends within `c`, and otherwise fails with Truncated |
| BomTruncation.TruncationFails | examples/js/loaders/BOMLoader.js:157-679 | a buffer cut to fewer bytes than a decodable file occupies fails with Truncated, in either scope |
| BomTruncation.TruncationAfterEnd | examples/js/loaders/BOMLoader.js:273-679 | a buffer cut anywhere at or after the end of a decodable file decodes to the same file |
| BomTruncation.TruncatedDecodeFails | examples/js/loaders/BOMLoader.js:155-679 | `parse` of a buffer cut before the end of a file that `parse` decodes fails with Truncated, in both result modes |
| BomTruncation.MaterialsCut | examples/js/loaders/BOMLoader.js:302-505 | a run of material records that decodes from `c + e` decodes the same from `c` when it ends within `c`, and otherwise fails with Truncated |
| BomTruncation.GroupMaterialCut | examples/js/loaders/BOMLoader.js:654-663 | a material id that resolves in `c + e` resolves to the same clone in `c` when its two bytes lie in `c`, and otherwise fails with Truncated |
| BomFindings.NamedThenPlainRead | examples/js/loaders/BOMLoader.js:157-195 | a buffer holding the 29 bytes below reads, through the fixed-width readers, as the header, counts, flags and name the first leak lemma needs |
| BomFindings.NamedThenPlain | examples/js/loaders/BOMLoader.js:620-667 | in either scope, the first file decodes to one root with two meshes over empty vertices: the first named "a", the second named from whatever the name variable holds when its group starts |
| BomFindings.HoistedNameLeaks | examples/js/loaders/BOMLoader.js:620-666 | as written, both meshes of the first file are named "a"; read per group, the second mesh has no name |
| BomFindings.LibraryThenPlainRead | examples/js/loaders/BOMLoader.js:157-195 | a buffer holding the 32 bytes below reads as the header, the bare library material, counts and flags the second leak lemma needs |
| BomFindings.LibraryThenPlain | examples/js/loaders/BOMLoader.js:502-667 | in either scope, the second file decodes to one root with one mesh whose material is whatever the material variable holds when its group starts |
| BomFindings.LibraryMaterialLeaks | examples/js/loaders/BOMLoader.js:502-665 | as written, the second file's mesh gets the library's material itself, unshaded; read per group, it has no material |
| BomFindings.PerGroupMesh | examples/js/loaders/BOMLoader.js:619-666 | read per group, a mesh has indices exactly when INDEX is set and a material exactly when MATERIAL is set, always a fresh clone; it is named exactly when NAME is set and the name read is not empty |
| BomFindings.PerGroupsIndependent | examples/js/loaders/BOMLoader.js:598-671 | read per group, a run of groups fails, or decodes the same meshes to the same offset, whatever the variables held before it |
| BomFindings.PerGroupObjectIndependent | examples/js/loaders/BOMLoader.js:550-673 | read per group, one object record fails, or decodes the same meshes to the same offset, whatever the variables held before it |
| BomFindings.PerGroupObjectsIndependent | examples/js/loaders/BOMLoader.js:550-673 | read per group, a run of objects fails, or decodes the same meshes to the same offset, although each object may leave different variables behind |

## Left out

- `load`, `setPath`, `setTexturePath` and the other setters (lines 18-67): they are request and configuration plumbing. `Parse` takes the buffer and the response type as parameters instead.
- `resolveURL` and `loadTexture` (lines 235-271): URL resolution, the Altspace client check and texture loading are calls into code outside the decoder. A map keeps its raw path bytes, and a missing path is an empty path, just as `loadTexture('')` gets one.
- The Altspace check at line 252 reads the global `altspace`. Where no such global is defined, this throws a ReferenceError, which aborts the decode at the first map record whose slot `loadTexture` is called for. The model assumes `loadTexture` returns normally and reads on.
- Host byte order: the aligned paths of `readUint16Array` and `readFloat32Array` (lines 202 and 220) build typed-array views, which read in the host's byte order. The unaligned loops (lines 210 and 228) read little-endian. The model reads little-endian on both paths, so it assumes a little-endian host.
- NaN payloads: the unaligned float loop stores each `getFloat32` result back into a `Float32Array` (line 228), and the scalar float fields hold a JavaScript Number. ECMAScript lets a NaN change its bit pattern on either route. The model keeps every float32 word exactly as read, so it does not capture a re-encoded NaN.
- THREE object construction (`BufferGeometry`, `addGroup`, `Mesh`, `MeshPhongMaterial`, `Color`, `clone`): these become plain datatypes. A `Mesh` holds its object's `VertexData` by value, so the model does not capture that the groups of one object share a single buffer.
- Object identity: a carried material or index list is held by value. The model therefore does not capture that, as written, meshes reusing a carried material share one object, and that an `Instance` is the library's own object.
- `computeVertexNormals` (line 649): floating-point work for the renderer. A mesh with `normals == None` is what asks for it.
- IEEE-754 meaning of float32 fields: they stay as raw 32-bit words, and no float arithmetic is modelled.
- `readString` maps each byte to one UTF-16 code unit with `String.fromCharCode`. Strings here stay as the byte sequences, which is a one-to-one image of those strings.
- `console.log`/`console.time` debug and timer output (line 71 and the `this.debug` blocks). The file-flags debug print at line 288 tests `objectAttributes`, a variable that is still undefined at that point, but it only affects the printout.
- `THREE.BOMLoaderUtil.multiload` (lines 686-712): an asynchronous fan-out over several requests, joined by a callback counter.
- The `|| new THREE.MeshPhongMaterial()` fallback at line 659 is unreachable: an id past the library makes `materials[id].clone()` throw before the `||` is evaluated. The model follows the code and fails with `NoSuchMaterial`.
- THREE's defaults: a material field the record does not set is `None` (or `transparent == false`, `visible == true`). The model does not try to say which renderer default that stands for. A named asset in grouped mode sets the root's name even when the name is empty, and the model records that as `Some([])` rather than THREE's default empty name.
- BomProperties.MaterialTransparency: presence is proved only for `transparent`, `opacity` and the name. For the other fields, the one-step lemmas (`FieldSkipped`, `DroppedFields`, `FixedFieldWidth`, `MapFieldLayout`, `FaceCullingModes`) state what each field does, but are not chained over the whole record.
- Integer widths: lengths and counts are unbounded naturals. They come from u16 and u32 fields and are never added or multiplied into a wrapping type. The JavaScript products `vertexCount * 3` are exact doubles, so nothing wraps.

A material record reads its u32 flags (line 305) before its name (line 334). The signature and version are consumed but never checked.

## Findings

| source | as written | input that shows it | evidently intended | confidence | as-written member | corrected member |
|---|---|---|---|---|---|---|
| examples/js/loaders/BOMLoader.js:620 | `var groupName;` belongs to the whole function, so a group without NAME is named by the last earlier group that had one | `42 4F 4D 01 00 00  01 00  00 00 01 00  02 00 00 00 00 00 00 00  02 00  02 00 01 00 61  00 00`: one geometry object with no vertices, a group named "a", then a group with no flags | the second mesh has no name | not executed | BomFindings.HoistedNameLeaks, with BomFindings.NamedThenPlainRead | BomLayout.DecodePerGroup, with BomFindings.PerGroupMesh |
| examples/js/loaders/BOMLoader.js:654 | `var material;` belongs to the whole function, and before any group reads a material id it holds the last library material built at line 502; a group without MATERIAL gets that object itself, unshaded | `42 4F 4D 01 02 00  01 00  00 00 00 00 00 00  01 00  00 00 01 00  02 00 00 00 00 00 00 00  01 00  00 00`: a library of one bare material, then one geometry group with no flags | the mesh has no material; a mesh with a material gets a fresh clone | not executed | BomFindings.LibraryMaterialLeaks, with BomFindings.LibraryThenPlainRead | BomLayout.DecodePerGroup, with BomFindings.PerGroupMesh |

`var indices;` (line 631) is carried the same way: `BomProperties.GroupMeshLayout` states that a group without INDEX keeps the carried indices.

`BomLoader.Parse` and `Decode` model the code as written. `DecodePerGroup` is the corrected decode, and the group lemmas in `BomFindings` are proved about it. The scope-generic lemmas (`GroupsCount`, `FileAssetCount` and the others that take a `Scope`) hold in both readings.
