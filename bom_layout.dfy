/** The byte layout of a BOM file, as pure functions: `XAt(d, p, ...)` decodes
    the record X that starts at offset `p` of buffer `d` and says where it ends,
    or which error aborts the decode. The imperative decoder in BomLoader is
    proved to compute exactly these results. */
module BomLayout {
  import opened BomWire
  import opened BomFormat

  // ---- Primitive reads (one DataView access each) ----

  function U8At(d: Bytes, p: nat): (r: Res<uint8>)
    ensures Within(d, p, r)
  {
    if p + 1 <= |d| then Ok(Parsed(d[p], p + 1)) else Err(Truncated)
  }

  function U16At(d: Bytes, p: nat): (r: Res<uint16>)
    ensures Within(d, p, r)
  {
    if p + 2 <= |d| then Ok(Parsed(Le16(d[p], d[p + 1]), p + 2)) else Err(Truncated)
  }

  function U32At(d: Bytes, p: nat): (r: Res<uint32>)
    ensures Within(d, p, r)
  {
    if p + 4 <= |d| then Ok(Parsed(Le32(d[p], d[p + 1], d[p + 2], d[p + 3]), p + 4)) else Err(Truncated)
  }

  /** A float32 field: the same four bytes as a u32, kept as a bit pattern. */
  function F32At(d: Bytes, p: nat): (r: Res<F32>)
    ensures Within(d, p, r)
  {
    U32At(d, p)
  }

  /** `readString(n)`: n raw bytes; a zero length reads nothing and cannot fail. */
  function StringAt(d: Bytes, p: nat, n: nat): (r: Res<Bytes>)
    ensures Within(d, p, r)
  {
    if n == 0 then Ok(Parsed([], p))
    else if p + n <= |d| then Ok(Parsed(d[p..p + n], p + n))
    else Err(Truncated)
  }

  /** `readString(readUint16())`: a u16 length, then that many bytes. */
  function Str16At(d: Bytes, p: nat): (r: Res<Bytes>)
    ensures Within(d, p, r)
  {
    var len :- U16At(d, p);
    StringAt(d, len.next, len.value)
  }

  /** `readUint16Array(n)`: n consecutive little-endian u16 values. */
  function U16ArrayAt(d: Bytes, p: nat, n: nat): (r: Res<seq<uint16>>)
    ensures Within(d, p, r)
  {
    if p + 2 * n <= |d| then
      Ok(Parsed(seq(n, i requires 0 <= i < n => Le16(d[p + 2 * i], d[p + 2 * i + 1])), p + 2 * n))
    else Err(Truncated)
  }

  /** `readFloat32Array(n)`: n consecutive 4-byte words. */
  function F32ArrayAt(d: Bytes, p: nat, n: nat): (r: Res<seq<F32>>)
    ensures Within(d, p, r)
  {
    if p + 4 * n <= |d| then
      Ok(Parsed(seq(n, i requires 0 <= i < n => Le32(d[p + 4 * i], d[p + 4 * i + 1], d[p + 4 * i + 2], d[p + 4 * i + 3])), p + 4 * n))
    else Err(Truncated)
  }

  function Vec2At(d: Bytes, p: nat): (r: Res<Vec2>)
    ensures Within(d, p, r)
  {
    var x :- F32At(d, p);
    var y :- F32At(d, x.next);
    Ok(Parsed(Vec2(x.value, y.value), y.next))
  }

  function RgbAt(d: Bytes, p: nat): (r: Res<Rgb>)
    ensures Within(d, p, r)
  {
    var red :- F32At(d, p);
    var green :- F32At(d, red.next);
    var blue :- F32At(d, green.next);
    Ok(Parsed(Rgb(red.value, green.value, blue.value), blue.next))
  }

  /** A field that is present only when its flag bit is set; a cleared bit reads nothing. */
  function Gate<T>(on: bool, p: nat, read: Res<T>): (r: Res<Option<T>>) {
    if !on then Ok(Parsed(None, p))
    else match read
      case Err(e) => Err(e)
      case Ok(s) => Ok(Parsed(Some(s.value), s.next))
  }

  // ---- Header and material library ----

  /** Signature (3 bytes), version (u8) and file flags (u16); neither of the first two is checked. */
  function HeaderAt(d: Bytes): (r: Res<Header>)
    ensures Within(d, 0, r)
  {
    var signature :- StringAt(d, 0, 3);
    var version :- U8At(d, signature.next);
    var flags :- U16At(d, version.next);
    Ok(Parsed(Header(signature.value, version.value, flags.value), flags.next))
  }

  /** A map sub-record; `scalarMask` is the one scale bit this slot reads (0 for none). */
  function MapAt(d: Bytes, p: nat, scalarMask: nat): (r: Res<MapRecord>)
    ensures Within(d, p, r)
  {
    var flags :- U16At(d, p);
    var f := flags.value;
    var path :- Gate(Has(f, MAP_PATH), flags.next, Str16At(d, flags.next));
    var repeat :- Gate(Has(f, MAP_SCALE), path.next, Vec2At(d, path.next));
    var offset :- Gate(Has(f, MAP_OFFSET), repeat.next, Vec2At(d, repeat.next));
    var scalar :- Gate(Has(f, scalarMask), offset.next, F32At(d, offset.next));
    Ok(Parsed(MapRecord(path.value.GetOr([]), repeat.value, offset.value, scalar.value), scalar.next))
  }

  /** One gated field of a material record, applied to the parameters decoded so far. */
  function FieldAt(d: Bytes, p: nat, flags: nat, field: Field, params: Material): (r: Res<Material>)
    ensures Within(d, p, r)
  {
    if !Has(flags, FieldMask(field)) then Ok(Parsed(params, p))
    else match field
      case IlluminationModel =>
        var illum :- U8At(d, p);
        Ok(Parsed(params, illum.next))
      case SpecularExponent =>
        var ns :- F32At(d, p);
        Ok(Parsed(params.(shininess := Some(ns.value)), ns.next))
      case OpticalDensity =>
        var ni :- F32At(d, p);
        Ok(Parsed(params, ni.next))
      case Dissolve =>
        var dissolve :- F32At(d, p);
        Ok(Parsed(params.(opacity := Some(dissolve.value), transparent := true), dissolve.next))
      case TransmissionFilter =>
        var tf :- RgbAt(d, p);
        Ok(Parsed(params, tf.next))
      case AmbientReflectance =>
        var ka :- RgbAt(d, p);
        Ok(Parsed(params, ka.next))
      case DiffuseReflectance =>
        var kd :- RgbAt(d, p);
        Ok(Parsed(params.(color := Some(kd.value)), kd.next))
      case SpecularReflectance =>
        var ks :- RgbAt(d, p);
        Ok(Parsed(params.(specular := Some(ks.value)), ks.next))
      case EmissiveReflectance =>
        var ke :- RgbAt(d, p);
        Ok(Parsed(params.(emissive := Some(ke.value)), ke.next))
      case AmbientMap =>
        var m :- MapAt(d, p, 0);
        Ok(Parsed(params, m.next))
      case DiffuseMap =>
        var m :- MapAt(d, p, 0);
        Ok(Parsed(params.(diffuseMap := Some(m.value)), m.next))
      case SpecularMap =>
        var m :- MapAt(d, p, 0);
        Ok(Parsed(params.(specularMap := Some(m.value)), m.next))
      case EmissiveMap =>
        var m :- MapAt(d, p, 0);
        Ok(Parsed(params.(emissiveMap := Some(m.value)), m.next))
      case DissolveMap =>
        var m :- MapAt(d, p, 0);
        Ok(Parsed(params.(alphaMap := Some(m.value), transparent := true), m.next))
      case BumpMap =>
        var m :- MapAt(d, p, MAP_BUMP_SCALE);
        Ok(Parsed(params.(bumpMap := Some(m.value)), m.next))
      case DisplacementMap =>
        var m :- MapAt(d, p, MAP_DISPLACEMENT_SCALE);
        Ok(Parsed(params.(displacementMap := Some(m.value)), m.next))
      case FaceCulling =>
        var mode :- U8At(d, p);
        Ok(Parsed(Cull(params, mode.value), mode.next))
  }

  /** The next field, read after a step that succeeded. */
  function Then(d: Bytes, prev: Res<Material>, flags: nat, field: Field): (r: Res<Material>) {
    match prev
    case Err(e) => Err(e)
    case Ok(s) => FieldAt(d, s.next, flags, field, s.value)
  }

  /** A material record: u32 flags, the name, then the seventeen gated fields in bit order. */
  function MaterialAt(d: Bytes, p: nat): (r: Res<Material>)
    ensures Within(d, p, r)
  {
    var flags :- U32At(d, p);
    var name :- Str16At(d, flags.next);
    var f := flags.value;
    var r1 := FieldAt(d, name.next, f, IlluminationModel, Params(name.value));
    MapFieldsAt(d, ScalarFieldsAt(d, r1, f), f)
  }

  /** The fixed-layout fields after the illumination model, in record order. */
  function ScalarFieldsAt(d: Bytes, prev: Res<Material>, f: nat): (r: Res<Material>) {
    var r2 := Then(d, prev, f, SpecularExponent);
    var r3 := Then(d, r2, f, OpticalDensity);
    var r4 := Then(d, r3, f, Dissolve);
    var r5 := Then(d, r4, f, TransmissionFilter);
    var r6 := Then(d, r5, f, AmbientReflectance);
    var r7 := Then(d, r6, f, DiffuseReflectance);
    var r8 := Then(d, r7, f, SpecularReflectance);
    Then(d, r8, f, EmissiveReflectance)
  }

  /** The seven map fields and the face-culling byte, in record order. */
  function MapFieldsAt(d: Bytes, prev: Res<Material>, f: nat): (r: Res<Material>) {
    var r10 := Then(d, prev, f, AmbientMap);
    var r11 := Then(d, r10, f, DiffuseMap);
    var r12 := Then(d, r11, f, SpecularMap);
    var r13 := Then(d, r12, f, EmissiveMap);
    var r14 := Then(d, r13, f, DissolveMap);
    var r15 := Then(d, r14, f, BumpMap);
    var r16 := Then(d, r15, f, DisplacementMap);
    Then(d, r16, f, FaceCulling)
  }

  /** `count` more material records back to back, appended to the `done` ones already read. */
  function MaterialsAt(d: Bytes, p: nat, count: nat, done: seq<Material>): (r: Res<seq<Material>>)
    ensures Within(d, p, r)
    decreases count
  {
    if count == 0 then Ok(Parsed(done, p))
    else
      var m :- MaterialAt(d, p);
      MaterialsAt(d, m.next, count - 1, done + [m.value])
  }

  /** The material library: a u16 count and the records, present only when the file flags ask for it. */
  function LibraryAt(d: Bytes, p: nat, fileFlags: nat): (r: Res<seq<Material>>)
    ensures Within(d, p, r)
  {
    if !Has(fileFlags, FILE_MATERIAL_LIBRARY) then Ok(Parsed([], p))
    else
      var count :- U16At(d, p);
      MaterialsAt(d, count.next, count.value, [])
  }

  // ---- Assets, objects, geometry and groups ----

  /** The shared vertex block: u16 flags, u32 vertex count n, 3n positions, then 3n normals and 2n UVs when flagged. */
  function GeometryAt(d: Bytes, p: nat): (r: Res<VertexData>)
    ensures Within(d, p, r)
  {
    var flags :- U16At(d, p);
    var count :- U32At(d, flags.next);
    var n := count.value;
    var positions :- F32ArrayAt(d, count.next, 3 * n);
    var normals :- Gate(Has(flags.value, GEOMETRY_NORMAL), positions.next, F32ArrayAt(d, positions.next, 3 * n));
    var uvs :- Gate(Has(flags.value, GEOMETRY_UV), normals.next, F32ArrayAt(d, normals.next, 2 * n));
    Ok(Parsed(VertexData(positions.value, normals.value, uvs.value), uvs.next))
  }

  /** A group's index list: a u32 count, then that many u16 indices. */
  function IndicesAt(d: Bytes, p: nat): (r: Res<seq<uint16>>)
    ensures Within(d, p, r)
  {
    var count :- U32At(d, p);
    U16ArrayAt(d, count.next, count.value)
  }

  /** A group's material id, when flagged, resolved against the library and cloned. */
  function GroupMaterialAt(d: Bytes, p: nat, on: bool, smoothing: uint8, materials: seq<Material>): (r: Res<Option<MeshMaterial>>)
    ensures Within(d, p, r)
  {
    if !on then Ok(Parsed(None, p))
    else
      var id :- U16At(d, p);
      if id.value < |materials| then
        Ok(Parsed(Some(Clone(materials[id.value], if smoothing > 0 then SmoothShading else FlatShading)), id.next))
      else Err(NoSuchMaterial)
  }

  /** A function-scoped variable after a conditional assignment: the value written, or else the one it held. */
  function Latest<T>(written: Option<T>, held: Option<T>): (r: Option<T>) {
    if written.Some? then written else held
  }

  /** `if (groupName) mesh.name = groupName`: an empty name is no name. */
  function MeshName(name: Option<Bytes>): (r: Option<Bytes>) {
    if name.Some? && |name.value| > 0 then name else None
  }

  /** The hoisted variables as a group record finds them: all of the decode's for `var` as written,
      none for a declaration scoped to the group. */
  function Enter(scope: Scope, h: Hoisted): (r: Hoisted) {
    if scope == FunctionScope then h else Hoisted(None, None, None)
  }

  /** What the variables hold before the first group: no name and no indices yet, and the last
      material the library loop built, if it built any. */
  function Start(materials: seq<Material>): (r: Hoisted) {
    Hoisted(None, None, if materials == [] then None else Some(Instance(materials[|materials| - 1])))
  }

  /** The geometry part of a group record, read only when its object has geometry: indices, smoothing and
      material. `h` holds the group name already updated by this record; indices and material are
      overwritten only when flagged. */
  function GroupMeshAt(d: Bytes, p: nat, flags: nat, vertices: VertexData, materials: seq<Material>, h: Hoisted): (r: Res<Carried<Mesh>>)
    ensures Within(d, p, r)
  {
    var read :- Gate(Has(flags, GROUP_INDEX), p, IndicesAt(d, p));
    var smoothing :- if Has(flags, GROUP_SMOOTHING) then U8At(d, read.next) else Ok(Parsed(0, read.next));
    var clone :- GroupMaterialAt(d, smoothing.next, Has(flags, GROUP_MATERIAL), smoothing.value, materials);
    var indices := Latest(read.value, h.indices);
    var material := Latest(clone.value, h.material);
    Ok(Parsed(Carried(Mesh(MeshName(h.groupName), vertices, indices, material), Hoisted(h.groupName, indices, material)), clone.next))
  }

  /** One group record: flags and name always; its geometry fields only when the object has geometry. */
  function GroupAt(d: Bytes, p: nat, vertices: Option<VertexData>, materials: seq<Material>, h: Hoisted): (r: Res<Carried<Option<Mesh>>>)
    ensures Within(d, p, r)
  {
    var flags :- U16At(d, p);
    var read :- Gate(Has(flags.value, GROUP_NAME), flags.next, Str16At(d, flags.next));
    var named := h.(groupName := Latest(read.value, h.groupName));
    if vertices.None? then Ok(Parsed(Carried(None, named), read.next))
    else
      var mesh :- GroupMeshAt(d, read.next, flags.value, vertices.value, materials, named);
      Ok(Parsed(Carried(Some(mesh.value.value), mesh.value.hoisted), mesh.next))
  }

  function OptionSeq<T>(o: Option<T>): (r: seq<T>) {
    if o.Some? then [o.value] else []
  }

  /** `count` more group records; the meshes they yield are appended to `done`. */
  function GroupsAt(d: Bytes, p: nat, count: nat, vertices: Option<VertexData>, materials: seq<Material>,
                    scope: Scope, h: Hoisted, done: seq<Mesh>): (r: Res<Carried<seq<Mesh>>>)
    ensures Within(d, p, r)
    decreases count
  {
    if count == 0 then Ok(Parsed(Carried(done, h), p))
    else
      var g :- GroupAt(d, p, vertices, materials, Enter(scope, h));
      GroupsAt(d, g.next, count - 1, vertices, materials, scope, g.value.hoisted, done + OptionSeq(g.value.value))
  }

  /** An object record: u16 flags, the geometry block when flagged, a u16 group count and the groups. */
  function ObjectAt(d: Bytes, p: nat, materials: seq<Material>, scope: Scope, h: Hoisted): (r: Res<Carried<seq<Mesh>>>)
    ensures Within(d, p, r)
  {
    var flags :- U16At(d, p);
    var vertices :- Gate(Has(flags.value, OBJECT_GEOMETRY), flags.next, GeometryAt(d, flags.next));
    var count :- U16At(d, vertices.next);
    GroupsAt(d, count.next, count.value, vertices.value, materials, scope, h, [])
  }

  /** `count` more object records; their meshes are appended to `done`. */
  function ObjectsAt(d: Bytes, p: nat, count: nat, materials: seq<Material>, scope: Scope, h: Hoisted, done: seq<Mesh>): (r: Res<Carried<seq<Mesh>>>)
    ensures Within(d, p, r)
    decreases count
  {
    if count == 0 then Ok(Parsed(Carried(done, h), p))
    else
      var o :- ObjectAt(d, p, materials, scope, h);
      ObjectsAt(d, o.next, count - 1, materials, scope, o.value.hoisted, done + o.value.value)
  }

  /** An asset record: u16 flags, the name when flagged, a u16 object count and the objects. */
  function AssetAt(d: Bytes, p: nat, materials: seq<Material>, scope: Scope, h: Hoisted): (r: Res<Carried<Asset>>)
    ensures Within(d, p, r)
  {
    var flags :- U16At(d, p);
    var name :- Gate(Has(flags.value, ASSET_NAME), flags.next, Str16At(d, flags.next));
    var count :- U16At(d, name.next);
    var meshes :- ObjectsAt(d, count.next, count.value, materials, scope, h, []);
    Ok(Parsed(Carried(Asset(name.value, meshes.value.value), meshes.value.hoisted), meshes.next))
  }

  /** `count` more asset records, appended to `done`. */
  function AssetsAt(d: Bytes, p: nat, count: nat, materials: seq<Material>, scope: Scope, h: Hoisted, done: seq<Asset>): (r: Res<Carried<seq<Asset>>>)
    ensures Within(d, p, r)
    decreases count
  {
    if count == 0 then Ok(Parsed(Carried(done, h), p))
    else
      var a :- AssetAt(d, p, materials, scope, h);
      AssetsAt(d, a.next, count - 1, materials, scope, a.value.hoisted, done + [a.value.value])
  }

  /** The whole file: header, optional library, a u16 asset count and the assets. Bytes after the last asset are never looked at. */
  function FileAt(d: Bytes, scope: Scope): (r: Res<File>)
    ensures Within(d, 0, r)
  {
    var header :- HeaderAt(d);
    var materials :- LibraryAt(d, header.next, header.value.flags);
    var count :- U16At(d, materials.next);
    var assets :- AssetsAt(d, count.next, count.value, materials.value, scope, Start(materials.value), []);
    Ok(Parsed(File(header.value, materials.value, assets.value.value), assets.next))
  }

  // ---- Result assembly ----

  /** Flat mode: one unnamed root per asset. */
  function RootsOf(assets: seq<Asset>): (r: seq<Root>) {
    if assets == [] then []
    else RootsOf(assets[..|assets| - 1]) + [Root(None, assets[|assets| - 1].meshes)]
  }

  /** Grouped mode: every mesh, asset after asset. */
  function AllMeshes(assets: seq<Asset>): (r: seq<Mesh>) {
    if assets == [] then []
    else AllMeshes(assets[..|assets| - 1]) + assets[|assets| - 1].meshes
  }

  /** Grouped mode: the shared root keeps the name the last named asset wrote into it. */
  function LastName(assets: seq<Asset>): (r: Option<Bytes>) {
    if assets == [] then None
    else if assets[|assets| - 1].name.Some? then assets[|assets| - 1].name
    else LastName(assets[..|assets| - 1])
  }

  function Assemble(assets: seq<Asset>, isAssetArray: bool): (r: Scene) {
    if isAssetArray then Roots(RootsOf(assets))
    else Grouped(Root(LastName(assets), AllMeshes(assets)))
  }

  /** The scene the file decodes to when the group variables live in `scope`, or the error that aborted it. */
  function DecodeIn(d: Bytes, isAssetArray: bool, scope: Scope): (r: Result<Scene>) {
    var file :- FileAt(d, scope);
    Ok(Assemble(file.value.assets, isAssetArray))
  }

  /** What `parse` returns for buffer `d`, its group variables function-scoped as `var` makes them. */
  function Decode(d: Bytes, isAssetArray: bool): (r: Result<Scene>) {
    DecodeIn(d, isAssetArray, FunctionScope)
  }

  /** What `parse` is evidently meant to return: every group starts with no name, indices or material of its own. */
  function DecodePerGroup(d: Bytes, isAssetArray: bool): (r: Result<Scene>) {
    DecodeIn(d, isAssetArray, GroupScope)
  }
}
