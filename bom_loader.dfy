/** The decoding walk of `BOMLoader.parse`: header, material library, then
    assets, objects, geometry and groups, all read through one Cursor. Every
    method is proved to produce exactly the result (value, final offset or
    error) that the BomLayout function for its record describes, and Parse is
    proved equal to BomLayout.Decode. */
module BomLoader {
  import opened BomWire
  import opened BomFormat
  import BomLayout
  import opened BomCursor
  import opened BomRuns

  /** `readString(readUint16())` */
  method ReadString16(c: Cursor) returns (r: Result<Bytes>)
    requires c.Valid()
    modifies c
    ensures c.Valid()
    ensures Agrees(r, c.pos, BomLayout.Str16At(c.data, old(c.pos)))
  {
    var length :- c.ReadUint16();
    r := c.ReadString(length);
  }

  method ReadVec2(c: Cursor) returns (r: Result<Vec2>)
    requires c.Valid()
    modifies c
    ensures c.Valid()
    ensures Agrees(r, c.pos, BomLayout.Vec2At(c.data, old(c.pos)))
  {
    var x :- c.ReadFloat32();
    var y :- c.ReadFloat32();
    r := Ok(Vec2(x, y));
  }

  /** One map sub-record; only the slot whose scale bit is `scalarMask` reads a scale. */
  method ReadMap(c: Cursor, scalarMask: nat) returns (r: Result<MapRecord>)
    requires c.Valid()
    modifies c
    ensures c.Valid()
    ensures Agrees(r, c.pos, BomLayout.MapAt(c.data, old(c.pos), scalarMask))
  {
    var mapDataAttributes :- c.ReadUint16();
    ghost var p1 := c.pos;
    var path: Option<Bytes> := None;
    if Has(mapDataAttributes, MAP_PATH) {
      var s :- ReadString16(c);
      path := Some(s);
    }
    assert BomLayout.Gate(Has(mapDataAttributes, MAP_PATH), p1, BomLayout.Str16At(c.data, p1)) == Ok(Parsed(path, c.pos));
    ghost var p2 := c.pos;
    var repeat: Option<Vec2> := None;
    if Has(mapDataAttributes, MAP_SCALE) {
      var v :- ReadVec2(c);
      repeat := Some(v);
    }
    assert BomLayout.Gate(Has(mapDataAttributes, MAP_SCALE), p2, BomLayout.Vec2At(c.data, p2)) == Ok(Parsed(repeat, c.pos));
    ghost var p3 := c.pos;
    var offset: Option<Vec2> := None;
    if Has(mapDataAttributes, MAP_OFFSET) {
      var v :- ReadVec2(c);
      offset := Some(v);
    }
    assert BomLayout.Gate(Has(mapDataAttributes, MAP_OFFSET), p3, BomLayout.Vec2At(c.data, p3)) == Ok(Parsed(offset, c.pos));
    ghost var p4 := c.pos;
    var scalar: Option<F32> := None;
    if Has(mapDataAttributes, scalarMask) {
      var s :- c.ReadFloat32();
      scalar := Some(s);
    }
    assert BomLayout.Gate(Has(mapDataAttributes, scalarMask), p4, BomLayout.F32At(c.data, p4)) == Ok(Parsed(scalar, c.pos));
    r := Ok(MapRecord(path.GetOr([]), repeat, offset, scalar));
  }

  method ReadColor(c: Cursor) returns (r: Result<Rgb>)
    requires c.Valid()
    modifies c
    ensures c.Valid()
    ensures Agrees(r, c.pos, BomLayout.RgbAt(c.data, old(c.pos)))
  {
    var red :- c.ReadFloat32();
    var green :- c.ReadFloat32();
    var blue :- c.ReadFloat32();
    r := Ok(Rgb(red, green, blue));
  }

  /** One of the seventeen `if ( materialAttributes & ... )` blocks of a material record. */
  method ReadField(c: Cursor, materialAttributes: nat, field: Field, params: Material) returns (r: Result<Material>)
    requires c.Valid()
    modifies c
    ensures c.Valid()
    ensures Agrees(r, c.pos, BomLayout.FieldAt(c.data, old(c.pos), materialAttributes, field, params))
  {
    if !Has(materialAttributes, FieldMask(field)) {
      return Ok(params);
    }
    match field {
      case IlluminationModel =>
        var illum :- c.ReadUint8();  // not supported
        r := Ok(params);
      case SpecularExponent =>
        var shininess :- c.ReadFloat32();
        r := Ok(params.(shininess := Some(shininess)));
      case OpticalDensity =>
        var density :- c.ReadFloat32();  // not supported
        r := Ok(params);
      case Dissolve =>
        var opacity :- c.ReadFloat32();
        r := Ok(params.(opacity := Some(opacity), transparent := true));
      case TransmissionFilter =>
        var filter :- ReadColor(c);  // not supported
        r := Ok(params);
      case AmbientReflectance =>
        var ambient :- ReadColor(c);  // assumed linked to the diffuse colour
        r := Ok(params);
      case DiffuseReflectance =>
        var color :- ReadColor(c);
        r := Ok(params.(color := Some(color)));
      case SpecularReflectance =>
        var specular :- ReadColor(c);
        r := Ok(params.(specular := Some(specular)));
      case EmissiveReflectance =>
        var emissive :- ReadColor(c);
        r := Ok(params.(emissive := Some(emissive)));
      case AmbientMap =>
        var ambientMap :- ReadMap(c, 0);  // assumed linked to the diffuse map
        r := Ok(params);
      case DiffuseMap =>
        var texture :- ReadMap(c, 0);
        r := Ok(params.(diffuseMap := Some(texture)));
      case SpecularMap =>
        var texture :- ReadMap(c, 0);
        r := Ok(params.(specularMap := Some(texture)));
      case EmissiveMap =>
        var texture :- ReadMap(c, 0);
        r := Ok(params.(emissiveMap := Some(texture)));
      case DissolveMap =>
        var texture :- ReadMap(c, 0);
        r := Ok(params.(alphaMap := Some(texture), transparent := true));
      case BumpMap =>
        var texture :- ReadMap(c, MAP_BUMP_SCALE);
        r := Ok(params.(bumpMap := Some(texture)));
      case DisplacementMap =>
        var texture :- ReadMap(c, MAP_DISPLACEMENT_SCALE);
        r := Ok(params.(displacementMap := Some(texture)));
      case FaceCulling =>
        var faceCulling :- c.ReadUint8();
        r := Ok(Cull(params, faceCulling));
    }
  }

  /** One material record: flags first, then the name, then the gated fields in bit order. */
  method ReadMaterial(c: Cursor) returns (r: Result<Material>)
    requires c.Valid()
    modifies c
    ensures c.Valid()
    ensures Agrees(r, c.pos, BomLayout.MaterialAt(c.data, old(c.pos)))
  {
    var materialAttributes :- c.ReadUint32();
    var name :- ReadString16(c);
    var params := Params(name);
    params :- ReadField(c, materialAttributes, IlluminationModel, params);
    params :- ReadField(c, materialAttributes, SpecularExponent, params);
    params :- ReadField(c, materialAttributes, OpticalDensity, params);
    params :- ReadField(c, materialAttributes, Dissolve, params);
    params :- ReadField(c, materialAttributes, TransmissionFilter, params);
    params :- ReadField(c, materialAttributes, AmbientReflectance, params);
    params :- ReadField(c, materialAttributes, DiffuseReflectance, params);
    params :- ReadField(c, materialAttributes, SpecularReflectance, params);
    params :- ReadField(c, materialAttributes, EmissiveReflectance, params);
    params :- ReadField(c, materialAttributes, AmbientMap, params);
    params :- ReadField(c, materialAttributes, DiffuseMap, params);
    params :- ReadField(c, materialAttributes, SpecularMap, params);
    params :- ReadField(c, materialAttributes, EmissiveMap, params);
    params :- ReadField(c, materialAttributes, DissolveMap, params);
    params :- ReadField(c, materialAttributes, BumpMap, params);
    params :- ReadField(c, materialAttributes, DisplacementMap, params);
    params :- ReadField(c, materialAttributes, FaceCulling, params);
    r := Ok(params);
  }


  /** The material library, read only when the file flags announce one. */
  method ReadMaterialLibrary(c: Cursor, fileAttributes: nat) returns (r: Result<seq<Material>>)
    requires c.Valid()
    modifies c
    ensures c.Valid()
    ensures Agrees(r, c.pos, BomLayout.LibraryAt(c.data, old(c.pos), fileAttributes))
  {
    if !Has(fileAttributes, FILE_MATERIAL_LIBRARY) {
      return Ok([]);
    }
    var materialCount :- c.ReadUint16();
    ghost var start := c.pos;
    var materials: seq<Material> := [];
    var i := 0;
    ghost var left: nat := materialCount;
    while i < materialCount
      invariant c.Valid() && i <= materialCount && left + i == materialCount
      invariant BomLayout.MaterialsAt(c.data, start, materialCount, []) == BomLayout.MaterialsAt(c.data, c.pos, left, materials)
    {
      ghost var before, left0, materials0 := c.pos, left, materials;
      var material := ReadMaterial(c);
      if material.Err? {
        MaterialsFail(c.data, before, left0, materials0, material.error);
        return Err(material.error);
      }
      materials := materials + [material.value];
      i := i + 1;
      left := left - 1;
      MaterialsStep(c.data, before, left0, left, materials0, material.value, c.pos);
    }
    MaterialsDone(c.data, c.pos, left, materials);
    r := Ok(materials);
  }

  /** An object's vertex block: positions always, normals and UVs when flagged. */
  method ReadGeometry(c: Cursor) returns (r: Result<VertexData>)
    requires c.Valid()
    modifies c
    ensures c.Valid()
    ensures Agrees(r, c.pos, BomLayout.GeometryAt(c.data, old(c.pos)))
  {
    var geometryAttributes :- c.ReadUint16();
    var vertexCount :- c.ReadUint32();
    var n: nat := vertexCount;
    var positions :- c.ReadFloat32Array(3 * n);
    var normals: Option<seq<F32>> := None;
    if Has(geometryAttributes, GEOMETRY_NORMAL) {
      var normal :- c.ReadFloat32Array(3 * n);
      normals := Some(normal);
    }
    var uvs: Option<seq<F32>> := None;
    if Has(geometryAttributes, GEOMETRY_UV) {
      var uv :- c.ReadFloat32Array(2 * n);
      uvs := Some(uv);
    }
    r := Ok(VertexData(positions, normals, uvs));
  }

  /** The `if ( objectAttributes & ObjectDataAttribute.GEOMETRY )` part of a group record. `held` is
      what the function-scoped `groupName`, `indices` and `material` hold when it starts. */
  method ReadGroupMesh(c: Cursor, groupAttributes: nat, vertices: VertexData, materials: seq<Material>, held: Hoisted)
    returns (r: Result<Carried<Mesh>>)
    requires c.Valid()
    modifies c
    ensures c.Valid()
    ensures Agrees(r, c.pos, BomLayout.GroupMeshAt(c.data, old(c.pos), groupAttributes, vertices, materials, held))
  {
    ghost var p1 := c.pos;
    ghost var read: Option<seq<uint16>> := None;
    var indices := held.indices;
    if Has(groupAttributes, GROUP_INDEX) {
      var indexCount :- c.ReadUint32();
      var index :- c.ReadUint16Array(indexCount);
      indices := Some(index);
      read := indices;
    }
    assert BomLayout.Gate(Has(groupAttributes, GROUP_INDEX), p1, BomLayout.IndicesAt(c.data, p1)) == Ok(Parsed(read, c.pos));
    ghost var p2 := c.pos;
    var smoothing: uint8 := 0;
    if Has(groupAttributes, GROUP_SMOOTHING) {
      smoothing :- c.ReadUint8();
    }
    assert (if Has(groupAttributes, GROUP_SMOOTHING) then BomLayout.U8At(c.data, p2) else Ok(Parsed(0, p2))) == Ok(Parsed(smoothing, c.pos));
    var material := held.material;
    if Has(groupAttributes, GROUP_MATERIAL) {
      var materialId :- c.ReadUint16();
      if materialId >= |materials| {
        // materials[ materialId ] is undefined, and calling clone() on it throws
        return Err(NoSuchMaterial);
      }
      material := Some(Clone(materials[materialId], if smoothing > 0 then SmoothShading else FlatShading));
    }
    var meshName: Option<Bytes> := None;
    if held.groupName.Some? && |held.groupName.value| > 0 {
      meshName := held.groupName;
    }
    r := Ok(Carried(Mesh(meshName, vertices, indices, material), Hoisted(held.groupName, indices, material)));
  }

  /** One group record; it yields a mesh only when its object has geometry. */
  method ReadGroup(c: Cursor, vertices: Option<VertexData>, materials: seq<Material>, held: Hoisted)
    returns (r: Result<Carried<Option<Mesh>>>)
    requires c.Valid()
    modifies c
    ensures c.Valid()
    ensures Agrees(r, c.pos, BomLayout.GroupAt(c.data, old(c.pos), vertices, materials, held))
  {
    var groupAttributes :- c.ReadUint16();
    var groupName := held.groupName;
    if Has(groupAttributes, GROUP_NAME) {
      var name :- ReadString16(c);
      groupName := Some(name);
    }
    var named := held.(groupName := groupName);
    if vertices.None? {
      return Ok(Carried(None, named));
    }
    var mesh :- ReadGroupMesh(c, groupAttributes, vertices.value, materials, named);
    r := Ok(Carried(Some(mesh.value), mesh.hoisted));
  }

  /** One object record and the meshes its groups produce. */
  method ReadObject(c: Cursor, materials: seq<Material>, held: Hoisted) returns (r: Result<Carried<seq<Mesh>>>)
    requires c.Valid()
    modifies c
    ensures c.Valid()
    ensures Agrees(r, c.pos, BomLayout.ObjectAt(c.data, old(c.pos), materials, FunctionScope, held))
  {
    var objectAttributes :- c.ReadUint16();
    var vertices: Option<VertexData> := None;
    if Has(objectAttributes, OBJECT_GEOMETRY) {
      var v :- ReadGeometry(c);
      vertices := Some(v);
    }
    var groupCount :- c.ReadUint16();
    ghost var start := c.pos;
    var meshes: seq<Mesh> := [];
    var hoisted := held;
    var j := 0;
    ghost var left: nat := groupCount;
    while j < groupCount
      invariant c.Valid() && j <= groupCount && left + j == groupCount
      invariant BomLayout.GroupsAt(c.data, start, groupCount, vertices, materials, FunctionScope, held, [])
             == BomLayout.GroupsAt(c.data, c.pos, left, vertices, materials, FunctionScope, hoisted, meshes)
    {
      ghost var before, left0, meshes0, hoisted0 := c.pos, left, meshes, hoisted;
      var group := ReadGroup(c, vertices, materials, hoisted);
      if group.Err? {
        GroupsFail(c.data, before, left0, vertices, materials, FunctionScope, hoisted0, meshes0, group.error);
        return Err(group.error);
      }
      if group.value.value.Some? {
        meshes := meshes + [group.value.value.value];
      } else {
        assert meshes + BomLayout.OptionSeq(group.value.value) == meshes;
      }
      hoisted := group.value.hoisted;
      j := j + 1;
      left := left - 1;
      GroupsStep(c.data, before, left0, left, vertices, materials, FunctionScope, hoisted0, meshes0, group.value, c.pos);
    }
    GroupsDone(c.data, c.pos, left, vertices, materials, FunctionScope, hoisted, meshes);
    r := Ok(Carried(meshes, hoisted));
  }

  /** One asset record: its name and the meshes of all its objects, in order. */
  method ReadAsset(c: Cursor, materials: seq<Material>, held: Hoisted) returns (r: Result<Carried<Asset>>)
    requires c.Valid()
    modifies c
    ensures c.Valid()
    ensures Agrees(r, c.pos, BomLayout.AssetAt(c.data, old(c.pos), materials, FunctionScope, held))
  {
    var assetAttributes :- c.ReadUint16();
    var assetName: Option<Bytes> := None;
    if Has(assetAttributes, ASSET_NAME) {
      var name :- ReadString16(c);
      assetName := Some(name);
    }
    var objectCount :- c.ReadUint16();
    ghost var start := c.pos;
    var meshes: seq<Mesh> := [];
    var hoisted := held;
    var i := 0;
    ghost var left: nat := objectCount;
    while i < objectCount
      invariant c.Valid() && i <= objectCount && left + i == objectCount
      invariant BomLayout.ObjectsAt(c.data, start, objectCount, materials, FunctionScope, held, [])
             == BomLayout.ObjectsAt(c.data, c.pos, left, materials, FunctionScope, hoisted, meshes)
    {
      ghost var before, left0, meshes0, hoisted0 := c.pos, left, meshes, hoisted;
      var objectMeshes := ReadObject(c, materials, hoisted);
      if objectMeshes.Err? {
        ObjectsFail(c.data, before, left0, materials, FunctionScope, hoisted0, meshes0, objectMeshes.error);
        return Err(objectMeshes.error);
      }
      meshes := meshes + objectMeshes.value.value;
      hoisted := objectMeshes.value.hoisted;
      i := i + 1;
      left := left - 1;
      ObjectsStep(c.data, before, left0, left, materials, FunctionScope, hoisted0, meshes0, objectMeshes.value, c.pos);
    }
    ObjectsDone(c.data, c.pos, left, materials, FunctionScope, hoisted, meshes);
    r := Ok(Carried(Asset(assetName, meshes), hoisted));
  }

  /** `parse( buffer )`: `responseType` selects one root per asset ("array") or a single root. */
  method Parse(buffer: Bytes, responseType: string) returns (r: Result<Scene>)
    ensures r == BomLayout.Decode(buffer, responseType == "array")
  {
    var c := new Cursor(buffer);
    var isAssetArray := responseType == "array";
    var roots: seq<Root> := [];
    var group := Root(None, []);

    var fileSignature :- c.ReadString(3);
    var version :- c.ReadUint8();
    var fileAttributes :- c.ReadUint16();
    ghost var header := Header(fileSignature, version, fileAttributes);
    assert BomLayout.HeaderAt(buffer) == Ok(Parsed(header, c.pos));

    var materials :- ReadMaterialLibrary(c, fileAttributes);
    // `groupName`, `indices` and `material` are function-scoped: the last library material is still in `material`
    var hoisted := BomLayout.Start(materials);
    var assetCount :- c.ReadUint16();
    ghost var start := c.pos;
    ghost var decoded: seq<Asset> := [];
    ghost var held := hoisted;
    var a := 0;
    ghost var left: nat := assetCount;
    while a < assetCount
      invariant c.Valid() && c.data == buffer && a <= assetCount && left + a == assetCount
      invariant BomLayout.AssetsAt(buffer, start, assetCount, materials, FunctionScope, held, [])
             == BomLayout.AssetsAt(buffer, c.pos, left, materials, FunctionScope, hoisted, decoded)
      invariant isAssetArray ==> roots == BomLayout.RootsOf(decoded)
      invariant !isAssetArray ==> group == Root(BomLayout.LastName(decoded), BomLayout.AllMeshes(decoded))
    {
      ghost var before, left0, decoded0, hoisted0 := c.pos, left, decoded, hoisted;
      var asset := ReadAsset(c, materials, hoisted);
      if asset.Err? {
        AssetsFail(buffer, before, left0, materials, FunctionScope, hoisted0, decoded0, asset.error);
        return Err(asset.error);
      }
      var decodedAsset := asset.value.value;
      if isAssetArray {
        roots := roots + [Root(None, decodedAsset.meshes)];
      } else {
        if decodedAsset.name.Some? {
          group := group.(name := decodedAsset.name);
        }
        group := group.(children := group.children + decodedAsset.meshes);
      }
      hoisted := asset.value.hoisted;
      decoded := decoded + [decodedAsset];
      assert decoded[..|decoded| - 1] == decoded0;
      a := a + 1;
      left := left - 1;
      AssetsStep(buffer, before, left0, left, materials, FunctionScope, hoisted0, decoded0, asset.value, c.pos);
    }
    AssetsDone(buffer, c.pos, left, materials, FunctionScope, hoisted, decoded);
    r := if isAssetArray then Ok(Roots(roots)) else Ok(Grouped(group));
  }
}
