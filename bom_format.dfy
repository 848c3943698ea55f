/** The attribute bit tables of the BOM format and the neutral scene
    description the decoder produces in place of THREE.js objects. */
module BomFormat {
  import opened BomWire

  // FileDataAttribute
  const FILE_MATERIAL_LIBRARY: nat := 0x2

  // AssetDataAttribute
  const ASSET_NAME: nat := 0x2

  // GroupDataAttribute
  const GROUP_NAME: nat := 0x2
  const GROUP_INDEX: nat := 0x4
  const GROUP_SMOOTHING: nat := 0x8
  const GROUP_MATERIAL: nat := 0x10

  // ObjectDataAttribute
  const OBJECT_GEOMETRY: nat := 0x2

  // GeometryDataAttribute
  const GEOMETRY_NORMAL: nat := 0x2
  const GEOMETRY_UV: nat := 0x4

  // MapDataAttribute
  const MAP_PATH: nat := 0x2
  const MAP_SCALE: nat := 0x4
  const MAP_OFFSET: nat := 0x8
  const MAP_BUMP_SCALE: nat := 0x10
  const MAP_DISPLACEMENT_SCALE: nat := 0x20

  // FaceCulling
  const CULL_FRONT: uint8 := 1
  const CULL_BACK: uint8 := 2
  const CULL_ALL: uint8 := 3

  /** The optional parts of a material record, in the order they appear after its name. */
  datatype Field =
    | IlluminationModel | SpecularExponent | OpticalDensity | Dissolve
    | TransmissionFilter | AmbientReflectance | DiffuseReflectance
    | SpecularReflectance | EmissiveReflectance
    | AmbientMap | DiffuseMap | SpecularMap | EmissiveMap | DissolveMap
    | BumpMap | DisplacementMap | FaceCulling

  /** MaterialDataAttribute: the bit of the u32 material flags that gates each field. */
  function FieldMask(f: Field): (r: nat) {
    match f
    case IlluminationModel => 0x2
    case SpecularExponent => 0x4
    case OpticalDensity => 0x8
    case Dissolve => 0x10
    case TransmissionFilter => 0x20
    case AmbientReflectance => 0x40
    case DiffuseReflectance => 0x80
    case SpecularReflectance => 0x100
    case EmissiveReflectance => 0x200
    case AmbientMap => 0x400
    case DiffuseMap => 0x800
    case SpecularMap => 0x1000
    case EmissiveMap => 0x2000
    case DissolveMap => 0x4000
    case BumpMap => 0x8000
    case DisplacementMap => 0x1_0000
    case FaceCulling => 0x2_0000
  }

  datatype Vec2 = Vec2(x: F32, y: F32)
  datatype Rgb = Rgb(r: F32, g: F32, b: F32)
  datatype Side = FrontSide | BackSide | DoubleSide
  datatype Shading = FlatShading | SmoothShading

  /** A texture map reference: the raw path (empty when the record has none),
      the repeat and offset pairs, and the bump or displacement scale. */
  datatype MapRecord = MapRecord(path: Bytes, repeat: Option<Vec2>, offset: Option<Vec2>, scalar: Option<F32>)

  /** The material parameters a record sets; a None field is one the record left at the renderer's default. */
  datatype Material = Material(
    name: Bytes,
    shininess: Option<F32>,
    opacity: Option<F32>,
    transparent: bool,
    color: Option<Rgb>,
    specular: Option<Rgb>,
    emissive: Option<Rgb>,
    diffuseMap: Option<MapRecord>,  // THREE's `map`
    specularMap: Option<MapRecord>,
    emissiveMap: Option<MapRecord>,
    alphaMap: Option<MapRecord>,
    bumpMap: Option<MapRecord>,
    displacementMap: Option<MapRecord>,
    side: Option<Side>,
    visible: bool)

  /** The parameters of a material before any of its gated fields is read. */
  function Params(name: Bytes): (r: Material) {
    Material(name, None, None, false, None, None, None, None, None, None, None, None, None, None, true)
  }

  /** The material parameters a face-culling byte sets; the byte values 1 and 2 map to the opposite sides. */
  function Cull(params: Material, mode: uint8): (r: Material) {
    if mode == CULL_ALL then params.(visible := false)
    else if mode == CULL_FRONT then params.(side := Some(BackSide))
    else if mode == CULL_BACK then params.(side := Some(FrontSide))
    else params.(side := Some(DoubleSide))
  }

  datatype Header = Header(signature: Bytes, version: uint8, flags: uint16)

  /** One object's vertex arrays, shared by every mesh the object's groups produce. */
  datatype VertexData = VertexData(positions: seq<F32>, normals: Option<seq<F32>>, uvs: Option<seq<F32>>)

  /** The material a mesh is built with: a library material itself (the last one the library loop
      built, which the function-scoped `material` still holds until a group names one), or a
      group's clone of a library entry with the shading its smoothing byte selects. */
  datatype MeshMaterial = Instance(base: Material) | Clone(base: Material, shading: Shading)

  /** The function-scoped `groupName`, `indices` and `material` of `parse`: declared with `var`
      inside the group loop but never reset, each keeps the last value any group wrote to it. */
  datatype Hoisted = Hoisted(groupName: Option<Bytes>, indices: Option<seq<uint16>>, material: Option<MeshMaterial>)

  /** Where those three variables live: in the whole decode, as `var` makes them (the code as
      written), or in one group record, as the per-group declarations mean them to. */
  datatype Scope = FunctionScope | GroupScope

  /** A decoded value and the hoisted variables as the record leaves them. */
  datatype Carried<+T> = Carried(value: T, hoisted: Hoisted)

  /** What one group becomes; a None `normals` in `vertices` is what tells the renderer to derive them. */
  datatype Mesh = Mesh(name: Option<Bytes>, vertices: VertexData, indices: Option<seq<uint16>>, material: Option<MeshMaterial>)

  /** One decoded asset: its name, if it has one, and the meshes of all its objects in order. */
  datatype Asset = Asset(name: Option<Bytes>, meshes: seq<Mesh>)

  datatype File = File(header: Header, materials: seq<Material>, assets: seq<Asset>)

  /** A THREE.Group stand-in. */
  datatype Root = Root(name: Option<Bytes>, children: seq<Mesh>)

  /** The value `parse` returns: one root holding everything, or one root per asset. */
  datatype Scene = Grouped(root: Root) | Roots(roots: seq<Root>)
}
