/** Bytes after the last asset are never looked at: every record that decodes
    from a buffer decodes to the same value, ending at the same offset, from
    any longer buffer that starts with it. Each lemma moves one layer of the
    layout from `d` to `d + e`, using the lemmas of the layers below. */
module BomTrailing {
  import opened BomWire
  import opened BomFormat
  import opened BomLayout
  import opened BomRuns

  // ---- Primitive reads ----

  lemma U8Extends(d: Bytes, e: Bytes, p: nat)
    requires U8At(d, p).Ok?
    ensures U8At(d + e, p) == U8At(d, p)
  {
    assert (d + e)[p] == d[p];
  }

  lemma U16Extends(d: Bytes, e: Bytes, p: nat)
    requires U16At(d, p).Ok?
    ensures U16At(d + e, p) == U16At(d, p)
  {
    assert (d + e)[p] == d[p] && (d + e)[p + 1] == d[p + 1];
  }

  lemma U32Extends(d: Bytes, e: Bytes, p: nat)
    requires U32At(d, p).Ok?
    ensures U32At(d + e, p) == U32At(d, p) && F32At(d + e, p) == F32At(d, p)
  {
    assert (d + e)[p] == d[p] && (d + e)[p + 1] == d[p + 1];
    assert (d + e)[p + 2] == d[p + 2] && (d + e)[p + 3] == d[p + 3];
  }

  lemma StringExtends(d: Bytes, e: Bytes, p: nat, n: nat)
    requires StringAt(d, p, n).Ok?
    ensures StringAt(d + e, p, n) == StringAt(d, p, n)
  {
    if n > 0 {
      assert (d + e)[p..p + n] == d[p..p + n];
    }
  }

  lemma Str16Extends(d: Bytes, e: Bytes, p: nat)
    requires Str16At(d, p).Ok?
    ensures Str16At(d + e, p) == Str16At(d, p)
  {
    U16Extends(d, e, p);
    var len := U16At(d, p).value;
    StringExtends(d, e, len.next, len.value);
  }

  lemma U16ArrayExtends(d: Bytes, e: Bytes, p: nat, n: nat)
    requires U16ArrayAt(d, p, n).Ok?
    ensures U16ArrayAt(d + e, p, n) == U16ArrayAt(d, p, n)
  {
    assert forall i :: p <= i < p + 2 * n ==> (d + e)[i] == d[i];
    assert U16ArrayAt(d + e, p, n).value.value == U16ArrayAt(d, p, n).value.value;
  }

  lemma F32ArrayExtends(d: Bytes, e: Bytes, p: nat, n: nat)
    requires F32ArrayAt(d, p, n).Ok?
    ensures F32ArrayAt(d + e, p, n) == F32ArrayAt(d, p, n)
  {
    assert forall i :: p <= i < p + 4 * n ==> (d + e)[i] == d[i];
    assert F32ArrayAt(d + e, p, n).value.value == F32ArrayAt(d, p, n).value.value;
  }

  lemma Vec2Extends(d: Bytes, e: Bytes, p: nat)
    requires Vec2At(d, p).Ok?
    ensures Vec2At(d + e, p) == Vec2At(d, p)
  {
    U32Extends(d, e, p);
    U32Extends(d, e, F32At(d, p).value.next);
  }

  lemma RgbExtends(d: Bytes, e: Bytes, p: nat)
    requires RgbAt(d, p).Ok?
    ensures RgbAt(d + e, p) == RgbAt(d, p)
  {
    U32Extends(d, e, p);
    var red := F32At(d, p).value;
    U32Extends(d, e, red.next);
    U32Extends(d, e, F32At(d, red.next).value.next);
  }

  // ---- Header, maps and materials ----

  lemma HeaderExtends(d: Bytes, e: Bytes)
    requires HeaderAt(d).Ok?
    ensures HeaderAt(d + e) == HeaderAt(d)
  {
    StringExtends(d, e, 0, 3);
    U8Extends(d, e, 3);
    U16Extends(d, e, 4);
  }

  lemma MapExtends(d: Bytes, e: Bytes, p: nat, scalarMask: nat)
    requires MapAt(d, p, scalarMask).Ok?
    ensures MapAt(d + e, p, scalarMask) == MapAt(d, p, scalarMask)
  {
    U16Extends(d, e, p);
    var flags := U16At(d, p).value;
    var f := flags.value;
    if Has(f, MAP_PATH) {
      Str16Extends(d, e, flags.next);
    }
    var path := Gate(Has(f, MAP_PATH), flags.next, Str16At(d, flags.next)).value;
    if Has(f, MAP_SCALE) {
      Vec2Extends(d, e, path.next);
    }
    var repeat := Gate(Has(f, MAP_SCALE), path.next, Vec2At(d, path.next)).value;
    if Has(f, MAP_OFFSET) {
      Vec2Extends(d, e, repeat.next);
    }
    var offset := Gate(Has(f, MAP_OFFSET), repeat.next, Vec2At(d, repeat.next)).value;
    if Has(f, scalarMask) {
      U32Extends(d, e, offset.next);
    }
  }

  lemma FieldExtends(d: Bytes, e: Bytes, p: nat, flags: nat, field: Field, params: Material)
    requires FieldAt(d, p, flags, field, params).Ok?
    ensures FieldAt(d + e, p, flags, field, params) == FieldAt(d, p, flags, field, params)
  {
    if Has(flags, FieldMask(field)) {
      match field
      case IlluminationModel => U8Extends(d, e, p);
      case SpecularExponent => U32Extends(d, e, p);
      case OpticalDensity => U32Extends(d, e, p);
      case Dissolve => U32Extends(d, e, p);
      case TransmissionFilter => RgbExtends(d, e, p);
      case AmbientReflectance => RgbExtends(d, e, p);
      case DiffuseReflectance => RgbExtends(d, e, p);
      case SpecularReflectance => RgbExtends(d, e, p);
      case EmissiveReflectance => RgbExtends(d, e, p);
      case AmbientMap => MapExtends(d, e, p, 0);
      case DiffuseMap => MapExtends(d, e, p, 0);
      case SpecularMap => MapExtends(d, e, p, 0);
      case EmissiveMap => MapExtends(d, e, p, 0);
      case DissolveMap => MapExtends(d, e, p, 0);
      case BumpMap => MapExtends(d, e, p, MAP_BUMP_SCALE);
      case DisplacementMap => MapExtends(d, e, p, MAP_DISPLACEMENT_SCALE);
      case FaceCulling => U8Extends(d, e, p);
    }
  }

  lemma ThenExtends(d: Bytes, e: Bytes, r: Res<Material>, flags: nat, field: Field)
    requires Then(d, r, flags, field).Ok?
    ensures Then(d + e, r, flags, field) == Then(d, r, flags, field)
  {
    FieldExtends(d, e, r.value.next, flags, field, r.value.value);
  }

  lemma ScalarFieldsExtend(d: Bytes, e: Bytes, r: Res<Material>, f: nat)
    requires ScalarFieldsAt(d, r, f).Ok?
    ensures ScalarFieldsAt(d + e, r, f) == ScalarFieldsAt(d, r, f)
  {
    var r2 := Then(d, r, f, SpecularExponent);
    var r3 := Then(d, r2, f, OpticalDensity);
    var r4 := Then(d, r3, f, Dissolve);
    var r5 := Then(d, r4, f, TransmissionFilter);
    var r6 := Then(d, r5, f, AmbientReflectance);
    var r7 := Then(d, r6, f, DiffuseReflectance);
    var r8 := Then(d, r7, f, SpecularReflectance);
    ThenExtends(d, e, r8, f, EmissiveReflectance);
    ThenExtends(d, e, r7, f, SpecularReflectance);
    ThenExtends(d, e, r6, f, DiffuseReflectance);
    ThenExtends(d, e, r5, f, AmbientReflectance);
    ThenExtends(d, e, r4, f, TransmissionFilter);
    ThenExtends(d, e, r3, f, Dissolve);
    ThenExtends(d, e, r2, f, OpticalDensity);
    ThenExtends(d, e, r, f, SpecularExponent);
  }

  lemma MapFieldsExtend(d: Bytes, e: Bytes, r: Res<Material>, f: nat)
    requires MapFieldsAt(d, r, f).Ok?
    ensures MapFieldsAt(d + e, r, f) == MapFieldsAt(d, r, f)
  {
    var r10 := Then(d, r, f, AmbientMap);
    var r11 := Then(d, r10, f, DiffuseMap);
    var r12 := Then(d, r11, f, SpecularMap);
    var r13 := Then(d, r12, f, EmissiveMap);
    var r14 := Then(d, r13, f, DissolveMap);
    var r15 := Then(d, r14, f, BumpMap);
    var r16 := Then(d, r15, f, DisplacementMap);
    ThenExtends(d, e, r16, f, FaceCulling);
    ThenExtends(d, e, r15, f, DisplacementMap);
    ThenExtends(d, e, r14, f, BumpMap);
    ThenExtends(d, e, r13, f, DissolveMap);
    ThenExtends(d, e, r12, f, EmissiveMap);
    ThenExtends(d, e, r11, f, SpecularMap);
    ThenExtends(d, e, r10, f, DiffuseMap);
    ThenExtends(d, e, r, f, AmbientMap);
  }

  lemma MaterialExtends(d: Bytes, e: Bytes, p: nat)
    requires MaterialAt(d, p).Ok?
    ensures MaterialAt(d + e, p) == MaterialAt(d, p)
  {
    U32Extends(d, e, p);
    var flags := U32At(d, p).value;
    Str16Extends(d, e, flags.next);
    var name := Str16At(d, flags.next).value;
    var r1 := FieldAt(d, name.next, flags.value, IlluminationModel, Params(name.value));
    FieldExtends(d, e, name.next, flags.value, IlluminationModel, Params(name.value));
    ScalarFieldsExtend(d, e, r1, flags.value);
    MapFieldsExtend(d, e, ScalarFieldsAt(d, r1, flags.value), flags.value);
  }

  lemma {:induction false} MaterialsExtend(d: Bytes, e: Bytes, p: nat, k: nat, done: seq<Material>)
    requires MaterialsAt(d, p, k, done).Ok?
    ensures MaterialsAt(d + e, p, k, done) == MaterialsAt(d, p, k, done)
    decreases k
  {
    if k > 0 {
      var first := MaterialAt(d, p);
      if first.Err? {
        MaterialsFail(d, p, k, done, first.error);
      } else {
        var k' := k - 1;
        var m, q := first.value.value, first.value.next;
        MaterialExtends(d, e, p);
        MaterialsStep(d, p, k, k', done, m, q);
        MaterialsStep(d + e, p, k, k', done, m, q);
        MaterialsExtend(d, e, q, k', done + [m]);
      }
    }
  }

  lemma LibraryExtends(d: Bytes, e: Bytes, p: nat, fileFlags: nat)
    requires LibraryAt(d, p, fileFlags).Ok?
    ensures LibraryAt(d + e, p, fileFlags) == LibraryAt(d, p, fileFlags)
  {
    if Has(fileFlags, FILE_MATERIAL_LIBRARY) {
      U16Extends(d, e, p);
      var count := U16At(d, p).value;
      MaterialsExtend(d, e, count.next, count.value, []);
    }
  }

  // ---- Geometry, groups, objects and assets ----

  lemma GeometryExtends(d: Bytes, e: Bytes, p: nat)
    requires GeometryAt(d, p).Ok?
    ensures GeometryAt(d + e, p) == GeometryAt(d, p)
  {
    U16Extends(d, e, p);
    var flags := U16At(d, p).value;
    U32Extends(d, e, flags.next);
    var count := U32At(d, flags.next).value;
    var n: nat := count.value;
    F32ArrayExtends(d, e, count.next, 3 * n);
    var positions := F32ArrayAt(d, count.next, 3 * n).value;
    if Has(flags.value, GEOMETRY_NORMAL) {
      F32ArrayExtends(d, e, positions.next, 3 * n);
    }
    var normals := Gate(Has(flags.value, GEOMETRY_NORMAL), positions.next, F32ArrayAt(d, positions.next, 3 * n)).value;
    if Has(flags.value, GEOMETRY_UV) {
      F32ArrayExtends(d, e, normals.next, 2 * n);
    }
  }

  lemma GroupMeshExtends(d: Bytes, e: Bytes, p: nat, flags: nat, vertices: VertexData, materials: seq<Material>, h: Hoisted)
    requires GroupMeshAt(d, p, flags, vertices, materials, h).Ok?
    ensures GroupMeshAt(d + e, p, flags, vertices, materials, h) == GroupMeshAt(d, p, flags, vertices, materials, h)
  {
    if Has(flags, GROUP_INDEX) {
      U32Extends(d, e, p);
      var count := U32At(d, p).value;
      U16ArrayExtends(d, e, count.next, count.value);
    }
    var indices := Gate(Has(flags, GROUP_INDEX), p, IndicesAt(d, p)).value;
    if Has(flags, GROUP_SMOOTHING) {
      U8Extends(d, e, indices.next);
    }
    var smoothing := (if Has(flags, GROUP_SMOOTHING) then U8At(d, indices.next) else Ok(Parsed(0, indices.next))).value;
    if Has(flags, GROUP_MATERIAL) {
      U16Extends(d, e, smoothing.next);
    }
  }

  lemma GroupExtends(d: Bytes, e: Bytes, p: nat, vertices: Option<VertexData>, materials: seq<Material>, h: Hoisted)
    requires GroupAt(d, p, vertices, materials, h).Ok?
    ensures GroupAt(d + e, p, vertices, materials, h) == GroupAt(d, p, vertices, materials, h)
  {
    U16Extends(d, e, p);
    var flags := U16At(d, p).value;
    if Has(flags.value, GROUP_NAME) {
      Str16Extends(d, e, flags.next);
    }
    var read := Gate(Has(flags.value, GROUP_NAME), flags.next, Str16At(d, flags.next)).value;
    if vertices.Some? {
      GroupMeshExtends(d, e, read.next, flags.value, vertices.value, materials, h.(groupName := Latest(read.value, h.groupName)));
    }
  }

  lemma {:induction false} GroupsExtend(d: Bytes, e: Bytes, p: nat, k: nat, vertices: Option<VertexData>, materials: seq<Material>,
                                        scope: Scope, h: Hoisted, done: seq<Mesh>)
    requires GroupsAt(d, p, k, vertices, materials, scope, h, done).Ok?
    ensures GroupsAt(d + e, p, k, vertices, materials, scope, h, done) == GroupsAt(d, p, k, vertices, materials, scope, h, done)
    decreases k
  {
    if k > 0 {
      var first := GroupAt(d, p, vertices, materials, Enter(scope, h));
      if first.Err? {
        GroupsFail(d, p, k, vertices, materials, scope, h, done, first.error);
      } else {
        var k' := k - 1;
        var g, q := first.value.value, first.value.next;
        GroupExtends(d, e, p, vertices, materials, Enter(scope, h));
        GroupsStep(d, p, k, k', vertices, materials, scope, h, done, g, q);
        GroupsStep(d + e, p, k, k', vertices, materials, scope, h, done, g, q);
        GroupsExtend(d, e, q, k', vertices, materials, scope, g.hoisted, done + OptionSeq(g.value));
      }
    }
  }

  lemma ObjectExtends(d: Bytes, e: Bytes, p: nat, materials: seq<Material>, scope: Scope, h: Hoisted)
    requires ObjectAt(d, p, materials, scope, h).Ok?
    ensures ObjectAt(d + e, p, materials, scope, h) == ObjectAt(d, p, materials, scope, h)
  {
    U16Extends(d, e, p);
    var flags := U16At(d, p).value;
    if Has(flags.value, OBJECT_GEOMETRY) {
      GeometryExtends(d, e, flags.next);
    }
    var vertices := Gate(Has(flags.value, OBJECT_GEOMETRY), flags.next, GeometryAt(d, flags.next)).value;
    U16Extends(d, e, vertices.next);
    var count := U16At(d, vertices.next).value;
    GroupsExtend(d, e, count.next, count.value, vertices.value, materials, scope, h, []);
  }

  lemma {:induction false} ObjectsExtend(d: Bytes, e: Bytes, p: nat, k: nat, materials: seq<Material>, scope: Scope, h: Hoisted, done: seq<Mesh>)
    requires ObjectsAt(d, p, k, materials, scope, h, done).Ok?
    ensures ObjectsAt(d + e, p, k, materials, scope, h, done) == ObjectsAt(d, p, k, materials, scope, h, done)
    decreases k
  {
    if k > 0 {
      var first := ObjectAt(d, p, materials, scope, h);
      if first.Err? {
        ObjectsFail(d, p, k, materials, scope, h, done, first.error);
      } else {
        var k' := k - 1;
        var o, q := first.value.value, first.value.next;
        ObjectExtends(d, e, p, materials, scope, h);
        ObjectsStep(d, p, k, k', materials, scope, h, done, o, q);
        ObjectsStep(d + e, p, k, k', materials, scope, h, done, o, q);
        ObjectsExtend(d, e, q, k', materials, scope, o.hoisted, done + o.value);
      }
    }
  }

  lemma AssetExtends(d: Bytes, e: Bytes, p: nat, materials: seq<Material>, scope: Scope, h: Hoisted)
    requires AssetAt(d, p, materials, scope, h).Ok?
    ensures AssetAt(d + e, p, materials, scope, h) == AssetAt(d, p, materials, scope, h)
  {
    U16Extends(d, e, p);
    var flags := U16At(d, p).value;
    if Has(flags.value, ASSET_NAME) {
      Str16Extends(d, e, flags.next);
    }
    var name := Gate(Has(flags.value, ASSET_NAME), flags.next, Str16At(d, flags.next)).value;
    U16Extends(d, e, name.next);
    var count := U16At(d, name.next).value;
    ObjectsExtend(d, e, count.next, count.value, materials, scope, h, []);
  }

  lemma {:induction false} AssetsExtend(d: Bytes, e: Bytes, p: nat, k: nat, materials: seq<Material>, scope: Scope, h: Hoisted, done: seq<Asset>)
    requires AssetsAt(d, p, k, materials, scope, h, done).Ok?
    ensures AssetsAt(d + e, p, k, materials, scope, h, done) == AssetsAt(d, p, k, materials, scope, h, done)
    decreases k
  {
    if k > 0 {
      var first := AssetAt(d, p, materials, scope, h);
      if first.Err? {
        AssetsFail(d, p, k, materials, scope, h, done, first.error);
      } else {
        var k' := k - 1;
        var a, q := first.value.value, first.value.next;
        AssetExtends(d, e, p, materials, scope, h);
        AssetsStep(d, p, k, k', materials, scope, h, done, a, q);
        AssetsStep(d + e, p, k, k', materials, scope, h, done, a, q);
        AssetsExtend(d, e, q, k', materials, scope, a.hoisted, done + [a.value]);
      }
    }
  }

  // ---- The whole file ----

  lemma FileExtends(d: Bytes, e: Bytes, scope: Scope)
    requires FileAt(d, scope).Ok?
    ensures FileAt(d + e, scope) == FileAt(d, scope)
  {
    HeaderExtends(d, e);
    var header := HeaderAt(d).value;
    LibraryExtends(d, e, header.next, header.value.flags);
    var materials := LibraryAt(d, header.next, header.value.flags).value;
    U16Extends(d, e, materials.next);
    var count := U16At(d, materials.next).value;
    AssetsExtend(d, e, count.next, count.value, materials.value, scope, Start(materials.value), []);
  }

  /** `parse` ignores whatever follows the last asset: appending bytes to a buffer that decodes changes nothing. */
  lemma TrailingBytesIgnored(d: Bytes, e: Bytes, isAssetArray: bool)
    requires Decode(d, isAssetArray).Ok?
    ensures Decode(d + e, isAssetArray) == Decode(d, isAssetArray)
  {
    FileExtends(d, e, FunctionScope);
  }
}
