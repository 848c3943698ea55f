/** A buffer cut short never decodes to a wrong-but-successful result. For every
    record that decodes from `c + e`, the prefix `c` gives the same result when
    the record ends within `c`, and the RangeError of a read past the end
    (`Truncated`) when it does not. Each lemma moves one layer of the layout
    from `c + e` to `c`, using the lemmas of the layers below, as the lemmas
    of BomTrailing do in the other direction. */
module BomTruncation {
  import opened BomWire
  import opened BomFormat
  import opened BomLayout
  import opened BomRuns

  /** What a record decoded from a buffer becomes once the buffer is cut to its first `n` bytes:
      the same result if it ends within them, and `Truncated` otherwise. */
  function Cut<T>(r: Res<T>, n: nat): (c: Res<T>) {
    if r.Ok? && r.value.next <= n then r else Err(Truncated)
  }

  // ---- Primitive reads ----

  lemma U8Cut(c: Bytes, e: Bytes, p: nat)
    requires p <= |c|
    ensures U8At(c, p) == Cut(U8At(c + e, p), |c|)
  {
    if p + 1 <= |c| {
      assert (c + e)[p] == c[p];
    }
  }

  lemma U16Cut(c: Bytes, e: Bytes, p: nat)
    requires p <= |c|
    ensures U16At(c, p) == Cut(U16At(c + e, p), |c|)
  {
    if p + 2 <= |c| {
      assert (c + e)[p] == c[p] && (c + e)[p + 1] == c[p + 1];
    }
  }

  lemma U32Cut(c: Bytes, e: Bytes, p: nat)
    requires p <= |c|
    ensures U32At(c, p) == Cut(U32At(c + e, p), |c|) && F32At(c, p) == Cut(F32At(c + e, p), |c|)
  {
    if p + 4 <= |c| {
      assert (c + e)[p] == c[p] && (c + e)[p + 1] == c[p + 1];
      assert (c + e)[p + 2] == c[p + 2] && (c + e)[p + 3] == c[p + 3];
    }
  }

  lemma StringCut(c: Bytes, e: Bytes, p: nat, n: nat)
    requires p <= |c|
    ensures StringAt(c, p, n) == Cut(StringAt(c + e, p, n), |c|)
  {
    if n > 0 && p + n <= |c| {
      assert (c + e)[p..p + n] == c[p..p + n];
    }
  }

  lemma Str16Cut(c: Bytes, e: Bytes, p: nat)
    requires p <= |c|
    ensures Str16At(c, p) == Cut(Str16At(c + e, p), |c|)
  {
    U16Cut(c, e, p);
    var len := U16At(c + e, p);
    if len.Ok? && len.value.next <= |c| {
      StringCut(c, e, len.value.next, len.value.value);
    }
  }

  lemma U16ArrayCut(c: Bytes, e: Bytes, p: nat, n: nat)
    requires p <= |c|
    ensures U16ArrayAt(c, p, n) == Cut(U16ArrayAt(c + e, p, n), |c|)
  {
    if p + 2 * n <= |c| {
      assert forall i :: p <= i < p + 2 * n ==> (c + e)[i] == c[i];
      assert U16ArrayAt(c, p, n).value.value == U16ArrayAt(c + e, p, n).value.value;
    }
  }

  lemma F32ArrayCut(c: Bytes, e: Bytes, p: nat, n: nat)
    requires p <= |c|
    ensures F32ArrayAt(c, p, n) == Cut(F32ArrayAt(c + e, p, n), |c|)
  {
    if p + 4 * n <= |c| {
      assert forall i :: p <= i < p + 4 * n ==> (c + e)[i] == c[i];
      assert F32ArrayAt(c, p, n).value.value == F32ArrayAt(c + e, p, n).value.value;
    }
  }

  lemma Vec2Cut(c: Bytes, e: Bytes, p: nat)
    requires p <= |c|
    ensures Vec2At(c, p) == Cut(Vec2At(c + e, p), |c|)
  {
    U32Cut(c, e, p);
    var x := F32At(c + e, p);
    if x.Ok? && x.value.next <= |c| {
      U32Cut(c, e, x.value.next);
    }
  }

  lemma RgbCut(c: Bytes, e: Bytes, p: nat)
    requires p <= |c|
    ensures RgbAt(c, p) == Cut(RgbAt(c + e, p), |c|)
  {
    U32Cut(c, e, p);
    var red := F32At(c + e, p);
    if red.Ok? && red.value.next <= |c| {
      U32Cut(c, e, red.value.next);
      var green := F32At(c + e, red.value.next);
      if green.Ok? && green.value.next <= |c| {
        U32Cut(c, e, green.value.next);
      }
    }
  }

  /** A field behind a flag bit is cut the way the read behind it is. */
  lemma GateCut<T>(on: bool, p: nat, r: Res<T>, n: nat)
    requires p <= n
    ensures Gate(on, p, Cut(r, n)) == Cut(Gate(on, p, r), n)
  {
  }

  // ---- Header, maps and materials ----

  lemma HeaderCut(c: Bytes, e: Bytes)
    ensures HeaderAt(c) == Cut(HeaderAt(c + e), |c|)
  {
    var d := c + e;
    StringCut(c, e, 0, 3);
    var signature := StringAt(d, 0, 3);
    if signature.Ok? && signature.value.next <= |c| {
      U8Cut(c, e, signature.value.next);
      var version := U8At(d, signature.value.next);
      if version.Ok? && version.value.next <= |c| {
        U16Cut(c, e, version.value.next);
      }
    }
  }

  lemma MapCut(c: Bytes, e: Bytes, p: nat, scalarMask: nat)
    requires p <= |c| && MapAt(c + e, p, scalarMask).Ok?
    ensures MapAt(c, p, scalarMask) == Cut(MapAt(c + e, p, scalarMask), |c|)
  {
    var d, n := c + e, |c|;
    U16Cut(c, e, p);
    var flags := U16At(d, p).value;
    var f := flags.value;
    if flags.next <= n {
      Str16Cut(c, e, flags.next);
      GateCut(Has(f, MAP_PATH), flags.next, Str16At(d, flags.next), n);
      var path := Gate(Has(f, MAP_PATH), flags.next, Str16At(d, flags.next)).value;
      if path.next <= n {
        Vec2Cut(c, e, path.next);
        GateCut(Has(f, MAP_SCALE), path.next, Vec2At(d, path.next), n);
        var repeat := Gate(Has(f, MAP_SCALE), path.next, Vec2At(d, path.next)).value;
        if repeat.next <= n {
          Vec2Cut(c, e, repeat.next);
          GateCut(Has(f, MAP_OFFSET), repeat.next, Vec2At(d, repeat.next), n);
          var offset := Gate(Has(f, MAP_OFFSET), repeat.next, Vec2At(d, repeat.next)).value;
          if offset.next <= n {
            U32Cut(c, e, offset.next);
            GateCut(Has(f, scalarMask), offset.next, F32At(d, offset.next), n);
          }
        }
      }
    }
  }

  lemma FieldCut(c: Bytes, e: Bytes, p: nat, flags: nat, field: Field, params: Material)
    requires p <= |c| && FieldAt(c + e, p, flags, field, params).Ok?
    ensures FieldAt(c, p, flags, field, params) == Cut(FieldAt(c + e, p, flags, field, params), |c|)
  {
    if Has(flags, FieldMask(field)) {
      match field
      case IlluminationModel => U8Cut(c, e, p);
      case SpecularExponent => U32Cut(c, e, p);
      case OpticalDensity => U32Cut(c, e, p);
      case Dissolve => U32Cut(c, e, p);
      case TransmissionFilter => RgbCut(c, e, p);
      case AmbientReflectance => RgbCut(c, e, p);
      case DiffuseReflectance => RgbCut(c, e, p);
      case SpecularReflectance => RgbCut(c, e, p);
      case EmissiveReflectance => RgbCut(c, e, p);
      case AmbientMap => MapCut(c, e, p, 0);
      case DiffuseMap => MapCut(c, e, p, 0);
      case SpecularMap => MapCut(c, e, p, 0);
      case EmissiveMap => MapCut(c, e, p, 0);
      case DissolveMap => MapCut(c, e, p, 0);
      case BumpMap => MapCut(c, e, p, MAP_BUMP_SCALE);
      case DisplacementMap => MapCut(c, e, p, MAP_DISPLACEMENT_SCALE);
      case FaceCulling => U8Cut(c, e, p);
    }
  }

  /** One more field after a step that was itself cut. */
  lemma ThenCut(c: Bytes, e: Bytes, r: Res<Material>, flags: nat, field: Field)
    requires Then(c + e, r, flags, field).Ok? && r.value.next <= |c + e|
    ensures Then(c, Cut(r, |c|), flags, field) == Cut(Then(c + e, r, flags, field), |c|)
  {
    if r.value.next <= |c| {
      FieldCut(c, e, r.value.next, flags, field, r.value.value);
    }
  }

  lemma ScalarFieldsCut(c: Bytes, e: Bytes, r: Res<Material>, f: nat)
    requires ScalarFieldsAt(c + e, r, f).Ok? && r.value.next <= |c + e|
    ensures ScalarFieldsAt(c, Cut(r, |c|), f) == Cut(ScalarFieldsAt(c + e, r, f), |c|)
  {
    var d := c + e;
    var r2 := Then(d, r, f, SpecularExponent);
    var r3 := Then(d, r2, f, OpticalDensity);
    var r4 := Then(d, r3, f, Dissolve);
    var r5 := Then(d, r4, f, TransmissionFilter);
    var r6 := Then(d, r5, f, AmbientReflectance);
    var r7 := Then(d, r6, f, DiffuseReflectance);
    var r8 := Then(d, r7, f, SpecularReflectance);
    ThenCut(c, e, r, f, SpecularExponent);
    ThenCut(c, e, r2, f, OpticalDensity);
    ThenCut(c, e, r3, f, Dissolve);
    ThenCut(c, e, r4, f, TransmissionFilter);
    ThenCut(c, e, r5, f, AmbientReflectance);
    ThenCut(c, e, r6, f, DiffuseReflectance);
    ThenCut(c, e, r7, f, SpecularReflectance);
    ThenCut(c, e, r8, f, EmissiveReflectance);
  }

  lemma MapFieldsCut(c: Bytes, e: Bytes, r: Res<Material>, f: nat)
    requires MapFieldsAt(c + e, r, f).Ok? && r.value.next <= |c + e|
    ensures MapFieldsAt(c, Cut(r, |c|), f) == Cut(MapFieldsAt(c + e, r, f), |c|)
  {
    var d := c + e;
    var r10 := Then(d, r, f, AmbientMap);
    var r11 := Then(d, r10, f, DiffuseMap);
    var r12 := Then(d, r11, f, SpecularMap);
    var r13 := Then(d, r12, f, EmissiveMap);
    var r14 := Then(d, r13, f, DissolveMap);
    var r15 := Then(d, r14, f, BumpMap);
    var r16 := Then(d, r15, f, DisplacementMap);
    ThenCut(c, e, r, f, AmbientMap);
    ThenCut(c, e, r10, f, DiffuseMap);
    ThenCut(c, e, r11, f, SpecularMap);
    ThenCut(c, e, r12, f, EmissiveMap);
    ThenCut(c, e, r13, f, DissolveMap);
    ThenCut(c, e, r14, f, BumpMap);
    ThenCut(c, e, r15, f, DisplacementMap);
    ThenCut(c, e, r16, f, FaceCulling);
  }

  lemma MaterialCut(c: Bytes, e: Bytes, p: nat)
    requires p <= |c| && MaterialAt(c + e, p).Ok?
    ensures MaterialAt(c, p) == Cut(MaterialAt(c + e, p), |c|)
  {
    var d, n := c + e, |c|;
    U32Cut(c, e, p);
    var flags := U32At(d, p).value;
    if flags.next <= n {
      Str16Cut(c, e, flags.next);
      var name := Str16At(d, flags.next).value;
      if name.next <= n {
        var r1 := FieldAt(d, name.next, flags.value, IlluminationModel, Params(name.value));
        FieldCut(c, e, name.next, flags.value, IlluminationModel, Params(name.value));
        ScalarFieldsCut(c, e, r1, flags.value);
        MapFieldsCut(c, e, ScalarFieldsAt(d, r1, flags.value), flags.value);
      }
    }
  }

  lemma {:induction false} MaterialsCut(c: Bytes, e: Bytes, p: nat, k: nat, done: seq<Material>)
    requires p <= |c| && MaterialsAt(c + e, p, k, done).Ok?
    ensures MaterialsAt(c, p, k, done) == Cut(MaterialsAt(c + e, p, k, done), |c|)
    decreases k
  {
    var d := c + e;
    if k > 0 {
      var first := MaterialAt(d, p).value;
      var k' := k - 1;
      var m, q := first.value, first.next;
      MaterialCut(c, e, p);
      MaterialsStep(d, p, k, k', done, m, q);
      if q <= |c| {
        MaterialsStep(c, p, k, k', done, m, q);
        MaterialsCut(c, e, q, k', done + [m]);
      } else {
        MaterialsFail(c, p, k, done, Truncated);
      }
    }
  }

  lemma LibraryCut(c: Bytes, e: Bytes, p: nat, fileFlags: nat)
    requires p <= |c| && LibraryAt(c + e, p, fileFlags).Ok?
    ensures LibraryAt(c, p, fileFlags) == Cut(LibraryAt(c + e, p, fileFlags), |c|)
  {
    if Has(fileFlags, FILE_MATERIAL_LIBRARY) {
      U16Cut(c, e, p);
      var count := U16At(c + e, p).value;
      if count.next <= |c| {
        MaterialsCut(c, e, count.next, count.value, []);
      }
    }
  }

  // ---- Geometry, groups, objects and assets ----

  lemma GeometryCut(c: Bytes, e: Bytes, p: nat)
    requires p <= |c| && GeometryAt(c + e, p).Ok?
    ensures GeometryAt(c, p) == Cut(GeometryAt(c + e, p), |c|)
  {
    var d, m := c + e, |c|;
    U16Cut(c, e, p);
    var flags := U16At(d, p).value;
    if flags.next <= m {
      U32Cut(c, e, flags.next);
      var count := U32At(d, flags.next).value;
      var n: nat := count.value;
      if count.next <= m {
        F32ArrayCut(c, e, count.next, 3 * n);
        var positions := F32ArrayAt(d, count.next, 3 * n).value;
        if positions.next <= m {
          F32ArrayCut(c, e, positions.next, 3 * n);
          GateCut(Has(flags.value, GEOMETRY_NORMAL), positions.next, F32ArrayAt(d, positions.next, 3 * n), m);
          var normals := Gate(Has(flags.value, GEOMETRY_NORMAL), positions.next, F32ArrayAt(d, positions.next, 3 * n)).value;
          if normals.next <= m {
            F32ArrayCut(c, e, normals.next, 2 * n);
            GateCut(Has(flags.value, GEOMETRY_UV), normals.next, F32ArrayAt(d, normals.next, 2 * n), m);
          }
        }
      }
    }
  }

  lemma IndicesCut(c: Bytes, e: Bytes, p: nat)
    requires p <= |c|
    ensures IndicesAt(c, p) == Cut(IndicesAt(c + e, p), |c|)
  {
    U32Cut(c, e, p);
    var count := U32At(c + e, p);
    if count.Ok? && count.value.next <= |c| {
      U16ArrayCut(c, e, count.value.next, count.value.value);
    }
  }

  /** A material id that resolved in the longer buffer resolves to the same clone, or its two bytes are missing. */
  lemma GroupMaterialCut(c: Bytes, e: Bytes, p: nat, on: bool, smoothing: uint8, materials: seq<Material>)
    requires p <= |c| && GroupMaterialAt(c + e, p, on, smoothing, materials).Ok?
    ensures GroupMaterialAt(c, p, on, smoothing, materials) == Cut(GroupMaterialAt(c + e, p, on, smoothing, materials), |c|)
  {
    U16Cut(c, e, p);
  }

  lemma GroupMeshCut(c: Bytes, e: Bytes, p: nat, flags: nat, vertices: VertexData, materials: seq<Material>, h: Hoisted)
    requires p <= |c| && GroupMeshAt(c + e, p, flags, vertices, materials, h).Ok?
    ensures GroupMeshAt(c, p, flags, vertices, materials, h) == Cut(GroupMeshAt(c + e, p, flags, vertices, materials, h), |c|)
  {
    var d, n := c + e, |c|;
    IndicesCut(c, e, p);
    GateCut(Has(flags, GROUP_INDEX), p, IndicesAt(d, p), n);
    var read := Gate(Has(flags, GROUP_INDEX), p, IndicesAt(d, p)).value;
    if read.next <= n {
      U8Cut(c, e, read.next);
      var smoothing := (if Has(flags, GROUP_SMOOTHING) then U8At(d, read.next) else Ok(Parsed(0, read.next))).value;
      if smoothing.next <= n {
        GroupMaterialCut(c, e, smoothing.next, Has(flags, GROUP_MATERIAL), smoothing.value, materials);
      }
    }
  }

  lemma GroupCut(c: Bytes, e: Bytes, p: nat, vertices: Option<VertexData>, materials: seq<Material>, h: Hoisted)
    requires p <= |c| && GroupAt(c + e, p, vertices, materials, h).Ok?
    ensures GroupAt(c, p, vertices, materials, h) == Cut(GroupAt(c + e, p, vertices, materials, h), |c|)
  {
    var d, n := c + e, |c|;
    U16Cut(c, e, p);
    var flags := U16At(d, p).value;
    if flags.next <= n {
      Str16Cut(c, e, flags.next);
      GateCut(Has(flags.value, GROUP_NAME), flags.next, Str16At(d, flags.next), n);
      var read := Gate(Has(flags.value, GROUP_NAME), flags.next, Str16At(d, flags.next)).value;
      if vertices.Some? && read.next <= n {
        GroupMeshCut(c, e, read.next, flags.value, vertices.value, materials, h.(groupName := Latest(read.value, h.groupName)));
      }
    }
  }

  lemma {:induction false} GroupsCut(c: Bytes, e: Bytes, p: nat, k: nat, vertices: Option<VertexData>, materials: seq<Material>,
                                     scope: Scope, h: Hoisted, done: seq<Mesh>)
    requires p <= |c| && GroupsAt(c + e, p, k, vertices, materials, scope, h, done).Ok?
    ensures GroupsAt(c, p, k, vertices, materials, scope, h, done) == Cut(GroupsAt(c + e, p, k, vertices, materials, scope, h, done), |c|)
    decreases k
  {
    var d := c + e;
    if k > 0 {
      var first := GroupAt(d, p, vertices, materials, Enter(scope, h)).value;
      var k' := k - 1;
      var g, q := first.value, first.next;
      GroupCut(c, e, p, vertices, materials, Enter(scope, h));
      GroupsStep(d, p, k, k', vertices, materials, scope, h, done, g, q);
      if q <= |c| {
        GroupsStep(c, p, k, k', vertices, materials, scope, h, done, g, q);
        GroupsCut(c, e, q, k', vertices, materials, scope, g.hoisted, done + OptionSeq(g.value));
      } else {
        GroupsFail(c, p, k, vertices, materials, scope, h, done, Truncated);
      }
    }
  }

  lemma ObjectCut(c: Bytes, e: Bytes, p: nat, materials: seq<Material>, scope: Scope, h: Hoisted)
    requires p <= |c| && ObjectAt(c + e, p, materials, scope, h).Ok?
    ensures ObjectAt(c, p, materials, scope, h) == Cut(ObjectAt(c + e, p, materials, scope, h), |c|)
  {
    var d, n := c + e, |c|;
    U16Cut(c, e, p);
    var flags := U16At(d, p).value;
    if flags.next <= n {
      if Has(flags.value, OBJECT_GEOMETRY) {
        GeometryCut(c, e, flags.next);
      }
      var vertices := Gate(Has(flags.value, OBJECT_GEOMETRY), flags.next, GeometryAt(d, flags.next)).value;
      if vertices.next <= n {
        U16Cut(c, e, vertices.next);
        var count := U16At(d, vertices.next).value;
        if count.next <= n {
          GroupsCut(c, e, count.next, count.value, vertices.value, materials, scope, h, []);
        }
      }
    }
  }

  lemma {:induction false} ObjectsCut(c: Bytes, e: Bytes, p: nat, k: nat, materials: seq<Material>, scope: Scope, h: Hoisted, done: seq<Mesh>)
    requires p <= |c| && ObjectsAt(c + e, p, k, materials, scope, h, done).Ok?
    ensures ObjectsAt(c, p, k, materials, scope, h, done) == Cut(ObjectsAt(c + e, p, k, materials, scope, h, done), |c|)
    decreases k
  {
    var d := c + e;
    if k > 0 {
      var first := ObjectAt(d, p, materials, scope, h).value;
      var k' := k - 1;
      var o, q := first.value, first.next;
      ObjectCut(c, e, p, materials, scope, h);
      ObjectsStep(d, p, k, k', materials, scope, h, done, o, q);
      if q <= |c| {
        ObjectsStep(c, p, k, k', materials, scope, h, done, o, q);
        ObjectsCut(c, e, q, k', materials, scope, o.hoisted, done + o.value);
      } else {
        ObjectsFail(c, p, k, materials, scope, h, done, Truncated);
      }
    }
  }

  lemma AssetCut(c: Bytes, e: Bytes, p: nat, materials: seq<Material>, scope: Scope, h: Hoisted)
    requires p <= |c| && AssetAt(c + e, p, materials, scope, h).Ok?
    ensures AssetAt(c, p, materials, scope, h) == Cut(AssetAt(c + e, p, materials, scope, h), |c|)
  {
    var d, n := c + e, |c|;
    U16Cut(c, e, p);
    var flags := U16At(d, p).value;
    if flags.next <= n {
      Str16Cut(c, e, flags.next);
      GateCut(Has(flags.value, ASSET_NAME), flags.next, Str16At(d, flags.next), n);
      var name := Gate(Has(flags.value, ASSET_NAME), flags.next, Str16At(d, flags.next)).value;
      if name.next <= n {
        U16Cut(c, e, name.next);
        var count := U16At(d, name.next).value;
        if count.next <= n {
          ObjectsCut(c, e, count.next, count.value, materials, scope, h, []);
        }
      }
    }
  }

  lemma {:induction false} AssetsCut(c: Bytes, e: Bytes, p: nat, k: nat, materials: seq<Material>, scope: Scope, h: Hoisted, done: seq<Asset>)
    requires p <= |c| && AssetsAt(c + e, p, k, materials, scope, h, done).Ok?
    ensures AssetsAt(c, p, k, materials, scope, h, done) == Cut(AssetsAt(c + e, p, k, materials, scope, h, done), |c|)
    decreases k
  {
    var d := c + e;
    if k > 0 {
      var first := AssetAt(d, p, materials, scope, h).value;
      var k' := k - 1;
      var a, q := first.value, first.next;
      AssetCut(c, e, p, materials, scope, h);
      AssetsStep(d, p, k, k', materials, scope, h, done, a, q);
      if q <= |c| {
        AssetsStep(c, p, k, k', materials, scope, h, done, a, q);
        AssetsCut(c, e, q, k', materials, scope, a.hoisted, done + [a.value]);
      } else {
        AssetsFail(c, p, k, materials, scope, h, done, Truncated);
      }
    }
  }

  // ---- The whole file ----

  lemma FileCut(c: Bytes, e: Bytes, scope: Scope)
    requires FileAt(c + e, scope).Ok?
    ensures FileAt(c, scope) == Cut(FileAt(c + e, scope), |c|)
  {
    var d, n := c + e, |c|;
    HeaderCut(c, e);
    var header := HeaderAt(d).value;
    if header.next <= n {
      LibraryCut(c, e, header.next, header.value.flags);
      var materials := LibraryAt(d, header.next, header.value.flags).value;
      if materials.next <= n {
        U16Cut(c, e, materials.next);
        var count := U16At(d, materials.next).value;
        if count.next <= n {
          AssetsCut(c, e, count.next, count.value, materials.value, scope, Start(materials.value), []);
        }
      }
    }
  }

  /** A buffer cut anywhere before the end of the last asset fails with `Truncated`: it never decodes to a
      different scene, and never to a NoSuchMaterial error either. */
  lemma TruncationFails(d: Bytes, k: nat, scope: Scope)
    requires FileAt(d, scope).Ok? && k < FileAt(d, scope).value.next
    ensures FileAt(d[..k], scope) == Err(Truncated)
  {
    assert d[..k] + d[k..] == d;
    FileCut(d[..k], d[k..], scope);
  }

  /** A buffer cut anywhere at or after the end of the last asset decodes to the same file. */
  lemma TruncationAfterEnd(d: Bytes, k: nat, scope: Scope)
    requires FileAt(d, scope).Ok? && FileAt(d, scope).value.next <= k <= |d|
    ensures FileAt(d[..k], scope) == FileAt(d, scope)
  {
    assert d[..k] + d[k..] == d;
    FileCut(d[..k], d[k..], scope);
  }

  /** What `parse` returns for a buffer cut before the end of a file that decodes: the RangeError, in both result modes. */
  lemma TruncatedDecodeFails(d: Bytes, k: nat, isAssetArray: bool)
    requires Decode(d, isAssetArray).Ok? && k < FileAt(d, FunctionScope).value.next
    ensures Decode(d[..k], isAssetArray) == Err(Truncated)
  {
    TruncationFails(d, k, FunctionScope);
  }
}
