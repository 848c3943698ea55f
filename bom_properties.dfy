/** What the byte layout promises, stated against BomLayout: widths and
    little-endian values of the primitive reads, the gating of every optional
    field, the shape of each record, and the shape of the assembled scene. */
module BomProperties {
  import opened BomWire
  import opened BomFormat
  import opened BomLayout
  import opened BomRuns

  // ---- Primitive reads ----

  /** Each fixed-width read succeeds exactly when its bytes lie inside the buffer, and then consumes exactly them. */
  lemma ReadWidths(d: Bytes, p: nat)
    ensures U8At(d, p).Ok? <==> p + 1 <= |d|
    ensures U16At(d, p).Ok? <==> p + 2 <= |d|
    ensures U32At(d, p).Ok? <==> p + 4 <= |d|
    ensures F32At(d, p).Ok? <==> p + 4 <= |d|
    ensures U8At(d, p).Ok? ==> U8At(d, p).value == Parsed(d[p], p + 1)
    ensures U16At(d, p).Ok? ==> U16At(d, p).value.next == p + 2
    ensures U32At(d, p).Ok? ==> U32At(d, p).value.next == p + 4
    ensures F32At(d, p).Ok? ==> F32At(d, p).value.next == p + 4
    ensures !U8At(d, p).Ok? ==> U8At(d, p) == Err(Truncated)
    ensures !U16At(d, p).Ok? ==> U16At(d, p) == Err(Truncated)
    ensures !U32At(d, p).Ok? ==> U32At(d, p) == Err(Truncated)
    ensures !F32At(d, p).Ok? ==> F32At(d, p) == Err(Truncated)
  {
  }

  /** A u16 is its low byte plus 256 times its high byte, and the two bytes can be recovered from it. */
  lemma U16LittleEndian(d: Bytes, p: nat)
    requires p + 2 <= |d|
    ensures U16At(d, p).value.value == d[p] as int + 0x100 * d[p + 1] as int
    ensures U16At(d, p).value.value % 0x100 == d[p] && U16At(d, p).value.value / 0x100 == d[p + 1]
  {
  }

  /** A u32 is the u16 at its first two bytes plus 65536 times the u16 at the last two. */
  lemma U32LittleEndian(d: Bytes, p: nat)
    requires p + 4 <= |d|
    ensures U32At(d, p).value.value == U16At(d, p).value.value + 0x1_0000 * U16At(d, p + 2).value.value
  {
  }

  /** `readString(n)` yields n bytes, or nothing and no failure when n is zero, wherever the cursor is. */
  lemma StringLayout(d: Bytes, p: nat, n: nat)
    ensures StringAt(d, p, n).Ok? <==> n == 0 || p + n <= |d|
    ensures StringAt(d, p, 0) == Ok(Parsed([], p))
    ensures StringAt(d, p, n).Ok? ==> |StringAt(d, p, n).value.value| == n && StringAt(d, p, n).value.next == p + n
    ensures StringAt(d, p, n).Ok? ==> forall i :: 0 <= i < n ==> StringAt(d, p, n).value.value[i] == d[p + i]
  {
  }

  /** `readString16`: a u16 length n, then n bytes; the record takes 2 + n bytes. */
  lemma Str16Layout(d: Bytes, p: nat)
    ensures Str16At(d, p).Ok? <==> p + 2 <= |d| && p + 2 + U16At(d, p).value.value <= |d|
    ensures Str16At(d, p).Ok? ==>
      Str16At(d, p).value == Parsed(d[p + 2..p + 2 + U16At(d, p).value.value], p + 2 + U16At(d, p).value.value)
  {
    ReadWidths(d, p);
    if p + 2 <= |d| {
      StringLayout(d, p + 2, U16At(d, p).value.value);
    }
  }

  /** A u16-length string takes two bytes more than it holds. */
  lemma Str16Width(d: Bytes, p: nat)
    ensures Str16At(d, p).Ok? ==> Str16At(d, p).value.next == p + 2 + |Str16At(d, p).value.value|
  {
    ReadWidths(d, p);
  }

  /** A repeat or offset pair is two float32 words, 8 bytes. */
  lemma Vec2Width(d: Bytes, p: nat)
    ensures Vec2At(d, p).Ok? <==> p + 8 <= |d|
    ensures Vec2At(d, p).Ok? ==> Vec2At(d, p).value.next == p + 8
  {
    ReadWidths(d, p);
    ReadWidths(d, p + 4);
  }

  /** A typed u16 array holds the n values that n single reads would return, and consumes 2n bytes. */
  lemma U16ArrayLayout(d: Bytes, p: nat, n: nat)
    ensures U16ArrayAt(d, p, n).Ok? <==> p + 2 * n <= |d|
    ensures U16ArrayAt(d, p, n).Ok? ==>
      |U16ArrayAt(d, p, n).value.value| == n && U16ArrayAt(d, p, n).value.next == p + 2 * n
    ensures U16ArrayAt(d, p, n).Ok? ==>
      forall i :: 0 <= i < n ==> U16At(d, p + 2 * i) == Ok(Parsed(U16ArrayAt(d, p, n).value.value[i], p + 2 * i + 2))
  {
  }

  /** A typed float32 array holds the n words that n single reads would return, and consumes 4n bytes. */
  lemma F32ArrayLayout(d: Bytes, p: nat, n: nat)
    ensures F32ArrayAt(d, p, n).Ok? <==> p + 4 * n <= |d|
    ensures F32ArrayAt(d, p, n).Ok? ==>
      |F32ArrayAt(d, p, n).value.value| == n && F32ArrayAt(d, p, n).value.next == p + 4 * n
    ensures F32ArrayAt(d, p, n).Ok? ==>
      forall i :: 0 <= i < n ==> F32At(d, p + 4 * i) == Ok(Parsed(F32ArrayAt(d, p, n).value.value[i], p + 4 * i + 4))
  {
  }

  // ---- Header and material library ----

  /** The header is the first six bytes, taken as they are: no signature or version is ever rejected. */
  lemma HeaderLayout(d: Bytes)
    ensures HeaderAt(d).Ok? <==> |d| >= 6
    ensures HeaderAt(d).Ok? ==> HeaderAt(d).value == Parsed(Header(d[..3], d[3], Le16(d[4], d[5])), 6)
  {
  }

  /** A run of `k` material records appends exactly `k` materials to those already read. */
  lemma {:induction false} MaterialsCount(d: Bytes, p: nat, k: nat, done: seq<Material>)
    ensures MaterialsAt(d, p, k, done).Ok? ==>
      |MaterialsAt(d, p, k, done).value.value| == |done| + k && MaterialsAt(d, p, k, done).value.value[..|done|] == done
    decreases k
  {
    if k > 0 {
      var first := MaterialAt(d, p);
      if first.Ok? {
        var k' := k - 1;
        var m, q := first.value.value, first.value.next;
        MaterialsStep(d, p, k, k', done, m, q);
        MaterialsCount(d, q, k', done + [m]);
        var r := MaterialsAt(d, q, k', done + [m]);
        if r.Ok? {
          assert r.value.value[..|done|] == (r.value.value[..|done + [m]|])[..|done|];
        }
      } else {
        MaterialsFail(d, p, k, done, first.error);
      }
    }
  }

  /** Without the MATERIAL_LIBRARY bit nothing is read and the library is empty; with it, a u16 count and that many records. */
  lemma LibraryGating(d: Bytes, p: nat, fileFlags: nat)
    ensures !Has(fileFlags, FILE_MATERIAL_LIBRARY) ==> LibraryAt(d, p, fileFlags) == Ok(Parsed([], p))
    ensures Has(fileFlags, FILE_MATERIAL_LIBRARY) && LibraryAt(d, p, fileFlags).Ok? ==>
      U16At(d, p).Ok? && |LibraryAt(d, p, fileFlags).value.value| == U16At(d, p).value.value
  {
    if Has(fileFlags, FILE_MATERIAL_LIBRARY) && U16At(d, p).Ok? {
      MaterialsCount(d, p + 2, U16At(d, p).value.value, []);
    }
  }

  // ---- Material records ----

  /** A cleared bit reads nothing and changes nothing. */
  lemma FieldSkipped(d: Bytes, p: nat, flags: nat, field: Field, params: Material)
    requires !Has(flags, FieldMask(field))
    ensures FieldAt(d, p, flags, field, params) == Ok(Parsed(params, p))
  {
  }

  /** The number of bytes a field with a fixed layout occupies; the map fields have none (zero here). */
  function FixedWidth(field: Field): nat {
    match field
    case IlluminationModel => 1
    case SpecularExponent => 4
    case OpticalDensity => 4
    case Dissolve => 4
    case TransmissionFilter => 12
    case AmbientReflectance => 12
    case DiffuseReflectance => 12
    case SpecularReflectance => 12
    case EmissiveReflectance => 12
    case FaceCulling => 1
    case _ => 0
  }

  predicate IsMap(field: Field) {
    field == AmbientMap || field == DiffuseMap || field == SpecularMap || field == EmissiveMap
    || field == DissolveMap || field == BumpMap || field == DisplacementMap
  }

  /** The scale bit a map slot reads: BUMP_SCALE only in the bump slot, DISPLACEMENT_SCALE only in the displacement slot. */
  function SlotScale(field: Field): nat {
    if field == BumpMap then MAP_BUMP_SCALE else if field == DisplacementMap then MAP_DISPLACEMENT_SCALE else 0
  }

  /** A set bit of a fixed-layout field consumes exactly its width, dropped or not, and fails only when those bytes are missing. */
  lemma FixedFieldWidth(d: Bytes, p: nat, flags: nat, field: Field, params: Material)
    requires Has(flags, FieldMask(field)) && !IsMap(field)
    ensures FieldAt(d, p, flags, field, params).Ok? <==> p + FixedWidth(field) <= |d|
    ensures FieldAt(d, p, flags, field, params).Ok? ==> FieldAt(d, p, flags, field, params).value.next == p + FixedWidth(field)
    ensures !FieldAt(d, p, flags, field, params).Ok? ==> FieldAt(d, p, flags, field, params) == Err(Truncated)
  {
    match field
    case IlluminationModel =>
    case SpecularExponent =>
    case OpticalDensity =>
    case Dissolve =>
    case TransmissionFilter =>
    case AmbientReflectance =>
    case DiffuseReflectance =>
    case SpecularReflectance =>
    case EmissiveReflectance =>
    case FaceCulling =>
  }

  /** A set bit of a map field reads one map record, with the scale bit of its own slot. */
  lemma MapFieldLayout(d: Bytes, p: nat, flags: nat, field: Field, params: Material)
    requires Has(flags, FieldMask(field)) && IsMap(field)
    ensures FieldAt(d, p, flags, field, params).Ok? <==> MapAt(d, p, SlotScale(field)).Ok?
    ensures FieldAt(d, p, flags, field, params).Ok? ==> FieldAt(d, p, flags, field, params).value.next == MapAt(d, p, SlotScale(field)).value.next
  {
    match field
    case AmbientMap =>
    case DiffuseMap =>
    case SpecularMap =>
    case EmissiveMap =>
    case DissolveMap =>
    case BumpMap =>
    case DisplacementMap =>
  }

  /** The fields the decoder does not support change no parameter. */
  lemma DroppedFields(d: Bytes, p: nat, flags: nat, field: Field, params: Material)
    requires field == IlluminationModel || field == OpticalDensity || field == TransmissionFilter
          || field == AmbientReflectance || field == AmbientMap
    ensures FieldAt(d, p, flags, field, params).Ok? ==> FieldAt(d, p, flags, field, params).value.value == params
  {
  }

  /** The face-culling byte: 3 hides the material, 1 renders back faces, 2 front faces, anything else both. */
  lemma FaceCullingModes(d: Bytes, p: nat, flags: nat, params: Material)
    requires Has(flags, FieldMask(FaceCulling)) && p < |d|
    ensures FieldAt(d, p, flags, FaceCulling, params) == Ok(Parsed(Cull(params, d[p]), p + 1))
    ensures d[p] == 3 ==> Cull(params, d[p]) == params.(visible := false)
    ensures d[p] == 1 ==> Cull(params, d[p]) == params.(side := Some(BackSide))
    ensures d[p] == 2 ==> Cull(params, d[p]) == params.(side := Some(FrontSide))
    ensures d[p] !in {1, 2, 3} ==> Cull(params, d[p]) == params.(side := Some(DoubleSide))
  {
  }

  /** What a field does to transparency and opacity: only DISSOLVE and DISSOLVE_MAP, with their bits set,
      make the material transparent, and only DISSOLVE sets an opacity. */
  ghost predicate Transparency(field: Field, on: bool, params: Material, m: Material) {
    && m.name == params.name
    && m.transparent == (if field == Dissolve || field == DissolveMap then on || params.transparent else params.transparent)
    && m.opacity.Some? == (if field == Dissolve then on || params.opacity.Some? else params.opacity.Some?)
  }

  lemma FieldTransparency(d: Bytes, p: nat, flags: nat, field: Field, params: Material)
    requires FieldAt(d, p, flags, field, params).Ok?
    ensures Transparency(field, Has(flags, FieldMask(field)), params, FieldAt(d, p, flags, field, params).value.value)
  {
  }

  lemma ThenTransparency(d: Bytes, r: Res<Material>, flags: nat, field: Field)
    requires Then(d, r, flags, field).Ok?
    ensures r.Ok? && Transparency(field, Has(flags, FieldMask(field)), r.value.value, Then(d, r, flags, field).value.value)
  {
    FieldTransparency(d, r.value.next, flags, field, r.value.value);
  }

  lemma ScalarTransparency(d: Bytes, r: Res<Material>, f: nat)
    requires ScalarFieldsAt(d, r, f).Ok?
    ensures r.Ok? && ScalarFieldsAt(d, r, f).value.value.name == r.value.value.name
    ensures ScalarFieldsAt(d, r, f).value.value.transparent == (r.value.value.transparent || Has(f, FieldMask(Dissolve)))
    ensures ScalarFieldsAt(d, r, f).value.value.opacity.Some? == (r.value.value.opacity.Some? || Has(f, FieldMask(Dissolve)))
  {
    var s0 := r;
    var s1 := Then(d, s0, f, SpecularExponent);
    var s2 := Then(d, s1, f, OpticalDensity);
    var s3 := Then(d, s2, f, Dissolve);
    var s4 := Then(d, s3, f, TransmissionFilter);
    var s5 := Then(d, s4, f, AmbientReflectance);
    var s6 := Then(d, s5, f, DiffuseReflectance);
    var s7 := Then(d, s6, f, SpecularReflectance);
    var s8 := Then(d, s7, f, EmissiveReflectance);
    ThenTransparency(d, s7, f, EmissiveReflectance);
    ThenTransparency(d, s6, f, SpecularReflectance);
    ThenTransparency(d, s5, f, DiffuseReflectance);
    ThenTransparency(d, s4, f, AmbientReflectance);
    ThenTransparency(d, s3, f, TransmissionFilter);
    ThenTransparency(d, s2, f, Dissolve);
    ThenTransparency(d, s1, f, OpticalDensity);
    ThenTransparency(d, s0, f, SpecularExponent);
  }

  lemma MapTransparency(d: Bytes, r: Res<Material>, f: nat)
    requires MapFieldsAt(d, r, f).Ok?
    ensures r.Ok? && MapFieldsAt(d, r, f).value.value.name == r.value.value.name
    ensures MapFieldsAt(d, r, f).value.value.transparent == (r.value.value.transparent || Has(f, FieldMask(DissolveMap)))
    ensures MapFieldsAt(d, r, f).value.value.opacity.Some? == (r.value.value.opacity.Some?)
  {
    var s0 := r;
    var s1 := Then(d, s0, f, AmbientMap);
    var s2 := Then(d, s1, f, DiffuseMap);
    var s3 := Then(d, s2, f, SpecularMap);
    var s4 := Then(d, s3, f, EmissiveMap);
    var s5 := Then(d, s4, f, DissolveMap);
    var s6 := Then(d, s5, f, BumpMap);
    var s7 := Then(d, s6, f, DisplacementMap);
    var s8 := Then(d, s7, f, FaceCulling);
    ThenTransparency(d, s7, f, FaceCulling);
    ThenTransparency(d, s6, f, DisplacementMap);
    ThenTransparency(d, s5, f, BumpMap);
    ThenTransparency(d, s4, f, DissolveMap);
    ThenTransparency(d, s3, f, EmissiveMap);
    ThenTransparency(d, s2, f, SpecularMap);
    ThenTransparency(d, s1, f, DiffuseMap);
    ThenTransparency(d, s0, f, AmbientMap);
  }

  /** The seventeen steps from the parameters a name starts with. */
  lemma FieldsTransparency(d: Bytes, s: nat, f: nat, n: Bytes, m: Material, q: nat)
    requires MapFieldsAt(d, ScalarFieldsAt(d, FieldAt(d, s, f, IlluminationModel, Params(n)), f), f) == Ok(Parsed(m, q))
    ensures m.name == n
    ensures m.transparent <==> Has(f, FieldMask(Dissolve)) || Has(f, FieldMask(DissolveMap))
    ensures m.opacity.Some? <==> Has(f, FieldMask(Dissolve))
  {
    var r1 := FieldAt(d, s, f, IlluminationModel, Params(n));
    MapTransparency(d, ScalarFieldsAt(d, r1, f), f);
    ScalarTransparency(d, r1, f);
    FieldTransparency(d, s, f, IlluminationModel, Params(n));
  }

  /** A material record is its u32 flags, its name, and the seventeen field steps. */
  lemma MaterialSteps(d: Bytes, p: nat)
    requires MaterialAt(d, p).Ok?
    ensures U32At(d, p).Ok? && Str16At(d, U32At(d, p).value.next).Ok?
    ensures
      var f, name := U32At(d, p).value.value, Str16At(d, U32At(d, p).value.next).value;
      MaterialAt(d, p) == MapFieldsAt(d, ScalarFieldsAt(d, FieldAt(d, name.next, f, IlluminationModel, Params(name.value)), f), f)
  {
  }

  /** A decoded material is named by the u16-length string after its u32 flags; it is transparent exactly
      when DISSOLVE or DISSOLVE_MAP is set, and has an opacity exactly when DISSOLVE is set. */
  lemma MaterialTransparency(d: Bytes, p: nat, m: Material, q: nat)
    requires MaterialAt(d, p) == Ok(Parsed(m, q))
    ensures U32At(d, p).Ok? && Str16At(d, p + 4).Ok?
    ensures m.name == Str16At(d, p + 4).value.value
    ensures m.transparent <==> Has(U32At(d, p).value.value, FieldMask(Dissolve)) || Has(U32At(d, p).value.value, FieldMask(DissolveMap))
    ensures m.opacity.Some? <==> Has(U32At(d, p).value.value, FieldMask(Dissolve))
  {
    ReadWidths(d, p);
    MaterialSteps(d, p);
    var flags := U32At(d, p).value;
    var name := Str16At(d, p + 4).value;
    FieldsTransparency(d, name.next, flags.value, name.value, m, q);
  }

  /** A map record holds a path only when PATH is set (an empty path otherwise), a repeat pair exactly when
      SCALE is set, an offset pair exactly when OFFSET is set, and a scale word exactly when the slot's own
      scale bit is set. */
  lemma MapPresence(d: Bytes, p: nat, scalarMask: nat)
    ensures MapAt(d, p, scalarMask).Ok? ==> U16At(d, p).Ok?
    ensures MapAt(d, p, scalarMask).Ok? ==>
      var f, m := U16At(d, p).value.value, MapAt(d, p, scalarMask).value.value;
      && (Has(f, MAP_PATH) ==> Str16At(d, p + 2).Ok? && m.path == Str16At(d, p + 2).value.value)
      && (!Has(f, MAP_PATH) ==> m.path == [])
      && (m.repeat.Some? <==> Has(f, MAP_SCALE))
      && (m.offset.Some? <==> Has(f, MAP_OFFSET))
      && (m.scalar.Some? <==> Has(f, scalarMask))
  {
    ReadWidths(d, p);
  }

  /** A map record takes its u16 flags, 2 + n bytes for a path of n bytes, 8 bytes per pair and 4 for the scale word. */
  lemma MapWidth(d: Bytes, p: nat, scalarMask: nat)
    ensures MapAt(d, p, scalarMask).Ok? ==> U16At(d, p).Ok?
    ensures MapAt(d, p, scalarMask).Ok? ==>
      var f, m, q := U16At(d, p).value.value, MapAt(d, p, scalarMask).value.value, MapAt(d, p, scalarMask).value.next;
      q == p + 2 + (if Has(f, MAP_PATH) then 2 + |m.path| else 0) + (if Has(f, MAP_SCALE) then 8 else 0)
                 + (if Has(f, MAP_OFFSET) then 8 else 0) + (if Has(f, scalarMask) then 4 else 0)
  {
    ReadWidths(d, p);
    Str16Width(d, p + 2);
  }

  // ---- Geometry and groups ----

  /** A vertex block: n positions triples always, normal triples and UV pairs exactly when flagged, and nothing else. */
  lemma GeometryLayout(d: Bytes, p: nat)
    ensures GeometryAt(d, p).Ok? ==> U16At(d, p).Ok? && U32At(d, p + 2).Ok?
    ensures GeometryAt(d, p).Ok? ==>
      var f, n, v, q := U16At(d, p).value.value, U32At(d, p + 2).value.value, GeometryAt(d, p).value.value, GeometryAt(d, p).value.next;
      && |v.positions| == 3 * n
      && (v.normals.Some? <==> Has(f, GEOMETRY_NORMAL))
      && (v.normals.Some? ==> |v.normals.value| == 3 * n)
      && (v.uvs.Some? <==> Has(f, GEOMETRY_UV))
      && (v.uvs.Some? ==> |v.uvs.value| == 2 * n)
      && q == p + 6 + 12 * n + (if Has(f, GEOMETRY_NORMAL) then 12 * n else 0) + (if Has(f, GEOMETRY_UV) then 8 * n else 0)
  {
    ReadWidths(d, p);
    if U16At(d, p).Ok? {
      ReadWidths(d, p + 2);
      if U32At(d, p + 2).Ok? {
        var n: nat := U32At(d, p + 2).value.value;
        var s := p + 6;
        F32ArrayLayout(d, s, 3 * n);
        if F32ArrayAt(d, s, 3 * n).Ok? {
          var t := s + 12 * n;
          F32ArrayLayout(d, t, 3 * n);
          var u := if Has(U16At(d, p).value.value, GEOMETRY_NORMAL) then t + 12 * n else t;
          F32ArrayLayout(d, u, 2 * n);
        }
      }
    }
  }

  /** Without geometry a group record is its flags and, when flagged, its name; it yields no mesh, and of
      the function-scoped variables only `groupName` can change, to the name it read. */
  lemma GroupWithoutGeometry(d: Bytes, p: nat, materials: seq<Material>, h: Hoisted)
    ensures GroupAt(d, p, None, materials, h).Ok? ==> U16At(d, p).Ok? && GroupAt(d, p, None, materials, h).value.value.value.None?
    ensures GroupAt(d, p, None, materials, h).Ok? && !Has(U16At(d, p).value.value, GROUP_NAME) ==>
      GroupAt(d, p, None, materials, h).value == Parsed(Carried(None, h), p + 2)
    ensures GroupAt(d, p, None, materials, h).Ok? && Has(U16At(d, p).value.value, GROUP_NAME) ==>
      Str16At(d, p + 2).Ok? && GroupAt(d, p, None, materials, h).value.next == Str16At(d, p + 2).value.next
      && GroupAt(d, p, None, materials, h).value.value.hoisted == h.(groupName := Some(Str16At(d, p + 2).value.value))
  {
    ReadWidths(d, p);
  }

  /** A flagged material id names a library entry, which the group clones with the shading its smoothing
      byte selects; an id past the library's end is the decoder's failure. */
  lemma GroupMaterialLookup(d: Bytes, p: nat, smoothing: uint8, materials: seq<Material>)
    ensures GroupMaterialAt(d, p, false, smoothing, materials) == Ok(Parsed(None, p))
    ensures U16At(d, p).Ok? ==>
      (GroupMaterialAt(d, p, true, smoothing, materials).Ok? <==> U16At(d, p).value.value < |materials|)
    ensures U16At(d, p).Ok? && U16At(d, p).value.value >= |materials| ==>
      GroupMaterialAt(d, p, true, smoothing, materials) == Err(NoSuchMaterial)
    ensures GroupMaterialAt(d, p, true, smoothing, materials).Ok? ==>
      var id, mm := U16At(d, p).value.value, GroupMaterialAt(d, p, true, smoothing, materials).value.value;
      && mm.Some? && mm.value.Clone? && mm.value.base == materials[id]
      && (mm.value.shading == SmoothShading <==> smoothing > 0)
      && GroupMaterialAt(d, p, true, smoothing, materials).value.next == p + 2
  {
    ReadWidths(d, p);
  }

  /** A group with geometry yields one mesh over its object's vertices, named by the `groupName` it
      holds. INDEX overwrites the held indices and MATERIAL the held material, with a fresh clone of
      a library entry; a cleared bit leaves the mesh with whatever an earlier record left there. The
      variables then hold exactly what the mesh was built with. */
  lemma GroupMeshLayout(d: Bytes, p: nat, flags: nat, vertices: VertexData, materials: seq<Material>, h: Hoisted)
    ensures GroupMeshAt(d, p, flags, vertices, materials, h).Ok? ==>
      var g := GroupMeshAt(d, p, flags, vertices, materials, h).value.value;
      var mesh := g.value;
      && mesh.vertices == vertices
      && mesh.name == MeshName(h.groupName)
      && (Has(flags, GROUP_INDEX) ==> mesh.indices.Some?)
      && (!Has(flags, GROUP_INDEX) ==> mesh.indices == h.indices)
      && (Has(flags, GROUP_MATERIAL) ==> mesh.material.Some? && mesh.material.value.Clone? && mesh.material.value.base in materials)
      && (Has(flags, GROUP_MATERIAL) && !Has(flags, GROUP_SMOOTHING) ==> mesh.material.value.shading == FlatShading)
      && (!Has(flags, GROUP_MATERIAL) ==> mesh.material == h.material)
      && g.hoisted == Hoisted(h.groupName, mesh.indices, mesh.material)
  {
  }

  /** With geometry every group record yields exactly one mesh, over the object's vertices. */
  lemma GroupWithGeometry(d: Bytes, p: nat, vertices: VertexData, materials: seq<Material>, h: Hoisted)
    ensures GroupAt(d, p, Some(vertices), materials, h).Ok? ==>
      U16At(d, p).Ok? && GroupAt(d, p, Some(vertices), materials, h).value.value.value.Some?
      && GroupAt(d, p, Some(vertices), materials, h).value.value.value.value.vertices == vertices
  {
  }

  /** The bytes a group's index list takes: the u32 count and two bytes per index, or nothing without INDEX. */
  function IndexBytes(d: Bytes, p: nat, flags: nat): nat {
    if Has(flags, GROUP_INDEX) && U32At(d, p).Ok? then 4 + 2 * U32At(d, p).value.value else 0
  }

  lemma IndicesWidth(d: Bytes, p: nat, flags: nat)
    ensures Gate(Has(flags, GROUP_INDEX), p, IndicesAt(d, p)).Ok? ==>
      (Has(flags, GROUP_INDEX) ==> U32At(d, p).Ok?)
      && Gate(Has(flags, GROUP_INDEX), p, IndicesAt(d, p)).value.next == p + IndexBytes(d, p, flags)
  {
    ReadWidths(d, p);
    if Has(flags, GROUP_INDEX) && U32At(d, p).Ok? {
      U16ArrayLayout(d, p + 4, U32At(d, p).value.value);
    }
  }

  /** The geometry part of a group is read in the order INDEX (u32 count, then the u16 indices), SMOOTHING (one byte),
      MATERIAL (u16 id): the indices are the u16 array after the count, the shading comes from the byte right after
      them and the id from the bytes after that. */
  lemma GroupMeshOrder(d: Bytes, p: nat, flags: nat, vertices: VertexData, materials: seq<Material>, h: Hoisted)
    requires GroupMeshAt(d, p, flags, vertices, materials, h).Ok?
    ensures Has(flags, GROUP_INDEX) ==> U32At(d, p).Ok?
    ensures
      var s := p + IndexBytes(d, p, flags);
      var t := s + (if Has(flags, GROUP_SMOOTHING) then 1 else 0);
      var mesh := GroupMeshAt(d, p, flags, vertices, materials, h).value.value.value;
      && (Has(flags, GROUP_INDEX) ==> mesh.indices == Some(U16ArrayAt(d, p + 4, U32At(d, p).value.value).value.value))
      && (Has(flags, GROUP_MATERIAL) && Has(flags, GROUP_SMOOTHING) ==> s < |d| && (mesh.material.value.shading == SmoothShading <==> d[s] > 0))
      && (Has(flags, GROUP_MATERIAL) ==> U16At(d, t).Ok? && mesh.material.value.base == materials[U16At(d, t).value.value])
  {
    IndicesWidth(d, p, flags);
    ReadWidths(d, p);
    var s := p + IndexBytes(d, p, flags);
    ReadWidths(d, s);
    var t := s + (if Has(flags, GROUP_SMOOTHING) then 1 else 0);
    GroupMaterialLookup(d, t, if Has(flags, GROUP_SMOOTHING) && s < |d| then d[s] else 0, materials);
  }

  /** A group's geometry part takes exactly its index list, one smoothing byte when flagged and two id bytes when flagged. */
  lemma GroupMeshWidth(d: Bytes, p: nat, flags: nat, vertices: VertexData, materials: seq<Material>, h: Hoisted)
    requires GroupMeshAt(d, p, flags, vertices, materials, h).Ok?
    ensures GroupMeshAt(d, p, flags, vertices, materials, h).value.next ==
      p + IndexBytes(d, p, flags) + (if Has(flags, GROUP_SMOOTHING) then 1 else 0) + (if Has(flags, GROUP_MATERIAL) then 2 else 0)
  {
    IndicesWidth(d, p, flags);
    var s := p + IndexBytes(d, p, flags);
    ReadWidths(d, s);
    var t := s + (if Has(flags, GROUP_SMOOTHING) then 1 else 0);
    ReadWidths(d, t);
  }

  /** A group's mesh is named exactly when `groupName` -- the name this record read, or else the one an earlier
      record left -- is present and not empty, and then by that name. */
  lemma MeshNaming(d: Bytes, p: nat, vertices: VertexData, materials: seq<Material>, h: Hoisted)
    ensures GroupAt(d, p, Some(vertices), materials, h).Ok? ==>
      var g := GroupAt(d, p, Some(vertices), materials, h).value.value;
      var name := if Has(U16At(d, p).value.value, GROUP_NAME) then Some(Str16At(d, p + 2).value.value) else h.groupName;
      && U16At(d, p).Ok? && (Has(U16At(d, p).value.value, GROUP_NAME) ==> Str16At(d, p + 2).Ok?)
      && g.hoisted.groupName == name
      && (g.value.value.name.Some? <==> name.Some? && |name.value| > 0)
      && (g.value.value.name.Some? ==> g.value.value.name == name)
  {
    ReadWidths(d, p);
    if GroupAt(d, p, Some(vertices), materials, h).Ok? {
      var flags := U16At(d, p).value;
      var read := Gate(Has(flags.value, GROUP_NAME), flags.next, Str16At(d, flags.next)).value;
      var named := h.(groupName := Latest(read.value, h.groupName));
      GroupMeshLayout(d, read.next, flags.value, vertices, materials, named);
    }
  }

  // ---- Counted runs ----

  /** A run of group records only appends meshes, at most one per record, and none when the object has no geometry. */
  lemma {:induction false} GroupsCount(d: Bytes, p: nat, k: nat, vertices: Option<VertexData>, materials: seq<Material>,
                                       scope: Scope, h: Hoisted, done: seq<Mesh>)
    ensures GroupsAt(d, p, k, vertices, materials, scope, h, done).Ok? ==>
      var ms := GroupsAt(d, p, k, vertices, materials, scope, h, done).value.value.value;
      |done| <= |ms| <= |done| + k && ms[..|done|] == done
      && (vertices.None? ==> ms == done) && (vertices.Some? ==> |ms| == |done| + k)
    decreases k
  {
    if k > 0 {
      var first := GroupAt(d, p, vertices, materials, Enter(scope, h));
      if first.Ok? {
        var k' := k - 1;
        var g, q := first.value.value, first.value.next;
        var done' := done + OptionSeq(g.value);
        GroupsStep(d, p, k, k', vertices, materials, scope, h, done, g, q);
        GroupsCount(d, q, k', vertices, materials, scope, g.hoisted, done');
        if vertices.None? {
          GroupWithoutGeometry(d, p, materials, Enter(scope, h));
          assert done' == done;
        } else {
          GroupWithGeometry(d, p, vertices.value, materials, Enter(scope, h));
        }
        var r := GroupsAt(d, q, k', vertices, materials, scope, g.hoisted, done');
        if r.Ok? {
          assert r.value.value.value[..|done|] == (r.value.value.value[..|done'|])[..|done|];
        }
      } else {
        GroupsFail(d, p, k, vertices, materials, scope, h, done, first.error);
      }
    }
  }

  /** An object without the GEOMETRY bit contributes no mesh, whatever its groups say. */
  lemma ObjectWithoutGeometry(d: Bytes, p: nat, materials: seq<Material>, scope: Scope, h: Hoisted)
    ensures ObjectAt(d, p, materials, scope, h).Ok? && !Has(U16At(d, p).value.value, OBJECT_GEOMETRY) ==>
      ObjectAt(d, p, materials, scope, h).value.value.value == []
  {
    if ObjectAt(d, p, materials, scope, h).Ok? && !Has(U16At(d, p).value.value, OBJECT_GEOMETRY) {
      var flags := U16At(d, p).value;
      var count := U16At(d, flags.next).value;
      GroupsCount(d, count.next, count.value, None, materials, scope, h, []);
    }
  }

  /** A run of object records keeps the meshes already read in front of those it appends. */
  lemma {:induction false} ObjectsPrefix(d: Bytes, p: nat, k: nat, materials: seq<Material>, scope: Scope, h: Hoisted, done: seq<Mesh>)
    ensures ObjectsAt(d, p, k, materials, scope, h, done).Ok? ==>
      var ms := ObjectsAt(d, p, k, materials, scope, h, done).value.value.value;
      |done| <= |ms| && ms[..|done|] == done
    decreases k
  {
    if k > 0 {
      var first := ObjectAt(d, p, materials, scope, h);
      if first.Ok? {
        var k' := k - 1;
        var o, q := first.value.value, first.value.next;
        ObjectsStep(d, p, k, k', materials, scope, h, done, o, q);
        ObjectsPrefix(d, q, k', materials, scope, o.hoisted, done + o.value);
        var r := ObjectsAt(d, q, k', materials, scope, o.hoisted, done + o.value);
        if r.Ok? {
          assert r.value.value.value[..|done|] == (r.value.value.value[..|done + o.value|])[..|done|];
        }
      } else {
        ObjectsFail(d, p, k, materials, scope, h, done, first.error);
      }
    }
  }

  /** A run of `k` asset records appends exactly `k` assets to those already read. */
  lemma {:induction false} AssetsCount(d: Bytes, p: nat, k: nat, materials: seq<Material>, scope: Scope, h: Hoisted, done: seq<Asset>)
    ensures AssetsAt(d, p, k, materials, scope, h, done).Ok? ==>
      var r := AssetsAt(d, p, k, materials, scope, h, done).value.value.value;
      |r| == |done| + k && r[..|done|] == done
    decreases k
  {
    if k > 0 {
      var first := AssetAt(d, p, materials, scope, h);
      if first.Ok? {
        var k' := k - 1;
        var a, q := first.value.value, first.value.next;
        AssetsStep(d, p, k, k', materials, scope, h, done, a, q);
        AssetsCount(d, q, k', materials, scope, a.hoisted, done + [a.value]);
        var r := AssetsAt(d, q, k', materials, scope, a.hoisted, done + [a.value]);
        if r.Ok? {
          assert r.value.value.value[..|done|] == (r.value.value.value[..|done + [a.value]|])[..|done|];
        }
      } else {
        AssetsFail(d, p, k, materials, scope, h, done, first.error);
      }
    }
  }

  /** A decoded file holds exactly as many assets as its u16 asset count says. */
  lemma FileAssetCount(d: Bytes, scope: Scope)
    ensures FileAt(d, scope).Ok? ==>
      var header := HeaderAt(d).value;
      var library := LibraryAt(d, header.next, header.value.flags).value;
      U16At(d, library.next).Ok? && |FileAt(d, scope).value.value.assets| == U16At(d, library.next).value.value
  {
    if FileAt(d, scope).Ok? {
      var header := HeaderAt(d).value;
      var library := LibraryAt(d, header.next, header.value.flags).value;
      var count := U16At(d, library.next).value;
      AssetsCount(d, count.next, count.value, library.value, scope, Start(library.value), []);
    }
  }

  // ---- The assembled scene ----

  /** Flat mode returns one unnamed root per asset, holding that asset's meshes, in file order. */
  lemma {:induction false} RootsShape(assets: seq<Asset>)
    ensures |RootsOf(assets)| == |assets|
    ensures forall i :: 0 <= i < |assets| ==> RootsOf(assets)[i] == Root(None, assets[i].meshes)
    decreases |assets|
  {
    if assets != [] {
      var init := assets[..|assets| - 1];
      RootsShape(init);
      forall i | 0 <= i < |assets|
        ensures RootsOf(assets)[i] == Root(None, assets[i].meshes)
      {
        if i < |init| {
          assert assets[i] == init[i];
        }
      }
    }
  }

  /** Grouped mode lists the meshes of a concatenation of assets as the concatenation of their lists. */
  lemma {:induction false} AllMeshesAppend(a: seq<Asset>, b: seq<Asset>)
    ensures AllMeshes(a + b) == AllMeshes(a) + AllMeshes(b)
    decreases |b|
  {
    if b == [] {
      assert a + b == a;
    } else {
      var init := b[..|b| - 1];
      assert (a + b)[..|a + b| - 1] == a + init;
      AllMeshesAppend(a, init);
    }
  }

  /** Grouped mode holds every mesh of every asset, one asset's meshes after another's. */
  lemma {:induction false} AllMeshesCount(assets: seq<Asset>, i: nat)
    requires i < |assets|
    ensures |AllMeshes(assets)| >= |assets[i].meshes|
    ensures AllMeshes(assets) == AllMeshes(assets[..i]) + assets[i].meshes + AllMeshes(assets[i + 1..])
  {
    assert assets == assets[..i] + ([assets[i]] + assets[i + 1..]);
    AllMeshesAppend(assets[..i], [assets[i]] + assets[i + 1..]);
    AllMeshesAppend([assets[i]], assets[i + 1..]);
  }

  /** The grouped root is unnamed exactly when no asset is named, and otherwise carries the last asset name. */
  lemma {:induction false} LastNameShape(assets: seq<Asset>)
    ensures LastName(assets).None? <==> forall i :: 0 <= i < |assets| ==> assets[i].name.None?
    ensures LastName(assets).Some? ==>
      exists i :: 0 <= i < |assets| && assets[i].name == LastName(assets)
                  && forall j :: i < j < |assets| ==> assets[j].name.None?
    decreases |assets|
  {
    if assets != [] {
      var init := assets[..|assets| - 1];
      LastNameShape(init);
      var last := |assets| - 1;
      if assets[last].name.Some? {
        assert assets[last].name == LastName(assets);
      } else {
        assert forall i :: 0 <= i < |init| ==> assets[i] == init[i];
        if LastName(init).Some? {
          var i :| 0 <= i < |init| && init[i].name == LastName(init)
                   && forall j :: i < j < |init| ==> init[j].name.None?;
          assert assets[i].name == LastName(assets);
        }
      }
    }
  }

  /** The result type changes only how the assets are assembled: both modes fail on the same buffers, with the same error. */
  lemma ModesAgreeOnErrors(d: Bytes)
    ensures Decode(d, true).Ok? <==> Decode(d, false).Ok?
    ensures Decode(d, true).Err? ==> Decode(d, true) == Decode(d, false) && Decode(d, true).error == FileAt(d, FunctionScope).error
  {
  }
}
