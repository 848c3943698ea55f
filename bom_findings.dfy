/** The group variables of `parse` (`groupName`, `indices`, `material`) are declared with `var` inside
    the group loop, so they live in the whole function and are never reset: a group whose NAME, INDEX
    or MATERIAL bit is clear reuses what an earlier group, in any object or asset, left there, and before
    any group names a material the last library material itself. Each group evidently means to start
    with none of its own. This module exhibits the difference on two small files and proves what the
    per-group reading promises. */
module BomFindings {
  import opened BomWire
  import opened BomFormat
  import opened BomLayout
  import opened BomRuns
  import opened BomProperties

  // ---- The code as written ----

  /** The file 42 4F 4D 01 00 00 | 01 00 | 00 00 01 00 | 02 00 00 00 00 00 00 00 | 02 00 | 02 00 01 00 61 | 00 00:
      signature, version and file flags 0 (no library); one asset; an unnamed asset with one object; an object
      with GEOMETRY, geometry flags 0 and no vertices; two groups; a group with NAME "a"; a group with no flags. */
  predicate NamedThenPlainBytes(d: Bytes) {
    && |d| == 29 && d[0] == 0x42 && d[1] == 0x4F && d[2] == 0x4D && d[3] == 1 && d[4] == 0 && d[5] == 0
    && d[6] == 1 && d[7] == 0
    && d[8] == 0 && d[9] == 0 && d[10] == 1 && d[11] == 0
    && d[12] == 2 && d[13] == 0 && d[14] == 0 && d[15] == 0 && d[16] == 0 && d[17] == 0 && d[18] == 0 && d[19] == 0
    && d[20] == 2 && d[21] == 0
    && d[22] == 2 && d[23] == 0 && d[24] == 1 && d[25] == 0 && d[26] == 0x61
    && d[27] == 0 && d[28] == 0
  }

  /** The file 42 4F 4D 01 02 00 | 01 00 | 00 00 00 00 00 00 | 01 00 | 00 00 01 00 | 02 00 00 00 00 00 00 00 | 01 00 | 00 00:
      file flags MATERIAL_LIBRARY; one material with flags 0 and an empty name; one asset; an unnamed asset with one
      object; an object with GEOMETRY and no vertices; one group; a group with no flags. */
  predicate LibraryThenPlainBytes(d: Bytes) {
    && |d| == 32 && d[0] == 0x42 && d[1] == 0x4F && d[2] == 0x4D && d[3] == 1 && d[4] == 2 && d[5] == 0
    && d[6] == 1 && d[7] == 0
    && d[8] == 0 && d[9] == 0 && d[10] == 0 && d[11] == 0 && d[12] == 0 && d[13] == 0
    && d[14] == 1 && d[15] == 0
    && d[16] == 0 && d[17] == 0 && d[18] == 1 && d[19] == 0
    && d[20] == 2 && d[21] == 0 && d[22] == 0 && d[23] == 0 && d[24] == 0 && d[25] == 0 && d[26] == 0 && d[27] == 0
    && d[28] == 1 && d[29] == 0
    && d[30] == 0 && d[31] == 0
  }

  const EMPTY_VERTICES: VertexData := VertexData([], None, None)

  /** The flag tests these files make. */
  lemma FlagFacts()
    ensures forall mask :: !Has(0, mask)
    ensures Has(2, 2) && !Has(2, 4) && !Has(2, 8) && !Has(2, 0x10)
  {
  }

  // Record by record, for any buffer: these lemmas keep the arithmetic of the byte fields apart from
  // the structure of the records.

  /** The "BOM" signature, version 1 and the file flags. */
  lemma VersionOneHeader(d: Bytes, flags: uint16)
    requires 4 <= |d| && d[0] == 0x42 && d[1] == 0x4F && d[2] == 0x4D && d[3] == 1
    requires U16At(d, 4) == Ok(Parsed(flags, 6))
    ensures HeaderAt(d) == Ok(Parsed(Header([0x42, 0x4F, 0x4D], 1, flags), 6))
  {
    assert d[0..3] == [0x42, 0x4F, 0x4D];
  }

  /** A one-byte string field. */
  lemma OneByteString(d: Bytes, p: nat)
    requires U16At(d, p) == Ok(Parsed(1, p + 2)) && p + 3 <= |d|
    ensures Str16At(d, p) == Ok(Parsed([d[p + 2]], p + 3))
  {
    assert d[p + 2..p + 3] == [d[p + 2]];
  }

  /** Geometry flags 0 and a zero vertex count: no positions, normals or UVs. */
  lemma EmptyGeometry(d: Bytes, p: nat)
    requires U16At(d, p) == Ok(Parsed(0, p + 2)) && U32At(d, p + 2) == Ok(Parsed(0, p + 6))
    ensures GeometryAt(d, p) == Ok(Parsed(EMPTY_VERTICES, p + 6))
  {
    FlagFacts();
    var positions := F32ArrayAt(d, p + 6, 0);
    assert positions.Ok? && positions.value.next == p + 6 && |positions.value.value| == 0;
    assert positions == Ok(Parsed([], p + 6));
  }

  /** A group with no flags keeps every variable as it found it and builds its mesh from them. */
  lemma PlainGroup(d: Bytes, p: nat, vertices: VertexData, materials: seq<Material>, h: Hoisted)
    requires U16At(d, p) == Ok(Parsed(0, p + 2))
    ensures GroupAt(d, p, Some(vertices), materials, h)
         == Ok(Parsed(Carried(Some(Mesh(MeshName(h.groupName), vertices, h.indices, h.material)), h), p + 2))
  {
    FlagFacts();
  }

  /** A group with only NAME set writes the name and keeps the other variables. */
  lemma NamedGroup(d: Bytes, p: nat, name: Bytes, q: nat, vertices: VertexData, materials: seq<Material>, h: Hoisted)
    requires U16At(d, p) == Ok(Parsed(GROUP_NAME, p + 2)) && Str16At(d, p + 2) == Ok(Parsed(name, q))
    ensures GroupAt(d, p, Some(vertices), materials, h)
         == Ok(Parsed(Carried(Some(Mesh(MeshName(Some(name)), vertices, h.indices, h.material)), h.(groupName := Some(name))), q))
  {
    FlagFacts();
  }

  /** An object with GEOMETRY set and nothing else: its geometry block, then its groups. */
  lemma GeometryObject(d: Bytes, p: nat, vertices: VertexData, q: nat, k: nat, materials: seq<Material>, scope: Scope, h: Hoisted)
    requires U16At(d, p) == Ok(Parsed(OBJECT_GEOMETRY, p + 2)) && GeometryAt(d, p + 2) == Ok(Parsed(vertices, q))
    requires U16At(d, q) == Ok(Parsed(k, q + 2))
    ensures ObjectAt(d, p, materials, scope, h) == GroupsAt(d, q + 2, k, Some(vertices), materials, scope, h, [])
  {
    FlagFacts();
  }

  /** An unnamed asset with a single object. */
  lemma UnnamedAsset(d: Bytes, p: nat, materials: seq<Material>, scope: Scope, h: Hoisted, o: Carried<seq<Mesh>>, q: nat)
    requires U16At(d, p) == Ok(Parsed(0, p + 2)) && U16At(d, p + 2) == Ok(Parsed(1, p + 4))
    requires ObjectAt(d, p + 4, materials, scope, h) == Ok(Parsed(o, q))
    ensures AssetAt(d, p, materials, scope, h) == Ok(Parsed(Carried(Asset(None, o.value), o.hoisted), q))
  {
    FlagFacts();
    ObjectsStep(d, p + 4, 1, 0, materials, scope, h, [], o, q);
    assert [] + o.value == o.value;
    ObjectsDone(d, q, 0, materials, scope, o.hoisted, o.value);
  }

  /** A file of a single asset, after a header of flags `flags` and a library that reads as `library`. */
  lemma OneAssetFile(d: Bytes, flags: uint16, library: seq<Material>, p: nat, scope: Scope, a: Carried<Asset>, q: nat)
    requires HeaderAt(d) == Ok(Parsed(Header([0x42, 0x4F, 0x4D], 1, flags), 6))
    requires LibraryAt(d, 6, flags) == Ok(Parsed(library, p)) && U16At(d, p) == Ok(Parsed(1, p + 2))
    requires AssetAt(d, p + 2, library, scope, Start(library)) == Ok(Parsed(a, q))
    ensures DecodeIn(d, true, scope) == Ok(Roots([Root(None, a.value.meshes)]))
  {
    AssetsStep(d, p + 2, 1, 0, library, scope, Start(library), [], a, q);
    assert [] + [a.value] == [a.value];
    AssetsDone(d, q, 0, library, scope, a.hoisted, [a.value]);
    assert FileAt(d, scope).value.value.assets == [a.value];
    assert RootsOf([a.value]) == [Root(None, a.value.meshes)];
  }

  // ---- The code as written ----

  /** What the fields of the first file read, record by record; the decode lemma below needs no more. */
  predicate NamedThenPlainFields(d: Bytes) {
    && HeaderAt(d) == Ok(Parsed(Header([0x42, 0x4F, 0x4D], 1, 0), 6))
    && U16At(d, 6) == Ok(Parsed(1, 8))
    && U16At(d, 8) == Ok(Parsed(0, 10)) && U16At(d, 10) == Ok(Parsed(1, 12))
    && U16At(d, 12) == Ok(Parsed(OBJECT_GEOMETRY, 14))
    && U16At(d, 14) == Ok(Parsed(0, 16)) && U32At(d, 16) == Ok(Parsed(0, 20))
    && U16At(d, 20) == Ok(Parsed(2, 22))
    && U16At(d, 22) == Ok(Parsed(GROUP_NAME, 24)) && Str16At(d, 24) == Ok(Parsed([0x61], 27))
    && U16At(d, 27) == Ok(Parsed(0, 29))
  }

  lemma NamedThenPlainHeader(d: Bytes)
    requires NamedThenPlainBytes(d)
    ensures HeaderAt(d) == Ok(Parsed(Header([0x42, 0x4F, 0x4D], 1, 0), 6))
  {
    VersionOneHeader(d, 0);
  }

  lemma NamedThenPlainCounts(d: Bytes)
    requires NamedThenPlainBytes(d)
    ensures U16At(d, 6) == Ok(Parsed(1, 8)) && U16At(d, 8) == Ok(Parsed(0, 10))
    ensures U16At(d, 10) == Ok(Parsed(1, 12)) && U16At(d, 12) == Ok(Parsed(OBJECT_GEOMETRY, 14))
    ensures U16At(d, 14) == Ok(Parsed(0, 16)) && U32At(d, 16) == Ok(Parsed(0, 20))
    ensures U16At(d, 20) == Ok(Parsed(2, 22)) && U16At(d, 22) == Ok(Parsed(GROUP_NAME, 24))
    ensures U16At(d, 27) == Ok(Parsed(0, 29))
  {
  }

  lemma NamedThenPlainName(d: Bytes)
    requires NamedThenPlainBytes(d)
    ensures Str16At(d, 24) == Ok(Parsed([0x61], 27))
  {
    OneByteString(d, 24);
  }

  /** A buffer holding the first file's bytes has its fields. */
  lemma NamedThenPlainRead(d: Bytes)
    requires NamedThenPlainBytes(d)
    ensures NamedThenPlainFields(d)
  {
    NamedThenPlainHeader(d);
    NamedThenPlainCounts(d);
    NamedThenPlainName(d);
  }

  /** The two groups of the first file: the second mesh is named by whatever the second group finds
      in the name variable. */
  lemma NamedThenPlainGroups(d: Bytes, scope: Scope)
    requires U16At(d, 22) == Ok(Parsed(GROUP_NAME, 24)) && Str16At(d, 24) == Ok(Parsed([0x61], 27))
    requires U16At(d, 27) == Ok(Parsed(0, 29))
    ensures
      var h := Enter(scope, Hoisted(Some([0x61]), None, None));
      GroupsAt(d, 22, 2, Some(EMPTY_VERTICES), [], scope, Start([]), [])
        == Ok(Parsed(Carried([Mesh(Some([0x61]), EMPTY_VERTICES, None, None), Mesh(MeshName(h.groupName), EMPTY_VERTICES, None, None)], h), 29))
  {
    var h0 := Start([]);
    var named := Hoisted(Some([0x61]), None, None);
    var h := Enter(scope, named);
    var first := Mesh(Some([0x61]), EMPTY_VERTICES, None, None);
    var second := Mesh(MeshName(h.groupName), EMPTY_VERTICES, None, None);
    NamedGroup(d, 22, [0x61], 27, EMPTY_VERTICES, [], Enter(scope, h0));
    PlainGroup(d, 27, EMPTY_VERTICES, [], h);
    GroupsStep(d, 22, 2, 1, Some(EMPTY_VERTICES), [], scope, h0, [], Carried(Some(first), named), 27);
    assert [] + OptionSeq(Some(first)) == [first];
    GroupsStep(d, 27, 1, 0, Some(EMPTY_VERTICES), [], scope, named, [first], Carried(Some(second), h), 29);
    assert [first] + OptionSeq(Some(second)) == [first, second];
    GroupsDone(d, 29, 0, Some(EMPTY_VERTICES), [], scope, h, [first, second]);
  }

  /** The scene a buffer with these fields decodes to in either scope. */
  lemma NamedThenPlain(d: Bytes, scope: Scope)
    requires NamedThenPlainFields(d)
    ensures
      var h := Enter(scope, Hoisted(Some([0x61]), None, None));
      DecodeIn(d, true, scope)
        == Ok(Roots([Root(None, [Mesh(Some([0x61]), EMPTY_VERTICES, None, None), Mesh(MeshName(h.groupName), EMPTY_VERTICES, None, None)])]))
  {
    var h0 := Start([]);
    var h := Enter(scope, Hoisted(Some([0x61]), None, None));
    var first := Mesh(Some([0x61]), EMPTY_VERTICES, None, None);
    var second := Mesh(MeshName(h.groupName), EMPTY_VERTICES, None, None);
    EmptyGeometry(d, 14);
    NamedThenPlainGroups(d, scope);
    GeometryObject(d, 12, EMPTY_VERTICES, 20, 2, [], scope, h0);
    UnnamedAsset(d, 8, [], scope, h0, Carried([first, second], h), 29);
    LibraryGating(d, 6, 0);
    OneAssetFile(d, 0, [], 6, scope, Carried(Asset(None, [first, second]), h), 29);
  }

  /** As written, the second group's mesh is named by the first group's name; read per group, it has none. */
  lemma HoistedNameLeaks(d: Bytes)
    requires NamedThenPlainFields(d)
    ensures Decode(d, true)
         == Ok(Roots([Root(None, [Mesh(Some([0x61]), EMPTY_VERTICES, None, None), Mesh(Some([0x61]), EMPTY_VERTICES, None, None)])]))
    ensures DecodePerGroup(d, true)
         == Ok(Roots([Root(None, [Mesh(Some([0x61]), EMPTY_VERTICES, None, None), Mesh(None, EMPTY_VERTICES, None, None)])]))
  {
    NamedThenPlain(d, FunctionScope);
    NamedThenPlain(d, GroupScope);
  }

  /** What the fields of the second file read, record by record. */
  predicate LibraryThenPlainFields(d: Bytes) {
    && HeaderAt(d) == Ok(Parsed(Header([0x42, 0x4F, 0x4D], 1, FILE_MATERIAL_LIBRARY), 6))
    && U16At(d, 6) == Ok(Parsed(1, 8)) && U32At(d, 8) == Ok(Parsed(0, 12)) && Str16At(d, 12) == Ok(Parsed([], 14))
    && U16At(d, 14) == Ok(Parsed(1, 16))
    && U16At(d, 16) == Ok(Parsed(0, 18)) && U16At(d, 18) == Ok(Parsed(1, 20))
    && U16At(d, 20) == Ok(Parsed(OBJECT_GEOMETRY, 22))
    && U16At(d, 22) == Ok(Parsed(0, 24)) && U32At(d, 24) == Ok(Parsed(0, 28))
    && U16At(d, 28) == Ok(Parsed(1, 30)) && U16At(d, 30) == Ok(Parsed(0, 32))
  }

  lemma LibraryThenPlainHeader(d: Bytes)
    requires LibraryThenPlainBytes(d)
    ensures HeaderAt(d) == Ok(Parsed(Header([0x42, 0x4F, 0x4D], 1, FILE_MATERIAL_LIBRARY), 6))
  {
    VersionOneHeader(d, FILE_MATERIAL_LIBRARY);
  }

  lemma LibraryThenPlainCounts(d: Bytes)
    requires LibraryThenPlainBytes(d)
    ensures U16At(d, 6) == Ok(Parsed(1, 8)) && U32At(d, 8) == Ok(Parsed(0, 12))
    ensures U16At(d, 14) == Ok(Parsed(1, 16)) && U16At(d, 16) == Ok(Parsed(0, 18))
    ensures U16At(d, 18) == Ok(Parsed(1, 20)) && U16At(d, 20) == Ok(Parsed(OBJECT_GEOMETRY, 22))
    ensures U16At(d, 22) == Ok(Parsed(0, 24)) && U32At(d, 24) == Ok(Parsed(0, 28))
    ensures U16At(d, 28) == Ok(Parsed(1, 30)) && U16At(d, 30) == Ok(Parsed(0, 32))
  {
  }

  lemma LibraryThenPlainName(d: Bytes)
    requires LibraryThenPlainBytes(d)
    ensures Str16At(d, 12) == Ok(Parsed([], 14))
  {
  }

  /** A material record whose flags are zero is its name and nothing else. */
  lemma BareMaterial(d: Bytes, p: nat, name: Bytes, q: nat)
    requires U32At(d, p) == Ok(Parsed(0, p + 4)) && Str16At(d, p + 4) == Ok(Parsed(name, q))
    ensures MaterialAt(d, p) == Ok(Parsed(Params(name), q))
  {
    assert forall f: Field :: !Has(0, FieldMask(f));
  }

  /** A library whose count is one holds the one material record after it. */
  lemma LibraryOfOne(d: Bytes, p: nat, m: Material, q: nat)
    requires U16At(d, p) == Ok(Parsed(1, p + 2)) && MaterialAt(d, p + 2) == Ok(Parsed(m, q))
    ensures LibraryAt(d, p, FILE_MATERIAL_LIBRARY) == Ok(Parsed([m], q))
  {
    MaterialsStep(d, p + 2, 1, 0, [], m, q);
    assert [] + [m] == [m];
    MaterialsDone(d, q, 0, [m]);
    FlagFacts();
  }

  /** A library of one material with no fields and an empty name. */
  lemma OneBareMaterial(d: Bytes)
    requires U16At(d, 6) == Ok(Parsed(1, 8)) && U32At(d, 8) == Ok(Parsed(0, 12)) && Str16At(d, 12) == Ok(Parsed([], 14))
    ensures LibraryAt(d, 6, FILE_MATERIAL_LIBRARY) == Ok(Parsed([Params([])], 14))
  {
    BareMaterial(d, 8, [], 14);
    LibraryOfOne(d, 6, Params([]), 14);
  }

  /** A buffer holding the second file's bytes has its fields. */
  lemma LibraryThenPlainRead(d: Bytes)
    requires LibraryThenPlainBytes(d)
    ensures LibraryThenPlainFields(d)
  {
    LibraryThenPlainHeader(d);
    LibraryThenPlainCounts(d);
    LibraryThenPlainName(d);
  }

  /** The one group of the second file: its mesh takes whatever material the group finds in the
      material variable. */
  lemma LibraryThenPlainGroup(d: Bytes, scope: Scope)
    requires U16At(d, 30) == Ok(Parsed(0, 32))
    ensures
      var h := Enter(scope, Start([Params([])]));
      GroupsAt(d, 30, 1, Some(EMPTY_VERTICES), [Params([])], scope, Start([Params([])]), [])
        == Ok(Parsed(Carried([Mesh(None, EMPTY_VERTICES, None, h.material)], h), 32))
  {
    var library := [Params([])];
    var h0 := Start(library);
    var h := Enter(scope, h0);
    var mesh := Mesh(None, EMPTY_VERTICES, None, h.material);
    PlainGroup(d, 30, EMPTY_VERTICES, library, h);
    GroupsStep(d, 30, 1, 0, Some(EMPTY_VERTICES), library, scope, h0, [], Carried(Some(mesh), h), 32);
    assert [] + OptionSeq(Some(mesh)) == [mesh];
    GroupsDone(d, 32, 0, Some(EMPTY_VERTICES), library, scope, h, [mesh]);
  }

  /** The second file's one asset, read after its library. */
  lemma LibraryThenPlainAsset(d: Bytes, scope: Scope)
    requires LibraryThenPlainFields(d)
    ensures
      var h := Enter(scope, Start([Params([])]));
      AssetAt(d, 16, [Params([])], scope, Start([Params([])]))
        == Ok(Parsed(Carried(Asset(None, [Mesh(None, EMPTY_VERTICES, None, h.material)]), h), 32))
  {
    var library := [Params([])];
    var h0 := Start(library);
    var h := Enter(scope, h0);
    var mesh := Mesh(None, EMPTY_VERTICES, None, h.material);
    EmptyGeometry(d, 22);
    LibraryThenPlainGroup(d, scope);
    GeometryObject(d, 20, EMPTY_VERTICES, 28, 1, library, scope, h0);
    UnnamedAsset(d, 16, library, scope, h0, Carried([mesh], h), 32);
  }

  /** The scene a buffer with these fields decodes to in either scope. */
  lemma LibraryThenPlain(d: Bytes, scope: Scope)
    requires LibraryThenPlainFields(d)
    ensures
      var h := Enter(scope, Start([Params([])]));
      DecodeIn(d, true, scope) == Ok(Roots([Root(None, [Mesh(None, EMPTY_VERTICES, None, h.material)])]))
  {
    var library := [Params([])];
    var h0 := Start(library);
    var h := Enter(scope, h0);
    var mesh := Mesh(None, EMPTY_VERTICES, None, h.material);
    OneBareMaterial(d);
    LibraryThenPlainAsset(d, scope);
    OneAssetFile(d, FILE_MATERIAL_LIBRARY, library, 14, scope, Carried(Asset(None, [mesh]), h), 32);
  }

  /** As written, a group that names no material is built with the library's last material itself, unshaded;
      read per group, it has no material. */
  lemma LibraryMaterialLeaks(d: Bytes)
    requires LibraryThenPlainFields(d)
    ensures Decode(d, true)
         == Ok(Roots([Root(None, [Mesh(None, EMPTY_VERTICES, None, Some(Instance(Params([]))))])]))
    ensures DecodePerGroup(d, true)
         == Ok(Roots([Root(None, [Mesh(None, EMPTY_VERTICES, None, None)])]))
  {
    LibraryThenPlain(d, FunctionScope);
    LibraryThenPlain(d, GroupScope);
  }

  // ---- The intended reading: group-scoped variables ----

  /** With group-scoped variables a mesh is built from its own record alone: it has indices exactly when
      INDEX is set, a material exactly when MATERIAL is set (always a fresh clone), and a name exactly
      when NAME is set and the name it reads is not empty. */
  lemma PerGroupMesh(d: Bytes, p: nat, vertices: VertexData, materials: seq<Material>, h: Hoisted)
    ensures GroupAt(d, p, Some(vertices), materials, Enter(GroupScope, h)).Ok? ==>
      var flags := U16At(d, p).value.value;
      var mesh := GroupAt(d, p, Some(vertices), materials, Enter(GroupScope, h)).value.value.value.value;
      && (mesh.indices.Some? <==> Has(flags, GROUP_INDEX))
      && (mesh.material.Some? <==> Has(flags, GROUP_MATERIAL))
      && (mesh.material.Some? ==> mesh.material.value.Clone?)
      && (mesh.name.Some? <==> Has(flags, GROUP_NAME) && |Str16At(d, p + 2).value.value| > 0)
  {
    var u := Enter(GroupScope, h);
    MeshNaming(d, p, vertices, materials, u);
    if GroupAt(d, p, Some(vertices), materials, u).Ok? {
      ReadWidths(d, p);
      var flags := U16At(d, p).value;
      var read := Gate(Has(flags.value, GROUP_NAME), flags.next, Str16At(d, flags.next)).value;
      GroupMeshLayout(d, read.next, flags.value, vertices, materials, u.(groupName := Latest(read.value, u.groupName)));
    }
  }

  /** With group-scoped variables a run of groups decodes the same meshes, to the same offset, whatever the
      variables held before it. */
  lemma PerGroupsIndependent(d: Bytes, p: nat, k: nat, vertices: Option<VertexData>, materials: seq<Material>,
                             h1: Hoisted, h2: Hoisted, done: seq<Mesh>)
    ensures GroupsAt(d, p, k, vertices, materials, GroupScope, h1, done).Ok?
       <==> GroupsAt(d, p, k, vertices, materials, GroupScope, h2, done).Ok?
    ensures GroupsAt(d, p, k, vertices, materials, GroupScope, h1, done).Ok? ==>
      var r1, r2 := GroupsAt(d, p, k, vertices, materials, GroupScope, h1, done).value,
                    GroupsAt(d, p, k, vertices, materials, GroupScope, h2, done).value;
      r1.value.value == r2.value.value && r1.next == r2.next
  {
    if k > 0 {
      var first := GroupAt(d, p, vertices, materials, Enter(GroupScope, h1));
      assert Enter(GroupScope, h1) == Enter(GroupScope, h2);
      if first.Ok? {
        GroupsStep(d, p, k, k - 1, vertices, materials, GroupScope, h1, done, first.value.value, first.value.next);
        GroupsStep(d, p, k, k - 1, vertices, materials, GroupScope, h2, done, first.value.value, first.value.next);
      } else {
        GroupsFail(d, p, k, vertices, materials, GroupScope, h1, done, first.error);
        GroupsFail(d, p, k, vertices, materials, GroupScope, h2, done, first.error);
      }
    }
  }

  /** One object record, likewise: its meshes and end offset do not depend on what the variables held. */
  lemma PerGroupObjectIndependent(d: Bytes, p: nat, materials: seq<Material>, h1: Hoisted, h2: Hoisted)
    ensures ObjectAt(d, p, materials, GroupScope, h1).Ok? <==> ObjectAt(d, p, materials, GroupScope, h2).Ok?
    ensures ObjectAt(d, p, materials, GroupScope, h1).Ok? ==>
      var r1, r2 := ObjectAt(d, p, materials, GroupScope, h1).value, ObjectAt(d, p, materials, GroupScope, h2).value;
      r1.value.value == r2.value.value && r1.next == r2.next
  {
    if U16At(d, p).Ok? {
      var flags := U16At(d, p).value;
      var vertices := Gate(Has(flags.value, OBJECT_GEOMETRY), flags.next, GeometryAt(d, flags.next));
      if vertices.Ok? && U16At(d, vertices.value.next).Ok? {
        var count := U16At(d, vertices.value.next).value;
        PerGroupsIndependent(d, count.next, count.value, vertices.value.value, materials, h1, h2, []);
      }
    }
  }

  /** A run of object records, likewise; the variables each object leaves may differ, so this needs the induction. */
  lemma {:induction false} PerGroupObjectsIndependent(d: Bytes, p: nat, k: nat, materials: seq<Material>,
                                                      h1: Hoisted, h2: Hoisted, done: seq<Mesh>)
    ensures ObjectsAt(d, p, k, materials, GroupScope, h1, done).Ok? <==> ObjectsAt(d, p, k, materials, GroupScope, h2, done).Ok?
    ensures ObjectsAt(d, p, k, materials, GroupScope, h1, done).Ok? ==>
      var r1, r2 := ObjectsAt(d, p, k, materials, GroupScope, h1, done).value, ObjectsAt(d, p, k, materials, GroupScope, h2, done).value;
      r1.value.value == r2.value.value && r1.next == r2.next
    decreases k
  {
    if k > 0 {
      PerGroupObjectIndependent(d, p, materials, h1, h2);
      var o1, o2 := ObjectAt(d, p, materials, GroupScope, h1), ObjectAt(d, p, materials, GroupScope, h2);
      if o1.Ok? {
        var q, ms := o1.value.next, o1.value.value.value;
        ObjectsStep(d, p, k, k - 1, materials, GroupScope, h1, done, o1.value.value, q);
        ObjectsStep(d, p, k, k - 1, materials, GroupScope, h2, done, o2.value.value, q);
        PerGroupObjectsIndependent(d, q, k - 1, materials, o1.value.value.hoisted, o2.value.value.hoisted, done + ms);
      } else {
        ObjectsFail(d, p, k, materials, GroupScope, h1, done, o1.error);
        ObjectsFail(d, p, k, materials, GroupScope, h2, done, o2.error);
      }
    }
  }
}
