/** Step lemmas for the four counted runs of the format (materials, groups,
    objects, assets). A walker loop keeps `left` records still to read and
    the records `done` so far; each lemma moves one record from the run to
    `done`, ends the run when `left` reaches zero, or passes on the error of
    the record that failed. */
module BomRuns {
  import opened BomWire
  import opened BomFormat
  import opened BomLayout

  // ---- Materials ----

  lemma MaterialsUnfold(d: Bytes, p: nat, k: nat, done: seq<Material>, m: Material, q: nat)
    requires MaterialAt(d, p) == Ok(Parsed(m, q))
    ensures MaterialsAt(d, p, k + 1, done) == MaterialsAt(d, q, k, done + [m])
  {
  }

  lemma MaterialsRebase(d: Bytes, p: nat, a: nat, b: nat, done: seq<Material>)
    requires a == b
    ensures MaterialsAt(d, p, a, done) == MaterialsAt(d, p, b, done)
  {
  }

  lemma MaterialsStep(d: Bytes, p: nat, k: nat, k': nat, done: seq<Material>, m: Material, q: nat)
    requires k == k' + 1 && MaterialAt(d, p) == Ok(Parsed(m, q))
    ensures MaterialsAt(d, p, k, done) == MaterialsAt(d, q, k', done + [m])
  {
    MaterialsRebase(d, p, k, k' + 1, done);
    MaterialsUnfold(d, p, k', done, m, q);
  }

  lemma MaterialsFail(d: Bytes, p: nat, k: nat, done: seq<Material>, e: DecodeError)
    requires k > 0 && MaterialAt(d, p) == Err(e)
    ensures MaterialsAt(d, p, k, done) == Err(e)
  {
  }

  lemma MaterialsDone(d: Bytes, p: nat, k: nat, done: seq<Material>)
    requires k == 0
    ensures MaterialsAt(d, p, k, done) == Ok(Parsed(done, p))
  {
  }

  // ---- Groups ----

  lemma GroupsUnfold(d: Bytes, p: nat, k: nat, vertices: Option<VertexData>, materials: seq<Material>,
                     scope: Scope, h: Hoisted, done: seq<Mesh>, g: Carried<Option<Mesh>>, q: nat)
    requires GroupAt(d, p, vertices, materials, Enter(scope, h)) == Ok(Parsed(g, q))
    ensures GroupsAt(d, p, k + 1, vertices, materials, scope, h, done)
         == GroupsAt(d, q, k, vertices, materials, scope, g.hoisted, done + OptionSeq(g.value))
  {
  }

  lemma GroupsRebase(d: Bytes, p: nat, a: nat, b: nat, vertices: Option<VertexData>, materials: seq<Material>,
                     scope: Scope, h: Hoisted, done: seq<Mesh>)
    requires a == b
    ensures GroupsAt(d, p, a, vertices, materials, scope, h, done) == GroupsAt(d, p, b, vertices, materials, scope, h, done)
  {
  }

  lemma GroupsStep(d: Bytes, p: nat, k: nat, k': nat, vertices: Option<VertexData>, materials: seq<Material>,
                   scope: Scope, h: Hoisted, done: seq<Mesh>, g: Carried<Option<Mesh>>, q: nat)
    requires k == k' + 1 && GroupAt(d, p, vertices, materials, Enter(scope, h)) == Ok(Parsed(g, q))
    ensures GroupsAt(d, p, k, vertices, materials, scope, h, done)
         == GroupsAt(d, q, k', vertices, materials, scope, g.hoisted, done + OptionSeq(g.value))
  {
    GroupsRebase(d, p, k, k' + 1, vertices, materials, scope, h, done);
    GroupsUnfold(d, p, k', vertices, materials, scope, h, done, g, q);
  }

  lemma GroupsFail(d: Bytes, p: nat, k: nat, vertices: Option<VertexData>, materials: seq<Material>,
                   scope: Scope, h: Hoisted, done: seq<Mesh>, e: DecodeError)
    requires k > 0 && GroupAt(d, p, vertices, materials, Enter(scope, h)) == Err(e)
    ensures GroupsAt(d, p, k, vertices, materials, scope, h, done) == Err(e)
  {
  }

  lemma GroupsDone(d: Bytes, p: nat, k: nat, vertices: Option<VertexData>, materials: seq<Material>,
                   scope: Scope, h: Hoisted, done: seq<Mesh>)
    requires k == 0
    ensures GroupsAt(d, p, k, vertices, materials, scope, h, done) == Ok(Parsed(Carried(done, h), p))
  {
  }

  // ---- Objects ----

  lemma ObjectsUnfold(d: Bytes, p: nat, k: nat, materials: seq<Material>, scope: Scope, h: Hoisted,
                      done: seq<Mesh>, o: Carried<seq<Mesh>>, q: nat)
    requires ObjectAt(d, p, materials, scope, h) == Ok(Parsed(o, q))
    ensures ObjectsAt(d, p, k + 1, materials, scope, h, done) == ObjectsAt(d, q, k, materials, scope, o.hoisted, done + o.value)
  {
  }

  lemma ObjectsRebase(d: Bytes, p: nat, a: nat, b: nat, materials: seq<Material>, scope: Scope, h: Hoisted, done: seq<Mesh>)
    requires a == b
    ensures ObjectsAt(d, p, a, materials, scope, h, done) == ObjectsAt(d, p, b, materials, scope, h, done)
  {
  }

  lemma ObjectsStep(d: Bytes, p: nat, k: nat, k': nat, materials: seq<Material>, scope: Scope, h: Hoisted,
                    done: seq<Mesh>, o: Carried<seq<Mesh>>, q: nat)
    requires k == k' + 1 && ObjectAt(d, p, materials, scope, h) == Ok(Parsed(o, q))
    ensures ObjectsAt(d, p, k, materials, scope, h, done) == ObjectsAt(d, q, k', materials, scope, o.hoisted, done + o.value)
  {
    ObjectsRebase(d, p, k, k' + 1, materials, scope, h, done);
    ObjectsUnfold(d, p, k', materials, scope, h, done, o, q);
  }

  lemma ObjectsFail(d: Bytes, p: nat, k: nat, materials: seq<Material>, scope: Scope, h: Hoisted, done: seq<Mesh>, e: DecodeError)
    requires k > 0 && ObjectAt(d, p, materials, scope, h) == Err(e)
    ensures ObjectsAt(d, p, k, materials, scope, h, done) == Err(e)
  {
  }

  lemma ObjectsDone(d: Bytes, p: nat, k: nat, materials: seq<Material>, scope: Scope, h: Hoisted, done: seq<Mesh>)
    requires k == 0
    ensures ObjectsAt(d, p, k, materials, scope, h, done) == Ok(Parsed(Carried(done, h), p))
  {
  }

  // ---- Assets ----

  lemma AssetsUnfold(d: Bytes, p: nat, k: nat, materials: seq<Material>, scope: Scope, h: Hoisted,
                     done: seq<Asset>, a: Carried<Asset>, q: nat)
    requires AssetAt(d, p, materials, scope, h) == Ok(Parsed(a, q))
    ensures AssetsAt(d, p, k + 1, materials, scope, h, done) == AssetsAt(d, q, k, materials, scope, a.hoisted, done + [a.value])
  {
  }

  lemma AssetsRebase(d: Bytes, p: nat, x: nat, y: nat, materials: seq<Material>, scope: Scope, h: Hoisted, done: seq<Asset>)
    requires x == y
    ensures AssetsAt(d, p, x, materials, scope, h, done) == AssetsAt(d, p, y, materials, scope, h, done)
  {
  }

  lemma AssetsStep(d: Bytes, p: nat, k: nat, k': nat, materials: seq<Material>, scope: Scope, h: Hoisted,
                   done: seq<Asset>, a: Carried<Asset>, q: nat)
    requires k == k' + 1 && AssetAt(d, p, materials, scope, h) == Ok(Parsed(a, q))
    ensures AssetsAt(d, p, k, materials, scope, h, done) == AssetsAt(d, q, k', materials, scope, a.hoisted, done + [a.value])
  {
    AssetsRebase(d, p, k, k' + 1, materials, scope, h, done);
    AssetsUnfold(d, p, k', materials, scope, h, done, a, q);
  }

  lemma AssetsFail(d: Bytes, p: nat, k: nat, materials: seq<Material>, scope: Scope, h: Hoisted, done: seq<Asset>, e: DecodeError)
    requires k > 0 && AssetAt(d, p, materials, scope, h) == Err(e)
    ensures AssetsAt(d, p, k, materials, scope, h, done) == Err(e)
  {
  }

  lemma AssetsDone(d: Bytes, p: nat, k: nat, materials: seq<Material>, scope: Scope, h: Hoisted, done: seq<Asset>)
    requires k == 0
    ensures AssetsAt(d, p, k, materials, scope, h, done) == Ok(Parsed(Carried(done, h), p))
  {
  }
}
