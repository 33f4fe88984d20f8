/** The `ObjModel` object (ObjModel.py:21-67, 74-171, 275-354): a loaded
    mesh with its draw chunks and material map, its pivot and scale, and
    the children it renders before itself. */
module Scene {
  import opened Wrappers
  import opened PyText
  import opened Vectors
  import opened Materials
  import opened MtlParser
  import opened ObjParser
  import opened Layout
  import opened DrawSchedule

  /** The `scale` argument of the constructor: absent, a number, a tuple
      of numbers, or a `vec3` (a numpy array of three components). */
  datatype ScaleArg = NoScale | Number(x: real) | Tuple(xs: seq<real>) | Vector(v: Vec3)

  /** The diagonal of `make_scale(...)` as the constructor calls it. A falsy
      argument (absent, zero, an empty tuple) gives 1.0; a number x gives
      `(x, x, x)`; a tuple is spread into `make_scale(x, y=None, z=None)`,
      which repeats x for a missing y and y for a missing z, and refuses more
      than three; the truth value of a three-component numpy array is
      ambiguous, so `if scale:` raises ValueError on a `vec3`. */
  function ScaleOf(arg: ScaleArg): Result<Vec3> {
    match arg
    case NoScale => Ok(Vec3(1.0, 1.0, 1.0))
    case Number(x) => if x == 0.0 then Ok(Vec3(1.0, 1.0, 1.0)) else Ok(Vec3(x, x, x))
    case Tuple(xs) =>
      if xs == [] then Ok(Vec3(1.0, 1.0, 1.0))
      else if |xs| > 3 then Err(TypeError)
      else
        var x := xs[0];
        var y := if |xs| >= 2 then xs[1] else x;
        var z := if |xs| >= 3 then xs[2] else y;
        Ok(Vec3(x, y, z))
    case Vector(_) => Err(ValueError)
  }

  /** The three components, passed as a tuple, come back as the scale. */
  lemma ScaleRoundTrip(s: Vec3)
    ensures ScaleOf(Tuple([s.x, s.y, s.z])) == Ok(s)
  {
  }

  /** A non-zero number and the one-element tuple of it scale alike, and
      both scale uniformly. */
  lemma ScaleUniform(x: real)
    requires x != 0.0
    ensures ScaleOf(Number(x)) == ScaleOf(Tuple([x])) == Ok(Vec3(x, x, x))
  {
  }

  /** What `loadObj` computes from the lines, before it stores it. */
  datatype Loaded = Loaded(parse: ObjState, mesh: Mesh)

  datatype LoadOutcome = LoadOutcome(result: Result<Loaded>, cache: CacheValue)

  /** The part of `loadObj` after the reading loop: de-index the chunks,
      then fail with ZeroDivisionError when there is no vertex at all (the
      attribute size `len(flatData) / len(data)` of the first vertex
      buffer). */
  function LayoutSpec(st: ObjState): (r: Result<Loaded>)
    ensures r.Ok? ==>
      && r.value.parse == st
      && |st.positions| > 0
      && |r.value.mesh.vertices| == TotalCount(st.chunks) > 0
  {
    var d := Deindex(st.positions, st.normals, st.uvs, st.mats, st.chunks);
    if d.Err? then Err(d.error)
    else if TotalCount(st.chunks) == 0 then Err(ZeroDivisionError)
    else
      DeindexShape(st.positions, st.normals, st.uvs, st.mats, st.chunks);
      DeindexVerticesFromLists(st.positions, st.normals, st.uvs, st.mats, st.chunks);
      assert d.value.vertices[0] in d.value.vertices;
      Ok(Loaded(st, d.value))
  }

  /** `loadObj`: the reading loop, then the layout. */
  function LoadObjSpec(objLines: seq<string>, basePath: string, env: Env, cache: CacheValue): LoadOutcome {
    var st := ObjRun(InitialObjState(cache), objLines, basePath, env);
    if st.err.Some? then LoadOutcome(Err(st.err.value), st.cache)
    else LoadOutcome(LayoutSpec(st), st.cache)
  }

  /** Every de-indexed vertex lies inside the model's bounding box. */
  lemma VerticesInsideBox(objLines: seq<string>, basePath: string, env: Env, cache: CacheValue)
    requires LoadObjSpec(objLines, basePath, env, cache).result.Ok?
    ensures var l := LoadObjSpec(objLines, basePath, env, cache).result.value;
      |l.parse.positions| > 0 &&
      var lo, hi := BoxMin(l.parse.positions), BoxMax(l.parse.positions);
      forall v :: v in l.mesh.vertices ==>
        lo.x <= v.pos.x <= hi.x && lo.y <= v.pos.y <= hi.y && lo.z <= v.pos.z <= hi.z
  {
    var l := LoadObjSpec(objLines, basePath, env, cache).result.value;
    var st := l.parse;
    DeindexVerticesFromLists(st.positions, st.normals, st.uvs, st.mats, st.chunks);
    BoxMinIsMinimum(st.positions);
    BoxMaxIsMaximum(st.positions);
  }

  /** Draw records that describe a successful layout, over a map holding
      the parsed materials, carry the flag of their material's value. */
  lemma DrawRecordsClassified(st: ObjState, draw: seq<Chunk>, materials: map<string, Material>)
    requires LayoutSpec(st).Ok? && Holds(materials, st.mats)
    requires var m := LayoutSpec(st).value.mesh;
      |draw| == |m.chunks| && forall k :: 0 <= k < |draw| ==> Describes(draw[k], materials, m.chunks[k])
    ensures Classified(draw)
  {
    DeindexShape(st.positions, st.normals, st.uvs, st.mats, st.chunks);
    DeindexLayouts(st.positions, st.normals, st.uvs, st.mats, st.chunks);
  }

  /** A chunk's value as `render` reads it. */
  function ValueOf(c: Chunk): ChunkValue
    reads c.material
  {
    ChunkValue(c.material.Value(), c.offset, c.count, c.flags)
  }

  function ChunkMaterials(chunks: seq<Chunk>): set<Material> {
    set k | 0 <= k < |chunks| :: chunks[k].material
  }

  function ChunkValues(chunks: seq<Chunk>): (r: seq<ChunkValue>)
    reads ChunkMaterials(chunks)
    ensures |r| == |chunks|
  {
    seq(|chunks|, k reads ChunkMaterials(chunks) requires 0 <= k < |chunks| => ValueOf(chunks[k]))
  }

  /** Every chunk's flag is the class of its material's current value. */
  predicate Classified(chunks: seq<Chunk>)
    reads ChunkMaterials(chunks)
  {
    forall k :: 0 <= k < |chunks| ==> chunks[k].flags == Classify(chunks[k].material.Value())
  }

  /** The chunks `updateMaterials` rebuilds: same material, offset and count,
      the flag recomputed from the material. */
  function Reclassified(chunks: seq<Chunk>): (r: seq<Chunk>)
    reads ChunkMaterials(chunks)
    ensures |r| == |chunks|
  {
    seq(|chunks|, k reads ChunkMaterials(chunks) requires 0 <= k < |chunks| =>
      chunks[k].(flags := Classify(chunks[k].material.Value())))
  }

  /** Reclassifying keeps every chunk's material, offset, count and place,
      and leaves every flag right. */
  lemma ReclassifyKeepsLayout(chunks: seq<Chunk>)
    ensures var r := Reclassified(chunks);
      && ChunkMaterials(r) == ChunkMaterials(chunks)
      && Classified(r)
      && forall k :: 0 <= k < |chunks| ==>
           r[k].material == chunks[k].material && r[k].offset == chunks[k].offset && r[k].count == chunks[k].count
  {
    var r := Reclassified(chunks);
    assert forall k :: 0 <= k < |chunks| ==> r[k].material == chunks[k].material;
    assert ChunkMaterials(r) == ChunkMaterials(chunks) by {
      forall m | m in ChunkMaterials(r) ensures m in ChunkMaterials(chunks) {
        var k :| 0 <= k < |r| && r[k].material == m;
      }
      forall m | m in ChunkMaterials(chunks) ensures m in ChunkMaterials(r) {
        var k :| 0 <= k < |chunks| && chunks[k].material == m;
        assert r[k].material == m;
      }
    }
  }

  /** On chunks whose flags are right, reclassifying changes nothing: a
      second `updateMaterials` is a no-op. */
  lemma ReclassifyIdempotent(chunks: seq<Chunk>)
    requires Classified(chunks)
    ensures Reclassified(chunks) == chunks
  {
    var r := Reclassified(chunks);
    assert forall k :: 0 <= k < |chunks| ==> r[k] == chunks[k];
  }

  /** Whether `render` cannot invert its model matrix (ObjModel.py:302,
      308): the translation is invertible, and the parent's model was
      itself inverted before it was passed down, so the product is
      singular exactly when a diagonal entry of the scale is zero. */
  predicate Singular(s: Vec3) {
    s.x == 0.0 || s.y == 0.0 || s.z == 0.0
  }

  class ObjModel {
    var numVerts: nat
    var positions: seq<Vec3>
    var normals: seq<Vec3>
    var uvs: seq<Vec2>
    var tangents: seq<Vec3>
    var bitangents: seq<Vec3>
    var chunks: seq<Chunk>
    var materials: map<string, Material>
    var aabbMin: Vec3
    var aabbMax: Vec3
    var centre: Vec3
    var position: Vec3
    var scale: Vec3
    var children: seq<ObjModel>
    var overrideDiffuseTextureWithDefault: bool

    /** The object before `load`: no children, no diffuse override. */
    constructor ()
      ensures children == [] && !overrideDiffuseTextureWithDefault
      ensures chunks == [] && materials == map[] && numVerts == 0
    {
      numVerts := 0;
      positions, normals, uvs, tangents, bitangents := [], [], [], [], [];
      chunks, materials := [], map[];
      aabbMin, aabbMax, centre, position := Origin, Origin, Origin, Origin;
      scale := Vec3(1.0, 1.0, 1.0);
      children := [];
      overrideDiffuseTextureWithDefault := false;
    }

    /** The fields hold the loaded mesh `l`: the de-indexed vertex lists with
        the default tangent frame, the material map, one draw record per
        chunk sharing the map's material objects, and the bounding box of
        the file's positions. */
    predicate Shows(l: Loaded)
      reads this`numVerts, this`positions, this`normals, this`uvs, this`tangents, this`bitangents
      reads this`materials, this`chunks, this`aabbMin, this`aabbMax, this`centre, materials.Values
    {
      ShowsVertices(l.mesh) && ShowsLayout(l)
    }

    predicate ShowsVertices(m: Mesh)
      reads this`numVerts, this`positions, this`normals, this`uvs, this`tangents, this`bitangents
    {
      (numVerts, positions, normals, uvs, tangents, bitangents)
      == (|m.vertices|, Positions(m.vertices), Normals(m.vertices), Uvs(m.vertices),
          Repeat(DefaultTangent, |m.vertices|), Repeat(DefaultBitangent, |m.vertices|))
    }

    predicate ShowsLayout(l: Loaded)
      reads this`materials, this`chunks, this`aabbMin, this`aabbMax, this`centre, materials.Values
    {
      && Holds(materials, l.parse.mats) && Distinct(materials)
      && DescribesAll(chunks, materials, l.mesh.chunks)
      && |l.parse.positions| > 0
      && (aabbMin, aabbMax, centre)
         == (BoxMin(l.parse.positions), BoxMax(l.parse.positions),
             Centre(BoxMin(l.parse.positions), BoxMax(l.parse.positions)))
    }

    /** `loadObj`: parse, then lay the chunks out; the pivot is set to the
        box centre. */
    method LoadObj(objLines: seq<string>, basePath: string, env: Env, cache: TextureCache)
      returns (err: Option<LoadError>)
      modifies this, cache
      ensures var o := LoadObjSpec(objLines, basePath, env, old(cache.Value()));
        && cache.Value() == o.cache
        && (err.None? <==> o.result.Ok?) && (err.Some? ==> err.value == o.result.error)
        && (o.result.Ok? ==> Shows(o.result.value) && position == centre && Classified(chunks))
      ensures children == old(children) && scale == old(scale)
      ensures overrideDiffuseTextureWithDefault == old(overrideDiffuseTextureWithDefault)
    {
      ghost var st := ObjRun(InitialObjState(cache.Value()), objLines, basePath, env);
      RunWellFormed(InitialObjState(cache.Value()), objLines, basePath, env);
      var r := ParseObjLines(objLines, basePath, env, cache);
      if r.Err? {
        return Some(r.error);
      }
      err := Install(r.value, st);
    }

    /** The rest of `loadObj` on the parsed lists: count, preallocate,
        de-index chunk by chunk, then the bounding box. */
    method Install(p: ObjParse, ghost st: ObjState) returns (err: Option<LoadError>)
      requires st.err.None? && ChunksWellFormed(st.chunks)
      requires p.positions == st.positions && p.normals == st.normals && p.uvs == st.uvs && p.chunks == st.chunks
      requires Holds(p.materials, st.mats) && Distinct(p.materials)
      modifies this
      ensures var o := LayoutSpec(st);
        && (err.None? <==> o.Ok?) && (err.Some? ==> err.value == o.error)
        && (o.Ok? ==> Shows(o.value) && position == centre && Classified(chunks))
      ensures children == old(children) && scale == old(scale)
      ensures overrideDiffuseTextureWithDefault == old(overrideDiffuseTextureWithDefault)
    {
      var n := CountVerts(p.chunks);
      var e, draw, ps, ns, us := DeindexChunks(p.positions, p.normals, p.uvs, p.chunks, n, p.materials, st.mats);
      if e.Some? {
        return e;
      }
      if n == 0 {
        return Some(ZeroDivisionError);
      }
      ghost var d := Deindex(st.positions, st.normals, st.uvs, st.mats, st.chunks).value;
      ghost var l := Loaded(st, d);
      assert LayoutSpec(st) == Ok(l);
      DrawRecordsClassified(st, draw, p.materials);
      StoreMesh(n, ps, ns, us);
      StoreLayout(draw, p.materials, BoxMin(p.positions), BoxMax(p.positions));
      return None;
    }

    /** The vertex attributes `loadObj` sets: the de-indexed lists and the
        default tangent frame. */
    method StoreMesh(n: nat, ps: seq<Vec3>, ns: seq<Vec3>, us: seq<Vec2>)
      modifies this
      ensures (numVerts, positions, normals, uvs) == (n, ps, ns, us)
      ensures (tangents, bitangents) == (Repeat(DefaultTangent, n), Repeat(DefaultBitangent, n))
      ensures (chunks, materials, aabbMin, aabbMax, centre, position, scale, children, overrideDiffuseTextureWithDefault)
           == old((chunks, materials, aabbMin, aabbMax, centre, position, scale, children, overrideDiffuseTextureWithDefault))
    {
      numVerts := n;
      positions, normals, uvs := ps, ns, us;
      tangents, bitangents := Repeat(DefaultTangent, n), Repeat(DefaultBitangent, n);
    }

    /** The rest of what `loadObj` sets: the chunks and materials, the box,
        and the pivot at the box centre. */
    method StoreLayout(draw: seq<Chunk>, mats: map<string, Material>, lo: Vec3, hi: Vec3)
      modifies this
      ensures (chunks, materials) == (draw, mats)
      ensures (aabbMin, aabbMax, centre, position) == (lo, hi, Centre(lo, hi), Centre(lo, hi))
      ensures (numVerts, positions, normals, uvs, tangents, bitangents, scale, children, overrideDiffuseTextureWithDefault)
           == old((numVerts, positions, normals, uvs, tangents, bitangents, scale, children, overrideDiffuseTextureWithDefault))
    {
      chunks, materials := draw, mats;
      aabbMin, aabbMax := lo, hi;
      centre := Centre(aabbMin, aabbMax);
      position := centre;
    }

    /** The pose the constructor gives a loaded model. */
    method Place(pivot: Vec3, size: Vec3)
      modifies this`position, this`scale
      ensures position == pivot && scale == size
      ensures forall l :: old(Shows(l)) ==> Shows(l)
    {
      position, scale := pivot, size;
    }

    /** `updateMaterials`: rebuild the chunk list with every flag
        recomputed from its material's current value. */
    method UpdateMaterials()
      modifies this`chunks
      ensures chunks == Reclassified(old(chunks)) && Classified(chunks)
    {
      var newChunks: seq<Chunk> := [];
      for i := 0 to |chunks|
        invariant newChunks == Reclassified(chunks)[..i]
      {
        var c := chunks[i];
        newChunks := newChunks + [Chunk(c.material, c.offset, c.count, Classify(c.material.Value()))];
      }
      ReclassifyKeepsLayout(chunks);
      chunks := newChunks;
    }

    /** `addChild`: the child's pivot is offset once by the parent's current
        pivot, and the child goes last in the parent's list. When a model
        is added to itself its pivot doubles. */
    method AddChild(child: ObjModel)
      modifies this`children, child`position
      ensures children == old(children) + [child]
      ensures child.position == Add(old(child.position), old(position))
      ensures child != this ==> position == old(position) && child.children == old(child.children)
      ensures chunks == old(chunks) && overrideDiffuseTextureWithDefault == old(overrideDiffuseTextureWithDefault)
      ensures child.chunks == old(child.chunks)
      ensures forall l :: old(Shows(l)) ==> Shows(l)
      ensures forall l :: old(child.Shows(l)) ==> child.Shows(l)
    {
      child.position := Add(child.position, position);
      children := children + [child];
    }

    /** The calls `render(mask)` makes, or RecursionError when the nesting
        of children is deeper than `fuel`, or LinAlgError when the normal
        matrix cannot be computed: the children's calls first, each
        rendered without a mask, then the node's own schedule. */
    function Trace(mask: Option<int>, fuel: nat): Result<seq<DrawCall>>
      reads *
      decreases fuel, 0
    {
      if fuel == 0 then Err(RecursionError)
      else if Singular(scale) then Err(LinAlgError)
      else
        var cs := ChildrenTrace(children, fuel - 1);
        if cs.Err? then cs
        else Ok(cs.value + Schedule(ChunkValues(chunks), mask, overrideDiffuseTextureWithDefault))
    }

    /** `render`: the children in order, then the kept chunks, binding a
        material only when it differs from the previous drawn one. */
    method Render(mask: Option<int>, fuel: nat) returns (r: Result<seq<DrawCall>>)
      ensures r == Trace(mask, fuel)
      decreases fuel, 0
    {
      if fuel == 0 {
        return Err(RecursionError);
      }
      if Singular(scale) {
        return Err(LinAlgError);
      }
      var cs := RenderChildren(fuel - 1);
      if cs.Err? {
        return cs;
      }
      var own := DrawKept(Kept(ChunkValues(chunks), EffectiveMask(mask)), overrideDiffuseTextureWithDefault);
      return Ok(cs.value + own);
    }

    /** The first loop of `render`: each child rendered without a mask. */
    method RenderChildren(fuel: nat) returns (r: Result<seq<DrawCall>>)
      ensures r == ChildrenTrace(children, fuel)
      decreases fuel, 1
    {
      var trace: seq<DrawCall> := [];
      var i := 0;
      while i < |children|
        invariant 0 <= i <= |children|
        invariant ChildrenTrace(children[..i], fuel) == Ok(trace)
      {
        var t := children[i].Render(None, fuel);
        ChildrenTraceStep(children, i, fuel);
        if t.Err? {
          ChildrenErrorPersists(children, i + 1, fuel);
          assert children[..|children|] == children;
          return t;
        }
        trace := trace + t.value;
        i := i + 1;
      }
      assert children[..i] == children;
      return Ok(trace);
    }
  }

  /** The calls of the children in order, each rendered without a mask, or
      the first child's error. */
  function ChildrenTrace(cs: seq<ObjModel>, fuel: nat): Result<seq<DrawCall>>
    reads *
    decreases fuel, 1, |cs|
  {
    if cs == [] then Ok([])
    else
      var n := |cs|;
      var front := ChildrenTrace(cs[..n - 1], fuel);
      if front.Err? then front
      else
        var t := cs[n - 1].Trace(None, fuel);
        if t.Err? then t else Ok(front.value + t.value)
  }

  lemma ChildrenTraceStep(cs: seq<ObjModel>, i: nat, fuel: nat)
    requires i < |cs|
    ensures var front := ChildrenTrace(cs[..i], fuel);
      var t := cs[i].Trace(None, fuel);
      ChildrenTrace(cs[..i + 1], fuel) ==
        if front.Err? then front else if t.Err? then t else Ok(front.value + t.value)
  {
    assert cs[..i + 1][..i] == cs[..i];
  }

  /** Once the children before `i` fail, all of them fail the same way. */
  lemma {:induction false} ChildrenErrorPersists(cs: seq<ObjModel>, i: nat, fuel: nat)
    requires i <= |cs| && ChildrenTrace(cs[..i], fuel).Err?
    ensures ChildrenTrace(cs, fuel) == ChildrenTrace(cs[..i], fuel)
    decreases |cs| - i
  {
    if i < |cs| {
      ChildrenTraceStep(cs, i, fuel);
      ChildrenErrorPersists(cs, i + 1, fuel);
    } else {
      assert cs[..i] == cs;
    }
  }

  /** One failing child makes the whole list fail. */
  lemma ChildFailureSpreads(cs: seq<ObjModel>, k: nat, fuel: nat)
    requires k < |cs| && cs[k].Trace(None, fuel).Err?
    ensures ChildrenTrace(cs, fuel).Err?
  {
    ChildrenTraceStep(cs, k, fuel);
    ChildrenErrorPersists(cs, k + 1, fuel);
  }

  /** A model added to itself (`m.addChild(m)`) never finishes a render,
      whatever the recursion limit: a singular scale raises LinAlgError
      before any child is rendered, and when the model is its own first
      child it otherwise recurses until RecursionError. */
  lemma {:induction false} SelfChildRaises(m: ObjModel, mask: Option<int>, fuel: nat)
    requires m in m.children
    ensures m.Trace(mask, fuel).Err?
    ensures fuel > 0 && Singular(m.scale) ==> m.Trace(mask, fuel) == Err(LinAlgError)
    ensures m.children[0] == m && !Singular(m.scale) ==> m.Trace(mask, fuel) == Err(RecursionError)
    decreases fuel
  {
    if fuel > 0 && !Singular(m.scale) {
      var k :| 0 <= k < |m.children| && m.children[k] == m;
      SelfChildRaises(m, None, fuel - 1);
      ChildFailureSpreads(m.children, k, fuel - 1);
      if m.children[0] == m {
        ChildrenFirstError(m.children, fuel - 1, 0);
      }
    }
  }

  /** The first child that raises decides the exception of the list. */
  lemma {:induction false} ChildrenFirstError(cs: seq<ObjModel>, fuel: nat, k: nat)
    requires k < |cs| && cs[k].Trace(None, fuel).Err?
    requires forall j :: 0 <= j < k ==> cs[j].Trace(None, fuel).Ok?
    ensures ChildrenTrace(cs, fuel) == cs[k].Trace(None, fuel)
  {
    ChildrenTraceStep(cs, k, fuel);
    ChildrenPrefixOk(cs, k, fuel);
    ChildrenErrorPersists(cs, k + 1, fuel);
  }

  /** Children that all render leave the list of them rendering. */
  lemma {:induction false} ChildrenPrefixOk(cs: seq<ObjModel>, k: nat, fuel: nat)
    requires k <= |cs|
    requires forall j :: 0 <= j < k ==> cs[j].Trace(None, fuel).Ok?
    ensures ChildrenTrace(cs[..k], fuel).Ok?
    decreases k
  {
    if k > 0 {
      ChildrenPrefixOk(cs, k - 1, fuel);
      ChildrenTraceStep(cs, k - 1, fuel);
    } else {
      assert cs[..0] == [];
    }
  }

  /** A render raises RecursionError or LinAlgError and nothing else. */
  lemma {:induction false} TraceErrors(cs: seq<ObjModel>, fuel: nat)
    ensures ChildrenTrace(cs, fuel).Err? ==> ChildrenTrace(cs, fuel).error in {RecursionError, LinAlgError}
    decreases fuel, |cs|
  {
    if cs != [] {
      var n := |cs|;
      TraceErrors(cs[..n - 1], fuel);
      if fuel > 0 {
        TraceErrors(cs[n - 1].children, fuel - 1);
      }
    }
  }

  /** A childless model's render draws exactly its chunks kept by the
      mask, in order, each with its own material bound and no redundant
      rebinding. */
  lemma LeafRender(m: ObjModel, mask: Option<int>, fuel: nat)
    requires m.children == [] && fuel > 0
    ensures m.Trace(mask, fuel).Ok? <==> !Singular(m.scale)
    ensures Singular(m.scale) ==> m.Trace(mask, fuel) == Err(LinAlgError)
    ensures m.Trace(mask, fuel).Ok? ==> var kept := Kept(ChunkValues(m.chunks), EffectiveMask(mask));
      var t := m.Trace(mask, fuel).value;
      && |Draws(t)| == |kept| && (forall i :: 0 <= i < |kept| ==> Draws(t)[i] == Draw(kept[i].offset, kept[i].count))
      && |BoundAtDraws(None, t)| == |kept|
      && (forall i :: 0 <= i < |kept| ==> BoundAtDraws(None, t)[i] == Some(kept[i].material))
      && NoRedundantBind(None, t)
  {
    if Singular(m.scale) {
      return;
    }
    var kept := Kept(ChunkValues(m.chunks), EffectiveMask(mask));
    assert m.Trace(mask, fuel) == Ok([] + ScheduleFrom(None, kept, m.overrideDiffuseTextureWithDefault));
    assert [] + ScheduleFrom(None, kept, m.overrideDiffuseTextureWithDefault)
        == ScheduleFrom(None, kept, m.overrideDiffuseTextureWithDefault);
    DrawsAreChunks(None, kept, m.overrideDiffuseTextureWithDefault);
    BindsPrecedeDraws(None, kept, m.overrideDiffuseTextureWithDefault);
    ScheduleMinimal(None, kept, m.overrideDiffuseTextureWithDefault);
  }

  /** The constructor: load the file named `fileName` relative to its own
      directory, reset the pivot to the origin, then set the scale. */
  method NewModel(fileName: string, scaleArg: ScaleArg, env: Env, cache: TextureCache)
    returns (r: Result<ObjModel>)
    modifies cache
    ensures env.readLines(fileName).None? ==> r == Err(FileNotFound) && cache.Value() == old(cache.Value())
    ensures env.readLines(fileName).Some? ==>
      var o := LoadObjSpec(env.readLines(fileName).value, PathHead(fileName), env, old(cache.Value()));
      && cache.Value() == o.cache
      && (o.result.Err? ==> r == Err(o.result.error))
      && (o.result.Ok? && ScaleOf(scaleArg).Err? ==> r == Err(ScaleOf(scaleArg).error))
      && (o.result.Ok? && ScaleOf(scaleArg).Ok? ==>
            && r.Ok? && fresh(r.value)
            && r.value.Shows(o.result.value)
            && r.value.position == Origin && r.value.scale == ScaleOf(scaleArg).value
            && r.value.children == [] && !r.value.overrideDiffuseTextureWithDefault)
  {
    var m := new ObjModel();
    var basePath := PathHead(fileName);
    var lines := env.readLines(fileName);
    if lines.None? {
      r := Err(FileNotFound);
    } else {
      var e := m.LoadObj(lines.value, basePath, env, cache);
      var s := ScaleOf(scaleArg);
      if e.Some? {
        r := Err(e.value);
      } else if s.Err? {
        r := Err(s.error);
      } else {
        m.Place(Origin, s.value);
        r := Ok(m);
      }
    }
  }
}
