/** The second half of `loadObj` (ObjModel.py:106-144): the chunks' corners
    are resolved against the attribute lists with Python's list indexing
    and laid out one after another in flat vertex arrays, and each chunk
    becomes a draw record `(material, offset, count, flags)`. */
module Layout {
  import opened Wrappers
  import opened Vectors
  import opened Materials
  import opened Faces
  import opened MtlParser
  import opened ObjParser

  /** Python's `xs[i]`: a negative index counts from the end; anything else
      out of range raises IndexError. */
  function PyIndex<T>(xs: seq<T>, i: int): Result<T> {
    if 0 <= i < |xs| then Ok(xs[i])
    else if -|xs| <= i < 0 then Ok(xs[|xs| + i])
    else Err(IndexError)
  }

  /** An index is accepted exactly when it lies in `[-len, len)`, and then
      reads the element it names counting from the front or the back. */
  lemma PyIndexRange<T>(xs: seq<T>, i: int)
    ensures PyIndex(xs, i).Ok? <==> -|xs| <= i < |xs|
    ensures PyIndex(xs, i).Ok? ==> PyIndex(xs, i).value == xs[(i + |xs|) % |xs|]
  {
  }

  /** What one output slot receives. */
  datatype Vertex = Vertex(pos: Vec3, normal: Vec3, uv: Vec2)

  /** The preallocated values of `self.uvs`, `self.tangents` and `self.bitangents`. */
  const NoUv := Vec2(0.0, 0.0)
  const DefaultTangent := Vec3(0.0, 1.0, 0.0)
  const DefaultBitangent := Vec3(1.0, 0.0, 0.0)

  /** `[v] * n`. */
  function Repeat(v: Vec3, n: nat): (r: seq<Vec3>)
    ensures |r| == n && forall i :: 0 <= i < n ==> r[i] == v
  {
    seq(n, _ => v)
  }

  /** The slot of one corner, or the IndexError of its first bad lookup:
      the position, then the texture coordinate unless the index is the
      `Absent` marker, then the normal. */
  function Resolve(positions: seq<Vec3>, normals: seq<Vec3>, uvs: seq<Vec2>, c: Corner): (r: Result<Vertex>)
    ensures r.Ok? <==> -|positions| <= c.pos < |positions| && -|normals| <= c.normal < |normals|
                       && (c.uv == Absent || -|uvs| <= c.uv < |uvs|)
    ensures r.Err? ==> r.error == IndexError
    ensures r.Ok? ==> && Ok(r.value.pos) == PyIndex(positions, c.pos)
                      && Ok(r.value.normal) == PyIndex(normals, c.normal)
                      && r.value.uv == (if c.uv == Absent then NoUv else PyIndex(uvs, c.uv).value)
  {
    var p := PyIndex(positions, c.pos);
    if p.Err? then Err(p.error)
    else
      var t := if c.uv != Absent then PyIndex(uvs, c.uv) else Ok(NoUv);
      if t.Err? then Err(t.error)
      else
        var n := PyIndex(normals, c.normal);
        if n.Err? then Err(n.error) else Ok(Vertex(p.value, n.value, t.value))
  }

  /** An `Absent` normal index is not refused: it reads the last normal of
      the file. */
  lemma AbsentNormalReadsLast(positions: seq<Vec3>, normals: seq<Vec3>, uvs: seq<Vec2>, c: Corner)
    requires c.normal == Absent && |normals| > 0 && Resolve(positions, normals, uvs, c).Ok?
    ensures Resolve(positions, normals, uvs, c).value.normal == normals[|normals| - 1]
  {
  }

  /** A resolved corner takes its attributes from the lists (or the
      `(0, 0)` default texture coordinate). */
  lemma ResolvedFromLists(positions: seq<Vec3>, normals: seq<Vec3>, uvs: seq<Vec2>, c: Corner)
    requires Resolve(positions, normals, uvs, c).Ok?
    ensures var v := Resolve(positions, normals, uvs, c).value;
      v.pos in positions && v.normal in normals && (v.uv == NoUv || v.uv in uvs)
  {
  }

  /** The slots of a run of corners, or the error of the first bad one. */
  function ResolveAll(positions: seq<Vec3>, normals: seq<Vec3>, uvs: seq<Vec2>, tris: seq<Corner>): (r: Result<seq<Vertex>>)
    ensures r.Ok? ==> |r.value| == |tris|
    ensures r.Err? ==> r.error == IndexError
  {
    if tris == [] then Ok([])
    else
      var n := |tris|;
      var front := ResolveAll(positions, normals, uvs, tris[..n - 1]);
      if front.Err? then front
      else
        var v := Resolve(positions, normals, uvs, tris[n - 1]);
        if v.Err? then Err(v.error) else Ok(front.value + [v.value])
  }

  /** Resolving corners `[..m + 1]` is resolving corners `[..m]` and then
      corner m. */
  lemma ResolveAllStep(positions: seq<Vec3>, normals: seq<Vec3>, uvs: seq<Vec2>, tris: seq<Corner>, m: nat)
    requires m < |tris|
    ensures var front := ResolveAll(positions, normals, uvs, tris[..m]);
      var v := Resolve(positions, normals, uvs, tris[m]);
      ResolveAll(positions, normals, uvs, tris[..m + 1]) ==
        if front.Err? then front else if v.Err? then Err(v.error) else Ok(front.value + [v.value])
  {
    assert tris[..m + 1][..m] == tris[..m];
  }

  /** Once corners `[..m]` fail, every longer prefix fails the same way. */
  lemma {:induction false} ResolveAllErrorPersists(positions: seq<Vec3>, normals: seq<Vec3>, uvs: seq<Vec2>,
                                                   tris: seq<Corner>, m: nat, m': nat)
    requires m <= m' <= |tris| && ResolveAll(positions, normals, uvs, tris[..m]).Err?
    ensures ResolveAll(positions, normals, uvs, tris[..m']) == ResolveAll(positions, normals, uvs, tris[..m])
    decreases m' - m
  {
    if m < m' {
      ResolveAllStep(positions, normals, uvs, tris, m);
      ResolveAllErrorPersists(positions, normals, uvs, tris, m + 1, m');
    }
  }

  /** A run of corners resolves exactly when each corner does, and then
      slot i holds what corner i resolves to. */
  lemma {:induction false} ResolveAllMeaning(positions: seq<Vec3>, normals: seq<Vec3>, uvs: seq<Vec2>, tris: seq<Corner>)
    ensures var r := ResolveAll(positions, normals, uvs, tris);
      && (r.Ok? <==> forall i :: 0 <= i < |tris| ==> Resolve(positions, normals, uvs, tris[i]).Ok?)
      && (r.Ok? ==> forall i :: 0 <= i < |tris| ==> Resolve(positions, normals, uvs, tris[i]) == Ok(r.value[i]))
  {
    if tris != [] {
      var n := |tris|;
      ResolveAllMeaning(positions, normals, uvs, tris[..n - 1]);
      assert forall i :: 0 <= i < n - 1 ==> tris[..n - 1][i] == tris[i];
    }
  }

  /** `numVerts`: the corners of all chunks together. */
  function TotalCount(chunks: seq<ChunkSpec>): nat {
    if chunks == [] then 0 else TotalCount(chunks[..|chunks| - 1]) + |chunks[|chunks| - 1].tris|
  }

  /** A draw record with the material's value in place of the dict. */
  datatype ChunkLayout = ChunkLayout(name: string, offset: nat, count: nat, flags: RenderFlag)

  datatype Mesh = Mesh(vertices: seq<Vertex>, chunks: seq<ChunkLayout>)

  /** A chunk de-indexes when its material exists and all its corners
      resolve. */
  predicate ChunkResolves(positions: seq<Vec3>, normals: seq<Vec3>, uvs: seq<Vec2>,
                          mats: map<string, MaterialRecord>, c: ChunkSpec) {
    c.name in mats && ResolveAll(positions, normals, uvs, c.tris).Ok?
  }

  /** The de-indexed mesh, or the first exception in chunk order (within a
      chunk the material lookup comes before the corners). */
  function Deindex(positions: seq<Vec3>, normals: seq<Vec3>, uvs: seq<Vec2>,
                   mats: map<string, MaterialRecord>, chunks: seq<ChunkSpec>): Result<Mesh>
  {
    if chunks == [] then Ok(Mesh([], []))
    else
      var n := |chunks|;
      var front := Deindex(positions, normals, uvs, mats, chunks[..n - 1]);
      if front.Err? then front
      else
        var c := chunks[n - 1];
        if c.name !in mats then Err(KeyError)
        else
          var vs := ResolveAll(positions, normals, uvs, c.tris);
          if vs.Err? then Err(vs.error)
          else
            Ok(Mesh(front.value.vertices + vs.value,
                    front.value.chunks + [ChunkLayout(c.name, |front.value.vertices|, |c.tris|, Classify(mats[c.name]))]))
  }

  lemma TotalCountStep(chunks: seq<ChunkSpec>, k: nat)
    requires k < |chunks|
    ensures TotalCount(chunks[..k + 1]) == TotalCount(chunks[..k]) + |chunks[k].tris|
  {
    assert chunks[..k + 1][..k] == chunks[..k];
  }

  /** De-indexing chunks `[..k + 1]` is de-indexing chunks `[..k]` and then
      chunk k. */
  lemma DeindexStep(positions: seq<Vec3>, normals: seq<Vec3>, uvs: seq<Vec2>,
                    mats: map<string, MaterialRecord>, chunks: seq<ChunkSpec>, k: nat)
    requires k < |chunks|
    ensures var front := Deindex(positions, normals, uvs, mats, chunks[..k]);
      var c := chunks[k];
      Deindex(positions, normals, uvs, mats, chunks[..k + 1]) ==
        if front.Err? then front
        else if c.name !in mats then Err(KeyError)
        else
          var vs := ResolveAll(positions, normals, uvs, c.tris);
          if vs.Err? then Err(vs.error)
          else Ok(Mesh(front.value.vertices + vs.value,
                       front.value.chunks + [ChunkLayout(c.name, |front.value.vertices|, |c.tris|, Classify(mats[c.name]))]))
  {
    assert chunks[..k + 1][..k] == chunks[..k];
  }

  /** Once a prefix of the chunks fails, the whole de-indexing fails with
      the same exception. */
  lemma {:induction false} DeindexErrorPersists(positions: seq<Vec3>, normals: seq<Vec3>, uvs: seq<Vec2>,
                                                mats: map<string, MaterialRecord>, chunks: seq<ChunkSpec>, k: nat)
    requires k <= |chunks| && Deindex(positions, normals, uvs, mats, chunks[..k]).Err?
    ensures Deindex(positions, normals, uvs, mats, chunks) == Deindex(positions, normals, uvs, mats, chunks[..k])
    decreases |chunks|
  {
    if k < |chunks| {
      var n := |chunks|;
      assert chunks[..n - 1][..k] == chunks[..k];
      DeindexErrorPersists(positions, normals, uvs, mats, chunks[..n - 1], k);
    } else {
      assert chunks[..k] == chunks;
    }
  }

  /** A successful de-indexing found every material and resolved every
      corner, and lays out `numVerts` vertices in one record per chunk. */
  lemma {:induction false} DeindexShape(positions: seq<Vec3>, normals: seq<Vec3>, uvs: seq<Vec2>,
                                        mats: map<string, MaterialRecord>, chunks: seq<ChunkSpec>)
    requires Deindex(positions, normals, uvs, mats, chunks).Ok?
    ensures forall k :: 0 <= k < |chunks| ==> ChunkResolves(positions, normals, uvs, mats, chunks[k])
    ensures var m := Deindex(positions, normals, uvs, mats, chunks).value;
      |m.vertices| == TotalCount(chunks) && |m.chunks| == |chunks|
  {
    if chunks != [] {
      var n := |chunks|;
      var front := chunks[..n - 1];
      DeindexShape(positions, normals, uvs, mats, front);
      assert forall k :: 0 <= k < n - 1 ==> front[k] == chunks[k];
    }
  }

  /** A successful de-indexing ends with the last chunk's corners and
      record, after those of the chunks before it. */
  lemma DeindexLast(positions: seq<Vec3>, normals: seq<Vec3>, uvs: seq<Vec2>,
                    mats: map<string, MaterialRecord>, chunks: seq<ChunkSpec>)
    requires chunks != [] && Deindex(positions, normals, uvs, mats, chunks).Ok?
    ensures var n := |chunks|;
      var c := chunks[n - 1];
      var front := Deindex(positions, normals, uvs, mats, chunks[..n - 1]);
      var vs := ResolveAll(positions, normals, uvs, c.tris);
      && front.Ok? && c.name in mats && vs.Ok?
      && Deindex(positions, normals, uvs, mats, chunks).value
         == Mesh(front.value.vertices + vs.value,
                 front.value.chunks + [ChunkLayout(c.name, |front.value.vertices|, |c.tris|, Classify(mats[c.name]))])
  {
  }

  /** Chunk k's record names its material, starts at the corner count of
      the chunks before it, spans its own corners, and carries the flag
      its material classifies as. */
  lemma {:induction false} DeindexLayouts(positions: seq<Vec3>, normals: seq<Vec3>, uvs: seq<Vec2>,
                                          mats: map<string, MaterialRecord>, chunks: seq<ChunkSpec>)
    requires Deindex(positions, normals, uvs, mats, chunks).Ok?
    ensures var m := Deindex(positions, normals, uvs, mats, chunks).value;
      forall k :: 0 <= k < |chunks| ==>
        && chunks[k].name in mats && k < |m.chunks|
        && m.chunks[k] == ChunkLayout(chunks[k].name, TotalCount(chunks[..k]), |chunks[k].tris|,
                                      Classify(mats[chunks[k].name]))
  {
    if chunks != [] {
      var n := |chunks|;
      var front := chunks[..n - 1];
      DeindexLast(positions, normals, uvs, mats, chunks);
      DeindexLayouts(positions, normals, uvs, mats, front);
      DeindexShape(positions, normals, uvs, mats, front);
      var m := Deindex(positions, normals, uvs, mats, chunks).value;
      var fm := Deindex(positions, normals, uvs, mats, front).value;
      forall k | 0 <= k < n
        ensures && chunks[k].name in mats && k < |m.chunks|
                && m.chunks[k] == ChunkLayout(chunks[k].name, TotalCount(chunks[..k]), |chunks[k].tris|,
                                              Classify(mats[chunks[k].name]))
      {
        if k < n - 1 {
          assert front[k] == chunks[k] && front[..k] == chunks[..k];
          assert m.chunks[k] == fm.chunks[k];
        } else {
          assert chunks[..k] == front;
        }
      }
    }
  }

  /** Every de-indexed vertex is assembled from the attribute lists: no
      slot invents a position or a normal. */
  lemma {:induction false} DeindexVerticesFromLists(positions: seq<Vec3>, normals: seq<Vec3>, uvs: seq<Vec2>,
                                                    mats: map<string, MaterialRecord>, chunks: seq<ChunkSpec>)
    requires Deindex(positions, normals, uvs, mats, chunks).Ok?
    ensures forall v :: v in Deindex(positions, normals, uvs, mats, chunks).value.vertices ==>
      v.pos in positions && v.normal in normals && (v.uv == NoUv || v.uv in uvs)
  {
    if chunks != [] {
      var n := |chunks|;
      DeindexVerticesFromLists(positions, normals, uvs, mats, chunks[..n - 1]);
      var tris := chunks[n - 1].tris;
      ResolveAllMeaning(positions, normals, uvs, tris);
      var vs := ResolveAll(positions, normals, uvs, tris).value;
      forall i | 0 <= i < |vs|
        ensures vs[i].pos in positions && vs[i].normal in normals && (vs[i].uv == NoUv || vs[i].uv in uvs)
      {
        ResolvedFromLists(positions, normals, uvs, tris[i]);
      }
    }
  }

  /** Conversely, when every material is found and every corner resolves,
      de-indexing succeeds. */
  lemma {:induction false} DeindexSucceeds(positions: seq<Vec3>, normals: seq<Vec3>, uvs: seq<Vec2>,
                                           mats: map<string, MaterialRecord>, chunks: seq<ChunkSpec>)
    requires forall k :: 0 <= k < |chunks| ==> ChunkResolves(positions, normals, uvs, mats, chunks[k])
    ensures Deindex(positions, normals, uvs, mats, chunks).Ok?
  {
    if chunks != [] {
      var n := |chunks|;
      assert forall k :: 0 <= k < n - 1 ==> chunks[..n - 1][k] == chunks[k];
      DeindexSucceeds(positions, normals, uvs, mats, chunks[..n - 1]);
    }
  }

  /** The only exceptions of de-indexing: a chunk's material missing from
      the map, or a corner index out of range. */
  lemma {:induction false} DeindexErrors(positions: seq<Vec3>, normals: seq<Vec3>, uvs: seq<Vec2>,
                                         mats: map<string, MaterialRecord>, chunks: seq<ChunkSpec>)
    requires Deindex(positions, normals, uvs, mats, chunks).Err?
    ensures Deindex(positions, normals, uvs, mats, chunks).error in {KeyError, IndexError}
  {
    var n := |chunks|;
    if Deindex(positions, normals, uvs, mats, chunks[..n - 1]).Err? {
      DeindexErrors(positions, normals, uvs, mats, chunks[..n - 1]);
    }
  }

  /** The chunks tile `[0, numVerts)`: each starts where the previous ended,
      the first at 0, the last ending at the total; with well-formed chunks
      every count is a multiple of 3. */
  lemma ChunksTile(positions: seq<Vec3>, normals: seq<Vec3>, uvs: seq<Vec2>,
                   mats: map<string, MaterialRecord>, chunks: seq<ChunkSpec>)
    requires Deindex(positions, normals, uvs, mats, chunks).Ok?
    ensures var cs := Deindex(positions, normals, uvs, mats, chunks).value.chunks;
      && |cs| == |chunks|
      && (|cs| > 0 ==> cs[0].offset == 0)
      && (forall k :: 0 <= k < |cs| - 1 ==> cs[k + 1].offset == cs[k].offset + cs[k].count)
      && (|cs| > 0 ==> cs[|cs| - 1].offset + cs[|cs| - 1].count == TotalCount(chunks))
      && (ChunksWellFormed(chunks) ==> forall k :: 0 <= k < |cs| ==> cs[k].count % 3 == 0)
  {
    DeindexShape(positions, normals, uvs, mats, chunks);
    DeindexLayouts(positions, normals, uvs, mats, chunks);
    var cs := Deindex(positions, normals, uvs, mats, chunks).value.chunks;
    forall k | 0 <= k < |cs| - 1 ensures cs[k + 1].offset == cs[k].offset + cs[k].count {
      TotalCountStep(chunks, k);
    }
    if |cs| > 0 {
      TotalCountStep(chunks, |cs| - 1);
      assert chunks[..|cs|] == chunks;
    }
  }

  /** Slot `offset + i` of chunk k holds what corner i of the chunk resolves
      to: the indexed position and normal, and the indexed texture
      coordinate or `(0, 0)` for an `Absent` one. */
  lemma {:induction false} DeindexSlot(positions: seq<Vec3>, normals: seq<Vec3>, uvs: seq<Vec2>,
                                       mats: map<string, MaterialRecord>, chunks: seq<ChunkSpec>, k: nat, i: nat)
    requires Deindex(positions, normals, uvs, mats, chunks).Ok?
    requires k < |chunks| && i < |chunks[k].tris|
    ensures var m := Deindex(positions, normals, uvs, mats, chunks).value;
      && TotalCount(chunks[..k]) + i < |m.vertices|
      && Resolve(positions, normals, uvs, chunks[k].tris[i]) == Ok(m.vertices[TotalCount(chunks[..k]) + i])
    decreases |chunks|
  {
    var n := |chunks|;
    if k < n - 1 {
      DeindexSlot(positions, normals, uvs, mats, chunks[..n - 1], k, i);
      DeindexSlotFront(positions, normals, uvs, mats, chunks, k, i);
    } else {
      DeindexSlotLast(positions, normals, uvs, mats, chunks, i);
    }
  }

  /** A slot of an earlier chunk keeps its vertex when the last chunk's
      corners are appended. */
  lemma DeindexSlotFront(positions: seq<Vec3>, normals: seq<Vec3>, uvs: seq<Vec2>,
                         mats: map<string, MaterialRecord>, chunks: seq<ChunkSpec>, k: nat, i: nat)
    requires Deindex(positions, normals, uvs, mats, chunks).Ok?
    requires k < |chunks| - 1 && i < |chunks[k].tris|
    requires var front := chunks[..|chunks| - 1];
      var fm := Deindex(positions, normals, uvs, mats, front);
      && fm.Ok?
      && TotalCount(front[..k]) + i < |fm.value.vertices|
      && Resolve(positions, normals, uvs, front[k].tris[i]) == Ok(fm.value.vertices[TotalCount(front[..k]) + i])
    ensures var m := Deindex(positions, normals, uvs, mats, chunks).value;
      && TotalCount(chunks[..k]) + i < |m.vertices|
      && Resolve(positions, normals, uvs, chunks[k].tris[i]) == Ok(m.vertices[TotalCount(chunks[..k]) + i])
  {
    var front := chunks[..|chunks| - 1];
    DeindexLast(positions, normals, uvs, mats, chunks);
    var fm := Deindex(positions, normals, uvs, mats, front).value;
    var vs := ResolveAll(positions, normals, uvs, chunks[|chunks| - 1].tris).value;
    assert front[k] == chunks[k] && front[..k] == chunks[..k];
    SlotOfAppend(fm.vertices, vs, TotalCount(chunks[..k]) + i);
  }

  /** A slot of the last chunk holds what its corner resolves to. */
  lemma DeindexSlotLast(positions: seq<Vec3>, normals: seq<Vec3>, uvs: seq<Vec2>,
                        mats: map<string, MaterialRecord>, chunks: seq<ChunkSpec>, i: nat)
    requires Deindex(positions, normals, uvs, mats, chunks).Ok?
    requires chunks != [] && i < |chunks[|chunks| - 1].tris|
    ensures var m := Deindex(positions, normals, uvs, mats, chunks).value;
      var k := |chunks| - 1;
      && TotalCount(chunks[..k]) + i < |m.vertices|
      && Resolve(positions, normals, uvs, chunks[k].tris[i]) == Ok(m.vertices[TotalCount(chunks[..k]) + i])
  {
    var k := |chunks| - 1;
    var front := chunks[..k];
    DeindexShape(positions, normals, uvs, mats, front);
    DeindexLast(positions, normals, uvs, mats, chunks);
    var fm := Deindex(positions, normals, uvs, mats, front).value;
    var vs := ResolveAll(positions, normals, uvs, chunks[k].tris).value;
    ResolveAllMeaning(positions, normals, uvs, chunks[k].tris);
    SlotOfAppend(fm.vertices, vs, TotalCount(front) + i);
  }

  lemma SlotOfAppend(a: seq<Vertex>, b: seq<Vertex>, j: nat)
    requires j < |a| + |b|
    ensures (a + b)[j] == if j < |a| then a[j] else b[j - |a|]
  {
  }

  /** The output lists hold the vertices `done` over their initial contents. */
  predicate Written(outPos: array<Vec3>, outNorm: array<Vec3>, outUv: array<Vec2>,
                    p0: seq<Vec3>, n0: seq<Vec3>, u0: seq<Vec2>, done: seq<Vertex>)
    reads outPos, outNorm, outUv
  {
    && |done| <= |p0| && |done| <= |n0| && |done| <= |u0|
    && outPos[..] == Overlay(p0, 0, Positions(done))
    && outNorm[..] == Overlay(n0, 0, Normals(done))
    && outUv[..] == Overlay(u0, 0, Uvs(done))
  }

  /** Once every slot is written, the output lists are the vertices'. */
  lemma WrittenWhole(outPos: array<Vec3>, outNorm: array<Vec3>, outUv: array<Vec2>,
                     p0: seq<Vec3>, n0: seq<Vec3>, u0: seq<Vec2>, done: seq<Vertex>)
    requires Written(outPos, outNorm, outUv, p0, n0, u0, done)
    requires |done| == |p0| == |n0| == |u0|
    ensures outPos[..] == Positions(done) && outNorm[..] == Normals(done) && outUv[..] == Uvs(done)
  {
    OverlayWhole(p0, Positions(done));
    OverlayWhole(n0, Normals(done));
    OverlayWhole(u0, Uvs(done));
  }

  /** The state of the chunk loop after `i` chunks: they de-index to the
      vertices written so far and to the layouts the records describe. */
  predicate Progress(positions: seq<Vec3>, normals: seq<Vec3>, uvs: seq<Vec2>, vals: map<string, MaterialRecord>,
                     chunks: seq<ChunkSpec>, i: nat, materials: map<string, Material>,
                     outPos: array<Vec3>, outNorm: array<Vec3>, outUv: array<Vec2>,
                     p0: seq<Vec3>, n0: seq<Vec3>, u0: seq<Vec2>,
                     done: seq<Vertex>, layouts: seq<ChunkLayout>, draw: seq<Chunk>)
    reads outPos, outNorm, outUv
  {
    && i <= |chunks|
    && Deindex(positions, normals, uvs, vals, chunks[..i]) == Ok(Mesh(done, layouts))
    && Written(outPos, outNorm, outUv, p0, n0, u0, done)
    && DescribesAll(draw, materials, layouts)
  }

  /** One pass of the chunk loop once chunk i's material is found: write
      its corners after those already written and record it, or stop with
      the exception de-indexing all the chunks raises. */
  method WriteNext(positions: seq<Vec3>, normals: seq<Vec3>, uvs: seq<Vec2>, chunks: seq<ChunkSpec>, i: nat,
                   materials: map<string, Material>, ghost vals: map<string, MaterialRecord>, chunkOffset: nat,
                   outPos: array<Vec3>, outNorm: array<Vec3>, outUv: array<Vec2>,
                   ghost p0: seq<Vec3>, ghost n0: seq<Vec3>, ghost u0: seq<Vec2>,
                   ghost done: seq<Vertex>, ghost layouts: seq<ChunkLayout>, ghost draw: seq<Chunk>)
    returns (err: Option<LoadError>, record: Chunk, ghost vs: seq<Vertex>, ghost layout: ChunkLayout)
    requires Holds(materials, vals) && outPos != outNorm
    requires i < |chunks| && chunks[i].name in materials
    requires |chunks[i].tris| % 3 == 0 && chunkOffset == |done|
    requires |done| + |chunks[i].tris| <= |p0| && |p0| == |n0| == |u0| == outPos.Length == outNorm.Length == outUv.Length
    requires Progress(positions, normals, uvs, vals, chunks, i, materials, outPos, outNorm, outUv,
                      p0, n0, u0, done, layouts, draw)
    requires forall j :: 0 <= j < |u0| ==> u0[j] == NoUv
    modifies outPos, outNorm, outUv
    ensures err.Some? ==> Deindex(positions, normals, uvs, vals, chunks) == Err(err.value)
    ensures err.None? ==>
      && |vs| == |chunks[i].tris|
      && Progress(positions, normals, uvs, vals, chunks, i + 1, materials, outPos, outNorm, outUv,
                  p0, n0, u0, done + vs, layouts + [layout], draw + [record])
  {
    var c := chunks[i];
    layout := ChunkLayout(c.name, |done|, |c.tris|, Classify(vals[c.name]));
    err, record, vs := LayChunk(positions, normals, uvs, c, materials, vals, chunkOffset,
                                outPos, outNorm, outUv, p0, n0, u0, done);
    if err.Some? {
      DeindexFailsAt(positions, normals, uvs, vals, chunks, i);
      return;
    }
    ResolveAllMeaning(positions, normals, uvs, c.tris);
    DeindexExtend(positions, normals, uvs, vals, chunks, i, Mesh(done, layouts));
    DescribesAllAppend(draw, materials, layouts, record, layout);
  }

  /** Chunk i's corners follow those before it and fit in the total. */
  lemma CountStep(chunks: seq<ChunkSpec>, i: nat)
    requires i < |chunks|
    ensures TotalCount(chunks[..i + 1]) == TotalCount(chunks[..i]) + |chunks[i].tris| <= TotalCount(chunks)
  {
    TotalCountStep(chunks, i);
    TotalCountMonotone(chunks, i + 1, |chunks|);
    assert chunks[..|chunks|] == chunks;
  }

  lemma {:induction false} TotalCountMonotone(chunks: seq<ChunkSpec>, j: nat, k: nat)
    requires j <= k <= |chunks|
    ensures TotalCount(chunks[..j]) <= TotalCount(chunks[..k])
    decreases k - j
  {
    if j < k {
      TotalCountStep(chunks, j);
      TotalCountMonotone(chunks, j + 1, k);
    }
  }

  /** `self.chunks` entry: the material dict itself, shared with the map. */
  datatype Chunk = Chunk(material: Material, offset: nat, count: nat, flags: RenderFlag)

  /** `d` is the draw record of layout `l`, its material the dict of that name. */
  predicate Describes(d: Chunk, materials: map<string, Material>, l: ChunkLayout) {
    l.name in materials && d.material == materials[l.name]
    && d.offset == l.offset && d.count == l.count && d.flags == l.flags
  }

  /** The records the objects of `objs` hold now, by name. */
  function Records(objs: map<string, Material>): (vals: map<string, MaterialRecord>)
    reads objs.Values
    ensures Holds(objs, vals)
  {
    map k | k in objs :: objs[k].Value()
  }

  /** `for mc in materialChunks: self.numVerts += len(mc[1])`. */
  method CountVerts(chunks: seq<ChunkSpec>) returns (numVerts: nat)
    ensures numVerts == TotalCount(chunks)
  {
    numVerts := 0;
    for i := 0 to |chunks|
      invariant numVerts == TotalCount(chunks[..i])
    {
      TotalCountStep(chunks, i);
      numVerts := numVerts + |chunks[i].tris|;
    }
    assert chunks[..|chunks|] == chunks;
  }

  /** `base` with the slots from `off` on replaced by `xs`. */
  function Overlay<T>(base: seq<T>, off: nat, xs: seq<T>): (r: seq<T>)
    requires off + |xs| <= |base|
    ensures |r| == |base|
  {
    base[..off] + xs + base[off + |xs|..]
  }

  lemma OverlayExtend<T>(base: seq<T>, off: nat, xs: seq<T>, x: T)
    requires off + |xs| < |base|
    ensures Overlay(base, off, xs + [x]) == Overlay(base, off, xs)[off + |xs| := x]
  {
  }

  lemma OverlayCompose<T>(base: seq<T>, xs: seq<T>, ys: seq<T>)
    requires |xs| + |ys| <= |base|
    ensures Overlay(Overlay(base, 0, xs), |xs|, ys) == Overlay(base, 0, xs + ys)
  {
  }

  /** Slots past the overlaid run keep the base's values. */
  lemma OverlayBeyond<T>(base: seq<T>, off: nat, xs: seq<T>)
    requires off + |xs| <= |base|
    ensures forall j :: off + |xs| <= j < |base| ==> Overlay(base, off, xs)[j] == base[j]
  {
  }

  /** An overlay covering the whole base is the run itself. */
  lemma OverlayWhole<T>(base: seq<T>, xs: seq<T>)
    requires |xs| == |base|
    ensures Overlay(base, 0, xs) == xs
  {
    assert base[|xs|..] == [];
  }

  function Positions(vs: seq<Vertex>): (r: seq<Vec3>)
    ensures |r| == |vs| && forall i :: 0 <= i < |vs| ==> r[i] == vs[i].pos
  {
    seq(|vs|, i requires 0 <= i < |vs| => vs[i].pos)
  }

  function Normals(vs: seq<Vertex>): (r: seq<Vec3>)
    ensures |r| == |vs| && forall i :: 0 <= i < |vs| ==> r[i] == vs[i].normal
  {
    seq(|vs|, i requires 0 <= i < |vs| => vs[i].normal)
  }

  function Uvs(vs: seq<Vertex>): (r: seq<Vec2>)
    ensures |r| == |vs| && forall i :: 0 <= i < |vs| ==> r[i] == vs[i].uv
  {
    seq(|vs|, i requires 0 <= i < |vs| => vs[i].uv)
  }

  lemma ProjectAppend(a: seq<Vertex>, b: seq<Vertex>)
    ensures Positions(a + b) == Positions(a) + Positions(b)
    ensures Normals(a + b) == Normals(a) + Normals(b)
    ensures Uvs(a + b) == Uvs(a) + Uvs(b)
  {
    assert Positions(a + b) == Positions(a) + Positions(b);
    assert Normals(a + b) == Normals(a) + Normals(b);
    assert Uvs(a + b) == Uvs(a) + Uvs(b);
  }

  /** Writing one more vertex extends the three overlays by one slot each. */
  lemma OverlayStep(p0: seq<Vec3>, n0: seq<Vec3>, u0: seq<Vec2>, off: nat, done: seq<Vertex>, v: Vertex)
    requires off + |done| < |p0| && off + |done| < |n0| && off + |done| < |u0|
    ensures Overlay(p0, off, Positions(done + [v])) == Overlay(p0, off, Positions(done))[off + |done| := v.pos]
    ensures Overlay(n0, off, Normals(done + [v])) == Overlay(n0, off, Normals(done))[off + |done| := v.normal]
    ensures Overlay(u0, off, Uvs(done + [v])) == Overlay(u0, off, Uvs(done))[off + |done| := v.uv]
  {
    ProjectAppend(done, [v]);
    OverlayExtend(p0, off, Positions(done), v.pos);
    OverlayExtend(n0, off, Normals(done), v.normal);
    OverlayExtend(u0, off, Uvs(done), v.uv);
  }

  /** The body of the inner loop for slot `oo`: the corner's position and
      normal are stored, and its texture coordinate unless it is `Absent`;
      the first failing lookup raises. */
  method WriteCorner(positions: seq<Vec3>, normals: seq<Vec3>, uvs: seq<Vec2>, c: Corner,
                     oo: nat, outPos: array<Vec3>, outNorm: array<Vec3>, outUv: array<Vec2>)
    returns (err: Option<LoadError>)
    requires outPos != outNorm && oo < outPos.Length && oo < outNorm.Length && oo < outUv.Length
    requires outUv[oo] == NoUv
    modifies outPos, outNorm, outUv
    ensures var r := Resolve(positions, normals, uvs, c);
      && (err.None? <==> r.Ok?) && (err.Some? ==> err.value == r.error)
      && (r.Ok? ==>
            && outPos[..] == old(outPos[..])[oo := r.value.pos]
            && outNorm[..] == old(outNorm[..])[oo := r.value.normal]
            && outUv[..] == old(outUv[..])[oo := r.value.uv])
  {
    var p := PyIndex(positions, c.pos);
    if p.Err? {
      return Some(p.error);
    }
    outPos[oo] := p.value;
    if c.uv != Absent {
      var t := PyIndex(uvs, c.uv);
      if t.Err? {
        return Some(t.error);
      }
      outUv[oo] := t.value;
    }
    var n := PyIndex(normals, c.normal);
    if n.Err? {
      return Some(n.error);
    }
    outNorm[oo] := n.value;
    return None;
  }

  /** The inner loop of one chunk: the three corners of the triangle at
      `k` go to slots `chunkOffset + k + j`. */
  method WriteTriangle(positions: seq<Vec3>, normals: seq<Vec3>, uvs: seq<Vec2>, tris: seq<Corner>, k: nat,
                       chunkOffset: nat, outPos: array<Vec3>, outNorm: array<Vec3>, outUv: array<Vec2>,
                       ghost p0: seq<Vec3>, ghost n0: seq<Vec3>, ghost u0: seq<Vec2>, ghost done: seq<Vertex>)
    returns (err: Option<LoadError>, ghost done': seq<Vertex>)
    requires outPos != outNorm && k + 3 <= |tris| && |done| == k
    requires chunkOffset + |tris| <= |p0| == |n0| == |u0| == outPos.Length == outNorm.Length == outUv.Length
    requires forall j :: chunkOffset <= j < chunkOffset + |tris| ==> u0[j] == NoUv
    requires ResolveAll(positions, normals, uvs, tris[..k]) == Ok(done)
    requires outPos[..] == Overlay(p0, chunkOffset, Positions(done))
    requires outNorm[..] == Overlay(n0, chunkOffset, Normals(done))
    requires outUv[..] == Overlay(u0, chunkOffset, Uvs(done))
    modifies outPos, outNorm, outUv
    ensures err.Some? ==> ResolveAll(positions, normals, uvs, tris[..k + 3]) == Err(err.value)
    ensures err.None? ==>
      && |done'| == k + 3
      && ResolveAll(positions, normals, uvs, tris[..k + 3]) == Ok(done')
      && outPos[..] == Overlay(p0, chunkOffset, Positions(done'))
      && outNorm[..] == Overlay(n0, chunkOffset, Normals(done'))
      && outUv[..] == Overlay(u0, chunkOffset, Uvs(done'))
  {
    done' := done;
    var j := 0;
    while j < 3
      invariant 0 <= j <= 3 && |done'| == k + j
      invariant ResolveAll(positions, normals, uvs, tris[..k + j]) == Ok(done')
      invariant outPos[..] == Overlay(p0, chunkOffset, Positions(done'))
      invariant outNorm[..] == Overlay(n0, chunkOffset, Normals(done'))
      invariant outUv[..] == Overlay(u0, chunkOffset, Uvs(done'))
    {
      var e;
      e, done' := WriteSlot(positions, normals, uvs, tris, k + j, chunkOffset, outPos, outNorm, outUv, p0, n0, u0, done');
      if e.Some? {
        ResolveAllErrorPersists(positions, normals, uvs, tris, k + j + 1, k + 3);
        return e, done';
      }
      j := j + 1;
    }
    return None, done';
  }

  /** `oo = chunkOffset + k + j` and the writes of one corner, as a step of
      resolving the chunk's corners in order. */
  method WriteSlot(positions: seq<Vec3>, normals: seq<Vec3>, uvs: seq<Vec2>, tris: seq<Corner>, i: nat,
                   chunkOffset: nat, outPos: array<Vec3>, outNorm: array<Vec3>, outUv: array<Vec2>,
                   ghost p0: seq<Vec3>, ghost n0: seq<Vec3>, ghost u0: seq<Vec2>, ghost done: seq<Vertex>)
    returns (err: Option<LoadError>, ghost done': seq<Vertex>)
    requires outPos != outNorm && i < |tris| && |done| == i
    requires chunkOffset + |tris| <= |p0| == |n0| == |u0| == outPos.Length == outNorm.Length == outUv.Length
    requires u0[chunkOffset + i] == NoUv
    requires ResolveAll(positions, normals, uvs, tris[..i]) == Ok(done)
    requires outPos[..] == Overlay(p0, chunkOffset, Positions(done))
    requires outNorm[..] == Overlay(n0, chunkOffset, Normals(done))
    requires outUv[..] == Overlay(u0, chunkOffset, Uvs(done))
    modifies outPos, outNorm, outUv
    ensures err.Some? ==> ResolveAll(positions, normals, uvs, tris[..i + 1]) == Err(err.value)
    ensures err.None? ==>
      && |done'| == i + 1
      && ResolveAll(positions, normals, uvs, tris[..i + 1]) == Ok(done')
      && outPos[..] == Overlay(p0, chunkOffset, Positions(done'))
      && outNorm[..] == Overlay(n0, chunkOffset, Normals(done'))
      && outUv[..] == Overlay(u0, chunkOffset, Uvs(done'))
  {
    var c := tris[i];
    ResolveAllStep(positions, normals, uvs, tris, i);
    OverlayBeyond(u0, chunkOffset, Uvs(done));
    err := WriteCorner(positions, normals, uvs, c, chunkOffset + i, outPos, outNorm, outUv);
    done' := done;
    if err.None? {
      ghost var v := Resolve(positions, normals, uvs, c).value;
      OverlayStep(p0, n0, u0, chunkOffset, done, v);
      done' := done + [v];
    }
  }

  /** The nested loops of one chunk: for each triangle k and corner j, slot
      `chunkOffset + k + j` receives what the corner resolves to. */
  method WriteChunk(positions: seq<Vec3>, normals: seq<Vec3>, uvs: seq<Vec2>, tris: seq<Corner>,
                    chunkOffset: nat, outPos: array<Vec3>, outNorm: array<Vec3>, outUv: array<Vec2>)
    returns (err: Option<LoadError>)
    requires outPos != outNorm && |tris| % 3 == 0
    requires chunkOffset + |tris| <= outPos.Length == outNorm.Length == outUv.Length
    requires forall j :: chunkOffset <= j < chunkOffset + |tris| ==> outUv[j] == NoUv
    modifies outPos, outNorm, outUv
    ensures var r := ResolveAll(positions, normals, uvs, tris);
      && (err.None? <==> r.Ok?) && (err.Some? ==> err.value == r.error)
      && (r.Ok? ==>
            && outPos[..] == Overlay(old(outPos[..]), chunkOffset, Positions(r.value))
            && outNorm[..] == Overlay(old(outNorm[..]), chunkOffset, Normals(r.value))
            && outUv[..] == Overlay(old(outUv[..]), chunkOffset, Uvs(r.value)))
  {
    ghost var p0, n0, u0 := outPos[..], outNorm[..], outUv[..];
    ghost var done: seq<Vertex> := [];
    var k := 0;
    while k < |tris|
      invariant 0 <= k <= |tris| && k % 3 == 0 && |done| == k
      invariant ResolveAll(positions, normals, uvs, tris[..k]) == Ok(done)
      invariant outPos[..] == Overlay(p0, chunkOffset, Positions(done))
      invariant outNorm[..] == Overlay(n0, chunkOffset, Normals(done))
      invariant outUv[..] == Overlay(u0, chunkOffset, Uvs(done))
    {
      var e;
      e, done := WriteTriangle(positions, normals, uvs, tris, k, chunkOffset, outPos, outNorm, outUv, p0, n0, u0, done);
      if e.Some? {
        ResolveAllErrorPersists(positions, normals, uvs, tris, k + 3, |tris|);
        assert tris[..|tris|] == tris;
        return e;
      }
      k := k + 3;
    }
    assert tris[..k] == tris;
    return None;
  }

  /** Laying chunk after chunk into the three arrays is overlaying the
      concatenated vertices from slot 0. */
  lemma ChunkOverlayStep(p0: seq<Vec3>, n0: seq<Vec3>, u0: seq<Vec2>, done: seq<Vertex>, vs: seq<Vertex>)
    requires |done| + |vs| <= |p0| && |done| + |vs| <= |n0| && |done| + |vs| <= |u0|
    ensures Overlay(Overlay(p0, 0, Positions(done)), |done|, Positions(vs)) == Overlay(p0, 0, Positions(done + vs))
    ensures Overlay(Overlay(n0, 0, Normals(done)), |done|, Normals(vs)) == Overlay(n0, 0, Normals(done + vs))
    ensures Overlay(Overlay(u0, 0, Uvs(done)), |done|, Uvs(vs)) == Overlay(u0, 0, Uvs(done + vs))
  {
    ProjectAppend(done, vs);
    OverlayCompose(p0, Positions(done), Positions(vs));
    OverlayCompose(n0, Normals(done), Normals(vs));
    OverlayCompose(u0, Uvs(done), Uvs(vs));
  }

  /** The preallocated vertex lists of `loadObj` (positions and normals
      with a placeholder, texture coordinates with `(0, 0)`), filled by the
      chunk loop; on success they are the de-indexed mesh. */
  method DeindexChunks(positions: seq<Vec3>, normals: seq<Vec3>, uvs: seq<Vec2>, chunks: seq<ChunkSpec>,
                       numVerts: nat, materials: map<string, Material>, ghost vals: map<string, MaterialRecord>)
    returns (err: Option<LoadError>, draw: seq<Chunk>, outPositions: seq<Vec3>, outNormals: seq<Vec3>, outUvs: seq<Vec2>)
    requires Holds(materials, vals) && numVerts == TotalCount(chunks)
    requires forall k :: 0 <= k < |chunks| ==> |chunks[k].tris| % 3 == 0
    ensures var r := Deindex(positions, normals, uvs, vals, chunks);
      && (err.None? <==> r.Ok?) && (err.Some? ==> err.value == r.error)
      && (r.Ok? ==>
            && outPositions == Positions(r.value.vertices)
            && outNormals == Normals(r.value.vertices)
            && outUvs == Uvs(r.value.vertices)
            && |draw| == |r.value.chunks|
            && forall k :: 0 <= k < |draw| ==> Describes(draw[k], materials, r.value.chunks[k]))
  {
    var outPos := new Vec3[numVerts](_ => Origin);
    var outNorm := new Vec3[numVerts](_ => Origin);
    var outUv := new Vec2[numVerts](_ => NoUv);
    err, draw := WriteChunks(positions, normals, uvs, chunks, materials, vals, outPos, outNorm, outUv);
    outPositions, outNormals, outUvs := outPos[..], outNorm[..], outUv[..];
  }

  /** A chunk that resolves extends the de-indexed prefix by its vertices
      and its layout. */
  lemma DeindexExtend(positions: seq<Vec3>, normals: seq<Vec3>, uvs: seq<Vec2>,
                      mats: map<string, MaterialRecord>, chunks: seq<ChunkSpec>, i: nat, m: Mesh)
    requires i < |chunks| && Deindex(positions, normals, uvs, mats, chunks[..i]) == Ok(m)
    requires ChunkResolves(positions, normals, uvs, mats, chunks[i])
    ensures var c := chunks[i];
      Deindex(positions, normals, uvs, mats, chunks[..i + 1])
        == Ok(Mesh(m.vertices + ResolveAll(positions, normals, uvs, c.tris).value,
                   m.chunks + [ChunkLayout(c.name, |m.vertices|, |c.tris|, Classify(mats[c.name]))]))
  {
    DeindexStep(positions, normals, uvs, mats, chunks, i);
  }

  /** A chunk that does not resolve fails the whole de-indexing, with
      KeyError when its material is missing. */
  lemma DeindexFailsAt(positions: seq<Vec3>, normals: seq<Vec3>, uvs: seq<Vec2>,
                       mats: map<string, MaterialRecord>, chunks: seq<ChunkSpec>, i: nat)
    requires i < |chunks| && Deindex(positions, normals, uvs, mats, chunks[..i]).Ok?
    requires !ChunkResolves(positions, normals, uvs, mats, chunks[i])
    ensures Deindex(positions, normals, uvs, mats, chunks)
      == Err(if chunks[i].name !in mats then KeyError else ResolveAll(positions, normals, uvs, chunks[i].tris).error)
  {
    DeindexStep(positions, normals, uvs, mats, chunks, i);
    DeindexErrorPersists(positions, normals, uvs, mats, chunks, i + 1);
  }

  /** Every record describes the layout at the same place. */
  predicate DescribesAll(draw: seq<Chunk>, materials: map<string, Material>, layouts: seq<ChunkLayout>) {
    |draw| == |layouts| && forall k :: 0 <= k < |draw| ==> Describes(draw[k], materials, layouts[k])
  }

  lemma DescribesAllAppend(draw: seq<Chunk>, materials: map<string, Material>, layouts: seq<ChunkLayout>,
                           d: Chunk, l: ChunkLayout)
    requires DescribesAll(draw, materials, layouts) && Describes(d, materials, l)
    ensures DescribesAll(draw + [d], materials, layouts + [l])
  {
  }

  /** The rest of one pass of the chunk loop once chunk `c`'s material is
      found: classify it, de-index the corners from slot `chunkOffset` on
      (just after the vertices `done` already written), and build the draw
      record. */
  method LayChunk(positions: seq<Vec3>, normals: seq<Vec3>, uvs: seq<Vec2>, c: ChunkSpec,
                  materials: map<string, Material>, ghost vals: map<string, MaterialRecord>, chunkOffset: nat,
                  outPos: array<Vec3>, outNorm: array<Vec3>, outUv: array<Vec2>,
                  ghost p0: seq<Vec3>, ghost n0: seq<Vec3>, ghost u0: seq<Vec2>, ghost done: seq<Vertex>)
    returns (err: Option<LoadError>, record: Chunk, ghost vs: seq<Vertex>)
    requires Holds(materials, vals) && c.name in materials
    requires outPos != outNorm && |c.tris| % 3 == 0 && chunkOffset == |done|
    requires |done| + |c.tris| <= |p0| && |p0| == |n0| == |u0| == outPos.Length == outNorm.Length == outUv.Length
    requires outPos[..] == Overlay(p0, 0, Positions(done))
    requires outNorm[..] == Overlay(n0, 0, Normals(done))
    requires outUv[..] == Overlay(u0, 0, Uvs(done))
    requires forall j :: 0 <= j < |u0| ==> u0[j] == NoUv
    modifies outPos, outNorm, outUv
    ensures var r := ResolveAll(positions, normals, uvs, c.tris);
      && (err.None? <==> r.Ok?) && (err.Some? ==> err.value == r.error)
    ensures err.None? ==>
      && vs == ResolveAll(positions, normals, uvs, c.tris).value
      && outPos[..] == Overlay(p0, 0, Positions(done + vs))
      && outNorm[..] == Overlay(n0, 0, Normals(done + vs))
      && outUv[..] == Overlay(u0, 0, Uvs(done + vs))
      && Describes(record, materials, ChunkLayout(c.name, |done|, |c.tris|, Classify(vals[c.name])))
  {
    vs := [];
    var material := materials[c.name];
    var flags := Classify(material.Value());
    OverlayBeyond(u0, 0, Uvs(done));
    err := WriteChunk(positions, normals, uvs, c.tris, chunkOffset, outPos, outNorm, outUv);
    record := Chunk(material, chunkOffset, |c.tris|, flags);
    if err.None? {
      vs := ResolveAll(positions, normals, uvs, c.tris).value;
      ChunkOverlayStep(p0, n0, u0, done, vs);
    }
  }

  /** The chunk loop of `loadObj`: chunk after chunk, look the material up,
      classify it, place the chunk at `start * 3` and de-index its corners,
      then record the draw. On success the arrays hold the de-indexed mesh
      and the records describe its chunks, sharing the material objects. */
  method WriteChunks(positions: seq<Vec3>, normals: seq<Vec3>, uvs: seq<Vec2>, chunks: seq<ChunkSpec>,
                     materials: map<string, Material>, ghost vals: map<string, MaterialRecord>,
                     outPos: array<Vec3>, outNorm: array<Vec3>, outUv: array<Vec2>)
    returns (err: Option<LoadError>, draw: seq<Chunk>)
    requires Holds(materials, vals) && outPos != outNorm
    requires forall k :: 0 <= k < |chunks| ==> |chunks[k].tris| % 3 == 0
    requires outPos.Length == outNorm.Length == outUv.Length == TotalCount(chunks)
    requires forall j :: 0 <= j < outUv.Length ==> outUv[j] == NoUv
    modifies outPos, outNorm, outUv
    ensures var r := Deindex(positions, normals, uvs, vals, chunks);
      && (err.None? <==> r.Ok?) && (err.Some? ==> err.value == r.error)
      && (r.Ok? ==>
            && outPos[..] == Positions(r.value.vertices)
            && outNorm[..] == Normals(r.value.vertices)
            && outUv[..] == Uvs(r.value.vertices)
            && DescribesAll(draw, materials, r.value.chunks))
  {
    ghost var p0, n0, u0 := outPos[..], outNorm[..], outUv[..];
    ghost var done, layouts;
    err, draw, done, layouts := ChunkLoop(positions, normals, uvs, chunks, materials, vals,
                                          outPos, outNorm, outUv, p0, n0, u0);
    if err.None? {
      assert chunks[..|chunks|] == chunks;
      WrittenWhole(outPos, outNorm, outUv, p0, n0, u0, done);
    }
  }

  /** The loop `for matId, tris in materialChunks` of `loadObj`, with
      `start` and `end` counting the triangles written so far. */
  method ChunkLoop(positions: seq<Vec3>, normals: seq<Vec3>, uvs: seq<Vec2>, chunks: seq<ChunkSpec>,
                   materials: map<string, Material>, ghost vals: map<string, MaterialRecord>,
                   outPos: array<Vec3>, outNorm: array<Vec3>, outUv: array<Vec2>,
                   ghost p0: seq<Vec3>, ghost n0: seq<Vec3>, ghost u0: seq<Vec2>)
    returns (err: Option<LoadError>, draw: seq<Chunk>, ghost done: seq<Vertex>, ghost layouts: seq<ChunkLayout>)
    requires Holds(materials, vals) && outPos != outNorm
    requires forall k :: 0 <= k < |chunks| ==> |chunks[k].tris| % 3 == 0
    requires outPos[..] == p0 && outNorm[..] == n0 && outUv[..] == u0
    requires |p0| == |n0| == |u0| == TotalCount(chunks)
    requires forall j :: 0 <= j < |u0| ==> u0[j] == NoUv
    modifies outPos, outNorm, outUv
    ensures err.Some? ==> Deindex(positions, normals, uvs, vals, chunks) == Err(err.value)
    ensures err.None? ==> |done| == |p0| && Progress(positions, normals, uvs, vals, chunks, |chunks|, materials,
                                                    outPos, outNorm, outUv, p0, n0, u0, done, layouts, draw)
  {
    done, layouts := [], [];
    var start, end := 0, 0;
    draw := [];
    var i := 0;
    ProgressStart(positions, normals, uvs, vals, chunks, materials, outPos, outNorm, outUv);
    while i < |chunks|
      invariant 0 <= i <= |chunks| && |done| == end * 3 == TotalCount(chunks[..i]) <= |p0|
      invariant Progress(positions, normals, uvs, vals, chunks, i, materials, outPos, outNorm, outUv,
                         p0, n0, u0, done, layouts, draw)
    {
      err, start, end, draw, done, layouts := ChunkStep(positions, normals, uvs, chunks, i, materials, vals, end,
                                                        outPos, outNorm, outUv, p0, n0, u0, done, layouts, draw);
      if err.Some? {
        return;
      }
      i := i + 1;
    }
    assert chunks[..i] == chunks;
    err := None;
  }

  /** Before the loop nothing is written and no chunk is recorded. */
  lemma ProgressStart(positions: seq<Vec3>, normals: seq<Vec3>, uvs: seq<Vec2>, vals: map<string, MaterialRecord>,
                      chunks: seq<ChunkSpec>, materials: map<string, Material>,
                      outPos: array<Vec3>, outNorm: array<Vec3>, outUv: array<Vec2>)
    ensures Progress(positions, normals, uvs, vals, chunks, 0, materials, outPos, outNorm, outUv,
                     outPos[..], outNorm[..], outUv[..], [], [], [])
  {
    assert chunks[..0] == [];
    assert outPos[..][..0] + [] + outPos[..][0..] == outPos[..];
    assert outNorm[..][..0] + [] + outNorm[..][0..] == outNorm[..];
    assert outUv[..][..0] + [] + outUv[..][0..] == outUv[..];
  }

  /** One pass of the chunk loop: `start = end`, `end = start + len(tris) / 3`,
      the material lookup, and the chunk's corners and record. */
  method ChunkStep(positions: seq<Vec3>, normals: seq<Vec3>, uvs: seq<Vec2>, chunks: seq<ChunkSpec>, i: nat,
                   materials: map<string, Material>, ghost vals: map<string, MaterialRecord>, end: nat,
                   outPos: array<Vec3>, outNorm: array<Vec3>, outUv: array<Vec2>,
                   ghost p0: seq<Vec3>, ghost n0: seq<Vec3>, ghost u0: seq<Vec2>,
                   ghost done: seq<Vertex>, ghost layouts: seq<ChunkLayout>, draw: seq<Chunk>)
    returns (err: Option<LoadError>, start': nat, end': nat, draw': seq<Chunk>,
             ghost done': seq<Vertex>, ghost layouts': seq<ChunkLayout>)
    requires Holds(materials, vals) && outPos != outNorm
    requires i < |chunks| && forall k :: 0 <= k < |chunks| ==> |chunks[k].tris| % 3 == 0
    requires |p0| == |n0| == |u0| == TotalCount(chunks)
    requires forall j :: 0 <= j < |u0| ==> u0[j] == NoUv
    requires |done| == end * 3 == TotalCount(chunks[..i])
    requires Progress(positions, normals, uvs, vals, chunks, i, materials, outPos, outNorm, outUv,
                      p0, n0, u0, done, layouts, draw)
    modifies outPos, outNorm, outUv
    ensures err.Some? ==> Deindex(positions, normals, uvs, vals, chunks) == Err(err.value)
    ensures err.None? ==>
      && |done'| == end' * 3 == TotalCount(chunks[..i + 1]) <= |p0|
      && Progress(positions, normals, uvs, vals, chunks, i + 1, materials, outPos, outNorm, outUv,
                  p0, n0, u0, done', layouts', draw')
  {
    CountStep(chunks, i);
    start' := end;
    end' := start' + |chunks[i].tris| / 3;
    draw', done', layouts' := draw, done, layouts;
    if chunks[i].name !in materials {
      DeindexFailsAt(positions, normals, uvs, vals, chunks, i);
      return Some(KeyError), start', end', draw', done', layouts';
    }
    var record;
    ghost var vs, layout;
    err, record, vs, layout := WriteNext(positions, normals, uvs, chunks, i, materials, vals, start' * 3,
                                         outPos, outNorm, outUv, p0, n0, u0, done, layouts, draw);
    if err.None? {
      draw', done', layouts' := draw + [record], done + vs, layouts + [layout];
    }
  }
}
