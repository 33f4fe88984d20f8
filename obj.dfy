/** The line loop of `loadObj` (ObjModel.py:74-105): vertex attributes are
    collected in file order, `usemtl` opens material chunks, `f` lines add
    fan-triangulated corners to the last chunk and `mtllib` loads the
    material library. The functions give the meaning of the loop line by
    line; `ParseObjLines` is the loop itself, proved to agree. */
module ObjParser {
  import opened Wrappers
  import opened PyText
  import opened Vectors
  import opened Materials
  import opened Faces
  import opened MtlParser

  /** One entry of `materialChunks`: a material name and the corners of its
      triangles, three per triangle. */
  datatype ChunkSpec = ChunkSpec(name: string, tris: seq<Corner>)

  /** The locals of the loop: the attribute lists, the chunks, the material
      map of the last `mtllib`, the texture cache, and the exception that
      stopped reading, if any. */
  datatype ObjState = ObjState(
    positions: seq<Vec3>, normals: seq<Vec3>, uvs: seq<Vec2>,
    chunks: seq<ChunkSpec>, mats: map<string, MaterialRecord>,
    cache: CacheValue, err: Option<LoadError>)

  function Halt(st: ObjState, e: LoadError): ObjState { st.(err := Some(e)) }

  function InitialObjState(cache: CacheValue): ObjState {
    ObjState([], [], [], [], map[], cache, None)
  }

  /** `mtllib NAME...`: the library at the joined name, relative to the
      model's directory, replaces the whole material map. */
  function MtllibStep(st: ObjState, args: seq<string>, basePath: string, env: Env): ObjState {
    if |args| < 1 then Halt(st, AssertionError)
    else
      var out := LoadMaterialsSpec(PathJoin(basePath, Join(args, " ")), basePath, env, st.cache);
      var st' := st.(cache := out.cache);
      if out.result.Err? then Halt(st', out.result.error) else st'.(mats := out.result.value)
  }

  /** `usemtl NAME...`: a new, empty chunk unless the last one already has
      that name. */
  function UsemtlStep(st: ObjState, args: seq<string>): ObjState {
    if |args| < 1 then Halt(st, AssertionError)
    else
      var name := Join(args, " ");
      if st.chunks == [] || st.chunks[|st.chunks| - 1].name != name
      then st.(chunks := st.chunks + [ChunkSpec(name, [])])
      else st
  }

  /** `[float(v) for v in tokens[1:4]]` after `assert len(tokens[1:]) >= 3`. */
  function Point(args: seq<string>, env: Env): (r: Result<Vec3>)
    ensures |args| < 3 ==> r == Err(AssertionError)
    ensures |args| >= 3 ==>
      (r.Ok? <==> forall i :: 0 <= i < 3 ==> env.parseFloat(args[i]).Some?)
    ensures |args| >= 3 && r.Err? ==> r.error == ValueError
    ensures r.Ok? ==>
      && env.parseFloat(args[0]) == Some(r.value.x)
      && env.parseFloat(args[1]) == Some(r.value.y)
      && env.parseFloat(args[2]) == Some(r.value.z)
  {
    var v := ParseFloats(args, 3, env);
    if v.Err? then Err(v.error)
    else
      assert args[..3][0] == args[0] && args[..3][1] == args[1] && args[..3][2] == args[2];
      Ok(Vec3(v.value[0], v.value[1], v.value[2]))
  }

  /** `[float(v) for v in tokens[1:3]]` after `assert len(tokens[1:]) >= 2`. */
  function TexCoord(args: seq<string>, env: Env): (r: Result<Vec2>)
    ensures |args| < 2 ==> r == Err(AssertionError)
    ensures |args| >= 2 ==>
      (r.Ok? <==> forall i :: 0 <= i < 2 ==> env.parseFloat(args[i]).Some?)
    ensures |args| >= 2 && r.Err? ==> r.error == ValueError
    ensures r.Ok? ==> env.parseFloat(args[0]) == Some(r.value.u) && env.parseFloat(args[1]) == Some(r.value.v)
  {
    var v := ParseFloats(args, 2, env);
    if v.Err? then Err(v.error)
    else
      assert args[..2][0] == args[0] && args[..2][1] == args[1];
      Ok(Vec2(v.value[0], v.value[1]))
  }

  /** `materialChunks[-1][1] += self.parseFace(tokens[1:])`: the target is
      looked up first, so a face before any `usemtl` raises IndexError
      whatever the face holds. */
  function FaceStep(st: ObjState, args: seq<string>): ObjState {
    if st.chunks == [] then Halt(st, IndexError)
    else
      match ParseFaceSpec(args)
      case Err(e) => Halt(st, e)
      case Ok(tris) =>
        var n := |st.chunks|;
        st.(chunks := st.chunks[n - 1 := st.chunks[n - 1].(tris := st.chunks[n - 1].tris + tris)])
  }

  /** The effect of a non-blank line, given as its tokens. `mtllib` has an
      `if` of its own; the other keys form one `if`/`elif` chain. */
  function ObjTokens(st: ObjState, tokens: seq<string>, basePath: string, env: Env): ObjState
    requires |tokens| > 0
  {
    var key, args := tokens[0], tokens[1..];
    if key == "mtllib" then MtllibStep(st, args, basePath, env)
    else if key == "usemtl" then UsemtlStep(st, args)
    else if key == "v" then
      var p := Point(args, env);
      if p.Err? then Halt(st, p.error) else st.(positions := st.positions + [p.value])
    else if key == "vn" then
      var p := Point(args, env);
      if p.Err? then Halt(st, p.error) else st.(normals := st.normals + [p.value])
    else if key == "vt" then
      var t := TexCoord(args, env);
      if t.Err? then Halt(st, t.error) else st.(uvs := st.uvs + [t.value])
    else if key == "f" then FaceStep(st, args)
    else st
  }

  /** A line is read unless it is empty or its first character is `#`; a
      line of white space only has no tokens and is skipped. */
  predicate Read(line: string) {
    |line| > 0 && line[0] != '#'
  }

  function ObjLine(st: ObjState, line: string, basePath: string, env: Env): ObjState {
    if Read(line) && Split(line) != [] then ObjTokens(st, Split(line), basePath, env) else st
  }

  /** Reading `lines` from `st`, stopping at the first exception. */
  function ObjRun(st: ObjState, lines: seq<string>, basePath: string, env: Env): ObjState
    decreases |lines|
  {
    if lines == [] || st.err.Some? then st
    else ObjRun(ObjLine(st, lines[0], basePath, env), lines[1..], basePath, env)
  }

  /** The key `loadObj` sees on a line, "" for a line it skips. */
  function ObjKey(line: string): string {
    if Read(line) && Split(line) != [] then Split(line)[0] else ""
  }

  /** Two neighbouring chunks never share a name, and every chunk holds
      whole triangles. */
  predicate ChunksWellFormed(chunks: seq<ChunkSpec>) {
    && (forall k :: 0 <= k < |chunks| - 1 ==> chunks[k].name != chunks[k + 1].name)
    && (forall k :: 0 <= k < |chunks| ==> |chunks[k].tris| % 3 == 0)
  }

  lemma FaceStepWellFormed(st: ObjState, args: seq<string>)
    requires ChunksWellFormed(st.chunks)
    ensures ChunksWellFormed(FaceStep(st, args).chunks)
  {
    var r := ParseFaceSpec(args);
    if st.chunks != [] && r.Ok? {
      FaceCorners(args);
      var n := |st.chunks|;
      var c := st.chunks[n - 1];
      var cs := st.chunks[n - 1 := c.(tris := c.tris + r.value)];
      assert FaceStep(st, args).chunks == cs;
      assert |c.tris + r.value| == |c.tris| + 3 * (|args| - 2);
      assert forall k :: 0 <= k < n ==> cs[k].name == st.chunks[k].name;
    }
  }

  lemma LineWellFormed(st: ObjState, line: string, basePath: string, env: Env)
    requires ChunksWellFormed(st.chunks)
    ensures ChunksWellFormed(ObjLine(st, line, basePath, env).chunks)
  {
    if Read(line) && Split(line) != [] {
      var ts := Split(line);
      assert ObjLine(st, line, basePath, env) == ObjTokens(st, ts, basePath, env);
      if ts[0] == "f" {
        FaceStepWellFormed(st, ts[1..]);
      } else if ts[0] == "usemtl" {
        UsemtlWellFormed(st, ts[1..]);
      } else {
        OtherKeepsChunks(st, ts, basePath, env);
      }
    }
  }

  /** `usemtl` opens an empty chunk only under a name differing from the last one's. */
  lemma UsemtlWellFormed(st: ObjState, args: seq<string>)
    requires ChunksWellFormed(st.chunks)
    ensures ChunksWellFormed(UsemtlStep(st, args).chunks)
  {
    if |args| >= 1 {
      var name := Join(args, " ");
      if st.chunks == [] || st.chunks[|st.chunks| - 1].name != name {
        var cs := st.chunks + [ChunkSpec(name, [])];
        assert UsemtlStep(st, args).chunks == cs;
        assert forall k :: 0 <= k < |st.chunks| ==> cs[k] == st.chunks[k];
      }
    }
  }

  /** Reading keeps the chunk list well formed, whatever the lines. */
  lemma {:induction false} RunWellFormed(st: ObjState, lines: seq<string>, basePath: string, env: Env)
    requires ChunksWellFormed(st.chunks)
    ensures ChunksWellFormed(ObjRun(st, lines, basePath, env).chunks)
    decreases |lines|
  {
    if lines != [] && st.err.None? {
      LineWellFormed(st, lines[0], basePath, env);
      RunWellFormed(ObjLine(st, lines[0], basePath, env), lines[1..], basePath, env);
    }
  }

  /** The names of a chunk list. */
  function Names(chunks: seq<ChunkSpec>): (ns: seq<string>)
    ensures |ns| == |chunks| && forall k :: 0 <= k < |chunks| ==> ns[k] == chunks[k].name
  {
    seq(|chunks|, k requires 0 <= k < |chunks| => chunks[k].name)
  }

  /** The name a `usemtl` line gives, as a list of zero or one names. */
  function UseName(line: string): seq<string> {
    var ts := if Read(line) then Split(line) else [];
    if |ts| >= 2 && ts[0] == "usemtl" then [Join(ts[1..], " ")] else []
  }

  /** The names `usemtl` lines give, in file order. */
  function UseNames(lines: seq<string>): seq<string> {
    if lines == [] then [] else UseName(lines[0]) + UseNames(lines[1..])
  }

  /** `acc` with `name` appended unless it is already the last. */
  function Push(acc: seq<string>, name: string): seq<string> {
    if acc == [] || acc[|acc| - 1] != name then acc + [name] else acc
  }

  /** `acc` extended by `names`, skipping each name equal to the last one kept. */
  function Compress(acc: seq<string>, names: seq<string>): seq<string>
    decreases |names|
  {
    if names == [] then acc else Compress(Push(acc, names[0]), names[1..])
  }

  lemma FaceKeepsNames(st: ObjState, args: seq<string>)
    requires FaceStep(st, args).err.None?
    ensures Names(FaceStep(st, args).chunks) == Names(st.chunks)
  {
  }

  /** One line changes the chunk names only by a `usemtl`, and then as
      `Push` says. */
  lemma LineNames(st: ObjState, line: string, basePath: string, env: Env)
    requires ObjLine(st, line, basePath, env).err.None?
    ensures var ns := Names(ObjLine(st, line, basePath, env).chunks);
      UseName(line) == [] ==> ns == Names(st.chunks)
    ensures var ns := Names(ObjLine(st, line, basePath, env).chunks);
      UseName(line) != [] ==> ns == Push(Names(st.chunks), UseName(line)[0])
  {
    if Read(line) && Split(line) != [] {
      var ts := Split(line);
      assert ObjLine(st, line, basePath, env) == ObjTokens(st, ts, basePath, env);
      if ts[0] == "f" {
        FaceKeepsNames(st, ts[1..]);
      } else if ts[0] == "usemtl" {
        UsemtlNames(st, ts[1..]);
      } else {
        OtherKeepsChunks(st, ts, basePath, env);
      }
    }
  }

  /** `usemtl` pushes its name onto the chunk names. */
  lemma UsemtlNames(st: ObjState, args: seq<string>)
    requires |args| >= 1
    ensures Names(UsemtlStep(st, args).chunks) == Push(Names(st.chunks), Join(args, " "))
  {
    var name := Join(args, " ");
    if st.chunks == [] || st.chunks[|st.chunks| - 1].name != name {
      NewChunkNames(st.chunks, name);
    } else {
      assert UsemtlStep(st, args) == st;
    }
  }

  /** Opening a chunk under a name other than the last one's appends that name. */
  lemma NewChunkNames(cs: seq<ChunkSpec>, name: string)
    requires cs == [] || cs[|cs| - 1].name != name
    ensures Names(cs + [ChunkSpec(name, [])]) == Push(Names(cs), name)
  {
    var ns := Names(cs);
    var ds := cs + [ChunkSpec(name, [])];
    assert Names(ds) == ns + [name] by {
      assert forall k :: 0 <= k < |ns| ==> Names(ds)[k] == ns[k];
    }
  }

  /** Lines other than `usemtl` and `f` leave the chunks alone. */
  lemma OtherKeepsChunks(st: ObjState, ts: seq<string>, basePath: string, env: Env)
    requires |ts| > 0 && ts[0] != "f" && ts[0] != "usemtl"
    ensures ObjTokens(st, ts, basePath, env).chunks == st.chunks
  {
  }

  /** The chunk names after reading are the `usemtl` names with each run of
      equal neighbours collapsed. */
  lemma {:induction false} RunNames(st: ObjState, lines: seq<string>, basePath: string, env: Env)
    requires st.err.None? && ObjRun(st, lines, basePath, env).err.None?
    ensures Names(ObjRun(st, lines, basePath, env).chunks) == Compress(Names(st.chunks), UseNames(lines))
    decreases |lines|
  {
    if lines != [] {
      var next := ObjLine(st, lines[0], basePath, env);
      LineNames(st, lines[0], basePath, env);
      RunNames(next, lines[1..], basePath, env);
      var u := UseName(lines[0]);
      if u == [] {
        assert UseNames(lines) == UseNames(lines[1..]);
      } else {
        assert UseNames(lines)[0] == u[0] && UseNames(lines)[1..] == UseNames(lines[1..]);
      }
    }
  }

  /** A successful read yields one chunk per run of equal consecutive
      `usemtl` names, in file order. */
  lemma ChunkNames(lines: seq<string>, basePath: string, env: Env, cache: CacheValue)
    requires ObjRun(InitialObjState(cache), lines, basePath, env).err.None?
    ensures Names(ObjRun(InitialObjState(cache), lines, basePath, env).chunks) == Compress([], UseNames(lines))
  {
    RunNames(InitialObjState(cache), lines, basePath, env);
  }

  /** `usemtl Wood`, `usemtl Metal`, `usemtl Wood` give three chunks;
      `usemtl Wood` twice gives one. */
  lemma ExampleChunks()
    ensures Compress([], ["Wood", "Metal", "Wood"]) == ["Wood", "Metal", "Wood"]
    ensures Compress([], ["Wood", "Wood"]) == ["Wood"]
  {
    assert ["Wood", "Metal", "Wood"][1..] == ["Metal", "Wood"];
    assert ["Metal", "Wood"][1..] == ["Wood"];
    assert ["Wood", "Wood"][1..] == ["Wood"];
    assert "Wood" != "Metal" by { assert "Wood"[0] != "Metal"[0]; }
  }

  /** An `f` line met while there is no chunk yet, that is before any
      `usemtl`, stops reading with an exception. */
  lemma {:induction false} FaceBeforeUsemtlFails(st: ObjState, lines: seq<string>, k: nat, basePath: string, env: Env)
    requires st.err.None? && st.chunks == []
    requires k < |lines| && ObjKey(lines[k]) == "f"
    requires forall j :: 0 <= j < k ==> ObjKey(lines[j]) != "usemtl"
    ensures ObjRun(st, lines, basePath, env).err.Some?
    decreases k
  {
    var next := ObjLine(st, lines[0], basePath, env);
    if k > 0 && next.err.None? {
      assert next.chunks == [];
      forall j | 0 <= j < k - 1 ensures ObjKey(lines[1..][j]) != "usemtl" {
        assert lines[1..][j] == lines[j + 1];
      }
      FaceBeforeUsemtlFails(next, lines[1..], k - 1, basePath, env);
    }
  }

  /** An `f` line touches only the last chunk, extending its corners by the
      fan of the face; the chunk count and names stay. */
  lemma FaceExtendsLast(st: ObjState, args: seq<string>)
    requires st.chunks != [] && ParseFaceSpec(args).Ok?
    ensures var r := FaceStep(st, args); var n := |st.chunks|;
      && r.err == st.err && |r.chunks| == n && r.chunks[..n - 1] == st.chunks[..n - 1]
      && r.chunks[n - 1].name == st.chunks[n - 1].name
      && r.chunks[n - 1].tris == st.chunks[n - 1].tris + Fan(ParseGroups(args).value)
      && r.positions == st.positions && r.normals == st.normals && r.uvs == st.uvs && r.mats == st.mats
  {
  }

  /** `mtllib` discards the materials loaded before: on success the map is
      exactly the new library's, whatever it held. */
  lemma MtllibReplaces(st: ObjState, args: seq<string>, basePath: string, env: Env)
    requires |args| >= 1
    ensures var out := LoadMaterialsSpec(PathJoin(basePath, Join(args, " ")), basePath, env, st.cache);
      var r := MtllibStep(st, args, basePath, env);
      && r.cache == out.cache
      && (out.result.Ok? ==> r.err == st.err && r.mats == out.result.value)
      && (out.result.Err? ==> r.err == Some(out.result.error))
      && r.chunks == st.chunks && r.positions == st.positions
  {
  }

  /** A line starting with `#`, and a line whose first token is not one of
      the keys, changes nothing. */
  lemma SkippedLine(st: ObjState, line: string, basePath: string, env: Env)
    requires ObjKey(line) !in {"mtllib", "usemtl", "v", "vn", "vt", "f"}
    ensures ObjLine(st, line, basePath, env) == st
  {
  }

  /** A `v` line with three numbers appends exactly one position. */
  lemma VertexAppends(st: ObjState, args: seq<string>, basePath: string, env: Env)
    requires Point(args, env).Ok?
    ensures ObjTokens(st, ["v"] + args, basePath, env) == st.(positions := st.positions + [Point(args, env).value])
  {
    assert (["v"] + args)[1..] == args;
  }

  /** What the line loop hands to the rest of `loadObj`. */
  datatype ObjParse = ObjParse(
    positions: seq<Vec3>, normals: seq<Vec3>, uvs: seq<Vec2>,
    chunks: seq<ChunkSpec>, materials: map<string, Material>)

  /** One non-blank line of the loop, given as its tokens. */
  method ApplyObjTokens(tokens: seq<string>, basePath: string, env: Env, cache: TextureCache,
                        p: ObjParse, ghost st: ObjState)
    returns (err: Option<LoadError>, p': ObjParse)
    requires |tokens| > 0 && st.err.None? && cache.Value() == st.cache
    requires p.positions == st.positions && p.normals == st.normals && p.uvs == st.uvs && p.chunks == st.chunks
    requires Holds(p.materials, st.mats) && Distinct(p.materials)
    modifies cache
    ensures var next := ObjTokens(st, tokens, basePath, env);
      && err == next.err && cache.Value() == next.cache
      && (err.None? ==>
            && p'.positions == next.positions && p'.normals == next.normals && p'.uvs == next.uvs
            && p'.chunks == next.chunks && Holds(p'.materials, next.mats) && Distinct(p'.materials))
    ensures forall k :: k in p'.materials ==> p'.materials[k] in p.materials.Values || fresh(p'.materials[k])
  {
    p', err := p, None;
    var key, args := tokens[0], tokens[1..];
    if key == "mtllib" {
      if |args| < 1 {
        return Some(AssertionError), p';
      }
      var loaded := LoadMaterials(PathJoin(basePath, Join(args, " ")), basePath, env, cache);
      if loaded.Err? {
        return Some(loaded.error), p';
      }
      p' := p.(materials := loaded.value);
    } else if key == "usemtl" {
      if |args| < 1 {
        return Some(AssertionError), p';
      }
      var materialName := Join(args, " ");
      if |p.chunks| == 0 || p.chunks[|p.chunks| - 1].name != materialName {
        p' := p.(chunks := p.chunks + [ChunkSpec(materialName, [])]);
      }
    } else if key == "v" || key == "vn" {
      var v := Point(args, env);
      if v.Err? {
        return Some(v.error), p';
      }
      if key == "v" {
        p' := p.(positions := p.positions + [v.value]);
      } else {
        p' := p.(normals := p.normals + [v.value]);
      }
    } else if key == "vt" {
      var t := TexCoord(args, env);
      if t.Err? {
        return Some(t.error), p';
      }
      p' := p.(uvs := p.uvs + [t.value]);
    } else if key == "f" {
      if |p.chunks| == 0 {
        return Some(IndexError), p';
      }
      var n := |p.chunks|;
      var face := ParseFace(args);
      if face.Err? {
        return Some(face.error), p';
      }
      p' := p.(chunks := p.chunks[n - 1 := p.chunks[n - 1].(tris := p.chunks[n - 1].tris + face.value)]);
    }
  }

  /** The line loop of `loadObj(objLines, basePath)`. */
  method ParseObjLines(objLines: seq<string>, basePath: string, env: Env, cache: TextureCache)
    returns (r: Result<ObjParse>)
    modifies cache
    ensures var spec := ObjRun(InitialObjState(old(cache.Value())), objLines, basePath, env);
      && cache.Value() == spec.cache
      && r.Ok? == spec.err.None?
      && (r.Err? ==> r.error == spec.err.value)
      && (r.Ok? ==>
            && r.value.positions == spec.positions && r.value.normals == spec.normals
            && r.value.uvs == spec.uvs && r.value.chunks == spec.chunks
            && Holds(r.value.materials, spec.mats) && Distinct(r.value.materials))
    ensures r.Ok? ==> forall k :: k in r.value.materials ==> fresh(r.value.materials[k])
  {
    var p := ObjParse([], [], [], [], map[]);
    ghost var st := InitialObjState(cache.Value());
    ghost var final := ObjRun(st, objLines, basePath, env);
    var i := 0;
    while i < |objLines|
      invariant 0 <= i <= |objLines|
      invariant st.err.None? && cache.Value() == st.cache
      invariant ObjRun(st, objLines[i..], basePath, env) == final
      invariant p.positions == st.positions && p.normals == st.normals && p.uvs == st.uvs && p.chunks == st.chunks
      invariant Holds(p.materials, st.mats) && Distinct(p.materials)
      invariant forall k :: k in p.materials ==> fresh(p.materials[k])
    {
      var l := objLines[i];
      assert objLines[i..][1..] == objLines[i + 1..];
      if |l| > 0 && l[0] != '#' {
        var tokens := Split(l);
        if |tokens| > 0 {
          var err;
          err, p := ApplyObjTokens(tokens, basePath, env, cache, p, st);
          st := ObjLine(st, l, basePath, env);
          if err.Some? {
            return Err(err.value);
          }
        }
      }
      i := i + 1;
    }
    return Ok(p);
  }
}
