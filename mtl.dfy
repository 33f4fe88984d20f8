/** The material-library reader `loadMaterials` and its helper `parseFloats`
    (ObjModel.py:176-178, 196-258). The functions give the meaning of a
    material file line by line; `LoadMaterials` is the loop of the source,
    creating and updating `Material` objects in place, proved to agree. */
module MtlParser {
  import opened Wrappers
  import opened PyText
  import opened Vectors
  import opened Materials

  datatype Channel = Ambient | Diffuse | Specular | Emissive
  datatype Slot = DiffuseMap | SpecularMap | NormalMap | OpacityMap

  function WithColour(m: MaterialRecord, ch: Channel, c: Vec3): MaterialRecord {
    match ch
    case Ambient => m.(ambient := c)
    case Diffuse => m.(diffuse := c)
    case Specular => m.(specular := c)
    case Emissive => m.(emissive := c)
  }

  function WithTexture(m: MaterialRecord, s: Slot, t: TexRef): MaterialRecord {
    match s
    case DiffuseMap => m.(diffuseTex := t)
    case SpecularMap => m.(specularTex := t)
    case NormalMap => m.(normalTex := t)
    case OpacityMap => m.(opacityTex := t)
  }

  predicate IsColourKey(k: string) { k == "Ka" || k == "Kd" || k == "Ks" || k == "Ke" }
  predicate IsScalarKey(k: string) { k == "Ns" || k == "d" }
  predicate IsTextureKey(k: string) {
    k == "map_Kd" || k == "map_Ks" || k == "map_bump" || k == "bump" || k == "map_d"
  }

  /** The keys that write into the current material. */
  predicate IsDirective(k: string) { IsColourKey(k) || IsScalarKey(k) || IsTextureKey(k) }

  function ChannelOf(k: string): Channel
    requires IsColourKey(k)
  {
    if k == "Ka" then Ambient else if k == "Kd" then Diffuse else if k == "Ks" then Specular else Emissive
  }

  function SlotOf(k: string): Slot
    requires IsTextureKey(k)
  {
    if k == "map_Kd" then DiffuseMap
    else if k == "map_Ks" then SpecularMap
    else if k == "map_d" then OpacityMap
    else NormalMap
  }

  /** Colour maps are loaded as sRGB, normal and opacity maps are not. */
  function SrgbOf(k: string): bool
    requires IsTextureKey(k)
  {
    k == "map_Kd" || k == "map_Ks"
  }

  /** `[float(v) for v in ts]`. */
  function ParseFloatList(ts: seq<string>, env: Env): (r: Result<seq<real>>)
    ensures r.Ok? <==> forall i :: 0 <= i < |ts| ==> env.parseFloat(ts[i]).Some?
    ensures r.Err? ==> r.error == ValueError
    ensures r.Ok? ==> |r.value| == |ts| && forall i :: 0 <= i < |ts| ==> env.parseFloat(ts[i]) == Some(r.value[i])
  {
    if forall i :: 0 <= i < |ts| ==> env.parseFloat(ts[i]).Some? then
      Ok(seq(|ts|, i requires 0 <= i < |ts| => env.parseFloat(ts[i]).value))
    else Err(ValueError)
  }

  /** `parseFloats(tokens, minNum)`: at least `minNum` tokens, the first
      `minNum` of them read as numbers. */
  function ParseFloats(tokens: seq<string>, minNum: nat, env: Env): (r: Result<seq<real>>)
    ensures |tokens| < minNum ==> r == Err(AssertionError)
    ensures |tokens| >= minNum ==>
      (r.Ok? <==> forall i :: 0 <= i < minNum ==> env.parseFloat(tokens[i]).Some?)
    ensures |tokens| >= minNum && r.Err? ==> r.error == ValueError
    ensures r.Ok? ==>
      |r.value| == minNum && forall i :: 0 <= i < minNum ==> env.parseFloat(tokens[i]) == Some(r.value[i])
  {
    if |tokens| < minNum then Err(AssertionError) else ParseFloatList(tokens[..minNum], env)
  }

  /** Tokens after the first `minNum` are never read: a line with extra
      numbers or words at its end parses as the line without them. */
  lemma ParseFloatsIgnoresTrailing(tokens: seq<string>, extra: seq<string>, minNum: nat, env: Env)
    requires |tokens| >= minNum
    ensures ParseFloats(tokens + extra, minNum, env) == ParseFloats(tokens, minNum, env)
  {
    assert (tokens + extra)[..minNum] == tokens[..minNum];
  }

  /** The reader's state between lines: the records so far, the name of the
      current material ("" before the first `newmtl`), the texture cache,
      and the exception that stopped reading, if any. */
  datatype MtlState = MtlState(
    mats: map<string, MaterialRecord>, current: string, cache: CacheValue, err: Option<LoadError>)

  function Fail(st: MtlState, e: LoadError): MtlState { st.(err := Some(e)) }

  /** `st` with the record of the current material replaced by `m`. */
  function Store(st: MtlState, m: MaterialRecord): MtlState {
    st.(mats := st.mats[st.current := m])
  }

  /** `newmtl` with the tokens after the key: the joined name gets a fresh
      default record and becomes current. */
  function NewmtlStep(st: MtlState, args: seq<string>): MtlState {
    if |args| < 1 then Fail(st, AssertionError)
    else
      var name := Join(args, " ");
      st.(mats := st.mats[name := DefaultMaterial], current := name)
  }

  /** `Ka`, `Kd`, `Ks`, `Ke`: three numbers into channel `ch`. */
  function ColourStep(st: MtlState, ch: Channel, args: seq<string>, env: Env): MtlState {
    var v := ParseFloats(args, 3, env);
    if v.Err? then Fail(st, v.error)
    else if st.current !in st.mats then Fail(st, KeyError)
    else Store(st, WithColour(st.mats[st.current], ch, Vec3(v.value[0], v.value[1], v.value[2])))
  }

  /** `Ns` (`shininess`) or `d`: one number into the specular exponent or
      the alpha. */
  function ScalarStep(st: MtlState, shininess: bool, args: seq<string>, env: Env): MtlState {
    if |args| < 1 then Fail(st, IndexError)
    else
      var f := env.parseFloat(args[0]);
      if f.None? then Fail(st, ValueError)
      else if st.current !in st.mats then Fail(st, KeyError)
      else
        var m := st.mats[st.current];
        Store(st, if shininess then m.(specularExponent := f.value) else m.(alpha := f.value))
  }

  /** `map_Kd`, `map_Ks`, `map_bump`/`bump`, `map_d`: load the named file
      and store the result in slot `s`. */
  function TextureStep(st: MtlState, s: Slot, srgb: bool, args: seq<string>, basePath: string, env: Env): MtlState {
    var load := LoadTextureSpec(st.cache, Join(args, " "), basePath, srgb, env);
    var st' := st.(cache := load.cache);
    if st.current !in st.mats then Fail(st', KeyError)
    else Store(st', WithTexture(st.mats[st.current], s, load.tex))
  }

  /** The effect of one line, given as its tokens. Python evaluates the
      right-hand side (the numbers, the texture load) before it looks the
      current material up, so a directive before any `newmtl` raises its
      parse error if it has one, and KeyError otherwise — after the texture
      load has already been recorded. */
  function MtlStep(st: MtlState, tokens: seq<string>, basePath: string, env: Env): MtlState
    requires st.err.None?
  {
    if |tokens| == 0 then st
    else
      var key := tokens[0];
      if key == "newmtl" then NewmtlStep(st, tokens[1..])
      else if IsColourKey(key) then ColourStep(st, ChannelOf(key), tokens[1..], env)
      else if IsScalarKey(key) then ScalarStep(st, key == "Ns", tokens[1..], env)
      else if IsTextureKey(key) then TextureStep(st, SlotOf(key), SrgbOf(key), tokens[1..], basePath, env)
      else st
  }

  /** Reading `lines` from `st`, stopping at the first exception. */
  function MtlRun(st: MtlState, lines: seq<string>, basePath: string, env: Env): MtlState
    decreases |lines|
  {
    if lines == [] || st.err.Some? then st
    else MtlRun(MtlStep(st, Split(lines[0]), basePath, env), lines[1..], basePath, env)
  }

  function InitialState(cache: CacheValue): MtlState { MtlState(map[], "", cache, None) }

  const Ones := Vec3(1.0, 1.0, 1.0)

  function Sum(c: Vec3): real { c.x + c.y + c.z }

  /** One check of the exporter correction: a textured colour summing to 0
      becomes white. */
  function FixChannel(c: Vec3, t: TexRef): Vec3 {
    if t != NoTex && Sum(c) == 0.0 then Ones else c
  }

  /** The channels the correction looks at. */
  predicate Corrected(ch: Channel) { ch == Diffuse || ch == Specular }

  /** One check of channel `ch` of a record. */
  function FixOnce(m: MaterialRecord, ch: Channel): MaterialRecord
    requires Corrected(ch)
  {
    if ch == Diffuse then m.(diffuse := FixChannel(m.diffuse, m.diffuseTex))
    else m.(specular := FixChannel(m.specular, m.specularTex))
  }

  /** The correction pass as written: diffuse, then specular, each checked
      twice in a row. */
  function ZeroColourFix(m: MaterialRecord): MaterialRecord {
    FixOnce(FixOnce(FixOnce(FixOnce(m, Diffuse), Diffuse), Specular), Specular)
  }

  /** The correction turns exactly the textured, zero-sum diffuse and
      specular colours white; the repeated check changes nothing more and no
      other field moves. */
  lemma ZeroColourFixEffect(m: MaterialRecord)
    ensures ZeroColourFix(m).diffuse == (if m.diffuseTex != NoTex && Sum(m.diffuse) == 0.0 then Ones else m.diffuse)
    ensures ZeroColourFix(m).specular == (if m.specularTex != NoTex && Sum(m.specular) == 0.0 then Ones else m.specular)
    ensures ZeroColourFix(m) == m.(diffuse := ZeroColourFix(m).diffuse, specular := ZeroColourFix(m).specular)
    ensures ZeroColourFix(ZeroColourFix(m)) == ZeroColourFix(m)
  {
  }

  datatype MtlOutcome = MtlOutcome(result: Result<map<string, MaterialRecord>>, cache: CacheValue)

  /** `loadMaterials(materialFileName, basePath)`: the corrected records, or
      the first exception; the cache keeps the loads made before it. */
  function LoadMaterialsSpec(fileName: string, basePath: string, env: Env, cache: CacheValue): MtlOutcome {
    match env.readLines(fileName)
    case None => MtlOutcome(Err(FileNotFound), cache)
    case Some(lines) =>
      var st := MtlRun(InitialState(cache), lines, basePath, env);
      if st.err.Some? then MtlOutcome(Err(st.err.value), st.cache)
      else MtlOutcome(Ok(map k | k in st.mats :: ZeroColourFix(st.mats[k])), st.cache)
  }

  /** The first token of a line, "" for a blank one. */
  function Key(line: string): string {
    var ts := Split(line);
    if ts == [] then "" else ts[0]
  }

  /** A line that neither opens a material nor writes into one. */
  predicate Ignored(line: string) {
    Key(line) != "newmtl" && !IsDirective(Key(line))
  }

  lemma IgnoredStep(st: MtlState, line: string, basePath: string, env: Env)
    requires st.err.None? && Ignored(line)
    ensures MtlStep(st, Split(line), basePath, env) == st
  {
  }

  /** Reading two pieces in a row is reading their concatenation. */
  lemma {:induction false} RunAppend(st: MtlState, a: seq<string>, b: seq<string>, basePath: string, env: Env)
    ensures MtlRun(st, a + b, basePath, env) == MtlRun(MtlRun(st, a, basePath, env), b, basePath, env)
    decreases |a|
  {
    if a == [] {
      assert a + b == b;
    } else if st.err.None? {
      assert (a + b)[0] == a[0] && (a + b)[1..] == a[1..] + b;
      RunAppend(MtlStep(st, Split(a[0]), basePath, env), a[1..], b, basePath, env);
    }
  }

  /** Unknown directives, comments and blank lines are ignored: removing one
      from anywhere in the file changes nothing. */
  lemma IgnoredLineDropped(st: MtlState, pre: seq<string>, line: string, post: seq<string>, basePath: string, env: Env)
    requires Ignored(line)
    ensures MtlRun(st, pre + [line] + post, basePath, env) == MtlRun(st, pre + post, basePath, env)
  {
    var mid := MtlRun(st, pre, basePath, env);
    RunAppend(st, pre, [line] + post, basePath, env);
    RunAppend(st, pre, post, basePath, env);
    assert pre + [line] + post == pre + ([line] + post);
    if mid.err.None? {
      IgnoredStep(mid, line, basePath, env);
      assert ([line] + post)[1..] == post;
    }
  }

  /** A directive with no current material raises. */
  lemma DirectiveNeedsMaterial(st: MtlState, tokens: seq<string>, basePath: string, env: Env)
    requires st.err.None? && st.current !in st.mats && tokens != [] && IsDirective(tokens[0])
    ensures MtlStep(st, tokens, basePath, env).err.Some?
  {
  }

  /** A line other than `newmtl` that does not raise keeps the materials'
      names and the current one. */
  lemma KeepsMaterials(st: MtlState, tokens: seq<string>, basePath: string, env: Env)
    requires st.err.None? && st.current !in st.mats && (tokens == [] || tokens[0] != "newmtl")
    requires MtlStep(st, tokens, basePath, env).err.None?
    ensures MtlStep(st, tokens, basePath, env).mats == st.mats
    ensures MtlStep(st, tokens, basePath, env).current == st.current
  {
  }

  /** A directive that writes into the current material, met before any
      `newmtl`, stops reading with an exception. */
  lemma {:induction false} DirectiveBeforeNewmtlFails(st: MtlState, lines: seq<string>, k: nat, basePath: string, env: Env)
    requires st.err.None? && st.current !in st.mats
    requires k < |lines| && IsDirective(Key(lines[k]))
    requires forall j :: 0 <= j < k ==> Key(lines[j]) != "newmtl"
    ensures MtlRun(st, lines, basePath, env).err.Some?
    decreases k
  {
    var next := MtlStep(st, Split(lines[0]), basePath, env);
    if k == 0 {
      DirectiveNeedsMaterial(st, Split(lines[0]), basePath, env);
    } else if next.err.None? {
      KeepsMaterials(st, Split(lines[0]), basePath, env);
      forall j | 0 <= j < k - 1 ensures Key(lines[1..][j]) != "newmtl" {
        assert lines[1..][j] == lines[j + 1];
      }
      DirectiveBeforeNewmtlFails(next, lines[1..], k - 1, basePath, env);
    }
  }

  /** The material names after reading are the names the `newmtl` lines gave
      (plus those present before). */
  function NewmtlNames(lines: seq<string>): set<string> {
    if lines == [] then {}
    else
      var ts := Split(lines[0]);
      (if |ts| >= 2 && ts[0] == "newmtl" then {Join(ts[1..], " ")} else {}) + NewmtlNames(lines[1..])
  }

  /** One line adds the name a `newmtl` line gives, and no other. */
  lemma StepNames(st: MtlState, tokens: seq<string>, basePath: string, env: Env)
    requires st.err.None? && MtlStep(st, tokens, basePath, env).err.None?
    ensures var next := MtlStep(st, tokens, basePath, env);
      && next.mats.Keys == st.mats.Keys + (if |tokens| >= 2 && tokens[0] == "newmtl" then {Join(tokens[1..], " ")} else {})
      && (st.current in st.mats ==> next.current in next.mats)
  {
  }

  lemma {:induction false} RunNames(st: MtlState, lines: seq<string>, basePath: string, env: Env)
    requires st.err.None?
    requires MtlRun(st, lines, basePath, env).err.None?
    ensures MtlRun(st, lines, basePath, env).mats.Keys == st.mats.Keys + NewmtlNames(lines)
    ensures st.current in st.mats ==> MtlRun(st, lines, basePath, env).current in MtlRun(st, lines, basePath, env).mats
    decreases |lines|
  {
    if lines != [] {
      var next := MtlStep(st, Split(lines[0]), basePath, env);
      StepNames(st, Split(lines[0]), basePath, env);
      RunNames(next, lines[1..], basePath, env);
    }
  }

  /** A successful read defines exactly one record per name some `newmtl`
      line gave, the last such line deciding its starting point. */
  lemma LoadedNames(fileName: string, basePath: string, env: Env, cache: CacheValue)
    requires env.readLines(fileName).Some?
    requires LoadMaterialsSpec(fileName, basePath, env, cache).result.Ok?
    ensures LoadMaterialsSpec(fileName, basePath, env, cache).result.value.Keys
            == NewmtlNames(env.readLines(fileName).value)
  {
    RunNames(InitialState(cache), env.readLines(fileName).value, basePath, env);
  }

  /** `newmtl N` (re)creates N with the default record and makes it current,
      whatever N held before. */
  lemma NewmtlResets(st: MtlState, tokens: seq<string>, basePath: string, env: Env)
    requires st.err.None? && |tokens| >= 2 && tokens[0] == "newmtl"
    ensures var r := MtlStep(st, tokens, basePath, env);
      && r.err.None? && r.current == Join(tokens[1..], " ")
      && r.mats == st.mats[r.current := DefaultMaterial] && r.cache == st.cache
  {
  }

  /** `Ka`, `Kd`, `Ks`, `Ke` need three numbers after the key, store the
      first three in their channel of the current material and touch nothing
      else; with fewer tokens they fail the assertion. */
  lemma ColourDirective(st: MtlState, tokens: seq<string>, basePath: string, env: Env)
    requires st.err.None? && |tokens| >= 1 && IsColourKey(tokens[0])
    ensures |tokens| < 4 ==> MtlStep(st, tokens, basePath, env).err == Some(AssertionError)
    ensures |tokens| >= 4 && st.current in st.mats
            && (forall i :: 1 <= i <= 3 ==> env.parseFloat(tokens[i]).Some?) ==>
      var r := MtlStep(st, tokens, basePath, env);
      var c := Vec3(env.parseFloat(tokens[1]).value, env.parseFloat(tokens[2]).value, env.parseFloat(tokens[3]).value);
      && r.err.None? && r.current == st.current && r.cache == st.cache
      && r.mats == st.mats[st.current := WithColour(st.mats[st.current], ChannelOf(tokens[0]), c)]
  {
    if |tokens| >= 4 && (forall i :: 1 <= i <= 3 ==> env.parseFloat(tokens[i]).Some?) {
      var ts := tokens[1..][..3];
      assert forall i :: 0 <= i < 3 ==> ts[i] == tokens[i + 1];
    }
  }

  /** A texture line loads the file named by all remaining tokens joined by
      single spaces, and stores what the load returned in its slot. */
  lemma TextureDirective(st: MtlState, tokens: seq<string>, basePath: string, env: Env)
    requires st.err.None? && |tokens| >= 1 && IsTextureKey(tokens[0]) && st.current in st.mats
    ensures var r := MtlStep(st, tokens, basePath, env);
      var load := LoadTextureSpec(st.cache, Join(tokens[1..], " "), basePath, SrgbOf(tokens[0]), env);
      && r.err.None? && r.cache == load.cache
      && r.mats == st.mats[st.current := WithTexture(st.mats[st.current], SlotOf(tokens[0]), load.tex)]
  {
  }

  /** Every object of the map holds the record of its name. */
  predicate Holds(objs: map<string, Material>, vals: map<string, MaterialRecord>)
    reads objs.Values
  {
    objs.Keys == vals.Keys && forall k :: k in objs ==> objs[k].Value() == vals[k]
  }

  /** No two names share one object. */
  predicate Distinct(objs: map<string, Material>) {
    forall a, b :: a in objs && b in objs && a != b ==> objs[a] != objs[b]
  }

  method SetColour(m: Material, ch: Channel, c: Vec3)
    modifies m
    ensures m.Value() == WithColour(old(m.Value()), ch, c)
  {
    match ch
    case Ambient => m.ambient := c;
    case Diffuse => m.diffuse := c;
    case Specular => m.specular := c;
    case Emissive => m.emissive := c;
  }

  method SetTexture(m: Material, s: Slot, t: TexRef)
    modifies m
    ensures m.Value() == WithTexture(old(m.Value()), s, t)
  {
    match s
    case DiffuseMap => m.diffuseTex := t;
    case SpecularMap => m.specularTex := t;
    case NormalMap => m.normalTex := t;
    case OpacityMap => m.opacityTex := t;
  }

  /** `newmtl`: a new dict under the joined name, which becomes current. */
  method ApplyNewmtl(args: seq<string>, materials: map<string, Material>, currentMaterial: string, ghost st: MtlState)
    returns (err: Option<LoadError>, materials': map<string, Material>, currentMaterial': string)
    requires st.err.None? && st.current == currentMaterial && Holds(materials, st.mats) && Distinct(materials)
    ensures var next := NewmtlStep(st, args);
      && err == next.err && currentMaterial' == next.current
      && Holds(materials', next.mats) && Distinct(materials')
    ensures forall k :: k in materials' ==> materials'[k] in materials.Values || fresh(materials'[k])
  {
    if |args| < 1 {
      return Some(AssertionError), materials, currentMaterial;
    }
    currentMaterial' := Join(args, " ");
    var m := new Material.Default();
    materials' := materials[currentMaterial' := m];
    err := None;
  }

  /** `Ka`, `Kd`, `Ks`, `Ke`. */
  method ApplyColour(ch: Channel, args: seq<string>, env: Env, materials: map<string, Material>,
                     currentMaterial: string, ghost st: MtlState)
    returns (err: Option<LoadError>)
    requires st.err.None? && st.current == currentMaterial && Holds(materials, st.mats) && Distinct(materials)
    modifies materials.Values
    ensures var next := ColourStep(st, ch, args, env); err == next.err && Holds(materials, next.mats)
  {
    var v := ParseFloats(args, 3, env);
    if v.Err? {
      return Some(v.error);
    }
    if currentMaterial !in materials {
      return Some(KeyError);
    }
    var m := materials[currentMaterial];
    var xs := v.value;
    SetColour(m, ch, Vec3(xs[0], xs[1], xs[2]));
    err := None;
  }

  /** `Ns` and `d`. */
  method ApplyScalar(shininess: bool, args: seq<string>, env: Env, materials: map<string, Material>,
                     currentMaterial: string, ghost st: MtlState)
    returns (err: Option<LoadError>)
    requires st.err.None? && st.current == currentMaterial && Holds(materials, st.mats) && Distinct(materials)
    modifies materials.Values
    ensures var next := ScalarStep(st, shininess, args, env); err == next.err && Holds(materials, next.mats)
  {
    if |args| < 1 {
      return Some(IndexError);
    }
    var f := env.parseFloat(args[0]);
    if f.None? {
      return Some(ValueError);
    }
    if currentMaterial !in materials {
      return Some(KeyError);
    }
    var m := materials[currentMaterial];
    if shininess {
      m.specularExponent := f.value;
    } else {
      m.alpha := f.value;
    }
    err := None;
  }

  /** `map_Kd`, `map_Ks`, `map_bump`, `bump`, `map_d`. */
  method ApplyTexture(s: Slot, srgb: bool, args: seq<string>, basePath: string, env: Env, cache: TextureCache,
                      materials: map<string, Material>, currentMaterial: string, ghost st: MtlState)
    returns (err: Option<LoadError>)
    requires st.err.None? && st.current == currentMaterial && cache.Value() == st.cache
    requires Holds(materials, st.mats) && Distinct(materials)
    modifies cache, materials.Values
    ensures var next := TextureStep(st, s, srgb, args, basePath, env);
      && err == next.err && cache.Value() == next.cache && Holds(materials, next.mats)
  {
    var t := LoadTexture(Join(args, " "), basePath, srgb, env, cache);
    err := PutTexture(s, t, materials, currentMaterial, st.mats);
  }

  /** `self.materials[currentMaterial]["texture"][s] = t`: KeyError when no
      material is current. */
  method PutTexture(s: Slot, t: TexRef, materials: map<string, Material>, currentMaterial: string,
                    ghost mats: map<string, MaterialRecord>)
    returns (err: Option<LoadError>)
    requires Holds(materials, mats) && Distinct(materials)
    modifies materials.Values
    ensures currentMaterial !in mats ==> err == Some(KeyError) && Holds(materials, mats)
    ensures currentMaterial in mats ==>
      err.None? && Holds(materials, mats[currentMaterial := WithTexture(mats[currentMaterial], s, t)])
  {
    if currentMaterial !in materials {
      return Some(KeyError);
    }
    var m := materials[currentMaterial];
    SetTexture(m, s, t);
    err := None;
  }

  /** One line of `loadMaterials`, given as its tokens: applies it to the
      objects in `materials` (creating one on `newmtl`), or reports the
      exception it raises. */
  method ApplyLine(tokens: seq<string>, basePath: string, env: Env, cache: TextureCache,
                   materials: map<string, Material>, currentMaterial: string, ghost st: MtlState)
    returns (err: Option<LoadError>, materials': map<string, Material>, currentMaterial': string)
    requires st.err.None? && st.current == currentMaterial && cache.Value() == st.cache
    requires Holds(materials, st.mats) && Distinct(materials)
    modifies cache, materials.Values
    ensures var next := MtlStep(st, tokens, basePath, env);
      && err == next.err && cache.Value() == next.cache && currentMaterial' == next.current
      && Holds(materials', next.mats) && Distinct(materials')
    ensures forall k :: k in materials' ==> materials'[k] in materials.Values || fresh(materials'[k])
  {
    materials', currentMaterial', err := materials, currentMaterial, None;
    if |tokens| == 0 {
      return;
    }
    if tokens[0] == "newmtl" {
      err, materials', currentMaterial' := ApplyNewmtl(tokens[1..], materials, currentMaterial, st);
    } else if IsTextureKey(tokens[0]) {
      assert MtlStep(st, tokens, basePath, env) == TextureStep(st, SlotOf(tokens[0]), SrgbOf(tokens[0]), tokens[1..], basePath, env);
      err := ApplyTexture(SlotOf(tokens[0]), SrgbOf(tokens[0]), tokens[1..], basePath, env, cache, materials, currentMaterial, st);
    } else {
      err := ApplyValue(tokens, basePath, env, materials, currentMaterial, st);
    }
  }

  /** A line that is neither `newmtl` nor a texture: set a colour or a
      number of the current material, or ignore the line when its keyword
      is unknown. */
  method ApplyValue(tokens: seq<string>, basePath: string, env: Env,
                    materials: map<string, Material>, currentMaterial: string, ghost st: MtlState)
    returns (err: Option<LoadError>)
    requires |tokens| > 0 && tokens[0] != "newmtl" && !IsTextureKey(tokens[0])
    requires st.err.None? && st.current == currentMaterial
    requires Holds(materials, st.mats) && Distinct(materials)
    modifies materials.Values
    ensures var next := MtlStep(st, tokens, basePath, env);
      && err == next.err && next.cache == st.cache && currentMaterial == next.current
      && Holds(materials, next.mats)
  {
    var key := tokens[0];
    ghost var next := MtlStep(st, tokens, basePath, env);
    err := None;
    if IsColourKey(key) {
      assert next == ColourStep(st, ChannelOf(key), tokens[1..], env);
      err := ApplyColour(ChannelOf(key), tokens[1..], env, materials, currentMaterial, st);
    } else if IsScalarKey(key) {
      assert next == ScalarStep(st, key == "Ns", tokens[1..], env);
      err := ApplyScalar(key == "Ns", tokens[1..], env, materials, currentMaterial, st);
    }
  }

  /** `if m["texture"][ch] != -1 and sum(m["color"][ch]) == 0.0: m["color"][ch] = [1, 1, 1]`. */
  method FixColour(m: Material, ch: Channel)
    requires Corrected(ch)
    modifies m
    ensures m.Value() == FixOnce(old(m.Value()), ch)
  {
    if ch == Diffuse {
      if m.diffuseTex != NoTex && Sum(m.diffuse) == 0.0 {
        m.diffuse := Ones;
      }
    } else {
      if m.specularTex != NoTex && Sum(m.specular) == 0.0 {
        m.specular := Ones;
      }
    }
  }

  /** The body of the correction loop for one material: diffuse, then
      specular, each checked twice. */
  method FixMaterial(m: Material)
    modifies m
    ensures m.Value() == ZeroColourFix(old(m.Value()))
  {
    FixColour(m, Diffuse);
    FixColour(m, Diffuse);
    FixColour(m, Specular);
    FixColour(m, Specular);
  }

  /** The exporter correction over every material (ObjModel.py:252-257). */
  method CorrectColours(materials: map<string, Material>, ghost parsed: map<string, MaterialRecord>)
    requires Holds(materials, parsed) && Distinct(materials)
    modifies materials.Values
    ensures Holds(materials, map k | k in parsed :: ZeroColourFix(parsed[k]))
  {
    var keys := materials.Keys;
    while keys != {}
      invariant keys <= materials.Keys
      invariant forall k :: k in materials && k !in keys ==> materials[k].Value() == ZeroColourFix(parsed[k])
      invariant forall k :: k in keys ==> materials[k].Value() == parsed[k]
      decreases keys
    {
      var k :| k in keys;
      FixEntry(materials, parsed, keys, k);
      keys := keys - {k};
    }
  }

  /** One pass of the correction loop: material `k` is corrected, every
      other material object is left as it was. */
  method FixEntry(materials: map<string, Material>, ghost parsed: map<string, MaterialRecord>,
                  ghost keys: set<string>, k: string)
    requires parsed.Keys == materials.Keys && Distinct(materials)
    requires k in keys && keys <= materials.Keys
    requires forall j :: j in materials && j !in keys ==> materials[j].Value() == ZeroColourFix(parsed[j])
    requires forall j :: j in keys ==> materials[j].Value() == parsed[j]
    modifies materials[k]
    ensures forall j :: j in materials && j !in keys - {k} ==> materials[j].Value() == ZeroColourFix(parsed[j])
    ensures forall j :: j in keys - {k} ==> materials[j].Value() == parsed[j]
  {
    var m := materials[k];
    label before:
    FixMaterial(m);
    assert forall j :: j in materials && j != k ==> unchanged@before(materials[j]);
  }

  /** `loadMaterials(materialFileName, basePath)`: the material dicts of the
      file, as new objects, one per name. */
  method LoadMaterials(materialFileName: string, basePath: string, env: Env, cache: TextureCache)
    returns (r: Result<map<string, Material>>)
    modifies cache
    ensures var spec := LoadMaterialsSpec(materialFileName, basePath, env, old(cache.Value()));
      && cache.Value() == spec.cache
      && r.Ok? == spec.result.Ok?
      && (r.Err? ==> r.error == spec.result.error)
      && (r.Ok? ==> Holds(r.value, spec.result.value) && Distinct(r.value))
    ensures r.Ok? ==> forall k :: k in r.value ==> fresh(r.value[k])
  {
    var read := env.readLines(materialFileName);
    if read.None? {
      return Err(FileNotFound);
    }
    var lines := read.value;
    var materials: map<string, Material> := map[];
    var currentMaterial := "";
    ghost var st := InitialState(cache.Value());
    ghost var final := MtlRun(st, lines, basePath, env);
    var i := 0;
    while i < |lines|
      invariant 0 <= i <= |lines|
      invariant st.err.None? && st.current == currentMaterial && cache.Value() == st.cache
      invariant MtlRun(st, lines[i..], basePath, env) == final
      invariant Holds(materials, st.mats) && Distinct(materials)
      invariant forall k :: k in materials ==> fresh(materials[k])
    {
      var tokens := Split(lines[i]);
      var err;
      err, materials, currentMaterial := ApplyLine(tokens, basePath, env, cache, materials, currentMaterial, st);
      assert lines[i..][1..] == lines[i + 1..];
      st := MtlStep(st, tokens, basePath, env);
      if err.Some? {
        return Err(err.value);
      }
      i := i + 1;
    }
    CorrectColours(materials, st.mats);
    return Ok(materials);
  }
}
