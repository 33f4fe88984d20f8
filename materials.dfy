/** Material records, the render classification derived from them, and the
    process-wide texture cache (ObjModel.py:22-25, 39-40, 121-128, 206-222,
    260-273). */
module Materials {
  import opened Wrappers
  import opened PyText
  import opened Vectors

  /** A texture slot: -1 in the source, or the texture object a load
      returned, identified by the number of textures built before it. Each
      construction makes a new object, so two loads of one file give two
      textures that compare unequal, as Python objects do. */
  datatype TexRef = NoTex | Tex(handle: nat)

  /** What the loader reaches through the operating system, Python's number
      parser and GL. Each is a function of its arguments. */
  datatype Env = Env(
    readLines: string -> Option<seq<string>>,  // open(path).readlines(); None when open() raises
    parseFloat: string -> Option<real>,        // float(token); None when it raises ValueError
    loadImage: (string, bool) -> bool)         // whether Texture(path, srgb=...) returns an object whose .id can be read

  /** The value of one material dict. */
  datatype MaterialRecord = MaterialRecord(
    diffuse: Vec3, ambient: Vec3, specular: Vec3, emissive: Vec3,
    diffuseTex: TexRef, opacityTex: TexRef, specularTex: TexRef, normalTex: TexRef,
    alpha: real, specularExponent: real, offset: int)

  const Grey := Vec3(0.5, 0.5, 0.5)

  /** The record `newmtl` creates. */
  const DefaultMaterial := MaterialRecord(
    Grey, Grey, Grey, Origin,
    NoTex, NoTex, NoTex, NoTex,
    1.0, 22.0, 0)

  /** The render classes; each chunk carries exactly one of them. */
  type RenderFlag = f: int | f == 1 || f == 2 || f == 4 witness 4

  const Transparent: RenderFlag := 1
  const AlphaTested: RenderFlag := 2
  const Opaque: RenderFlag := 4
  const AllFlags: int := 7

  /** The class of a chunk drawn with material `m`: any alpha other than
      exactly 1.0 is transparent, otherwise an opacity texture makes it
      alpha-tested, otherwise it is opaque. */
  function Classify(m: MaterialRecord): RenderFlag {
    if m.alpha != 1.0 then Transparent
    else if m.opacityTex != NoTex then AlphaTested
    else Opaque
  }

  /** `mask & f != 0` for a single-bit `f`: bit log2(f) of the two's
      complement of `mask`, which floor division reads for any integer. */
  predicate Selects(mask: int, f: RenderFlag) {
    (mask / f) % 2 == 1
  }

  /** Each material falls in exactly one class: the mask of that class alone
      selects it, the masks of the other two do not, and `RF_All` selects
      every class. */
  lemma ClassifyExactlyOne(m: MaterialRecord)
    ensures Selects(AllFlags, Classify(m))
    ensures Selects(Transparent, Classify(m)) <==> m.alpha != 1.0
    ensures Selects(AlphaTested, Classify(m)) <==> m.alpha == 1.0 && m.opacityTex != NoTex
    ensures Selects(Opaque, Classify(m)) <==> m.alpha == 1.0 && m.opacityTex == NoTex
  {
  }

  /** The test is `!=`, not `<`: an alpha above 1.0 is transparent too. */
  lemma AlphaAboveOneIsTransparent(m: MaterialRecord)
    requires m.alpha > 1.0
    ensures Classify(m) == Transparent
  {
  }

  /** A material dict: a mutable record shared by the material map and by
      every chunk drawn with it. */
  class Material {
    var diffuse: Vec3
    var ambient: Vec3
    var specular: Vec3
    var emissive: Vec3
    var diffuseTex: TexRef
    var opacityTex: TexRef
    var specularTex: TexRef
    var normalTex: TexRef
    var alpha: real
    var specularExponent: real
    var offset: int

    function Value(): MaterialRecord
      reads this
    {
      MaterialRecord(diffuse, ambient, specular, emissive,
                     diffuseTex, opacityTex, specularTex, normalTex,
                     alpha, specularExponent, offset)
    }

    /** The dict literal of `newmtl` (ObjModel.py:206-222). */
    constructor Default()
      ensures Value() == DefaultMaterial
    {
      diffuse, ambient, specular, emissive := Grey, Grey, Grey, Origin;
      diffuseTex, opacityTex, specularTex, normalTex := NoTex, NoTex, NoTex, NoTex;
      alpha, specularExponent, offset := 1.0, 22.0, 0;
    }
  }

  /** The value of the two class-level dicts, with the number of textures
      built so far in the process. */
  datatype CacheValue = CacheValue(byName: map<string, nat>, byId: map<nat, string>, built: nat)

  /** `texturesByName` (lower-cased file name to texture) and `texturesById`
      (texture to lower-cased file name), shared by every model. They are
      written on each successful texture load and read by nothing. `built`
      counts the texture objects made so far; the next one is new. */
  class TextureCache {
    var byName: map<string, nat>
    var byId: map<nat, string>
    var built: nat

    constructor ()
      ensures byName == map[] && byId == map[] && built == 0
    {
      byName, byId, built := map[], map[], 0;
    }

    function Value(): CacheValue
      reads this
    {
      CacheValue(byName, byId, built)
    }
  }

  datatype TexLoad = TexLoad(tex: TexRef, cache: CacheValue)

  /** What `loadTexture` returns and records: a new texture built from the
      joined path, entered in both dicts under the lower-cased name the
      material file gave; a failed load records nothing. */
  function LoadTextureSpec(c: CacheValue, fileName: string, basePath: string, srgb: bool, env: Env): (r: TexLoad)
    ensures r.tex.Tex? <==> env.loadImage(PathJoin(basePath, fileName), srgb)
    ensures r.tex == NoTex ==> r.cache == c
    ensures r.tex.Tex? ==> r.tex.handle == c.built && r.cache.built == c.built + 1
    ensures r.tex.Tex? ==> r.cache.byName.Keys == c.byName.Keys + {Lower(fileName)}
    ensures r.tex.Tex? ==> r.cache.byName[Lower(fileName)] == r.tex.handle
    ensures r.tex.Tex? ==> r.cache.byId.Keys == c.byId.Keys + {r.tex.handle}
    ensures r.tex.Tex? ==> r.cache.byId[r.tex.handle] == Lower(fileName)
    ensures r.tex.Tex? ==> forall k :: k in c.byName && k != Lower(fileName) ==> r.cache.byName[k] == c.byName[k]
    ensures r.tex.Tex? ==> forall k :: k in c.byId && k != r.tex.handle ==> r.cache.byId[k] == c.byId[k]
  {
    if env.loadImage(PathJoin(basePath, fileName), srgb) then
      var h := c.built;
      var name := Lower(fileName);
      TexLoad(Tex(h), CacheValue(c.byName[name := h], c.byId[h := name], h + 1))
    else TexLoad(NoTex, c)
  }

  /** Every texture in `texturesById` was built before the next one. */
  predicate KnownBuilt(c: CacheValue) {
    forall k :: k in c.byId ==> k < c.built
  }

  /** Loading keeps every recorded texture older than the next one. */
  lemma LoadKeepsKnownBuilt(c: CacheValue, fileName: string, basePath: string, srgb: bool, env: Env)
    requires KnownBuilt(c)
    ensures KnownBuilt(LoadTextureSpec(c, fileName, basePath, srgb, env).cache)
  {
  }

  /** Two successful loads, of the same file or not, give two different
      textures, and `texturesById` keeps an entry for each: a loaded
      texture is new, never one already recorded. */
  lemma {:induction false} LoadsAreDistinct(c: CacheValue, f1: string, f2: string, basePath: string, srgb1: bool, srgb2: bool, env: Env)
    requires KnownBuilt(c)
    requires env.loadImage(PathJoin(basePath, f1), srgb1) && env.loadImage(PathJoin(basePath, f2), srgb2)
    ensures var first := LoadTextureSpec(c, f1, basePath, srgb1, env);
            var second := LoadTextureSpec(first.cache, f2, basePath, srgb2, env);
            && first.tex != second.tex
            && first.tex.handle !in c.byId
            && second.cache.byId.Keys == c.byId.Keys + {first.tex.handle, second.tex.handle}
  {
  }

  /** `loadTexture(fileName, basePath, srgb)`. */
  method LoadTexture(fileName: string, basePath: string, srgb: bool, env: Env, cache: TextureCache)
    returns (t: TexRef)
    modifies cache
    ensures TexLoad(t, cache.Value()) == LoadTextureSpec(old(cache.Value()), fileName, basePath, srgb, env)
  {
    var fullFileName := PathJoin(basePath, fileName);
    t := NoTex;
    if env.loadImage(fullFileName, srgb) {
      t := Tex(cache.built);
      cache.built := cache.built + 1;
      cache.byName := cache.byName[Lower(fileName) := t.handle];
      cache.byId := cache.byId[t.handle := Lower(fileName)];
    }
  }
}
