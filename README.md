# ObjModel: a Wavefront OBJ/MTL loader, modelled in Dafny

`ObjModel` is the mesh class of a small OpenGL demo of the Towers of Hanoi.
It reads a Wavefront `.obj` file line by line and builds three attribute lists:
positions (`v`), normals (`vn`) and texture coordinates (`vt`).

- `usemtl` opens a material chunk unless the last chunk already has that name.
- Each `f` line is parsed by `parseFaceIndexSet`/`parseFace`. The polygon is
  fan-triangulated into the last chunk.
- `mtllib` loads a material library with `loadMaterials`. That function keeps a
  dict of material records, fills in colours, scalars and textures, and
  finally turns textured zero-sum colours white.

After reading, `loadObj` de-indexes the chunks into flat per-vertex arrays:

- Every corner's indices are resolved with Python list indexing, so negative
  indices count from the end.
- Each chunk becomes a draw record `(material, offset, count, flags)`.
- The flag is Transparent (1), AlphaTested (2) or Opaque (4).

`updateMaterials` recomputes the flags. `addChild` offsets a child by the
parent's pivot and appends it. `render` draws the children first. It then
draws the chunks the mask keeps, rebinding a material only when it changes.

The project is split into one module per concern:

| file | module | what it holds |
|---|---|---|
| `wrappers.dfy` | `Wrappers` | `Option`, `Result` and the Python exceptions the loader can raise (`LoadError`) |
| `text.dfy` | `PyText` | `str.split()`, `str.split('/')`, `" ".join`, `int()`, `str.lower()`, POSIX `os.path.join`/`split` |
| `vectors.dfy` | `Vectors` | `vec2`/`vec3` as reals, `flatten`, the componentwise min/max of the bounding box |
| `faces.dfy` | `Faces` | `parseFaceIndexSet`, `parseFace` (a loop method proved against the fan function) |
| `materials.dfy` | `Materials` | the material record, the `Material` class (a mutable dict shared by the map and the chunks), the flag classifier, the texture cache and `loadTexture` |
| `mtl.dfy` | `MtlParser` | `parseFloats` and `loadMaterials`: a line-by-line specification fold and the imperative loop over `Material` objects proved to agree with it |
| `obj.dfy` | `ObjParser` | the line loop of `loadObj`: a specification fold and the imperative loop proved to agree with it |
| `layout.dfy` | `Layout` | the de-indexing half of `loadObj`: the specification `Deindex`, and the chunk loop writing preallocated arrays, proved against it |
| `schedule.dfy` | `DrawSchedule` | the chunk filter and material-rebind schedule of `render`, as a trace of bind/draw calls |
| `scene.dfy` | `Scene` | the `ObjModel` class: `loadObj`, `updateMaterials`, `addChild`, `render` and the constructor |

Operating-system, parser and GL services are parameters (`Materials.Env`):

- reading a file's lines: `None` when `open` raises;
- `float()` of a token: `None` when it raises;
- the texture constructor: whether it returns an object whose `.id` can be read, rather than raising.

A Python exception is an `Err` value. Where the source evaluates a right-hand
side before a subscript target, the model keeps that order. So a material
directive before any `newmtl` raises its parse error first and KeyError
otherwise. An `f` line before any `usemtl` raises IndexError before the
face is parsed.

The constructor resets the pivot to the origin after `loadObj` has set it to
the box centre, so a freshly built model's pivot is zero.
`Scene.NewModel` states this.

## Model

| member | source | states |
|---|---|---|
| PyText.Split | ObjModel.py:84 | every token `split()` yields is non-empty and holds no white space |
| PyText.SplitJoin | ObjModel.py:84-92 | splitting names joined by single spaces gives the names back, so the joined name of `usemtl`/`mtllib` keeps its words |
| PyText.SplitOnJoin | ObjModel.py:181 | `s.split('/')` has one more part than `s` has slashes, and joining the parts with `/` restores `s` |
| PyText.DecimalRoundTrip | ObjModel.py:183 | `int()` reads back the decimal text of any natural number, with or without a minus sign |
| PyText.ParseIntRejectsStray | ObjModel.py:183 | `int()` raises on a string holding a character that is not a digit or an underscore, anywhere but a sign in first place (so `"x5"` and `"5x"` both raise) |
| PyText.Lower | ObjModel.py:266 | `lower()` keeps the length and lowers each character |
| PyText.PathJoin | ObjModel.py:89 | `os.path.join(a, b)` is `b` when `b` is absolute; otherwise it is `a`, then one `/` exactly when `a` is non-empty and does not end with one, then `b` |
| PyText.PathHeadJoin | ObjModel.py:69-72 | the directory split off a file joined onto a directory (without trailing `/`) is that directory, which is how `load` finds its directory and `loadTexture` joins onto it |
| PyText.PathHead | ObjModel.py:70 | the directory part of a path is a prefix of it followed only by slashes and then a name without `/`; it ends with `/` only when it is all slashes, and a head holding a name stops before a `/` |
| Vectors.ConcatUniform | ObjModel.py:12-13 | flattening rows of width `w` puts row `i`, column `j` at `i * w + j`, and the length is rows times `w` |
| Vectors.FlattenAttribute | ObjModel.py:152-155 | flattening one attribute list of `w`-component items gives `w * len(data)` numbers, so the component count is `len(flatData) / len(data)` |
| Vectors.BoxMinIsMinimum | ObjModel.py:166-167 | `min(0)` is below every point in each component and attained by some point |
| Vectors.BoxMaxIsMaximum | ObjModel.py:166-168 | `max(0)` is above every point in each component and attained by some point |
| Faces.ParseFaceIndexSet | ObjModel.py:180-183 | a token without exactly two `/` fails the assertion; with three fields it succeeds exactly when each field is empty or an integer, each index being that integer minus one, or -1 for an empty field, and fails with ValueError otherwise |
| Faces.FormatFieldReadsBack | ObjModel.py:183 | a field written as `index + 1`, or empty for -1, reads back as that index and holds no `/` |
| Faces.FaceTokenRoundTrip | ObjModel.py:180-183 | reading back a `p/t/n` token written from a corner gives that corner |
| Faces.ExampleNoUv | ObjModel.py:180-183 | `"5//2"` reads as position 4, no texture coordinate, normal 1 |
| Faces.ExampleNegativeAndZero | ObjModel.py:183 | `"-3/0/1"` reads as position -4 (no relative indexing), the absent marker -1 for 0, and normal 0 |
| Faces.ExampleTooFewFields | ObjModel.py:181-182 | `"7"` and `"7/2"` fail the three-field assertion |
| Faces.ParseGroups | ObjModel.py:188-191 | parsing every group yields one corner per token |
| Faces.GroupsStep | ObjModel.py:190-191 | parsing one more token extends the corners by its own, or fails with the first error |
| Faces.GroupsErrorPersists | ObjModel.py:188-191 | once a token fails, the whole face fails with that token's error |
| Faces.GroupsValue | ObjModel.py:188-191 | corner `i` is what token `i` parses to |
| Faces.FanStep | ObjModel.py:190-193 | one more group adds the triangle (first, previous, new) |
| Faces.FanShape | ObjModel.py:185-194 | `n` groups give `3(n - 2)` corners, triangle `t` being groups 0, `t + 1`, `t + 2` |
| Faces.FaceCorners | ObjModel.py:185-194 | a parsed face has at least three tokens and `3(n - 2)` corners, triangle `t` holding the corners of tokens 0, `t + 1` and `t + 2` |
| Faces.ExampleQuad | ObjModel.py:185-194 | a quad yields six corners |
| Faces.ParseFace | ObjModel.py:185-194 | the loop with the rotating `v1` returns the fan of the parsed groups, or the first group's error, or the assertion error for fewer than three tokens |
| Materials.ClassifyExactlyOne | ObjModel.py:121-128 | every material has exactly one class; each single-class mask selects it iff the source's if/elif chain picks that class, and `RF_All` selects every class |
| Materials.AlphaAboveOneIsTransparent | ObjModel.py:123-124 | the test is `!=`: an alpha above 1.0 is transparent too |
| Materials.Material.Default | ObjModel.py:206-222 | a new material dict holds the default colours 0.5 (emissive 0), no textures, alpha 1.0, exponent 22.0, offset 0 |
| Materials.TextureCache.constructor | ObjModel.py:39-40 | both class-level dicts start empty and no texture has been built |
| Materials.LoadTextureSpec | ObjModel.py:260-273 | the load is of the joined path; a success makes a new texture and records lower-cased name to texture and texture to lower-cased name, every other entry keeping its value; a failure records nothing |
| Materials.LoadKeepsKnownBuilt | ObjModel.py:260-268 | every texture recorded in `texturesById` stays older than the next one built |
| Materials.LoadsAreDistinct | ObjModel.py:262-268 | two successful loads, even of the same file, give two different textures, each with its own `texturesById` entry |
| Materials.LoadTexture | ObjModel.py:260-273 | the method returns the texture and leaves the cache as `LoadTextureSpec` says |
| MtlParser.ParseFloatList | ObjModel.py:178 | the list parses exactly when every token does, value by value; otherwise ValueError |
| MtlParser.ParseFloats | ObjModel.py:176-178 | fewer than `minNum` tokens fail the assertion; otherwise it succeeds exactly when the first `minNum` tokens are numbers, holding their values, and fails with ValueError otherwise |
| MtlParser.ParseFloatsIgnoresTrailing | ObjModel.py:176-178 | tokens past the first `minNum` are never read |
| MtlParser.ZeroColourFixEffect | ObjModel.py:251-257 | the correction turns exactly the textured zero-sum diffuse and specular colours white, changes no other field, and is idempotent (the repeated check adds nothing) |
| MtlParser.IgnoredStep | ObjModel.py:201-249 | a line that is blank, unknown or a comment changes nothing |
| MtlParser.RunAppend | ObjModel.py:200-249 | reading two pieces of a file in a row is reading their concatenation |
| MtlParser.IgnoredLineDropped | ObjModel.py:200-249 | removing an ignored line anywhere in a material file changes nothing |
| MtlParser.DirectiveNeedsMaterial | ObjModel.py:223-249 | a directive with no current material raises |
| MtlParser.KeepsMaterials | ObjModel.py:223-249 | a non-`newmtl` line that does not raise keeps the material names and the current one |
| MtlParser.DirectiveBeforeNewmtlFails | ObjModel.py:199-249 | a directive met before any `newmtl` line stops reading with an exception |
| MtlParser.StepNames | ObjModel.py:203-206 | one line adds the name a `newmtl` line gives and no other, and keeps a current material defined |
| MtlParser.RunNames | ObjModel.py:200-206 | after reading, the names are those present before plus the `newmtl` names |
| MtlParser.LoadedNames | ObjModel.py:196-258 | a successful load defines exactly one record per `newmtl` name of the file |
| MtlParser.NewmtlResets | ObjModel.py:203-222 | `newmtl N` (re)creates N with the default record, whatever N held, and makes it current |
| MtlParser.ColourDirective | ObjModel.py:223-235 | `Ka`/`Kd`/`Ks`/`Ke` with fewer than three numbers fail the assertion; otherwise the first three go into that channel of the current material and nothing else changes |
| MtlParser.TextureDirective | ObjModel.py:236-247 | a texture line loads the file named by all remaining tokens joined by spaces, records the load in the cache, and stores the result in its slot |
| MtlParser.SetColour | ObjModel.py:223-235 | writing a colour changes that channel of the dict and nothing else |
| MtlParser.SetTexture | ObjModel.py:236-247 | writing a texture changes that slot of the dict and nothing else |
| MtlParser.ApplyNewmtl | ObjModel.py:203-222 | `newmtl` on the objects agrees with `NewmtlStep`, keeping one distinct object per name |
| MtlParser.ApplyColour | ObjModel.py:223-235 | a colour line on the objects agrees with `ColourStep` |
| MtlParser.ApplyScalar | ObjModel.py:225-249 | `Ns` and `d` on the objects agree with `ScalarStep`, including IndexError, ValueError and KeyError in the source's order |
| MtlParser.ApplyTexture | ObjModel.py:236-247 | a texture line on the objects and the cache agrees with `TextureStep` |
| MtlParser.PutTexture | ObjModel.py:237-247 | storing into the current material's slot raises KeyError when no material is current |
| MtlParser.ApplyLine | ObjModel.py:201-249 | one line on the objects and the cache agrees with `MtlStep` |
| MtlParser.ApplyValue | ObjModel.py:223-249 | a colour, scalar or unknown line on the objects agrees with `MtlStep` and leaves the cache alone |
| MtlParser.FixColour | ObjModel.py:254-255 | one check of the correction on a dict |
| MtlParser.FixMaterial | ObjModel.py:253-257 | the inner loop applies the whole correction to one dict |
| MtlParser.FixEntry | ObjModel.py:252-257 | one pass corrects material `k` and leaves every other object as it was |
| MtlParser.CorrectColours | ObjModel.py:252-257 | after the loop every object holds the corrected record of its name |
| MtlParser.LoadMaterials | ObjModel.py:196-258 | the loop returns fresh, distinct objects holding the corrected records of `LoadMaterialsSpec`, or its exception, and leaves the cache as it says |
| ObjParser.Point | ObjModel.py:96-100 | fewer than three tokens fail the assertion; otherwise it succeeds exactly when the first three are numbers, holding them, and fails with ValueError otherwise |
| ObjParser.TexCoord | ObjModel.py:102-103 | fewer than two tokens fail the assertion; otherwise it succeeds exactly when the first two are numbers, holding them, and fails with ValueError otherwise |
| ObjParser.FaceStepWellFormed | ObjModel.py:104-105 | an `f` line keeps neighbouring chunk names distinct and every chunk made of whole triangles |
| ObjParser.UsemtlWellFormed | ObjModel.py:90-94 | `usemtl` keeps neighbouring chunk names distinct and every chunk made of whole triangles |
| ObjParser.LineWellFormed | ObjModel.py:81-105 | any line keeps the chunk list well formed |
| ObjParser.RunWellFormed | ObjModel.py:81-105 | reading any lines keeps the chunk list well formed |
| ObjParser.FaceKeepsNames | ObjModel.py:104-105 | an `f` line leaves the chunk names as they were |
| ObjParser.UsemtlNames | ObjModel.py:90-94 | `usemtl` appends its name to the chunk names unless the last chunk has it already |
| ObjParser.NewChunkNames | ObjModel.py:93-94 | opening a chunk under a new name appends that name |
| ObjParser.OtherKeepsChunks | ObjModel.py:86-103 | lines other than `usemtl` and `f` leave the chunks alone |
| ObjParser.LineNames | ObjModel.py:81-105 | one line changes the chunk names only through `usemtl` |
| ObjParser.RunNames | ObjModel.py:81-105 | the chunk names after reading are the `usemtl` names with runs of equal names collapsed |
| ObjParser.ChunkNames | ObjModel.py:74-105 | a successful read yields one chunk per run of equal consecutive `usemtl` names, in file order |
| ObjParser.ExampleChunks | ObjModel.py:90-94 | Wood, Metal, Wood gives three chunks; Wood, Wood gives one |
| ObjParser.FaceBeforeUsemtlFails | ObjModel.py:104-105 | an `f` line before any `usemtl` stops reading with an exception |
| ObjParser.FaceExtendsLast | ObjModel.py:104-105 | an `f` line extends only the last chunk, by the fan of the face, and changes nothing else |
| ObjParser.MtllibReplaces | ObjModel.py:86-89 | `mtllib` replaces the whole material map with the new library's, or raises its error |
| ObjParser.SkippedLine | ObjModel.py:83-85 | a comment, a blank line or a line with an unknown key changes nothing |
| ObjParser.VertexAppends | ObjModel.py:95-97 | a `v` line appends exactly one position |
| ObjParser.ApplyObjTokens | ObjModel.py:84-105 | one line on the lists, chunks and material objects agrees with `ObjTokens` |
| ObjParser.ParseObjLines | ObjModel.py:74-105 | the line loop yields the lists, chunks and material objects of `ObjRun`, or its exception, and leaves the cache as it says |
| Layout.PyIndexRange | ObjModel.py:138-143 | a list index is accepted exactly in `[-len, len)` and reads the element counted from the front or the back |
| Layout.Repeat | ObjModel.py:113-114 | `[v] * n` has `n` copies of `v` |
| Layout.Resolve | ObjModel.py:138-143 | a corner resolves exactly when its position and normal indices, and its texture index unless absent, are in range; it then holds the indexed values, or `(0, 0)` for an absent texture index |
| Layout.AbsentNormalReadsLast | ObjModel.py:143 | an empty normal field is not refused: it reads the last normal of the file |
| Layout.ResolvedFromLists | ObjModel.py:138-143 | a resolved corner takes its attributes from the lists, or the `(0, 0)` default |
| Layout.ResolveAll | ObjModel.py:136-143 | a successful run has one slot per corner; the only error is IndexError |
| Layout.ResolveAllStep | ObjModel.py:136-143 | resolving one more corner extends the slots or fails with its error |
| Layout.ResolveAllErrorPersists | ObjModel.py:136-143 | once a corner fails, every longer run fails the same way |
| Layout.ResolveAllMeaning | ObjModel.py:136-143 | a run resolves exactly when each corner does, and slot `i` holds what corner `i` resolves to |
| Layout.TotalCountStep | ObjModel.py:107-108 | `numVerts` grows by each chunk's corner count |
| Layout.CountStep | ObjModel.py:107-108 | chunk `i`'s corners follow those before it and fit in the total |
| Layout.TotalCountMonotone | ObjModel.py:107-108 | a longer prefix of chunks has at least as many corners |
| Layout.CountVerts | ObjModel.py:106-108 | the counting loop yields the total corner count |
| Layout.DeindexStep | ObjModel.py:120-144 | de-indexing one more chunk looks its material up (KeyError), resolves its corners, and appends its vertices and record |
| Layout.DeindexErrorPersists | ObjModel.py:120-144 | once a chunk fails, the whole de-indexing fails with that exception |
| Layout.DeindexShape | ObjModel.py:106-144 | a success found every material and resolved every corner, with `numVerts` vertices and one record per chunk |
| Layout.DeindexLast | ObjModel.py:120-144 | a success ends with the last chunk's vertices and record |
| Layout.DeindexLayouts | ObjModel.py:117-144 | chunk `k`'s record names its material, starts at the corner count of the chunks before it, spans its own corners, and carries its material's class |
| Layout.DeindexVerticesFromLists | ObjModel.py:136-143 | no de-indexed slot invents a position or a normal |
| Layout.DeindexSucceeds | ObjModel.py:120-143 | when every material is found and every corner resolves, de-indexing succeeds |
| Layout.DeindexErrors | ObjModel.py:121-143 | de-indexing raises only KeyError or IndexError |
| Layout.ChunksTile | ObjModel.py:117-133 | the records tile `[0, numVerts)` in file order, and each count is a multiple of 3 when the chunks hold whole triangles |
| Layout.DeindexSlot | ObjModel.py:136-143 | slot `offset + i` of chunk `k` holds what corner `i` of the chunk resolves to |
| Layout.DeindexSlotFront | ObjModel.py:136-143 | a slot of an earlier chunk keeps its vertex when the last chunk is appended |
| Layout.DeindexSlotLast | ObjModel.py:136-143 | a slot of the last chunk holds what its corner resolves to |
| Layout.DeindexExtend | ObjModel.py:120-144 | a chunk that resolves extends the de-indexed prefix by its vertices and record |
| Layout.DeindexFailsAt | ObjModel.py:120-143 | a chunk that does not resolve fails the whole de-indexing, with KeyError when its material is missing |
| Layout.WrittenWhole | ObjModel.py:136-143 | once every slot is written, the arrays are the vertices' attributes |
| Layout.WriteCorner | ObjModel.py:138-143 | one corner writes its position and normal, and its texture coordinate unless absent, into slot `oo` and nowhere else, or raises its first bad lookup |
| Layout.WriteSlot | ObjModel.py:137-143 | slot `chunkOffset + i` is written as a step of resolving the chunk's corners in order |
| Layout.WriteTriangle | ObjModel.py:136-143 | the three corners of triangle `k` go to slots `chunkOffset + k + j` |
| Layout.WriteChunk | ObjModel.py:132-143 | the nested loops overlay the chunk's resolved vertices from `chunkOffset` on, or raise the first bad lookup |
| Layout.LayChunk | ObjModel.py:122-144 | once the material is found, the chunk is classified, written after the vertices before it, and recorded |
| Layout.WriteNext | ObjModel.py:129-144 | one pass of the chunk loop keeps the written arrays and records equal to the de-indexed prefix, or raises what de-indexing all chunks raises |
| Layout.ChunkStep | ObjModel.py:120-144 | `start`/`end` advance by the chunk's triangles, a missing material raises KeyError, and the loop state advances by one chunk |
| Layout.ProgressStart | ObjModel.py:115-118 | before the loop nothing is written and nothing recorded |
| Layout.ChunkLoop | ObjModel.py:117-144 | the chunk loop ends with every slot written and every chunk recorded, or with the exception of `Deindex` |
| Layout.WriteChunks | ObjModel.py:117-144 | on success the arrays hold the de-indexed mesh and the records describe its chunks, sharing the material objects; otherwise the `Deindex` exception |
| Layout.DeindexChunks | ObjModel.py:110-144 | the preallocated lists, filled by the chunk loop, are the de-indexed mesh's attributes |
| DrawSchedule.Kept | ObjModel.py:293 | a chunk is kept exactly when its flag is selected by the mask |
| DrawSchedule.KeptSingle | ObjModel.py:293 | one chunk is kept exactly when the mask selects its class |
| DrawSchedule.KeptAppend | ObjModel.py:293 | filtering a concatenation is the concatenation of the filtered parts, so kept chunks stay in file order and duplicates stay |
| DrawSchedule.DefaultMaskKeepsAll | ObjModel.py:289-293 | without a mask, and with mask 0, every chunk is kept |
| DrawSchedule.SingleMaskSelects | ObjModel.py:22-25 | a single-class mask selects exactly its own class |
| DrawSchedule.PassesPartition | ObjModel.py:289-293 | the transparent, alpha-tested and opaque passes together keep every chunk exactly once |
| DrawSchedule.DrawKept | ObjModel.py:328-354 | the draw loop produces the schedule `ScheduleFrom(None, kept)` |
| DrawSchedule.ScheduleStep | ObjModel.py:329-354 | one kept chunk binds its material if it changed, then draws |
| DrawSchedule.DrawsAreChunks | ObjModel.py:329-354 | the schedule draws exactly the kept chunks, once each, in order, with their offset and count |
| DrawSchedule.BindsPrecedeDraws | ObjModel.py:333-341 | when a chunk is drawn, its own material is the bound one |
| DrawSchedule.ScheduleMinimal | ObjModel.py:333-334 | a material is bound only when it differs from the bound one |
| Scene.ScaleRoundTrip | ObjModel.py:57-61 | a three-number tuple comes back as the scale |
| Scene.ScaleUniform | ObjModel.py:57-61 | a non-zero number and its one-element tuple both scale uniformly |
| Scene.LayoutSpec | ObjModel.py:106-171 | a successful layout has at least one position and `numVerts > 0` vertices (an empty mesh divides by zero) |
| Scene.VerticesInsideBox | ObjModel.py:166-168 | every de-indexed vertex lies inside the bounding box of the file's positions |
| Scene.DrawRecordsClassified | ObjModel.py:121-144 | the records of a successful layout carry their material's class |
| Scene.ReclassifyKeepsLayout | ObjModel.py:275-286 | recomputing the flags keeps each chunk's material, offset, count and place, and leaves every flag right |
| Scene.ReclassifyIdempotent | ObjModel.py:275-286 | on correctly classified chunks a second `updateMaterials` changes nothing |
| Scene.ObjModel.constructor | ObjModel.py:47-48 | a new object has no children and no diffuse override |
| Scene.ObjModel.LoadObj | ObjModel.py:74-171 | the fields show `LoadObjSpec`'s mesh with the default tangent frame, the box, the pivot at its centre and classified chunks, or the method raises its exception |
| Scene.ObjModel.Install | ObjModel.py:106-171 | counting, preallocating, de-indexing and the box store `LayoutSpec`'s mesh, or raise its exception |
| Scene.ObjModel.StoreMesh | ObjModel.py:110-114 | the vertex lists and the default tangent and bitangent lists are stored, and nothing else changes |
| Scene.ObjModel.StoreLayout | ObjModel.py:166-171 | the chunks, materials, box, centre and pivot are stored, and nothing else changes |
| Scene.ObjModel.Place | ObjModel.py:56-63 | the pivot and scale are set and the loaded mesh stays |
| Scene.ObjModel.UpdateMaterials | ObjModel.py:275-286 | the chunk list is rebuilt with each flag recomputed from its material's current value; no other field changes |
| Scene.ObjModel.AddChild | ObjModel.py:65-67 | the child's pivot is offset once by the parent's and the child goes last; nothing else changes, so both models still show their meshes |
| Scene.ObjModel.Render | ObjModel.py:288-354 | the method produces the calls of `Trace`: RecursionError past the recursion limit, then LinAlgError when the normal matrix of a singular scale cannot be inverted, then the children's calls and the node's own schedule |
| Scene.ObjModel.RenderChildren | ObjModel.py:315-317 | the children are rendered in order without a mask, stopping at the first error |
| Scene.ChildrenTraceStep | ObjModel.py:315-317 | rendering one more child appends its calls or raises its error |
| Scene.ChildrenErrorPersists | ObjModel.py:315-317 | once a child raises, rendering the children raises that |
| Scene.ChildFailureSpreads | ObjModel.py:315-317 | one failing child makes the whole render fail |
| Scene.SelfChildRaises | ObjModel.py:288-317 | a model added to itself never finishes a render: LinAlgError when its scale is singular, and RecursionError when it is its own first child and its scale is not |
| Scene.ChildrenFirstError | ObjModel.py:315-317 | the first child whose render raises decides the exception of the children loop |
| Scene.ChildrenPrefixOk | ObjModel.py:315-317 | children that each render make the loop over them finish |
| Scene.TraceErrors | ObjModel.py:288-354 | a render raises RecursionError or LinAlgError and nothing else |
| Scene.LeafRender | ObjModel.py:288-354 | a childless model renders exactly when its scale has no zero component, raising LinAlgError otherwise; it then draws exactly its kept chunks, in order, each with its own material bound and without redundant binds |
| Scene.NewModel | ObjModel.py:42-72 | the constructor loads the file relative to its directory; on success the object shows the loaded mesh, with pivot at the origin, the requested scale, no children; otherwise it raises FileNotFound, the load error or the scale error |

## Left out

- GL state: the vertex array and buffer objects, attribute pointers, shader use, uniform upload and texture binding (ObjModel.py:146-164, 173-174, 320-353) are foreign calls. Only the order of bind and draw decisions is kept, as `DrawCall` values.
- Matrices: the composition of model, view and normal matrices in `render` (ObjModel.py:301-313) is numpy float math. Only whether the model matrix can be inverted is kept: `Scene.Singular`, a zero scale component, taken over reals, so a product that is singular only through floating-point rounding is not modelled. The shared mutable `transforms={}` default argument is not modelled either; every parent model it can hold was inverted before it was stored, so it does not change which render raises LinAlgError.
- Default textures and shader: `Texture()` and `Shader(...)` in the constructor (ObjModel.py:44-45, 51-54) are GL object construction. `Scene.NewModel` starts at the load. Texture.py as written requires a file path, so `Texture()` without one would raise TypeError before the load. The model takes the default textures as built.
- `self.height = round(aabbMax[1], 1)` (ObjModel.py:170) is a float rounding that nothing in the core reads.
- `print` warnings of a failed texture load (ObjModel.py:270-271) are console output.
- Texture.py is not part of this model. The texture constructor is the `loadImage` parameter. As Texture.py is written, every load fails: the constructor rejects the `srgb` keyword, and a `Texture` sets no `id` attribute, so reading `texture.id` (ObjModel.py:264) would raise AttributeError. Both are caught at ObjModel.py:269, so that parameter is false for every path. A loaded texture is identified by the number of textures built before it, not by an object; as with Python objects, every load gives a new one.
- Numbers are `real`: float32 buffers, float rounding in `sum(...) == 0.0` and `alpha != 1.0`, and the float division `int(len(tris)/3)` are exact here. Token parsing by `float()` is the `parseFloat` parameter.
- PyText.ParseInt: accepts ASCII digits only, while Python's `int()` also accepts other Unicode decimal digits.
- PyText.Lower: lowers ASCII letters only, while Python's `lower()` covers all of Unicode.
- Partial state after an exception: an exception escapes the constructor, so the half-built object is never used. `Scene.ObjModel.LoadObj` therefore does not state the fields after a failed load. The texture cache after a failure is stated.
- Scene.ObjModel.Render: the interpreter's recursion limit is the `fuel` parameter. Deeper nesting raises RecursionError.
- Layout.WriteChunk: requires every chunk to hold whole triangles. The source would raise IndexError on a partial triangle, but `ObjParser.RunWellFormed` proves every chunk the reader builds holds whole triangles.
- Scene.NewModel: `Number(x)` stands for both Python `int` and `float` scale arguments. A `vec3` argument raises ValueError at `if scale:`, which the model states.
- Other files of the repository (camera, window, sky box, light source, shader, the main loop, `lab_utils`) are GL and glfw plumbing and numeric helpers outside this core.
