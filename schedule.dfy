/** The draw schedule of `render` (ObjModel.py:288-354) with the GL calls
    reduced to what they depend on: the chunks are filtered by the render
    mask, and each kept chunk is drawn after binding its material whenever
    that material differs by value from the previous drawn chunk's. */
module DrawSchedule {
  import opened Wrappers
  import opened Materials

  /** A chunk as `render` reads it: the current value of its material dict. */
  datatype ChunkValue = ChunkValue(material: MaterialRecord, offset: nat, count: nat, flags: RenderFlag)

  /** Binding a material's textures and uniforms (the diffuse texture
      replaced by the default one when `overrideDiffuse`), and drawing a
      range of vertices as triangles. */
  datatype DrawCall = Bind(material: MaterialRecord, overrideDiffuse: bool) | Draw(offset: nat, count: nat)

  /** `if not renderFlags: renderFlags = RF_All`: both `None` and `0` mean
      every class. */
  function EffectiveMask(mask: Option<int>): int {
    if mask.None? || mask.value == 0 then AllFlags else mask.value
  }

  /** `[ch for ch in chunks if ch[3] & renderFlags]`. */
  function Kept(chunks: seq<ChunkValue>, mask: int): (r: seq<ChunkValue>)
    ensures |r| <= |chunks|
    ensures forall c :: c in r <==> c in chunks && Selects(mask, c.flags)
  {
    if chunks == [] then []
    else
      var n := |chunks|;
      var front := Kept(chunks[..n - 1], mask);
      assert chunks == chunks[..n - 1] + [chunks[n - 1]];
      if Selects(mask, chunks[n - 1].flags) then front + [chunks[n - 1]] else front
  }

  /** A single chunk is kept exactly when the mask selects its class. */
  lemma KeptSingle(c: ChunkValue, mask: int)
    ensures Kept([c], mask) == if Selects(mask, c.flags) then [c] else []
  {
    assert [c][..0] == [];
  }

  /** Filtering distributes over concatenation: the kept chunks stay in
      file order, and a chunk listed twice is kept twice. */
  lemma {:induction false} KeptAppend(a: seq<ChunkValue>, b: seq<ChunkValue>, mask: int)
    ensures Kept(a + b, mask) == Kept(a, mask) + Kept(b, mask)
    decreases |b|
  {
    if b == [] {
      assert a + b == a;
    } else {
      var n := |b|;
      assert (a + b)[..|a + b| - 1] == a + b[..n - 1];
      assert (a + b)[|a + b| - 1] == b[n - 1];
      KeptAppend(a, b[..n - 1], mask);
    }
  }

  /** The loop over the kept chunks, `prev` being the material of the
      previous drawn chunk (`None` before the first). */
  function ScheduleFrom(prev: Option<MaterialRecord>, chunks: seq<ChunkValue>, overrideDiffuse: bool): seq<DrawCall>
    decreases |chunks|
  {
    if chunks == [] then []
    else
      var c := chunks[0];
      (if prev != Some(c.material) then [Bind(c.material, overrideDiffuse)] else [])
      + [Draw(c.offset, c.count)]
      + ScheduleFrom(Some(c.material), chunks[1..], overrideDiffuse)
  }

  /** The calls of one node's own chunks under `mask`. */
  function Schedule(chunks: seq<ChunkValue>, mask: Option<int>, overrideDiffuse: bool): seq<DrawCall> {
    ScheduleFrom(None, Kept(chunks, EffectiveMask(mask)), overrideDiffuse)
  }

  /** The second loop of `render`: bind each kept chunk's material when it
      differs from `previousMaterial`, then draw the chunk. */
  method DrawKept(kept: seq<ChunkValue>, overrideDiffuse: bool) returns (calls: seq<DrawCall>)
    ensures calls == ScheduleFrom(None, kept, overrideDiffuse)
  {
    var previousMaterial: Option<MaterialRecord> := None;
    calls := [];
    var j := 0;
    while j < |kept|
      invariant 0 <= j <= |kept|
      invariant calls + ScheduleFrom(previousMaterial, kept[j..], overrideDiffuse)
             == ScheduleFrom(None, kept, overrideDiffuse)
    {
      var c := kept[j];
      ghost var rest := ScheduleFrom(Some(c.material), kept[j + 1..], overrideDiffuse);
      ghost var before := calls;
      ScheduleStep(previousMaterial, kept, j, overrideDiffuse);
      var piece: seq<DrawCall> := [];
      if previousMaterial != Some(c.material) {
        previousMaterial := Some(c.material);
        piece := [Bind(c.material, overrideDiffuse)];
      }
      piece := piece + [Draw(c.offset, c.count)];
      calls := calls + piece;
      AppendAssoc(before, piece, rest);
      j := j + 1;
    }
    assert kept[j..] == [];
  }

  lemma AppendAssoc(a: seq<DrawCall>, b: seq<DrawCall>, c: seq<DrawCall>)
    ensures (a + b) + c == a + (b + c)
  {
  }

  /** One step of the loop: the calls for chunk `j`, then the rest. */
  lemma ScheduleStep(prev: Option<MaterialRecord>, chunks: seq<ChunkValue>, j: nat, overrideDiffuse: bool)
    requires j < |chunks|
    ensures var c := chunks[j];
      ScheduleFrom(prev, chunks[j..], overrideDiffuse)
      == ((if prev != Some(c.material) then [Bind(c.material, overrideDiffuse)] else []) + [Draw(c.offset, c.count)])
         + ScheduleFrom(Some(c.material), chunks[j + 1..], overrideDiffuse)
  {
    assert chunks[j..][1..] == chunks[j + 1..];
  }

  /** The draw calls of a trace, in order. */
  function Draws(trace: seq<DrawCall>): seq<DrawCall> {
    if trace == [] then []
    else (if trace[0].Draw? then [trace[0]] else []) + Draws(trace[1..])
  }

  /** For each draw call of a trace, the material bound when it runs
      (`bound` before the first bind). */
  function BoundAtDraws(bound: Option<MaterialRecord>, trace: seq<DrawCall>): seq<Option<MaterialRecord>>
    decreases |trace|
  {
    if trace == [] then []
    else if trace[0].Bind? then BoundAtDraws(Some(trace[0].material), trace[1..])
    else [bound] + BoundAtDraws(bound, trace[1..])
  }

  /** Every bind of a trace changes the bound material. */
  predicate NoRedundantBind(bound: Option<MaterialRecord>, trace: seq<DrawCall>)
    decreases |trace|
  {
    if trace == [] then true
    else if trace[0].Bind? then bound != Some(trace[0].material) && NoRedundantBind(Some(trace[0].material), trace[1..])
    else NoRedundantBind(bound, trace[1..])
  }

  /** The schedule draws exactly the given chunks, each once, in order,
      with its own offset and count. */
  lemma {:induction false} DrawsAreChunks(prev: Option<MaterialRecord>, chunks: seq<ChunkValue>, overrideDiffuse: bool)
    ensures var d := Draws(ScheduleFrom(prev, chunks, overrideDiffuse));
      |d| == |chunks| && forall i :: 0 <= i < |chunks| ==> d[i] == Draw(chunks[i].offset, chunks[i].count)
    decreases |chunks|
  {
    if chunks != [] {
      var c := chunks[0];
      var rest := ScheduleFrom(Some(c.material), chunks[1..], overrideDiffuse);
      var head := if prev != Some(c.material) then [Bind(c.material, overrideDiffuse)] else [];
      assert ScheduleFrom(prev, chunks, overrideDiffuse) == head + ([Draw(c.offset, c.count)] + rest);
      DrawsAppend(head, [Draw(c.offset, c.count)] + rest);
      DrawsAppend([Draw(c.offset, c.count)], rest);
      assert Draws(head) == [];
      assert Draws([Draw(c.offset, c.count)]) == [Draw(c.offset, c.count)];
      DrawsAreChunks(Some(c.material), chunks[1..], overrideDiffuse);
    }
  }

  lemma {:induction false} DrawsAppend(a: seq<DrawCall>, b: seq<DrawCall>)
    ensures Draws(a + b) == Draws(a) + Draws(b)
    decreases |a|
  {
    if a != [] {
      assert (a + b)[1..] == a[1..] + b;
      DrawsAppend(a[1..], b);
    } else {
      assert a + b == b;
    }
  }

  /** When chunk i is drawn, its own material is the one bound: the
      schedule never draws with a stale material. */
  lemma {:induction false} BindsPrecedeDraws(prev: Option<MaterialRecord>, chunks: seq<ChunkValue>, overrideDiffuse: bool)
    ensures var b := BoundAtDraws(prev, ScheduleFrom(prev, chunks, overrideDiffuse));
      |b| == |chunks| && forall i :: 0 <= i < |chunks| ==> b[i] == Some(chunks[i].material)
    decreases |chunks|
  {
    if chunks != [] {
      var c := chunks[0];
      var rest := ScheduleFrom(Some(c.material), chunks[1..], overrideDiffuse);
      var tail := [Draw(c.offset, c.count)] + rest;
      assert BoundAtDraws(prev, ScheduleFrom(prev, chunks, overrideDiffuse)) == BoundAtDraws(Some(c.material), tail) by {
        if prev != Some(c.material) {
          var t := [Bind(c.material, overrideDiffuse)] + tail;
          assert t[1..] == tail;
          assert ScheduleFrom(prev, chunks, overrideDiffuse) == t;
        } else {
          assert ScheduleFrom(prev, chunks, overrideDiffuse) == tail;
        }
      }
      assert BoundAtDraws(Some(c.material), tail) == [Some(c.material)] + BoundAtDraws(Some(c.material), rest) by {
        assert tail[1..] == rest;
      }
      BindsPrecedeDraws(Some(c.material), chunks[1..], overrideDiffuse);
    }
  }

  /** ... and it binds only on a change of material. */
  lemma {:induction false} ScheduleMinimal(prev: Option<MaterialRecord>, chunks: seq<ChunkValue>, overrideDiffuse: bool)
    ensures NoRedundantBind(prev, ScheduleFrom(prev, chunks, overrideDiffuse))
    decreases |chunks|
  {
    if chunks != [] {
      var c := chunks[0];
      var rest := ScheduleFrom(Some(c.material), chunks[1..], overrideDiffuse);
      ScheduleMinimal(Some(c.material), chunks[1..], overrideDiffuse);
      var tail := [Draw(c.offset, c.count)] + rest;
      assert tail[1..] == rest;
      if prev != Some(c.material) {
        var t := [Bind(c.material, overrideDiffuse)] + tail;
        assert t[1..] == tail;
        assert ScheduleFrom(prev, chunks, overrideDiffuse) == t;
      } else {
        assert ScheduleFrom(prev, chunks, overrideDiffuse) == tail;
      }
    }
  }

  /** Without a mask, and with mask 0, every chunk is kept. */
  lemma {:induction false} DefaultMaskKeepsAll(chunks: seq<ChunkValue>, mask: Option<int>)
    requires mask.None? || mask.value == 0
    ensures Kept(chunks, EffectiveMask(mask)) == chunks
    decreases |chunks|
  {
    if chunks != [] {
      var n := |chunks|;
      var front, last := chunks[..n - 1], chunks[n - 1];
      DefaultMaskKeepsAll(front, mask);
      assert Selects(AllFlags, last.flags) by {
        assert last.flags == 1 || last.flags == 2 || last.flags == 4;
      }
      assert Kept(chunks, EffectiveMask(mask)) == Kept(front, AllFlags) + [last];
      assert front + [last] == chunks;
    }
  }

  /** A single-class mask selects exactly its own class. */
  lemma SingleMaskSelects(f: RenderFlag)
    ensures Selects(Transparent, f) <==> f == Transparent
    ensures Selects(AlphaTested, f) <==> f == AlphaTested
    ensures Selects(Opaque, f) <==> f == Opaque
  {
  }

  /** The three single-class passes split the chunks: every chunk is kept
      by exactly one of the masks `RF_Transparent`, `RF_AlphaTested` and
      `RF_Opaque`. */
  lemma {:induction false} PassesPartition(chunks: seq<ChunkValue>)
    ensures multiset(Kept(chunks, Transparent)) + multiset(Kept(chunks, AlphaTested)) + multiset(Kept(chunks, Opaque))
      == multiset(chunks)
    decreases |chunks|
  {
    if chunks != [] {
      var n := |chunks|;
      var c := chunks[n - 1];
      PassesPartition(chunks[..n - 1]);
      SingleMaskSelects(c.flags);
      assert chunks == chunks[..n - 1] + [c];
      assert multiset(chunks) == multiset(chunks[..n - 1]) + multiset{c};
    }
  }
}
