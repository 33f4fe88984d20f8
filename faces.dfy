/** Face lines of a Wavefront OBJ file: `parseFaceIndexSet` reads one
    `p/t/n` token, `parseFace` reads a whole polygon and fans it into
    triangles (ObjModel.py:180-194). */
module Faces {
  import opened Wrappers
  import opened PyText

  /** The index `parseFaceIndexSet` writes for an empty field. It is not
      reserved: a field holding 0 also becomes -1. */
  const Absent: int := -1

  /** One polygon corner, the `[p, t, n]` list of the source: zero-based
      position, texture-coordinate and normal indices. Nothing bounds them;
      the de-indexer resolves them with Python's list indexing. */
  datatype Corner = Corner(pos: int, uv: int, normal: int)

  /** One `/`-separated field: `int(p) - 1`, or `Absent` when empty. */
  function ParseIndexField(p: string): Result<int> {
    if p == "" then Ok(Absent)
    else match ParseInt(p)
      case Some(n) => Ok(n - 1)
      case None => Err(ValueError)
  }

  /** `parseFaceIndexSet(s)`: exactly three `/`-separated fields, each read
      by `ParseIndexField`, the first failing field deciding the error. */
  function ParseFaceIndexSet(s: string): (r: Result<Corner>)
    ensures Occurrences(s, '/') != 2 ==> r == Err(AssertionError)
    ensures var f := SplitOn(s, '/'); |f| == 3 ==>
      (r.Ok? <==> ParseIndexField(f[0]).Ok? && ParseIndexField(f[1]).Ok? && ParseIndexField(f[2]).Ok?)
    ensures var f := SplitOn(s, '/'); |f| == 3 && r.Err? ==> r.error == ValueError
    ensures var f := SplitOn(s, '/'); |f| == 3 && r.Ok? ==>
      && (f[0] == "" ==> r.value.pos == Absent) && (f[0] != "" ==> ParseInt(f[0]) == Some(r.value.pos + 1))
      && (f[1] == "" ==> r.value.uv == Absent) && (f[1] != "" ==> ParseInt(f[1]) == Some(r.value.uv + 1))
      && (f[2] == "" ==> r.value.normal == Absent) && (f[2] != "" ==> ParseInt(f[2]) == Some(r.value.normal + 1))
  {
    SplitOnJoin(s, '/');
    var inds := SplitOn(s, '/');
    if |inds| != 3 then Err(AssertionError)
    else
      var p := ParseIndexField(inds[0]);
      var t := ParseIndexField(inds[1]);
      var n := ParseIndexField(inds[2]);
      if p.Err? then Err(p.error)
      else if t.Err? then Err(t.error)
      else if n.Err? then Err(n.error)
      else Ok(Corner(p.value, t.value, n.value))
  }

  /** How an exporter writes one zero-based index (-1: leave the field empty). */
  function FormatField(i: int): string
    requires i >= -1
  {
    if i == -1 then "" else Decimal(i + 1)
  }

  /** The `p/t/n` token for a corner. */
  function FormatCorner(c: Corner): string
    requires c.pos >= -1 && c.uv >= -1 && c.normal >= -1
  {
    FormatField(c.pos) + "/" + FormatField(c.uv) + "/" + FormatField(c.normal)
  }

  lemma {:induction false} SplitOnNoSep(a: string, sep: char)
    requires sep !in a
    ensures SplitOn(a, sep) == [a]
  {
    if a != [] {
      assert sep !in a[1..] by { assert forall k :: 0 <= k < |a| - 1 ==> a[1..][k] == a[k + 1]; }
      SplitOnNoSep(a[1..], sep);
      assert a == [a[0]] + a[1..];
    }
  }

  lemma {:induction false} SplitOnPiece(a: string, sep: char, rest: string)
    requires sep !in a
    ensures SplitOn(a + [sep] + rest, sep) == [a] + SplitOn(rest, sep)
  {
    var s := a + [sep] + rest;
    if a == [] {
      assert s[1..] == rest;
    } else {
      assert sep !in a[1..] by { assert forall k :: 0 <= k < |a| - 1 ==> a[1..][k] == a[k + 1]; }
      assert s[1..] == a[1..] + [sep] + rest;
      SplitOnPiece(a[1..], sep, rest);
      assert a == [a[0]] + a[1..];
    }
  }

  lemma FormatFieldReadsBack(i: int)
    requires i >= -1
    ensures '/' !in FormatField(i)
    ensures ParseIndexField(FormatField(i)) == Ok(i)
  {
    if i != -1 {
      DecimalRoundTrip(i + 1);
      var d := Decimal(i + 1);
      assert forall k :: 0 <= k < |d| ==> d[k] != '/';
    }
  }

  /** Reading back a written token gives the corner again: one index more in
      the file than in memory, an empty field for -1. */
  lemma FaceTokenRoundTrip(c: Corner)
    requires c.pos >= -1 && c.uv >= -1 && c.normal >= -1
    ensures ParseFaceIndexSet(FormatCorner(c)) == Ok(c)
  {
    var a, b, d := FormatField(c.pos), FormatField(c.uv), FormatField(c.normal);
    FormatFieldReadsBack(c.pos);
    FormatFieldReadsBack(c.uv);
    FormatFieldReadsBack(c.normal);
    assert FormatCorner(c) == a + ['/'] + (b + ['/'] + d);
    SplitOnPiece(a, '/', b + ['/'] + d);
    SplitOnPiece(b, '/', d);
    SplitOnNoSep(d, '/');
    SplitOnJoin(FormatCorner(c), '/');
  }

  /** `"5//2"`: position 4, no texture coordinate, normal 1. */
  lemma ExampleNoUv()
    ensures ParseFaceIndexSet("5//2") == Ok(Corner(4, Absent, 1))
  {
    assert "5//2" == "5" + ['/'] + ("" + ['/'] + "2");
    SplitOnPiece("5", '/', "" + ['/'] + "2");
    SplitOnPiece("", '/', "2");
    SplitOnNoSep("2", '/');
  }

  /** A relative (negative) OBJ index is not resolved: `-3` is read as -4,
      and a 0 is read as the `Absent` marker. */
  lemma ExampleNegativeAndZero()
    ensures ParseFaceIndexSet("-3/0/1") == Ok(Corner(-4, Absent, 0))
  {
    assert "-3/0/1" == "-3" + ['/'] + ("0" + ['/'] + "1");
    SplitOnPiece("-3", '/', "0" + ['/'] + "1");
    SplitOnPiece("0", '/', "1");
    SplitOnNoSep("1", '/');
    assert "-3"[1..] == "3";
  }

  /** A token with fewer than two separators is refused: `a` and `a/b`. */
  lemma ExampleTooFewFields()
    ensures ParseFaceIndexSet("7") == Err(AssertionError)
    ensures ParseFaceIndexSet("7/2") == Err(AssertionError)
  {
    assert Occurrences("7", '/') == 0;
    assert "7/2"[1..] == "/2" && "/2"[1..] == "2";
    assert Occurrences("7/2", '/') == 1;
  }

  /** The corners of every token, or the error of the first bad one. */
  function ParseGroups(tokens: seq<string>): (r: Result<seq<Corner>>)
    ensures r.Ok? ==> |r.value| == |tokens|
  {
    if tokens == [] then Ok([])
    else
      var front := ParseGroups(tokens[..|tokens| - 1]);
      if front.Err? then front
      else
        var c := ParseFaceIndexSet(tokens[|tokens| - 1]);
        if c.Err? then Err(c.error) else Ok(front.value + [c.value])
  }

  /** Once a prefix of the tokens holds a bad one, the whole face fails with
      that prefix's error. */
  lemma {:induction false} GroupsErrorPersists(tokens: seq<string>, k: nat)
    requires k <= |tokens|
    requires ParseGroups(tokens[..k]).Err?
    ensures ParseGroups(tokens) == ParseGroups(tokens[..k])
    decreases |tokens|
  {
    if k < |tokens| {
      var n := |tokens|;
      assert tokens[..n - 1][..k] == tokens[..k];
      GroupsErrorPersists(tokens[..n - 1], k);
    } else {
      assert tokens[..k] == tokens;
    }
  }

  lemma {:induction false} GroupsValue(tokens: seq<string>, i: nat)
    requires ParseGroups(tokens).Ok? && i < |tokens|
    ensures ParseFaceIndexSet(tokens[i]) == Ok(ParseGroups(tokens).value[i])
  {
    var n := |tokens|;
    if i < n - 1 {
      assert tokens[..n - 1][i] == tokens[i];
      GroupsValue(tokens[..n - 1], i);
    }
  }

  /** Fan triangulation as `parseFace` builds it: for each group after the
      second, the triangle (first group, previous group, this group). */
  function Fan(gs: seq<Corner>): seq<Corner> {
    if |gs| < 3 then [] else Fan(gs[..|gs| - 1]) + [gs[0], gs[|gs| - 2], gs[|gs| - 1]]
  }

  /** Parsing one more token extends the corners by its own. */
  lemma GroupsStep(tokens: seq<string>, i: nat)
    requires i < |tokens|
    ensures var front := ParseGroups(tokens[..i]);
      var c := ParseFaceIndexSet(tokens[i]);
      ParseGroups(tokens[..i + 1])
        == if front.Err? then front else if c.Err? then Err(c.error) else Ok(front.value + [c.value])
  {
    assert tokens[..i + 1][..i] == tokens[..i];
  }

  /** One more group adds the triangle (first, last, new). */
  lemma FanStep(gs: seq<Corner>, g: Corner)
    requires |gs| >= 2
    ensures Fan(gs + [g]) == Fan(gs) + [gs[0], gs[|gs| - 1], g]
  {
    var hs := gs + [g];
    assert hs[..|hs| - 1] == gs;
    assert hs[0] == gs[0] && hs[|hs| - 2] == gs[|gs| - 1] && hs[|hs| - 1] == g;
    assert Fan(hs) == Fan(hs[..|hs| - 1]) + [hs[0], hs[|hs| - 2], hs[|hs| - 1]];
  }

  /** A polygon of n groups becomes n - 2 triangles; triangle t is
      (g0, g(t+1), g(t+2)). */
  lemma {:induction false} FanShape(gs: seq<Corner>)
    requires |gs| >= 2
    ensures |Fan(gs)| == 3 * (|gs| - 2)
    ensures forall t :: 0 <= t < |gs| - 2 ==>
      Fan(gs)[3 * t] == gs[0] && Fan(gs)[3 * t + 1] == gs[t + 1] && Fan(gs)[3 * t + 2] == gs[t + 2]
  {
    if |gs| > 2 {
      var n := |gs|;
      var front := gs[..n - 1];
      FanShape(front);
      forall t | 0 <= t < n - 2
        ensures Fan(gs)[3 * t] == gs[0] && Fan(gs)[3 * t + 1] == gs[t + 1] && Fan(gs)[3 * t + 2] == gs[t + 2]
      {
        if t < n - 3 {
          assert front[0] == gs[0] && front[t + 1] == gs[t + 1] && front[t + 2] == gs[t + 2];
        }
      }
    }
  }

  /** What `parseFace(tokens)` returns or raises. */
  function ParseFaceSpec(tokens: seq<string>): Result<seq<Corner>> {
    if |tokens| < 3 then Err(AssertionError)
    else
      var gs := ParseGroups(tokens);
      if gs.Err? then Err(gs.error) else Ok(Fan(gs.value))
  }

  /** A face of n tokens becomes n - 2 triangles, triangle t holding the
      corners parsed from tokens 0, t + 1 and t + 2. */
  lemma FaceCorners(tokens: seq<string>)
    requires ParseFaceSpec(tokens).Ok?
    ensures var r := ParseFaceSpec(tokens).value;
      && |tokens| >= 3 && |r| == 3 * (|tokens| - 2)
      && forall t :: 0 <= t < |tokens| - 2 ==>
           && Ok(r[3 * t]) == ParseFaceIndexSet(tokens[0])
           && Ok(r[3 * t + 1]) == ParseFaceIndexSet(tokens[t + 1])
           && Ok(r[3 * t + 2]) == ParseFaceIndexSet(tokens[t + 2])
  {
    var gs := ParseGroups(tokens).value;
    FanShape(gs);
    forall t | 0 <= t < |tokens| - 2
      ensures && Ok(Fan(gs)[3 * t]) == ParseFaceIndexSet(tokens[0])
              && Ok(Fan(gs)[3 * t + 1]) == ParseFaceIndexSet(tokens[t + 1])
              && Ok(Fan(gs)[3 * t + 2]) == ParseFaceIndexSet(tokens[t + 2])
    {
      GroupsValue(tokens, 0);
      GroupsValue(tokens, t + 1);
      GroupsValue(tokens, t + 2);
    }
  }

  /** A quad `f 1 2 3 4` (here with normals) yields two triangles, 6 corners. */
  lemma ExampleQuad(tokens: seq<string>)
    requires |tokens| == 4 && ParseGroups(tokens).Ok?
    ensures ParseFaceSpec(tokens).Ok? && |ParseFaceSpec(tokens).value| == 6
  {
    FanShape(ParseGroups(tokens).value);
  }

  /** `parseFace`: at least three groups; parses the first two, then for each
      further token appends the triangle (v0, v1, v2) and moves v1 on. */
  method ParseFace(tokens: seq<string>) returns (r: Result<seq<Corner>>)
    ensures r == ParseFaceSpec(tokens)
  {
    if |tokens| < 3 {
      return Err(AssertionError);
    }
    var result: seq<Corner> := [];
    var v0 := ParseFaceIndexSet(tokens[0]);
    GroupsStep(tokens, 0);
    if v0.Err? {
      GroupsErrorPersists(tokens, 1);
      return Err(v0.error);
    }
    var v1 := ParseFaceIndexSet(tokens[1]);
    GroupsStep(tokens, 1);
    if v1.Err? {
      GroupsErrorPersists(tokens, 2);
      return Err(v1.error);
    }
    assert [] + [v0.value] + [v1.value] == [v0.value, v1.value];
    var i := 2;
    while i < |tokens|
      invariant 2 <= i <= |tokens|
      invariant v0.Ok? && v1.Ok?
      invariant ParseGroups(tokens[..i]).Ok?
      invariant |ParseGroups(tokens[..i]).value| == i
      invariant ParseGroups(tokens[..i]).value[0] == v0.value
      invariant ParseGroups(tokens[..i]).value[i - 1] == v1.value
      invariant result == Fan(ParseGroups(tokens[..i]).value)
    {
      var v2 := ParseFaceIndexSet(tokens[i]);
      GroupsStep(tokens, i);
      if v2.Err? {
        GroupsErrorPersists(tokens, i + 1);
        return Err(v2.error);
      }
      FanStep(ParseGroups(tokens[..i]).value, v2.value);
      result := result + [v0.value, v1.value, v2.value];
      v1 := v2;
      i := i + 1;
    }
    assert tokens[..i] == tokens;
    return Ok(result);
  }
}
