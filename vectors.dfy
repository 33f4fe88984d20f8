/** Small fixed-size tuples of reals, the `flatten` helper that packs them
    for the vertex buffers, and the axis-aligned bounding box of a point list. */
module Vectors {

  datatype Vec2 = Vec2(u: real, v: real)
  datatype Vec3 = Vec3(x: real, y: real, z: real)

  const Origin := Vec3(0.0, 0.0, 0.0)

  function Add(a: Vec3, b: Vec3): Vec3 {
    Vec3(a.x + b.x, a.y + b.y, a.z + b.z)
  }

  /** The list a Python `[x, y, z]` stands for. */
  function Components3(a: Vec3): seq<real> { [a.x, a.y, a.z] }
  function Components2(a: Vec2): seq<real> { [a.u, a.v] }

  /** Concatenation of a list of lists. */
  function Concat<T>(ll: seq<seq<T>>): seq<T> {
    if ll == [] then [] else Concat(ll[..|ll| - 1]) + ll[|ll| - 1]
  }

  /** `flatten(*lll)`: every element of every inner list of every argument,
      in order. */
  function Flatten<T>(lll: seq<seq<seq<T>>>): seq<T> {
    if lll == [] then [] else Flatten(lll[..|lll| - 1]) + Concat(lll[|lll| - 1])
  }

  lemma FlattenOne<T>(ll: seq<seq<T>>)
    ensures Flatten([ll]) == Concat(ll)
  {
    assert [ll][..0] == [];
  }

  lemma MulStep(i: nat, n: nat, w: nat)
    requires i < n
    ensures i * w + w <= n * w
  {
    assert (i + 1) * w <= n * w by {
      if w > 0 {
        assert i + 1 <= n;
      }
    }
  }

  /** Flattening rows of the same width `w` lays row `i`, column `j` at
      position `i * w + j`. */
  lemma {:induction false} ConcatUniform<T>(ll: seq<seq<T>>, w: nat)
    requires forall i :: 0 <= i < |ll| ==> |ll[i]| == w
    ensures |Concat(ll)| == |ll| * w
    ensures forall i, j :: 0 <= i < |ll| && 0 <= j < w ==> Concat(ll)[i * w + j] == ll[i][j]
  {
    if ll != [] {
      var n := |ll|;
      var front := ll[..n - 1];
      ConcatUniform(front, w);
      assert |Concat(ll)| == (n - 1) * w + w;
      forall i, j | 0 <= i < n && 0 <= j < w
        ensures Concat(ll)[i * w + j] == ll[i][j]
      {
        if i < n - 1 {
          MulStep(i, n - 1, w);
          assert front[i] == ll[i];
        } else {
          assert i * w == (n - 1) * w;
        }
      }
    }
  }

  /** What the buffer helper of the loader relies on: flattening `data`,
      whose items all have `w` components, yields `w * |data|` numbers laid
      out item after item (as `ConcatUniform` places them), so
      `len(flatData) / len(data)` is the component count `w` when `data` is
      not empty. */
  lemma {:induction false} FlattenAttribute<T>(data: seq<seq<T>>, w: nat)
    requires forall i :: 0 <= i < |data| ==> |data[i]| == w
    ensures Flatten([data]) == Concat(data)
    ensures |Flatten([data])| == |data| * w
  {
    FlattenOne(data);
    ConcatUniform(data, w);
  }

  function Min(a: real, b: real): real { if a <= b then a else b }
  function Max(a: real, b: real): real { if a >= b then a else b }

  /** `np.array(ps).min(0)`: the componentwise minimum of a non-empty list. */
  function BoxMin(ps: seq<Vec3>): Vec3
    requires |ps| > 0
  {
    if |ps| == 1 then ps[0]
    else
      var rest := BoxMin(ps[..|ps| - 1]);
      var last := ps[|ps| - 1];
      Vec3(Min(rest.x, last.x), Min(rest.y, last.y), Min(rest.z, last.z))
  }

  /** `np.array(ps).max(0)`: the componentwise maximum of a non-empty list. */
  function BoxMax(ps: seq<Vec3>): Vec3
    requires |ps| > 0
  {
    if |ps| == 1 then ps[0]
    else
      var rest := BoxMax(ps[..|ps| - 1]);
      var last := ps[|ps| - 1];
      Vec3(Max(rest.x, last.x), Max(rest.y, last.y), Max(rest.z, last.z))
  }

  /** The minimum is below every point and attained, per component. */
  lemma {:induction false} BoxMinIsMinimum(ps: seq<Vec3>)
    requires |ps| > 0
    ensures var m := BoxMin(ps);
      && (forall i :: 0 <= i < |ps| ==> m.x <= ps[i].x && m.y <= ps[i].y && m.z <= ps[i].z)
      && (exists i :: 0 <= i < |ps| && m.x == ps[i].x)
      && (exists i :: 0 <= i < |ps| && m.y == ps[i].y)
      && (exists i :: 0 <= i < |ps| && m.z == ps[i].z)
  {
    if |ps| > 1 {
      BoxMinIsMinimum(ps[..|ps| - 1]);
      assert forall i :: 0 <= i < |ps| - 1 ==> ps[..|ps| - 1][i] == ps[i];
    }
  }

  /** The maximum is above every point and attained, per component. */
  lemma {:induction false} BoxMaxIsMaximum(ps: seq<Vec3>)
    requires |ps| > 0
    ensures var m := BoxMax(ps);
      && (forall i :: 0 <= i < |ps| ==> ps[i].x <= m.x && ps[i].y <= m.y && ps[i].z <= m.z)
      && (exists i :: 0 <= i < |ps| && m.x == ps[i].x)
      && (exists i :: 0 <= i < |ps| && m.y == ps[i].y)
      && (exists i :: 0 <= i < |ps| && m.z == ps[i].z)
  {
    if |ps| > 1 {
      BoxMaxIsMaximum(ps[..|ps| - 1]);
      assert forall i :: 0 <= i < |ps| - 1 ==> ps[..|ps| - 1][i] == ps[i];
    }
  }

  /** `(aabbMin + aabbMax) * 0.5`. */
  function Centre(lo: Vec3, hi: Vec3): Vec3 {
    Vec3((lo.x + hi.x) * 0.5, (lo.y + hi.y) * 0.5, (lo.z + hi.z) * 0.5)
  }
}
