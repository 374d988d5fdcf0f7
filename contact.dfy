/**
 * The pure part of the obstacle-ant collision kernel: the crossed tables built
 * at construction, the per-pair penetration vector, and the two phases of one
 * tick as functions of the geometry and the ant positions.
 */
module Contact {
  import opened Geometry

  /** Additive guard in the overlap factor's denominator. */
  const Eps: real := 0.001

  predicate AllPositive(s: seq<real>)
  {
    forall j :: 0 <= j < |s| ==> s[j] > 0.0
  }

  /** Pairwise sums of radii: entry [i][j] is r[j] + r[i]. */
  function CrossedRadiuses(rs: seq<real>): (t: seq<seq<real>>)
    ensures |t| == |rs| && forall i :: 0 <= i < |rs| ==> |t[i]| == |rs|
    ensures forall i, j :: 0 <= i < |rs| && 0 <= j < |rs| ==> t[i][j] == t[j][i]
  {
    seq(|rs|, i requires 0 <= i < |rs| => seq(|rs|, j requires 0 <= j < |rs| => rs[j] + rs[i]))
  }

  /** Relative masses: entry [i][j] is w[j] / (w[i] + w[j]), the share of the pair's mass held by j. */
  function CrossedWeights(ws: seq<real>): (t: seq<seq<real>>)
    requires AllPositive(ws)
    ensures |t| == |ws| && forall i :: 0 <= i < |ws| ==> |t[i]| == |ws|
    ensures forall i, j :: 0 <= i < |ws| && 0 <= j < |ws| ==> 0.0 < t[i][j] < 1.0
  {
    var t := seq(|ws|, i requires 0 <= i < |ws| =>
      seq(|ws|, j requires 0 <= j < |ws| => ws[j] / (ws[i] + ws[j])));
    assert forall i, j :: 0 <= i < |ws| && 0 <= j < |ws| ==> 0.0 < t[i][j] < 1.0 by {
      forall i, j | 0 <= i < |ws| && 0 <= j < |ws|
        ensures 0.0 < t[i][j] < 1.0
      {
        ShareBounds(ws[j], ws[i]);
      }
    }
    t
  }

  /** The share u / (v + u) of two positive masses lies strictly between 0 and 1. */
  lemma ShareBounds(u: real, v: real)
    requires 0.0 < u && 0.0 < v
    ensures 0.0 < u / (v + u) < 1.0
  {
    var q := u / (v + u);
    assert q * (v + u) == u;
    if q >= 1.0 {
      assert false;
    }
  }

  /**
   * Overlap factor 1 - r / (d + Eps) of an ant at distance d from a centre.
   * Its sign tells the overlap: negative exactly when the ant is more than Eps
   * inside the circle, zero exactly at depth Eps, so positive on the circle
   * itself.
   */
  function Factor(r: real, d: real): (f: real)
    requires 0.0 <= d
    ensures f < 0.0 <==> d + Eps < r
    ensures f == 0.0 <==> d + Eps == r
    ensures d == r ==> f > 0.0
  {
    var e := d + Eps;
    var q := r / e;
    assert q * e == r;
    assert q > 1.0 ==> q * e > e;
    assert q < 1.0 ==> q * e < e;
    1.0 - q
  }

  /**
   * Penetration vector of the ant at `a` into the obstacle of centre `c` and
   * radius `r`: (c - a) scaled by the overlap factor, or the zero vector when
   * the ant lies strictly farther than `r` from the centre. Only ants within
   * the circle contribute, and an ant exactly at the centre contributes nothing.
   */
  function Penetration(norm: Norm, c: Vec, r: real, a: Vec): (p: Vec)
    ensures p == Zero || Dist(norm, Sub(c, a)) <= r
    ensures c == a ==> p == Zero
  {
    var v := Sub(c, a);
    var d := Dist(norm, v);
    if d > r then Zero else Scale(v, Factor(r, d))
  }

  /**
   * Every ant of `ants` lies strictly outside the circle of centre `c` and
   * radius `r`; stated by peeling off the last ant, as the sums are.
   */
  predicate AllOutside(norm: Norm, c: Vec, r: real, ants: seq<Vec>)
  {
    ants == [] ||
    (AllOutside(norm, c, r, ants[..|ants| - 1]) && Dist(norm, Sub(c, ants[|ants| - 1])) > r)
  }

  /** No collection of `antSets` has an ant inside the circle of centre `c` and radius `r`. */
  predicate Untouched(norm: Norm, c: Vec, r: real, antSets: seq<seq<Vec>>)
  {
    antSets == [] ||
    (Untouched(norm, c, r, antSets[..|antSets| - 1]) && AllOutside(norm, c, r, antSets[|antSets| - 1]))
  }

  /** The ant at `a` lies strictly outside every circle of `cs` and `rs`. */
  predicate OutsideEvery(norm: Norm, cs: seq<Vec>, rs: seq<real>, a: Vec)
    requires |cs| == |rs|
  {
    cs == [] ||
    (OutsideEvery(norm, cs[..|cs| - 1], rs[..|rs| - 1], a) && Dist(norm, Sub(cs[|cs| - 1], a)) > rs[|rs| - 1])
  }

  /**
   * Sum over the ants of one collection of their penetration into one
   * obstacle; ants that are all outside the circle push it by nothing.
   */
  function PushSum(norm: Norm, c: Vec, r: real, ants: seq<Vec>): (s: Vec)
    ensures AllOutside(norm, c, r, ants) ==> s == Zero
  {
    if ants == [] then Zero
    else
      var front := PushSum(norm, c, r, ants[..|ants| - 1]);
      AddZero(front);
      Add(front, Penetration(norm, c, r, ants[|ants| - 1]))
  }

  /**
   * Phase A for one obstacle and one ant collection: subtract the weighted
   * push. A collection with no ant inside the circle leaves the centre alone.
   */
  function Step(norm: Norm, c: Vec, r: real, w: real, ants: seq<Vec>): (c': Vec)
    requires w > 0.0
    ensures AllOutside(norm, c, r, ants) ==> c' == c
  {
    var push := PushSum(norm, c, r, ants);
    assert push == Zero ==> Sub(c, Div(push, w)) == c by {
      DivZero(w);
      SubZero(c);
    }
    Sub(c, Div(push, w))
  }

  /**
   * Phase A for one obstacle: the collections are processed in order, each
   * seeing the centre left by the previous ones. An obstacle whose circle
   * holds no ant of any collection keeps its centre.
   */
  function MovedCenter(norm: Norm, c: Vec, r: real, w: real, antSets: seq<seq<Vec>>): (c': Vec)
    requires w > 0.0
    ensures Untouched(norm, c, r, antSets) ==> c' == c
  {
    if antSets == [] then c
    else Step(norm, MovedCenter(norm, c, r, w, antSets[..|antSets| - 1]), r, w, antSets[|antSets| - 1])
  }

  /** Phase A for every obstacle: the centres after all collections have pushed. */
  function PhaseA(norm: Norm, cs: seq<Vec>, rs: seq<real>, ws: seq<real>, antSets: seq<seq<Vec>>): (r: seq<Vec>)
    requires |cs| == |rs| == |ws| && AllPositive(ws)
    ensures |r| == |cs|
  {
    seq(|cs|, j requires 0 <= j < |cs| => MovedCenter(norm, cs[j], rs[j], ws[j], antSets))
  }

  /**
   * Phase B for one ant: the sum over the obstacles of its penetration
   * vectors. An ant outside every circle is not moved.
   */
  function Correction(norm: Norm, cs: seq<Vec>, rs: seq<real>, a: Vec): (q: Vec)
    requires |cs| == |rs|
    ensures OutsideEvery(norm, cs, rs, a) ==> q == Zero
  {
    if cs == [] then Zero
    else
      var front := Correction(norm, cs[..|cs| - 1], rs[..|rs| - 1], a);
      AddZero(front);
      Add(front, Penetration(norm, cs[|cs| - 1], rs[|rs| - 1], a))
  }

  /** Phase B: one displacement per ant, per collection, against the centres `cs`. */
  function PhaseB(norm: Norm, cs: seq<Vec>, rs: seq<real>, antSets: seq<seq<Vec>>): (ds: seq<seq<Vec>>)
    requires |cs| == |rs|
    ensures |ds| == |antSets|
    ensures forall k :: 0 <= k < |antSets| ==> |ds[k]| == |antSets[k]|
  {
    seq(|antSets|, k requires 0 <= k < |antSets| =>
      seq(|antSets[k]|, i requires 0 <= i < |antSets[k]| => Correction(norm, cs, rs, antSets[k][i])))
  }
}
