/** What one tick of the collision kernel promises, proved about the functions of `Contact`. */
module Properties {
  import opened Geometry
  import opened Contact

  /** The radius table holds the sums of radii and is symmetric. */
  lemma CrossedRadiusesSymmetric(rs: seq<real>, i: nat, j: nat)
    requires i < |rs| && j < |rs|
    ensures |CrossedRadiuses(rs)| == |rs| && |CrossedRadiuses(rs)[i]| == |rs|
    ensures CrossedRadiuses(rs)[i][j] == rs[i] + rs[j]
    ensures CrossedRadiuses(rs)[i][j] == CrossedRadiuses(rs)[j][i]
  {
  }

  /**
   * With positive weights, the two shares of a pair add up to one and each
   * lies strictly between zero and one.
   */
  lemma CrossedWeightsComplement(ws: seq<real>, i: nat, j: nat)
    requires AllPositive(ws) && i < |ws| && j < |ws|
    ensures |CrossedWeights(ws)| == |ws| && |CrossedWeights(ws)[i]| == |ws| && |CrossedWeights(ws)[j]| == |ws|
    ensures CrossedWeights(ws)[i][j] + CrossedWeights(ws)[j][i] == 1.0
    ensures 0.0 < CrossedWeights(ws)[i][j] < 1.0
  {
    var s := ws[i] + ws[j];
    assert CrossedWeights(ws)[i][j] == ws[j] / s;
    assert CrossedWeights(ws)[j][i] == ws[i] / s;
    assert ws[j] / s + ws[i] / s == (ws[j] + ws[i]) / s;
    assert ws[j] / s < 1.0 by {
      assert ws[j] < s;
    }
  }

  /**
   * The masking rule seen from the sums: an ant strictly outside the circle
   * can be added to a collection without changing the push on that obstacle.
   */
  lemma OutsideAntDropsOut(norm: Norm, c: Vec, r: real, ants: seq<Vec>, a: Vec)
    requires Dist(norm, Sub(c, a)) > r
    ensures PushSum(norm, c, r, ants + [a]) == PushSum(norm, c, r, ants)
  {
    assert (ants + [a])[..|ants|] == ants;
    AddZero(PushSum(norm, c, r, ants));
  }

  /**
   * Likewise in Phase B: an obstacle whose circle does not reach the ant can
   * be added without changing that ant's correction.
   */
  lemma OutsideObstacleDropsOut(norm: Norm, cs: seq<Vec>, rs: seq<real>, c: Vec, r: real, a: Vec)
    requires |cs| == |rs|
    requires Dist(norm, Sub(c, a)) > r
    ensures Correction(norm, cs + [c], rs + [r], a) == Correction(norm, cs, rs, a)
  {
    var n := |cs|;
    var cs', rs' := cs + [c], rs + [r];
    assert cs'[..n] == cs && rs'[..n] == rs && cs'[n] == c && rs'[n] == r;
    assert Penetration(norm, c, r, a) == Zero;
    assert Correction(norm, cs', rs', a) == Add(Correction(norm, cs, rs, a), Zero);
    AddZero(Correction(norm, cs, rs, a));
  }

  /**
   * On the circle itself the ant is not masked: at distance exactly `r > 0`
   * it contributes (c - a) scaled by Eps / (r + Eps), a small positive factor.
   */
  lemma EdgePenetration(norm: Norm, c: Vec, r: real, a: Vec)
    requires r > 0.0 && Dist(norm, Sub(c, a)) == r
    ensures Eps / (r + Eps) > 0.0
    ensures Penetration(norm, c, r, a) == Scale(Sub(c, a), Eps / (r + Eps))
  {
    EdgeFactor(r);
  }

  lemma EdgeFactor(r: real)
    requires r > 0.0
    ensures Eps / (r + Eps) > 0.0
    ensures Factor(r, r) == Eps / (r + Eps)
  {
    var e := r + Eps;
    assert r / e + Eps / e == (r + Eps) / e;
  }

  /** `AllOutside` holds exactly when every ant of the collection is farther than `r` from `c`. */
  lemma {:induction false} AllOutsideMeans(norm: Norm, c: Vec, r: real, ants: seq<Vec>)
    ensures AllOutside(norm, c, r, ants) <==> forall i :: 0 <= i < |ants| ==> Dist(norm, Sub(c, ants[i])) > r
  {
    if ants != [] {
      var n := |ants| - 1;
      AllOutsideMeans(norm, c, r, ants[..n]);
      assert forall i :: 0 <= i < n ==> ants[..n][i] == ants[i];
    }
  }

  /** `Untouched` holds exactly when every collection is all outside the circle. */
  lemma {:induction false} UntouchedMeans(norm: Norm, c: Vec, r: real, antSets: seq<seq<Vec>>)
    ensures Untouched(norm, c, r, antSets) <==> forall k :: 0 <= k < |antSets| ==> AllOutside(norm, c, r, antSets[k])
  {
    if antSets != [] {
      var n := |antSets| - 1;
      UntouchedMeans(norm, c, r, antSets[..n]);
      assert forall k :: 0 <= k < n ==> antSets[..n][k] == antSets[k];
    }
  }

  /** `OutsideEvery` holds exactly when the ant is farther than each radius from each centre. */
  lemma {:induction false} OutsideEveryMeans(norm: Norm, cs: seq<Vec>, rs: seq<real>, a: Vec)
    requires |cs| == |rs|
    ensures OutsideEvery(norm, cs, rs, a) <==> forall j :: 0 <= j < |cs| ==> Dist(norm, Sub(cs[j], a)) > rs[j]
  {
    if cs != [] {
      var n := |cs| - 1;
      OutsideEveryMeans(norm, cs[..n], rs[..n], a);
      assert forall j :: 0 <= j < n ==> cs[..n][j] == cs[j] && rs[..n][j] == rs[j];
    }
  }

  /**
   * Phase A leaves obstacle `j` exactly where it was when no ant of any
   * collection lies inside its circle, whatever the other obstacles do.
   */
  lemma PhaseAUntouched(norm: Norm, cs: seq<Vec>, rs: seq<real>, ws: seq<real>, antSets: seq<seq<Vec>>, j: nat)
    requires |cs| == |rs| == |ws| && AllPositive(ws) && j < |cs|
    requires forall k, i :: 0 <= k < |antSets| && 0 <= i < |antSets[k]| ==> Dist(norm, Sub(cs[j], antSets[k][i])) > rs[j]
    ensures PhaseA(norm, cs, rs, ws, antSets)[j] == cs[j]
  {
    forall k | 0 <= k < |antSets|
      ensures AllOutside(norm, cs[j], rs[j], antSets[k])
    {
      AllOutsideMeans(norm, cs[j], rs[j], antSets[k]);
    }
    UntouchedMeans(norm, cs[j], rs[j], antSets);
  }

  /**
   * No overlap, no change: when every ant is strictly outside every circle,
   * Phase A leaves every centre where it was and Phase B hands every ant the
   * zero vector.
   */
  lemma NoOverlapTick(norm: Norm, cs: seq<Vec>, rs: seq<real>, ws: seq<real>, antSets: seq<seq<Vec>>)
    requires |cs| == |rs| == |ws| && AllPositive(ws)
    requires forall k, i, j :: 0 <= k < |antSets| && 0 <= i < |antSets[k]| && 0 <= j < |cs| ==>
               Dist(norm, Sub(cs[j], antSets[k][i])) > rs[j]
    ensures PhaseA(norm, cs, rs, ws, antSets) == cs
    ensures forall k, i :: 0 <= k < |antSets| && 0 <= i < |antSets[k]| ==>
              PhaseB(norm, PhaseA(norm, cs, rs, ws, antSets), rs, antSets)[k][i] == Zero
  {
    forall j | 0 <= j < |cs|
      ensures PhaseA(norm, cs, rs, ws, antSets)[j] == cs[j]
    {
      PhaseAUntouched(norm, cs, rs, ws, antSets, j);
    }
    var moved := PhaseA(norm, cs, rs, ws, antSets);
    assert moved == cs;
    forall k, i | 0 <= k < |antSets| && 0 <= i < |antSets[k]|
      ensures PhaseB(norm, moved, rs, antSets)[k][i] == Zero
    {
      OutsideEveryMeans(norm, cs, rs, antSets[k][i]);
    }
  }

  /**
   * One ant more than Eps deep inside one obstacle: the centre moves by a
   * positive multiple of (centre - ant), that is, straight away from the ant.
   */
  lemma SingleAntRecoil(norm: Norm, c: Vec, r: real, w: real, a: Vec)
    requires w > 0.0
    requires Dist(norm, Sub(c, a)) + Eps < r
    ensures -Factor(r, Dist(norm, Sub(c, a))) / w > 0.0
    ensures Step(norm, c, r, w, [a]) == Add(c, Scale(Sub(c, a), -Factor(r, Dist(norm, Sub(c, a))) / w))
  {
    var v := Sub(c, a);
    var f := Factor(r, Dist(norm, v));
    assert f < 0.0;
    assert [a][..0] == [];
    var pen := Penetration(norm, c, r, a);
    assert pen == Scale(v, f);
    assert PushSum(norm, c, r, [a]) == Add(Zero, pen);
    AddZero(pen);
    Recoil(c, v, f, w);
  }

  /**
   * Subtracting the weighted push (v * f) / w from c is adding v scaled by
   * -f / w, and that multiple is positive when f is negative.
   */
  lemma Recoil(c: Vec, v: Vec, f: real, w: real)
    requires w > 0.0
    ensures Sub(c, Div(Scale(v, f), w)) == Add(c, Scale(v, -f / w))
    ensures f < 0.0 ==> -f / w > 0.0
  {
    DivideProduct(v.x, f, w);
    DivideProduct(v.y, f, w);
  }

  /** (u * f) / w == u * (f / w) and the sign of -f / w, one coordinate at a time. */
  lemma DivideProduct(u: real, f: real, w: real)
    requires w > 0.0
    ensures -((u * f) / w) == u * (-f / w)
    ensures f < 0.0 ==> -f / w > 0.0
  {
    var q := f / w;
    assert q * w == f;
    assert (u * q) * w == u * f;
    assert -q == -f / w;
    if f < 0.0 && q >= 0.0 {
      assert false;
    }
  }

  /**
   * Mass sensitivity: for the same ants, an obstacle of weight w2 moves by the
   * displacement it would have at weight w1 scaled by w1 / w2, so a heavier
   * obstacle moves proportionally less.
   */
  lemma MassSensitivity(norm: Norm, c: Vec, r: real, w1: real, w2: real, ants: seq<Vec>)
    requires 0.0 < w1 < w2
    ensures 0.0 < w1 / w2 < 1.0
    ensures Sub(c, Step(norm, c, r, w2, ants)) == Scale(Sub(c, Step(norm, c, r, w1, ants)), w1 / w2)
  {
    var p := PushSum(norm, c, r, ants);
    RatioBelowOne(w1, w2);
    Rescale(p.x, w1, w2);
    Rescale(p.y, w1, w2);
  }

  lemma RatioBelowOne(w1: real, w2: real)
    requires 0.0 < w1 < w2
    ensures 0.0 < w1 / w2 < 1.0
  {
    var k := w1 / w2;
    assert k * w2 == w1;
    if k >= 1.0 {
      assert false;
    }
  }

  /** Dividing by w1 and then scaling by w1 / w2 is dividing by w2. */
  lemma Rescale(u: real, w1: real, w2: real)
    requires 0.0 < w1 && 0.0 < w2
    ensures u / w2 == (u / w1) * (w1 / w2)
  {
    var a, b := u / w1, w1 / w2;
    assert a * w1 == u;
    assert b * w2 == w1;
    assert (a * b) * w2 == u;
  }

  /**
   * Phase B direction: an ant more than Eps deep inside a single obstacle is
   * moved by a positive multiple of (ant - centre), away from the centre.
   */
  lemma SingleObstacleCorrection(norm: Norm, c: Vec, r: real, a: Vec)
    requires Dist(norm, Sub(c, a)) + Eps < r
    ensures -Factor(r, Dist(norm, Sub(c, a))) > 0.0
    ensures Correction(norm, [c], [r], a) == Scale(Sub(a, c), -Factor(r, Dist(norm, Sub(c, a))))
  {
    assert [c][..0] == [] && [r][..0] == [];
  }

  /**
   * Phase A of the scenario of one obstacle of radius 5 and weight 2 and one
   * ant 3 units to the right of its centre `c`: with the norm exact on that
   * centre-to-ant vector, over the reals the centre moves left by
   * 5.997 / 6.002 (about 0.99917), straight away from the ant.
   */
  lemma WorkedScenarioPhaseA(norm: Norm, c: Vec, a: Vec)
    requires a == Vec(c.x + 3.0, c.y)
    requires Dist(norm, Sub(c, a)) == 3.0
    ensures PhaseA(norm, [c], [5.0], [2.0], [[a]]) == [Vec(c.x - 5.997 / 6.002, c.y)]
  {
    assert [[a]][..0] == [];
    SingleAntRecoil(norm, c, 5.0, 2.0, a);
    var m := -Factor(5.0, 3.0) / 2.0;
    RecoilArithmetic(m);
    assert MovedCenter(norm, c, 5.0, 2.0, [[a]]) == Step(norm, c, 5.0, 2.0, [a]);
    assert Step(norm, c, 5.0, 2.0, [a]) == Vec(c.x + -3.0 * m, c.y + 0.0 * m);
  }

  /** The recoil multiple of the scenario, -Factor(5, 3) / 2, times the offset -3. */
  lemma RecoilArithmetic(m: real)
    requires m == -Factor(5.0, 3.0) / 2.0
    ensures -3.0 * m == -5.997 / 6.002
  {
  }

  /**
   * Phase B of the same scenario, against the moved centre `c`: the ant now
   * lies 3 + 5.997 / 6.002 to its right and, with the norm exact there, is
   * pushed along +x by dd * (5 / (dd + Eps) - 1) and not at all along y.
   */
  lemma WorkedScenarioPhaseB(norm: Norm, c: Vec, a: Vec)
    requires a == Vec(c.x + 3.0 + 5.997 / 6.002, c.y)
    requires Dist(norm, Sub(c, a)) == 3.0 + 5.997 / 6.002
    ensures PhaseB(norm, [c], [5.0], [[a]])[0][0]
              == Vec((3.0 + 5.997 / 6.002) * (5.0 / (3.0 + 5.997 / 6.002 + Eps) - 1.0), 0.0)
    ensures PhaseB(norm, [c], [5.0], [[a]])[0][0].x > 0.0
  {
    var dd := 3.0 + 5.997 / 6.002;
    assert [c][..0] == [] && [5.0][..0] == [];
    var f := Factor(5.0, dd);
    assert Correction(norm, [c], [5.0], a) == Vec(-dd * f, 0.0 * f);
    CorrectionArithmetic(dd, f);
  }

  /** The correction of the scenario, -dd * Factor(5, dd), in closed form and positive. */
  lemma CorrectionArithmetic(dd: real, f: real)
    requires dd == 3.0 + 5.997 / 6.002 && f == Factor(5.0, dd)
    ensures -dd * f == dd * (5.0 / (dd + Eps) - 1.0)
    ensures -dd * f > 0.0
  {
  }
}
