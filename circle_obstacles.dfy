/**
 * Circular, movable obstacles that push ants out of their footprint and are
 * pushed back by them, one tick at a time. The centres live in an array that
 * the tick updates in place; radii, weights and the crossed tables are fixed
 * at construction.
 */
module Obstacles {
  import opened Geometry
  import opened Contact

  /** A copy of the obstacle geometry taken for rendering; never updated. */
  class CircleObstaclesVisualization {
    const centers: array<Vec>
    const radiuses: seq<real>
    const weights: seq<real>

    constructor (centers: array<Vec>, radiuses: seq<real>, weights: seq<real>)
      ensures fresh(this.centers)
      ensures this.centers[..] == centers[..]
      ensures this.radiuses == radiuses && this.weights == weights
    {
      this.centers := new Vec[centers.Length](i reads centers requires 0 <= i < centers.Length => centers[i]);
      this.radiuses := radiuses;
      this.weights := weights;
    }
  }

  class CircleObstacles {
    /** Arena width and height, copied from the environment and not used by the tick. */
    const width: int
    const height: int
    const nObst: nat
    /** The caller's array, kept by reference: the tick moves the caller's centres too. */
    const centers: array<Vec>
    const radiuses: seq<real>
    const weights: seq<real>
    const crossedRadiuses: seq<seq<real>>
    const crossedWeights: seq<seq<real>>

    ghost predicate Valid()
    {
      nObst == centers.Length == |radiuses| == |weights|
      && AllPositive(radiuses) && AllPositive(weights)
      && crossedRadiuses == CrossedRadiuses(radiuses)
      && crossedWeights == CrossedWeights(weights)
    }

    constructor (width: int, height: int, centers: array<Vec>, radiuses: seq<real>, weights: seq<real>)
      requires centers.Length == |radiuses| == |weights|
      requires AllPositive(radiuses) && AllPositive(weights)
      ensures Valid()
      ensures this.width == width && this.height == height
      ensures this.centers == centers && this.radiuses == radiuses && this.weights == weights
    {
      this.width := width;
      this.height := height;
      nObst := |radiuses|;
      this.centers := centers;
      this.radiuses := radiuses;
      this.weights := weights;
      crossedRadiuses := CrossedRadiuses(radiuses);
      crossedWeights := CrossedWeights(weights);
    }

    /** A snapshot that shares no array with this object. */
    method VisualizeCopy() returns (snap: CircleObstaclesVisualization)
      ensures fresh(snap) && fresh(snap.centers)
      ensures snap.centers[..] == centers[..]
      ensures snap.radiuses == radiuses && snap.weights == weights
    {
      snap := new CircleObstaclesVisualization(centers, radiuses, weights);
    }

    /**
     * One tick: Phase A moves the centres in place, then Phase B computes,
     * against the moved centres, the displacement handed to each ant
     * collection (one vector per ant, in collection order).
     */
    method Update(norm: Norm, antSets: seq<seq<Vec>>) returns (displacements: seq<seq<Vec>>)
      requires Valid()
      modifies centers
      ensures centers[..] == PhaseA(norm, old(centers[..]), radiuses, weights, antSets)
      ensures displacements == PhaseB(norm, centers[..], radiuses, antSets)
    {
      PushObstacles(norm, antSets);
      displacements := Corrections(norm, antSets);
    }

    /** Phase A: every collection in turn pushes every obstacle by its summed penetration over its weight. */
    method PushObstacles(norm: Norm, antSets: seq<seq<Vec>>)
      requires Valid()
      modifies centers
      ensures centers[..] == PhaseA(norm, old(centers[..]), radiuses, weights, antSets)
    {
      var k := 0;
      while k < |antSets|
        invariant 0 <= k <= |antSets|
        invariant forall j :: 0 <= j < nObst ==>
                    centers[j] == MovedCenter(norm, old(centers[j]), radiuses[j], weights[j], antSets[..k])
      {
        assert antSets[..k + 1][..k] == antSets[..k];
        PushCollection(norm, antSets[k]);
        k := k + 1;
      }
      assert antSets[..k] == antSets;
    }

    /** Phase A for one ant collection: every centre moves by that collection's weighted push. */
    method PushCollection(norm: Norm, ants: seq<Vec>)
      requires Valid()
      modifies centers
      ensures forall j :: 0 <= j < nObst ==>
                centers[j] == Step(norm, old(centers[j]), radiuses[j], weights[j], ants)
    {
      var j := 0;
      while j < nObst
        invariant 0 <= j <= nObst
        invariant forall i :: 0 <= i < j ==> centers[i] == Step(norm, old(centers[i]), radiuses[i], weights[i], ants)
        invariant forall i :: j <= i < nObst ==> centers[i] == old(centers[i])
      {
        var push := TotalPenetration(norm, centers[j], radiuses[j], ants);
        centers[j] := Sub(centers[j], Div(push, weights[j]));
        j := j + 1;
      }
    }

    /** Phase B: for every ant, the sum over the obstacles of its penetration vectors. */
    method Corrections(norm: Norm, antSets: seq<seq<Vec>>) returns (displacements: seq<seq<Vec>>)
      requires Valid()
      ensures displacements == PhaseB(norm, centers[..], radiuses, antSets)
    {
      displacements := [];
      var k := 0;
      while k < |antSets|
        invariant 0 <= k <= |antSets|
        invariant displacements == PhaseB(norm, centers[..], radiuses, antSets[..k])
      {
        var ants := antSets[k];
        var row: seq<Vec> := [];
        var i := 0;
        while i < |ants|
          invariant 0 <= i <= |ants|
          invariant |row| == i
          invariant forall m :: 0 <= m < i ==> row[m] == Correction(norm, centers[..], radiuses, ants[m])
        {
          var d := AntCorrection(norm, ants[i]);
          row := row + [d];
          i := i + 1;
        }
        ghost var next := PhaseB(norm, centers[..], radiuses, antSets[..k + 1]);
        assert forall m :: 0 <= m < k ==> next[m] == displacements[m];
        assert next[k] == row;
        displacements := displacements + [row];
        assert next == displacements;
        k := k + 1;
      }
      assert antSets[..k] == antSets;
    }

    /** The Phase B displacement of one ant. */
    method AntCorrection(norm: Norm, a: Vec) returns (d: Vec)
      requires Valid()
      ensures d == Correction(norm, centers[..], radiuses, a)
    {
      d := Zero;
      var j := 0;
      while j < nObst
        invariant 0 <= j <= nObst
        invariant d == Correction(norm, centers[..j], radiuses[..j], a)
      {
        assert centers[..j + 1][..j] == centers[..j] && radiuses[..j + 1][..j] == radiuses[..j];
        d := Add(d, Penetration(norm, centers[j], radiuses[j], a));
        j := j + 1;
      }
      assert centers[..j] == centers[..] && radiuses[..j] == radiuses;
    }

    /** The tick schedules nothing for later: its delay is always zero. */
    method UpdateStep() returns (delay: int)
      ensures delay == 0
    {
      delay := 0;
    }
  }

  /** Sum over the ants of their penetration vectors into one obstacle. */
  method TotalPenetration(norm: Norm, c: Vec, r: real, ants: seq<Vec>) returns (s: Vec)
    ensures s == PushSum(norm, c, r, ants)
  {
    s := Zero;
    var i := 0;
    while i < |ants|
      invariant 0 <= i <= |ants|
      invariant s == PushSum(norm, c, r, ants[..i])
    {
      assert ants[..i + 1][..i] == ants[..i];
      s := Add(s, Penetration(norm, c, r, ants[i]));
      i := i + 1;
    }
    assert ants[..i] == ants;
  }

  /**
   * A snapshot taken before a tick keeps the geometry of the moment it was
   * taken, while the live centres move.
   */
  method SnapshotSurvivesUpdate(o: CircleObstacles, norm: Norm, antSets: seq<seq<Vec>>)
    returns (snap: CircleObstaclesVisualization)
    requires o.Valid()
    modifies o.centers
    ensures snap.centers[..] == old(o.centers[..])
    ensures snap.radiuses == o.radiuses && snap.weights == o.weights
    ensures o.centers[..] == PhaseA(norm, old(o.centers[..]), o.radiuses, o.weights, antSets)
  {
    snap := o.VisualizeCopy();
    var _ := o.Update(norm, antSets);
  }
}
