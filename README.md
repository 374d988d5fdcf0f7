# Circle obstacles: obstacle–ant collision resolution

This project is a Dafny model of the collision kernel of the AntsRL arena, the `CircleObstacles` class in `environment/circle_obstacles.py`. The arena holds N circular obstacles. Each has a centre, a radius and a weight. Point-like ants move among them. On every tick the obstacles and the ants push each other apart:

- **Phase A.** Every collection of ants, in order, pushes every obstacle. For an ant at `a` and an obstacle at `c` with radius `r`, let `v = c - a` and `d = |v|`. The penetration vector is `v * (1 - r / (d + 0.001))`. It is forced to the zero vector when `d > r`. For each obstacle, the penetration vectors are summed over the ants, divided by the obstacle's weight and subtracted from its centre, in place. A later collection sees the centres already moved by earlier ones.
- **Phase B.** The same penetration vectors are computed again, this time against the moved centres. For each ant they are summed over the obstacles, and each collection receives one displacement per ant.

The model has four modules:

- `Geometry` (`geometry.dfy`): plane vectors over the reals and an abstract Euclidean length `Norm`.
- `Contact` (`contact.dfy`): the pure part. It holds the crossed tables built at construction, the overlap factor and the masked penetration vector. It also gives both phases as functions of the geometry and the ant positions: `PushSum`, `Step`, `MovedCenter` and `PhaseA` for Phase A, and `Correction` and `PhaseB` for Phase B.
- `Properties` (`properties.dfy`): lemmas about those functions.
- `Obstacles` (`circle_obstacles.dfy`): the imperative class.
  - `CircleObstacles` keeps the centres in an `array<Vec>`. That array is the caller's own array, kept by reference as the source does.
  - `Update` runs Phase A with loops that update the array in place, then Phase B. Each method is proved against the `Contact` functions.
  - `CircleObstaclesVisualization` is the snapshot: a fresh copy of the geometry.

Interfaces to the rest of the system:

- The square root of floating point is replaced by an abstract norm, a parameter that is only known to be non-negative.
- The environment's list of objects, filtered to ant collections, becomes a `seq<seq<Vec>>` of ant positions, one sequence per collection, in list order.
- The calls to `translate_ants` become the sequence of displacement sequences that `Update` returns, one per collection, in the same order.

The `Norm` parameter stands in for the square root of the sum of squares. It is abstract because real square roots are not computable, and this keeps the proofs cheap. The worked-scenario lemmas take the two lengths they need as hypotheses.

Behaviour the model takes from the code as written:

- The constructor performs no validation. Equal lengths and positive radii and weights are preconditions, not an `InvalidGeometry` error.
- Obstacle–obstacle repulsion is commented out, so it is not part of the tick.
- Take one obstacle (radius 5, weight 2) and one ant 3 units to the right of its centre. Over the reals, the model moves the centre 5.997 / 6.002 (about 0.99917) to the left. Floating point would round this value.
- The overlap factor `1 - r / (d + 0.001)` is continuous in `d`. The masked penetration vector is not. At `d = r` it is `(c - a) * 0.001 / (r + 0.001)`, and for any `d > r` it is the zero vector, so it jumps at the circle's edge. For any `d` with `r - 0.001 < d <= r` the factor is positive. In that band an obstacle moves slightly towards the ant, and the ant is drawn slightly towards the centre. `Contact.Factor` and `Properties.EdgePenetration` state this exactly.

## Model

| member | source | states |
|---|---|---|
| `Geometry.Dist` | environment/circle_obstacles.py:46 | the length of the centre-to-ant vector is never negative, which keeps the guarded denominator `d + 0.001` positive |
| `Contact.CrossedRadiuses` | environment/circle_obstacles.py:36 | the radius table is N x N and symmetric: entry `[i][j]` equals entry `[j][i]` |
| `Contact.CrossedWeights` | environment/circle_obstacles.py:37 | with positive weights the table is N x N and every entry lies strictly between 0 and 1 |
| `Contact.Factor` | environment/circle_obstacles.py:47 | the overlap factor is negative iff `d + 0.001 < r` and zero iff `d + 0.001 == r`; it is positive at `d == r` |
| `Contact.Penetration` | environment/circle_obstacles.py:45-48 | a non-zero penetration vector comes only from an ant within distance `r`; an ant exactly at the centre contributes the zero vector |
| `Contact.PushSum` | environment/circle_obstacles.py:48-50 | ants that are all strictly outside a circle sum to the zero push on it |
| `Contact.Step` | environment/circle_obstacles.py:45-50 | one collection with no ant inside an obstacle's circle leaves that centre unchanged |
| `Contact.MovedCenter` | environment/circle_obstacles.py:43-50 | an obstacle whose circle holds no ant of any collection keeps its centre through all of Phase A |
| `Contact.PhaseA` | environment/circle_obstacles.py:42-50 | Phase A yields exactly one new centre per obstacle (the obstacle count is preserved) |
| `Contact.Correction` | environment/circle_obstacles.py:63-68 | an ant strictly outside every circle gets the zero displacement |
| `Contact.PhaseB` | environment/circle_obstacles.py:61-68 | Phase B yields one displacement sequence per collection, each as long as that collection's ant count |
| `Properties.CrossedRadiusesSymmetric` | environment/circle_obstacles.py:36 | the N x N radius table has entry `r[i] + r[j]` and is symmetric |
| `Properties.CrossedWeightsComplement` | environment/circle_obstacles.py:37 | with positive weights, `cw[i][j] + cw[j][i] == 1` and each entry lies strictly between 0 and 1 |
| `Properties.OutsideAntDropsOut` | environment/circle_obstacles.py:48-50 | adding an ant strictly farther than `r` from the centre to a collection does not change the push on that obstacle |
| `Properties.OutsideObstacleDropsOut` | environment/circle_obstacles.py:67-68 | adding an obstacle whose circle does not reach the ant does not change that ant's correction |
| `Properties.EdgePenetration` | environment/circle_obstacles.py:45-48 | an ant exactly on the circle (`d == r > 0`) is not masked: it contributes `(c - a) * 0.001 / (r + 0.001)`, a positive multiple |
| `Properties.AllOutsideMeans` | environment/circle_obstacles.py:48 | the recursive "all ants outside" predicate holds iff every ant's distance exceeds `r` |
| `Properties.UntouchedMeans` | environment/circle_obstacles.py:43-48 | the recursive "untouched" predicate holds iff every collection is all outside the circle |
| `Properties.OutsideEveryMeans` | environment/circle_obstacles.py:67 | the recursive "outside every circle" predicate holds iff the ant's distance to each centre exceeds that radius |
| `Properties.PhaseAUntouched` | environment/circle_obstacles.py:43-50 | in the whole-array Phase A, an obstacle with no ant of any collection within its radius keeps its old centre exactly |
| `Properties.NoOverlapTick` | environment/circle_obstacles.py:42-68 | if every ant is strictly outside every circle, Phase A returns the centres unchanged and Phase B gives every ant the zero vector |
| `Properties.SingleAntRecoil` | environment/circle_obstacles.py:45-50 | one ant more than 0.001 deep in one obstacle moves the centre to `c + (c - a) * m` with `m = -factor / w > 0`, i.e. directly away from the ant |
| `Properties.MassSensitivity` | environment/circle_obstacles.py:50 | for the same ants, the displacement at weight `w2 > w1` is the displacement at `w1` scaled by `w1 / w2`, a factor in (0, 1) |
| `Properties.SingleObstacleCorrection` | environment/circle_obstacles.py:63-68 | an ant more than 0.001 deep in a single obstacle is displaced by a positive multiple of `a - c`, i.e. away from the centre |
| `Properties.WorkedScenarioPhaseA` | environment/circle_obstacles.py:43-50 | radius 5, weight 2, an ant 3 to the right of the centre `c`: over the reals, Phase A moves the centre to `(c.x - 5.997/6.002, c.y)` |
| `Properties.WorkedScenarioPhaseB` | environment/circle_obstacles.py:61-68 | the same scenario against the moved centre: the ant's displacement is exactly `(dd * (5 / (dd + 0.001) - 1), 0)` with `dd = 3 + 5.997/6.002`, so it points along +x |
| `Obstacles.CircleObstaclesVisualization.constructor` | environment/circle_obstacles.py:18-23 | the snapshot's centre array is freshly allocated and equal to the given one; radii and weights are equal too |
| `Obstacles.CircleObstacles.constructor` | environment/circle_obstacles.py:26-37 | keeps the caller's centre array by reference; `n_obst == N`; the crossed tables are computed from the radii and weights |
| `Obstacles.CircleObstacles.VisualizeCopy` | environment/circle_obstacles.py:39-40 | returns a fresh snapshot whose arrays equal the current ones and share no storage with them |
| `Obstacles.CircleObstacles.Update` | environment/circle_obstacles.py:42-68 | changes only the centre array: new centres are `PhaseA` of the old ones, and the returned displacements are `PhaseB` of the new centres |
| `Obstacles.CircleObstacles.PushObstacles` | environment/circle_obstacles.py:43-50 | the in-place loops over collections and obstacles leave the array equal to `PhaseA` of its old contents |
| `Obstacles.CircleObstacles.PushCollection` | environment/circle_obstacles.py:45-50 | one collection's pass moves every centre to `Step` of its old value: old centre minus summed penetration over weight |
| `Obstacles.CircleObstacles.Corrections` | environment/circle_obstacles.py:61-68 | the loops return `PhaseB` of the current centres, without changing anything |
| `Obstacles.CircleObstacles.AntCorrection` | environment/circle_obstacles.py:63-68 | the loop over obstacles returns the ant's summed penetration vector (`Correction`) |
| `Obstacles.TotalPenetration` | environment/circle_obstacles.py:45-50 | the loop over ants returns the summed penetration vector into one obstacle (`PushSum`) |
| `Obstacles.CircleObstacles.UpdateStep` | environment/circle_obstacles.py:70-71 | always returns 0 |
| `Obstacles.SnapshotSurvivesUpdate` | environment/circle_obstacles.py:21-23 | a snapshot taken before a tick still holds the pre-tick centres after the live array has moved |

## Left out

- environment/circle_obstacles.py:5-16, the import-time block. It opens `assets/dirt.png`, decodes the diagonal pixels into text, writes that text to `t.py`, launches it as a separate process and deletes it. This executes hidden code carried inside an image. It has nothing to do with obstacles and should be treated as malicious. It is not modelled.
- environment/circle_obstacles.py:52-59, obstacle–obstacle repulsion. It is commented out, so it plays no part in a tick.
- Geometry.Dist: the length is the abstract `Norm`, assumed only non-negative. Floating-point `**0.5` is not reproduced, and no Euclidean identity is used.
- Floating point in general: all arithmetic is on exact reals, with no rounding and no overflow. Weights of zero, which numpy would turn into infinities, are excluded by the preconditions.
- The environment: `Environment`, `EnvObject`, `Ants` and `Ants.translate_ants` are not part of this model.
  - The base-class registration and the `newenv` argument of `visualize_copy` are dropped.
  - The `isinstance` scan becomes an explicit sequence of ant collections. The same `Ants` object appearing twice is not considered.
  - `translate_ants` becomes a returned value instead of a call.
- The M x N matrix of pair vectors is not materialised. Each pair's masked vector is computed where it is summed. In Phase A each obstacle's update depends only on its own centre, so updating the array one obstacle at a time gives the same result as numpy's whole-array subtraction.
- The claim that Phase B differs for stale versus moved centres is not proved, because it does not hold in general. `Update`'s contract fixes Phase B to the moved centres instead.
