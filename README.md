# ModelParameter — blend weights of a 3D morphable model

`ModelParameter` holds the weights that blend `modelCount` base morphable
models into one instance: one array of weights for vertex positions and one
for colours. Each array normally sums to one, so it describes a convex blend
of the base models. The object is built as the identity blend (all weight on
model 0) or as a random blend (cubed uniform samples, normalised). Two
parameters are combined with `linearApplication`, which gives
`(1 - alpha) * this + alpha * target` entry by entry.

The model has two modules.

- `Weights` (`weights.dfy`) holds the vector algebra as functions on `seq<real>`:
  - `Sum`, accumulated from index 0 upwards as the source's loops do;
  - `IsConvex`: non-negative entries that sum to one;
  - `Identity`;
  - the per-entry formula `Lerp` and its lifting `Interpolate`;
  - `DividedBy` and `Normalized`.

  It also holds the lemmas that state what these operations preserve.
- `Model` (`model_parameter.dfy`) holds the class `ModelParameter`. Its two
  `const` array fields, like the source's `final double[]` fields, are filled
  and overwritten in place by loops:
  - the constructor;
  - `GetRandom`;
  - `Normalize`;
  - `LinearApplication`.

  Each loop is proved against the functions of `Weights`. `BlendScenario` is a
  client. It sets a parameter's weights by writing through the accessors'
  live arrays. It then checks the three-model blend `[1,0,0]`/`[0,1,0]` at
  `alpha = 0.5`, which gives `[0.5,0.5,0]`, and the mismatched-size failure.

Java `double` is modelled as `real`: the properties are algebraic (exact sums
and convexity), not about rounding. `Math.random()` followed by
`Math.pow(_, 3.0)` becomes injected sample sequences, one per weight array,
that `GetRandom` cubes with `Cube`. The thrown `IllegalArgumentException`
becomes `Failure(IllegalArgument("Incoherent number of model count."))` of a
`Result`.

## Model

| member | source | states |
|---|---|---|
| `Model.ModelParameter.constructor` | src/model/ModelParameter.java:33-45 | given `modelCount >= 1`, both arrays are fresh and distinct, have length `modelCount`, hold 1 at index 0 and 0 everywhere else, and are convex |
| `Weights.IdentityIsConvex` | src/model/ModelParameter.java:38-44 | the identity vector has length n, entry 0 equal to 1, every other entry 0, non-negative entries and sum exactly 1 |
| `Model.ModelParameter.GetRandom` | src/model/ModelParameter.java:17-28 | returns a fresh valid parameter of `modelCount` models; each array is the cubed samples divided by their total (`RandomWeights`) |
| `Model.RandomWeights` | src/model/ModelParameter.java:13-28 | the random-construction vector has one entry per sample and is convex: entries at least 0 that sum to 1 |
| `Model.CubesPositiveTotal` | src/model/ModelParameter.java:20-23 | cubing non-negative samples gives non-negative weights, and one positive sample makes their total positive, so normalising them is defined |
| `Model.ModelParameter.Normalize` | src/model/ModelParameter.java:88-100 | given non-zero totals, it divides every entry of each array in place by that array's old total; afterwards each array sums to 1 and keeps its length |
| `Weights.SumDividedBy` | src/model/ModelParameter.java:97-100 | dividing every entry by d divides the sum by d |
| `Weights.NormalizedSumsToOne` | src/model/ModelParameter.java:88-100 | a vector divided by its own non-zero total sums to 1 |
| `Weights.NormalizedIsConvex` | src/model/ModelParameter.java:13-16 | a non-negative vector with a positive total becomes convex when normalised |
| `Weights.ConvexEntriesAtMostOne` | src/model/ModelParameter.java:13-16 | every entry of a convex weight vector (non-negative, sum 1), as normalisation produces, lies in [0, 1] |
| `Model.ModelParameter.LinearApplication` | src/model/ModelParameter.java:65-77 | fails with the invalid-argument error exactly when the model counts differ. Otherwise it returns a fresh parameter of the same count whose entry x is `(1-alpha)*this[x] + alpha*target[x]` in both arrays. Neither operand's arrays change |
| `Weights.SumInterpolate` | src/model/ModelParameter.java:62-74 | the sum of the blend is `(1-alpha)` times the first sum plus `alpha` times the second |
| `Weights.InterpolateKeepsUnitSum` | src/model/ModelParameter.java:62-74 | blending two unit-sum vectors gives a unit-sum vector for every alpha, extrapolation included |
| `Weights.LerpBetween` | src/model/ModelParameter.java:72-73 | for alpha in [0, 1], each blended entry lies between the two operands' entries |
| `Weights.InterpolateKeepsConvex` | src/model/ModelParameter.java:62-74 | for alpha in [0, 1], blending two convex vectors gives a convex vector (sum 1, no negative entry) |
| `Weights.InterpolateEndpoints` | src/model/ModelParameter.java:62-74 | alpha = 0 reproduces the first operand and alpha = 1 the second, entry by entry |
| `Model.ModelParameter.GetModelCount` | src/model/ModelParameter.java:47-50 | the count is at least 1 and equals the length of both weight arrays |
| `Model.ModelParameter.GetVerticesWeight` | src/model/ModelParameter.java:52-55 | returns the object's own vertex-weight array, not a copy, so writes through it change the parameter |
| `Model.ModelParameter.GetColorWeight` | src/model/ModelParameter.java:57-60 | returns the object's own colour-weight array, not a copy, so writes through it change the parameter |

## Left out

- `toString` (src/model/ModelParameter.java:79-86): a diagnostic rendering that depends on Java's `double` formatting. It is not a parseable format.
- `Log.debug` (src/model/ModelParameter.java:101): a logging side channel through `util.Log`, which is not part of this model.
- `Math.random` and `Math.pow`: foreign calls. They are replaced by injected samples (`vertexDraws`, `colorDraws`), which `Cube` raises to the power 3. The source draws the samples interleaved (vertex, colour, vertex, …); the model receives the two streams already separated.
- IEEE-754 rounding: weights are exact reals, so every "sums to 1" holds exactly rather than within rounding error.
- Model.ModelParameter.constructor: requires `modelCount >= 1`. With 0 the source fails at index 0 (`ArrayIndexOutOfBoundsException`), and with a negative count it throws `NegativeArraySizeException`. Neither failure is modelled.
- Model.ModelParameter.Normalize: requires both totals to be non-zero. With a zero total the source silently produces NaN or infinite weights; that is not modelled.
- Model.ModelParameter.GetRandom: requires non-negative samples, at least one of them positive per array, so that `Normalize` is defined. `Math.random()` returns values in [0, 1), but an all-zero draw, which the source turns into NaN weights, is excluded.
- A null `targetParam` (a `NullPointerException` in the source) cannot occur: Dafny references of type `ModelParameter` are non-null.
