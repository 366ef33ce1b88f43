# Skeletal pose engine of a Unity skinning prototype

This project models the pose code of `Assets/Skeleton.cs` and proves properties about it. That code has three parts:

- **The bone hierarchy.** An abstract `BaseBone` has a local position, a rotation and a `Previous` (parent) link. Its two kinds, `RootBone` and `Bone`, compute two transforms by recursion over `Previous`:
  - the world current-pose transform;
  - the local base-pose (bind) transform.
- **The `Skeleton` constructor.** It logs an exception for every influence weight outside [0, 1]. As written, it then throws `NullReferenceException` at line 25, because its check for a bone with the id `"root"` reads the field `_boneIdBoneDictionary` before line 30 assigns it; so it never logs the missing-root report and stores nothing. The model's constructor runs that check on the argument, logs the missing-root report when "root" is absent, and stores both dictionaries (see "## Findings").
- **`Skeleton.TransformVertices`.**
  1. It copies the base-pose vertex array.
  2. For every vertex it folds over the vertex's (bone id, weight) influences. Weights with magnitude below 0.000001 are skipped. Each step adds `current * base * (v, 1)` and then multiplies the whole running sum by the weight.
  3. It divides by the number of bones in the dictionary.
  4. It writes the result into the new array.

Files:

- `unity_math.dfy`, module `UnityMath`:
  - The Unity vector and quaternion records, over `real`.
  - An opaque `Matrix4x4`. The matrix product, `.inverse`, `Matrix4x4.TRS` with unit scale, matrix-times-vector and the identity are values of a `MatrixLibrary` record.
  - The algebraic laws the proofs need, as predicates (`Associative`, `RigidLaws`, `InverseReversesProducts`, `IdentityLeavesVectors`). The lemmas that need a law take it as a hypothesis.
- `bones.dfy`, module `Bones`:
  - Bones live in an arena (`seq<BaseBone>`), and `previous` is the arena index of the parent.
  - `WellFormed` (every parent index is below its child's) stands for "every `Previous` chain ends at a `RootBone`".
  - `CurrentPose` and `BasePose` are the two recursive methods.
- `skinning.dfy`, module `Skinning`:
  - The bone dictionary is a `map` from id to arena index.
  - The vertex dictionary and each vertex's influence dictionary are ordered sequences, because enumeration order decides the order of the log and, through the scaled running sum, the result.
  - `Debug.LogException` appends to a `DebugLog`.
  - `Skeleton` is a class. Its constructor runs the validation loops, `TransformVertices` is the array loop, and `SetLocalTransform` is an assignment to a bone's public fields.

What the proofs show:

- **Chain products.** The current pose of a bone is the product of the local TRS matrices from its root down to it. The base pose is the product of the inverted local matrices from the bone up to its root, where the root's matrix has no translation.
- **The skinning matrix depends on the root alone.** A bone's base pose and its current pose are built from the same `LocalPosition` and `Rotation` fields, so `current * base` telescopes. For every bone it equals `TRS(rootPosition, rootRotation) * TRS(0, rootRotation).inverse`. Two consequences follow:
  - reposing any bone that is not a root never changes a skinned vertex (`ReposingBoneLeavesAccumulationUnchanged`);
  - with the root at the origin, every skinning matrix is the identity.

  Both hold for unit-quaternion rotations. The source keeps no separate bind-time fields, so posing a bone below a root has no effect on the mesh; the design's per-bone animation needs a bind pose held apart from the live pose.
- **Where the code and the intended design disagree, the model follows the code.** The intended skinning is a weighted sum of the per-bone terms divided by the sum of the weights. The code does two other things:
  - it multiplies its running sum by each weight;
  - it divides by the dictionary's bone count.

  `TransformVertices` is proved against the fold as written. A closed form (`WeightedSum`) shows that each term is scaled by the product of its own weight and all later weights. The renormalized blend is modelled separately; see "## Findings".

## Model

| member | source | states |
|---|---|---|
| Bones.CurrentPose | Assets/Skeleton.cs:89-105 | `GetWorldCurrentPoseTransformation`: a root gives `TRS(LocalPosition, Rotation)`; a bone gives `Current(Previous) * TRS(LocalPosition, Rotation)` |
| Bones.BasePose | Assets/Skeleton.cs:84-100 | `GetLocalBasePoseTransformation`: a root gives `TRS(0, Rotation).inverse`; a bone gives `TRS(LocalPosition, Rotation).inverse * Base(Previous)` |
| Bones.RootOf | Assets/Skeleton.cs:76 | following `Previous` from any bone of a well-formed arena reaches a `RootBone` at an index not above the bone's own |
| Bones.Path | Assets/Skeleton.cs:76 | the chain of bones from the root to bone i: it starts at the root, ends at i, stays in the arena, and each element is the `Previous` of the next |
| Bones.CurrentPoseIsChainProduct | Assets/Skeleton.cs:89-105 | the world current-pose transform of a bone is the product of the local `TRS(LocalPosition, Rotation)` matrices from the root down to the bone, in that order (given an associative product) |
| Bones.BasePoseIsReversedInverseProduct | Assets/Skeleton.cs:84-100 | the base-pose transform of a bone is the product of the inverted local matrices from the bone up to the root, where the root contributes `TRS(0, Rotation).inverse` |
| Bones.BasePoseInvertsCurrentPoseAtOrigin | Assets/Skeleton.cs:84-105 | the base pose of a bone is the inverse of the current pose of the same chain with every root moved to the origin (given that inversion reverses products) |
| Bones.BasePoseIgnoresRootPosition | Assets/Skeleton.cs:86 | moving a root bone to any position leaves the base pose of every bone unchanged |
| Bones.SkinningMatrixDependsOnRootOnly | Assets/Skeleton.cs:57-105 | `current * base` of every bone equals `TRS(rootPosition, rootRotation) * TRS(0, rootRotation).inverse` for its root bone (given the rigid-transform laws and unit-quaternion rotations) |
| Bones.SkinningMatrixIsIdentityAtOrigin | Assets/Skeleton.cs:57-105 | with its root bone at the origin, a bone's skinning matrix `current * base` is the identity |
| Skinning.Lookup | Assets/Skeleton.cs:50 | the vertex dictionary yields influences for v exactly when it has an entry for v, and then the influences of the first such entry |
| Skinning.InfluenceReports | Assets/Skeleton.cs:17-21 | the reports of the inner validation loop over one vertex's influences, in enumeration order: one weight report per weight outside [0, 1] |
| Skinning.WeightReports | Assets/Skeleton.cs:15-22 | the reports of the outer validation loop: the inner loop's reports for each vertex entry, in enumeration order |
| Skinning.ConstructorAsWritten | Assets/Skeleton.cs:25-30 | the constructor as written: the weight reports are logged, then the root check on the still-null field throws |
| Skinning.InfluenceReportsExactly | Assets/Skeleton.cs:17-21 | the inner validation loop over one vertex reports (v, id, w) exactly when w is outside [0, 1] and (id, w) is one of the vertex's influences, and never reports a missing root |
| Skinning.WeightReportsExactly | Assets/Skeleton.cs:15-22 | the validation loops report (v, id, w) exactly when w < 0 or w > 1 and vertex v has influence (id, w); 0 and 1 are accepted; they never report a missing root |
| Skinning.ConstructionReportsExactly | Assets/Skeleton.cs:15-26 | the construction whose root check reads the argument logs a missing-root report exactly when "root" is not a key of the bone dictionary, and a weight report exactly for the out-of-range weights |
| Skinning.AsWrittenAlwaysThrows | Assets/Skeleton.cs:25-30 | the constructor as written logs the weight reports, then throws on the null field, for every argument, and so never reports a missing root; the same check on the argument completes with exactly the construction reports |
| Skinning.Step | Assets/Skeleton.cs:52-60 | one iteration of the inner loop: a weight of magnitude below 0.000001 leaves the sum; otherwise the bone's term `current * base * (v, 1)` is added and the whole sum is multiplied by the weight |
| Skinning.Accumulate | Assets/Skeleton.cs:47-61 | `newPosition` after the inner loop: `Step` folded from the zero vector over the influences in enumeration order |
| Skinning.WeightedSumSnoc | Assets/Skeleton.cs:50-61 | appending one influence to the closed form performs exactly one iteration of the inner loop: skip a negligible weight, otherwise add the bone's term and scale the whole sum by the weight |
| Skinning.AccumulateIsWeightedSum | Assets/Skeleton.cs:47-61 | the inner loop's accumulator equals the sum, over retained influences, of each bone's skinning term scaled by the product of its own weight and the weights of all later retained influences |
| Skinning.NegligibleInfluenceIgnored | Assets/Skeleton.cs:52-54 | removing an influence whose weight has magnitude below 0.000001 leaves the accumulated position exactly as it was |
| Skinning.BoneTermAtRest | Assets/Skeleton.cs:56-59 | a bone whose root sits at the origin contributes the unchanged point `(v, 1)` (given unit-quaternion rotations) |
| Skinning.AsWrittenDistortsRestPose | Assets/Skeleton.cs:42-63 | at the rest pose, influences (0.3, 0.3) accumulate `p * 0.39`, and dividing by any bone count never gives back a vertex with non-zero x |
| Skinning.Blend | Assets/Skeleton.cs:41-63 | the renormalized blend the comment at line 41 asks for: the sum of each retained term scaled by its own weight, divided by the sum of the retained weights, and nothing when that sum is zero |
| Skinning.WeightedTermsAtRest | Assets/Skeleton.cs:41-60 | at the rest pose, the weighted sum of the terms of the renormalized blend is the point scaled by the sum of the retained weights |
| Skinning.BlendRestoresRestPose | Assets/Skeleton.cs:41-63 | at the rest pose, the renormalized blend returns every vertex unchanged whenever the retained weights do not sum to zero, and is undefined when they do |
| Skinning.ReposedWellFormed | Assets/Skeleton.cs:74-75 | reassigning a bone's local position and rotation keeps every `Previous` chain finite |
| Skinning.RootOfReposed | Assets/Skeleton.cs:74-76 | reassigning a bone's local position and rotation keeps the root of every chain |
| Skinning.ReposingBoneLeavesAccumulationUnchanged | Assets/Skeleton.cs:47-75 | reassigning the local position and rotation (a unit quaternion) of a bone that is not a root leaves the accumulated position of every vertex unchanged |
| Skinning.ReposedUnitRotations | Assets/Skeleton.cs:74-75 | assigning a unit-quaternion `Rotation` to one bone keeps every bone's rotation a unit quaternion |
| Skinning.Skeleton.constructor | Assets/Skeleton.cs:12-32 | the constructor appends to the log exactly the weight reports in enumeration order, then the missing-root report when "root" is absent, and stores both dictionaries |
| Skinning.Skeleton.SetLocalTransform | Assets/Skeleton.cs:74-75 | assigning `LocalPosition` and `Rotation` of one bone changes only that bone's two fields, keeps the arena well formed, and keeps every rotation a unit quaternion when the new one is |
| Skinning.Skeleton.TransformVertices | Assets/Skeleton.cs:35-68 | returns a new array of the input's length and leaves the input unchanged. Element i is the inner fold for vertex i (each retained weight scales the running sum) divided by the bone dictionary's size, whatever the weights and however many were skipped |

## Left out

- `Assets/AnimationController.cs` is not part of this model. It is a `MonoBehaviour` lifecycle driven by a Kinect sensor, and its loading and updating are stubs.
- `Assets/RiggedShaderHelper.cs` is not part of this model. It only allocates GPU buffers and binds materials.
- `Assets/ExtensionMethods.cs` is not part of this model. It only copies mesh properties through Unity setters.
- The entries of `Matrix4x4` are not modelled. This covers the arithmetic of `Matrix4x4.TRS` and `.inverse`, and quaternion-to-matrix conversion. The operations are uninterpreted, and the laws a lemma needs are among its hypotheses.
- Unity's `float` rounding is not modelled, because scalars are `real`. The 0.000001 threshold and the [0, 1] bounds are exact.
- Skeleton.TransformVertices: called with vertices and an empty bone dictionary, the source divides by zero and yields NaN/infinity. The precondition excludes that case, since NaN is not modelled.
- Skeleton.TransformVertices: the source throws `KeyNotFoundException` for a vertex index missing from the vertex dictionary or a retained bone id missing from the bone dictionary. It also throws `NullReferenceException` for a `Previous` chain that does not end at a `RootBone`. The precondition `CanTransform` excludes these inputs rather than modelling the exceptions.
- The text of the logged exceptions is not modelled, and neither is `Debug.LogException` as console I/O. The log is a sequence of structured reports.
- The rigid-transform laws (`RigidLaws`) only make a TRS matrix invertible for a unit-quaternion rotation, so the lemmas that cancel a TRS matrix against its inverse require every bone's rotation to be a unit quaternion (`UnitRotations`). For other quaternions, Unity's TRS can have a singular rotation block, and nothing is proved.
- The vertex table and each influence table are sequences that may repeat a key, which a C# `Dictionary` cannot. With repeated keys, the validation loops visit every entry, while `Lookup` returns the first. Repeated keys have no counterpart in the source.
- Bone objects are not modelled as heap objects. A bone is an arena index, so a cyclic `Previous` graph cannot be expressed.
- Skeleton.constructor: it checks the argument (see "## Findings"). `Skinning.ConstructorAsWritten` models the source's read of the null field.

## Findings

| source | as written | input that shows it | evidently intended | confidence | as-written member | corrected member |
|---|---|---|---|---|---|---|
| Assets/Skeleton.cs:25 | the "root" check reads the field `_boneIdBoneDictionary`, which is only assigned at line 30 and is still null | any arguments, e.g. an empty bone dictionary and an empty vertex dictionary: the constructor throws `NullReferenceException` after the weight checks | check the argument `boneIdBoneDictionary`, log when "root" is missing, and finish construction | high; not executed | Skinning.AsWrittenAlwaysThrows | Skinning.Skeleton.constructor |
| Assets/Skeleton.cs:59-63 | each weight multiplies the whole running sum, and the sum is divided by the bone count rather than by the sum of the weights | a vertex with influences 0.3 and 0.3 on bones whose root is at the origin: the accumulator is `p * 0.39`, and the result is `p * 0.39 / count`, never p | weights renormalized (the comment at line 41): the weighted sum of the terms divided by the sum of the weights, so the rest pose leaves vertices in place | medium; not executed | Skinning.AsWrittenDistortsRestPose | Skinning.BlendRestoresRestPose |

`Skeleton.TransformVertices` keeps the fold as written, because that is the behaviour of the code. The renormalized blend is `Skinning.Blend`, proved in `Skinning.BlendRestoresRestPose`.
