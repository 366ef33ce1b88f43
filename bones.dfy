/**
 * The bone hierarchy: `BaseBone` with its two kinds `RootBone` and `Bone`,
 * and their two recursive transform methods.
 *
 * Bone objects live in an arena, a `seq<BaseBone>`; a `Bone`'s `Previous`
 * reference is the arena index of its parent. An arena is well formed when
 * every parent index is smaller than the bone's own index, so that every
 * `Previous` chain is finite and ends at a `RootBone`.
 */
module Bones {
  import opened UnityMath

  datatype BaseBone =
    | RootBone(localPosition: Vector3, rotation: Quaternion)
    | Bone(localPosition: Vector3, rotation: Quaternion, previous: nat)

  /** Every `Previous` link points to an earlier bone of the arena. */
  predicate WellFormed(bones: seq<BaseBone>)
  {
    forall i :: 0 <= i < |bones| && bones[i].Bone? ==> bones[i].previous < i
  }

  /** Every bone of the arena is rotated by a unit quaternion. */
  predicate UnitRotations(bones: seq<BaseBone>)
  {
    forall k :: 0 <= k < |bones| ==> UnitQuaternion(bones[k].rotation)
  }

  /** `Matrix4x4.TRS(LocalPosition, Rotation, Vector3.one)` */
  function Local(lib: MatrixLibrary, b: BaseBone): Matrix4x4
  {
    lib.trs(b.localPosition, b.rotation)
  }

  /**
   * The local matrix the base pose inverts: a root bone's position is
   * replaced by `Vector3.zero`.
   */
  function BaseLocal(lib: MatrixLibrary, b: BaseBone): Matrix4x4
  {
    match b
    case RootBone(_, q) => lib.trs(Zero3, q)
    case Bone(p, q, _) => lib.trs(p, q)
  }

  /** `GetWorldCurrentPoseTransformation` of the bone at index `i`. */
  function CurrentPose(lib: MatrixLibrary, bones: seq<BaseBone>, i: nat): Matrix4x4
    requires WellFormed(bones) && i < |bones|
    decreases i
  {
    match bones[i]
    case RootBone(p, q) => lib.trs(p, q)
    case Bone(p, q, prev) => lib.mul(CurrentPose(lib, bones, prev), lib.trs(p, q))
  }

  /** `GetLocalBasePoseTransformation` of the bone at index `i`. */
  function BasePose(lib: MatrixLibrary, bones: seq<BaseBone>, i: nat): Matrix4x4
    requires WellFormed(bones) && i < |bones|
    decreases i
  {
    match bones[i]
    case RootBone(_, q) => lib.inverse(lib.trs(Zero3, q))
    case Bone(p, q, prev) => lib.mul(lib.inverse(lib.trs(p, q)), BasePose(lib, bones, prev))
  }

  /** The root bone at the end of the `Previous` chain of bone `i`. */
  function RootOf(bones: seq<BaseBone>, i: nat): (r: nat)
    requires WellFormed(bones) && i < |bones|
    ensures r <= i && bones[r].RootBone?
    decreases i
  {
    match bones[i]
    case RootBone(_, _) => i
    case Bone(_, _, prev) => RootOf(bones, prev)
  }

  /** The indices of the chain from the root down to bone `i`. */
  function Path(bones: seq<BaseBone>, i: nat): (path: seq<nat>)
    requires WellFormed(bones) && i < |bones|
    ensures |path| >= 1 && path[0] == RootOf(bones, i) && path[|path| - 1] == i
    ensures forall k :: 0 <= k < |path| ==> path[k] < |bones|
    ensures forall k :: 0 < k < |path| ==> bones[path[k]].Bone? && bones[path[k]].previous == path[k - 1]
    decreases i
  {
    match bones[i]
    case RootBone(_, _) => [i]
    case Bone(_, _, prev) => Path(bones, prev) + [i]
  }

  predicate InArena(bones: seq<BaseBone>, path: seq<nat>)
  {
    forall k :: 0 <= k < |path| ==> path[k] < |bones|
  }

  /** The local TRS matrices along `path`, in path order. */
  function LocalsAlong(lib: MatrixLibrary, bones: seq<BaseBone>, path: seq<nat>): (ms: seq<Matrix4x4>)
    requires InArena(bones, path)
    ensures |ms| == |path|
  {
    seq(|path|, k requires 0 <= k < |path| => Local(lib, bones[path[k]]))
  }

  /** The inverted base-pose local matrices along `path`, from its last element back to its first. */
  function InverseLocalsUpward(lib: MatrixLibrary, bones: seq<BaseBone>, path: seq<nat>): (ms: seq<Matrix4x4>)
    requires InArena(bones, path)
    ensures |ms| == |path|
  {
    seq(|path|, k requires 0 <= k < |path| => lib.inverse(BaseLocal(lib, bones[path[|path| - 1 - k]])))
  }

  /** The product `ms[0] * ms[1] * ... * ms[|ms| - 1]`. */
  function Product(lib: MatrixLibrary, ms: seq<Matrix4x4>): Matrix4x4
    requires |ms| >= 1
  {
    if |ms| == 1 then ms[0] else lib.mul(ms[0], Product(lib, ms[1..]))
  }

  lemma {:induction false} ProductSnoc(lib: MatrixLibrary, ms: seq<Matrix4x4>, m: Matrix4x4)
    requires Associative(lib) && |ms| >= 1
    ensures Product(lib, ms + [m]) == lib.mul(Product(lib, ms), m)
  {
    if |ms| == 1 {
      assert (ms + [m])[1..] == [m];
    } else {
      assert (ms + [m])[1..] == ms[1..] + [m];
      ProductSnoc(lib, ms[1..], m);
    }
  }

  /**
   * The current-pose world transform of a bone is the product of the local
   * TRS matrices from the root down to that bone.
   */
  lemma {:induction false} CurrentPoseIsChainProduct(lib: MatrixLibrary, bones: seq<BaseBone>, i: nat)
    requires Associative(lib)
    requires WellFormed(bones) && i < |bones|
    ensures CurrentPose(lib, bones, i) == Product(lib, LocalsAlong(lib, bones, Path(bones, i)))
    decreases i
  {
    match bones[i]
    case RootBone(_, _) =>
    case Bone(_, _, prev) =>
      var up := Path(bones, prev);
      CurrentPoseIsChainProduct(lib, bones, prev);
      assert LocalsAlong(lib, bones, Path(bones, i)) == LocalsAlong(lib, bones, up) + [Local(lib, bones[i])];
      ProductSnoc(lib, LocalsAlong(lib, bones, up), Local(lib, bones[i]));
  }

  /**
   * The base-pose transform of a bone is the product of the inverted local
   * matrices from that bone up to the root, where the root's matrix keeps
   * its rotation and drops its position.
   */
  lemma {:induction false} BasePoseIsReversedInverseProduct(lib: MatrixLibrary, bones: seq<BaseBone>, i: nat)
    requires WellFormed(bones) && i < |bones|
    ensures BasePose(lib, bones, i) == Product(lib, InverseLocalsUpward(lib, bones, Path(bones, i)))
    decreases i
  {
    match bones[i]
    case RootBone(_, _) =>
      assert InverseLocalsUpward(lib, bones, [i])[0] == lib.inverse(BaseLocal(lib, bones[i]));
    case Bone(_, _, prev) =>
      var up := Path(bones, prev);
      BasePoseIsReversedInverseProduct(lib, bones, prev);
      var ms := InverseLocalsUpward(lib, bones, Path(bones, i));
      assert ms[0] == lib.inverse(BaseLocal(lib, bones[i]));
      assert ms[1..] == InverseLocalsUpward(lib, bones, up);
  }

  /** The arena in which every root bone has been moved to the origin. */
  function RootsAtOrigin(bones: seq<BaseBone>): (moved: seq<BaseBone>)
    ensures |moved| == |bones|
  {
    seq(|bones|, k requires 0 <= k < |bones| =>
      if bones[k].RootBone? then RootBone(Zero3, bones[k].rotation) else bones[k])
  }

  /**
   * The base-pose transform is the inverse of the current-pose world
   * transform of the same chain with the root bone moved to the origin.
   */
  lemma {:induction false} BasePoseInvertsCurrentPoseAtOrigin(lib: MatrixLibrary, bones: seq<BaseBone>, i: nat)
    requires InverseReversesProducts(lib)
    requires WellFormed(bones) && i < |bones|
    ensures WellFormed(RootsAtOrigin(bones))
    ensures BasePose(lib, bones, i) == lib.inverse(CurrentPose(lib, RootsAtOrigin(bones), i))
    decreases i
  {
    var moved := RootsAtOrigin(bones);
    assert WellFormed(moved) by {
      forall k | 0 <= k < |moved| && moved[k].Bone?
        ensures moved[k].previous < k
      {
        assert moved[k] == bones[k];
      }
    }
    match bones[i]
    case RootBone(_, _) =>
    case Bone(p, q, prev) =>
      assert moved[i] == bones[i];
      BasePoseInvertsCurrentPoseAtOrigin(lib, bones, prev);
  }

  /** Moving a root bone leaves the base-pose transform of every bone unchanged. */
  lemma {:induction false} BasePoseIgnoresRootPosition(lib: MatrixLibrary, bones: seq<BaseBone>, r: nat, position: Vector3, i: nat)
    requires WellFormed(bones) && r < |bones| && bones[r].RootBone? && i < |bones|
    ensures WellFormed(bones[r := RootBone(position, bones[r].rotation)])
    ensures BasePose(lib, bones[r := RootBone(position, bones[r].rotation)], i) == BasePose(lib, bones, i)
    decreases i
  {
    var moved := bones[r := RootBone(position, bones[r].rotation)];
    assert WellFormed(moved) by {
      forall k | 0 <= k < |moved| && moved[k].Bone?
        ensures moved[k].previous < k
      {
        assert moved[k] == bones[k];
      }
    }
    match bones[i]
    case RootBone(_, _) =>
    case Bone(_, _, prev) =>
      BasePoseIgnoresRootPosition(lib, bones, r, position, prev);
  }

  /**
   * Because one bone's base pose and current pose are built from the same
   * `LocalPosition` and `Rotation`, the skinning matrix `Current * Base` of
   * every bone telescopes to a matrix that depends on its root bone alone:
   * `TRS(rootPosition, rootRotation) * TRS(0, rootRotation).inverse`.
   */
  lemma {:induction false} SkinningMatrixDependsOnRootOnly(lib: MatrixLibrary, bones: seq<BaseBone>, i: nat)
    requires RigidLaws(lib)
    requires WellFormed(bones) && UnitRotations(bones) && i < |bones|
    ensures var root := bones[RootOf(bones, i)];
      lib.mul(CurrentPose(lib, bones, i), BasePose(lib, bones, i))
        == lib.mul(lib.trs(root.localPosition, root.rotation), lib.inverse(lib.trs(Zero3, root.rotation)))
    decreases i
  {
    match bones[i]
    case RootBone(_, _) =>
    case Bone(p, q, prev) =>
      var c, l, b := CurrentPose(lib, bones, prev), lib.trs(p, q), BasePose(lib, bones, prev);
      assert UnitQuaternion(q) by {
        assert bones[i].rotation == q;
      }
      calc {
        lib.mul(CurrentPose(lib, bones, i), BasePose(lib, bones, i));
        lib.mul(lib.mul(c, l), lib.mul(lib.inverse(l), b));
        lib.mul(c, lib.mul(l, lib.mul(lib.inverse(l), b)));
        lib.mul(c, lib.mul(lib.mul(l, lib.inverse(l)), b));
        lib.mul(c, lib.mul(lib.identity, b));
        lib.mul(c, b);
      }
      SkinningMatrixDependsOnRootOnly(lib, bones, prev);
  }

  /** With its root bone at the origin, every bone's skinning matrix is the identity. */
  lemma SkinningMatrixIsIdentityAtOrigin(lib: MatrixLibrary, bones: seq<BaseBone>, i: nat)
    requires RigidLaws(lib)
    requires WellFormed(bones) && UnitRotations(bones) && i < |bones|
    requires bones[RootOf(bones, i)].localPosition == Zero3
    ensures lib.mul(CurrentPose(lib, bones, i), BasePose(lib, bones, i)) == lib.identity
  {
    SkinningMatrixDependsOnRootOnly(lib, bones, i);
  }
}
