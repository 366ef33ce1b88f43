/**
 * The `Skeleton` class: construction-time validation of the influence
 * weights and of the `"root"` bone, and `TransformVertices`, which moves
 * every base-pose vertex by the weighted transforms of the bones that
 * influence it.
 *
 * `Dictionary<string, BaseBone>` becomes a `map<string, nat>` from bone id to
 * an index into the bone arena of module `Bones`. `Dictionary<int,
 * Dictionary<string, float>>` becomes an ordered sequence of vertex entries,
 * each holding its ordered sequence of (bone id, weight) influences: the
 * order in which a dictionary is enumerated decides the order of the
 * reports and, because the accumulator is scaled as a whole, the skinned
 * position itself. `Debug.LogException` appends to a `DebugLog`.
 */
module Skinning {
  import opened UnityMath
  import opened Bones

  datatype Option<T> = None | Some(value: T)

  /** One (bone id, weight) pair of a vertex's influence dictionary. */
  datatype Influence = Influence(boneId: string, weight: real)

  /** One entry of the vertex dictionary: a vertex index and its influences. */
  datatype VertexWeights = VertexWeights(vertex: int, influences: seq<Influence>)

  /** The exceptions the constructor passes to `Debug.LogException`. */
  datatype Report =
    | WeightNotNormalized(vertex: int, boneId: string, weight: real)
    | NoRootBone

  /** The id the root bone must carry. */
  const RootId: string := "root"

  /** Weights whose magnitude is below this are skipped (`0.000001f`). */
  const Epsilon: real := 0.000001

  function Abs(x: real): real
  {
    if x < 0.0 then -x else x
  }

  predicate Negligible(weight: real)
  {
    Abs(weight) < Epsilon
  }

  /** A weight the constructor reports: outside the closed interval [0, 1]. */
  predicate OutOfRange(weight: real)
  {
    weight < 0.0 || weight > 1.0
  }

  /** `vertexDictionary[v]`: the influences of the first entry for vertex `v`. */
  function Lookup(table: seq<VertexWeights>, v: int): (r: Option<seq<Influence>>)
    ensures r.Some? <==> exists k :: 0 <= k < |table| && table[k].vertex == v
    ensures r.Some? ==> exists k :: 0 <= k < |table| && table[k].vertex == v && table[k].influences == r.value
                          && forall j :: 0 <= j < k ==> table[j].vertex != v
  {
    if table == [] then None
    else if table[0].vertex == v then Some(table[0].influences)
    else
      var r := Lookup(table[1..], v);
      assert forall k :: 1 <= k < |table| ==> table[1..][k - 1] == table[k];
      r
  }

  // ---------------------------------------------------------------------------
  // Construction-time validation

  /** The reports of the inner `foreach` over the influences of vertex `v`. */
  function InfluenceReports(v: int, influences: seq<Influence>): seq<Report>
  {
    if influences == [] then []
    else
      var last := influences[|influences| - 1];
      InfluenceReports(v, influences[..|influences| - 1])
        + (if OutOfRange(last.weight) then [WeightNotNormalized(v, last.boneId, last.weight)] else [])
  }

  /** The reports of the outer `foreach` over the vertex dictionary. */
  function WeightReports(table: seq<VertexWeights>): seq<Report>
  {
    if table == [] then []
    else
      var last := table[|table| - 1];
      WeightReports(table[..|table| - 1]) + InfluenceReports(last.vertex, last.influences)
  }

  /** Everything the constructor logs, in the order it logs it. */
  function ConstructionReports(boneTable: map<string, nat>, table: seq<VertexWeights>): seq<Report>
  {
    WeightReports(table) + (if RootId in boneTable then [] else [NoRootBone])
  }

  /** Some influence of `influences` is the pair (`id`, `w`). */
  predicate HasInfluence(influences: seq<Influence>, id: string, w: real)
  {
    exists j :: 0 <= j < |influences| && influences[j] == Influence(id, w)
  }

  /** Some entry of `table` for vertex `v` has the influence (`id`, `w`). */
  predicate HasVertexInfluence(table: seq<VertexWeights>, v: int, id: string, w: real)
  {
    exists k :: 0 <= k < |table| && table[k].vertex == v && HasInfluence(table[k].influences, id, w)
  }

  lemma HasInfluenceSnoc(influences: seq<Influence>, last: Influence, id: string, w: real)
    ensures HasInfluence(influences + [last], id, w) <==> HasInfluence(influences, id, w) || last == Influence(id, w)
  {
    var all := influences + [last];
    if HasInfluence(influences, id, w) {
      var j :| 0 <= j < |influences| && influences[j] == Influence(id, w);
      assert all[j] == influences[j];
    }
    if HasInfluence(all, id, w) {
      var j :| 0 <= j < |all| && all[j] == Influence(id, w);
      if j < |influences| {
        assert influences[j] == all[j];
      }
    }
    assert all[|influences|] == last;
  }

  lemma HasVertexInfluenceSnoc(table: seq<VertexWeights>, last: VertexWeights, v: int, id: string, w: real)
    ensures HasVertexInfluence(table + [last], v, id, w)
        <==> HasVertexInfluence(table, v, id, w) || (last.vertex == v && HasInfluence(last.influences, id, w))
  {
    var all := table + [last];
    if HasVertexInfluence(table, v, id, w) {
      var k :| 0 <= k < |table| && table[k].vertex == v && HasInfluence(table[k].influences, id, w);
      assert all[k] == table[k];
    }
    if HasVertexInfluence(all, v, id, w) {
      var k :| 0 <= k < |all| && all[k].vertex == v && HasInfluence(all[k].influences, id, w);
      if k < |table| {
        assert table[k] == all[k];
      }
    }
    assert all[|table|] == last;
  }

  lemma {:induction false} InfluenceReportsExactly(v: int, influences: seq<Influence>, v': int, id: string, w: real)
    ensures NoRootBone !in InfluenceReports(v, influences)
    ensures WeightNotNormalized(v', id, w) in InfluenceReports(v, influences)
        <==> v' == v && OutOfRange(w) && HasInfluence(influences, id, w)
    decreases |influences|
  {
    if influences != [] {
      var init := influences[..|influences| - 1];
      InfluenceReportsExactly(v, init, v', id, w);
      HasInfluenceSnoc(init, influences[|influences| - 1], id, w);
      assert init + [influences[|influences| - 1]] == influences;
    }
  }

  lemma {:induction false} WeightReportsExactly(table: seq<VertexWeights>, v: int, id: string, w: real)
    ensures NoRootBone !in WeightReports(table)
    ensures WeightNotNormalized(v, id, w) in WeightReports(table)
        <==> OutOfRange(w) && HasVertexInfluence(table, v, id, w)
    decreases |table|
  {
    if table != [] {
      var init, last := table[..|table| - 1], table[|table| - 1];
      WeightReportsExactly(init, v, id, w);
      InfluenceReportsExactly(last.vertex, last.influences, v, id, w);
      HasVertexInfluenceSnoc(init, last, v, id, w);
      assert init + [last] == table;
    }
  }

  /**
   * The constructor reports exactly the influence weights outside [0, 1]
   * (0 and 1 themselves are accepted), and
   * reports the missing root bone exactly when no bone has the id "root".
   */
  lemma ConstructionReportsExactly(boneTable: map<string, nat>, table: seq<VertexWeights>, v: int, id: string, w: real)
    ensures NoRootBone in ConstructionReports(boneTable, table) <==> RootId !in boneTable
    ensures WeightNotNormalized(v, id, w) in ConstructionReports(boneTable, table)
        <==> OutOfRange(w) && HasVertexInfluence(table, v, id, w)
  {
    WeightReportsExactly(table, v, id, w);
  }

  // ---------------------------------------------------------------------------
  // The constructor as written

  /** How the constructor as written ends. */
  datatype Outcome = Completed | NullReferenceThrown

  datatype ConstructorRun = ConstructorRun(reports: seq<Report>, outcome: Outcome)

  /**
   * The "root" check, run after `reports` have been logged, against the
   * dictionary it reads: `None` stands for a null reference, on which
   * `ContainsKey` throws.
   */
  function RootCheck(reports: seq<Report>, dictionary: Option<map<string, nat>>): ConstructorRun
  {
    match dictionary
    case None => ConstructorRun(reports, NullReferenceThrown)
    case Some(t) => ConstructorRun(reports + (if RootId in t then [] else [NoRootBone]), Completed)
  }

  /**
   * The constructor as written: the "root" check reads the field
   * `_boneIdBoneDictionary`, which is still null at that point because it is
   * assigned only afterwards, instead of the argument.
   */
  function ConstructorAsWritten(boneTable: map<string, nat>, table: seq<VertexWeights>): ConstructorRun
  {
    RootCheck(WeightReports(table), None)
  }

  /**
   * Whatever its arguments, the constructor as written logs the weight
   * reports and then throws, so it never reports a missing root bone; the
   * check run against the argument completes and logs exactly the
   * construction reports, which name a missing root bone whenever "root"
   * is absent.
   */
  lemma AsWrittenAlwaysThrows(boneTable: map<string, nat>, table: seq<VertexWeights>)
    ensures ConstructorAsWritten(boneTable, table).outcome == NullReferenceThrown
    ensures ConstructorAsWritten(boneTable, table).reports == WeightReports(table)
    ensures NoRootBone !in ConstructorAsWritten(boneTable, table).reports
    ensures RootCheck(WeightReports(table), Some(boneTable)) == ConstructorRun(ConstructionReports(boneTable, table), Completed)
    ensures RootId !in boneTable ==> NoRootBone in ConstructionReports(boneTable, table)
  {
    WeightReportsExactly(table, 0, RootId, 0.0);
  }

  // ---------------------------------------------------------------------------
  // Blending

  /** Every value of the bone dictionary is a bone of the arena. */
  predicate TableInArena(bones: seq<BaseBone>, boneTable: map<string, nat>)
  {
    forall id :: id in boneTable ==> boneTable[id] < |bones|
  }

  /** Every influence that is not skipped names a bone of the dictionary. */
  predicate Resolves(boneTable: map<string, nat>, influences: seq<Influence>)
  {
    forall j :: 0 <= j < |influences| && !Negligible(influences[j].weight) ==> influences[j].boneId in boneTable
  }

  /** `currentPoseMatrix * basePoseMatrix * p` for the bone at arena index `b`. */
  function SkinnedTerm(lib: MatrixLibrary, bones: seq<BaseBone>, b: nat, p: Vector4): Vector4
    requires WellFormed(bones) && b < |bones|
  {
    lib.transform(lib.mul(CurrentPose(lib, bones, b), BasePose(lib, bones, b)), p)
  }

  /**
   * The term the bone with id `id` adds for the point `p`. `TransformVertices`
   * is only specified for a well-formed arena and influences that resolve,
   * so the zero vector of the last branch never reaches a result.
   */
  function BoneTerm(lib: MatrixLibrary, bones: seq<BaseBone>, boneTable: map<string, nat>, id: string, p: Vector4): Vector4
  {
    if WellFormed(bones) && id in boneTable && boneTable[id] < |bones|
    then SkinnedTerm(lib, bones, boneTable[id], p)
    else Zero4
  }

  /** One iteration of the inner `foreach`: skip, or add the term and scale the whole sum. */
  function Step(lib: MatrixLibrary, bones: seq<BaseBone>, boneTable: map<string, nat>,
                acc: Vector4, influence: Influence, p: Vector4): Vector4
  {
    if Negligible(influence.weight) then acc
    else Scale(Add(acc, BoneTerm(lib, bones, boneTable, influence.boneId, p)), influence.weight)
  }

  /** `newPosition` after the inner `foreach` has run over `influences`. */
  function Accumulate(lib: MatrixLibrary, bones: seq<BaseBone>, boneTable: map<string, nat>,
                      influences: seq<Influence>, p: Vector4): Vector4
    decreases |influences|
  {
    if influences == [] then Zero4
    else
      Step(lib, bones, boneTable, Accumulate(lib, bones, boneTable, influences[..|influences| - 1], p),
           influences[|influences| - 1], p)
  }

  /** The product of the weights of the influences that are not skipped. */
  function RetainedWeight(influences: seq<Influence>): real
  {
    if influences == [] then 1.0
    else if Negligible(influences[0].weight) then RetainedWeight(influences[1..])
    else influences[0].weight * RetainedWeight(influences[1..])
  }

  /**
   * The closed form of the accumulation: every influence that is not
   * skipped contributes its term scaled by the product of its own weight and
   * of the weights of all later influences that are not skipped.
   */
  function WeightedSum(lib: MatrixLibrary, bones: seq<BaseBone>, boneTable: map<string, nat>,
                       influences: seq<Influence>, p: Vector4): Vector4
  {
    if influences == [] then Zero4
    else if Negligible(influences[0].weight) then WeightedSum(lib, bones, boneTable, influences[1..], p)
    else Add(Scale(BoneTerm(lib, bones, boneTable, influences[0].boneId, p), RetainedWeight(influences)),
             WeightedSum(lib, bones, boneTable, influences[1..], p))
  }

  lemma MulAssociative(x: real, y: real, z: real)
    ensures x * (y * z) == (x * y) * z
  {
  }

  lemma {:induction false} RetainedWeightSnoc(influences: seq<Influence>, last: Influence)
    ensures RetainedWeight(influences + [last])
         == if Negligible(last.weight) then RetainedWeight(influences) else RetainedWeight(influences) * last.weight
    decreases |influences|
  {
    if influences == [] {
      assert ([] + [last])[1..] == [];
    } else {
      assert (influences + [last])[1..] == influences[1..] + [last];
      RetainedWeightSnoc(influences[1..], last);
      MulAssociative(influences[0].weight, RetainedWeight(influences[1..]), last.weight);
    }
  }

  lemma BlendAlgebra(t: Vector4, r: Vector4, u: Vector4, g: real, h: real)
    ensures Add(Scale(t, g * h), Scale(Add(r, u), h)) == Scale(Add(Add(Scale(t, g), r), u), h)
  {
    calc {
      Add(Scale(t, g * h), Scale(Add(r, u), h));
      { ScaleScale(t, g, h); }
      Add(Scale(Scale(t, g), h), Scale(Add(r, u), h));
      { ScaleDistributes(Scale(t, g), Add(r, u), h); }
      Scale(Add(Scale(t, g), Add(r, u)), h);
      { AddAssociative(Scale(t, g), r, u); }
      Scale(Add(Add(Scale(t, g), r), u), h);
    }
  }

  /** The retained-retained case of `WeightedSumSnoc`, on plain values. */
  lemma CombineRetained(all: Vector4, t: Vector4, gh: real, tail: Vector4, g: real, h: real,
                        r: Vector4, u: Vector4, front: Vector4)
    requires all == Add(Scale(t, gh), tail) && gh == g * h
    requires tail == Scale(Add(r, u), h) && front == Add(Scale(t, g), r)
    ensures all == Scale(Add(front, u), h)
  {
    BlendAlgebra(t, r, u, g, h);
  }

  /** The single-influence case of `WeightedSumSnoc`, on plain values. */
  lemma CombineSingle(all: Vector4, u: Vector4, h': real, h: real)
    requires all == Add(Scale(u, h'), Zero4) && h' == h * 1.0
    ensures all == Scale(Add(Zero4, u), h)
  {
    AddZeroLeft(u);
  }

  lemma {:induction false} WeightedSumSnoc(lib: MatrixLibrary, bones: seq<BaseBone>, boneTable: map<string, nat>,
                                           influences: seq<Influence>, last: Influence, p: Vector4)
    ensures WeightedSum(lib, bones, boneTable, influences + [last], p)
         == Step(lib, bones, boneTable, WeightedSum(lib, bones, boneTable, influences, p), last, p)
    decreases |influences|
  {
    var all := influences + [last];
    var u := BoneTerm(lib, bones, boneTable, last.boneId, p);
    if influences == [] {
      assert all[1..] == [] && all[0] == last;
      if !Negligible(last.weight) {
        assert RetainedWeight(all[1..]) == 1.0;
        assert RetainedWeight(all) == last.weight * 1.0;
        assert WeightedSum(lib, bones, boneTable, all[1..], p) == Zero4;
        assert WeightedSum(lib, bones, boneTable, all, p) == Add(Scale(u, RetainedWeight(all)), Zero4);
        CombineSingle(WeightedSum(lib, bones, boneTable, all, p), u, RetainedWeight(all), last.weight);
      }
    } else {
      var first, rest := influences[0], influences[1..];
      assert all[0] == first && all[1..] == rest + [last];
      WeightedSumSnoc(lib, bones, boneTable, rest, last, p);
      RetainedWeightSnoc(influences, last);
      if !Negligible(first.weight) && !Negligible(last.weight) {
        CombineRetained(WeightedSum(lib, bones, boneTable, all, p), BoneTerm(lib, bones, boneTable, first.boneId, p),
                        RetainedWeight(all), WeightedSum(lib, bones, boneTable, rest + [last], p),
                        RetainedWeight(influences), last.weight, WeightedSum(lib, bones, boneTable, rest, p), u,
                        WeightedSum(lib, bones, boneTable, influences, p));
      }
    }
  }

  /** The inner loop's accumulator equals its closed form. */
  lemma {:induction false} AccumulateIsWeightedSum(lib: MatrixLibrary, bones: seq<BaseBone>, boneTable: map<string, nat>,
                                                   influences: seq<Influence>, p: Vector4)
    ensures Accumulate(lib, bones, boneTable, influences, p) == WeightedSum(lib, bones, boneTable, influences, p)
    decreases |influences|
  {
    if influences != [] {
      var init, last := influences[..|influences| - 1], influences[|influences| - 1];
      assert init + [last] == influences;
      WeightedSumSnoc(lib, bones, boneTable, init, last, p);
      AccumulateIsWeightedSum(lib, bones, boneTable, init, p);
    }
  }

  /** Removing a skipped influence leaves the accumulator exactly as it was. */
  lemma {:induction false} NegligibleInfluenceIgnored(lib: MatrixLibrary, bones: seq<BaseBone>, boneTable: map<string, nat>,
                                                      influences: seq<Influence>, k: nat, p: Vector4)
    requires k < |influences| && Negligible(influences[k].weight)
    ensures Accumulate(lib, bones, boneTable, influences[..k] + influences[k + 1..], p)
         == Accumulate(lib, bones, boneTable, influences, p)
    decreases |influences|
  {
    var removed := influences[..k] + influences[k + 1..];
    var init, last := influences[..|influences| - 1], influences[|influences| - 1];
    if k == |influences| - 1 {
      assert removed == init;
    } else {
      NegligibleInfluenceIgnored(lib, bones, boneTable, init, k, p);
      var initRemoved := init[..k] + init[k + 1..];
      assert removed == initRemoved + [last];
      assert removed[..|removed| - 1] == initRemoved;
    }
  }

  // ---------------------------------------------------------------------------
  // The rest pose

  /**
   * Every influence that is not skipped names a bone of the arena whose
   * root bone sits at the origin, so that its skinning matrix is the
   * identity.
   */
  predicate AtRest(bones: seq<BaseBone>, boneTable: map<string, nat>, influences: seq<Influence>)
  {
    && WellFormed(bones)
    && UnitRotations(bones)
    && forall j :: 0 <= j < |influences| && !Negligible(influences[j].weight) ==>
         && influences[j].boneId in boneTable
         && boneTable[influences[j].boneId] < |bones|
         && bones[RootOf(bones, boneTable[influences[j].boneId])].localPosition == Zero3
  }

  lemma BoneTermAtRest(lib: MatrixLibrary, bones: seq<BaseBone>, boneTable: map<string, nat>, id: string, p: Vector4)
    requires RigidLaws(lib) && IdentityLeavesVectors(lib) && WellFormed(bones) && UnitRotations(bones)
    requires id in boneTable && boneTable[id] < |bones|
    requires bones[RootOf(bones, boneTable[id])].localPosition == Zero3
    ensures BoneTerm(lib, bones, boneTable, id, p) == p
  {
    SkinningMatrixIsIdentityAtOrigin(lib, bones, boneTable[id]);
  }

  /**
   * At the rest pose, a vertex with the two influences 0.3 and 0.3 (the
   * same, or two different bones) accumulates `((p * 0.3) + p) * 0.3`, that
   * is `p * 0.39`; whatever the number of bones, dividing by it never gives
   * back a vertex off the plane x = 0.
   */
  lemma AsWrittenDistortsRestPose(lib: MatrixLibrary, bones: seq<BaseBone>, boneTable: map<string, nat>,
                                  a: string, b: string, v: Vector3)
    requires RigidLaws(lib) && IdentityLeavesVectors(lib)
    requires AtRest(bones, boneTable, [Influence(a, 0.3), Influence(b, 0.3)])
    ensures Accumulate(lib, bones, boneTable, [Influence(a, 0.3), Influence(b, 0.3)], Point(v)) == Scale(Point(v), 0.39)
    ensures v.x != 0.0 ==>
      ToVector3(Divide(Accumulate(lib, bones, boneTable, [Influence(a, 0.3), Influence(b, 0.3)], Point(v)),
                       |boneTable| as real)) != v
  {
    var influences := [Influence(a, 0.3), Influence(b, 0.3)];
    var p := Point(v);
    assert influences[0] == Influence(a, 0.3) && influences[1] == Influence(b, 0.3);
    BoneTermAtRest(lib, bones, boneTable, a, p);
    BoneTermAtRest(lib, bones, boneTable, b, p);
    var one := [Influence(a, 0.3)];
    assert influences[..1] == one && one[..0] == [];
    assert Accumulate(lib, bones, boneTable, one, p) == Step(lib, bones, boneTable, Zero4, one[0], p);
    assert !Negligible(0.3);
    assert Accumulate(lib, bones, boneTable, one, p) == Scale(Add(Zero4, p), 0.3);
    AddZeroLeft(p);
    assert Accumulate(lib, bones, boneTable, influences, p) == Scale(Add(Scale(p, 0.3), p), 0.3);
    var n := |boneTable| as real;
    assert n >= 1.0 by {
      assert a in boneTable;
    }
  }

  /** The sum of the weights of the influences that are not skipped. */
  function TotalWeight(influences: seq<Influence>): real
  {
    if influences == [] then 0.0
    else if Negligible(influences[0].weight) then TotalWeight(influences[1..])
    else influences[0].weight + TotalWeight(influences[1..])
  }

  /** The sum of the terms of the influences that are not skipped, each scaled by its own weight. */
  function WeightedTerms(lib: MatrixLibrary, bones: seq<BaseBone>, boneTable: map<string, nat>,
                         influences: seq<Influence>, p: Vector4): Vector4
  {
    if influences == [] then Zero4
    else if Negligible(influences[0].weight) then WeightedTerms(lib, bones, boneTable, influences[1..], p)
    else Add(Scale(BoneTerm(lib, bones, boneTable, influences[0].boneId, p), influences[0].weight),
             WeightedTerms(lib, bones, boneTable, influences[1..], p))
  }

  /**
   * Linear blend skinning with the weights renormalized: the weighted sum of
   * the terms divided by the sum of the weights, or nothing when every
   * influence is skipped or the weights cancel.
   */
  function Blend(lib: MatrixLibrary, bones: seq<BaseBone>, boneTable: map<string, nat>,
                 influences: seq<Influence>, p: Vector4): Option<Vector4>
  {
    var total := TotalWeight(influences);
    if total == 0.0 then None else Some(Divide(WeightedTerms(lib, bones, boneTable, influences, p), total))
  }

  lemma {:induction false} WeightedTermsAtRest(lib: MatrixLibrary, bones: seq<BaseBone>, boneTable: map<string, nat>,
                                               influences: seq<Influence>, p: Vector4)
    requires RigidLaws(lib) && IdentityLeavesVectors(lib)
    requires AtRest(bones, boneTable, influences)
    ensures WeightedTerms(lib, bones, boneTable, influences, p) == Scale(p, TotalWeight(influences))
    decreases |influences|
  {
    if influences != [] {
      var first, rest := influences[0], influences[1..];
      assert AtRest(bones, boneTable, rest) by {
        forall j | 0 <= j < |rest| ensures rest[j] == influences[j + 1] {
        }
      }
      WeightedTermsAtRest(lib, bones, boneTable, rest, p);
      if !Negligible(first.weight) {
        BoneTermAtRest(lib, bones, boneTable, first.boneId, p);
        ScaleAddsFactors(p, first.weight, TotalWeight(rest));
      }
    }
  }

  /**
   * The renormalized blend gives back every vertex at the rest pose, for
   * any weights that do not sum to zero: the intended behaviour that the
   * accumulation as written misses.
   */
  lemma BlendRestoresRestPose(lib: MatrixLibrary, bones: seq<BaseBone>, boneTable: map<string, nat>,
                              influences: seq<Influence>, v: Vector3)
    requires RigidLaws(lib) && IdentityLeavesVectors(lib)
    requires AtRest(bones, boneTable, influences)
    ensures TotalWeight(influences) != 0.0 ==> Blend(lib, bones, boneTable, influences, Point(v)) == Some(Point(v))
    ensures TotalWeight(influences) == 0.0 ==> Blend(lib, bones, boneTable, influences, Point(v)).None?
  {
    WeightedTermsAtRest(lib, bones, boneTable, influences, Point(v));
    if TotalWeight(influences) != 0.0 {
      DivideUndoesScale(Point(v), TotalWeight(influences));
    }
  }

  // ---------------------------------------------------------------------------
  // Reposing a bone

  /** The arena after `LocalPosition` and `Rotation` of bone `index` are reassigned. */
  function Reposed(bones: seq<BaseBone>, index: nat, position: Vector3, rotation: Quaternion): (r: seq<BaseBone>)
    requires index < |bones|
    ensures |r| == |bones|
  {
    bones[index := match bones[index]
                   case RootBone(_, _) => RootBone(position, rotation)
                   case Bone(_, _, prev) => Bone(position, rotation, prev)]
  }

  lemma ReposedWellFormed(bones: seq<BaseBone>, index: nat, position: Vector3, rotation: Quaternion)
    requires WellFormed(bones) && index < |bones|
    ensures WellFormed(Reposed(bones, index, position, rotation))
  {
    var r := Reposed(bones, index, position, rotation);
    forall k | 0 <= k < |r| && r[k].Bone?
      ensures r[k].previous < k
    {
    }
  }

  lemma ReposedUnitRotations(bones: seq<BaseBone>, index: nat, position: Vector3, rotation: Quaternion)
    requires UnitRotations(bones) && index < |bones| && UnitQuaternion(rotation)
    ensures UnitRotations(Reposed(bones, index, position, rotation))
  {
    var r := Reposed(bones, index, position, rotation);
    forall k | 0 <= k < |r|
      ensures UnitQuaternion(r[k].rotation)
    {
      if k != index {
        assert r[k] == bones[k];
      }
    }
  }

  lemma {:induction false} RootOfReposed(bones: seq<BaseBone>, index: nat, position: Vector3, rotation: Quaternion, i: nat)
    requires WellFormed(bones) && index < |bones| && i < |bones|
    ensures WellFormed(Reposed(bones, index, position, rotation))
    ensures RootOf(Reposed(bones, index, position, rotation), i) == RootOf(bones, i)
    decreases i
  {
    ReposedWellFormed(bones, index, position, rotation);
    match bones[i]
    case RootBone(_, _) =>
    case Bone(_, _, prev) =>
      RootOfReposed(bones, index, position, rotation, prev);
  }

  /**
   * Reassigning the local position and rotation of any bone that is not a
   * root leaves every vertex's accumulated position unchanged: the base and
   * current transforms cancel along the chain.
   */
  lemma {:induction false} ReposingBoneLeavesAccumulationUnchanged(
      lib: MatrixLibrary, bones: seq<BaseBone>, boneTable: map<string, nat>,
      index: nat, position: Vector3, rotation: Quaternion, influences: seq<Influence>, p: Vector4)
    requires RigidLaws(lib) && WellFormed(bones) && UnitRotations(bones)
    requires index < |bones| && bones[index].Bone? && UnitQuaternion(rotation)
    ensures Accumulate(lib, Reposed(bones, index, position, rotation), boneTable, influences, p)
         == Accumulate(lib, bones, boneTable, influences, p)
    decreases |influences|
  {
    var moved := Reposed(bones, index, position, rotation);
    ReposedWellFormed(bones, index, position, rotation);
    ReposedUnitRotations(bones, index, position, rotation);
    if influences != [] {
      var init, last := influences[..|influences| - 1], influences[|influences| - 1];
      ReposingBoneLeavesAccumulationUnchanged(lib, bones, boneTable, index, position, rotation, init, p);
      if last.boneId in boneTable && boneTable[last.boneId] < |bones| {
        var b := boneTable[last.boneId];
        RootOfReposed(bones, index, position, rotation, b);
        SkinningMatrixDependsOnRootOnly(lib, bones, b);
        SkinningMatrixDependsOnRootOnly(lib, moved, b);
        assert moved[RootOf(bones, b)] == bones[RootOf(bones, b)];
      }
    }
  }

  // ---------------------------------------------------------------------------
  // The log and the skeleton

  /** Unity's console, as far as `Debug.LogException` writes to it. */
  class DebugLog {
    var entries: seq<Report>

    constructor ()
      ensures entries == []
    {
      entries := [];
    }
  }

  class Skeleton {
    /** The bone objects the dictionary refers to, with their `Previous` links. */
    var bones: seq<BaseBone>
    /** `_boneIdBoneDictionary` */
    const boneTable: map<string, nat>
    /** `_vertexIdBoneWeightDictionary` */
    const vertexTable: seq<VertexWeights>

    ghost predicate Valid()
      reads this
    {
      TableInArena(bones, boneTable)
    }

    /**
     * Logs a report for every influence weight outside [0, 1] and for a
     * missing "root" bone, then stores the dictionaries; no report stops
     * the construction.
     */
    constructor (bones: seq<BaseBone>, boneTable: map<string, nat>, vertexTable: seq<VertexWeights>, log: DebugLog)
      requires TableInArena(bones, boneTable)
      modifies log
      ensures Valid()
      ensures this.bones == bones && this.boneTable == boneTable && this.vertexTable == vertexTable
      ensures log.entries == old(log.entries) + ConstructionReports(boneTable, vertexTable)
    {
      ghost var before := log.entries;
      for k := 0 to |vertexTable|
        invariant log.entries == before + WeightReports(vertexTable[..k])
      {
        var entry := vertexTable[k];
        for j := 0 to |entry.influences|
          invariant log.entries == before + WeightReports(vertexTable[..k]) + InfluenceReports(entry.vertex, entry.influences[..j])
        {
          var influence := entry.influences[j];
          assert entry.influences[..j + 1][..j] == entry.influences[..j];
          if OutOfRange(influence.weight) {
            log.entries := log.entries + [WeightNotNormalized(entry.vertex, influence.boneId, influence.weight)];
          }
        }
        assert entry.influences[..|entry.influences|] == entry.influences;
        assert vertexTable[..k + 1][..k] == vertexTable[..k];
      }
      assert vertexTable[..|vertexTable|] == vertexTable;
      if RootId !in boneTable {
        log.entries := log.entries + [NoRootBone];
      }
      this.bones := bones;
      this.boneTable := boneTable;
      this.vertexTable := vertexTable;
    }

    /** An assignment to the public `LocalPosition` and `Rotation` fields of one bone. */
    method SetLocalTransform(index: nat, position: Vector3, rotation: Quaternion)
      requires Valid() && index < |bones|
      modifies this`bones
      ensures Valid()
      ensures bones == Reposed(old(bones), index, position, rotation)
      ensures old(WellFormed(bones)) ==> WellFormed(bones)
      ensures old(UnitRotations(bones)) && UnitQuaternion(rotation) ==> UnitRotations(bones)
    {
      if old(WellFormed(bones)) {
        ReposedWellFormed(bones, index, position, rotation);
      }
      if old(UnitRotations(bones)) && UnitQuaternion(rotation) {
        ReposedUnitRotations(bones, index, position, rotation);
      }
      bones := Reposed(bones, index, position, rotation);
    }

    /** What `TransformVertices` needs to run on `n` vertices without an exception. */
    ghost predicate CanTransform(n: int)
      reads this
    {
      && WellFormed(bones)
      && (n > 0 ==> |boneTable| > 0)
      && forall i :: 0 <= i < n ==> Lookup(vertexTable, i).Some? && Resolves(boneTable, Lookup(vertexTable, i).value)
    }

    /**
     * Returns a new array whose element i is vertex i moved by the
     * accumulation over its influences, divided by the number of bones in
     * the dictionary.
     */
    method TransformVertices(lib: MatrixLibrary, basePoseVertices: array<Vector3>) returns (result: array<Vector3>)
      requires Valid() && CanTransform(basePoseVertices.Length)
      ensures fresh(result) && result.Length == basePoseVertices.Length
      ensures basePoseVertices[..] == old(basePoseVertices[..])
      ensures forall i :: 0 <= i < result.Length ==>
        result[i] == ToVector3(Divide(Accumulate(lib, bones, boneTable, Lookup(vertexTable, i).value, Point(basePoseVertices[i])),
                                      |boneTable| as real))
    {
      result := new Vector3[basePoseVertices.Length];
      forall j | 0 <= j < basePoseVertices.Length {
        result[j] := basePoseVertices[j];
      }
      var numberOfBones := |boneTable| as real;
      for i := 0 to basePoseVertices.Length
        invariant forall j :: 0 <= j < i ==>
          result[j] == ToVector3(Divide(Accumulate(lib, bones, boneTable, Lookup(vertexTable, j).value, Point(basePoseVertices[j])),
                                        numberOfBones))
      {
        var p := Point(basePoseVertices[i]);
        var influences := Lookup(vertexTable, i).value;
        var newPosition := Zero4;
        for k := 0 to |influences|
          invariant newPosition == Accumulate(lib, bones, boneTable, influences[..k], p)
        {
          var boneWeight := influences[k];
          assert influences[..k + 1][..k] == influences[..k];
          if Negligible(boneWeight.weight) {
            continue;
          }
          var currentBone := boneTable[boneWeight.boneId];
          var basePoseMatrix := BasePose(lib, bones, currentBone);
          var currentPoseMatrix := CurrentPose(lib, bones, currentBone);
          newPosition := Add(newPosition, lib.transform(lib.mul(currentPoseMatrix, basePoseMatrix), p));
          newPosition := Scale(newPosition, boneWeight.weight);
        }
        assert influences[..|influences|] == influences;
        newPosition := Divide(newPosition, numberOfBones);
        result[i] := ToVector3(newPosition);
      }
    }
  }
}
