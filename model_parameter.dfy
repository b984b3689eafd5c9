/** The parameter of a morphable-model blend: one weight per base model for
    vertex positions and one for colours, held in two arrays of fixed length
    `modelCount` that the object's own operations fill in place. */
module Model {
  import opened Weights

  /** The invalid-argument error `linearApplication` throws. */
  datatype Error = IllegalArgument(message: string)

  datatype Result<T> = Success(value: T) | Failure(error: Error)

  const IncoherentModelCount: string := "Incoherent number of model count."

  /** The draw transform of random construction: a uniform sample raised to the power 3. */
  function Cube(r: real): real
  {
    r * r * r
  }

  function Cubes(draws: seq<real>): (r: seq<real>)
    ensures |r| == |draws|
  {
    seq(|draws|, i requires 0 <= i < |draws| => Cube(draws[i]))
  }

  /** Cubing keeps non-negative draws non-negative and positive draws positive,
      so a draw stream with one positive sample gives a positive total. */
  lemma CubesPositiveTotal(draws: seq<real>)
    requires NonNegative(draws)
    requires exists k :: 0 <= k < |draws| && 0.0 < draws[k]
    ensures NonNegative(Cubes(draws))
    ensures 0.0 < Sum(Cubes(draws))
  {
    var c := Cubes(draws);
    forall i | 0 <= i < |c|
      ensures 0.0 <= c[i]
    {
      var r := draws[i];
      assert 0.0 <= r * r;
      assert c[i] == (r * r) * r;
    }
    var k :| 0 <= k < |draws| && 0.0 < draws[k];
    var r := draws[k];
    assert 0.0 < r * r;
    assert 0.0 < (r * r) * r == c[k];
    SumPositive(c, k);
  }

  /** The weight vector random construction produces from one stream of
      uniform samples: the cubed samples divided by their total. */
  ghost function RandomWeights(draws: seq<real>): (r: seq<real>)
    requires NonNegative(draws)
    requires exists k :: 0 <= k < |draws| && 0.0 < draws[k]
    ensures |r| == |draws| && IsConvex(r)
  {
    CubesPositiveTotal(draws);
    NormalizedIsConvex(Cubes(draws));
    Normalized(Cubes(draws))
  }

  class ModelParameter {
    const verticesWeight: array<real>
    const colorWeight: array<real>
    const modelCount: nat

    /** Both arrays have `modelCount` entries (at least one, since entry 0 is
        always written) and are distinct objects. */
    predicate Valid()
    {
      && modelCount >= 1
      && verticesWeight.Length == modelCount
      && colorWeight.Length == modelCount
      && verticesWeight != colorWeight
    }

    /** The identity parameter: weight 1 on model 0, 0 on every other model. */
    constructor (modelCount: nat)
      requires modelCount >= 1
      ensures Valid() && this.modelCount == modelCount
      ensures fresh(verticesWeight) && fresh(colorWeight)
      ensures verticesWeight[..] == Identity(modelCount)
      ensures colorWeight[..] == Identity(modelCount)
      ensures IsConvex(verticesWeight[..]) && IsConvex(colorWeight[..])
    {
      verticesWeight := new real[modelCount];
      colorWeight := new real[modelCount];
      this.modelCount := modelCount;
      new;
      verticesWeight[0] := 1.0;
      colorWeight[0] := 1.0;

      var x := 1;
      while x < modelCount
        invariant 1 <= x <= modelCount
        invariant verticesWeight[0] == 1.0 && colorWeight[0] == 1.0
        invariant forall i :: 1 <= i < x ==> verticesWeight[i] == 0.0
        invariant forall i :: 1 <= i < x ==> colorWeight[i] == 0.0
      {
        verticesWeight[x] := 0.0;
        colorWeight[x] := 0.0;
        x := x + 1;
      }
      IdentityIsConvex(modelCount);
      assert verticesWeight[..] == Identity(modelCount);
      assert colorWeight[..] == Identity(modelCount);
    }

    /** A random parameter. Sample `x` of `vertexDraws` and of `colorDraws`
        stands for the two uniform samples taken for model `x`; each is cubed
        and both vectors are then normalised. */
    static method GetRandom(modelCount: nat, vertexDraws: seq<real>, colorDraws: seq<real>)
      returns (param: ModelParameter)
      requires modelCount >= 1
      requires |vertexDraws| == modelCount && |colorDraws| == modelCount
      requires NonNegative(vertexDraws) && NonNegative(colorDraws)
      requires exists k :: 0 <= k < modelCount && 0.0 < vertexDraws[k]
      requires exists k :: 0 <= k < modelCount && 0.0 < colorDraws[k]
      ensures fresh(param) && fresh(param.verticesWeight) && fresh(param.colorWeight)
      ensures param.Valid() && param.modelCount == modelCount
      ensures param.verticesWeight[..] == RandomWeights(vertexDraws)
      ensures param.colorWeight[..] == RandomWeights(colorDraws)
    {
      param := new ModelParameter(modelCount);

      var x := 0;
      while x < modelCount
        invariant 0 <= x <= modelCount
        invariant forall i :: 0 <= i < x ==> param.verticesWeight[i] == Cube(vertexDraws[i])
        invariant forall i :: 0 <= i < x ==> param.colorWeight[i] == Cube(colorDraws[i])
      {
        param.verticesWeight[x] := Cube(vertexDraws[x]);
        param.colorWeight[x] := Cube(colorDraws[x]);
        x := x + 1;
      }
      assert param.verticesWeight[..] == Cubes(vertexDraws);
      assert param.colorWeight[..] == Cubes(colorDraws);

      CubesPositiveTotal(vertexDraws);
      CubesPositiveTotal(colorDraws);
      param.Normalize();
    }

    /** The number of base models. */
    function GetModelCount(): (n: nat)
      requires Valid()
      ensures 1 <= n && n == verticesWeight.Length == colorWeight.Length
    {
      modelCount
    }

    /** The live vertex-weight array, not a copy: writes through it change this parameter. */
    function GetVerticesWeight(): (w: array<real>)
      requires Valid()
      ensures w == verticesWeight && w.Length == modelCount
    {
      verticesWeight
    }

    /** The live colour-weight array, not a copy: writes through it change this parameter. */
    function GetColorWeight(): (w: array<real>)
      requires Valid()
      ensures w == colorWeight && w.Length == modelCount
    {
      colorWeight
    }

    /** `(1 - alpha) * this + alpha * target`, as a fresh parameter; fails when
        the two operands blend different numbers of models. Neither operand changes. */
    method LinearApplication(target: ModelParameter, alpha: real) returns (r: Result<ModelParameter>)
      requires Valid() && target.Valid()
      ensures r.Failure? <==> modelCount != target.modelCount
      ensures r.Failure? ==> r.error == IllegalArgument(IncoherentModelCount)
      ensures r.Success? ==>
        && fresh(r.value) && fresh(r.value.verticesWeight) && fresh(r.value.colorWeight)
        && r.value.Valid() && r.value.modelCount == modelCount
        && r.value.verticesWeight[..] == Interpolate(verticesWeight[..], target.verticesWeight[..], alpha)
        && r.value.colorWeight[..] == Interpolate(colorWeight[..], target.colorWeight[..], alpha)
      ensures unchanged(verticesWeight, colorWeight, target.verticesWeight, target.colorWeight)
    {
      if modelCount != target.modelCount {
        return Failure(IllegalArgument(IncoherentModelCount));
      }

      var result := new ModelParameter(modelCount);

      var x := 0;
      while x < modelCount
        invariant 0 <= x <= modelCount
        invariant fresh(result.verticesWeight) && fresh(result.colorWeight)
        invariant forall i :: 0 <= i < x ==>
          result.colorWeight[i] == Lerp(colorWeight[i], target.colorWeight[i], alpha)
        invariant forall i :: 0 <= i < x ==>
          result.verticesWeight[i] == Lerp(verticesWeight[i], target.verticesWeight[i], alpha)
      {
        result.colorWeight[x] := Lerp(colorWeight[x], target.colorWeight[x], alpha);
        result.verticesWeight[x] := Lerp(verticesWeight[x], target.verticesWeight[x], alpha);
        x := x + 1;
      }
      assert result.verticesWeight[..] == Interpolate(verticesWeight[..], target.verticesWeight[..], alpha);
      assert result.colorWeight[..] == Interpolate(colorWeight[..], target.colorWeight[..], alpha);
      return Success(result);
    }

    /** Divides each array in place by its own total, so that each sums to one. */
    method Normalize()
      requires Valid()
      requires Sum(verticesWeight[..]) != 0.0 && Sum(colorWeight[..]) != 0.0
      modifies verticesWeight, colorWeight
      ensures verticesWeight[..] == Normalized(old(verticesWeight[..]))
      ensures colorWeight[..] == Normalized(old(colorWeight[..]))
      ensures Sum(verticesWeight[..]) == 1.0 && Sum(colorWeight[..]) == 1.0
    {
      var totalVertices := 0.0;
      var totalColor := 0.0;
      var x := 0;
      while x < modelCount
        invariant 0 <= x <= modelCount
        modifies {}
        invariant totalVertices == Sum(verticesWeight[..x])
        invariant totalColor == Sum(colorWeight[..x])
      {
        SumPrefixStep(verticesWeight[..], x);
        SumPrefixStep(colorWeight[..], x);
        totalVertices := totalVertices + verticesWeight[x];
        totalColor := totalColor + colorWeight[x];
        x := x + 1;
      }
      assert verticesWeight[..x] == verticesWeight[..];
      assert colorWeight[..x] == colorWeight[..];
      assert verticesWeight[..] == old(verticesWeight[..]);
      assert colorWeight[..] == old(colorWeight[..]);
      assert totalVertices == Sum(old(verticesWeight[..]));
      assert totalColor == Sum(old(colorWeight[..]));

      x := 0;
      while x < modelCount
        invariant 0 <= x <= modelCount
        invariant forall i :: 0 <= i < x ==> verticesWeight[i] == old(verticesWeight[i]) / totalVertices
        invariant forall i :: x <= i < modelCount ==> verticesWeight[i] == old(verticesWeight[i])
        invariant forall i :: 0 <= i < x ==> colorWeight[i] == old(colorWeight[i]) / totalColor
        invariant forall i :: x <= i < modelCount ==> colorWeight[i] == old(colorWeight[i])
      {
        verticesWeight[x] := verticesWeight[x] / totalVertices;
        colorWeight[x] := colorWeight[x] / totalColor;
        x := x + 1;
      }
      assert verticesWeight[..] == Normalized(old(verticesWeight[..]));
      assert colorWeight[..] == Normalized(old(colorWeight[..]));
      NormalizedSumsToOne(old(verticesWeight[..]));
      NormalizedSumsToOne(old(colorWeight[..]));
    }
  }

  /** A client of the class: the three-model blend of an identity parameter
      with one whose weights were set through the accessors, and a blend of
      mismatched sizes. */
  method BlendScenario()
  {
    var a := new ModelParameter(3);
    var b := new ModelParameter(3);
    var bv := b.GetVerticesWeight();
    bv[0], bv[1] := 0.0, 1.0;
    var bc := b.GetColorWeight();
    bc[0], bc[2] := 0.0, 1.0;
    assert b.verticesWeight[..] == [0.0, 1.0, 0.0];
    assert b.colorWeight[..] == [0.0, 0.0, 1.0];

    var r := a.LinearApplication(b, 0.5);
    assert a.verticesWeight[..] == [1.0, 0.0, 0.0];
    assert r.value.verticesWeight[..] == [0.5, 0.5, 0.0];
    assert r.value.colorWeight[..] == [0.5, 0.0, 0.5];

    var c := new ModelParameter(2);
    var e := a.LinearApplication(c, 0.5);
    assert e == Failure(IllegalArgument(IncoherentModelCount));
  }
}
