/**
  Decimal-scaling normalization: every value of an array is divided by the
  smallest power of ten (exponent 1 to 99) that brings the largest absolute
  value down to at most 1.  Values are exact reals.
 */
module DecimalNormalization {
  import opened Wrappers

  /** The two ways `Normalize` can throw. */
  datatype NormalizeError =
    | NoElements       // `rawValues.Max` on an empty array
    | TooManyDecimals  // no exponent in 1..99 brings the maximum within 1

  /** The search loop starts at this exponent ... */
  const FirstExponent: nat := 1
  /** ... and runs while the exponent is below this bound. */
  const ExponentBound: nat := 100
  /** The largest exponent tried. */
  const LastExponent: nat := ExponentBound - 1

  function Abs(x: real): real {
    if x < 0.0 then -x else x
  }

  function Pow10(e: nat): (p: real)
    ensures p >= 1.0
  {
    if e == 0 then 1.0 else 10.0 * Pow10(e - 1)
  }

  lemma {:induction false} Pow10Monotone(a: nat, b: nat)
    requires a <= b
    ensures Pow10(a) <= Pow10(b)
  {
    if a < b {
      Pow10Monotone(a, b - 1);
    }
  }

  /** The largest absolute value of a non-empty sequence (`rawValues.Max(Math.Abs)`). */
  function MaxAbs(s: seq<real>): (m: real)
    requires |s| > 0
    ensures forall i :: 0 <= i < |s| ==> Abs(s[i]) <= m
    ensures exists i :: 0 <= i < |s| && Abs(s[i]) == m
  {
    if |s| == 1 then Abs(s[0])
    else
      var init := s[..|s| - 1];
      var rest := MaxAbs(init);
      assert forall i :: 0 <= i < |s| - 1 ==> s[i] == init[i];
      if Abs(s[|s| - 1]) > rest then Abs(s[|s| - 1]) else rest
  }

  /** The test of the search loop: dividing the maximum by 10^e leaves at most 1. */
  predicate Fits(maxValue: real, e: nat) {
    maxValue / Pow10(e) <= 1.0
  }

  lemma FitsIff(maxValue: real, e: nat)
    ensures Fits(maxValue, e) <==> maxValue <= Pow10(e)
  {
  }

  /**
    The exponent the search loop settles on when it starts at `e`: the first
    exponent from `e` below `ExponentBound` that fits, or 0 (the loop's
    "not found" value) when none does.
   */
  function FirstFit(maxValue: real, e: nat): (r: nat)
    requires e >= FirstExponent
    decreases ExponentBound - e
    ensures r == 0 || (e <= r < ExponentBound && Fits(maxValue, r))
    ensures forall k :: e <= k < ExponentBound && (r == 0 || k < r) ==> !Fits(maxValue, k)
  {
    if e >= ExponentBound then 0
    else if Fits(maxValue, e) then e
    else FirstFit(maxValue, e + 1)
  }

  /** The value of `smallestMult` after the search: the chosen exponent, or 0 when none fits. */
  function SmallestMult(maxValue: real): nat {
    FirstFit(maxValue, FirstExponent)
  }

  /** The exponent `Normalize` divides by; 0 means it throws. */
  function NormalizationExponent(rawValues: seq<real>): nat
    requires |rawValues| > 0
  {
    SmallestMult(MaxAbs(rawValues))
  }

  /** Every value divided by 10^e. */
  function Scale(values: seq<real>, e: nat): seq<real> {
    seq(|values|, i requires 0 <= i < |values| => values[i] / Pow10(e))
  }

  /** Every value multiplied by 10^e: undoes `Scale`. */
  function Unscale(values: seq<real>, e: nat): seq<real> {
    seq(|values|, i requires 0 <= i < |values| => values[i] * Pow10(e))
  }

  /** What `Normalize` returns or throws for the given values. */
  function Normalized(rawValues: seq<real>): Result<seq<real>, NormalizeError> {
    if |rawValues| == 0 then Failure(NoElements)
    else
      var e := NormalizationExponent(rawValues);
      if e == 0 then Failure(TooManyDecimals) else Success(Scale(rawValues, e))
  }

  /**
    `Normalize`: the exponent search, then the element-wise division into a
    fresh array.  The input array is only read.
   */
  method Normalize(rawValues: array<real>) returns (r: Result<seq<real>, NormalizeError>)
    ensures r == Normalized(rawValues[..])
  {
    var normalizedValues := new real[rawValues.Length];
    if rawValues.Length == 0 {
      return Failure(NoElements);
    }
    var maxValue := MaxAbs(rawValues[..]);

    var smallestMult := 0;
    for i := 1 to ExponentBound
      invariant FirstFit(maxValue, i) == SmallestMult(maxValue)
      invariant smallestMult == 0
    {
      if !Fits(maxValue, i) {
        continue;
      }
      smallestMult := i;
      break;
    }

    if smallestMult == 0 {
      return Failure(TooManyDecimals);
    }

    for i := 0 to rawValues.Length
      invariant forall k :: 0 <= k < i ==> normalizedValues[k] == rawValues[k] / Pow10(smallestMult)
    {
      normalizedValues[i] := rawValues[i] / Pow10(smallestMult);
    }

    assert normalizedValues[..] == Scale(rawValues[..], smallestMult);
    return Success(normalizedValues[..]);
  }

  /** An exponent is found exactly when the maximum is at most 10^99. */
  lemma ExponentFoundIff(maxValue: real)
    ensures SmallestMult(maxValue) != 0 <==> maxValue <= Pow10(LastExponent)
  {
    var e := SmallestMult(maxValue);
    FitsIff(maxValue, LastExponent);
    if e != 0 {
      FitsIff(maxValue, e);
      Pow10Monotone(e, LastExponent);
    }
  }

  /** The chosen exponent is the smallest in 1..99 with maxValue <= 10^e. */
  lemma ExponentIsSmallest(maxValue: real)
    requires SmallestMult(maxValue) != 0
    ensures FirstExponent <= SmallestMult(maxValue) <= LastExponent
    ensures maxValue <= Pow10(SmallestMult(maxValue))
    ensures forall k :: FirstExponent <= k < SmallestMult(maxValue) ==> Pow10(k) < maxValue
  {
    var e := SmallestMult(maxValue);
    FitsIff(maxValue, e);
    forall k | FirstExponent <= k < e
      ensures Pow10(k) < maxValue
    {
      FitsIff(maxValue, k);
    }
  }

  /** A maximum of at most 10 (all values in [-1, 1] and all-zero arrays included) still uses exponent 1. */
  lemma SmallMaximumUsesExponentOne(maxValue: real)
    requires maxValue <= 10.0
    ensures SmallestMult(maxValue) == 1
  {
  }

  /** Normalize throws exactly on an empty array or a maximum above 10^99, and says which. */
  lemma NormalizedFailsIff(rawValues: seq<real>)
    ensures Normalized(rawValues).Failure? <==>
      |rawValues| == 0 || MaxAbs(rawValues) > Pow10(LastExponent)
    ensures Normalized(rawValues) == Failure(NoElements) <==> |rawValues| == 0
  {
    if |rawValues| > 0 {
      ExponentFoundIff(MaxAbs(rawValues));
    }
  }

  /** A value no larger in magnitude than p > 0 divides into [-1, 1]. */
  lemma DivisionWithinUnit(x: real, p: real)
    requires p > 0.0 && Abs(x) <= p
    ensures -1.0 <= x / p <= 1.0
  {
  }

  /** Dividing by p != 0 and multiplying back by p is the identity. */
  lemma DivideThenMultiply(x: real, p: real)
    requires p != 0.0
    ensures x / p * p == x
  {
  }

  /** On success the result has the input's length and every value is within [-1, 1]. */
  lemma NormalizedWithinUnit(rawValues: seq<real>)
    requires Normalized(rawValues).Success?
    ensures |Normalized(rawValues).value| == |rawValues|
    ensures forall i :: 0 <= i < |rawValues| ==>
      -1.0 <= Normalized(rawValues).value[i] <= 1.0
  {
    var m := MaxAbs(rawValues);
    var e := NormalizationExponent(rawValues);
    var p := Pow10(e);
    ExponentIsSmallest(m);
    var out := Normalized(rawValues).value;
    assert out == Scale(rawValues, e);
    forall i | 0 <= i < |rawValues|
      ensures -1.0 <= out[i] <= 1.0
    {
      assert Abs(rawValues[i]) <= m;
      DivisionWithinUnit(rawValues[i], p);
    }
  }

  /** Unscale undoes Scale for every exponent. */
  lemma UnscaleScale(values: seq<real>, e: nat)
    ensures Unscale(Scale(values, e), e) == values
  {
    var p := Pow10(e);
    var scaled := Scale(values, e);
    var back := Unscale(scaled, e);
    forall i | 0 <= i < |values|
      ensures back[i] == values[i]
    {
      var x, q := values[i], scaled[i];
      assert q == x / p;
      DivideThenMultiply(x, p);
      assert back[i] == q * p;
    }
  }

  /** Round trip: multiplying the output by 10^e gives back the input exactly. */
  lemma NormalizedRoundTrip(rawValues: seq<real>)
    requires Normalized(rawValues).Success?
    ensures Unscale(Normalized(rawValues).value, NormalizationExponent(rawValues)) == rawValues
  {
    UnscaleScale(rawValues, NormalizationExponent(rawValues));
  }

  /** The four arrays the split produces: training and held-out ("out of sample") inputs and outputs. */
  datatype Parts = Parts(trainingInputs: seq<real>, trainingOutputs: seq<real>, oosInputs: seq<real>, oosOutputs: seq<real>)

  /** Every part scaled by its own exponent. */
  predicate ScaledPartwise(split: Parts, normalized: Parts)
    requires |split.trainingInputs| > 0 && |split.trainingOutputs| > 0
    requires |split.oosInputs| > 0 && |split.oosOutputs| > 0
  {
    normalized.trainingInputs == Scale(split.trainingInputs, NormalizationExponent(split.trainingInputs)) &&
    normalized.trainingOutputs == Scale(split.trainingOutputs, NormalizationExponent(split.trainingOutputs)) &&
    normalized.oosInputs == Scale(split.oosInputs, NormalizationExponent(split.oosInputs)) &&
    normalized.oosOutputs == Scale(split.oosOutputs, NormalizationExponent(split.oosOutputs))
  }

  /**
    `PrepareData`: split (the splitting helper is a parameter), then normalize
    each of the four parts on its own; the first part that throws decides the error.
   */
  function PrepareData(inputs: seq<real>, outputs: seq<real>, trainingSize: int,
                       splitData: (seq<real>, seq<real>, int) -> Parts): (r: Result<Parts, NormalizeError>)
    ensures var p := splitData(inputs, outputs, trainingSize);
      r.Success? <==>
        (|p.trainingInputs| > 0 && MaxAbs(p.trainingInputs) <= Pow10(LastExponent)) &&
        (|p.trainingOutputs| > 0 && MaxAbs(p.trainingOutputs) <= Pow10(LastExponent)) &&
        (|p.oosInputs| > 0 && MaxAbs(p.oosInputs) <= Pow10(LastExponent)) &&
        (|p.oosOutputs| > 0 && MaxAbs(p.oosOutputs) <= Pow10(LastExponent))
    ensures var p := splitData(inputs, outputs, trainingSize);
      r.Success? ==>
        |p.trainingInputs| > 0 && |p.trainingOutputs| > 0 && |p.oosInputs| > 0 && |p.oosOutputs| > 0 &&
        ScaledPartwise(p, r.value)
    ensures var p := splitData(inputs, outputs, trainingSize);
      r.Failure? ==>
        if Normalized(p.trainingInputs).Failure? then r.error == Normalized(p.trainingInputs).error
        else if Normalized(p.trainingOutputs).Failure? then r.error == Normalized(p.trainingOutputs).error
        else if Normalized(p.oosInputs).Failure? then r.error == Normalized(p.oosInputs).error
        else Normalized(p.oosOutputs).Failure? && r.error == Normalized(p.oosOutputs).error
  {
    var p := splitData(inputs, outputs, trainingSize);
    NormalizedFailsIff(p.trainingInputs);
    NormalizedFailsIff(p.trainingOutputs);
    NormalizedFailsIff(p.oosInputs);
    NormalizedFailsIff(p.oosOutputs);
    var ti, to, oi, oo := Normalized(p.trainingInputs), Normalized(p.trainingOutputs),
                          Normalized(p.oosInputs), Normalized(p.oosOutputs);
    if ti.Failure? then Failure(ti.error)
    else if to.Failure? then Failure(to.error)
    else if oi.Failure? then Failure(oi.error)
    else if oo.Failure? then Failure(oo.error)
    else Success(Parts(ti.value, to.value, oi.value, oo.value))
  }

  /**
    The parts are scaled independently: a training part with maximum 50 and a
    held-out part with maximum 5 are divided by 100 and by 10, so both end at 0.5.
   */
  lemma PartsUseTheirOwnExponents(splitData: (seq<real>, seq<real>, int) -> Parts, inputs: seq<real>, outputs: seq<real>, trainingSize: int)
    requires splitData(inputs, outputs, trainingSize) == Parts([50.0, 20.0], [50.0], [5.0], [5.0])
    ensures PrepareData(inputs, outputs, trainingSize, splitData) ==
      Success(Parts([0.5, 0.2], [0.5], [0.5], [0.5]))
  {
    assert MaxAbs([50.0, 20.0]) == 50.0 by {
      assert [50.0, 20.0][..1] == [50.0];
    }
    assert MaxAbs([50.0]) == 50.0;
    assert MaxAbs([5.0]) == 5.0;
    SmallMaximumUsesExponentOne(5.0);
    FitsIff(50.0, 1);
    FitsIff(50.0, 2);
    assert SmallestMult(50.0) == 2;
    assert Scale([50.0, 20.0], 2) == [0.5, 0.2];
    assert Scale([50.0], 2) == [0.5];
    assert Scale([5.0], 1) == [0.5];
  }
}
