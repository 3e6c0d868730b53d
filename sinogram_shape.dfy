/** numpy arrays as a shape plus their elements in row-major order, and the
    reshaping between the flattened and the native ("cylindrical") sinogram
    shape that `BCLPNorm.checkSinogramShape` performs. */
module SinogramShape {
  import opened Optional

  /** A numpy array: its shape and its elements in row-major (C) order. */
  datatype NdArray = NdArray(shape: seq<nat>, data: seq<real>)

  /** Number of elements of an array of the given shape (`np.product(shape)`). */
  function Product(shape: seq<nat>): (n: nat)
    ensures |shape| == 1 ==> n == shape[0]
  {
    if shape == [] then 1 else shape[0] * Product(shape[1..])
  }

  /** A numpy array always holds exactly as many elements as its shape says. */
  predicate WellFormed(a: NdArray)
  {
    |a.data| == Product(a.shape)
  }

  const FlattenedShape: string := "flattened"
  const CylindricalShape: string := "cylindrical"

  /** `checkSinogramShape(g, desired_shape)`: flatten an N-D array, or give a
      1-D array the native shape `g0Shape`; anything else is returned as it is.
      `None` is numpy's error for reshaping to a shape of another size. */
  function CheckSinogramShape(g: NdArray, desiredShape: string, g0Shape: seq<nat>): (r: Option<NdArray>)
    requires WellFormed(g)
    ensures r.Some? ==> WellFormed(r.value) && r.value.data == g.data
    ensures r.None? <==> desiredShape == CylindricalShape && |g.shape| == 1 && |g.data| != Product(g0Shape)
    ensures r.Some? && desiredShape == FlattenedShape ==> |r.value.shape| <= 1
    ensures r.Some? && desiredShape == CylindricalShape && |g.shape| == 1 ==> r.value.shape == g0Shape
    ensures desiredShape == FlattenedShape && |g.shape| <= 1 ==> r == Some(g)
    ensures desiredShape == CylindricalShape && |g.shape| != 1 ==> r == Some(g)
    ensures desiredShape != FlattenedShape && desiredShape != CylindricalShape ==> r == Some(g)
  {
    if desiredShape == FlattenedShape then
      if |g.shape| > 1 then Some(NdArray([Product(g.shape)], g.data)) else Some(g)
    else if desiredShape == CylindricalShape then
      if |g.shape| == 1 then
        if |g.data| == Product(g0Shape) then Some(NdArray(g0Shape, g.data)) else None
      else Some(g)
    else Some(g)
  }

  /** Flattening an array of the native shape and reshaping it back to the
      native shape gives the same array: same elements, same order. */
  lemma FlattenThenCylindrical(g: NdArray)
    requires WellFormed(g)
    ensures CheckSinogramShape(g, FlattenedShape, g.shape).Some?
    ensures CheckSinogramShape(CheckSinogramShape(g, FlattenedShape, g.shape).value, CylindricalShape, g.shape) == Some(g)
  {
    if |g.shape| > 1 {
      assert Product([Product(g.shape)]) == Product(g.shape);
    }
  }

  /** A flattened array of as many elements as the native shape holds survives
      the trip to the native shape and back. */
  lemma CylindricalThenFlatten(g: NdArray, g0Shape: seq<nat>)
    requires WellFormed(g) && |g.shape| == 1
    requires |g0Shape| >= 1 && |g.data| == Product(g0Shape)
    ensures CheckSinogramShape(g, CylindricalShape, g0Shape).Some?
    ensures CheckSinogramShape(CheckSinogramShape(g, CylindricalShape, g0Shape).value, FlattenedShape, g0Shape) == Some(g)
  {
    assert Product([g.shape[0]]) == g.shape[0];
    assert g.shape == [g.shape[0]];
    if |g0Shape| == 1 {
      assert Product([g0Shape[0]]) == g0Shape[0];
      assert g0Shape == [g0Shape[0]];
    }
  }
}
