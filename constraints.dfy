/** `BCLPNorm.imposeSinogramConstraints`: optional discretisation of the
    sinogram followed by an element-wise clamp into `[glb, gub]`. */
module Constraints {
  import opened Optional
  import opened SinogramShape

  /** `util.data.discretize(g, bit_depth, [lo, hi])`, whose code is not part
      of this model: it maps the elements of `g` onto levels. */
  type Discretizer = (seq<real>, nat, real, real) -> seq<real>

  /** The one thing assumed of discretisation: it keeps the number (and so,
      with the shape untouched, the layout) of the elements. */
  ghost predicate KeepsLength(discretize: Discretizer)
  {
    forall s, levels, lo, hi :: |discretize(s, levels, lo, hi)| == |s|
  }

  /** `np.clip(x, a_min=lo, a_max=hi)`, which is `min(max(x, lo), hi)`. */
  function Clip(x: real, lo: real, hi: real): (r: real)
    ensures lo <= hi ==> lo <= r <= hi
    ensures lo <= x <= hi ==> r == x
    ensures hi < lo ==> r == hi
    ensures r == x || r == lo || r == hi
  {
    var atLeastLo := if x < lo then lo else x;
    if atLeastLo > hi then hi else atLeastLo
  }

  /** Element-wise clip of a whole array. */
  function ClipAll(s: seq<real>, lo: real, hi: real): (r: seq<real>)
    ensures |r| == |s|
    ensures forall i :: 0 <= i < |s| ==> r[i] == Clip(s[i], lo, hi)
  {
    seq(|s|, i requires 0 <= i < |s| => Clip(s[i], lo, hi))
  }

  /** `np.amax(g)`: the largest element of a non-empty array. */
  function MaxOf(s: seq<real>): (m: real)
    requires |s| > 0
    ensures m in s
    ensures forall x :: x in s ==> x <= m
  {
    if |s| == 1 then s[0]
    else
      var rest := MaxOf(s[1..]);
      assert forall x :: x in s ==> x == s[0] || x in s[1..];
      if s[0] >= rest then s[0] else rest
  }

  /** The elements before the clamp: discretised over `[0, max(g)]` when a bit
      depth is configured (the lower end is 0, not the smallest element). */
  function Discretized(g: NdArray, bitDepth: Option<nat>, discretize: Discretizer): (r: seq<real>)
    requires bitDepth.Some? ==> |g.data| > 0
    requires KeepsLength(discretize)
    ensures |r| == |g.data|
  {
    match bitDepth
    case None => g.data
    case Some(depth) => discretize(g.data, depth, 0.0, MaxOf(g.data))
  }

  /** `imposeSinogramConstraints(g)`. */
  function ImposeSinogramConstraints(g: NdArray, bitDepth: Option<nat>, glb: real, gub: real,
                                     discretize: Discretizer): (r: NdArray)
    requires WellFormed(g)
    requires bitDepth.Some? ==> |g.data| > 0
    requires KeepsLength(discretize)
    ensures r.shape == g.shape && WellFormed(r)
    ensures glb <= gub ==> forall i :: 0 <= i < |r.data| ==> glb <= r.data[i] <= gub
    ensures gub < glb ==> forall i :: 0 <= i < |r.data| ==> r.data[i] == gub
    ensures bitDepth.None? ==> forall i :: 0 <= i < |r.data| ==> r.data[i] == Clip(g.data[i], glb, gub)
    ensures bitDepth.Some? ==>
      var pre := discretize(g.data, bitDepth.value, 0.0, MaxOf(g.data));
      forall i :: 0 <= i < |r.data| ==> r.data[i] == Clip(pre[i], glb, gub)
  {
    NdArray(g.shape, ClipAll(Discretized(g, bitDepth, discretize), glb, gub))
  }

  /** Without discretisation, imposing the constraints twice is the same as
      imposing them once. */
  lemma ImposeIdempotent(g: NdArray, glb: real, gub: real, discretize: Discretizer)
    requires WellFormed(g) && KeepsLength(discretize)
    ensures var once := ImposeSinogramConstraints(g, None, glb, gub, discretize);
            ImposeSinogramConstraints(once, None, glb, gub, discretize) == once
  {
    var once := ImposeSinogramConstraints(g, None, glb, gub, discretize);
    var twice := ImposeSinogramConstraints(once, None, glb, gub, discretize);
    assert twice.data == once.data;
  }

  /** Without discretisation, a sinogram already inside `[glb, gub]` is left as it is. */
  lemma ImposeKeepsFeasible(g: NdArray, glb: real, gub: real, discretize: Discretizer)
    requires WellFormed(g) && KeepsLength(discretize)
    requires forall i :: 0 <= i < |g.data| ==> glb <= g.data[i] <= gub
    ensures ImposeSinogramConstraints(g, None, glb, gub, discretize) == g
  {
    assert ImposeSinogramConstraints(g, None, glb, gub, discretize).data == g.data;
  }

  /** The distinct values (levels) an array takes. */
  function Levels(s: seq<real>): set<real>
  {
    set x | x in s
  }

  lemma LevelsCons(s: seq<real>)
    requires s != []
    ensures Levels(s) == Levels(s[1..]) + {s[0]}
  {
    assert forall x :: x in s <==> x == s[0] || x in s[1..];
  }

  lemma {:induction false} ClipAllAddsNoLevels(s: seq<real>, lo: real, hi: real)
    ensures |Levels(ClipAll(s, lo, hi))| <= |Levels(s)|
  {
    if s != [] {
      var c, cTail := ClipAll(s, lo, hi), ClipAll(s[1..], lo, hi);
      ClipAllAddsNoLevels(s[1..], lo, hi);
      assert c[1..] == cTail;
      LevelsCons(s);
      LevelsCons(c);
      if s[0] in s[1..] {
        var k :| 0 <= k < |s[1..]| && s[1..][k] == s[0];
        assert cTail[k] == c[0];
        assert Levels(c) == Levels(cTail);
      }
    }
  }

  /** Clamping never creates new levels: the clamped sinogram takes no more
      distinct values than the (possibly discretised) values it was clamped
      from, so a discretisation into at most k levels stays at most k levels. */
  lemma ImposeAddsNoLevels(g: NdArray, bitDepth: Option<nat>, glb: real, gub: real, discretize: Discretizer)
    requires WellFormed(g)
    requires bitDepth.Some? ==> |g.data| > 0
    requires KeepsLength(discretize)
    ensures |Levels(ImposeSinogramConstraints(g, bitDepth, glb, gub, discretize).data)|
            <= |Levels(Discretized(g, bitDepth, discretize))|
  {
    ClipAllAddsNoLevels(Discretized(g, bitDepth, discretize), glb, gub);
  }
}
