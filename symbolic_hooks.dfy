/**
 * The heuristic gesture classifier: a fixed-priority threshold rule over the five
 * fingertip-to-wrist distances of the first hand, each normalised by the
 * wrist-to-middle-base distance plus a small epsilon.
 *
 * Dafny's reals have no square root, so the model never computes a distance. It
 * keeps squared distances and decides every comparison "sqrt(D) / (sqrt(S) + eps)
 * against a threshold" exactly by squaring (NormAbove, NormBelow). The lemma
 * NormComparisons shows that these decisions coincide with the real-valued
 * comparisons for any square roots of D and S.
 */
module SymbolicHooks {
  import opened Wrappers
  import opened Landmarks
  import opened RealArith

  /** The epsilon added to the hand-scale reference. */
  const ScaleEpsilon: real := 0.000001
  /** A finger is extended when its normalised distance exceeds this. */
  const OpenThreshold: real := 1.8
  /** A finger is curled when its normalised distance is below this. */
  const FistThreshold: real := 1.0

  /** Landmark indices of the five fingertips: thumb, index, middle, ring, pinky. */
  const FingerTips: seq<nat> := [4, 8, 12, 16, 20]
  const WristIndex: nat := 0
  /** The middle-finger base, whose distance to the wrist is the hand scale. */
  const MiddleBaseIndex: nat := 9

  const IndexFinger: nat := 1

  datatype Classification = Classification(gesture: Option<string>, symbol: Option<string>)

  const OpenPalm := Classification(Some("OPEN_PALM"), Some("#FLAME[RISE]"))
  const Fist := Classification(Some("FIST"), Some("#STONE[SEAL]"))
  const Pointing := Classification(Some("POINT"), Some("#ARROW[TRUE]"))
  const NoGesture := Classification(None, None)

  /**
   * The square of `_distance(a, b)`: planar Euclidean distance over x and y only.
   */
  function SqDistance(a: Point, b: Point): (r: real)
    ensures r >= 0.0
  {
    SumOfSquaresPos(a.x - b.x, a.y - b.y);
    (a.x - b.x) * (a.x - b.x) + (a.y - b.y) * (a.y - b.y)
  }

  /**
   * `sqrt(dd) / (sqrt(ss) + ScaleEpsilon) > c`, decided on the squares. With
   * l = dd - c^2 ss - c^2 eps^2 and m = 2 c^2 eps sqrt(ss) >= 0 the comparison is
   * l > m, that is l > 0 and l^2 > m^2.
   */
  predicate NormAbove(dd: real, ss: real, c: real) {
    var l := dd - c * c * ss - c * c * ScaleEpsilon * ScaleEpsilon;
    l > 0.0 && l * l > 4.0 * c * c * c * c * ScaleEpsilon * ScaleEpsilon * ss
  }

  /** `sqrt(dd) / (sqrt(ss) + ScaleEpsilon) < c`, decided on the squares: l < m. */
  predicate NormBelow(dd: real, ss: real, c: real) {
    var l := dd - c * c * ss - c * c * ScaleEpsilon * ScaleEpsilon;
    l < 0.0 || l * l < 4.0 * c * c * c * c * ScaleEpsilon * ScaleEpsilon * ss
  }

  /** Squared distance from fingertip `f` (0 = thumb .. 4 = pinky) to the wrist. */
  function TipSqDistance(lm: HandLandmarks, f: nat): real
    requires f < 5
  {
    SqDistance(lm[FingerTips[f]], lm[WristIndex])
  }

  /** Squared hand scale: wrist to middle-finger base. */
  function ScaleSqDistance(lm: HandLandmarks): real {
    SqDistance(lm[WristIndex], lm[MiddleBaseIndex])
  }

  /** `norm_dists[f] > open_thresh` */
  predicate Extended(lm: HandLandmarks, f: nat)
    requires f < 5
  {
    NormAbove(TipSqDistance(lm, f), ScaleSqDistance(lm), OpenThreshold)
  }

  /** `norm_dists[f] < fist_thresh` */
  predicate Curled(lm: HandLandmarks, f: nat)
    requires f < 5
  {
    NormBelow(TipSqDistance(lm, f), ScaleSqDistance(lm), FistThreshold)
  }

  /** Index, middle, ring and pinky all extended; the thumb is ignored. */
  predicate IsOpenPalm(lm: HandLandmarks) {
    forall f :: 1 <= f < 5 ==> Extended(lm, f)
  }

  /** All five fingers, thumb included, curled. */
  predicate IsFist(lm: HandLandmarks) {
    forall f :: 0 <= f < 5 ==> Curled(lm, f)
  }

  /** Index extended and the four other fingers curled. */
  predicate IsPoint(lm: HandLandmarks) {
    Extended(lm, IndexFinger) && forall f :: 0 <= f < 5 && f != IndexFinger ==> Curled(lm, f)
  }

  /**
   * What NormAbove and NormBelow mean: for any non-negative d and s, they decide
   * the comparison of d / (s + ScaleEpsilon) with c given only d*d and s*s. The
   * divisor is strictly positive, so the normalisation never divides by zero.
   */
  lemma NormComparisons(d: real, s: real, c: real)
    requires d >= 0.0 && s >= 0.0 && c > 0.0
    ensures s + ScaleEpsilon > 0.0
    ensures NormAbove(d * d, s * s, c) <==> d / (s + ScaleEpsilon) > c
    ensures NormBelow(d * d, s * s, c) <==> d / (s + ScaleEpsilon) < c
  {
    var e := ScaleEpsilon;
    var t := c * (s + e);
    var l := d * d - c * c * (s * s) - c * c * e * e;
    var m := 2.0 * c * c * e * s;
    assert t >= 0.0;
    assert m >= 0.0 by { assert c * c >= 0.0; assert c * c * e >= 0.0; }
    assert t * t == c * c * (s * s) + m + c * c * e * e;
    assert m * m == 4.0 * c * c * c * c * e * e * (s * s);
    DivideLess(d, s + e, c);
    SquareLess(d, t);
    SquareLess(t, d);
    assert d > t <==> l > m;
    assert d < t <==> l < m;
    if l >= 0.0 {
      SquareLess(l, m);
      SquareLess(m, l);
    }
  }

  /**
   * A finger cannot be both extended and curled: sqrt(dd) exceeding 1.8 scales
   * rules out its being below 1.0 scale. Proved on the squares, without roots.
   */
  lemma ExtendedExcludesCurled(dd: real, ss: real)
    requires dd >= 0.0 && ss >= 0.0
    ensures NormAbove(dd, ss, OpenThreshold) ==> !NormBelow(dd, ss, FistThreshold)
  {
    if NormAbove(dd, ss, OpenThreshold) {
      var e2 := ScaleEpsilon * ScaleEpsilon;
      var a := ss + e2;
      var l0 := dd - a;
      assert dd - 3.24 * a > 0.0;
      assert l0 >= 2.24 * a >= 0.0;
      assert (ss - e2) * (ss - e2) >= 0.0;
      assert a * a >= 4.0 * e2 * ss;
      assert l0 * l0 >= (2.24 * a) * (2.24 * a) by {
        SquareLess(l0, 2.24 * a);
      }
      assert l0 * l0 >= 4.0 * e2 * ss;
    }
  }

  /** Extended and curled exclude each other for every finger of every hand. */
  lemma FingerStatesExclusive(lm: HandLandmarks, f: nat)
    requires f < 5
    ensures Extended(lm, f) ==> !Curled(lm, f)
  {
    ExtendedExcludesCurled(TipSqDistance(lm, f), ScaleSqDistance(lm));
  }

  /** The three poses are pairwise mutually exclusive. */
  lemma PosesExclusive(lm: HandLandmarks)
    ensures !(IsOpenPalm(lm) && IsFist(lm))
    ensures !(IsOpenPalm(lm) && IsPoint(lm))
    ensures !(IsFist(lm) && IsPoint(lm))
  {
    FingerStatesExclusive(lm, 1);
    FingerStatesExclusive(lm, 2);
  }

  /**
   * `GestureClassifier.classify`. Because the three poses exclude each other, the
   * fixed priority order never matters: each gesture is returned exactly when its
   * pose holds of the first hand, and nothing is returned otherwise.
   */
  function Classify(hands: seq<Hand>): (r: Classification)
    ensures r == OpenPalm || r == Fist || r == Pointing || r == NoGesture
    ensures r.gesture.Some? <==> r.symbol.Some?
    ensures hands == [] ==> r == NoGesture
    ensures hands != [] ==> (r == OpenPalm <==> IsOpenPalm(hands[0].landmarks))
    ensures hands != [] ==> (r == Fist <==> IsFist(hands[0].landmarks))
    ensures hands != [] ==> (r == Pointing <==> IsPoint(hands[0].landmarks))
  {
    if hands == [] then NoGesture
    else
      var lm := hands[0].landmarks;
      PosesExclusive(lm);
      if forall f | 1 <= f < 5 :: Extended(lm, f) then OpenPalm
      else if forall f | 0 <= f < 5 :: Curled(lm, f) then Fist
      else if Extended(lm, IndexFinger) && forall f | 0 <= f < 5 && f != IndexFinger :: Curled(lm, f) then Pointing
      else NoGesture
  }

  /** The source's normalised distance `d / (s + 1e-6)`; the divisor is never zero. */
  function NormDistance(d: real, s: real): real
    requires s >= 0.0
  {
    d / (s + ScaleEpsilon)
  }

  /**
   * One finger's state in terms of real distances: with df and s any non-negative
   * square roots of the squared fingertip and scale distances, the finger is
   * extended exactly when df / (s + eps) > 1.8 and curled exactly when it is < 1.0.
   */
  lemma FingerStateByNormalisedDistance(lm: HandLandmarks, f: nat, df: real, s: real)
    requires f < 5
    requires df >= 0.0 && df * df == TipSqDistance(lm, f)
    requires s >= 0.0 && s * s == ScaleSqDistance(lm)
    ensures Extended(lm, f) <==> NormDistance(df, s) > OpenThreshold
    ensures Curled(lm, f) <==> NormDistance(df, s) < FistThreshold
  {
    NormComparisons(df, s, OpenThreshold);
    NormComparisons(df, s, FistThreshold);
  }

  /**
   * The classification in terms of the source's real-valued normalised distances:
   * given the five fingertip distances d and the scale distance s (any non-negative
   * square roots of the squared distances), each gesture is returned exactly when
   * its threshold rule over d[f] / (s + 1e-6) holds.
   */
  lemma ClassifyByNormalisedDistances(hands: seq<Hand>, d: seq<real>, s: real)
    requires hands != []
    requires |d| == 5
    requires forall f :: 0 <= f < 5 ==> d[f] >= 0.0 && d[f] * d[f] == TipSqDistance(hands[0].landmarks, f)
    requires s >= 0.0 && s * s == ScaleSqDistance(hands[0].landmarks)
    ensures Classify(hands) == OpenPalm <==>
      forall f :: 1 <= f < 5 ==> NormDistance(d[f], s) > OpenThreshold
    ensures Classify(hands) == Fist <==>
      forall f :: 0 <= f < 5 ==> NormDistance(d[f], s) < FistThreshold
    ensures Classify(hands) == Pointing <==>
      (NormDistance(d[IndexFinger], s) > OpenThreshold &&
       forall f :: 0 <= f < 5 && f != IndexFinger ==> NormDistance(d[f], s) < FistThreshold)
  {
    var lm := hands[0].landmarks;
    forall f | 0 <= f < 5
      ensures Extended(lm, f) <==> NormDistance(d[f], s) > OpenThreshold
      ensures Curled(lm, f) <==> NormDistance(d[f], s) < FistThreshold
    {
      FingerStateByNormalisedDistance(lm, f, d[f], s);
    }
  }

  /** Only the first hand matters: further hands never change the classification. */
  lemma ClassifyUsesFirstHandOnly(hands: seq<Hand>, more: seq<Hand>)
    requires hands != []
    ensures Classify(hands + more) == Classify(hands)
    ensures Classify(hands) == Classify([hands[0]])
  {
    assert (hands + more)[0] == hands[0];
  }

  /** The depth coordinate never matters: hands equal in x and y classify alike. */
  lemma ClassifyIgnoresDepth(h1: Hand, h2: Hand)
    requires forall i :: 0 <= i < NumLandmarks ==>
      h1.landmarks[i].x == h2.landmarks[i].x && h1.landmarks[i].y == h2.landmarks[i].y
    ensures Classify([h1]) == Classify([h2])
  {
    var l1, l2 := h1.landmarks, h2.landmarks;
    assert ScaleSqDistance(l1) == ScaleSqDistance(l2);
    forall f | 0 <= f < 5
      ensures TipSqDistance(l1, f) == TipSqDistance(l2, f)
    {
      assert FingerTips[f] < NumLandmarks;
    }
    forall f | 0 <= f < 5
      ensures Extended(l1, f) == Extended(l2, f) && Curled(l1, f) == Curled(l2, f)
    {
      assert FingerTips[f] < NumLandmarks;
    }
    assert IsOpenPalm(l1) == IsOpenPalm(l2);
    assert IsFist(l1) == IsFist(l2);
    assert IsPoint(l1) == IsPoint(l2);
  }
}
