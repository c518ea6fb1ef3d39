/**
 * The overlay renderer, modelled as the sequence of draw calls it makes on a
 * canvas: skeleton lines and keypoint circles for every hand, the optional
 * "constellation" joining each keypoint to its nearest neighbours, and a stack of
 * text labels. Every mark is drawn in white with antialiasing; colour, font and
 * line type are therefore left out of the commands.
 *
 * Pixel positions are kept as reals (x * width, y * height); the source's
 * truncation and rounding to integer pixels are not modelled.
 */
module Renderer {
  import opened Wrappers
  import opened Landmarks

  /** The hand skeleton: 20 (parent, child) keypoint pairs, four per finger. */
  const HandConnections: seq<(nat, nat)> := [
    (0, 1), (1, 2), (2, 3), (3, 4),
    (0, 5), (5, 6), (6, 7), (7, 8),
    (0, 9), (9, 10), (10, 11), (11, 12),
    (0, 13), (13, 14), (14, 15), (15, 16),
    (0, 17), (17, 18), (18, 19), (19, 20)]

  const SkeletonThickness: int := 2
  const KeypointRadius: int := 4
  const TextX: int := 16
  const TitleY: int := 30
  const LineSpacing: int := 28

  /**
   * The skeleton is a tree on the 21 keypoints rooted at the wrist (0): 20 edges,
   * every endpoint a keypoint, edge e the one and only edge into keypoint e + 1
   * (so each of 1..20 has exactly one parent and 0 has none), and every parent
   * smaller than its child, so following parents always reaches 0.
   */
  lemma HandConnectionsFormTree()
    ensures |HandConnections| == NumLandmarks - 1
    ensures forall e :: 0 <= e < |HandConnections| ==>
      HandConnections[e].0 < NumLandmarks && HandConnections[e].1 < NumLandmarks &&
      HandConnections[e].0 < HandConnections[e].1
    ensures forall e :: 0 <= e < |HandConnections| ==> HandConnections[e].1 == e + 1
  {
  }

  datatype Pixel = Pixel(x: real, y: real)

  /** Text content; the fps readout is kept as its value (its one-decimal formatting is not modelled). */
  datatype Label = Plain(text: string) | FpsReadout(fps: real)

  datatype Command =
    | Line(from: Pixel, to: Pixel, thickness: int)
    | Circle(center: Pixel, radius: int)
    | Text(content: Label, x: int, y: int)

  /** What the canvas starts as: a copy of the camera frame, or an all-black image. */
  datatype Background = CameraCopy | Black

  /** The size of the camera frame; its pixels are not modelled. */
  datatype FrameShape = FrameShape(width: nat, height: nat)

  /** A canvas the size of the frame, and the draw calls made on it, in order. */
  class Canvas {
    const width: nat
    const height: nat
    const background: Background
    var commands: seq<Command>

    constructor (width: nat, height: nat, background: Background)
      ensures this.width == width && this.height == height && this.background == background
      ensures commands == []
    {
      this.width := width;
      this.height := height;
      this.background := background;
      commands := [];
    }

    /** `cv2.line` */
    method DrawLine(from: Pixel, to: Pixel, thickness: int)
      modifies this
      ensures commands == old(commands) + [Line(from, to, thickness)]
    {
      commands := commands + [Line(from, to, thickness)];
    }

    /** `cv2.circle`, filled */
    method DrawCircle(center: Pixel, radius: int)
      modifies this
      ensures commands == old(commands) + [Circle(center, radius)]
    {
      commands := commands + [Circle(center, radius)];
    }

    /** `cv2.putText` */
    method PutText(content: Label, x: int, y: int)
      modifies this
      ensures commands == old(commands) + [Text(content, x, y)]
    {
      commands := commands + [Text(content, x, y)];
    }
  }

  /** The renderer's settings; none of them changes after construction. */
  datatype OverlayRenderer = OverlayRenderer(
    windowTitle: string,
    showCameraBackground: bool,
    blackBackground: bool,
    drawFps: bool,
    mirror: bool,
    constellationEnabled: bool,
    constellationNeighbors: int,
    constellationPointRadius: int,
    constellationLineThickness: int)

  /** `OverlayRenderer.__init__`: the neighbour count is raised to at least 1. */
  function NewOverlayRenderer(windowTitle: string, showCameraBackground: bool, blackBackground: bool,
                              drawFps: bool, mirror: bool, constellationEnabled: bool,
                              constellationNeighbors: int, constellationPointRadius: int,
                              constellationLineThickness: int): (r: OverlayRenderer)
    ensures r.constellationNeighbors >= 1
    ensures constellationNeighbors >= 1 ==> r.constellationNeighbors == constellationNeighbors
    ensures constellationNeighbors < 1 ==> r.constellationNeighbors == 1
    ensures r.windowTitle == windowTitle && r.drawFps == drawFps && r.mirror == mirror
    ensures r.showCameraBackground == showCameraBackground && r.blackBackground == blackBackground
    ensures r.constellationEnabled == constellationEnabled
    ensures r.constellationPointRadius == constellationPointRadius
    ensures r.constellationLineThickness == constellationLineThickness
  {
    OverlayRenderer(windowTitle, showCameraBackground, blackBackground, drawFps, mirror,
      constellationEnabled, if constellationNeighbors > 1 then constellationNeighbors else 1,
      constellationPointRadius, constellationLineThickness)
  }

  /** The constructor's defaults. */
  const DefaultRenderer := NewOverlayRenderer("Thesidia-HandControl-Alpha", false, true, true, true, true, 3, 3, 1)

  /** The camera frame is shown only when asked for and the black background is off. */
  function CanvasBackground(r: OverlayRenderer): (b: Background)
    ensures b == CameraCopy <==> r.showCameraBackground && !r.blackBackground
  {
    if r.showCameraBackground && !r.blackBackground then CameraCopy else Black
  }

  /** A normalised keypoint scaled to the canvas. */
  function ToPixel(p: Point, w: nat, h: nat): Pixel {
    Pixel(p.x * w as real, p.y * h as real)
  }

  /** Every keypoint of a landmark list scaled to the canvas, in order. */
  function Stars(lm: seq<Point>, w: nat, h: nat): (r: seq<Pixel>)
    ensures |r| == |lm|
  {
    seq(|lm|, i requires 0 <= i < |lm| => ToPixel(lm[i], w, h))
  }

  // ----- one hand: skeleton and keypoints -----

  /** One line per skeleton edge, in the order of HandConnections. */
  function SkeletonLines(lm: HandLandmarks, w: nat, h: nat, thickness: int): (r: seq<Command>)
    ensures |r| == |HandConnections|
  {
    HandConnectionsFormTree();
    seq(|HandConnections|, e requires 0 <= e < |HandConnections| =>
      Line(ToPixel(lm[HandConnections[e].0], w, h), ToPixel(lm[HandConnections[e].1], w, h), thickness))
  }

  /** One filled circle of radius 4 per keypoint, in keypoint order. */
  function KeypointCircles(lm: HandLandmarks, w: nat, h: nat): (r: seq<Command>)
    ensures |r| == NumLandmarks
  {
    seq(NumLandmarks, i requires 0 <= i < NumLandmarks => Circle(ToPixel(lm[i], w, h), KeypointRadius))
  }

  /** `_draw_hand`: the skeleton first, then the keypoints. */
  function HandCommands(lm: HandLandmarks, w: nat, h: nat, thickness: int): seq<Command> {
    SkeletonLines(lm, w, h, thickness) + KeypointCircles(lm, w, h)
  }

  /**
   * A hand is 20 lines joining the keypoint pairs of the skeleton, followed by 21
   * circles at the keypoints.
   */
  lemma HandCommandsShape(lm: HandLandmarks, w: nat, h: nat, thickness: int)
    ensures |HandCommands(lm, w, h, thickness)| == 41
    ensures forall e :: 0 <= e < 20 ==>
      HandCommands(lm, w, h, thickness)[e] ==
        Line(ToPixel(lm[HandConnections[e].0], w, h), ToPixel(lm[e + 1], w, h), thickness)
    ensures forall i :: 0 <= i < NumLandmarks ==>
      HandCommands(lm, w, h, thickness)[20 + i] == Circle(ToPixel(lm[i], w, h), KeypointRadius)
  {
    HandConnectionsFormTree();
    var s := SkeletonLines(lm, w, h, thickness);
    var c := KeypointCircles(lm, w, h);
    forall e | 0 <= e < 20
      ensures (s + c)[e] == Line(ToPixel(lm[HandConnections[e].0], w, h), ToPixel(lm[e + 1], w, h), thickness)
    {
      assert HandConnections[e].1 == e + 1;
    }
  }

  // ----- blocks of commands -----

  /** The blocks one after the other. */
  function Concat(blocks: seq<seq<Command>>): seq<Command> {
    if blocks == [] then [] else Concat(blocks[..|blocks| - 1]) + blocks[|blocks| - 1]
  }

  /** Concatenating a prefix and then the rest. */
  lemma {:induction false} ConcatSplit(blocks: seq<seq<Command>>, t: nat)
    requires t <= |blocks|
    ensures Concat(blocks) == Concat(blocks[..t]) + Concat(blocks[t..])
    decreases |blocks|
  {
    if t < |blocks| {
      var n := |blocks| - 1;
      ConcatSplit(blocks[..n], t);
      assert blocks[..n][..t] == blocks[..t];
      assert blocks[t..][..|blocks[t..]| - 1] == blocks[..n][t..];
    } else {
      assert blocks[..t] == blocks;
      assert blocks[t..] == [];
    }
  }

  /** A single block. */
  lemma ConcatSingle(b: seq<Command>)
    ensures Concat([b]) == b
  {
    assert [b][..0] == [];
  }

  /** Blocks of a common size b take |blocks| * b commands. */
  lemma {:induction false} ConcatLength(blocks: seq<seq<Command>>, b: nat)
    requires forall t :: 0 <= t < |blocks| ==> |blocks[t]| == b
    ensures |Concat(blocks)| == |blocks| * b
  {
    if blocks != [] {
      var n := |blocks| - 1;
      ConcatLength(blocks[..n], b);
      assert n * b + b == |blocks| * b;
    }
  }

  lemma {:induction false} MulStep(t: nat, m: nat, b: nat)
    requires t < m
    ensures t * b + b <= m * b
  {
    if t + 1 < m {
      MulStep(t, m - 1, b);
    }
  }

  /** Blocks of a common size b: block t sits at positions t * b .. t * b + b. */
  lemma ConcatBlockAt(blocks: seq<seq<Command>>, b: nat, t: nat)
    requires forall u :: 0 <= u < |blocks| ==> |blocks[u]| == b
    requires t < |blocks|
    ensures |Concat(blocks)| == |blocks| * b
    ensures t * b + b <= |blocks| * b && Concat(blocks)[t * b .. t * b + b] == blocks[t]
  {
    ConcatLength(blocks, b);
    MulStep(t, |blocks|, b);
    ConcatSplit(blocks, t);
    ConcatLength(blocks[..t], b);
    var rest := blocks[t..];
    ConcatSplit(rest, 1);
    assert rest[..1] == [blocks[t]];
    ConcatSingle(blocks[t]);
    assert Concat(blocks) == Concat(blocks[..t]) + (blocks[t] + Concat(rest[1..]));
  }

  /** Extending the blocks by one extends the concatenation by that block. */
  lemma ConcatPrefixStep(blocks: seq<seq<Command>>, i: nat)
    requires i < |blocks|
    ensures Concat(blocks[..i + 1]) == Concat(blocks[..i]) + blocks[i]
  {
    assert blocks[..i + 1][..i] == blocks[..i];
  }

  // ----- the constellation -----

  /** Squared distance between two canvas points (ordering by it is ordering by distance). */
  function SqPixelDistance(a: Pixel, b: Pixel): real {
    (a.x - b.x) * (a.x - b.x) + (a.y - b.y) * (a.y - b.y)
  }

  /** `[0, 1, ..., n - 1]` */
  function Range(n: nat): (r: seq<nat>)
    ensures |r| == n && forall j :: 0 <= j < n ==> r[j] == j
    ensures forall y :: y in r ==> y < n
    ensures forall y :: 0 <= y < n ==> y in r
  {
    var r := seq(n, j requires 0 <= j < n => j);
    assert forall y :: 0 <= y < n ==> y in r by {
      forall y | 0 <= y < n
        ensures y in r
      {
        assert r[y] == y;
      }
    }
    r
  }

  /** Key of an index; indices outside the key list get 0 and are never produced below. */
  function KeyAt(key: seq<real>, j: nat): real {
    if j < |key| then key[j] else 0.0
  }

  predicate SortedBy(s: seq<nat>, key: seq<real>) {
    forall a, b :: 0 <= a < b < |s| ==> KeyAt(key, s[a]) <= KeyAt(key, s[b])
  }

  /** Inserts `x` after every leading element whose key is not larger than its own. */
  function Insert(x: nat, s: seq<nat>, key: seq<real>): (r: seq<nat>)
    ensures |r| == |s| + 1
    ensures forall y :: y in r <==> y == x || y in s
  {
    if s == [] then [x]
    else if KeyAt(key, x) < KeyAt(key, s[0]) then [x] + s
    else [s[0]] + Insert(x, s[1..], key)
  }

  /** A stable sort of `s` by key (insertion sort, later elements after equal earlier ones). */
  function SortByKey(s: seq<nat>, key: seq<real>): (r: seq<nat>)
    ensures |r| == |s|
    ensures forall y :: y in r <==> y in s
  {
    if s == [] then [] else Insert(s[|s| - 1], SortByKey(s[..|s| - 1], key), key)
  }

  lemma {:induction false} InsertPermutes(x: nat, s: seq<nat>, key: seq<real>)
    ensures multiset(Insert(x, s, key)) == multiset(s) + multiset{x}
  {
    if s != [] && KeyAt(key, x) >= KeyAt(key, s[0]) {
      InsertPermutes(x, s[1..], key);
      assert s == [s[0]] + s[1..];
    }
  }

  /** Every element after the head of a sorted list has a key no smaller than the head's. */
  lemma HeadIsSmallest(s: seq<nat>, key: seq<real>, y: nat)
    requires SortedBy(s, key) && s != []
    requires y in multiset(s[1..])
    ensures KeyAt(key, s[0]) <= KeyAt(key, y)
  {
    var c :| 0 <= c < |s[1..]| && s[1..][c] == y;
    assert s[c + 1] == y;
  }

  /** Inserting an element no smaller than the head of a sorted list keeps the head smallest. */
  lemma HeadBoundsInsert(x: nat, s: seq<nat>, key: seq<real>)
    requires SortedBy(s, key) && s != [] && KeyAt(key, x) >= KeyAt(key, s[0])
    ensures forall b :: 0 <= b < |Insert(x, s[1..], key)| ==>
      KeyAt(key, s[0]) <= KeyAt(key, Insert(x, s[1..], key)[b])
  {
    var rest := Insert(x, s[1..], key);
    InsertPermutes(x, s[1..], key);
    forall b | 0 <= b < |rest|
      ensures KeyAt(key, s[0]) <= KeyAt(key, rest[b])
    {
      assert rest[b] in multiset(rest);
      if rest[b] != x {
        HeadIsSmallest(s, key, rest[b]);
      }
    }
  }

  lemma {:induction false} InsertSorted(x: nat, s: seq<nat>, key: seq<real>)
    requires SortedBy(s, key)
    ensures SortedBy(Insert(x, s, key), key)
  {
    if s != [] && KeyAt(key, x) >= KeyAt(key, s[0]) {
      var rest := Insert(x, s[1..], key);
      assert SortedBy(s[1..], key) by {
        forall a, b | 0 <= a < b < |s[1..]|
          ensures KeyAt(key, s[1..][a]) <= KeyAt(key, s[1..][b])
        {
          assert s[1..][a] == s[a + 1] && s[1..][b] == s[b + 1];
        }
      }
      InsertSorted(x, s[1..], key);
      HeadBoundsInsert(x, s, key);
      var r := [s[0]] + rest;
      forall a, b | 0 <= a < b < |r|
        ensures KeyAt(key, r[a]) <= KeyAt(key, r[b])
      {
        if a > 0 {
          assert r[a] == rest[a - 1] && r[b] == rest[b - 1];
        }
      }
    }
  }

  /** Sorting permutes its input and orders it by key. */
  lemma {:induction false} SortByKeySorted(s: seq<nat>, key: seq<real>)
    ensures multiset(SortByKey(s, key)) == multiset(s)
    ensures SortedBy(SortByKey(s, key), key)
  {
    if s != [] {
      var n := |s| - 1;
      SortByKeySorted(s[..n], key);
      InsertPermutes(s[n], SortByKey(s[..n], key), key);
      InsertSorted(s[n], SortByKey(s[..n], key), key);
      assert s == s[..n] + [s[n]];
    }
  }

  /** Squared distances from point i to every point. */
  function DistancesFrom(pts: seq<Pixel>, i: nat): (r: seq<real>)
    requires i < |pts|
    ensures |r| == |pts|
  {
    seq(|pts|, j requires 0 <= j < |pts| => SqPixelDistance(pts[i], pts[j]))
  }

  /** `np.argsort(dist[i])`: the point indices by increasing distance from point i. */
  function DistanceOrder(pts: seq<Pixel>, i: nat): (r: seq<nat>)
    requires i < |pts|
    ensures |r| == |pts|
    ensures forall t :: 0 <= t < |r| ==> r[t] < |pts|
  {
    var r := SortByKey(Range(|pts|), DistancesFrom(pts, i));
    assert forall t :: 0 <= t < |r| ==> r[t] in r;
    r
  }

  /**
   * The distance order is a permutation of 0..n-1 (every index exactly once) and
   * lists indices by non-decreasing distance from point i.
   */
  lemma DistanceOrderIsArgsort(pts: seq<Pixel>, i: nat)
    requires i < |pts|
    ensures multiset(DistanceOrder(pts, i)) == multiset(Range(|pts|))
    ensures forall t :: 0 <= t < |pts| ==> DistanceOrder(pts, i)[t] < |pts|
    ensures forall a, b :: 0 <= a < b < |pts| ==>
      SqPixelDistance(pts[i], pts[DistanceOrder(pts, i)[a]]) <= SqPixelDistance(pts[i], pts[DistanceOrder(pts, i)[b]])
  {
    var key := DistancesFrom(pts, i);
    var r := DistanceOrder(pts, i);
    SortByKeySorted(Range(|pts|), key);
    forall t | 0 <= t < |pts|
      ensures r[t] < |pts|
    {
      assert r[t] in multiset(Range(|pts|));
      var c :| 0 <= c < |pts| && Range(|pts|)[c] == r[t];
    }
    forall a, b | 0 <= a < b < |pts|
      ensures SqPixelDistance(pts[i], pts[r[a]]) <= SqPixelDistance(pts[i], pts[r[b]])
    {
      assert r[a] < |pts| && r[b] < |pts|;
      assert KeyAt(key, r[a]) <= KeyAt(key, r[b]);
    }
  }

  /**
   * Skipping the first entry skips the point itself when no other point is at
   * distance zero from it: then point i comes first in its own distance order.
   */
  lemma SelfFirstWithoutCoincidentPoints(pts: seq<Pixel>, i: nat)
    requires i < |pts|
    requires forall j :: 0 <= j < |pts| && j != i ==> SqPixelDistance(pts[i], pts[j]) > 0.0
    ensures DistanceOrder(pts, i)[0] == i
  {
    var r := DistanceOrder(pts, i);
    DistanceOrderIsArgsort(pts, i);
    assert i in multiset(r) by { assert Range(|pts|)[i] == i; }
    var m :| 0 <= m < |r| && r[m] == i;
    assert SqPixelDistance(pts[i], pts[r[0]]) <= SqPixelDistance(pts[i], pts[r[m]]) by {
      if m > 0 { }
    }
    assert SqPixelDistance(pts[i], pts[i]) == 0.0;
  }

  /** `min(neighbors, n - 1)`: how many neighbours each point is joined to. */
  function NeighbourCount(neighbors: int, n: nat): int {
    if neighbors < n - 1 then neighbors else n - 1
  }

  /** The lines from point i to entries 1..k of its distance order. */
  function NeighbourLines(pts: seq<Pixel>, i: nat, k: nat, thickness: int): (r: seq<Command>)
    requires i < |pts| && k < |pts|
    ensures |r| == k
  {
    var order := DistanceOrder(pts, i);
    seq(k, t requires 0 <= t < k => Line(pts[i], pts[order[1 + t]], thickness))
  }

  /** Each point's neighbour lines, point by point. */
  function LineBlocks(pts: seq<Pixel>, k: nat, thickness: int): (r: seq<seq<Command>>)
    requires k < |pts|
    ensures |r| == |pts|
  {
    seq(|pts|, i requires 0 <= i < |pts| => NeighbourLines(pts, i, k, thickness))
  }

  /** The star circles. */
  function StarCircles(pts: seq<Pixel>, radius: int): (r: seq<Command>)
    ensures |r| == |pts|
  {
    seq(|pts|, i requires 0 <= i < |pts| => Circle(pts[i], radius))
  }

  /** `_draw_constellation`: the star circles, then (when k > 0) the neighbour lines. */
  function ConstellationCommands(pts: seq<Pixel>, neighbors: int, radius: int, thickness: int): seq<Command> {
    if |pts| == 0 then []
    else
      var k := NeighbourCount(neighbors, |pts|);
      if k <= 0 then StarCircles(pts, radius)
      else StarCircles(pts, radius) + Concat(LineBlocks(pts, k, thickness))
  }

  /**
   * The constellation of n points: nothing for n = 0; otherwise n circles, one at
   * each point, then, with k = min(neighbors, n - 1) > 0, n * k lines.
   */
  lemma ConstellationCounts(pts: seq<Pixel>, neighbors: int, radius: int, thickness: int)
    ensures var c := ConstellationCommands(pts, neighbors, radius, thickness);
      var n, k := |pts|, NeighbourCount(neighbors, |pts|);
      (n == 0 ==> c == []) &&
      (n > 0 && k <= 0 ==> c == StarCircles(pts, radius)) &&
      (n > 0 && k > 0 ==> |c| == n + n * k) &&
      (forall i :: 0 <= i < n ==> c[i] == Circle(pts[i], radius))
  {
    var n, k := |pts|, NeighbourCount(neighbors, |pts|);
    if n > 0 && k > 0 {
      ConcatLength(LineBlocks(pts, k, thickness), k);
    }
  }

  /**
   * After the n circles come exactly k lines from each point in turn, to entries
   * 1..k of its own distance order: n * k lines, none merged or symmetrised.
   */
  lemma ConstellationLineLayout(pts: seq<Pixel>, neighbors: int, radius: int, thickness: int, i: nat)
    requires i < |pts| && NeighbourCount(neighbors, |pts|) > 0
    ensures var c, n, k := ConstellationCommands(pts, neighbors, radius, thickness), |pts|, NeighbourCount(neighbors, |pts|);
      n + i * k + k <= |c| && c[n + i * k .. n + i * k + k] == NeighbourLines(pts, i, k, thickness)
  {
    var n, k := |pts|, NeighbourCount(neighbors, |pts|);
    var blocks := LineBlocks(pts, k, thickness);
    var stars := StarCircles(pts, radius);
    assert blocks[i] == NeighbourLines(pts, i, k, thickness);
    ConcatBlockAt(blocks, k, i);
    assert ConstellationCommands(pts, neighbors, radius, thickness) == stars + Concat(blocks);
    assert (stars + Concat(blocks))[n + i * k .. n + i * k + k] == Concat(blocks)[i * k .. i * k + k];
  }

  /** Entry t of the lines from point i joins it to entry 1 + t of its distance order. */
  lemma NeighbourLinesAt(pts: seq<Pixel>, i: nat, k: nat, thickness: int, t: nat)
    requires i < |pts| && k < |pts| && t < k
    ensures 1 + t < |pts| && DistanceOrder(pts, i)[1 + t] < |pts|
    ensures NeighbourLines(pts, i, k, thickness)[t] == Line(pts[i], pts[DistanceOrder(pts, i)[1 + t]], thickness)
  {
    DistanceOrderIsArgsort(pts, i);
  }

  /**
   * Coincident keypoints break the "skip self" assumption: with two points at the
   * same place, the second point's only neighbour line goes to itself, and it is
   * never joined to the first.
   */
  lemma CoincidentPointLinksToItself()
    ensures var pts := [Pixel(0.0, 0.0), Pixel(0.0, 0.0)];
      ConstellationCommands(pts, 3, 3, 1) ==
        [Circle(pts[0], 3), Circle(pts[1], 3), Line(pts[0], pts[1], 1), Line(pts[1], pts[1], 1)]
  {
    var pts := [Pixel(0.0, 0.0), Pixel(0.0, 0.0)];
    var key := [0.0, 0.0];
    assert DistancesFrom(pts, 1) == key;
    assert DistancesFrom(pts, 0) == key;
    assert Range(2) == [0, 1];
    assert [0, 1][..1] == [0];
    assert SortByKey([0], key) == [0];
    assert Insert(1, [0], key) == [0, 1];
    assert SortByKey([0, 1], key) == [0, 1];
    assert DistanceOrder(pts, 1) == [0, 1];
    assert DistanceOrder(pts, 0) == [0, 1];
    var blocks := LineBlocks(pts, 1, 1);
    assert blocks[0] == [Line(pts[0], pts[1], 1)];
    assert blocks[1] == [Line(pts[1], pts[1], 1)];
    assert blocks[..1] == [blocks[0]];
    ConcatSingle(blocks[0]);
    assert Concat(blocks) == [Line(pts[0], pts[1], 1), Line(pts[1], pts[1], 1)];
  }

  // ----- the whole overlay -----

  /** What one hand contributes: its skeleton and keypoints, then its constellation if enabled. */
  function HandBlock(r: OverlayRenderer, lm: HandLandmarks, w: nat, h: nat): seq<Command> {
    HandCommands(lm, w, h, SkeletonThickness) +
    (if r.constellationEnabled
     then ConstellationCommands(Stars(lm, w, h), r.constellationNeighbors,
            r.constellationPointRadius, r.constellationLineThickness)
     else [])
  }

  /** One block per hand, in the order of the hands. */
  function HandBlocks(r: OverlayRenderer, hands: seq<Hand>, w: nat, h: nat): (b: seq<seq<Command>>)
    ensures |b| == |hands|
  {
    seq(|hands|, t requires 0 <= t < |hands| => HandBlock(r, hands[t].landmarks, w, h))
  }

  /** The labels of the text stack: the title, then gesture, symbol and fps when present. */
  function TextLabels(r: OverlayRenderer, gesture: Option<string>, symbol: Option<string>, fps: real): seq<Label> {
    [Plain(r.windowTitle)]
    + (if Truthy(gesture) then [Plain("Gesture: " + gesture.value)] else [])
    + (if Truthy(symbol) then [Plain("Symbol: " + symbol.value)] else [])
    + (if r.drawFps then [FpsReadout(fps)] else [])
  }

  /** Each label at x = 16, the first at y = 30 and each next one 28 lower. */
  function TextCommands(r: OverlayRenderer, gesture: Option<string>, symbol: Option<string>, fps: real): (t: seq<Command>)
    ensures |t| == |TextLabels(r, gesture, symbol, fps)|
  {
    var labels := TextLabels(r, gesture, symbol, fps);
    seq(|labels|, n requires 0 <= n < |labels| => Text(labels[n], TextX, TitleY + LineSpacing * n))
  }

  /**
   * The text stack: the title first at y = 30; then, only if present and non-empty,
   * the gesture label and the symbol label; then the fps readout when enabled;
   * each 28 pixels below the one before.
   */
  lemma TextStack(r: OverlayRenderer, gesture: Option<string>, symbol: Option<string>, fps: real)
    ensures var t := TextCommands(r, gesture, symbol, fps);
      |t| == 1 + (if Truthy(gesture) then 1 else 0) + (if Truthy(symbol) then 1 else 0) + (if r.drawFps then 1 else 0) &&
      (forall n :: 0 <= n < |t| ==> t[n].Text? && t[n].x == 16 && t[n].y == 30 + 28 * n) &&
      t[0].content == Plain(r.windowTitle) &&
      (Truthy(gesture) ==> t[1].content == Plain("Gesture: " + gesture.value)) &&
      (Truthy(symbol) ==> t[if Truthy(gesture) then 2 else 1].content == Plain("Symbol: " + symbol.value)) &&
      (r.drawFps ==> t[|t| - 1].content == FpsReadout(fps))
  {
  }

  /** Everything `render` draws: all hands, then the text stack. */
  function RenderCommands(r: OverlayRenderer, w: nat, h: nat, hands: seq<Hand>,
                          gesture: Option<string>, symbol: Option<string>, fps: real): seq<Command> {
    Concat(HandBlocks(r, hands, w, h)) + TextCommands(r, gesture, symbol, fps)
  }

  /** Size of one hand's block: 41 marks, plus 21 stars and 21 * k lines with the constellation. */
  function HandBlockSize(r: OverlayRenderer): nat {
    var k := NeighbourCount(r.constellationNeighbors, NumLandmarks);
    41 + (if r.constellationEnabled then NumLandmarks + (if k > 0 then NumLandmarks * k else 0) else 0)
  }

  lemma HandBlockHasSize(r: OverlayRenderer, lm: HandLandmarks, w: nat, h: nat)
    ensures |HandBlock(r, lm, w, h)| == HandBlockSize(r)
  {
    ConstellationCounts(Stars(lm, w, h), r.constellationNeighbors, r.constellationPointRadius,
      r.constellationLineThickness);
  }

  /** All hand blocks have the same size. */
  lemma HandBlocksUniform(r: OverlayRenderer, hands: seq<Hand>, w: nat, h: nat)
    ensures forall t :: 0 <= t < |hands| ==> |HandBlocks(r, hands, w, h)[t]| == HandBlockSize(r)
  {
    var blocks := HandBlocks(r, hands, w, h);
    forall t | 0 <= t < |hands|
      ensures |blocks[t]| == HandBlockSize(r)
    {
      HandBlockHasSize(r, hands[t].landmarks, w, h);
    }
  }

  /**
   * The layout of a rendered overlay: with B the size of one hand's block, the
   * hands take the first |hands| * B commands and the text stack follows them.
   */
  lemma RenderLayout(r: OverlayRenderer, w: nat, h: nat, hands: seq<Hand>,
                     gesture: Option<string>, symbol: Option<string>, fps: real)
    ensures var c := RenderCommands(r, w, h, hands, gesture, symbol, fps);
      |c| == |hands| * HandBlockSize(r) + |TextCommands(r, gesture, symbol, fps)| &&
      c[|hands| * HandBlockSize(r)..] == TextCommands(r, gesture, symbol, fps)
  {
    HandBlocksUniform(r, hands, w, h);
    ConcatLength(HandBlocks(r, hands, w, h), HandBlockSize(r));
  }

  /**
   * Every hand is drawn, not only the first: hand t's block (skeleton, keypoints,
   * constellation) sits at positions t * B .. t * B + B of the overlay.
   */
  lemma EveryHandDrawn(r: OverlayRenderer, w: nat, h: nat, hands: seq<Hand>,
                       gesture: Option<string>, symbol: Option<string>, fps: real, t: nat)
    requires t < |hands|
    ensures var c, b := RenderCommands(r, w, h, hands, gesture, symbol, fps), HandBlockSize(r);
      t * b + b <= |hands| * b <= |c| && c[t * b .. t * b + b] == HandBlock(r, hands[t].landmarks, w, h)
  {
    var blocks := HandBlocks(r, hands, w, h);
    var b := HandBlockSize(r);
    HandBlocksUniform(r, hands, w, h);
    ConcatBlockAt(blocks, b, t);
    var c := Concat(blocks) + TextCommands(r, gesture, symbol, fps);
    assert t * b + b <= |Concat(blocks)|;
    assert c[t * b .. t * b + b] == Concat(blocks)[t * b .. t * b + b];
  }

  // ----- drawing -----

  /** `_draw_hand`: the 20 skeleton lines, then the 21 keypoint circles. */
  method DrawHand(canvas: Canvas, lm: HandLandmarks, thickness: int)
    modifies canvas
    ensures canvas.commands == old(canvas.commands) + HandCommands(lm, canvas.width, canvas.height, thickness)
  {
    var w, h := canvas.width, canvas.height;
    ghost var start := canvas.commands;
    ghost var lines := SkeletonLines(lm, w, h, thickness);
    ghost var circles := KeypointCircles(lm, w, h);
    HandConnectionsFormTree();
    var e := 0;
    while e < |HandConnections|
      invariant 0 <= e <= |HandConnections|
      invariant canvas.commands == start + lines[..e]
    {
      var (a, b) := HandConnections[e];
      canvas.DrawLine(ToPixel(lm[a], w, h), ToPixel(lm[b], w, h), thickness);
      assert lines[..e + 1] == lines[..e] + [lines[e]];
      e := e + 1;
    }
    assert lines[..e] == lines;
    var i := 0;
    while i < |lm|
      invariant 0 <= i <= |lm|
      invariant canvas.commands == start + lines + circles[..i]
    {
      canvas.DrawCircle(ToPixel(lm[i], w, h), KeypointRadius);
      assert circles[..i + 1] == circles[..i] + [circles[i]];
      i := i + 1;
    }
    assert circles[..i] == circles;
  }

  /** The lines from point i to its k nearest other points, nearest first. */
  method DrawNeighbourLines(canvas: Canvas, pts: seq<Pixel>, i: nat, k: nat, thickness: int)
    requires i < |pts| && k < |pts|
    modifies canvas
    ensures canvas.commands == old(canvas.commands) + NeighbourLines(pts, i, k, thickness)
  {
    var order := DistanceOrder(pts, i);
    DistanceOrderIsArgsort(pts, i);
    ghost var start := canvas.commands;
    ghost var lines := NeighbourLines(pts, i, k, thickness);
    var t := 0;
    while t < k
      invariant 0 <= t <= k
      invariant canvas.commands == start + lines[..t]
    {
      var j := order[1 + t];
      canvas.DrawLine(pts[i], pts[j], thickness);
      assert lines[..t + 1] == lines[..t] + [lines[t]];
      t := t + 1;
    }
    assert lines[..t] == lines;
  }

  /** The star circles, one per point. */
  method DrawStars(canvas: Canvas, pts: seq<Pixel>, radius: int)
    modifies canvas
    ensures canvas.commands == old(canvas.commands) + StarCircles(pts, radius)
  {
    ghost var start := canvas.commands;
    ghost var stars := StarCircles(pts, radius);
    var i := 0;
    while i < |pts|
      invariant 0 <= i <= |pts|
      invariant canvas.commands == start + stars[..i]
    {
      canvas.DrawCircle(pts[i], radius);
      assert stars[..i + 1] == stars[..i] + [stars[i]];
      i := i + 1;
    }
    assert stars[..i] == stars;
  }

  /** For each point in turn, the lines to its k nearest other points. */
  method DrawAllNeighbourLines(canvas: Canvas, pts: seq<Pixel>, k: nat, thickness: int)
    requires k < |pts|
    modifies canvas
    ensures canvas.commands == old(canvas.commands) + Concat(LineBlocks(pts, k, thickness))
  {
    ghost var start := canvas.commands;
    ghost var blocks := LineBlocks(pts, k, thickness);
    var i := 0;
    while i < |pts|
      invariant 0 <= i <= |pts|
      invariant canvas.commands == start + Concat(blocks[..i])
    {
      DrawNeighbourLines(canvas, pts, i, k, thickness);
      ConcatPrefixStep(blocks, i);
      i := i + 1;
    }
    assert blocks[..i] == blocks;
  }

  /** `_draw_constellation` on a hand's keypoints. */
  method DrawConstellation(r: OverlayRenderer, canvas: Canvas, lm: seq<Point>)
    modifies canvas
    ensures canvas.commands == old(canvas.commands) +
      ConstellationCommands(Stars(lm, canvas.width, canvas.height), r.constellationNeighbors,
        r.constellationPointRadius, r.constellationLineThickness)
  {
    var pts := Stars(lm, canvas.width, canvas.height);
    if |pts| == 0 {
      return;
    }
    DrawStars(canvas, pts, r.constellationPointRadius);
    var k := NeighbourCount(r.constellationNeighbors, |pts|);
    if k <= 0 {
      return;
    }
    DrawAllNeighbourLines(canvas, pts, k, r.constellationLineThickness);
  }

  /** The title, gesture, symbol and fps labels, 28 pixels apart. */
  method DrawTextStack(r: OverlayRenderer, canvas: Canvas, gesture: Option<string>, symbol: Option<string>, fps: real)
    modifies canvas
    ensures canvas.commands == old(canvas.commands) + TextCommands(r, gesture, symbol, fps)
  {
    var y := TitleY;
    ghost var shown := 1;
    canvas.PutText(Plain(r.windowTitle), TextX, y);
    y := y + LineSpacing;
    if gesture.Some? && gesture.value != "" {
      canvas.PutText(Plain("Gesture: " + gesture.value), TextX, y);
      y := y + LineSpacing;
      shown := shown + 1;
    }
    assert y == TitleY + LineSpacing * shown;
    if symbol.Some? && symbol.value != "" {
      canvas.PutText(Plain("Symbol: " + symbol.value), TextX, y);
      y := y + LineSpacing;
      shown := shown + 1;
    }
    assert y == TitleY + LineSpacing * shown;
    if r.drawFps {
      canvas.PutText(FpsReadout(fps), TextX, y);
    }
  }

  /** One hand: skeleton and keypoints, then the constellation when enabled. */
  method DrawHandBlock(r: OverlayRenderer, canvas: Canvas, lm: HandLandmarks)
    modifies canvas
    ensures canvas.commands == old(canvas.commands) + HandBlock(r, lm, canvas.width, canvas.height)
  {
    DrawHand(canvas, lm, SkeletonThickness);
    if r.constellationEnabled {
      DrawConstellation(r, canvas, lm);
    }
  }

  /** Hand number i, as its block in the list of blocks. */
  method DrawHandAt(r: OverlayRenderer, canvas: Canvas, hands: seq<Hand>, i: nat)
    requires i < |hands|
    modifies canvas
    ensures canvas.commands == old(canvas.commands) + HandBlocks(r, hands, canvas.width, canvas.height)[i]
  {
    DrawHandBlock(r, canvas, hands[i].landmarks);
  }

  /** The loop over the hands. */
  method DrawHands(r: OverlayRenderer, canvas: Canvas, hands: seq<Hand>)
    modifies canvas
    ensures canvas.commands == old(canvas.commands) + Concat(HandBlocks(r, hands, canvas.width, canvas.height))
  {
    ghost var start := canvas.commands;
    ghost var blocks := HandBlocks(r, hands, canvas.width, canvas.height);
    var i := 0;
    while i < |hands|
      invariant 0 <= i <= |hands|
      invariant canvas.commands == start + Concat(blocks[..i])
    {
      DrawHandAt(r, canvas, hands, i);
      ConcatPrefixStep(blocks, i);
      i := i + 1;
    }
    assert blocks[..i] == blocks;
  }

  /** `render`: a fresh canvas of the frame's size with every hand and the text stack drawn on it. */
  method Render(r: OverlayRenderer, frame: FrameShape, hands: seq<Hand>,
                gesture: Option<string>, symbol: Option<string>, fps: real) returns (canvas: Canvas)
    ensures fresh(canvas)
    ensures canvas.width == frame.width && canvas.height == frame.height
    ensures canvas.background == CanvasBackground(r)
    ensures canvas.commands == RenderCommands(r, frame.width, frame.height, hands, gesture, symbol, fps)
  {
    if r.showCameraBackground && !r.blackBackground {
      canvas := new Canvas(frame.width, frame.height, CameraCopy);
    } else {
      canvas := new Canvas(frame.width, frame.height, Black);
    }
    DrawHands(r, canvas, hands);
    DrawTextStack(r, canvas, gesture, symbol, fps);
  }
}
