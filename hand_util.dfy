/**
  Finger assignment: which of the five fingertips played a key. Fingertips and
  key point are in keyboard space (keys along x, forward along z, up along y).
  The selectors pick the first tip (lowest index) that minimises a distance to
  the key point; Euclidean distances are compared squared, which picks the
  same tip because the square root is strictly monotone.
 */
module HandUtil {
  import opened HandData

  function Abs(x: real): real {
    if x < 0.0 then -x else x
  }

  // ---------------------------------------------------------------- distances

  function Dist1D(p: Vec3, t: Vec3): real {
    Abs(p.x - t.x)
  }

  /** The 2D distances use x and y only. */
  function SqDist2D(p: Vec3, t: Vec3): real {
    (p.x - t.x) * (p.x - t.x) + (p.y - t.y) * (p.y - t.y)
  }

  function SqDist3D(p: Vec3, t: Vec3): real {
    (p.x - t.x) * (p.x - t.x) + (p.y - t.y) * (p.y - t.y) + (p.z - t.z) * (p.z - t.z)
  }

  function Manhattan2D(p: Vec3, t: Vec3): real {
    Abs(p.x - t.x) + Abs(p.y - t.y)
  }

  function Manhattan3D(p: Vec3, t: Vec3): real {
    Abs(p.x - t.x) + Abs(p.y - t.y) + Abs(p.z - t.z)
  }

  /** The ordering key of every tip. */
  function Costs(tips: seq<Vec3>, target: Vec3, d: (Vec3, Vec3) -> real): (c: seq<real>)
    ensures |c| == |tips|
    ensures forall i :: 0 <= i < |tips| ==> c[i] == d(tips[i], target)
  {
    seq(|tips|, i requires 0 <= i < |tips| => d(tips[i], target))
  }

  // ---------------------------------------------------------------- selection

  /** The first position of a minimal cost; what a stable sort puts first. */
  function FirstArgMin(costs: seq<real>): (k: int)
    requires |costs| > 0
    ensures 0 <= k < |costs|
    ensures forall j :: 0 <= j < |costs| ==> costs[k] <= costs[j]
    ensures forall j :: 0 <= j < k ==> costs[j] > costs[k]
    decreases |costs|
  {
    if |costs| == 1 then 0
    else
      var k := FirstArgMin(costs[..|costs| - 1]);
      if costs[|costs| - 1] < costs[k] then |costs| - 1 else k
  }

  /** Array.IndexOf: the first position holding `v`, or -1. */
  function IndexOf(s: seq<Vec3>, v: Vec3): (r: int)
    ensures r == -1 <==> v !in s
    ensures r != -1 ==> 0 <= r < |s| && s[r] == v && forall j :: 0 <= j < r ==> s[j] != v
    decreases |s|
  {
    if |s| == 0 then -1
    else if s[0] == v then 0
    else
      var r := IndexOf(s[1..], v);
      if r == -1 then -1 else r + 1
  }

  /**
    Looking the first minimal tip up by value finds it again: an equal tip before it
    would have the same cost, and no earlier tip has.
   */
  lemma {:induction false} IndexOfFirstArgMin(tips: seq<Vec3>, target: Vec3, d: (Vec3, Vec3) -> real)
    requires |tips| > 0
    ensures IndexOf(tips, tips[FirstArgMin(Costs(tips, target, d))]) == FirstArgMin(Costs(tips, target, d))
  {
    var c := Costs(tips, target, d);
    var k := FirstArgMin(c);
    var r := IndexOf(tips, tips[k]);
    assert tips[r] == tips[k];
    assert c[r] == c[k];
  }

  /** Array.IndexOf of the first element of the tips ordered by `d`. */
  function ClosestBy(target: Vec3, tips: seq<Vec3>, d: (Vec3, Vec3) -> real): (r: int)
    requires |tips| > 0
    ensures 0 <= r < |tips|
    ensures forall j :: 0 <= j < |tips| ==> d(tips[r], target) <= d(tips[j], target)
    ensures forall j :: 0 <= j < r ==> d(tips[j], target) > d(tips[r], target)
  {
    IndexOfFirstArgMin(tips, target, d);
    IndexOf(tips, tips[FirstArgMin(Costs(tips, target, d))])
  }

  function ClosestFinger1D(target: Vec3, tips: seq<Vec3>): (r: int)
    requires |tips| > 0
    ensures 0 <= r < |tips|
    ensures forall j :: 0 <= j < |tips| ==> Dist1D(tips[r], target) <= Dist1D(tips[j], target)
    ensures forall j :: 0 <= j < r ==> Dist1D(tips[j], target) > Dist1D(tips[r], target)
  {
    ClosestBy(target, tips, Dist1D)
  }

  function ClosestFinger2D(target: Vec3, tips: seq<Vec3>): (r: int)
    requires |tips| > 0
    ensures 0 <= r < |tips|
    ensures forall j :: 0 <= j < |tips| ==> SqDist2D(tips[r], target) <= SqDist2D(tips[j], target)
    ensures forall j :: 0 <= j < r ==> SqDist2D(tips[j], target) > SqDist2D(tips[r], target)
  {
    ClosestBy(target, tips, SqDist2D)
  }

  function ClosestFinger3D(target: Vec3, tips: seq<Vec3>): (r: int)
    requires |tips| > 0
    ensures 0 <= r < |tips|
    ensures forall j :: 0 <= j < |tips| ==> SqDist3D(tips[r], target) <= SqDist3D(tips[j], target)
    ensures forall j :: 0 <= j < r ==> SqDist3D(tips[j], target) > SqDist3D(tips[r], target)
  {
    ClosestBy(target, tips, SqDist3D)
  }

  /** Orders by |dx| exactly as ClosestFinger1D does. */
  function ClosestFinger1DManhattan(target: Vec3, tips: seq<Vec3>): (r: int)
    requires |tips| > 0
    ensures 0 <= r < |tips|
    ensures forall j :: 0 <= j < |tips| ==> Dist1D(tips[r], target) <= Dist1D(tips[j], target)
    ensures forall j :: 0 <= j < r ==> Dist1D(tips[j], target) > Dist1D(tips[r], target)
  {
    ClosestBy(target, tips, Dist1D)
  }

  function ClosestFinger2DManhattan(target: Vec3, tips: seq<Vec3>): (r: int)
    requires |tips| > 0
    ensures 0 <= r < |tips|
    ensures forall j :: 0 <= j < |tips| ==> Manhattan2D(tips[r], target) <= Manhattan2D(tips[j], target)
    ensures forall j :: 0 <= j < r ==> Manhattan2D(tips[j], target) > Manhattan2D(tips[r], target)
  {
    ClosestBy(target, tips, Manhattan2D)
  }

  function ClosestFinger3DManhattan(target: Vec3, tips: seq<Vec3>): (r: int)
    requires |tips| > 0
    ensures 0 <= r < |tips|
    ensures forall j :: 0 <= j < |tips| ==> Manhattan3D(tips[r], target) <= Manhattan3D(tips[j], target)
    ensures forall j :: 0 <= j < r ==> Manhattan3D(tips[j], target) > Manhattan3D(tips[r], target)
  {
    ClosestBy(target, tips, Manhattan3D)
  }

  /** The 1D Euclidean and 1D Manhattan selectors agree on every input. */
  lemma {:induction false} OneDimensionalMetricsAgree(target: Vec3, tips: seq<Vec3>)
    requires |tips| > 0
    ensures ClosestFinger1DManhattan(target, tips) == ClosestFinger1D(target, tips)
  {
  }

  /** A tip at zero cost is chosen when every earlier tip has positive cost. */
  lemma {:induction false} ZeroCostTipChosen(target: Vec3, tips: seq<Vec3>, d: (Vec3, Vec3) -> real, i: int)
    requires 0 <= i < |tips|
    requires d(tips[i], target) == 0.0
    requires forall j :: 0 <= j < |tips| ==> d(tips[j], target) >= 0.0
    requires forall j :: 0 <= j < i ==> d(tips[j], target) > 0.0
    ensures ClosestBy(target, tips, d) == i
  {
    var r := ClosestBy(target, tips, d);
    assert d(tips[r], target) == 0.0;
  }

  lemma {:induction false} SquareNonNegative(a: real)
    ensures a * a >= 0.0
  {
    if a < 0.0 {
      assert a * a == (-a) * (-a);
    }
  }

  /** Squared 3D distances are non-negative and zero from a point to itself. */
  lemma {:induction false} SqDist3DSign(p: Vec3, t: Vec3)
    ensures SqDist3D(p, t) >= 0.0
    ensures SqDist3D(t, t) == 0.0
  {
    SquareNonNegative(p.x - t.x);
    SquareNonNegative(p.y - t.y);
    SquareNonNegative(p.z - t.z);
  }

  /** Squared 2D distances are non-negative and zero from a point to itself. */
  lemma {:induction false} SqDist2DSign(p: Vec3, t: Vec3)
    ensures SqDist2D(p, t) >= 0.0
    ensures SqDist2D(t, t) == 0.0
  {
    SquareNonNegative(p.x - t.x);
    SquareNonNegative(p.y - t.y);
  }

  /** Aiming at tip i in 3D yields i unless an earlier tip is at zero distance from it too. */
  lemma {:induction false} ExactTipChosen3D(tips: seq<Vec3>, i: int)
    requires 0 <= i < |tips|
    requires forall j :: 0 <= j < i ==> SqDist3D(tips[j], tips[i]) > 0.0
    ensures ClosestFinger3D(tips[i], tips) == i
  {
    forall j | 0 <= j < |tips| ensures SqDist3D(tips[j], tips[i]) >= 0.0 {
      SqDist3DSign(tips[j], tips[i]);
    }
    SqDist3DSign(tips[i], tips[i]);
    ZeroCostTipChosen(tips[i], tips, SqDist3D, i);
  }

  /** Aiming at tip i in 2D yields i unless an earlier tip is at zero x-y distance from it too. */
  lemma {:induction false} ExactTipChosen2D(tips: seq<Vec3>, i: int)
    requires 0 <= i < |tips|
    requires forall j :: 0 <= j < i ==> SqDist2D(tips[j], tips[i]) > 0.0
    ensures ClosestFinger2D(tips[i], tips) == i
  {
    forall j | 0 <= j < |tips| ensures SqDist2D(tips[j], tips[i]) >= 0.0 {
      SqDist2DSign(tips[j], tips[i]);
    }
    SqDist2DSign(tips[i], tips[i]);
    ZeroCostTipChosen(tips[i], tips, SqDist2D, i);
  }

  /** The first mask entry, in mask order, of minimal cost; what a stable sort of the mask puts first. */
  function MaskedArgMin(costs: seq<real>, mask: seq<int>): (r: int)
    requires |mask| > 0
    requires forall q :: 0 <= q < |mask| ==> 0 <= mask[q] < |costs|
    ensures 0 <= r < |costs| && r in mask
    ensures forall q :: 0 <= q < |mask| ==> costs[r] <= costs[mask[q]]
    ensures exists p :: 0 <= p < |mask| && mask[p] == r && forall q :: 0 <= q < p ==> costs[mask[q]] > costs[r]
  {
    var masked := seq(|mask|, q requires 0 <= q < |mask| => costs[mask[q]]);
    var p := FirstArgMin(masked);
    assert forall q :: 0 <= q < |mask| ==> masked[q] == costs[mask[q]];
    mask[p]
  }

  /** ClosestFinger1D with a filter mask: the first mask entry whose |dx| is least among the mask. */
  function ClosestFinger1DMasked(target: Vec3, tips: seq<Vec3>, mask: seq<int>): (r: int)
    requires |mask| > 0
    requires forall q :: 0 <= q < |mask| ==> 0 <= mask[q] < |tips|
    ensures 0 <= r < |tips| && r in mask
    ensures forall q :: 0 <= q < |mask| ==> Dist1D(tips[r], target) <= Dist1D(tips[mask[q]], target)
    ensures exists p :: 0 <= p < |mask| && mask[p] == r &&
              forall q :: 0 <= q < p ==> Dist1D(tips[mask[q]], target) > Dist1D(tips[r], target)
  {
    var c := Costs(tips, target, Dist1D);
    var r := MaskedArgMin(c, mask);
    assert forall q :: 0 <= q < |mask| ==> c[mask[q]] == Dist1D(tips[mask[q]], target);
    r
  }

  /** The indices 0 .. n-1 except k, ascending. */
  function AllBut(n: int, k: int): (s: seq<int>)
    requires 0 <= k < n
    ensures |s| == n - 1
    ensures forall q :: 0 <= q < |s| ==> s[q] == (if q < k then q else q + 1)
  {
    seq(n - 1, q requires 0 <= q < n - 1 => if q < k then q else q + 1)
  }

  /**
    The indices of the first two tips of the tips stably ordered by |dx|: the first
    minimal tip, then the first minimal tip among the others.
   */
  function Get2ClosestFingers1D(target: Vec3, tips: seq<Vec3>): (r: seq<int>)
    ensures |r| == (if |tips| < 2 then |tips| else 2)
    ensures forall p :: 0 <= p < |r| ==> 0 <= r[p] < |tips|
    ensures |r| > 0 ==> forall j :: 0 <= j < |tips| ==> Dist1D(tips[r[0]], target) <= Dist1D(tips[j], target)
    ensures |r| > 0 ==> forall j :: 0 <= j < r[0] ==> Dist1D(tips[j], target) > Dist1D(tips[r[0]], target)
    ensures |r| == 2 ==> r[0] != r[1]
    ensures |r| == 2 ==> forall j :: 0 <= j < |tips| && j != r[0] ==>
              Dist1D(tips[r[1]], target) <= Dist1D(tips[j], target)
    ensures |r| == 2 ==> forall j :: 0 <= j < r[1] && j != r[0] ==>
              Dist1D(tips[j], target) > Dist1D(tips[r[1]], target)
  {
    if |tips| == 0 then []
    else
      var c := Costs(tips, target, Dist1D);
      var first := FirstArgMin(c);
      if |tips| == 1 then [first]
      else
        var rest := AllBut(|tips|, first);
        var second := MaskedArgMin(c, rest);
        SecondClosestIsStable(c, first, second);
        [first, second]
  }

  /** The stable second choice is minimal among the rest and first among those of its cost. */
  lemma {:induction false} SecondClosestIsStable(c: seq<real>, first: int, second: int)
    requires 0 <= first < |c| && |c| >= 2
    requires forall q :: 0 <= q < |c| - 1 ==> 0 <= AllBut(|c|, first)[q] < |c|
    requires second in AllBut(|c|, first)
    requires forall q :: 0 <= q < |c| - 1 ==> c[second] <= c[AllBut(|c|, first)[q]]
    requires exists p :: 0 <= p < |c| - 1 && AllBut(|c|, first)[p] == second &&
               forall q :: 0 <= q < p ==> c[AllBut(|c|, first)[q]] > c[second]
    ensures second != first
    ensures forall j :: 0 <= j < |c| && j != first ==> c[second] <= c[j]
    ensures forall j :: 0 <= j < second && j != first ==> c[j] > c[second]
  {
    var rest := AllBut(|c|, first);
    var p :| 0 <= p < |c| - 1 && rest[p] == second &&
             forall q :: 0 <= q < p ==> c[rest[q]] > c[second];
    forall j | 0 <= j < |c| && j != first
      ensures c[second] <= c[j]
    {
      var q := if j < first then j else j - 1;
      assert rest[q] == j;
    }
    forall j | 0 <= j < second && j != first
      ensures c[j] > c[second]
    {
      var q := if j < first then j else j - 1;
      assert rest[q] == j;
    }
  }

  /** The 2-of-3 vote over three choices. */
  function Votes(v: int, a: int, b: int, c: int): nat {
    (if a == v then 1 else 0) + (if b == v then 1 else 0) + (if c == v then 1 else 0)
  }

  function Mode(a: int, b: int, c: int): (r: int)
    ensures r == a || r == b || r == c
    ensures forall v :: Votes(v, a, b, c) >= 2 ==> r == v
    ensures a != b && a != c && b != c ==> r == c
  {
    if a == b || a == c then a else if b == c then b else c
  }

  // ---------------------------------------------------------------- filtering

  /** The three gates a fingertip must pass to count as on the key. */
  predicate Passes(p: Vec3, target: Vec3, epsilon: real, keySize: real) {
    var errorX := p.x - target.x;
    var errorZ := p.z - target.z;
    var errorY := p.y - target.y;
    && errorX <= keySize / 2.0
    && 0.0 - epsilon <= errorZ <= keySize * 3.0
    && errorY <= keySize
  }

  /** The indices of the points that pass the gates, ascending. */
  function Filtered(points: seq<Vec3>, target: Vec3, epsilon: real, keySize: real): (r: seq<int>)
    ensures forall i :: i in r <==> 0 <= i < |points| && Passes(points[i], target, epsilon, keySize)
    ensures forall p :: 0 <= p < |r| ==> 0 <= r[p] < |points|
    ensures forall p, q :: 0 <= p < q < |r| ==> r[p] < r[q]
    decreases |points|
  {
    if |points| == 0 then []
    else
      var n := |points| - 1;
      var prefix := points[..n];
      assert forall i :: 0 <= i < n ==> prefix[i] == points[i];
      Filtered(prefix, target, epsilon, keySize)
        + (if Passes(points[n], target, epsilon, keySize) then [n] else [])
  }

  /** A larger epsilon never drops a point. */
  lemma {:induction false} FilterEpsilonMonotone(points: seq<Vec3>, target: Vec3, epsilon1: real, epsilon2: real, keySize: real)
    requires epsilon1 <= epsilon2
    ensures forall i :: i in Filtered(points, target, epsilon1, keySize) ==> i in Filtered(points, target, epsilon2, keySize)
  {
  }

  /** FilterPoints: keeps, in order, the points passing the gates; the black-key flag is not consulted. */
  method FilterPoints(points: seq<Vec3>, target: Vec3, isBlackKey: bool, epsilon: real, keySize: real)
    returns (remainingPoints: seq<int>)
    ensures remainingPoints == Filtered(points, target, epsilon, keySize)
  {
    remainingPoints := [];
    for i := 0 to |points|
      invariant remainingPoints == Filtered(points[..i], target, epsilon, keySize)
    {
      assert points[..i + 1][..i] == points[..i];
      var errorX := points[i].x - target.x;
      var errorZ := points[i].z - target.z;
      var errorY := points[i].y - target.y;
      if errorX > keySize / 2.0 {
        continue;
      }
      if errorZ < 0.0 - epsilon || errorZ > keySize * 3.0 {
        continue;
      }
      if errorY > keySize {
        continue;
      }
      remainingPoints := remainingPoints + [i];
    }
    assert points[..|points|] == points;
  }

  // ---------------------------------------------------------------- key positions

  /** The scale degrees of the white and the black keys of an octave. */
  const WhiteKeys: seq<int> := [0, 2, 4, 5, 7, 9, 11]
  const BlackKeys: seq<int> := [1, 3, 6, 8, 10]

  /**
    The calibrated keyboard: `octaveDirection` is the normalised left-to-right corner
    vector and `oneKeyLength` the magnitude of `oneKeyVector`, both supplied.
   */
  datatype KeyLayout = KeyLayout(
    anchor: Vec3,
    octaveDirection: Vec3,
    octaveWidth: real,
    deltaVec: Vec3,
    oneKeyVector: Vec3,
    oneKeyLength: real,
    forwardVector: Vec3,
    anchorKey: int,
    blackKeyOffset: real,
    blackKeyHeight: real)

  /** C#'s `key / 12`, truncating toward zero. */
  function Octave(key: int): int {
    if key >= 0 then key / 12 else -((-key) / 12)
  }

  /** C#'s `key % 12`, which takes the sign of the key. */
  function ScaleDegree(key: int): int {
    key - 12 * Octave(key)
  }

  /** Octave and scale degree decompose the key, with C#'s truncating sign rules. */
  lemma {:induction false} KeyDecomposition(key: int)
    ensures key == 12 * Octave(key) + ScaleDegree(key)
    ensures key >= 0 ==> 0 <= ScaleDegree(key) < 12 && Octave(key) >= 0
    ensures key < 0 ==> -12 < ScaleDegree(key) <= 0 && Octave(key) <= 0
  {
  }

  /** The white and black tables split the twelve degrees of an octave. */
  lemma {:induction false} KeyTablesPartition(k: int)
    ensures 0 <= k < 12 <==> k in WhiteKeys || k in BlackKeys
    ensures !(k in WhiteKeys && k in BlackKeys)
  {
  }

  /** List.IndexOf over the white-key table: the lateral index of a white key. */
  function WhiteIndex(k: int): (i: int)
    requires k in WhiteKeys
    ensures 0 <= i < |WhiteKeys| && WhiteKeys[i] == k
  {
    if k == 0 then 0 else if k == 2 then 1 else if k == 4 then 2 else if k == 5 then 3
    else if k == 7 then 4 else if k == 9 then 5 else 6
  }

  /** The oneKeyVector multiple of a black key's midpoint. */
  function BlackMultiple(k: int): (m: int)
    requires k in BlackKeys
    ensures 1 <= m < |WhiteKeys|
    ensures WhiteKeys[m - 1] == k - 1 && WhiteKeys[m] == k + 1
  {
    if k == 1 then 1 else if k == 3 then 2 else if k == 6 then 4 else if k == 8 then 5 else 6
  }

  /** A black key's multiple is the lateral index of the white key above it. */
  lemma {:induction false} BlackMultipleIsWhiteAbove(k: int)
    requires k in BlackKeys
    ensures BlackMultiple(k) == WhiteIndex(k + 1)
    ensures BlackMultiple(k) == WhiteIndex(k - 1) + 1
  {
  }

  /** Lateral indices follow the order of the white keys. */
  lemma {:induction false} WhiteIndexMonotone(k1: int, k2: int)
    requires k1 in WhiteKeys && k2 in WhiteKeys && k1 < k2
    ensures WhiteIndex(k1) < WhiteIndex(k2)
  {
  }

  /** The key point of a scale degree within its octave; degrees outside both tables get the origin. */
  function MidPositionFromScaleKey(layout: KeyLayout, scaleKey: int): Vec3 {
    if scaleKey in WhiteKeys then
      Add(Scale(Scale(layout.deltaVec, layout.octaveWidth / 7.0), WhiteIndex(scaleKey) as real),
          Scale(layout.oneKeyVector, 1.0 / 2.0))
    else if scaleKey in BlackKeys then
      Add(Add(Scale(layout.oneKeyVector, BlackMultiple(scaleKey) as real),
              Scale(layout.forwardVector, layout.blackKeyOffset)),
          Scale(Up, layout.blackKeyHeight))
    else Zero
  }

  /** The forward-step factor: 0.2 of the approximate white-key length on white keys, else 0.15. */
  function PointMult(scaleKey: int): real {
    if scaleKey in WhiteKeys then 0.2 else 0.15
  }

  /** The key point within its octave: scale point plus the forward and height offsets. */
  function KeyPointInOctave(layout: KeyLayout, scaleKey: int, heightMode: int, forwardMode: int): Vec3 {
    var scalePos := MidPositionFromScaleKey(layout, scaleKey);
    var approxWhiteKeyLength := layout.oneKeyLength * 5.0;
    var forwardPos := Add(scalePos, Scale(Scale(Scale(layout.forwardVector, approxWhiteKeyLength),
                                                forwardMode as real), PointMult(scaleKey)));
    if heightMode == 1 then Add(forwardPos, Scale(Up, approxWhiteKeyLength * 0.5)) else forwardPos
  }

  /** The offset of the key's octave from the anchor key's octave, along the keyboard. */
  function OctaveOffset(layout: KeyLayout, key: int): Vec3 {
    var octaveVector := Scale(layout.octaveDirection, layout.octaveWidth);
    Scale(octaveVector, (Octave(key) - Octave(layout.anchorKey)) as real)
  }

  /** The key point of a MIDI key: point within the octave, octave offset, anchor. */
  function MidPositionFromKey(layout: KeyLayout, key: int, heightMode: int, forwardMode: int): Vec3 {
    Add(Add(KeyPointInOctave(layout, ScaleDegree(key), heightMode, forwardMode), OctaveOffset(layout, key)),
        layout.anchor)
  }

  /** One octave up moves the key point by one octave vector. */
  lemma {:induction false} OctaveShift(layout: KeyLayout, key: int, heightMode: int, forwardMode: int)
    requires key >= 0
    ensures MidPositionFromKey(layout, key + 12, heightMode, forwardMode)
            == Add(MidPositionFromKey(layout, key, heightMode, forwardMode),
                   Scale(layout.octaveDirection, layout.octaveWidth))
  {
    assert Octave(key + 12) == Octave(key) + 1;
    assert ScaleDegree(key + 12) == ScaleDegree(key);
    var v := Scale(layout.octaveDirection, layout.octaveWidth);
    var n := (Octave(key) - Octave(layout.anchorKey)) as real;
    ScaleStep(v, n);
    assert OctaveOffset(layout, key + 12) == Add(OctaveOffset(layout, key), v);
  }

  /** Neighbouring white keys of an octave lie one seventh of the octave width apart along the key row. */
  lemma {:induction false} WhiteKeyStep(layout: KeyLayout, i: int)
    requires 0 <= i < |WhiteKeys| - 1
    ensures MidPositionFromScaleKey(layout, WhiteKeys[i + 1])
            == Add(MidPositionFromScaleKey(layout, WhiteKeys[i]), Scale(layout.deltaVec, layout.octaveWidth / 7.0))
  {
    assert WhiteIndex(WhiteKeys[i]) == i && WhiteIndex(WhiteKeys[i + 1]) == i + 1;
    var step := Scale(layout.deltaVec, layout.octaveWidth / 7.0);
    ScaleStep(step, i as real);
  }

  /** In the anchor's octave, at height and forward mode 0, the key point is the scale point moved to the anchor. */
  lemma {:induction false} AnchorOctaveKey(layout: KeyLayout, key: int)
    requires Octave(key) == Octave(layout.anchorKey)
    ensures MidPositionFromKey(layout, key, 0, 0) == Add(MidPositionFromScaleKey(layout, ScaleDegree(key)), layout.anchor)
  {
    var f := Scale(layout.forwardVector, layout.oneKeyLength * 5.0);
    ScaleByZero(f, PointMult(ScaleDegree(key)));
    assert OctaveOffset(layout, key) == Zero;
  }

  lemma {:induction false} ScaleStep(v: Vec3, n: real)
    ensures Scale(v, n + 1.0) == Add(Scale(v, n), v)
  {
  }

  /**
    The forward mode f moves the key point f steps along the forward vector from
    its mode-0 point, each step the degree's factor of five key lengths.
   */
  lemma {:induction false} ForwardSteps(layout: KeyLayout, key: int, heightMode: int, forwardMode: int)
    ensures MidPositionFromKey(layout, key, heightMode, forwardMode)
            == Add(MidPositionFromKey(layout, key, heightMode, 0),
                   Scale(Scale(Scale(layout.forwardVector, layout.oneKeyLength * 5.0), forwardMode as real),
                         PointMult(ScaleDegree(key))))
  {
    var k := ScaleDegree(key);
    var f := Scale(layout.forwardVector, layout.oneKeyLength * 5.0);
    ScaleByZero(f, PointMult(k));
    ShiftedPoint(MidPositionFromScaleKey(layout, k), Scale(Scale(f, forwardMode as real), PointMult(k)),
                 Scale(Up, layout.oneKeyLength * 5.0 * 0.5), OctaveOffset(layout, key), layout.anchor,
                 heightMode == 1);
  }

  /** Zero steps of any length are no move. */
  lemma {:induction false} ScaleByZero(f: Vec3, m: real)
    ensures Scale(Scale(f, 0 as real), m) == Zero
  {
  }

  /** A move applied before the optional lift and the two offsets can be applied after them. */
  lemma {:induction false} ShiftedPoint(s: Vec3, d: Vec3, u: Vec3, o: Vec3, a: Vec3, lift: bool)
    ensures Add(Add((var p := Add(s, d); if lift then Add(p, u) else p), o), a)
            == Add(Add(Add((var p := Add(s, Zero); if lift then Add(p, u) else p), o), a), d)
  {
  }

  /** A negative key has a non-positive C# remainder, so white keys below zero lose their lateral place. */
  lemma {:induction false} NegativeKeyScalePosition(layout: KeyLayout, key: int)
    requires key < 0 && ScaleDegree(key) != 0
    ensures MidPositionFromScaleKey(layout, ScaleDegree(key)) == Zero
  {
    KeyDecomposition(key);
  }

  // ---------------------------------------------------------------- key to finger

  datatype FingerCheckMode = Use1DEu | Use2DEu | Use3DEu | Use1DMa | Use2DMa | Use3DMa

  /** The metric a check mode compares tips by; both 1D modes use the distance along x. */
  function ModeCost(mode: FingerCheckMode, tip: Vec3, target: Vec3): real {
    match mode
    case Use1DEu => Dist1D(tip, target)
    case Use2DEu => SqDist2D(tip, target)
    case Use3DEu => SqDist3D(tip, target)
    case Use1DMa => Dist1D(tip, target)
    case Use2DMa => Manhattan2D(tip, target)
    case Use3DMa => Manhattan3D(tip, target)
  }

  /** The selector a check mode dispatches to: the first tip of least cost under the mode's metric. */
  function ClosestByMode(mode: FingerCheckMode, target: Vec3, tips: seq<Vec3>): (r: int)
    requires |tips| > 0
    ensures 0 <= r < |tips|
    ensures forall j :: 0 <= j < |tips| ==> ModeCost(mode, tips[r], target) <= ModeCost(mode, tips[j], target)
    ensures forall j :: 0 <= j < r ==> ModeCost(mode, tips[j], target) > ModeCost(mode, tips[r], target)
  {
    match mode
    case Use1DEu => ClosestFinger1D(target, tips)
    case Use2DEu => ClosestFinger2D(target, tips)
    case Use3DEu => ClosestFinger3D(target, tips)
    case Use1DMa => ClosestFinger1DManhattan(target, tips)
    case Use2DMa => ClosestFinger2DManhattan(target, tips)
    case Use3DMa => ClosestFinger3DManhattan(target, tips)
  }

  /** The keyboard-space image of every fingertip. */
  function Transformed(tips: seq<Vec3>, m: Vec3 -> Vec3): (t: seq<Vec3>)
    ensures |t| == |tips| && forall i :: 0 <= i < |tips| ==> t[i] == m(tips[i])
  {
    seq(|tips|, i requires 0 <= i < |tips| => m(tips[i]))
  }

  /** Maps the fingertips into keyboard space, one by one. */
  method TransformTips(fingertipPositions: seq<Vec3>, m: Vec3 -> Vec3) returns (transformed: seq<Vec3>)
    ensures transformed == Transformed(fingertipPositions, m)
  {
    transformed := [];
    for i := 0 to |fingertipPositions|
      invariant |transformed| == i
      invariant forall j :: 0 <= j < i ==> transformed[j] == m(fingertipPositions[j])
    {
      transformed := transformed + [m(fingertipPositions[i])];
    }
  }

  /** The finger for a key under the configured check mode; `m` maps into keyboard space. */
  method GetFingerFromKey(fingertipPositions: seq<Vec3>, key: int, layout: KeyLayout,
                          heightMode: int, forwardMode: int, mode: FingerCheckMode, m: Vec3 -> Vec3)
    returns (finger: int)
    requires |fingertipPositions| == 5
    ensures finger == ClosestByMode(mode, m(MidPositionFromKey(layout, key, heightMode, forwardMode)),
                                    Transformed(fingertipPositions, m))
    ensures 0 <= finger < 5
  {
    var transformedFingerPositions := TransformTips(fingertipPositions, m);
    var keyPos := MidPositionFromKey(layout, key, heightMode, forwardMode);
    keyPos := m(keyPos);
    finger := ClosestByMode(mode, keyPos, transformedFingerPositions);
  }

  /**
    The filter-then-1D policy: among the tips passing the gates (epsilon 0.1) the one
    closest along x, and when none passes the 3D choice.
   */
  method GetFingerFromKey2(fingertipPositions: seq<Vec3>, key: int, layout: KeyLayout,
                           heightMode: int, forwardMode: int, m: Vec3 -> Vec3)
    returns (finger: int)
    requires |fingertipPositions| == 5
    ensures var tips := Transformed(fingertipPositions, m);
            var keyPos := m(MidPositionFromKey(layout, key, heightMode, forwardMode));
            var filtered := Filtered(tips, keyPos, 0.1, layout.oneKeyLength);
            && 0 <= finger < 5
            && (|filtered| > 0 ==> finger in filtered && finger == ClosestFinger1DMasked(keyPos, tips, filtered))
            && (|filtered| == 0 ==> finger == ClosestFinger3D(keyPos, tips))
  {
    var transformedFingerPositions := TransformTips(fingertipPositions, m);
    var keyPos := MidPositionFromKey(layout, key, heightMode, forwardMode);
    keyPos := m(keyPos);
    var c := ClosestFinger3D(keyPos, transformedFingerPositions);
    var filteredPoints := FilterPoints(transformedFingerPositions, keyPos, ScaleDegree(key) in BlackKeys,
                                       0.1, layout.oneKeyLength);
    if |filteredPoints| != 0 {
      finger := ClosestFinger1DMasked(keyPos, transformedFingerPositions, filteredPoints);
    } else {
      finger := c;
    }
  }
}
