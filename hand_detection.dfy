/**
 * The per-hand finger classifier and the small key, side and canvas helpers
 * around it (src/utils/handDetection.ts).
 *
 * Landmarks are normalised camera coordinates. The classifier's Euclidean
 * distances use `Math.sqrt`, which is not linear arithmetic; the model takes
 * the length of a 2-D vector as a parameter `norm`, so that `norm(dx, dy)`
 * stands for the source's `sqrt(dx*dx + dy*dy)`. The only thing the model
 * assumes of it is that it is never negative.
 */
module HandDetection {
  import opened Wrappers
  import opened Types

  type NonNeg = r: real | r >= 0.0

  /** The length of the vector (dx, dy). */
  type Norm = (real, real) -> NonNeg

  /** Landmark indices of the five fingertips, thumb first. */
  const FingerTipIds: seq<nat> := [4, 8, 12, 16, 20]
  /** Landmark indices the y test compares each tip against. */
  const FingerPipIds: seq<nat> := [2, 6, 10, 14, 18]
  /** The order of the five flags and of the finger names. */
  const Fingers: seq<Finger> := [Thumb, Index, Middle, Ring, Pinky]
  /** How far (in normalised y) a tip must be above its PIP joint. */
  const FingerThreshold: real := 0.015
  /** Number of landmarks the tracker delivers per hand. */
  const LandmarkCount: nat := 21

  // ---------------------------------------------------------------------
  // Thumb: four geometric checks and a 3-of-4 vote
  // ---------------------------------------------------------------------

  /** The image-plane part of a landmark: everything the classifier reads. */
  function XY(l: Landmark): Position {
    Position(l.x, l.y)
  }

  /** The four thumb checks, in the source's order: fully extended, pointing
      away from the palm, straight at the IP joint, away from the index MCP. */
  function ThumbChecks(lm: seq<Landmark>, norm: Norm): (checks: seq<bool>)
    requires |lm| >= LandmarkCount
    ensures |checks| == 4
  {
    ThumbChecksAt(XY(lm[4]), XY(lm[3]), XY(lm[2]), XY(lm[1]), XY(lm[5]), XY(lm[17]), XY(lm[0]), norm)
  }

  /** The thumb checks over the image positions of the thumb tip, IP, MCP
      and CMC, the index and pinky MCPs and the wrist. */
  function ThumbChecksAt(tip: Position, ip: Position, mcp: Position, cmc: Position,
                         indexMcp: Position, pinkyMcp: Position, wrist: Position, norm: Norm): (checks: seq<bool>)
    ensures |checks| == 4
  {
    var palmCenter := PalmCenter(indexMcp, pinkyMcp, wrist);
    [ IsFullyExtended(Diff(tip, cmc), Diff(mcp, cmc), norm),
      IsPointingAway(Diff(tip, palmCenter), Diff(cmc, palmCenter), norm),
      IsStraight(Diff(mcp, ip), Diff(tip, ip), norm),
      IsAwayFromIndex(Diff(tip, indexMcp), Diff(mcp, indexMcp), norm) ]
  }

  /** The vector from `q` to `p`. */
  function Diff(p: Position, q: Position): Position {
    Position(p.x - q.x, p.y - q.y)
  }

  /** Mean of the index MCP, pinky MCP and wrist. */
  function PalmCenter(indexMcp: Position, pinkyMcp: Position, wrist: Position): Position {
    Position((indexMcp.x + pinkyMcp.x + wrist.x) / 3.0, (indexMcp.y + pinkyMcp.y + wrist.y) / 3.0)
  }

  function Length(v: Position, norm: Norm): NonNeg {
    norm(v.x, v.y)
  }

  /** Check 1: the CMC-to-tip length over the (guarded) CMC-to-MCP length
      exceeds 2. */
  predicate IsFullyExtended(cmcToTip: Position, cmcToMcp: Position, norm: Norm) {
    Length(cmcToTip, norm) / (Length(cmcToMcp, norm) + 0.001) > 2.0
  }

  /** Check 2: the tip is more than 1.3 times as far from the palm centre as
      the CMC is. */
  predicate IsPointingAway(tipToPalm: Position, cmcToPalm: Position, norm: Norm) {
    Length(tipToPalm, norm) > Length(cmcToPalm, norm) * 1.3
  }

  /** Check 3: the (guarded) cosine of the angle at the IP joint is below -0.3. */
  predicate IsStraight(ipToMcp: Position, ipToTip: Position, norm: Norm) {
    Dot(ipToMcp, ipToTip) / (LengthProduct(ipToMcp, ipToTip, norm) + 0.001) < -0.3
  }

  function Dot(u: Position, v: Position): real {
    u.x * v.x + u.y * v.y
  }

  function LengthProduct(u: Position, v: Position, norm: Norm): (p: NonNeg) {
    var a, b := Length(u, norm), Length(v, norm);
    assert a * b >= 0.0;
    a * b
  }

  /** Check 4: the tip is more than 0.9 times as far from the index MCP as
      the thumb MCP is. */
  predicate IsAwayFromIndex(tipToIndexMcp: Position, mcpToIndexMcp: Position, norm: Norm) {
    Length(tipToIndexMcp, norm) > Length(mcpToIndexMcp, norm) * 0.9
  }

  /** How many of the checks passed (`checks.filter(Boolean).length`). */
  function PassedChecks(checks: seq<bool>): (n: nat)
    ensures n <= |checks|
    ensures n == |checks| <==> forall i :: 0 <= i < |checks| ==> checks[i]
  {
    if checks == [] then 0
    else (if checks[|checks| - 1] then 1 else 0) + PassedChecks(checks[..|checks| - 1])
  }

  /** The thumb is raised when at least three of its four checks pass. */
  predicate ThumbRaised(lm: seq<Landmark>, norm: Norm)
    requires |lm| >= LandmarkCount
  {
    PassedChecks(ThumbChecks(lm, norm)) >= 3
  }

  /** The 3-of-4 vote, stated without counting: the thumb is raised exactly
      when some three of the four checks hold together, so two passing checks
      are never enough. */
  lemma {:induction false} ThumbVote(a: bool, b: bool, c: bool, d: bool)
    ensures PassedChecks([a, b, c, d]) >= 3
        <==> (a && b && c) || (a && b && d) || (a && c && d) || (b && c && d)
  {
    assert [a, b, c, d][..3] == [a, b, c];
    assert [a, b, c][..2] == [a, b];
    assert [a, b][..1] == [a];
    assert [a][..0] == [];
    assert PassedChecks([a]) == (if a then 1 else 0);
    assert PassedChecks([a, b]) == (if b then 1 else 0) + PassedChecks([a]);
    assert PassedChecks([a, b, c]) == (if c then 1 else 0) + PassedChecks([a, b]);
    assert PassedChecks([a, b, c, d]) == (if d then 1 else 0) + PassedChecks([a, b, c]);
  }

  /** Check 1 without the division: the ratio exceeds 2 exactly when the
      CMC-to-tip length exceeds twice the guarded CMC-to-MCP length. */
  lemma FullyExtendedWithoutDivision(cmcToTip: Position, cmcToMcp: Position, norm: Norm)
    ensures IsFullyExtended(cmcToTip, cmcToMcp, norm)
        <==> Length(cmcToTip, norm) > 2.0 * (Length(cmcToMcp, norm) + 0.001)
  {
    DividedExceeds(Length(cmcToTip, norm), Length(cmcToMcp, norm) + 0.001, 2.0);
  }

  /** Check 3 without the division: the cosine is below -0.3 exactly when the
      dot product is below -0.3 times the guarded product of the lengths. */
  lemma StraightWithoutDivision(ipToMcp: Position, ipToTip: Position, norm: Norm)
    ensures IsStraight(ipToMcp, ipToTip, norm)
        <==> ipToMcp.x * ipToTip.x + ipToMcp.y * ipToTip.y
             < -0.3 * (Length(ipToMcp, norm) * Length(ipToTip, norm) + 0.001)
  {
    DividedBelow(Dot(ipToMcp, ipToTip), LengthProduct(ipToMcp, ipToTip, norm) + 0.001, -0.3);
  }

  lemma DividedExceeds(a: real, d: real, k: real)
    requires d > 0.0
    ensures a / d > k <==> a > k * d
  {
    var q := a / d;
    assert q * d == a;
    if q > k { assert q * d > k * d; } else { assert q * d <= k * d; }
  }

  lemma DividedBelow(a: real, d: real, k: real)
    requires d > 0.0
    ensures a / d < k <==> a < k * d
  {
    var q := a / d;
    assert q * d == a;
    if q < k { assert q * d < k * d; } else { assert q * d >= k * d; }
  }

  // ---------------------------------------------------------------------
  // The other four fingers: a fixed y test
  // ---------------------------------------------------------------------

  /** Finger `i` (1 = index .. 4 = pinky) is raised when its tip lies more
      than the threshold above its PIP joint (y grows downwards). */
  predicate FingerRaised(lm: seq<Landmark>, i: nat)
    requires 1 <= i < 5 && |lm| >= LandmarkCount
  {
    lm[FingerTipIds[i]].y < lm[FingerPipIds[i]].y - FingerThreshold
  }

  /** The five flags of one hand, ordered thumb, index, middle, ring, pinky. */
  function RaisedFingers(hand: Hand, norm: Norm): (raised: seq<bool>)
    requires |hand.landmarks| >= LandmarkCount
    ensures |raised| == 5
    ensures raised[0] <==> ThumbRaised(hand.landmarks, norm)
    ensures forall i :: 1 <= i < 5 ==> (raised[i] <==> FingerRaised(hand.landmarks, i))
  {
    [ThumbRaised(hand.landmarks, norm)]
      + seq(4, j requires 0 <= j < 4 => FingerRaised(hand.landmarks, j + 1))
  }

  /** `detectRaisedFingers`: the thumb vote, then a loop pushing the y test
      of fingers 1 to 4. */
  method DetectRaisedFingers(hand: Hand, norm: Norm) returns (raised: seq<bool>)
    requires |hand.landmarks| >= LandmarkCount
    ensures |raised| == 5
    ensures raised[0] <==> PassedChecks(ThumbChecks(hand.landmarks, norm)) >= 3
    ensures forall i :: 1 <= i < 5 ==>
              (raised[i] <==> hand.landmarks[FingerTipIds[i]].y < hand.landmarks[FingerPipIds[i]].y - 0.015)
    ensures raised == RaisedFingers(hand, norm)
  {
    var landmarks := hand.landmarks;
    var threshold := FingerThreshold;
    raised := [];
    var thumbChecks := ThumbChecks(landmarks, norm);
    var passedChecks := PassedChecks(thumbChecks);
    raised := raised + [passedChecks >= 3];
    for i := 1 to 5
      invariant |raised| == i
      invariant raised[0] <==> passedChecks >= 3
      invariant forall j :: 1 <= j < i ==>
                  (raised[j] <==> landmarks[FingerTipIds[j]].y < landmarks[FingerPipIds[j]].y - threshold)
    {
      var tipY := landmarks[FingerTipIds[i]].y;
      var pipY := landmarks[FingerPipIds[i]].y;
      raised := raised + [tipY < pipY - threshold];
    }
  }

  // ---------------------------------------------------------------------
  // What the classification depends on
  // ---------------------------------------------------------------------

  /** Two hands whose landmarks agree on x and y (z may differ arbitrarily). */
  predicate SameXY(h1: Hand, h2: Hand) {
    |h1.landmarks| == |h2.landmarks| &&
    forall i :: 0 <= i < |h1.landmarks| ==>
      h1.landmarks[i].x == h2.landmarks[i].x && h1.landmarks[i].y == h2.landmarks[i].y
  }

  /** Classification never reads depth: changing any landmark's z changes
      no flag. */
  lemma ClassificationIgnoresDepth(h1: Hand, h2: Hand, norm: Norm)
    requires |h1.landmarks| >= LandmarkCount && SameXY(h1, h2)
    ensures RaisedFingers(h1, norm) == RaisedFingers(h2, norm)
  {
    var l1, l2 := h1.landmarks, h2.landmarks;
    forall i | 0 <= i < |l1| ensures XY(l1[i]) == XY(l2[i]) {
    }
    assert ThumbChecks(l1, norm) == ThumbChecks(l2, norm);
  }

  /** The hand moved by (dx, dy) in the image. */
  function Translate(hand: Hand, dx: real, dy: real): (moved: Hand)
    ensures |moved.landmarks| == |hand.landmarks| && moved.handedness == hand.handedness
    ensures forall i :: 0 <= i < |hand.landmarks| ==>
              moved.landmarks[i] == hand.landmarks[i].(x := hand.landmarks[i].x + dx, y := hand.landmarks[i].y + dy)
  {
    Hand(seq(|hand.landmarks|, i requires 0 <= i < |hand.landmarks| =>
           hand.landmarks[i].(x := hand.landmarks[i].x + dx, y := hand.landmarks[i].y + dy)),
         hand.handedness)
  }

  /** Every check compares differences of coordinates, so moving the whole
      hand across the image changes no flag. */
  lemma ClassificationIgnoresTranslation(hand: Hand, dx: real, dy: real, norm: Norm)
    requires |hand.landmarks| >= LandmarkCount
    ensures RaisedFingers(Translate(hand, dx, dy), norm) == RaisedFingers(hand, norm)
  {
    var l, m := hand.landmarks, Translate(hand, dx, dy).landmarks;
    ThumbChecksIgnoreTranslation(XY(l[4]), XY(l[3]), XY(l[2]), XY(l[1]), XY(l[5]), XY(l[17]), XY(l[0]), dx, dy, norm);
    assert XY(m[4]) == Shift(XY(l[4]), dx, dy) && XY(m[3]) == Shift(XY(l[3]), dx, dy);
    assert XY(m[2]) == Shift(XY(l[2]), dx, dy) && XY(m[1]) == Shift(XY(l[1]), dx, dy);
    assert XY(m[5]) == Shift(XY(l[5]), dx, dy) && XY(m[17]) == Shift(XY(l[17]), dx, dy);
    assert XY(m[0]) == Shift(XY(l[0]), dx, dy);
    forall i | 1 <= i < 5
      ensures FingerRaised(m, i) == FingerRaised(l, i)
    {
      assert m[FingerTipIds[i]].y == l[FingerTipIds[i]].y + dy;
      assert m[FingerPipIds[i]].y == l[FingerPipIds[i]].y + dy;
    }
  }

  function Shift(p: Position, dx: real, dy: real): Position {
    Position(p.x + dx, p.y + dy)
  }

  lemma ThumbChecksIgnoreTranslation(tip: Position, ip: Position, mcp: Position, cmc: Position,
                                     indexMcp: Position, pinkyMcp: Position, wrist: Position,
                                     dx: real, dy: real, norm: Norm)
    ensures ThumbChecksAt(Shift(tip, dx, dy), Shift(ip, dx, dy), Shift(mcp, dx, dy), Shift(cmc, dx, dy),
                          Shift(indexMcp, dx, dy), Shift(pinkyMcp, dx, dy), Shift(wrist, dx, dy), norm)
         == ThumbChecksAt(tip, ip, mcp, cmc, indexMcp, pinkyMcp, wrist, norm)
  {
    var palm := PalmCenter(indexMcp, pinkyMcp, wrist);
    assert PalmCenter(Shift(indexMcp, dx, dy), Shift(pinkyMcp, dx, dy), Shift(wrist, dx, dy)) == Shift(palm, dx, dy);
    forall p, q ensures Diff(Shift(p, dx, dy), Shift(q, dx, dy)) == Diff(p, q) {
    }
  }

  /** The y test of finger i reads only that finger's tip and PIP y: the size
      of the palm or the position of any other landmark plays no part. */
  lemma FingerFlagReadsOnlyTipAndPip(h1: Hand, h2: Hand, i: nat, norm: Norm)
    requires |h1.landmarks| >= LandmarkCount && |h2.landmarks| >= LandmarkCount
    requires 1 <= i < 5
    requires h1.landmarks[FingerTipIds[i]].y == h2.landmarks[FingerTipIds[i]].y
    requires h1.landmarks[FingerPipIds[i]].y == h2.landmarks[FingerPipIds[i]].y
    ensures RaisedFingers(h1, norm)[i] == RaisedFingers(h2, norm)[i]
  {
  }

  // ---------------------------------------------------------------------
  // Canvas coordinates (the video is shown mirrored)
  // ---------------------------------------------------------------------

  /** `getLandmarkPosition`: canvas position of a landmark, x mirrored. */
  function LandmarkPosition(hand: Hand, landmarkIndex: nat, canvasWidth: real, canvasHeight: real): (pos: Position)
    requires landmarkIndex < |hand.landmarks|
  {
    var l := hand.landmarks[landmarkIndex];
    Position((1.0 - l.x) * canvasWidth, l.y * canvasHeight)
  }

  /** `getFingertipPosition`: the canvas position of finger `fingerIndex`'s tip. */
  function FingertipPosition(hand: Hand, fingerIndex: nat, canvasWidth: real, canvasHeight: real): (pos: Position)
    requires fingerIndex < 5 && |hand.landmarks| >= LandmarkCount
    ensures pos == LandmarkPosition(hand, FingerTipIds[fingerIndex], canvasWidth, canvasHeight)
  {
    var landmark := hand.landmarks[FingerTipIds[fingerIndex]];
    Position((1.0 - landmark.x) * canvasWidth, landmark.y * canvasHeight)
  }

  /** `isWithinBounds`: both coordinates inside the closed canvas rectangle. */
  predicate IsWithinBounds(pos: Position, width: real, height: real) {
    pos.x >= 0.0 && pos.x <= width && pos.y >= 0.0 && pos.y <= height
  }

  /** A landmark inside the unit square lands inside the canvas. */
  lemma LandmarkPositionWithinBounds(hand: Hand, landmarkIndex: nat, width: real, height: real)
    requires landmarkIndex < |hand.landmarks|
    requires 0.0 <= hand.landmarks[landmarkIndex].x <= 1.0
    requires 0.0 <= hand.landmarks[landmarkIndex].y <= 1.0
    requires width >= 0.0 && height >= 0.0
    ensures IsWithinBounds(LandmarkPosition(hand, landmarkIndex, width, height), width, height)
  {
    var l := hand.landmarks[landmarkIndex];
    var pos := LandmarkPosition(hand, landmarkIndex, width, height);
    assert 0.0 <= pos.x <= width by {
      assert pos.x == (1.0 - l.x) * width;
      MulBetween(1.0 - l.x, width);
    }
    assert 0.0 <= pos.y <= height by {
      assert pos.y == l.y * height;
      MulBetween(l.y, height);
    }
  }

  /** On a canvas of positive size a landmark lands inside `isWithinBounds`
      exactly when it lies in the unit square of the camera image. */
  lemma WithinBoundsIffInFrame(hand: Hand, landmarkIndex: nat, width: real, height: real)
    requires landmarkIndex < |hand.landmarks| && width > 0.0 && height > 0.0
    ensures IsWithinBounds(LandmarkPosition(hand, landmarkIndex, width, height), width, height)
        <==> 0.0 <= hand.landmarks[landmarkIndex].x <= 1.0 && 0.0 <= hand.landmarks[landmarkIndex].y <= 1.0
  {
    var l := hand.landmarks[landmarkIndex];
    var pos := LandmarkPosition(hand, landmarkIndex, width, height);
    ScaleBetween(1.0 - l.x, width, pos.x);
    ScaleBetween(l.y, height, pos.y);
  }

  /** `getLandmarkPosition` loses nothing on a canvas of positive size: the
      landmark's x and y are recovered from the position. */
  lemma LandmarkPositionInverse(hand: Hand, landmarkIndex: nat, width: real, height: real)
    requires landmarkIndex < |hand.landmarks| && width > 0.0 && height > 0.0
    ensures hand.landmarks[landmarkIndex].x == 1.0 - LandmarkPosition(hand, landmarkIndex, width, height).x / width
    ensures hand.landmarks[landmarkIndex].y == LandmarkPosition(hand, landmarkIndex, width, height).y / height
  {
    var l := hand.landmarks[landmarkIndex];
    var px := LandmarkPosition(hand, landmarkIndex, width, height).x;
    ScaleCancels(1.0 - l.x, width, px);
    ScaleCancels(l.y, height, LandmarkPosition(hand, landmarkIndex, width, height).y);
  }

  lemma ScaleCancels(f: real, w: real, p: real)
    requires w > 0.0 && p == f * w
    ensures p / w == f
  {
  }

  /** For a positive scale w, f·w lies in [0, w] exactly when f lies in [0, 1]. */
  lemma ScaleBetween(f: real, w: real, p: real)
    requires w > 0.0 && p == f * w
    ensures 0.0 <= p <= w <==> 0.0 <= f <= 1.0
  {
    if 0.0 <= f <= 1.0 {
      MulBetween(f, w);
    }
    if f < 0.0 {
      assert f * w < 0.0;
    }
    if f > 1.0 {
      assert (f - 1.0) * w > 0.0;
    }
  }

  lemma MulBetween(f: real, w: real)
    requires 0.0 <= f <= 1.0 && w >= 0.0
    ensures 0.0 <= f * w <= w
  {
    assert 0.0 <= f * w;
    assert 0.0 <= (1.0 - f) * w;
    assert (1.0 - f) * w == w - f * w;
  }

  /** Mirroring: of two landmarks on a canvas of positive width, the one
      further right in the camera image is drawn further left. */
  lemma PositionMirrorsX(hand: Hand, i: nat, j: nat, width: real, height: real)
    requires i < |hand.landmarks| && j < |hand.landmarks| && width > 0.0
    requires hand.landmarks[i].x < hand.landmarks[j].x
    ensures LandmarkPosition(hand, i, width, height).x > LandmarkPosition(hand, j, width, height).x
  {
    var d := hand.landmarks[j].x - hand.landmarks[i].x;
    assert LandmarkPosition(hand, i, width, height).x - LandmarkPosition(hand, j, width, height).x == d * width;
    assert d * width > 0.0;
  }

  // ---------------------------------------------------------------------
  // Hand side and finger keys
  // ---------------------------------------------------------------------

  /** `getRealHandSide`: the label "Left" is the left hand, any other label
      the right one. */
  function HandSide(hand: Hand): (side: Side)
    ensures side == Left <==> hand.handedness == "Left"
  {
    if hand.handedness == "Left" then Left else Right
  }

  function SideName(side: Side): string {
    match side
    case Left => "left"
    case Right => "right"
  }

  function FingerName(finger: Finger): string {
    match finger
    case Thumb => "thumb"
    case Index => "index"
    case Middle => "middle"
    case Ring => "ring"
    case Pinky => "pinky"
  }

  /** `createFingerKey`: "<side>_<finger>". */
  function FingerKey(side: Side, finger: Finger): string {
    SideName(side) + "_" + FingerName(finger)
  }

  /** What `key.split('_')` destructured into two names yields: the text before
      the first '_', and the text between the first and the second '_' (absent
      when the key has no '_'). */
  datatype KeyParts = KeyParts(handSide: string, fingerName: Option<string>)

  /** The text of `s` up to its first '_' (all of `s` when there is none). */
  function UpToSeparator(s: string): (r: string)
    ensures r <= s && '_' !in r
    ensures |r| < |s| ==> s[|r|] == '_'
  {
    if s == [] || s[0] == '_' then [] else [s[0]] + UpToSeparator(s[1..])
  }

  /** The text of `s` after its first '_', if it has one. */
  function AfterSeparator(s: string): (r: Option<string>)
    ensures r.Some? <==> '_' in s
    ensures r.Some? ==> s == UpToSeparator(s) + "_" + r.value
  {
    if s == [] then None
    else if s[0] == '_' then Some(s[1..])
    else match AfterSeparator(s[1..])
      case None => None
      case Some(rest) => Some(rest)
  }

  /** `parseFingerKey`. */
  function ParseFingerKey(key: string): (parts: KeyParts)
    ensures parts.handSide <= key
  {
    var rest := AfterSeparator(key);
    KeyParts(UpToSeparator(key),
             if rest.Some? then Some(UpToSeparator(rest.value)) else None)
  }

  /** The side name a key starts with (`key.split('_')[0]`). */
  function KeySide(key: string): string {
    ParseFingerKey(key).handSide
  }

  /** Splitting `a + "_" + b` where `a` has no '_' gives back `a` and `b`. */
  lemma {:induction false} SplitJoined(a: string, b: string)
    requires '_' !in a
    ensures UpToSeparator(a + "_" + b) == a
    ensures AfterSeparator(a + "_" + b) == Some(b)
  {
    if a != [] {
      assert (a + "_" + b)[1..] == a[1..] + "_" + b;
      SplitJoined(a[1..], b);
    } else {
      assert a + "_" + b == ['_'] + b;
    }
  }

  /** Parsing a key made by `FingerKey` gives back its side and finger names. */
  lemma {:induction false} ParseFingerKeyRoundTrip(side: Side, finger: Finger)
    ensures ParseFingerKey(FingerKey(side, finger)) == KeyParts(SideName(side), Some(FingerName(finger)))
  {
    SplitJoined(SideName(side), FingerName(finger));
    NoSeparatorInFingerName(finger);
    assert FingerName(finger) + "_" == FingerName(finger) + "_" + [];
    var f := FingerName(finger);
    UpToSeparatorWithout(f);
  }

  lemma NoSeparatorInFingerName(finger: Finger)
    ensures '_' !in FingerName(finger)
  {
  }

  lemma {:induction false} UpToSeparatorWithout(s: string)
    requires '_' !in s
    ensures UpToSeparator(s) == s
  {
    if s != [] {
      assert '_' !in s[1..];
      UpToSeparatorWithout(s[1..]);
    }
  }

  /** Distinct fingers of distinct hands never share a key, and the side a
      key starts with is the side it was made for. */
  lemma FingerKeyInjective(s1: Side, f1: Finger, s2: Side, f2: Finger)
    ensures FingerKey(s1, f1) == FingerKey(s2, f2) <==> s1 == s2 && f1 == f2
    ensures KeySide(FingerKey(s1, f1)) == SideName(s1)
  {
    ParseFingerKeyRoundTrip(s1, f1);
    ParseFingerKeyRoundTrip(s2, f2);
  }
}
