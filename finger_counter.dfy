/**
  The finger counter: one hand's 21 landmarks (normalized image coordinates,
  smaller y is higher in the frame) are turned into a count of raised digits.
  The four non-thumb fingers use a vertical rule against the wrist, the thumb
  a lateral-and-vertical rule against its own joints.
 */
module FingerCounter {
  import opened Numbers

  /** One landmark's normalized (x, y) image coordinates; depth is not used. */
  datatype Point = Point(x: real, y: real)

  /** Number of landmarks the hand detector reports per hand. */
  const LandmarkCount: nat := 21

  // Landmark ids of the hand model (fixed, not derived at run time).
  const Wrist: nat := 0
  const ThumbMcp: nat := 2
  const ThumbIp: nat := 3
  const ThumbTip: nat := 4
  const IndexTip: nat := 8
  const MiddleTip: nat := 12
  const RingTip: nat := 16
  const PinkyTip: nat := 20

  /** The non-thumb finger tips, in the order the counter visits them. */
  const FingerTips: seq<nat> := [IndexTip, MiddleTip, RingTip, PinkyTip]

  /** How far (as a fraction of frame height) a tip must be above the wrist. */
  const Threshold: real := 0.1

  /** The largest gesture code. */
  const MaxCount: nat := 5

  /** One detected hand: exactly 21 landmarks in the detector's canonical order. */
  type Snapshot = s: seq<Point> | |s| == LandmarkCount witness seq(LandmarkCount, _ => Point(0.0, 0.0))

  /** A non-thumb finger is raised when its tip is strictly more than Threshold above the wrist. */
  predicate TipRaised(s: Snapshot, tip: nat)
    requires tip < LandmarkCount
  {
    s[tip].y < s[Wrist].y - Threshold
  }

  /** The thumb is raised when its tip is left of its IP joint and above its MCP joint. */
  predicate ThumbRaised(s: Snapshot)
  {
    s[ThumbTip].x < s[ThumbIp].x && s[ThumbTip].y < s[ThumbMcp].y
  }

  predicate ValidTips(tips: seq<nat>)
  {
    forall i :: 0 <= i < |tips| ==> tips[i] < LandmarkCount
  }

  function Bit(b: bool): nat
  {
    if b then 1 else 0
  }

  /** How many of the given tips are raised. */
  function TipsRaised(s: Snapshot, tips: seq<nat>): (n: nat)
    requires ValidTips(tips)
    ensures n <= |tips|
  {
    if tips == [] then 0
    else TipsRaised(s, tips[..|tips| - 1]) + Bit(TipRaised(s, tips[|tips| - 1]))
  }

  /** The raised-digit count of one hand: four finger checks plus the thumb check. */
  function RaisedCount(s: Snapshot): (n: nat)
    ensures n <= MaxCount
  {
    TipsRaised(s, FingerTips) + Bit(ThumbRaised(s))
  }

  /**
    The counting loop of the source: visits the four finger tips, then the
    thumb, incrementing a counter for each raised digit.
   */
  method CountRaisedFingers(s: Snapshot) returns (raised: nat)
    ensures raised == RaisedCount(s)
    ensures raised <= MaxCount
  {
    raised := 0;
    var wristY := s[Wrist].y;
    var i := 0;
    while i < |FingerTips|
      invariant 0 <= i <= |FingerTips|
      invariant raised == TipsRaised(s, FingerTips[..i])
    {
      var tip := FingerTips[i];
      if s[tip].y < wristY - Threshold {
        raised := raised + 1;
      }
      assert FingerTips[..i + 1][..i] == FingerTips[..i];
      i := i + 1;
    }
    assert FingerTips[..i] == FingerTips;
    if s[ThumbTip].x < s[ThumbIp].x && s[ThumbTip].y < s[ThumbMcp].y {
      raised := raised + 1;
    }
  }

  /**
    The gesture code of one frame: 0 when no hand was detected, otherwise the
    clamped count of the last hand reported (each hand overwrites the previous one).
   */
  function FrameCode(hands: seq<Snapshot>): (c: nat)
    ensures c <= MaxCount
    ensures hands == [] ==> c == 0
  {
    if hands == [] then 0 else Min(RaisedCount(hands[|hands| - 1]), MaxCount)
  }

  /** The per-frame loop over the detected hands, with the default 0 and the clamp to 5. */
  method FrameGestureCode(hands: seq<Snapshot>) returns (fingerCount: nat)
    ensures fingerCount == FrameCode(hands)
    ensures fingerCount <= MaxCount
  {
    fingerCount := 0;
    for i := 0 to |hands|
      invariant fingerCount == FrameCode(hands[..i])
    {
      var n := CountRaisedFingers(hands[i]);
      fingerCount := Min(n, MaxCount);
      assert hands[..i + 1][i] == hands[i];
    }
    assert hands[..|hands|] == hands;
  }

  // ---------------------------------------------------------------------------
  // Properties of the counter

  /** The count is the sum of the five independent digit tests. */
  lemma RaisedCountIsSumOfDigits(s: Snapshot)
    ensures RaisedCount(s) == Bit(TipRaised(s, IndexTip)) + Bit(TipRaised(s, MiddleTip))
                              + Bit(TipRaised(s, RingTip)) + Bit(TipRaised(s, PinkyTip))
                              + Bit(ThumbRaised(s))
  {
    var t3, t2, t1 := FingerTips[..3], FingerTips[..2], FingerTips[..1];
    assert t3[..2] == t2 && t2[..1] == t1 && t1[..0] == [];
    assert TipsRaised(s, t1) == Bit(TipRaised(s, IndexTip));
    assert TipsRaised(s, t2) == TipsRaised(s, t1) + Bit(TipRaised(s, MiddleTip));
    assert TipsRaised(s, t3) == TipsRaised(s, t2) + Bit(TipRaised(s, RingTip));
    assert TipsRaised(s, FingerTips) == TipsRaised(s, t3) + Bit(TipRaised(s, PinkyTip));
  }

  /** The count is 0 exactly when no digit test holds. */
  lemma ZeroIffNoDigitRaised(s: Snapshot)
    ensures RaisedCount(s) == 0 <==>
      !TipRaised(s, IndexTip) && !TipRaised(s, MiddleTip) && !TipRaised(s, RingTip)
      && !TipRaised(s, PinkyTip) && !ThumbRaised(s)
  {
    RaisedCountIsSumOfDigits(s);
  }

  /** The count is 5 exactly when every digit test holds. */
  lemma FiveIffAllDigitsRaised(s: Snapshot)
    ensures RaisedCount(s) == MaxCount <==>
      TipRaised(s, IndexTip) && TipRaised(s, MiddleTip) && TipRaised(s, RingTip)
      && TipRaised(s, PinkyTip) && ThumbRaised(s)
  {
    RaisedCountIsSumOfDigits(s);
  }

  /** The finger part of the count reads only the wrist's y and the tips' y. */
  lemma {:induction false} TipsRaisedReadsOnlyY(s: Snapshot, t: Snapshot, tips: seq<nat>)
    requires ValidTips(tips)
    requires s[Wrist].y == t[Wrist].y
    requires forall i :: 0 <= i < |tips| ==> s[tips[i]].y == t[tips[i]].y
    ensures TipsRaised(s, tips) == TipsRaised(t, tips)
  {
    if tips != [] {
      var init := tips[..|tips| - 1];
      assert forall i :: 0 <= i < |init| ==> init[i] == tips[i];
      TipsRaisedReadsOnlyY(s, t, init);
    }
  }

  /**
    Two hands that agree on the wrist's y, the four tips' y, the thumb tip's
    x and y, the thumb IP's x and the thumb MCP's y get the same count; every
    other coordinate is ignored.
   */
  lemma CountReadsOnlyDigitCoordinates(s: Snapshot, t: Snapshot)
    requires s[Wrist].y == t[Wrist].y
    requires s[IndexTip].y == t[IndexTip].y && s[MiddleTip].y == t[MiddleTip].y
    requires s[RingTip].y == t[RingTip].y && s[PinkyTip].y == t[PinkyTip].y
    requires s[ThumbTip] == t[ThumbTip]
    requires s[ThumbIp].x == t[ThumbIp].x && s[ThumbMcp].y == t[ThumbMcp].y
    ensures RaisedCount(s) == RaisedCount(t)
  {
    TipsRaisedReadsOnlyY(s, t, FingerTips);
  }

  /** The hand with every x coordinate reflected about the frame's vertical centre line. */
  function Mirror(s: Snapshot): Snapshot
  {
    seq(LandmarkCount, i requires 0 <= i < LandmarkCount => Point(1.0 - s[i].x, s[i].y))
  }

  /**
    The thumb rule is not mirrored for the other hand: a raised thumb is no
    longer counted once the hand is reflected, while the finger part of the
    count is unchanged, so the reflected hand counts one digit fewer.
   */
  lemma ThumbRuleNotMirrored(s: Snapshot)
    requires ThumbRaised(s)
    ensures !ThumbRaised(Mirror(s))
    ensures RaisedCount(Mirror(s)) == RaisedCount(s) - 1
  {
    var m := Mirror(s);
    assert forall i :: 0 <= i < |FingerTips| ==> s[FingerTips[i]].y == m[FingerTips[i]].y;
    TipsRaisedReadsOnlyY(s, m, FingerTips);
  }

  /** The clamp on the frame code never bites: the count is already at most 5. */
  lemma FrameCodeIsLastHandsCount(hands: seq<Snapshot>)
    requires hands != []
    ensures FrameCode(hands) == RaisedCount(hands[|hands| - 1])
  {
  }
}
