/** The three-level fatigue classification and the driver-state labels shown
    beside it (automind.py:28, 35, 39, 85-103, 108-114). */
module FatigueLevels {

  /** The analyzer's `fatigue_level`: "NORMAL", "WARNING" or "CRITICAL". */
  datatype Level = Normal | Warning | Critical

  /** The `driver_state` display labels. Each level draws its label from two of them:
      NORMAL from Focused ("专注驾驶") and SlightlyDistracted ("轻微走神"),
      WARNING from Distracted ("走神") and Microsleep ("短暂瞌睡"),
      CRITICAL from Drowsy ("瞌睡") and SeverelyDrowsy ("严重瞌睡"). */
  datatype DriverState = Focused | SlightlyDistracted | Distracted | Microsleep | Drowsy | SeverelyDrowsy

  /** YAWN_COUNT_THRESHOLD: this many yawns in a ten-minute window is a WARNING. */
  const YawnCountThreshold: nat := 3

  /** Lines 109-114: CRITICAL is tested first, then WARNING, else NORMAL. */
  function Classify(yawnCount: nat): (l: Level)
    ensures l == Critical <==> yawnCount >= 4
    ensures l == Warning <==> yawnCount == 3
    ensures l == Normal <==> yawnCount <= 2
  {
    if yawnCount >= YawnCountThreshold + 1 then Critical
    else if yawnCount >= YawnCountThreshold then Warning
    else Normal
  }

  /** The order of the levels, from least to most severe. */
  function Severity(l: Level): nat
  {
    match l
    case Normal => 0
    case Warning => 1
    case Critical => 2
  }

  /** More yawns never give a less severe level. */
  lemma ClassifyMonotone(a: nat, b: nat)
    requires a <= b
    ensures Severity(Classify(a)) <= Severity(Classify(b))
  {
  }

  /** The labels the steering simulation may pick while the analyzer is at level `l`. */
  function Labels(l: Level): set<DriverState>
  {
    match l
    case Normal => {Focused, SlightlyDistracted}
    case Warning => {Distracted, Microsleep}
    case Critical => {Drowsy, SeverelyDrowsy}
  }

  /** Each label belongs to exactly one level's vocabulary, so the label on
      screen tells which branch of the steering simulation produced it. */
  lemma LabelsPartition(d: DriverState)
    ensures exists l :: d in Labels(l)
    ensures forall l1, l2 :: d in Labels(l1) && d in Labels(l2) ==> l1 == l2
  {
    match d
    case Focused => assert d in Labels(Normal);
    case SlightlyDistracted => assert d in Labels(Normal);
    case Distracted => assert d in Labels(Warning);
    case Microsleep => assert d in Labels(Warning);
    case Drowsy => assert d in Labels(Critical);
    case SeverelyDrowsy => assert d in Labels(Critical);
  }
}
