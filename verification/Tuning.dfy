/** The tunable constants of app/config/tuning.py and the constraints their constructor checks. */
module Tuning {
  import opened Prelude

  datatype Field =
    | FibTp1 | FibTp2 | FibTp3
    | AtrPrzSweep | FeeRate | SlippageRate
    | MaxDAgeBars | MaxPrzDistanceAtr | MaxFormingPrzWidthAtr | AuthenticityHalve | AuthenticityVeto
    | AdverseSharpeThreshold | RegimeModerate | RegimeHigh | TargetAtrPct | DefaultTtlBars
    | AGradeMin | AGradeMinHighQuant | HighQuantPositionMult | StabilityWindow
    | MinCandles | AtrWindow | AtrLongWindow | RsiWindow | VolumeMaWindow | SwingLookback
    | QuantTrapLookback | VolumeAuthenticityWindow | QuantRegimeWindow | PerBarSharpeWindow
    | SlopeTrendUp | SlopeTrendDown | MultTrendingAligned | MultRangingAligned
    | MultTrendingInverse | MultRangingInverse | MultExtremeInverse | MultDataShort
    | ExtremeDeviationPct | MinDailyBars

  datatype DictField = StopBuffer | ConfluenceWeights | PatternBaseScore

  datatype Entry = Entry(key: string, value: real)

  // Fields the search never touches.
  datatype Frozen = Frozen(tpClosePcts: seq<int>, extendedPatterns: set<string>, htfIntervals: set<string>)

  // A frozen dataclass: every field has a value; dictionaries keep insertion order.
  datatype Tuning = Tuning(nums: map<Field, real>, dicts: map<DictField, seq<Entry>>, frozen: Frozen)

  ghost predicate Complete(t: Tuning) {
    (forall f: Field :: f in t.nums) && (forall d: DictField :: d in t.dicts)
  }

  function Num(t: Tuning, f: Field): real {
    if f in t.nums then t.nums[f] else 0.0
  }

  function Dict(t: Tuning, d: DictField): seq<Entry> {
    if d in t.dicts then t.dicts[d] else []
  }

  function KeysOf(es: seq<Entry>): (ks: seq<string>)
    ensures |ks| == |es|
  {
    seq(|es|, i requires 0 <= i < |es| => es[i].key)
  }

  function Total(es: seq<Entry>): real {
    if es == [] then 0.0 else Total(Front(es)) + Last(es).value
  }

  function SumInts(xs: seq<int>): int {
    if xs == [] then 0 else SumInts(Front(xs)) + Last(xs)
  }

  const REQUIRED_EXTENDED := {"butterfly", "deep butterfly", "crab", "deep crab", "shark", "deep shark"}
  const REQUIRED_FAMILIES := ["gartley", "bat", "butterfly", "crab", "deep crab", "shark"]
  const REQUIRED_CONFLUENCE := ["price_action", "htf_trend", "rsi", "structure", "macd", "funding"]
  const REQUIRED_LEVELS := ["conservative", "standard", "aggressive"]
  const REQUIRED_HTF := {"15m", "1h", "4h", "1d", "1w"}

  const POSITIVE_FIELDS := {
    MaxDAgeBars, DefaultTtlBars, AtrWindow, AtrLongWindow, RsiWindow, VolumeMaWindow, SwingLookback,
    StabilityWindow, MinCandles, MinDailyBars, QuantTrapLookback, VolumeAuthenticityWindow,
    QuantRegimeWindow, PerBarSharpeWindow, AuthenticityHalve, AuthenticityVeto, RegimeModerate,
    RegimeHigh, AGradeMin, AGradeMinHighQuant}

  predicate HasKeys(es: seq<Entry>, required: seq<string>) {
    forall i :: 0 <= i < |required| ==> required[i] in KeysOf(es)
  }

  predicate FrozenOk(f: Frozen) {
    SumInts(f.tpClosePcts) == 100 && REQUIRED_EXTENDED <= f.extendedPatterns && REQUIRED_HTF <= f.htfIntervals
  }

  predicate WeightsOk(es: seq<Entry>) {
    RAbs(Total(es) - 100.0) <= 0.000001 && HasKeys(es, REQUIRED_CONFLUENCE)
  }

  predicate StopBufferOk(es: seq<Entry>) {
    && HasKeys(es, REQUIRED_LEVELS)
    && forall i :: 0 <= i < |es| && es[i].key == "standard" ==> 0.2 <= es[i].value <= 0.5
  }

  predicate ScalarsOk(t: Tuning) {
    var inverseMax := RMax(Num(t, MultTrendingInverse), Num(t, MultRangingInverse));
    var inverseMin := RMin(Num(t, MultTrendingInverse), Num(t, MultRangingInverse));
    && Num(t, FibTp1) < Num(t, FibTp2) < Num(t, FibTp3)
    && Num(t, AuthenticityVeto) < Num(t, AuthenticityHalve)
    && Num(t, RegimeModerate) < Num(t, RegimeHigh)
    && inverseMax <= Num(t, MultExtremeInverse) <= 1.5
    && Num(t, MultTrendingAligned) >= inverseMin
    && Num(t, MultRangingAligned) >= inverseMin
    && 0.5 <= Num(t, MultDataShort) <= 1.0
    && (forall f :: f in POSITIVE_FIELDS ==> Num(t, f) > 0.0)
    && Num(t, AtrLongWindow) >= Num(t, AtrWindow)
  }

  // What __post_init__ accepts.
  predicate Valid(t: Tuning) {
    && FrozenOk(t.frozen)
    && ScalarsOk(t)
    && WeightsOk(Dict(t, ConfluenceWeights))
    && StopBufferOk(Dict(t, StopBuffer))
    && HasKeys(Dict(t, PatternBaseScore), REQUIRED_FAMILIES)
  }
}
