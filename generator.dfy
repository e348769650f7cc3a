/** The daily decision pipeline of the activity generator: counter rounding,
    trait clamping, the HR-flag and base-rate tables, the opportunity score
    and the malicious-day rule that spikes a day's record in place.
    Every random draw is a parameter whose range is a precondition. */
module Generator {

  import opened Org

  // ---- Role profile tables ----

  /** ROLE_BEHAVIOR_BASE: the typical daily count of each feature per role. */
  function BehaviorMean(r: Role, f: Feature): real {
    match r
    case CLevel =>
      (match f
       case AfterHoursLogons => 2.5      case SensitiveFileReads => 50.0
       case UsbDeviceMounts => 0.02      case ExternalEmailsSent => 20.0
       case EmailsWithAttachments => 10.0 case CloudUploadEvents => 0.1
       case FailedLogins => 0.3          case FilesDeleted => 0.5
       case HttpCompetitorVisits => 2.0)
    case Trader =>
      (match f
       case AfterHoursLogons => 1.5      case SensitiveFileReads => 30.0
       case UsbDeviceMounts => 0.05      case ExternalEmailsSent => 4.0
       case EmailsWithAttachments => 2.0 case CloudUploadEvents => 0.05
       case FailedLogins => 0.5          case FilesDeleted => 1.0
       case HttpCompetitorVisits => 1.5)
    case ITAdmin =>
      (match f
       case AfterHoursLogons => 2.0      case SensitiveFileReads => 15.0
       case UsbDeviceMounts => 0.2       case ExternalEmailsSent => 1.0
       case EmailsWithAttachments => 0.5 case CloudUploadEvents => 0.05
       case FailedLogins => 1.0          case FilesDeleted => 5.0
       case HttpCompetitorVisits => 0.5)
    case Analyst =>
      (match f
       case AfterHoursLogons => 0.7      case SensitiveFileReads => 20.0
       case UsbDeviceMounts => 0.05      case ExternalEmailsSent => 6.0
       case EmailsWithAttachments => 3.0 case CloudUploadEvents => 0.1
       case FailedLogins => 0.7          case FilesDeleted => 1.0
       case HttpCompetitorVisits => 1.0)
    case Contractor =>
      (match f
       case AfterHoursLogons => 0.4      case SensitiveFileReads => 10.0
       case UsbDeviceMounts => 0.4       case ExternalEmailsSent => 2.0
       case EmailsWithAttachments => 1.0 case CloudUploadEvents => 0.15
       case FailedLogins => 1.2          case FilesDeleted => 1.0
       case HttpCompetitorVisits => 0.5)
    case ExecAssistant =>
      (match f
       case AfterHoursLogons => 0.5      case SensitiveFileReads => 5.0
       case UsbDeviceMounts => 0.05      case ExternalEmailsSent => 15.0
       case EmailsWithAttachments => 5.0 case CloudUploadEvents => 0.05
       case FailedLogins => 0.4          case FilesDeleted => 0.5
       case HttpCompetitorVisits => 0.2)
  }

  /** ROLE_BEHAVIOR_STD: C_Level has its own spreads, the other five roles share one table. */
  function BehaviorStd(r: Role, f: Feature): real {
    if r == CLevel then
      match f
      case AfterHoursLogons => 1.0      case SensitiveFileReads => 8.0
      case UsbDeviceMounts => 0.3       case ExternalEmailsSent => 5.0
      case EmailsWithAttachments => 3.0 case CloudUploadEvents => 0.3
      case FailedLogins => 0.5          case FilesDeleted => 1.0
      case HttpCompetitorVisits => 1.0
    else
      match f
      case AfterHoursLogons => 0.8      case SensitiveFileReads => 5.0
      case UsbDeviceMounts => 0.5       case ExternalEmailsSent => 2.0
      case EmailsWithAttachments => 1.5 case CloudUploadEvents => 0.5
      case FailedLogins => 0.7          case FilesDeleted => 2.0
      case HttpCompetitorVisits => 0.8
  }

  /** ROLE_OPPORTUNITY_WEIGHTS, each role's entries in dictionary order. */
  function OpportunityWeights(r: Role): seq<(Feature, real)> {
    match r
    case CLevel =>
      [(SensitiveFileReads, 2.5), (ExternalEmailsSent, 2.0), (CloudUploadEvents, 1.5), (AfterHoursLogons, 1.0)]
    case Trader =>
      [(CloudUploadEvents, 2.0), (SensitiveFileReads, 1.5), (AfterHoursLogons, 1.0), (ExternalEmailsSent, 1.0)]
    case ITAdmin =>
      [(AfterHoursLogons, 2.0), (SensitiveFileReads, 1.5), (FilesDeleted, 1.5), (UsbDeviceMounts, 1.2)]
    case Analyst =>
      [(EmailsWithAttachments, 2.0), (ExternalEmailsSent, 1.5), (SensitiveFileReads, 1.0)]
    case Contractor =>
      [(UsbDeviceMounts, 2.0), (SensitiveFileReads, 1.5), (CloudUploadEvents, 1.2)]
    case ExecAssistant =>
      [(EmailsWithAttachments, 2.0), (ExternalEmailsSent, 1.5), (SensitiveFileReads, 1.0)]
  }

  /** hr_flag_chance: the daily probability of an HR event. */
  function HrFlagChance(r: Role): real {
    match r
    case CLevel => 0.0001
    case Trader => 0.001
    case ITAdmin => 0.0015
    case Analyst => 0.001
    case Contractor => 0.002
    case ExecAssistant => 0.0005
  }

  /** base_role_prob: the daily malicious-day base rate. */
  function BaseRoleProb(r: Role): real {
    match r
    case CLevel => 0.00005
    case Trader => 0.00010
    case ITAdmin => 0.00015
    case Analyst => 0.00008
    case Contractor => 0.00020
    case ExecAssistant => 0.00010
  }

  // ---- nonnegative_int ----

  /** Python's round(x): the nearest integer, ties to the even one. */
  function Round(x: real): (r: int)
    ensures -0.5 <= x - r as real <= 0.5
    ensures (x - r as real == 0.5 || x - r as real == -0.5) ==> r % 2 == 0
  {
    var f := x.Floor;
    var frac := x - f as real;
    if frac < 0.5 then f
    else if frac > 0.5 then f + 1
    else if f % 2 == 0 then f else f + 1
  }

  /** round(x) is the only integer within half a unit of x whenever x is not a tie. */
  lemma RoundIsNearest(x: real, n: int)
    requires -0.5 < x - n as real < 0.5
    ensures Round(x) == n
  {
    var r := Round(x);
    assert -1.0 < (r - n) as real < 1.0;
  }

  /** nonnegative_int: max(int(round(x)), 0). */
  function NonnegativeInt(x: real): (n: int)
    ensures n >= 0
    ensures Round(x) >= 0 ==> n == Round(x)
    ensures n == 0 <==> x <= 0.5
  {
    if Round(x) >= 0 then Round(x) else 0
  }

  // ---- generate_psychometrics ----

  datatype TraitParams = TraitParams(cMean: real, cStd: real, nMean: real, nStd: real)

  /** The normal-distribution parameters of both traits, with the generic pair for unknown roles. */
  function PsychometricParams(role: string): TraitParams {
    match ParseRole(role)
    case Some(CLevel) => TraitParams(80.0, 5.0, 40.0, 6.0)
    case Some(Trader) => TraitParams(60.0, 8.0, 60.0, 10.0)
    case Some(ITAdmin) => TraitParams(70.0, 6.0, 45.0, 8.0)
    case Some(Analyst) => TraitParams(62.0, 7.0, 55.0, 9.0)
    case Some(Contractor) => TraitParams(50.0, 10.0, 52.0, 10.0)
    case Some(ExecAssistant) => TraitParams(75.0, 5.0, 50.0, 7.0)
    case None => TraitParams(60.0, 10.0, 55.0, 10.0)
  }

  /** generate_psychometrics: (conscientiousness, neuroticism) drawn as
      mean + std * z and clamped into [0, 100]; zC and zN are the two
      standard-normal draws. */
  function GeneratePsychometrics(role: string, zC: real, zN: real): (t: (real, real))
    ensures 0.0 <= t.0 <= 100.0 && 0.0 <= t.1 <= 100.0
    ensures var p := PsychometricParams(role);
      && (0.0 <= p.cMean + p.cStd * zC <= 100.0 ==> t.0 == p.cMean + p.cStd * zC)
      && (0.0 <= p.nMean + p.nStd * zN <= 100.0 ==> t.1 == p.nMean + p.nStd * zN)
  {
    var p := PsychometricParams(role);
    (Clamp(p.cMean + p.cStd * zC, 0.0, 100.0), Clamp(p.nMean + p.nStd * zN, 0.0, 100.0))
  }

  // ---- opportunity_score ----

  /** The three tables opportunity_score reads for one role. */
  datatype Profile = Profile(mean: Feature -> real, std: Feature -> real, weights: seq<(Feature, real)>)

  function ProfileOf(r: Role): Profile {
    Profile(f => BehaviorMean(r, f), f => BehaviorStd(r, f), OpportunityWeights(r))
  }

  /** max(0, z - 2) for one feature, or nothing when its spread is not positive. */
  function Spike(p: Profile, f: Feature, c: Counters): real {
    var s := p.std(f);
    if s <= 0.0 then 0.0 else Max(0.0, (c.Get(f) as real - p.mean(f)) / s - 2.0)
  }

  /** The uncapped weighted sum over a prefix of the weight table. */
  function RawScore(p: Profile, ws: seq<(Feature, real)>, c: Counters): real
    decreases |ws|
  {
    if ws == [] then 0.0
    else RawScore(p, ws[..|ws| - 1], c) + ws[|ws| - 1].1 * Spike(p, ws[|ws| - 1].0, c)
  }

  /** The opportunity score: the weighted sum capped at 5. */
  function Opportunity(p: Profile, c: Counters): real {
    Min(RawScore(p, p.weights, c), 5.0)
  }

  predicate NonNegativeWeights(ws: seq<(Feature, real)>) {
    forall i :: 0 <= i < |ws| ==> ws[i].1 >= 0.0
  }

  predicate PositiveWeights(ws: seq<(Feature, real)>) {
    forall i :: 0 <= i < |ws| ==> ws[i].1 > 0.0
  }

  /** Feature f of day c is no more than two spreads above its mean (or has no spread). */
  predicate WithinTwoSigma(p: Profile, f: Feature, c: Counters) {
    p.std(f) <= 0.0 || c.Get(f) as real <= p.mean(f) + 2.0 * p.std(f)
  }

  /** Every weighted feature of the day is within two spreads of its mean. */
  predicate Calm(p: Profile, ws: seq<(Feature, real)>, c: Counters) {
    forall i :: 0 <= i < |ws| ==> WithinTwoSigma(p, ws[i].0, c)
  }

  lemma QuotientAboveTwo(d: real, s: real)
    requires s > 0.0
    ensures d / s - 2.0 > 0.0 <==> d > 2.0 * s
  {
    var q := d / s;
    assert q * s == d;
    if q > 2.0 {
      assert (q - 2.0) * s > 0.0;
    } else {
      assert (2.0 - q) * s >= 0.0;
    }
  }

  lemma QuotientMonotone(a: real, b: real, s: real)
    requires s > 0.0 && a <= b
    ensures a / s <= b / s
  {
    assert b / s - a / s == (b - a) / s;
    assert (b - a) / s * s == b - a;
  }

  /** A feature's spike is never negative and is zero exactly when the
      feature is within two spreads of its mean. */
  lemma SpikeZeroIff(p: Profile, f: Feature, c: Counters)
    ensures Spike(p, f, c) >= 0.0
    ensures Spike(p, f, c) == 0.0 <==> WithinTwoSigma(p, f, c)
  {
    if p.std(f) > 0.0 {
      QuotientAboveTwo(c.Get(f) as real - p.mean(f), p.std(f));
    }
  }

  lemma {:induction false} RawScoreNonNegative(p: Profile, ws: seq<(Feature, real)>, c: Counters)
    requires NonNegativeWeights(ws)
    ensures RawScore(p, ws, c) >= 0.0
    decreases |ws|
  {
    if ws != [] {
      RawScoreNonNegative(p, ws[..|ws| - 1], c);
      SpikeZeroIff(p, ws[|ws| - 1].0, c);
    }
  }

  /** With positive weights the uncapped score is zero exactly when every
      weighted feature is within two spreads. */
  lemma {:induction false} RawScoreZeroIff(p: Profile, ws: seq<(Feature, real)>, c: Counters)
    requires PositiveWeights(ws)
    ensures RawScore(p, ws, c) == 0.0 <==> Calm(p, ws, c)
    decreases |ws|
  {
    if ws != [] {
      var init, last := ws[..|ws| - 1], ws[|ws| - 1];
      RawScoreZeroIff(p, init, c);
      RawScoreNonNegative(p, init, c);
      SpikeZeroIff(p, last.0, c);
      assert Calm(p, ws, c) <==> Calm(p, init, c) && WithinTwoSigma(p, last.0, c) by {
        if Calm(p, init, c) && WithinTwoSigma(p, last.0, c) {
          forall i | 0 <= i < |ws| ensures WithinTwoSigma(p, ws[i].0, c) {
            if i < |ws| - 1 { assert ws[i] == init[i]; }
          }
        }
        if Calm(p, ws, c) {
          assert WithinTwoSigma(p, ws[|ws| - 1].0, c);
          forall i | 0 <= i < |init| ensures WithinTwoSigma(p, init[i].0, c) {
            assert init[i] == ws[i];
          }
        }
      }
      if last.1 * Spike(p, last.0, c) == 0.0 {
        assert Spike(p, last.0, c) == 0.0;
      }
    }
  }

  /** The opportunity score lies in [0, 5] whenever no weight is negative. */
  lemma OpportunityBounds(p: Profile, c: Counters)
    requires NonNegativeWeights(p.weights)
    ensures 0.0 <= Opportunity(p, c) <= 5.0
  {
    RawScoreNonNegative(p, p.weights, c);
  }

  /** With positive weights the score is 0 exactly when every weighted
      feature is at most mean + 2 sigma. */
  lemma OpportunityZeroIff(p: Profile, c: Counters)
    requires PositiveWeights(p.weights)
    ensures Opportunity(p, c) == 0.0 <==> Calm(p, p.weights, c)
  {
    RawScoreZeroIff(p, p.weights, c);
  }

  lemma ScaleMonotone(w: real, a: real, b: real)
    requires w >= 0.0 && a <= b
    ensures w * a <= w * b
  {
    assert w * (b - a) >= 0.0;
  }

  lemma SpikeMonotone(p: Profile, f: Feature, c: Counters, d: Counters)
    requires c.Get(f) <= d.Get(f)
    ensures Spike(p, f, c) <= Spike(p, f, d)
  {
    if p.std(f) > 0.0 {
      QuotientMonotone(c.Get(f) as real - p.mean(f), d.Get(f) as real - p.mean(f), p.std(f));
    }
  }

  lemma {:induction false} RawScoreMonotone(p: Profile, ws: seq<(Feature, real)>, c: Counters, d: Counters)
    requires NonNegativeWeights(ws)
    requires forall f :: c.Get(f) <= d.Get(f)
    ensures RawScore(p, ws, c) <= RawScore(p, ws, d)
    decreases |ws|
  {
    if ws != [] {
      var last := ws[|ws| - 1];
      RawScoreMonotone(p, ws[..|ws| - 1], c, d);
      SpikeMonotone(p, last.0, c, d);
      ScaleMonotone(last.1, Spike(p, last.0, c), Spike(p, last.0, d));
    }
  }

  /** Raising any counters never lowers the opportunity score. */
  lemma OpportunityMonotone(p: Profile, c: Counters, d: Counters)
    requires NonNegativeWeights(p.weights)
    requires forall f :: c.Get(f) <= d.Get(f)
    ensures Opportunity(p, c) <= Opportunity(p, d)
  {
    RawScoreMonotone(p, p.weights, c, d);
  }

  /** Only weighted features with a positive spread are read. */
  predicate Scored(p: Profile, f: Feature) {
    p.std(f) > 0.0 && exists i :: 0 <= i < |p.weights| && p.weights[i].0 == f
  }

  lemma {:induction false} RawScoreIgnores(p: Profile, ws: seq<(Feature, real)>, c: Counters, d: Counters)
    requires forall i :: 0 <= i < |ws| && p.std(ws[i].0) > 0.0 ==> c.Get(ws[i].0) == d.Get(ws[i].0)
    ensures RawScore(p, ws, c) == RawScore(p, ws, d)
    decreases |ws|
  {
    if ws != [] {
      var init := ws[..|ws| - 1];
      forall i | 0 <= i < |init| && p.std(init[i].0) > 0.0 ensures c.Get(init[i].0) == d.Get(init[i].0) {
        assert init[i] == ws[i];
      }
      RawScoreIgnores(p, init, c, d);
    }
  }

  /** Days that differ only in features outside the weight table, or in
      features whose spread is not positive, score the same. */
  lemma OpportunityIgnores(p: Profile, c: Counters, d: Counters)
    requires forall f :: Scored(p, f) ==> c.Get(f) == d.Get(f)
    ensures Opportunity(p, c) == Opportunity(p, d)
  {
    forall i | 0 <= i < |p.weights| && p.std(p.weights[i].0) > 0.0
      ensures c.Get(p.weights[i].0) == d.Get(p.weights[i].0)
    {
      assert Scored(p, p.weights[i].0);
    }
    RawScoreIgnores(p, p.weights, c, d);
  }

  /** Every role's tables have positive weights and positive spreads, so
      the general facts above apply to the configured roles. */
  lemma ProfileOfWellFormed(r: Role)
    ensures PositiveWeights(ProfileOf(r).weights) && NonNegativeWeights(ProfileOf(r).weights)
    ensures forall f :: ProfileOf(r).std(f) > 0.0
  {
  }

  // ---- the malicious-day rule ----

  /** stress_factor: one point each for neuroticism > 65, an HR flag and
      conscientiousness < 50. */
  function StressFactor(neuroticism: real, hrFlagged: bool, conscientiousness: real): (k: int)
    ensures 0 <= k <= 3
    ensures k == 0 <==> neuroticism <= 65.0 && !hrFlagged && conscientiousness >= 50.0
    ensures k == 3 <==> neuroticism > 65.0 && hrFlagged && conscientiousness < 50.0
  {
    (if neuroticism > 65.0 then 1 else 0)
    + (if hrFlagged then 1 else 0)
    + (if conscientiousness < 50.0 then 1 else 0)
  }

  /** The daily probability, clamped into [0, 0.0005] after summing. */
  function DailyProbability(r: Role, stress: int, opportunity: real): (p: real)
    ensures 0.0 <= p <= 0.0005
  {
    Max(0.0, Min(BaseRoleProb(r) + 0.000003 * stress as real + 0.00001 * opportunity, 0.0005))
  }

  /** For every reachable input (stress 0..3, opportunity in [0, 5]) the
      clamp changes nothing: the sum never passes 0.000259. */
  lemma ProbabilityCapNeverBinds(r: Role, stress: int, opportunity: real)
    requires 0 <= stress <= 3 && 0.0 <= opportunity <= 5.0
    ensures DailyProbability(r, stress, opportunity)
         == BaseRoleProb(r) + 0.000003 * stress as real + 0.00001 * opportunity
    ensures DailyProbability(r, stress, opportunity) <= 0.000259
  {
  }

  /** More stress or more opportunity never lowers the daily probability. */
  lemma ProbabilityMonotone(r: Role, s1: int, s2: int, o1: real, o2: real)
    requires s1 <= s2 && o1 <= o2
    ensures DailyProbability(r, s1, o1) <= DailyProbability(r, s2, o2)
  {
  }

  /** One spike of the malicious-day injection: `feature += randint(lo, hi)`. */
  datatype SpikeRange = SpikeRange(feature: Feature, lo: int, hi: int)

  /** The spikes applied on a malicious day, per role, in the order the source applies them. */
  function SpikeTable(r: Role): seq<SpikeRange> {
    match r
    case CLevel => [SpikeRange(SensitiveFileReads, 100, 200), SpikeRange(ExternalEmailsSent, 30, 50),
                    SpikeRange(CloudUploadEvents, 5, 10), SpikeRange(AfterHoursLogons, 5, 10)]
    case Trader => [SpikeRange(CloudUploadEvents, 3, 6), SpikeRange(SensitiveFileReads, 20, 40),
                    SpikeRange(AfterHoursLogons, 2, 4)]
    case ITAdmin => [SpikeRange(AfterHoursLogons, 3, 6), SpikeRange(SensitiveFileReads, 40, 80),
                     SpikeRange(UsbDeviceMounts, 1, 3), SpikeRange(FilesDeleted, 20, 50)]
    case Analyst => [SpikeRange(ExternalEmailsSent, 5, 10), SpikeRange(EmailsWithAttachments, 5, 10),
                     SpikeRange(SensitiveFileReads, 15, 30)]
    case Contractor => [SpikeRange(UsbDeviceMounts, 2, 5), SpikeRange(SensitiveFileReads, 30, 60),
                        SpikeRange(CloudUploadEvents, 1, 3)]
    case ExecAssistant => [SpikeRange(ExternalEmailsSent, 8, 15), SpikeRange(EmailsWithAttachments, 8, 15),
                           SpikeRange(SensitiveFileReads, 10, 20)]
  }

  /** The randint draws of one malicious day, one per spike, each in its inclusive range. */
  predicate SpikeDrawsFit(r: Role, draws: seq<int>) {
    WithinRanges(SpikeTable(r), draws)
  }

  /** One draw per range of the table, each inside its range. */
  predicate WithinRanges(table: seq<SpikeRange>, draws: seq<int>)
    decreases |table|
  {
    && |draws| == |table|
    && (table != [] ==> table[0].lo <= draws[0] <= table[0].hi && WithinRanges(table[1..], draws[1..]))
  }

  lemma {:induction false} WithinRangesAt(table: seq<SpikeRange>, draws: seq<int>, i: nat)
    requires WithinRanges(table, draws) && i < |table|
    ensures table[i].lo <= draws[i] <= table[i].hi
    decreases |table|
  {
    if i > 0 {
      WithinRangesAt(table[1..], draws[1..], i - 1);
    }
  }

  /** The counters after applying the spikes in order. */
  function Spiked(c: Counters, table: seq<SpikeRange>, draws: seq<int>): Counters
    requires |draws| == |table|
    decreases |table|
  {
    if table == [] then c else Spiked(c.Add(table[0].feature, draws[0]), table[1..], draws[1..])
  }

  predicate InTable(f: Feature, table: seq<SpikeRange>) {
    exists i :: 0 <= i < |table| && table[i].feature == f
  }

  predicate DistinctFeatures(table: seq<SpikeRange>) {
    forall i, j :: 0 <= i < j < |table| ==> table[i].feature != table[j].feature
  }

  lemma {:induction false} SpikedOutside(c: Counters, table: seq<SpikeRange>, draws: seq<int>, f: Feature)
    requires |draws| == |table|
    requires !InTable(f, table)
    ensures Spiked(c, table, draws).Get(f) == c.Get(f)
    decreases |table|
  {
    if table != [] {
      SpikedOutside(c.Add(table[0].feature, draws[0]), table[1..], draws[1..], f);
    }
  }

  lemma {:induction false} SpikedAt(c: Counters, table: seq<SpikeRange>, draws: seq<int>, i: int)
    requires |draws| == |table| && 0 <= i < |table|
    requires DistinctFeatures(table)
    ensures Spiked(c, table, draws).Get(table[i].feature) == c.Get(table[i].feature) + draws[i]
    decreases |table|
  {
    var c' := c.Add(table[0].feature, draws[0]);
    if i == 0 {
      SpikedOutside(c', table[1..], draws[1..], table[0].feature);
    } else {
      SpikedAt(c', table[1..], draws[1..], i - 1);
      assert table[1..][i - 1] == table[i];
    }
  }

  /** No role spikes the same feature twice, and every spike adds at least one. */
  lemma SpikeTableWellFormed(r: Role)
    ensures DistinctFeatures(SpikeTable(r))
    ensures forall i :: 0 <= i < |SpikeTable(r)| ==> 1 <= SpikeTable(r)[i].lo <= SpikeTable(r)[i].hi
  {
  }

  /** Every spiked feature is one of the role's opportunity-weighted features. */
  lemma SpikedFeaturesAreWeighted(r: Role, i: int)
    requires 0 <= i < |SpikeTable(r)|
    ensures exists j :: 0 <= j < |OpportunityWeights(r)| && OpportunityWeights(r)[j].0 == SpikeTable(r)[i].feature
  {
    var f := SpikeTable(r)[i].feature;
    var ws := OpportunityWeights(r);
    match r
    case CLevel => assert ws[if i == 3 then 3 else i].0 == f;
    case Trader => assert ws[if i == 0 then 0 else if i == 1 then 1 else 2].0 == f;
    case ITAdmin => assert ws[if i == 0 then 0 else if i == 1 then 1 else if i == 2 then 3 else 2].0 == f;
    case Analyst => assert ws[if i == 0 then 1 else if i == 1 then 0 else 2].0 == f;
    case Contractor => assert ws[if i == 0 then 0 else if i == 1 then 1 else 2].0 == f;
    case ExecAssistant => assert ws[if i == 0 then 1 else if i == 1 then 0 else 2].0 == f;
  }

  /** The set is not the same the other way round: Trader's external_emails_sent
      is weighted but never spiked. */
  lemma TraderEmailsWeightedNotSpiked()
    ensures OpportunityWeights(Trader)[3].0 == ExternalEmailsSent
    ensures !InTable(ExternalEmailsSent, SpikeTable(Trader))
  {
  }

  /** What a malicious day does to the counters: each of the role's spiked
      features grows by its draw, which lies in the feature's range, no other
      feature moves, and non-negative counters stay non-negative. */
  lemma MaliciousSpikeEffect(r: Role, c: Counters, draws: seq<int>)
    requires SpikeDrawsFit(r, draws)
    ensures forall i :: 0 <= i < |draws| ==>
      var s := SpikeTable(r)[i];
      c.Get(s.feature) + s.lo <= Spiked(c, SpikeTable(r), draws).Get(s.feature) <= c.Get(s.feature) + s.hi
    ensures forall f :: !InTable(f, SpikeTable(r)) ==> Spiked(c, SpikeTable(r), draws).Get(f) == c.Get(f)
    ensures c.NonNegative() ==> Spiked(c, SpikeTable(r), draws).NonNegative()
  {
    var t := SpikeTable(r);
    var s := Spiked(c, t, draws);
    SpikeTableWellFormed(r);
    forall i | 0 <= i < |draws|
      ensures s.Get(t[i].feature) == c.Get(t[i].feature) + draws[i]
      ensures t[i].lo <= draws[i] <= t[i].hi
    {
      SpikedAt(c, t, draws, i);
      WithinRangesAt(t, draws, i);
    }
    forall f | !InTable(f, t) ensures s.Get(f) == c.Get(f) {
      SpikedOutside(c, t, draws, f);
    }
    if c.NonNegative() {
      forall f ensures s.Get(f) >= 0 {
        if InTable(f, t) {
          var i :| 0 <= i < |t| && t[i].feature == f;
          SpikedAt(c, t, draws, i);
        } else {
          SpikedOutside(c, t, draws, f);
        }
      }
    }
  }

  /** One user-day row; the malicious-day rule mutates its counters in place. */
  class DayRow {
    const userId: string
    const role: Role
    const region: Region
    const day: string
    var counters: Counters
    const isHrFlagged: int
    const conscientiousness: real
    const neuroticism: real
    /** is_malicious; the pre-injection row has none, so it starts at 0 until the builder sets it. */
    var isMalicious: int

    constructor (userId: string, role: Role, region: Region, day: string, counters: Counters,
                 isHrFlagged: int, conscientiousness: real, neuroticism: real)
      ensures this.userId == userId && this.role == role && this.region == region && this.day == day
      ensures this.counters == counters && this.isHrFlagged == isHrFlagged
      ensures this.conscientiousness == conscientiousness && this.neuroticism == neuroticism
      ensures this.isMalicious == 0
    {
      this.userId := userId;
      this.role := role;
      this.region := region;
      this.day := day;
      this.counters := counters;
      this.isHrFlagged := isHrFlagged;
      this.conscientiousness := conscientiousness;
      this.neuroticism := neuroticism;
      this.isMalicious := 0;
    }

    /** The row as the dataset stores it. */
    function Snapshot(): Record
      reads this
    {
      Record(userId, role, region, day, counters, isHrFlagged, conscientiousness, neuroticism, isMalicious)
    }
  }

  lemma RawScoreStep(p: Profile, ws: seq<(Feature, real)>, i: nat, c: Counters)
    requires i < |ws|
    ensures RawScore(p, ws[..i + 1], c) == RawScore(p, ws[..i], c) + ws[i].1 * Spike(p, ws[i].0, c)
  {
    assert ws[..i + 1][..i] == ws[..i];
  }

  /** The loop of opportunity_score: the weighted spikes of the features
      in the weight table, added up. */
  method WeightedSpikes(p: Profile, c: Counters) returns (score: real)
    ensures score == RawScore(p, p.weights, c)
  {
    var weights := p.weights;
    score := 0.0;
    var i := 0;
    while i < |weights|
      invariant 0 <= i <= |weights|
      invariant score == RawScore(p, weights[..i], c)
    {
      RawScoreStep(p, weights, i, c);
      var (feat, w) := weights[i];
      var x := c.Get(feat);
      var s := p.std(feat);
      if s <= 0.0 {
        i := i + 1;
        continue;
      }
      var z := (x as real - p.mean(feat)) / s;
      var spike := Max(0.0, z - 2.0);
      if spike > 0.0 {
        score := score + w * spike;
      }
      i := i + 1;
    }
    assert weights[..i] == weights;
  }

  /** opportunity_score(pre_row): the weighted spikes of the row's role,
      capped at 5. */
  method OpportunityScore(row: DayRow) returns (score: real)
    ensures score == Opportunity(ProfileOf(row.role), row.counters)
  {
    score := WeightedSpikes(ProfileOf(row.role), row.counters);
    score := Min(score, 5.0);
  }

  /** Whether a day with these inputs is malicious: the uniform draw falls
      strictly below the daily probability computed from the pre-injection counters. */
  predicate IsMaliciousDay(r: Role, pre: Counters, conscientiousness: real, neuroticism: real,
                           isHrFlagged: int, uniform: real)
  {
    uniform < DailyProbability(r, StressFactor(neuroticism, isHrFlagged != 0, conscientiousness),
                               Opportunity(ProfileOf(r), pre))
  }

  /** decide_and_inject_malicious: decides the day from stress, base rate
      and opportunity and, on a malicious day, spikes the row in place.
      `uniform` is random.random(); `spikes` are the randint draws. */
  method DecideAndInjectMalicious(row: DayRow, conscientiousness: real, neuroticism: real,
                                  isHrFlagged: int, uniform: real, spikes: seq<int>)
    returns (malicious: bool)
    requires 0.0 <= uniform < 1.0
    requires SpikeDrawsFit(row.role, spikes)
    modifies row
    ensures malicious == IsMaliciousDay(row.role, old(row.counters), conscientiousness, neuroticism,
                                        isHrFlagged, uniform)
    ensures row.counters == if malicious then Spiked(old(row.counters), SpikeTable(row.role), spikes)
                            else old(row.counters)
    ensures row.isMalicious == old(row.isMalicious)
  {
    var stressFactor := 0;
    if neuroticism > 65.0 {
      stressFactor := stressFactor + 1;
    }
    if isHrFlagged != 0 {
      stressFactor := stressFactor + 1;
    }
    if conscientiousness < 50.0 {
      stressFactor := stressFactor + 1;
    }
    var baseRoleProb := BaseRoleProb(row.role);
    var opp := OpportunityScore(row);
    var oppTerm := 0.00001 * opp;
    var prob := baseRoleProb + 0.000003 * stressFactor as real + oppTerm;
    prob := Max(0.0, Min(prob, 0.0005));
    assert stressFactor == StressFactor(neuroticism, isHrFlagged != 0, conscientiousness);
    assert prob == DailyProbability(row.role, stressFactor, opp);
    malicious := uniform < prob;
    if !malicious {
      return;
    }
    InjectSpikes(row, spikes);
  }

  /** The role-specific spikes of a malicious day, added to the row in place. */
  method InjectSpikes(row: DayRow, spikes: seq<int>)
    requires SpikeDrawsFit(row.role, spikes)
    modifies row
    ensures row.counters == Spiked(old(row.counters), SpikeTable(row.role), spikes)
    ensures row.isMalicious == old(row.isMalicious)
  {
    ghost var pre := row.counters;
    var role := row.role;
    if role == CLevel {
      row.counters := row.counters.Add(SensitiveFileReads, spikes[0]);
      row.counters := row.counters.Add(ExternalEmailsSent, spikes[1]);
      row.counters := row.counters.Add(CloudUploadEvents, spikes[2]);
      row.counters := row.counters.Add(AfterHoursLogons, spikes[3]);
    } else if role == Trader {
      row.counters := row.counters.Add(CloudUploadEvents, spikes[0]);
      row.counters := row.counters.Add(SensitiveFileReads, spikes[1]);
      row.counters := row.counters.Add(AfterHoursLogons, spikes[2]);
    } else if role == ITAdmin {
      row.counters := row.counters.Add(AfterHoursLogons, spikes[0]);
      row.counters := row.counters.Add(SensitiveFileReads, spikes[1]);
      row.counters := row.counters.Add(UsbDeviceMounts, spikes[2]);
      row.counters := row.counters.Add(FilesDeleted, spikes[3]);
    } else if role == Analyst {
      row.counters := row.counters.Add(ExternalEmailsSent, spikes[0]);
      row.counters := row.counters.Add(EmailsWithAttachments, spikes[1]);
      row.counters := row.counters.Add(SensitiveFileReads, spikes[2]);
    } else if role == Contractor {
      row.counters := row.counters.Add(UsbDeviceMounts, spikes[0]);
      row.counters := row.counters.Add(SensitiveFileReads, spikes[1]);
      row.counters := row.counters.Add(CloudUploadEvents, spikes[2]);
    } else if role == ExecAssistant {
      row.counters := row.counters.Add(ExternalEmailsSent, spikes[0]);
      row.counters := row.counters.Add(EmailsWithAttachments, spikes[1]);
      row.counters := row.counters.Add(SensitiveFileReads, spikes[2]);
    }
    SpikedUnfolds(pre, SpikeTable(role), spikes);
  }

  /** Spiked written out as the chain of additions the source performs. */
  lemma SpikedUnfolds(c: Counters, t: seq<SpikeRange>, d: seq<int>)
    requires |d| == |t| && 3 <= |t| <= 4
    ensures |t| == 3 ==> Spiked(c, t, d) == c.Add(t[0].feature, d[0]).Add(t[1].feature, d[1]).Add(t[2].feature, d[2])
    ensures |t| == 4 ==>
      (Spiked(c, t, d) == c.Add(t[0].feature, d[0]).Add(t[1].feature, d[1]).Add(t[2].feature, d[2]).Add(t[3].feature, d[3]))
  {
    var c1 := c.Add(t[0].feature, d[0]);
    var c2 := c1.Add(t[1].feature, d[1]);
    var c3 := c2.Add(t[2].feature, d[2]);
    assert Spiked(c, t, d) == Spiked(c1, t[1..], d[1..]);
    assert Spiked(c1, t[1..], d[1..]) == Spiked(c2, t[2..], d[2..]);
    assert Spiked(c2, t[2..], d[2..]) == Spiked(c3, t[3..], d[3..]);
    if |t| == 4 {
      assert Spiked(c3, t[3..], d[3..]) == Spiked(c3.Add(t[3].feature, d[3]), t[4..], d[4..]);
    }
  }
}
