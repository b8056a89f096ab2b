/**
 * The UPI fraud detector: an additive risk score from three fixed factors
 * on top of a random base, capped at 100 and banded into low, medium and
 * high risk, each band with its fixed recommendations.
 *
 * `Assess` is the declarative reading of the analysis; `ComputeResult`
 * follows the timer callback's `+=` and `push` steps and is proved to
 * produce `Assess`. `FraudPage` holds the form, the result and the
 * analysing flag.
 */
module FraudDetector {
  import opened Wrappers
  import opened JsString

  datatype RiskLevel = Low | Medium | High

  datatype FraudResult = FraudResult(score: int, riskLevel: RiskLevel, warnings: seq<string>, recommendations: seq<string>)

  /** The level as the page writes it in `riskLevel`. */
  function LevelName(l: RiskLevel): string {
    match l
    case Low => "low"
    case Medium => "medium"
    case High => "high"
  }

  const LargeAmountWarning: string := "Large transaction amount detected"
  const SuspiciousIdWarning: string := "Suspicious UPI ID pattern detected"
  const RoundNumberWarning: string := "Round number transactions can indicate scam patterns"

  /** The recommendations, as the page words them. */
  const AppearsSafe: string := "Transaction appears safe"
  const AlwaysVerify: string := "Always verify recipient before sending money"
  const ExerciseCaution: string := "Exercise caution with this transaction"
  const VerifyIdentity: string := "Verify recipient identity through alternate means"
  const UseProtection: string := "Consider using payment protection services"
  const DoNotProceed: string := "\U{26A0}\U{FE0F} High risk - DO NOT proceed without verification"
  const ContactOfficially: string := "Contact recipient through official channels"
  const ReportToBank: string := "Report suspicious activity to your bank"

  /** Which risk factors a transaction triggers. */
  datatype Factors = Factors(large: bool, suspicious: bool, round: bool)

  /** `numAmount % 100 === 0` for a finite number: a whole multiple of 100. */
  predicate MultipleOf100(x: real) {
    x == x.Floor as real && x.Floor % 100 == 0
  }

  /**
   * The factors of a UPI ID and the amount `parseFloat` read (`None` is
   * `NaN`, for which every comparison is false).
   */
  function FactorsOf(upiId: string, numAmount: Option<real>): (f: Factors)
    ensures f.large <==> numAmount.Some? && numAmount.value > 10000.0
    ensures f.suspicious <==> Contains(upiId, "random") || Contains(upiId, "unknown")
    ensures f.round <==> numAmount.Some? && MultipleOf100(numAmount.value) && numAmount.value > 5000.0
  {
    match numAmount
    case None => Factors(false, Contains(upiId, "random") || Contains(upiId, "unknown"), false)
    case Some(n) =>
      Factors(n > 10000.0, Contains(upiId, "random") || Contains(upiId, "unknown"), MultipleOf100(n) && n > 5000.0)
  }

  function Weight(on: bool, points: int): int {
    if on then points else 0
  }

  /** The score before the cap: the base plus the points of the factors that are on. */
  function RawScore(base: int, f: Factors): int {
    base + Weight(f.large, 20) + Weight(f.suspicious, 30) + Weight(f.round, 10)
  }

  /** The score: the base plus 20, 30 and 10 for the three factors, capped at 100. */
  function RiskScore(base: int, f: Factors): (s: int)
    requires 0 <= base < 100
    ensures base <= s <= 100
    ensures s == 100 <==> RawScore(base, f) >= 100
    ensures s < 100 ==> s == RawScore(base, f)
  {
    var raw := RawScore(base, f);
    if raw < 100 then raw else 100
  }

  /** Low below 40, medium from 40 below 70, high from 70. */
  function Band(score: int): (l: RiskLevel)
    ensures l == Low <==> score < 40
    ensures l == Medium <==> 40 <= score < 70
    ensures l == High <==> score >= 70
  {
    if score < 40 then Low else if score < 70 then Medium else High
  }

  /** Bands ordered by severity. */
  function Severity(l: RiskLevel): nat {
    match l
    case Low => 0
    case Medium => 1
    case High => 2
  }

  /** The messages whose flag is on, in order. */
  function Triggered(flags: seq<(bool, string)>): (ws: seq<string>)
    ensures |ws| <= |flags|
    ensures forall w :: w in ws ==> exists i :: 0 <= i < |flags| && flags[i] == (true, w)
  {
    if flags == [] then []
    else (if flags[0].0 then [flags[0].1] else []) + Triggered(flags[1..])
  }

  /** The factors paired with their warnings, in the order the analysis checks them. */
  function WarningTable(f: Factors): seq<(bool, string)> {
    [(f.large, LargeAmountWarning), (f.suspicious, SuspiciousIdWarning), (f.round, RoundNumberWarning)]
  }

  function Warnings(f: Factors): seq<string> {
    Triggered(WarningTable(f))
  }

  /** The number of factors that are on. */
  function Count(f: Factors): nat {
    Weight(f.large, 1) + Weight(f.suspicious, 1) + Weight(f.round, 1)
  }

  /** One warning per triggered factor, in the order large amount, suspicious ID, round number. */
  lemma WarningsPerFactor(f: Factors)
    ensures |Warnings(f)| == Count(f)
    ensures LargeAmountWarning in Warnings(f) <==> f.large
    ensures SuspiciousIdWarning in Warnings(f) <==> f.suspicious
    ensures RoundNumberWarning in Warnings(f) <==> f.round
    ensures f.large ==> Warnings(f)[0] == LargeAmountWarning
    ensures f.round ==> Warnings(f)[|Warnings(f)| - 1] == RoundNumberWarning
  {
    var t := WarningTable(f);
    assert t[1..][1..][1..] == [];
    assert Triggered(t[1..][1..]) == (if f.round then [RoundNumberWarning] else []);
    assert Triggered(t[1..]) == (if f.suspicious then [SuspiciousIdWarning] else []) + Triggered(t[1..][1..]);
  }

  /** The warnings of `f`, written out factor by factor. */
  lemma WarningsSpelledOut(f: Factors)
    ensures Warnings(f) == (if f.large then [LargeAmountWarning] else []) +
                           (if f.suspicious then [SuspiciousIdWarning] else []) +
                           (if f.round then [RoundNumberWarning] else [])
  {
    var t := WarningTable(f);
    assert t[1..][1..][1..] == [];
    assert Triggered(t[1..][1..]) == (if f.round then [RoundNumberWarning] else []);
    assert Triggered(t[1..]) == (if f.suspicious then [SuspiciousIdWarning] else []) + Triggered(t[1..][1..]);
  }

  function Recommendations(l: RiskLevel): (rs: seq<string>)
    ensures |rs| == if l == Low then 2 else 3
  {
    match l
    case Low => [AppearsSafe, AlwaysVerify]
    case Medium => [ExerciseCaution,
                    VerifyIdentity,
                    UseProtection]
    case High => [DoNotProceed,
                  ContactOfficially,
                  ReportToBank]
  }

  /** The analysis of a transaction with the given random base. */
  function Assess(upiId: string, numAmount: Option<real>, base: int): (r: FraudResult)
    requires 0 <= base < 100
    ensures base <= r.score <= 100
    ensures r.riskLevel == Band(r.score)
    ensures |r.recommendations| == if r.riskLevel == Low then 2 else 3
  {
    var f := FactorsOf(upiId, numAmount);
    var s := RiskScore(base, f);
    FraudResult(s, Band(s), Warnings(f), Recommendations(Band(s)))
  }

  /** Turning on more factors never lowers the score nor the band. */
  lemma MoreFactorsMoreRisk(base: int, f: Factors, g: Factors)
    requires 0 <= base < 100
    requires (f.large ==> g.large) && (f.suspicious ==> g.suspicious) && (f.round ==> g.round)
    ensures RiskScore(base, f) <= RiskScore(base, g)
    ensures Severity(Band(RiskScore(base, f))) <= Severity(Band(RiskScore(base, g)))
  {
  }

  /** A higher score never falls into a lower band. */
  lemma BandMonotone(s: int, t: int)
    requires s <= t
    ensures Severity(Band(s)) <= Severity(Band(t))
  {
  }

  /** A suspicious ID alone lifts any base of 40 or more to high risk. */
  lemma SuspiciousFromForty(upiId: string, numAmount: Option<real>, base: int)
    requires 40 <= base < 100 && Contains(upiId, "unknown")
    ensures Assess(upiId, numAmount, base).riskLevel == High
  {
  }

  /** The first half of the timer callback: add and push for each factor in turn. */
  method AddFactors(upiId: string, numAmount: Option<real>, base: int) returns (score: int, warnings: seq<string>)
    ensures score == RawScore(base, FactorsOf(upiId, numAmount))
    ensures warnings == Warnings(FactorsOf(upiId, numAmount))
  {
    score := base;
    warnings := [];
    if numAmount.Some? && numAmount.value > 10000.0 {
      score := score + 20;
      warnings := warnings + [LargeAmountWarning];
    }
    if Contains(upiId, "random") || Contains(upiId, "unknown") {
      score := score + 30;
      warnings := warnings + [SuspiciousIdWarning];
    }
    if numAmount.Some? && MultipleOf100(numAmount.value) && numAmount.value > 5000.0 {
      score := score + 10;
      warnings := warnings + [RoundNumberWarning];
    }
    WarningsSpelledOut(FactorsOf(upiId, numAmount));
  }

  /** The second half of the timer callback: band the capped score and push its recommendations. */
  method Recommend(score: int) returns (riskLevel: RiskLevel, recommendations: seq<string>)
    ensures riskLevel == Band(score)
    ensures recommendations == Recommendations(riskLevel)
  {
    recommendations := [];
    if score < 40 {
      riskLevel := Low;
      recommendations := recommendations + [AppearsSafe];
      recommendations := recommendations + [AlwaysVerify];
    } else if score < 70 {
      riskLevel := Medium;
      recommendations := recommendations + [ExerciseCaution];
      recommendations := recommendations + [VerifyIdentity];
      recommendations := recommendations + [UseProtection];
    } else {
      riskLevel := High;
      recommendations := recommendations + [DoNotProceed];
      recommendations := recommendations + [ContactOfficially];
      recommendations := recommendations + [ReportToBank];
    }
  }

  /**
   * The timer callback's computation, step by step: start from the base,
   * add and push for each factor, cap at 100, then band and recommend.
   */
  method ComputeResult(upiId: string, numAmount: Option<real>, base: int) returns (r: FraudResult)
    requires 0 <= base < 100
    ensures r == Assess(upiId, numAmount, base)
  {
    var score, warnings := AddFactors(upiId, numAmount, base);
    score := if score < 100 then score else 100;
    var riskLevel, recommendations := Recommend(score);
    r := FraudResult(score, riskLevel, warnings, recommendations);
  }

  /** `getRiskColor`: the text class of a risk level name. */
  function RiskColor(level: string): (c: string)
    ensures level == "low" <==> c == "text-success"
    ensures level == "medium" <==> c == "text-warning"
    ensures level == "high" <==> c == "text-destructive"
    ensures level !in {"low", "medium", "high"} <==> c == "text-muted-foreground"
  {
    if level == "low" then "text-success"
    else if level == "medium" then "text-warning"
    else if level == "high" then "text-destructive"
    else "text-muted-foreground"
  }

  /** `getRiskBgColor`: the background class of a risk level name. */
  function RiskBgColor(level: string): (c: string)
    ensures level == "low" <==> c == "bg-success/10"
    ensures level == "medium" <==> c == "bg-warning/10"
    ensures level == "high" <==> c == "bg-destructive/10"
    ensures level !in {"low", "medium", "high"} <==> c == "bg-muted"
  {
    if level == "low" then "bg-success/10"
    else if level == "medium" then "bg-warning/10"
    else if level == "high" then "bg-destructive/10"
    else "bg-muted"
  }

  /** Text and background of a result always name the same band, never the fallback. */
  lemma ColorsAgree(r: FraudResult)
    ensures RiskColor(LevelName(r.riskLevel)) != "text-muted-foreground"
    ensures RiskBgColor(LevelName(r.riskLevel)) != "bg-muted"
    ensures RiskColor(LevelName(r.riskLevel)) == "text-success" <==> RiskBgColor(LevelName(r.riskLevel)) == "bg-success/10"
    ensures RiskColor(LevelName(r.riskLevel)) == "text-destructive" <==> RiskBgColor(LevelName(r.riskLevel)) == "bg-destructive/10"
  {
  }

  /** The form fields an analysis was started with, as the timer callback sees them. */
  datatype Job = Job(upiId: string, amount: string)

  class FraudPage {
    var upiId: string
    var amount: string
    var result: Option<FraudResult>
    var isAnalyzing: bool
    var errors: seq<string>

    constructor ()
      ensures upiId == "" && amount == "" && result.None? && !isAnalyzing && errors == []
    {
      upiId, amount, result, isAnalyzing, errors := "", "", None, false, [];
    }

    method SetFields(id: string, amt: string)
      modifies this`upiId, this`amount
      ensures upiId == id && amount == amt
    {
      upiId, amount := id, amt;
    }

    /**
     * `analyzeTransaction`: an empty field raises an error toast and nothing
     * else; otherwise the page starts analysing and schedules the callback
     * with the fields as they are now.
     */
    method AnalyzeTransaction() returns (job: Option<Job>)
      modifies this`isAnalyzing, this`errors
      ensures job.None? <==> upiId == "" || amount == ""
      ensures job.None? ==> errors == old(errors) + ["Please fill in all fields"] && isAnalyzing == old(isAnalyzing)
      ensures job.Some? ==> job.value == Job(upiId, amount) && isAnalyzing && errors == old(errors)
    {
      if upiId == "" || amount == "" {
        errors := errors + ["Please fill in all fields"];
        return None;
      }
      isAnalyzing := true;
      job := Some(Job(upiId, amount));
    }

    /**
     * The timer callback: `numAmount` is what `parseFloat(job.amount)` gives
     * and `base` is `Math.floor(Math.random() * 100)`.
     */
    method Complete(job: Job, numAmount: Option<real>, base: int)
      requires 0 <= base < 100
      modifies this`result, this`isAnalyzing
      ensures result == Some(Assess(job.upiId, numAmount, base))
      ensures !isAnalyzing
    {
      var r := ComputeResult(job.upiId, numAmount, base);
      result := Some(r);
      isAnalyzing := false;
    }
  }
}
