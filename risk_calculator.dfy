/**
 * `lib/risk_calculator.ts`: a weighted estimate of how likely a business is
 * to lack its bookkeeping approval, from indicators gathered elsewhere
 * (registry violations, court cases, execution proceedings, bank
 * restrictions, ownership, age, withholding-tax gaps, debt, status).
 *
 * Each indicator that is present adds one data point; each one that fires
 * adds a factor with a fixed or capped number of points. The score is the
 * sum of the points, capped at 95.
 */
module BookkeepingRisk {
  import opened Wrappers
  import opened Text
  import opened Seqs

  /**
   * The indicators; `None` is an absent (undefined) property. `violations`
   * distinguishes an explicit `null` (`Some(None)`) from an absent value.
   * Ages are whole years, as the callers compute them.
   */
  datatype RiskFactors = RiskFactors(
    violations: Option<Option<string>>,
    violationsCode: Option<string>,
    companyStatus: Option<string>,
    activeLegalCases: Option<int>,
    activeExecutionProceedings: Option<int>,
    totalDebt: Option<int>,
    hasRestrictedBankAccount: Option<bool>,
    hasSingleOwner: Option<bool>,
    companyAge: Option<int>,
    hasOwnerDirector: Option<bool>,
    hasWithholdingTaxIssues: Option<int>)

  datatype Severity = Low | Medium | High

  datatype RiskFactor = RiskFactor(name: string, impact: int, severity: Severity, description: string)

  datatype RiskAssessment = RiskAssessment(
    score: int, level: string, confidence: int, factors: seq<RiskFactor>, recommendation: string)

  const ScoreCap: int := 95
  const MaxDataPoints: nat := 10

  function Min(a: int, b: int): int
  {
    if a <= b then a else b
  }

  function Impact(x: RiskFactor): int
  {
    x.impact
  }

  // ---------------------------------------------- the ten indicators

  function ViolationFactor(f: RiskFactors): (r: seq<RiskFactor>)
    ensures |r| <= 1 && AllPositive(r)
  {
    if f.violations.Some? && (f.violations.value == Some("מפרה") || f.violationsCode == Some("18"))
    then [RiskFactor("company_violations", 40, High, "החברה מפרה חוקים (רשם החברות)")]
    else []
  }

  function LegalFactor(f: RiskFactors): (r: seq<RiskFactor>)
    ensures |r| <= 1 && AllPositive(r)
  {
    if f.activeLegalCases.Some? && f.activeLegalCases.value > 0 then
      var n := f.activeLegalCases.value;
      [RiskFactor("legal_cases", Min(n * 8, 25), if n > 2 then High else Medium,
                  IntToString(n) + " תיקים משפטיים פעילים")]
    else []
  }

  function ExecutionFactor(f: RiskFactors): (r: seq<RiskFactor>)
    ensures |r| <= 1 && AllPositive(r)
  {
    if f.activeExecutionProceedings.Some? && f.activeExecutionProceedings.value > 0 then
      var n := f.activeExecutionProceedings.value;
      [RiskFactor("execution_proceedings", Min(n * 10, 30), High, IntToString(n) + " הליכי הוצל\"פ פעילים")]
    else []
  }

  function BankFactor(f: RiskFactors): (r: seq<RiskFactor>)
    ensures |r| <= 1 && AllPositive(r)
  {
    if f.hasRestrictedBankAccount == Some(true)
    then [RiskFactor("bank_restrictions", 35, High, "חשבון בנק מוגבל (בנק ישראל)")]
    else []
  }

  function AgeFactor(f: RiskFactors): (r: seq<RiskFactor>)
    ensures |r| <= 1 && AllPositive(r)
  {
    if f.companyAge.None? then []
    else if f.companyAge.value < 1 then [RiskFactor("very_young_company", 25, Medium, "חברה חדשה (פחות משנה)")]
    else if f.companyAge.value < 3 then
      [RiskFactor("young_company", 15, Medium, "חברה צעירה (" + IntToString(f.companyAge.value) + " שנים)")]
    else []
  }

  function SingleOwnerFactor(f: RiskFactors): (r: seq<RiskFactor>)
    ensures |r| <= 1 && AllPositive(r)
  {
    if f.hasSingleOwner == Some(true) then [RiskFactor("single_owner", 10, Low, "בעלים יחיד")] else []
  }

  function AbsentOwnerFactor(f: RiskFactors): (r: seq<RiskFactor>)
    ensures |r| <= 1 && AllPositive(r)
  {
    if f.hasOwnerDirector == Some(false) then [RiskFactor("absent_owner", 8, Low, "בעלים לא משמש כדירקטור")] else []
  }

  function WithholdingFactor(f: RiskFactors): (r: seq<RiskFactor>)
    ensures |r| <= 1 && AllPositive(r)
  {
    if f.hasWithholdingTaxIssues.Some? && f.hasWithholdingTaxIssues.value >= 4 then
      var n := f.hasWithholdingTaxIssues.value;
      [RiskFactor("withholding_tax_issues", Min(n * 5, 20), Medium, "חוסר אישורי ניכוי מס ב-" + IntToString(n) + " קטגוריות")]
    else []
  }

  function DebtFactor(f: RiskFactors): (r: seq<RiskFactor>)
    ensures |r| <= 1 && AllPositive(r)
  {
    if f.totalDebt.Some? && f.totalDebt.value > 100000
    then [RiskFactor("high_debt", 15, Medium, "חוב גבוה (₪" + IntToString(f.totalDebt.value) + ")")]
    else []
  }

  function StatusFactor(f: RiskFactors): (r: seq<RiskFactor>)
    ensures |r| <= 1 && AllPositive(r)
  {
    if f.companyStatus == Some("liquidation") then [RiskFactor("liquidation", 50, High, "החברה בפירוק")]
    else if f.companyStatus == Some("inactive") then [RiskFactor("inactive", 30, High, "החברה לא פעילה")]
    else []
  }

  /** The factors that fire, in the order the calculator lists them. */
  function Factors(f: RiskFactors): seq<RiskFactor>
  {
    ViolationFactor(f) + LegalFactor(f) + ExecutionFactor(f) + BankFactor(f) + AgeFactor(f)
    + SingleOwnerFactor(f) + AbsentOwnerFactor(f) + WithholdingFactor(f) + DebtFactor(f) + StatusFactor(f)
  }

  /** The points of a factor list of at most one factor. */
  function Points(xs: seq<RiskFactor>): int
  {
    if xs == [] then 0 else xs[0].impact
  }

  /** The uncapped score: the points of each indicator, added up. */
  function RawScore(f: RiskFactors): int
  {
    Points(ViolationFactor(f)) + Points(LegalFactor(f)) + Points(ExecutionFactor(f)) + Points(BankFactor(f))
    + Points(AgeFactor(f)) + Points(SingleOwnerFactor(f)) + Points(AbsentOwnerFactor(f))
    + Points(WithholdingFactor(f)) + Points(DebtFactor(f)) + Points(StatusFactor(f))
  }

  function B(b: bool): nat
  {
    if b then 1 else 0
  }

  /** How many of the ten indicators are present. */
  function DataPoints(f: RiskFactors): (n: nat)
    ensures n <= MaxDataPoints
  {
    B(f.violations.Some?) + B(f.activeLegalCases.Some?) + B(f.activeExecutionProceedings.Some?)
    + B(f.hasRestrictedBankAccount.Some?) + B(f.companyAge.Some?) + B(f.hasSingleOwner.Some?)
    + B(f.hasOwnerDirector.Some?) + B(f.hasWithholdingTaxIssues.Some?) + B(f.totalDebt.Some?)
    + B(f.companyStatus.Some?)
  }

  /** The risk level of a score. */
  function LevelFor(score: int): string
  {
    if score >= 70 then "critical" else if score >= 50 then "high" else if score >= 30 then "medium" else "low"
  }

  // --------------------------------------------------------- calculator

  /** The running state of the calculator: score so far, factors pushed, data points seen. */
  datatype Tally = Tally(score: int, factors: seq<RiskFactor>, dataPoints: nat)

  /** The effect of one indicator block on the running state. */
  predicate Advanced(t: Tally, t': Tally, present: bool, fired: seq<RiskFactor>)
  {
    t'.factors == t.factors + fired && t'.score == t.score + Points(fired)
    && t'.dataPoints == t.dataPoints + B(present)
  }

  /** `calculateBookkeepingRisk`: the ten indicator blocks in order, then the cap and the level. */
  method CalculateBookkeepingRisk(f: RiskFactors) returns (a: RiskAssessment)
    ensures a.factors == Factors(f)
    ensures a.score == Min(RawScore(f), ScoreCap)
    ensures a.confidence == DataPoints(f) * 100 / MaxDataPoints
    ensures a.level == LevelFor(a.score)
    ensures a.recommendation == Recommendation(a.level)
  {
    var t0 := Tally(0, [], 0);
    var t1 := ViolationsBlock(f, t0);
    var t2 := LegalCasesBlock(f, t1);
    var t3 := ExecutionBlock(f, t2);
    var t4 := BankBlock(f, t3);
    var t5 := AgeBlock(f, t4);
    var t6 := SingleOwnerBlock(f, t5);
    var t7 := OwnerDirectorBlock(f, t6);
    var t8 := WithholdingBlock(f, t7);
    var t9 := DebtBlock(f, t8);
    var t10 := StatusBlock(f, t9);
    assert t10.factors == Factors(f) by {
      assert t1.factors == ViolationFactor(f);
      assert t2.factors == ViolationFactor(f) + LegalFactor(f);
      assert t3.factors == ViolationFactor(f) + LegalFactor(f) + ExecutionFactor(f);
      assert t4.factors == ViolationFactor(f) + LegalFactor(f) + ExecutionFactor(f) + BankFactor(f);
      assert t5.factors == ViolationFactor(f) + LegalFactor(f) + ExecutionFactor(f) + BankFactor(f) + AgeFactor(f);
      assert t6.factors == ViolationFactor(f) + LegalFactor(f) + ExecutionFactor(f) + BankFactor(f) + AgeFactor(f)
        + SingleOwnerFactor(f);
      assert t7.factors == ViolationFactor(f) + LegalFactor(f) + ExecutionFactor(f) + BankFactor(f) + AgeFactor(f)
        + SingleOwnerFactor(f) + AbsentOwnerFactor(f);
      assert t8.factors == ViolationFactor(f) + LegalFactor(f) + ExecutionFactor(f) + BankFactor(f) + AgeFactor(f)
        + SingleOwnerFactor(f) + AbsentOwnerFactor(f) + WithholdingFactor(f);
      assert t9.factors == ViolationFactor(f) + LegalFactor(f) + ExecutionFactor(f) + BankFactor(f) + AgeFactor(f)
        + SingleOwnerFactor(f) + AbsentOwnerFactor(f) + WithholdingFactor(f) + DebtFactor(f);
    }
    var score := Min(t10.score, ScoreCap);
    var confidence := t10.dataPoints * 100 / MaxDataPoints;
    var level := LevelFor(score);
    a := RiskAssessment(score, level, confidence, t10.factors, Recommendation(level));
  }

  method ViolationsBlock(f: RiskFactors, t: Tally) returns (t': Tally)
    ensures Advanced(t, t', f.violations.Some?, ViolationFactor(f))
  {
    t' := t;
    if f.violations.Some? {
      t' := t'.(dataPoints := t'.dataPoints + 1);
      if f.violations.value == Some("מפרה") || f.violationsCode == Some("18") {
        t' := t'.(score := t'.score + 40,
                  factors := t'.factors + [RiskFactor("company_violations", 40, High, "החברה מפרה חוקים (רשם החברות)")]);
      }
    }
  }

  method LegalCasesBlock(f: RiskFactors, t: Tally) returns (t': Tally)
    ensures Advanced(t, t', f.activeLegalCases.Some?, LegalFactor(f))
  {
    t' := t;
    if f.activeLegalCases.Some? {
      t' := t'.(dataPoints := t'.dataPoints + 1);
      var n := f.activeLegalCases.value;
      if n > 0 {
        var impact := Min(n * 8, 25);
        t' := t'.(score := t'.score + impact,
                  factors := t'.factors + [RiskFactor("legal_cases", impact, if n > 2 then High else Medium,
                                                      IntToString(n) + " תיקים משפטיים פעילים")]);
      }
    }
  }

  method ExecutionBlock(f: RiskFactors, t: Tally) returns (t': Tally)
    ensures Advanced(t, t', f.activeExecutionProceedings.Some?, ExecutionFactor(f))
  {
    t' := t;
    if f.activeExecutionProceedings.Some? {
      t' := t'.(dataPoints := t'.dataPoints + 1);
      var n := f.activeExecutionProceedings.value;
      if n > 0 {
        var impact := Min(n * 10, 30);
        t' := t'.(score := t'.score + impact,
                  factors := t'.factors + [RiskFactor("execution_proceedings", impact, High,
                                                      IntToString(n) + " הליכי הוצל\"פ פעילים")]);
      }
    }
  }

  method BankBlock(f: RiskFactors, t: Tally) returns (t': Tally)
    ensures Advanced(t, t', f.hasRestrictedBankAccount.Some?, BankFactor(f))
  {
    t' := t;
    if f.hasRestrictedBankAccount.Some? {
      t' := t'.(dataPoints := t'.dataPoints + 1);
      if f.hasRestrictedBankAccount.value {
        t' := t'.(score := t'.score + 35,
                  factors := t'.factors + [RiskFactor("bank_restrictions", 35, High, "חשבון בנק מוגבל (בנק ישראל)")]);
      }
    }
  }

  method AgeBlock(f: RiskFactors, t: Tally) returns (t': Tally)
    ensures Advanced(t, t', f.companyAge.Some?, AgeFactor(f))
  {
    t' := t;
    if f.companyAge.Some? {
      t' := t'.(dataPoints := t'.dataPoints + 1);
      if f.companyAge.value < 1 {
        t' := t'.(score := t'.score + 25,
                  factors := t'.factors + [RiskFactor("very_young_company", 25, Medium, "חברה חדשה (פחות משנה)")]);
      } else if f.companyAge.value < 3 {
        t' := t'.(score := t'.score + 15,
                  factors := t'.factors + [RiskFactor("young_company", 15, Medium,
                                                      "חברה צעירה (" + IntToString(f.companyAge.value) + " שנים)")]);
      }
    }
  }

  method SingleOwnerBlock(f: RiskFactors, t: Tally) returns (t': Tally)
    ensures Advanced(t, t', f.hasSingleOwner.Some?, SingleOwnerFactor(f))
  {
    t' := t;
    if f.hasSingleOwner.Some? {
      t' := t'.(dataPoints := t'.dataPoints + 1);
      if f.hasSingleOwner.value {
        t' := t'.(score := t'.score + 10, factors := t'.factors + [RiskFactor("single_owner", 10, Low, "בעלים יחיד")]);
      }
    }
  }

  method OwnerDirectorBlock(f: RiskFactors, t: Tally) returns (t': Tally)
    ensures Advanced(t, t', f.hasOwnerDirector.Some?, AbsentOwnerFactor(f))
  {
    t' := t;
    if f.hasOwnerDirector.Some? {
      t' := t'.(dataPoints := t'.dataPoints + 1);
      if !f.hasOwnerDirector.value {
        t' := t'.(score := t'.score + 8,
                  factors := t'.factors + [RiskFactor("absent_owner", 8, Low, "בעלים לא משמש כדירקטור")]);
      }
    }
  }

  method WithholdingBlock(f: RiskFactors, t: Tally) returns (t': Tally)
    ensures Advanced(t, t', f.hasWithholdingTaxIssues.Some?, WithholdingFactor(f))
  {
    t' := t;
    if f.hasWithholdingTaxIssues.Some? {
      t' := t'.(dataPoints := t'.dataPoints + 1);
      var n := f.hasWithholdingTaxIssues.value;
      if n >= 4 {
        var impact := Min(n * 5, 20);
        t' := t'.(score := t'.score + impact,
                  factors := t'.factors + [RiskFactor("withholding_tax_issues", impact, Medium,
                                                      "חוסר אישורי ניכוי מס ב-" + IntToString(n) + " קטגוריות")]);
      }
    }
  }

  method DebtBlock(f: RiskFactors, t: Tally) returns (t': Tally)
    ensures Advanced(t, t', f.totalDebt.Some?, DebtFactor(f))
  {
    t' := t;
    if f.totalDebt.Some? {
      t' := t'.(dataPoints := t'.dataPoints + 1);
      if f.totalDebt.value > 100000 {
        t' := t'.(score := t'.score + 15,
                  factors := t'.factors + [RiskFactor("high_debt", 15, Medium, "חוב גבוה (₪" + IntToString(f.totalDebt.value) + ")")]);
      }
    }
  }

  method StatusBlock(f: RiskFactors, t: Tally) returns (t': Tally)
    ensures Advanced(t, t', f.companyStatus.Some?, StatusFactor(f))
  {
    t' := t;
    if f.companyStatus.Some? {
      t' := t'.(dataPoints := t'.dataPoints + 1);
      if f.companyStatus.value == "liquidation" {
        t' := t'.(score := t'.score + 50, factors := t'.factors + [RiskFactor("liquidation", 50, High, "החברה בפירוק")]);
      } else if f.companyStatus.value == "inactive" {
        t' := t'.(score := t'.score + 30, factors := t'.factors + [RiskFactor("inactive", 30, High, "החברה לא פעילה")]);
      }
    }
  }

  // ----------------------------------------------------------- properties

  /** Every factor of a list carries a positive number of points. */
  predicate AllPositive(fs: seq<RiskFactor>)
  {
    forall k :: 0 <= k < |fs| ==> fs[k].impact > 0
  }

  lemma AllPositiveAppend(a: seq<RiskFactor>, b: seq<RiskFactor>)
    requires AllPositive(a) && AllPositive(b)
    ensures AllPositive(a + b)
  {
    assert forall k :: |a| <= k < |a + b| ==> (a + b)[k] == b[k - |a|];
  }

  /** Every factor the calculator lists adds points; none is neutral or negative. */
  lemma FactorImpactsPositive(f: RiskFactors)
    ensures AllPositive(Factors(f))
  {
    var acc := ViolationFactor(f);
    AllPositiveAppend(acc, LegalFactor(f));
    acc := acc + LegalFactor(f);
    AllPositiveAppend(acc, ExecutionFactor(f));
    acc := acc + ExecutionFactor(f);
    AllPositiveAppend(acc, BankFactor(f));
    acc := acc + BankFactor(f);
    AllPositiveAppend(acc, AgeFactor(f));
    acc := acc + AgeFactor(f);
    AllPositiveAppend(acc, SingleOwnerFactor(f));
    acc := acc + SingleOwnerFactor(f);
    AllPositiveAppend(acc, AbsentOwnerFactor(f));
    acc := acc + AbsentOwnerFactor(f);
    AllPositiveAppend(acc, WithholdingFactor(f));
    acc := acc + WithholdingFactor(f);
    AllPositiveAppend(acc, DebtFactor(f));
    acc := acc + DebtFactor(f);
    AllPositiveAppend(acc, StatusFactor(f));
  }

  lemma SumOfAtMostOne(xs: seq<RiskFactor>)
    requires |xs| <= 1
    ensures SumOf(xs, Impact) == Points(xs)
  {
    if xs != [] {
      assert xs[1..] == [];
    }
  }

  lemma SumStep(acc: seq<RiskFactor>, xs: seq<RiskFactor>)
    requires |xs| <= 1
    ensures SumOf(acc + xs, Impact) == SumOf(acc, Impact) + Points(xs)
  {
    SumAppend(acc, xs, Impact);
    SumOfAtMostOne(xs);
  }

  /** The uncapped score is exactly the sum of the impacts of the listed factors. */
  lemma RawScoreIsSum(f: RiskFactors)
    ensures RawScore(f) == SumOf(Factors(f), Impact)
  {
    var acc := ViolationFactor(f);
    SumOfAtMostOne(acc);
    SumStep(acc, LegalFactor(f));
    acc := acc + LegalFactor(f);
    SumStep(acc, ExecutionFactor(f));
    acc := acc + ExecutionFactor(f);
    SumStep(acc, BankFactor(f));
    acc := acc + BankFactor(f);
    SumStep(acc, AgeFactor(f));
    acc := acc + AgeFactor(f);
    SumStep(acc, SingleOwnerFactor(f));
    acc := acc + SingleOwnerFactor(f);
    SumStep(acc, AbsentOwnerFactor(f));
    acc := acc + AbsentOwnerFactor(f);
    SumStep(acc, WithholdingFactor(f));
    acc := acc + WithholdingFactor(f);
    SumStep(acc, DebtFactor(f));
    acc := acc + DebtFactor(f);
    SumStep(acc, StatusFactor(f));
  }

  /** The score lies between 0 and 95, whatever the indicators. */
  lemma ScoreInRange(f: RiskFactors)
    ensures 0 <= Min(RawScore(f), ScoreCap) <= ScoreCap
  {
    FactorImpactsPositive(f);
    SumNonNegative(Factors(f), Impact);
    RawScoreIsSum(f);
  }

  /** The confidence is 10 points per indicator present, so between 0 and 100. */
  lemma ConfidenceInRange(f: RiskFactors)
    ensures DataPoints(f) * 100 / MaxDataPoints == 10 * DataPoints(f)
    ensures 0 <= 10 * DataPoints(f) <= 100
  {
  }

  /** A single factor's impact bounds the whole sum from below. */
  lemma {:induction false} SumAtLeastMember(fs: seq<RiskFactor>, k: nat)
    requires k < |fs| && AllPositive(fs)
    ensures SumOf(fs, Impact) >= fs[k].impact
  {
    if k == 0 {
      SumNonNegative(fs[1..], Impact);
    } else {
      SumAtLeastMember(fs[1..], k - 1);
    }
  }

  /** Any factor that fires puts the score at least at its own impact (or at the cap). */
  lemma FiredFactorBoundsScore(f: RiskFactors, k: nat)
    requires k < |Factors(f)|
    ensures Min(RawScore(f), ScoreCap) >= Min(Factors(f)[k].impact, ScoreCap)
  {
    FactorImpactsPositive(f);
    SumAtLeastMember(Factors(f), k);
    RawScoreIsSum(f);
  }

  /** A company in liquidation is scored at least 50, so at least 'high'. */
  lemma LiquidationIsHighRisk(f: RiskFactors)
    requires f.companyStatus == Some("liquidation")
    ensures Min(RawScore(f), ScoreCap) >= 50
    ensures LevelFor(Min(RawScore(f), ScoreCap)) in {"high", "critical"}
  {
  }

  /** A violating company whose bank account is restricted is critical (40 + 35 points). */
  lemma ViolatingAndRestrictedIsCritical(f: RiskFactors)
    requires f.violations == Some(Some("מפרה")) && f.hasRestrictedBankAccount == Some(true)
    ensures LevelFor(Min(RawScore(f), ScoreCap)) == "critical"
  {
  }

  /** With no indicator present there is no factor, the score is 0 and the level 'low'. */
  lemma NoDataNoRisk(f: RiskFactors)
    requires DataPoints(f) == 0
    ensures Factors(f) == [] && RawScore(f) == 0 && LevelFor(Min(RawScore(f), ScoreCap)) == "low"
  {
  }

  /**
   * The violation code counts only next to a present `violations` field:
   * code 18 without it adds nothing, and with it (whatever its value) adds 40.
   */
  lemma ViolationCodeRule(f: RiskFactors)
    ensures f.violations.None? ==> Points(ViolationFactor(f)) == 0
    ensures f.violations.Some? && f.violationsCode == Some("18") ==> Points(ViolationFactor(f)) == 40
  {
  }

  /** The counted indicators are capped, and withholding gaps count from four categories on. */
  lemma IndicatorCaps(f: RiskFactors)
    ensures 0 <= Points(LegalFactor(f)) <= 25 && 0 <= Points(ExecutionFactor(f)) <= 30
    ensures 0 <= Points(WithholdingFactor(f)) <= 20
    ensures f.hasWithholdingTaxIssues.Some? && f.hasWithholdingTaxIssues.value < 4 ==> Points(WithholdingFactor(f)) == 0
    ensures f.activeLegalCases.Some? && f.activeLegalCases.value >= 4 ==> Points(LegalFactor(f)) == 25
    ensures f.activeExecutionProceedings.Some? && f.activeExecutionProceedings.value >= 3 ==> Points(ExecutionFactor(f)) == 30
  {
  }

  /** A company younger than a year adds 25, one younger than three years 15, an older one nothing. */
  lemma AgeBands(f: RiskFactors, age: int)
    requires f.companyAge == Some(age)
    ensures age < 1 ==> Points(AgeFactor(f)) == 25
    ensures 1 <= age < 3 ==> Points(AgeFactor(f)) == 15
    ensures age >= 3 ==> Points(AgeFactor(f)) == 0
  {
  }

  /** The indicators with fixed points: a restricted account, one owner, an absent owner, high debt, the status. */
  lemma FlagPoints(f: RiskFactors)
    ensures Points(BankFactor(f)) == (if f.hasRestrictedBankAccount == Some(true) then 35 else 0)
    ensures Points(SingleOwnerFactor(f)) == (if f.hasSingleOwner == Some(true) then 10 else 0)
    ensures Points(AbsentOwnerFactor(f)) == (if f.hasOwnerDirector == Some(false) then 8 else 0)
    ensures Points(DebtFactor(f)) == (if f.totalDebt.Some? && f.totalDebt.value > 100000 then 15 else 0)
    ensures Points(StatusFactor(f)) ==
      (if f.companyStatus == Some("liquidation") then 50 else if f.companyStatus == Some("inactive") then 30 else 0)
  {
  }

  // ----------------------------------------------------- level rendering

  /** `generateRecommendation`. */
  function Recommendation(level: string): string
  {
    match level
    case "critical" => "סיכון גבוה מאוד! בדוק אישור ניהול ספרים מהעסק לפני תשלום."
    case "high" => "סיכון גבוה. מומלץ לבקש אישור ניהול ספרים מהעסק."
    case "medium" => "סיכון בינוני. רצוי לבדוק אישור ניהול ספרים אם מדובר בסכום גבוה."
    case "low" => "סיכון נמוך. סבירות גבוהה לאישור ניהול ספרים תקין."
    case _ => UnknownRecommendation
  }

  const UnknownRecommendation := "לא ניתן להעריך סיכון - נתונים לא מספקים."

  /** `getRiskLevelHebrew`. */
  function RiskLevelHebrew(level: string): string
  {
    match level
    case "critical" => "קריטי"
    case "high" => "גבוה"
    case "medium" => "בינוני"
    case "low" => "נמוך"
    case _ => "לא ידוע"
  }

  /** `getRiskColor`. */
  function RiskColor(level: string): string
  {
    match level
    case "critical" => "#DC2626"
    case "high" => "#EA580C"
    case "medium" => "#F59E0B"
    case "low" => "#16A34A"
    case _ => "#6B7280"
  }

  /**
   * Every computed level is one of the four known ones, so the assessment
   * never carries the fallback recommendation, label or colour; unknown
   * level names get the fallbacks.
   */
  lemma LevelsAreKnown(score: int, other: string)
    requires other !in {"critical", "high", "medium", "low"}
    ensures LevelFor(score) in {"critical", "high", "medium", "low"}
    ensures Recommendation(LevelFor(score)) != UnknownRecommendation
    ensures RiskLevelHebrew(LevelFor(score)) != "לא ידוע"
    ensures RiskColor(LevelFor(score)) != "#6B7280"
    ensures Recommendation(other) == UnknownRecommendation
    ensures RiskLevelHebrew(other) == "לא ידוע" && RiskColor(other) == "#6B7280"
  {
  }

  /** The four levels get four different labels and colours. */
  lemma RenderingsDistinct(a: string, b: string)
    requires a in {"critical", "high", "medium", "low"} && b in {"critical", "high", "medium", "low"} && a != b
    ensures RiskLevelHebrew(a) != RiskLevelHebrew(b)
    ensures RiskColor(a) != RiskColor(b)
  {
    LabelInitials();
    ColourMarks();
  }

  /** The four labels start with four different letters. */
  lemma LabelInitials()
    ensures RiskLevelHebrew("critical")[0] == 'ק' && RiskLevelHebrew("high")[0] == 'ג'
    ensures RiskLevelHebrew("medium")[0] == 'ב' && RiskLevelHebrew("low")[0] == 'נ'
  {
  }

  /** The four colours differ in their second character. */
  lemma ColourMarks()
    ensures RiskColor("critical")[1] == 'D' && RiskColor("high")[1] == 'E'
    ensures RiskColor("medium")[1] == 'F' && RiskColor("low")[1] == '1'
  {
  }

  function LevelRank(level: string): nat
  {
    match level
    case "critical" => 3
    case "high" => 2
    case "medium" => 1
    case _ => 0
  }

  /** A higher score never gives a lower level. */
  lemma LevelMonotone(s: int, t: int)
    requires s <= t
    ensures LevelRank(LevelFor(s)) <= LevelRank(LevelFor(t))
  {
  }
}
