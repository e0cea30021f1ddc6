/**
 * `lib/execution_office.ts`: debt-enforcement proceedings of a debtor, the
 * statistics drawn from them, and the severity score and critical-issue
 * test built on those statistics. The two lookups (the open-data portal and
 * the execution office's own portal) are inputs.
 */
module ExecutionOffice {
  import opened Wrappers
  import opened Text
  import opened Seqs

  datatype ProcStatus = Active | Closed | Suspended

  /**
   * One proceeding; `paymentPlan` is the optional plan record, reduced to
   * its `hasActivePlan` flag. Dates are left out (see the README).
   */
  datatype Proceeding = Proceeding(
    proceedingNumber: string, debtorId: string, creditorName: string,
    amount: int, status: ProcStatus, paymentPlan: Option<bool>)

  datatype ExecutionSearchResult = ExecutionSearchResult(
    debtorName: string, hpNumber: string,
    totalProceedings: nat, activeProceedings: nat, totalDebt: int,
    proceedings: seq<Proceeding>,
    hasActiveDebt: bool, hasPaymentPlan: bool, averageDebtAge: int)

  // ---------------------------------------------------------------- status

  predicate SaysActive(lower: string)
  {
    Contains(lower, "פעיל") || Contains(lower, "active")
  }

  predicate SaysClosed(lower: string)
  {
    Contains(lower, "סגור") || Contains(lower, "closed")
  }

  predicate SaysSuspended(lower: string)
  {
    Contains(lower, "מושהה") || Contains(lower, "suspended")
  }

  /** `mapStatus`: the first keyword group found in the lower-cased text; active by default. */
  function MapStatus(status: string): (r: ProcStatus)
    ensures var l := ToLower(status);
      && (r == Closed <==> !SaysActive(l) && SaysClosed(l))
      && (r == Suspended <==> !SaysActive(l) && !SaysClosed(l) && SaysSuspended(l))
      && (r == Active <==> SaysActive(l) || (!SaysClosed(l) && !SaysSuspended(l)))
  {
    var l := ToLower(status);
    if SaysActive(l) then Active
    else if SaysClosed(l) then Closed
    else if SaysSuspended(l) then Suspended
    else Active
  }

  /** The English keywords are recognised in any letter case. */
  lemma ClosedKeyword()
    ensures MapStatus("CLOSED") == Closed
  {
    var l := ToLower("CLOSED");
    assert l == "closed";
    ContainsPrefix(l, "closed");
    MissingCharNotContained(l, "פעיל", 0);
    MissingCharNotContained(l, "active", 0);
  }

  /** A text with none of the keywords, the empty one included, counts as active. */
  lemma NoKeywordIsActive(status: string)
    requires !SaysClosed(ToLower(status)) && !SaysSuspended(ToLower(status))
    ensures MapStatus(status) == Active
  {
  }

  /**
   * The active keywords are tested first and by substring, so a text such
   * as "inactive" or "closed, was active" counts as active.
   */
  lemma ActiveKeywordWins(status: string)
    requires Contains(ToLower(status), "active")
    ensures MapStatus(status) == Active
  {
  }

  // ----------------------------------------------------------- statistics

  predicate IsActive(p: Proceeding)
  {
    p.status == Active
  }

  function Amount(p: Proceeding): int
  {
    p.amount
  }

  /** The debt of the active proceedings. */
  function ActiveDebt(ps: seq<Proceeding>): int
  {
    if ps == [] then 0 else ActiveDebt(ps[..|ps| - 1]) + (if IsActive(ps[|ps| - 1]) then ps[|ps| - 1].amount else 0)
  }

  /** The active debt is the sum of the amounts of the active proceedings, in any split of the list. */
  lemma {:induction false} ActiveDebtAppend(a: seq<Proceeding>, b: seq<Proceeding>)
    ensures ActiveDebt(a + b) == ActiveDebt(a) + ActiveDebt(b)
    decreases |b|
  {
    if b == [] {
      assert a + b == a;
    } else {
      var b' := b[..|b| - 1];
      assert (a + b)[..|a + b| - 1] == a + b';
      assert (a + b)[|a + b| - 1] == b[|b| - 1];
      ActiveDebtAppend(a, b');
    }
  }

  /** Without an active proceeding there is no debt, whatever the closed proceedings owe. */
  lemma {:induction false} NoActiveNoDebt(ps: seq<Proceeding>)
    requires forall k :: 0 <= k < |ps| ==> !IsActive(ps[k])
    ensures ActiveDebt(ps) == 0
  {
    if ps != [] {
      NoActiveNoDebt(ps[..|ps| - 1]);
    }
  }

  /** `calculateExecutionStats`, without the average age (a date computation). */
  method CalculateExecutionStats(proceedings: seq<Proceeding>)
    returns (totalDebt: int, hasActiveDebt: bool, hasPaymentPlan: bool)
    ensures totalDebt == ActiveDebt(proceedings)
    ensures hasActiveDebt <==> exists k :: 0 <= k < |proceedings| && IsActive(proceedings[k])
    ensures hasPaymentPlan <==> exists k :: 0 <= k < |proceedings| && proceedings[k].paymentPlan == Some(true)
  {
    totalDebt, hasActiveDebt, hasPaymentPlan := 0, false, false;
    for i := 0 to |proceedings|
      invariant totalDebt == ActiveDebt(proceedings[..i])
      invariant hasActiveDebt <==> exists k :: 0 <= k < i && IsActive(proceedings[k])
      invariant hasPaymentPlan <==> exists k :: 0 <= k < i && proceedings[k].paymentPlan == Some(true)
    {
      var proc := proceedings[i];
      assert proceedings[..i + 1][..i] == proceedings[..i];
      if proc.status == Active {
        totalDebt := totalDebt + proc.amount;
        hasActiveDebt := true;
      }
      if proc.paymentPlan == Some(true) {
        hasPaymentPlan := true;
      }
    }
    assert proceedings[..|proceedings|] == proceedings;
  }

  /**
   * `searchExecutionProceedings`: the open-data records, or the portal's
   * when there are none and a company name is given; then the counts and
   * statistics. `averageDebtAge` is passed in.
   */
  method SearchExecutionProceedings(
    hpNumber: string, companyName: Option<string>,
    dataGov: seq<Proceeding>, portal: seq<Proceeding>, averageDebtAge: int)
    returns (r: ExecutionSearchResult)
    ensures r.proceedings == if dataGov == [] && Truthy(companyName) then portal else dataGov
    ensures r.totalProceedings == |r.proceedings|
    ensures r.activeProceedings == Count(r.proceedings, IsActive) <= r.totalProceedings
    ensures r.totalDebt == ActiveDebt(r.proceedings)
    ensures r.hasActiveDebt <==> r.activeProceedings > 0
    ensures r.hasPaymentPlan <==> exists k :: 0 <= k < |r.proceedings| && r.proceedings[k].paymentPlan == Some(true)
    ensures r.averageDebtAge == averageDebtAge
    ensures r.debtorName == OrElse(companyName, "") && r.hpNumber == hpNumber
  {
    var proceedings := dataGov;
    if |proceedings| == 0 && Truthy(companyName) {
      proceedings := portal;
    }
    var totalDebt, hasActiveDebt, hasPaymentPlan := CalculateExecutionStats(proceedings);
    CountExtremes(proceedings, IsActive);
    r := ExecutionSearchResult(
      OrElse(companyName, ""), hpNumber, |proceedings|, Count(proceedings, IsActive), totalDebt,
      proceedings, hasActiveDebt, hasPaymentPlan, averageDebtAge);
  }

  // ------------------------------------------------------------- severity

  function DebtTier(totalDebt: int): int
  {
    if totalDebt > 500000 then 30 else if totalDebt > 100000 then 20 else if totalDebt > 50000 then 10 else 0
  }

  function AgeTier(averageDebtAge: int): int
  {
    if averageDebtAge > 365 then 20 else if averageDebtAge > 180 then 10 else 0
  }

  /** The severity before clamping: 10 per active proceeding, the two tiers, less 10 for a plan. */
  function RawSeverity(r: ExecutionSearchResult): int
  {
    r.activeProceedings * 10 + DebtTier(r.totalDebt) + AgeTier(r.averageDebtAge) - (if r.hasPaymentPlan then 10 else 0)
  }

  function Clamp(x: int, lo: int, hi: int): (c: int)
    requires lo <= hi
    ensures lo <= c <= hi
    ensures lo <= x <= hi ==> c == x
  {
    if x < lo then lo else if x > hi then hi else x
  }

  /** `calculateDebtSeverity`. */
  method CalculateDebtSeverity(r: ExecutionSearchResult) returns (severity: int)
    ensures severity == Clamp(RawSeverity(r), 0, 100)
    ensures 0 <= severity <= 100
  {
    var score := 0;
    score := score + r.activeProceedings * 10;
    if r.totalDebt > 500000 {
      score := score + 30;
    } else if r.totalDebt > 100000 {
      score := score + 20;
    } else if r.totalDebt > 50000 {
      score := score + 10;
    }
    if r.averageDebtAge > 365 {
      score := score + 20;
    } else if r.averageDebtAge > 180 {
      score := score + 10;
    }
    if r.hasPaymentPlan {
      score := score - 10;
    }
    severity := if score > 100 then 100 else if score < 0 then 0 else score;
  }

  function Severity(r: ExecutionSearchResult): int
  {
    Clamp(RawSeverity(r), 0, 100)
  }

  /** More debt, older debt or more active proceedings never lower the severity; a plan never raises it. */
  lemma SeverityMonotone(r: ExecutionSearchResult, s: ExecutionSearchResult)
    requires r.activeProceedings <= s.activeProceedings
    requires r.totalDebt <= s.totalDebt && r.averageDebtAge <= s.averageDebtAge
    requires s.hasPaymentPlan ==> r.hasPaymentPlan
    ensures Severity(r) <= Severity(s)
  {
  }

  /** `hasCriticalDebtIssues`. */
  predicate HasCriticalDebtIssues(r: ExecutionSearchResult)
  {
    r.activeProceedings > 3 || r.totalDebt > 200000 || r.averageDebtAge > 365
  }

  /** A critical record always has a severity of at least 10, even with a payment plan. */
  lemma CriticalIsSevere(r: ExecutionSearchResult)
    requires HasCriticalDebtIssues(r)
    ensures Severity(r) >= 10
  {
  }

  /** With no active proceeding, no plan, debt up to 50000 and age up to 180 days the severity is 0. */
  lemma QuietRecordHasNoSeverity(r: ExecutionSearchResult)
    requires r.activeProceedings == 0 && !r.hasPaymentPlan && r.totalDebt <= 50000 && r.averageDebtAge <= 180
    ensures Severity(r) == 0 && !HasCriticalDebtIssues(r)
  {
  }
}
