/**
 * `lib/unified_data.ts`: the one business record the report is built
 * from, assembled either from the local database together with the
 * government sources, or from the placeholder CheckID record. The
 * lookups that feed the two mappings are left out; their results are
 * the mappings' inputs.
 */
module UnifiedData {
  import opened Wrappers
  import opened Seqs
  import CourtsScraper
  import ExecutionOffice
  import TaxAuthority
  import CheckId

  // ------------------------------------------------------------ inputs

  datatype CompanyOwner = CompanyOwner(name: string, role: string, sharePercentage: Option<int>)

  /** A `CompanyProfile` row of the local database. */
  datatype CompanyProfile = CompanyProfile(
    hpNumber: string, nameHebrew: string, nameEnglish: Option<string>, companyType: string, status: string,
    registrationDate: Option<string>, addressStreet: Option<string>, addressCity: Option<string>,
    addressZipcode: Option<string>, phone: Option<string>, website: Option<string>, email: Option<string>,
    businessPurpose: Option<string>, violations: Option<string>, violationsCode: Option<string>,
    limitations: Option<string>, governmentCompany: Option<string>, lastAnnualReport: Option<string>,
    description: Option<string>, lastUpdated: string, dataQualityScore: int, owners: Option<seq<CompanyOwner>>)

  /** A stored legal case, as far as the mapping reads it. */
  datatype LocalCase = LocalCase(caseNumber: string, caseType: string, caseStatus: string, filingDate: Option<string>)

  /** A stored execution proceeding; only its debt is read. */
  datatype LocalProceeding = LocalProceeding(debtAmount: Option<int>)

  /** A record of the Bank of Israel's restricted-accounts list. */
  datatype MugbalimRecord = MugbalimRecord(restrictionDate: string, bank: Option<string>)

  datatype MugbalimCheckResult = MugbalimCheckResult(isRestricted: bool, records: seq<MugbalimRecord>)

  // ------------------------------------------------------------ output

  datatype Address = Address(street: Option<string>, city: Option<string>, zipcode: Option<string>)

  datatype Owner = Owner(name: Option<string>, role: string, sharePercentage: Option<int>)

  datatype RecentCase = RecentCase(caseNumber: string, caseType: string, status: string, filingDate: Option<string>)

  datatype LegalIssues = LegalIssues(
    activeCases: int, totalCases: int, executionProceedings: int, totalDebt: int, recentCases: seq<RecentCase>)

  datatype UnifiedTaxStatus = UnifiedTaxStatus(
    isMaamRegistered: bool, isMaamExempt: bool, maamNumber: Option<string>, hasNikuiBamakor: bool, lastVerified: string)

  datatype BankingStatus = BankingStatus(
    hasRestrictedAccount: bool, restrictionDate: Option<string>, restrictionDetails: seq<string>)

  datatype RiskIndicators = RiskIndicators(
    hasActiveLegalCases: bool, hasExecutionProceedings: bool, isCompanyViolating: bool,
    hasHighDebt: bool, hasRestrictedBankAccount: bool, hasBankruptcyProceedings: bool)

  datatype DataSource = Postgresql | MockData

  datatype DataQuality = High | Medium | Low

  /** `UnifiedBusinessData`. */
  datatype UnifiedBusinessData = UnifiedBusinessData(
    hpNumber: string, nameHebrew: string, nameEnglish: Option<string>, companyType: string, status: string,
    registrationDate: Option<string>, violations: Option<string>, violationsCode: Option<string>,
    limitations: Option<string>, governmentCompany: Option<string>, lastAnnualReport: Option<string>,
    businessDescription: Option<string>, address: Address,
    phone: Option<string>, website: Option<string>, email: Option<string>,
    owners: seq<Owner>, legalIssues: LegalIssues,
    taxStatus: Option<UnifiedTaxStatus>, bankingStatus: Option<BankingStatus>,
    industry: Option<string>, businessPurpose: Option<string>, riskIndicators: RiskIndicators,
    dataSource: DataSource, dataQuality: DataQuality, lastUpdated: string, cacheHit: bool)

  // ------------------------------------------------------- local figures

  predicate IsActiveCase(c: LocalCase)
  {
    c.caseStatus == "פעיל"
  }

  /** `proc.debtAmount || 0`. */
  function DebtOf(p: LocalProceeding): int
  {
    if TruthyInt(p.debtAmount) then p.debtAmount.value else 0
  }

  /** The `filter(...).length` of the active cases. */
  function ActiveCases(legalCases: seq<LocalCase>): (n: nat)
    ensures n == Count(legalCases, IsActiveCase)
  {
    FilterCount(legalCases, IsActiveCase);
    |Filter(legalCases, IsActiveCase)|
  }

  /** The `reduce` over the proceedings; a missing or zero debt adds nothing. */
  function TotalDebt(procs: seq<LocalProceeding>): (total: int)
    ensures total == SumOf(procs, DebtOf)
    ensures (forall k :: 0 <= k < |procs| ==> DebtOf(procs[k]) >= 0) ==> total >= 0
  {
    SumNonNegativeIfAll(procs);
    SumFrom(procs, 0, 0)
  }

  /** The accumulator of `reduce` from position `i`. */
  function SumFrom(procs: seq<LocalProceeding>, i: nat, acc: int): (r: int)
    requires i <= |procs|
    ensures r == acc + SumOf(procs[i..], DebtOf)
    decreases |procs| - i
  {
    if i == |procs| then acc
    else
      assert procs[i..] == [procs[i]] + procs[i + 1..];
      SumFrom(procs, i + 1, acc + DebtOf(procs[i]))
  }

  lemma SumNonNegativeIfAll(procs: seq<LocalProceeding>)
    ensures (forall k :: 0 <= k < |procs| ==> DebtOf(procs[k]) >= 0) ==> SumOf(procs, DebtOf) >= 0
  {
    assert procs[0..] == procs;
    if forall k :: 0 <= k < |procs| ==> DebtOf(procs[k]) >= 0 {
      SumNonNegative(procs, DebtOf);
    }
  }

  /** `external || local`: the external figure unless it is absent or zero. */
  function Prefer(external: Option<int>, local: int): (r: int)
    ensures TruthyInt(external) ==> r == external.value
    ensures !TruthyInt(external) ==> r == local
  {
    if TruthyInt(external) then external.value else local
  }

  function DataQualityOf(score: int): DataQuality
  {
    if score > 70 then High else if score > 40 then Medium else Low
  }

  function Rank(q: DataQuality): nat
  {
    match q
    case Low => 0
    case Medium => 1
    case High => 2
  }

  /** The bands: above 70 is high, above 40 medium, else low; a better score never gives a worse band. */
  lemma DataQualityBands(score: int, better: int)
    ensures DataQualityOf(score) == High <==> score > 70
    ensures DataQualityOf(score) == Low <==> score <= 40
    ensures score <= better ==> Rank(DataQualityOf(score)) <= Rank(DataQualityOf(better))
  {
  }

  function RestrictionDetail(r: MugbalimRecord): string
  {
    OrElse(r.bank, "Unknown Bank") + " - " + r.restrictionDate
  }

  function Banking(m: MugbalimCheckResult): (b: BankingStatus)
    ensures b.hasRestrictedAccount == m.isRestricted
    ensures b.restrictionDate == (if m.records == [] then None else Some(m.records[0].restrictionDate))
    ensures |b.restrictionDetails| == |m.records|
    ensures forall k :: 0 <= k < |m.records| ==> b.restrictionDetails[k] == RestrictionDetail(m.records[k])
  {
    BankingStatus(
      m.isRestricted,
      if m.records == [] then None else Some(m.records[0].restrictionDate),
      seq(|m.records|, k requires 0 <= k < |m.records| => RestrictionDetail(m.records[k])))
  }

  function Recent(c: LocalCase): RecentCase
  {
    RecentCase(c.caseNumber, c.caseType, c.caseStatus, c.filingDate)
  }

  function RecentCases(legalCases: seq<LocalCase>): (r: seq<RecentCase>)
    ensures |r| == (if |legalCases| <= 5 then |legalCases| else 5)
    ensures forall k :: 0 <= k < |r| ==> r[k] == Recent(legalCases[k])
  {
    var top := Take(legalCases, 5);
    seq(|top|, k requires 0 <= k < |top| => Recent(top[k]))
  }

  function TaxSummary(t: TaxAuthority.TaxStatus): UnifiedTaxStatus
  {
    UnifiedTaxStatus(t.isMaamRegistered, t.isMaamExempt, t.maamNumber, t.hasNikuiBamakor, t.lastVerified)
  }

  function LocalOwner(o: CompanyOwner): Owner
  {
    Owner(Some(o.name), o.role, o.sharePercentage)
  }

  // --------------------------------------------------------- mappings

  /** The legal figures: an external source's figure replaces the local one when it is truthy. */
  function CombinedLegal(
    legalCases: seq<LocalCase>, procs: seq<LocalProceeding>,
    courtCases: Option<CourtsScraper.CourtSearchResult>, executionResult: Option<ExecutionOffice.ExecutionSearchResult>)
    : (legal: LegalIssues)
    ensures legal.activeCases == Prefer(if courtCases.Some? then Some(courtCases.value.activeCases) else None,
                                        Count(legalCases, IsActiveCase))
    ensures legal.totalCases == Prefer(if courtCases.Some? then Some(courtCases.value.totalCases) else None, |legalCases|)
    ensures legal.totalDebt == Prefer(if executionResult.Some? then Some(executionResult.value.totalDebt) else None,
                                      SumOf(procs, DebtOf))
    ensures legal.executionProceedings == Prefer(if executionResult.Some? then Some(executionResult.value.totalProceedings) else None,
                                                 |procs|)
    ensures legal.recentCases == RecentCases(legalCases)
  {
    var externalActive := if courtCases.Some? then Some(courtCases.value.activeCases) else None;
    var externalTotal := if courtCases.Some? then Some(courtCases.value.totalCases) else None;
    var externalDebt := if executionResult.Some? then Some(executionResult.value.totalDebt) else None;
    var externalProcs := if executionResult.Some? then Some(executionResult.value.totalProceedings) else None;
    LegalIssues(
      Prefer(externalActive, ActiveCases(legalCases)), Prefer(externalTotal, |legalCases|),
      Prefer(externalProcs, |procs|), Prefer(externalDebt, TotalDebt(procs)), RecentCases(legalCases))
  }

  /** The risk flags drawn from the company, its combined legal figures and the bank and court checks. */
  function CombinedRisks(
    company: CompanyProfile, legal: LegalIssues, mugbalim: Option<MugbalimCheckResult>,
    courtCases: Option<CourtsScraper.CourtSearchResult>)
    : (risk: RiskIndicators)
    ensures risk.hasActiveLegalCases <==> legal.activeCases > 0
    ensures risk.hasExecutionProceedings <==> legal.executionProceedings > 0
    ensures risk.hasHighDebt <==> legal.totalDebt > 100000
    ensures risk.isCompanyViolating <==> company.violations == Some("מפרה") || company.violationsCode == Some("18")
    ensures risk.hasRestrictedBankAccount <==> mugbalim.Some? && mugbalim.value.isRestricted
    ensures risk.hasBankruptcyProceedings <==> courtCases.Some? && courtCases.value.categories.bankruptcyCases > 0
  {
    RiskIndicators(
      legal.activeCases > 0, legal.executionProceedings > 0,
      company.violations == Some("מפרה") || company.violationsCode == Some("18"),
      legal.totalDebt > 100000,
      mugbalim.Some? && mugbalim.value.isRestricted,
      courtCases.Some? && courtCases.value.categories.bankruptcyCases > 0)
  }

  /**
   * `mapPostgreSQLToUnified`: the stored company with its local cases and
   * proceedings, combined with the external sources' figures.
   */
  function MapPostgreSQLToUnified(
    company: CompanyProfile, legalCases: seq<LocalCase>, procs: seq<LocalProceeding>,
    mugbalim: Option<MugbalimCheckResult>, taxStatus: Option<TaxAuthority.TaxStatus>,
    courtCases: Option<CourtsScraper.CourtSearchResult>, executionResult: Option<ExecutionOffice.ExecutionSearchResult>)
    : (r: UnifiedBusinessData)
    ensures r.hpNumber == company.hpNumber && r.nameHebrew == company.nameHebrew
    ensures r.violations == company.violations && r.violationsCode == company.violationsCode
    ensures r.legalIssues == CombinedLegal(legalCases, procs, courtCases, executionResult)
    ensures r.riskIndicators == CombinedRisks(company, r.legalIssues, mugbalim, courtCases)
    ensures r.bankingStatus.Some? <==> mugbalim.Some?
    ensures mugbalim.Some? ==> r.bankingStatus == Some(Banking(mugbalim.value))
    ensures r.taxStatus.Some? <==> taxStatus.Some?
    ensures taxStatus.Some? ==> r.taxStatus == Some(TaxSummary(taxStatus.value))
    ensures r.dataQuality == DataQualityOf(company.dataQualityScore)
    ensures r.dataSource == Postgresql && r.cacheHit && r.lastUpdated == company.lastUpdated
    ensures company.owners.None? ==> r.owners == []
    ensures company.owners.Some? ==> |r.owners| == |company.owners.value|
    ensures company.owners.Some? ==> forall k :: 0 <= k < |r.owners| ==>
      && r.owners[k].name == Some(company.owners.value[k].name)
      && r.owners[k].role == company.owners.value[k].role
      && r.owners[k].sharePercentage == company.owners.value[k].sharePercentage
  {
    var legal := CombinedLegal(legalCases, procs, courtCases, executionResult);
    var owners := company.owners.GetOr([]);
    UnifiedBusinessData(
      company.hpNumber, company.nameHebrew, company.nameEnglish, company.companyType, company.status,
      company.registrationDate, company.violations, company.violationsCode,
      company.limitations, company.governmentCompany, company.lastAnnualReport, company.description,
      Address(company.addressStreet, company.addressCity, company.addressZipcode),
      company.phone, company.website, company.email,
      seq(|owners|, k requires 0 <= k < |owners| => LocalOwner(owners[k])),
      legal,
      if taxStatus.Some? then Some(TaxSummary(taxStatus.value)) else None,
      if mugbalim.Some? then Some(Banking(mugbalim.value)) else None,
      None, company.businessPurpose,
      CombinedRisks(company, legal, mugbalim, courtCases),
      Postgresql, DataQualityOf(company.dataQualityScore), company.lastUpdated, true)
  }

  /**
   * Without external sources the figures are the local ones: the active
   * cases counted, the debts summed, missing debts as zero. An external
   * figure of zero also falls back to the local one.
   */
  lemma LocalFiguresWithoutSources(
    company: CompanyProfile, legalCases: seq<LocalCase>, procs: seq<LocalProceeding>,
    courtCases: Option<CourtsScraper.CourtSearchResult>, executionResult: Option<ExecutionOffice.ExecutionSearchResult>)
    requires courtCases.None? || (courtCases.value.activeCases == 0 && courtCases.value.totalCases == 0)
    requires executionResult.None? || (executionResult.value.totalDebt == 0 && executionResult.value.totalProceedings == 0)
    ensures var legal := MapPostgreSQLToUnified(company, legalCases, procs, None, None, courtCases, executionResult).legalIssues;
      legal.activeCases == Count(legalCases, IsActiveCase) && legal.totalCases == |legalCases|
      && legal.totalDebt == SumOf(procs, DebtOf) && legal.executionProceedings == |procs|
    ensures var r := MapPostgreSQLToUnified(company, legalCases, procs, None, None, courtCases, executionResult);
      (r.riskIndicators.hasActiveLegalCases <==> exists k :: 0 <= k < |legalCases| && IsActiveCase(legalCases[k]))
      && !r.riskIndicators.hasRestrictedBankAccount && r.bankingStatus.None?
  {
    CountExtremes(legalCases, IsActiveCase);
  }

  /** `mapCheckIDToUnified`: the placeholder record, with no legal figures and medium quality. */
  function MapCheckIDToUnified(mock: CheckId.BusinessData, now: string): (r: UnifiedBusinessData)
    ensures r.hpNumber == mock.registrationNumber && r.nameHebrew == mock.name
    ensures r.violations == (if mock.status == "violating" then Some("מפרה") else None)
    ensures r.violationsCode == (if mock.status == "violating" then Some("18") else None)
    ensures r.riskIndicators == RiskIndicators(false, false, mock.status == "violating", false, false, false)
    ensures r.legalIssues == LegalIssues(0, 0, 0, 0, [])
    ensures mock.owners.Some? ==>
      && |r.owners| == |mock.owners.value|
      && forall k :: 0 <= k < |r.owners| ==>
           r.owners[k].name == mock.owners.value[k].name && r.owners[k].role == OrElse(mock.owners.value[k].role, "Unknown")
    ensures mock.owners.None? ==> r.owners == []
    ensures r.taxStatus.None? && r.bankingStatus.None?
    ensures r.dataSource == MockData && r.dataQuality == Medium && !r.cacheHit && r.lastUpdated == now
  {
    var owners := mock.owners.GetOr([]);
    UnifiedBusinessData(
      mock.registrationNumber, mock.name, None, mock.businessType, mock.status, mock.foundedDate,
      if mock.status == "violating" then Some("מפרה") else None,
      if mock.status == "violating" then Some("18") else None,
      None, None, None, None,
      if mock.address.Some? then Address(Some(mock.address.value.street), Some(mock.address.value.city), mock.address.value.zipCode)
      else Address(None, None, None),
      None, None, None,
      seq(|owners|, k requires 0 <= k < |owners| => Owner(owners[k].name, OrElse(owners[k].role, "Unknown"), None)),
      LegalIssues(0, 0, 0, 0, []),
      None, None, mock.industry, None,
      RiskIndicators(false, false, mock.status == "violating", false, false, false),
      MockData, Medium, now, false)
  }

  /** Both mappings agree on what makes a company violating: the code 18 or the word מפרה. */
  lemma ViolationAgrees(mock: CheckId.BusinessData, now: string)
    ensures var r := MapCheckIDToUnified(mock, now);
      r.riskIndicators.isCompanyViolating <==> r.violations == Some("מפרה") || r.violationsCode == Some("18")
  {
  }

  /** The placeholder record of any query is not violating and carries no risk indicator. */
  lemma PlaceholderHasNoRisk(query: string, businessName: Option<string>, draw: nat, now: string)
    requires draw < 900000
    ensures MapCheckIDToUnified(CheckId.GetMockBusinessData(query, businessName, draw), now).riskIndicators
      == RiskIndicators(false, false, false, false, false, false)
  {
  }
}
