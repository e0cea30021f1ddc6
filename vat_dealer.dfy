/**
 * `lib/vat_dealer.ts`: whether a business is a VAT dealer. A fresh cache
 * row is returned as it is; otherwise the status is inferred from the
 * companies registry row (the number's first digit, then the company type)
 * and written back to the cache. The database reads are inputs; a read that
 * fails is indistinguishable from a missing row, as in the source.
 */
module VatDealer {
  import opened Wrappers
  import opened Text
  import opened Seqs
  import OsekMorsheh

  datatype DealerType = CompanyLtd | Licensed | Exempt | UnknownDealer
  datatype TaxStatus = Active | Suspended | Cancelled | UnknownTax
  datatype Bookkeeping = HasApproval | NoApproval | UnknownApproval
  datatype DataSource = Cache | TaxAuthorityApi | WebScrape | Mock

  /** The status without its provenance (`Omit<VATDealerStatus, 'dataSource' | 'cacheHit'>`). */
  datatype Inferred = Inferred(
    hpNumber: string, isVatRegistered: bool, vatNumber: Option<string>, registrationDate: Option<string>,
    dealerType: DealerType, taxStatus: TaxStatus, bookkeeping: Bookkeeping, hasNikuiBamakor: bool)

  datatype VATDealerStatus = VATDealerStatus(info: Inferred, dataSource: DataSource, cacheHit: bool)

  /** A row of the registry: the number is numeric in the database; the other columns may be null. */
  datatype CompanyRow = CompanyRow(
    hpNumber: int, companyType: Option<string>, status: Option<string>, incorporationDate: Option<string>)

  /** A cache row together with the database's staleness verdict. */
  datatype CachedRow = CachedRow(info: Inferred, isStale: bool)

  /** The inference of `inferVATStatusFromCompanyData` from the registry row, when there is one. */
  function InferVATStatus(company: Option<CompanyRow>): (r: Option<Inferred>)
    ensures r.Some? <==> company.Some?
    ensures r.Some? ==> r.value.hpNumber == IntToString(company.value.hpNumber)
    ensures r.Some? && OsekMorsheh.StartsWithFive(company.value.hpNumber) ==>
      r.value.dealerType == CompanyLtd && r.value.isVatRegistered
    ensures r.Some? && !OsekMorsheh.StartsWithFive(company.value.hpNumber) ==>
      (r.value.isVatRegistered <==> Contains(company.value.companyType.GetOr(""), "שותפות"))
      && r.value.dealerType == (if r.value.isVatRegistered then Licensed else Exempt)
    ensures r.Some? ==> (r.value.vatNumber.Some? <==> r.value.isVatRegistered)
    ensures r.Some? && r.value.vatNumber.Some? ==> r.value.vatNumber.value == r.value.hpNumber
    ensures r.Some? ==> (r.value.taxStatus == Active <==> company.value.status == Some("פעילה"))
    ensures r.Some? ==> r.value.taxStatus in {Active, Cancelled}
    ensures r.Some? ==> r.value.bookkeeping == UnknownApproval && !r.value.hasNikuiBamakor
  {
    match company
    case None => None
    case Some(c) =>
      var hpStr := IntToString(c.hpNumber);
      var companyType := OrElse(c.companyType, "");
      var dealerType :=
        if hpStr[0] == '5' then CompanyLtd
        else if Contains(companyType, "שותפות") then Licensed
        else Exempt;
      var isVatRegistered := dealerType != Exempt;
      Some(Inferred(
        hpStr, isVatRegistered, if isVatRegistered then Some(hpStr) else None, c.incorporationDate,
        dealerType, if c.status == Some("פעילה") then Active else Cancelled, UnknownApproval, false))
  }

  /** A company number is a registered limited company whatever its company type says. */
  lemma CompanyTypeIrrelevantForFive(c: CompanyRow, d: CompanyRow)
    requires OsekMorsheh.StartsWithFive(c.hpNumber) && d == c.(companyType := d.companyType)
    ensures InferVATStatus(Some(c)).value.dealerType == InferVATStatus(Some(d)).value.dealerType == CompanyLtd
    ensures InferVATStatus(Some(c)).value.isVatRegistered && InferVATStatus(Some(d)).value.isVatRegistered
  {
  }

  /** The inference never yields an unknown dealer type. */
  lemma InferenceIsDecisive(company: CompanyRow)
    ensures InferVATStatus(Some(company)).value.dealerType != UnknownDealer
  {
  }

  /**
   * `getVATDealerStatus`: unless a refresh is forced, a fresh cache row wins;
   * otherwise the inferred status, or nothing when the registry has no row.
   * `cached` is the cache read (absent when it found nothing or failed).
   */
  function GetVATDealerStatus(forceRefresh: bool, cached: Option<CachedRow>, company: Option<CompanyRow>)
    : (r: Option<VATDealerStatus>)
    ensures !forceRefresh && cached.Some? && !cached.value.isStale ==>
      r == Some(VATDealerStatus(cached.value.info, Cache, true))
    ensures (forceRefresh || cached.None? || cached.value.isStale) ==>
      (r.Some? <==> company.Some?) && (r.Some? ==> r.value == VATDealerStatus(InferVATStatus(company).value, Mock, false))
    ensures r.Some? ==> (r.value.cacheHit <==> r.value.dataSource == Cache)
  {
    if !forceRefresh && cached.Some? && !cached.value.isStale then
      Some(VATDealerStatus(cached.value.info, Cache, true))
    else
      match InferVATStatus(company)
      case Some(inferred) => Some(VATDealerStatus(inferred, Mock, false))
      case None => None
  }

  /** A forced refresh ignores the cache entirely. */
  lemma ForcedRefreshIgnoresCache(cached: Option<CachedRow>, other: Option<CachedRow>, company: Option<CompanyRow>)
    ensures GetVATDealerStatus(true, cached, company) == GetVATDealerStatus(true, other, company)
  {
  }

  datatype EnrichStats = EnrichStats(processed: nat, enriched: nat, failed: nat)

  predicate Found(c: Option<CompanyRow>)
  {
    c.Some?
  }

  /**
   * The loop of `enrichCompaniesWithVATStatus`: one forced lookup per
   * selected number; `companies[i]` is the registry row the i-th lookup reads.
   */
  method EnrichCompaniesWithVATStatus(companies: seq<Option<CompanyRow>>) returns (stats: EnrichStats)
    ensures stats.processed == |companies| == stats.enriched + stats.failed
    ensures stats.enriched == Count(companies, Found)
  {
    stats := EnrichStats(0, 0, 0);
    for i := 0 to |companies|
      invariant stats.processed == i == stats.enriched + stats.failed
      invariant stats.enriched == Count(companies[..i], Found)
    {
      assert companies[..i + 1] == companies[..i] + [companies[i]];
      CountAppend(companies[..i], [companies[i]], Found);
      var status := GetVATDealerStatus(true, None, companies[i]);
      if status.Some? {
        stats := stats.(enriched := stats.enriched + 1);
      } else {
        stats := stats.(failed := stats.failed + 1);
      }
      stats := stats.(processed := stats.processed + 1);
    }
    assert companies[..|companies|] == companies;
  }
}
