/**
 * `lib/courts_scraper.ts`: the legal cases of a company, narrowed to those
 * naming its registration number, categorised by case type, and turned into
 * a litigation risk score. The portal search itself is an input.
 */
module CourtsScraper {
  import opened Wrappers
  import opened Text
  import opened Seqs

  datatype CaseStatus = Active | Closed | Pending

  /** A case; `amount` is absent when the portal gives none. Dates and links are left out. */
  datatype LegalCase = LegalCase(
    caseNumber: string, caseType: string, status: CaseStatus,
    plaintiff: Option<string>, defendant: Option<string>, amount: Option<int>)

  datatype Categories = Categories(
    civilCases: nat, commercialCases: nat, bankruptcyCases: nat, liquidationCases: nat,
    totalAmountClaimed: Option<int>)

  datatype CourtSearchResult = CourtSearchResult(
    companyName: string, hpNumber: string,
    totalCases: nat, activeCases: nat, closedCases: nat, cases: seq<LegalCase>,
    categories: Categories)

  // ------------------------------------------------------------- filtering

  /** The registration number appears in the plaintiff or in the defendant. */
  predicate Mentions(c: LegalCase, hpNumber: string)
  {
    (c.plaintiff.Some? && Contains(c.plaintiff.value, hpNumber))
    || (c.defendant.Some? && Contains(c.defendant.value, hpNumber))
  }

  /** `filterCasesByHpNumber`. */
  function FilterCasesByHpNumber(cases: seq<LegalCase>, hpNumber: string): (r: seq<LegalCase>)
    ensures forall k :: 0 <= k < |r| ==> Mentions(r[k], hpNumber) && r[k] in cases
    ensures forall k :: 0 <= k < |cases| && Mentions(cases[k], hpNumber) ==> cases[k] in r
  {
    Filter(cases, c => Mentions(c, hpNumber))
  }

  /** The kept cases keep their original order. */
  lemma FilterKeepsOrder(cases: seq<LegalCase>, hpNumber: string)
    ensures Subsequence(FilterCasesByHpNumber(cases, hpNumber), cases)
  {
    FilterSubsequence(cases, c => Mentions(c, hpNumber));
  }

  // -------------------------------------------------------- categorising

  predicate IsCivil(c: LegalCase) { Contains(ToLower(c.caseType), "אזרחי") }
  predicate IsCommercial(c: LegalCase) { Contains(ToLower(c.caseType), "מסחרי") }
  predicate IsBankruptcy(c: LegalCase) { Contains(ToLower(c.caseType), "פשיטת רגל") }
  predicate IsLiquidation(c: LegalCase) { Contains(ToLower(c.caseType), "פירוק") }

  /** The amount a case adds: its amount when that is present and non-zero. */
  function ClaimOf(c: LegalCase): int
  {
    if TruthyInt(c.amount) then c.amount.value else 0
  }

  function B(b: bool): nat
  {
    if b then 1 else 0
  }

  /** The categories of a list of cases: one counter per keyword, and the claimed total when positive. */
  function Categorized(cases: seq<LegalCase>): (r: Categories)
    ensures r.civilCases <= |cases| && r.commercialCases <= |cases|
    ensures r.bankruptcyCases <= |cases| && r.liquidationCases <= |cases|
    ensures r.totalAmountClaimed.Some? ==> r.totalAmountClaimed.value > 0
  {
    var total := SumOf(cases, ClaimOf);
    Categories(Count(cases, IsCivil), Count(cases, IsCommercial), Count(cases, IsBankruptcy),
               Count(cases, IsLiquidation), if total > 0 then Some(total) else None)
  }

  lemma CountSnoc(init: seq<LegalCase>, c: LegalCase, p: LegalCase -> bool)
    ensures Count(init + [c], p) == Count(init, p) + B(p(c))
  {
    CountAppend(init, [c], p);
    assert Count([c], p) == B(p(c));
  }

  lemma ClaimSnoc(init: seq<LegalCase>, c: LegalCase)
    ensures SumOf(init + [c], ClaimOf) == SumOf(init, ClaimOf) + ClaimOf(c)
  {
    SumAppend(init, [c], ClaimOf);
    assert SumOf([c], ClaimOf) == ClaimOf(c);
  }

  /** `categorizeCases`. */
  method CategorizeCases(cases: seq<LegalCase>) returns (r: Categories)
    ensures r == Categorized(cases)
  {
    var civilCases, commercialCases, bankruptcyCases, liquidationCases := 0, 0, 0, 0;
    var totalAmount := 0;
    for i := 0 to |cases|
      invariant civilCases == Count(cases[..i], IsCivil)
      invariant commercialCases == Count(cases[..i], IsCommercial)
      invariant bankruptcyCases == Count(cases[..i], IsBankruptcy)
      invariant liquidationCases == Count(cases[..i], IsLiquidation)
      invariant totalAmount == SumOf(cases[..i], ClaimOf)
    {
      var c := cases[i];
      assert cases[..i + 1] == cases[..i] + [c];
      CountSnoc(cases[..i], c, IsCivil);
      CountSnoc(cases[..i], c, IsCommercial);
      CountSnoc(cases[..i], c, IsBankruptcy);
      CountSnoc(cases[..i], c, IsLiquidation);
      ClaimSnoc(cases[..i], c);
      var typeHebrew := ToLower(c.caseType);
      if Contains(typeHebrew, "אזרחי") { civilCases := civilCases + 1; }
      if Contains(typeHebrew, "מסחרי") { commercialCases := commercialCases + 1; }
      if Contains(typeHebrew, "פשיטת רגל") { bankruptcyCases := bankruptcyCases + 1; }
      if Contains(typeHebrew, "פירוק") { liquidationCases := liquidationCases + 1; }
      if TruthyInt(c.amount) { totalAmount := totalAmount + c.amount.value; }
    }
    assert cases[..|cases|] == cases;
    r := Categories(civilCases, commercialCases, bankruptcyCases, liquidationCases,
                    if totalAmount > 0 then Some(totalAmount) else None);
  }

  /** One case may raise several counters: a liquidation of a commercial company counts as both. */
  lemma SeveralCounters(c: LegalCase)
    requires c.caseType == "פירוק מסחרי"
    ensures Categorized([c]).commercialCases == 1 && Categorized([c]).liquidationCases == 1
  {
    var l := ToLower(c.caseType);
    assert l == c.caseType;
    ContainsPrefix(l, "פירוק");
    assert "מסחרי" <= l[6..];
    ContainsAt(l, "מסחרי", 6);
    assert [c][..0] == [];
  }

  // -------------------------------------------------------------- search

  /**
   * `searchLegalCases`: the portal's cases, narrowed by the registration
   * number when one is given, then counted and categorised.
   */
  function SearchLegalCases(companyName: string, hpNumber: Option<string>, searchResults: seq<LegalCase>)
    : (r: CourtSearchResult)
    ensures r.cases == if Truthy(hpNumber) then FilterCasesByHpNumber(searchResults, hpNumber.value) else searchResults
    ensures r.totalCases == |r.cases|
    ensures r.activeCases + r.closedCases <= r.totalCases
    ensures r.activeCases == Count(r.cases, (c: LegalCase) => c.status == Active)
    ensures r.closedCases == Count(r.cases, (c: LegalCase) => c.status == Closed)
    ensures r.categories == Categorized(r.cases)
    ensures r.hpNumber == OrElse(hpNumber, "")
  {
    var filtered := if Truthy(hpNumber) then FilterCasesByHpNumber(searchResults, hpNumber.value) else searchResults;
    CountDisjoint(filtered, (c: LegalCase) => c.status == Active, (c: LegalCase) => c.status == Closed);
    CourtSearchResult(
      companyName, OrElse(hpNumber, ""), |filtered|,
      Count(filtered, (c: LegalCase) => c.status == Active),
      Count(filtered, (c: LegalCase) => c.status == Closed),
      filtered, Categorized(filtered))
  }

  // ---------------------------------------------------------- bankruptcy

  /** The bankruptcy filter of `checkBankruptcyStatus` (on the type as written, not lower-cased). */
  predicate BankruptcyType(c: LegalCase)
  {
    Contains(c.caseType, "פשיטת רגל") || Contains(c.caseType, "פירוק")
  }

  datatype BankruptcyStatus = BankruptcyStatus(isBankrupt: bool, bankruptcyCases: seq<LegalCase>)

  /** `checkBankruptcyStatus` over the result of the search. */
  function CheckBankruptcyStatus(result: CourtSearchResult): (r: BankruptcyStatus)
    ensures forall k :: 0 <= k < |r.bankruptcyCases| ==> BankruptcyType(r.bankruptcyCases[k])
    ensures forall k :: 0 <= k < |result.cases| && BankruptcyType(result.cases[k]) ==> result.cases[k] in r.bankruptcyCases
    ensures forall c :: multiset(r.bankruptcyCases)[c] == if BankruptcyType(c) then multiset(result.cases)[c] else 0
    ensures Subsequence(r.bankruptcyCases, result.cases)
    ensures r.isBankrupt <==> exists k :: 0 <= k < |result.cases| && BankruptcyType(result.cases[k])
                                                                && result.cases[k].status == Active
  {
    var bankruptcyCases := Filter(result.cases, BankruptcyType);
    FilterSubsequence(result.cases, BankruptcyType);
    forall c
      ensures multiset(bankruptcyCases)[c] == if BankruptcyType(c) then multiset(result.cases)[c] else 0
    {
      FilterMultiset(result.cases, BankruptcyType, c);
    }
    var isBankrupt := exists k :: 0 <= k < |bankruptcyCases| && bankruptcyCases[k].status == Active;
    assert isBankrupt ==> exists k :: 0 <= k < |result.cases| && BankruptcyType(result.cases[k])
                                                            && result.cases[k].status == Active;
    BankruptcyStatus(isBankrupt, bankruptcyCases)
  }

  // ------------------------------------------------------ litigation risk

  function AmountTier(total: Option<int>): int
  {
    if TruthyInt(total) then (if total.value > 1000000 then 20 else if total.value > 100000 then 10 else 0) else 0
  }

  /** The litigation score before the cap. */
  function RawLitigationRisk(r: CourtSearchResult): int
  {
    r.activeCases * 10 + r.categories.bankruptcyCases * 30 + r.categories.liquidationCases * 30
    + AmountTier(r.categories.totalAmountClaimed) + r.categories.commercialCases * 5
  }

  function LitigationRisk(r: CourtSearchResult): int
  {
    if RawLitigationRisk(r) <= 100 then RawLitigationRisk(r) else 100
  }

  /** `calculateLitigationRisk`. */
  method CalculateLitigationRisk(courtResult: CourtSearchResult) returns (risk: int)
    ensures risk == LitigationRisk(courtResult)
    ensures 0 <= risk <= 100
  {
    var score := 0;
    score := score + courtResult.activeCases * 10;
    score := score + courtResult.categories.bankruptcyCases * 30;
    score := score + courtResult.categories.liquidationCases * 30;
    var total := courtResult.categories.totalAmountClaimed;
    if TruthyInt(total) {
      if total.value > 1000000 {
        score := score + 20;
      } else if total.value > 100000 {
        score := score + 10;
      }
    }
    score := score + courtResult.categories.commercialCases * 5;
    risk := if score < 100 then score else 100;
  }

  lemma HebrewIsLower()
    ensures ToLower("פשיטת רגל") == "פשיטת רגל" && ToLower("פירוק") == "פירוק"
  {
  }

  /** The case-sensitive bankruptcy filter agrees with the lower-casing categories. */
  lemma BankruptcyTypeCategorized(c: LegalCase)
    requires BankruptcyType(c)
    ensures IsBankruptcy(c) || IsLiquidation(c)
  {
    HebrewIsLower();
    if Contains(c.caseType, "פשיטת רגל") {
      ContainsLower(c.caseType, "פשיטת רגל");
    } else {
      ContainsLower(c.caseType, "פירוק");
    }
  }

  /** An active case of bankruptcy or liquidation type puts the risk at 40 or more. */
  lemma ActiveInsolvencyCaseRisk(r: CourtSearchResult, k: nat)
    requires k < |r.cases| && r.cases[k].status == Active && (IsBankruptcy(r.cases[k]) || IsLiquidation(r.cases[k]))
    requires r.activeCases == Count(r.cases, (c: LegalCase) => c.status == Active)
    requires r.categories == Categorized(r.cases)
    ensures LitigationRisk(r) >= 40
  {
    CountExtremes(r.cases, (c: LegalCase) => c.status == Active);
    CountExtremes(r.cases, IsBankruptcy);
    CountExtremes(r.cases, IsLiquidation);
  }

  /**
   * A company that the bankruptcy check finds bankrupt has an active case of
   * bankruptcy or liquidation type, so its litigation risk is at least 40.
   */
  lemma BankruptMeansLitigationRisk(companyName: string, hpNumber: Option<string>, searchResults: seq<LegalCase>)
    requires CheckBankruptcyStatus(SearchLegalCases(companyName, hpNumber, searchResults)).isBankrupt
    ensures LitigationRisk(SearchLegalCases(companyName, hpNumber, searchResults)) >= 40
  {
    var r := SearchLegalCases(companyName, hpNumber, searchResults);
    var k :| 0 <= k < |r.cases| && BankruptcyType(r.cases[k]) && r.cases[k].status == Active;
    BankruptcyTypeCategorized(r.cases[k]);
    ActiveInsolvencyCaseRisk(r, k);
  }

  /** More cases of any kind never lower the risk. */
  lemma LitigationRiskMonotone(r: CourtSearchResult, s: CourtSearchResult)
    requires r.activeCases <= s.activeCases && r.categories.commercialCases <= s.categories.commercialCases
    requires r.categories.bankruptcyCases <= s.categories.bankruptcyCases
    requires r.categories.liquidationCases <= s.categories.liquidationCases
    requires r.categories.totalAmountClaimed == s.categories.totalAmountClaimed
    ensures LitigationRisk(r) <= LitigationRisk(s)
  {
  }
}
