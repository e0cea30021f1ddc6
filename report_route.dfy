/**
 * `app/api/report/route.ts`: the public report request. The input guard,
 * the choice of the lookup key, and the risks and strengths handed to the
 * report writer. The business lookup, the report text and `JSON.parse`
 * are inputs.
 */
module ReportRoute {
  import opened Wrappers
  import opened Text
  import opened Seqs
  import CheckId
  import UnifiedData
  import Gemini

  /** The fields of the request body that the route reads. */
  datatype ReportRequest = ReportRequest(businessName: Option<string>, registrationNumber: Option<string>)

  /** `!businessName || businessName.trim().length === 0`. */
  predicate MissingName(req: ReportRequest)
  {
    !Truthy(req.businessName) || |JsTrim(req.businessName.value)| == 0
  }

  /** `registrationNumber || businessName`. */
  function LookupKey(req: ReportRequest): (key: string)
    requires !MissingName(req)
    ensures Truthy(req.registrationNumber) ==> key == req.registrationNumber.value
    ensures !Truthy(req.registrationNumber) ==> key == req.businessName.value
    ensures key != ""
  {
    if Truthy(req.registrationNumber) then req.registrationNumber.value else req.businessName.value
  }

  const ViolatingRisk: string := "⚠️ חברה מפרת חוק - CRITICAL RISK!"

  function When(flag: bool, text: string): seq<string>
  {
    if flag then [text] else []
  }

  /** The risks for the report: one fixed text per raised indicator, in a fixed order. */
  function Risks(ri: UnifiedData.RiskIndicators): (r: seq<string>)
    ensures ri.isCompanyViolating ==> |r| > 0 && r[0] == ViolatingRisk
    ensures ViolatingRisk in r <==> ri.isCompanyViolating
  {
    var r := When(ri.isCompanyViolating, ViolatingRisk)
      + When(ri.hasRestrictedBankAccount, "חשבון בנק מוגבל")
      + When(ri.hasActiveLegalCases, "תיקים משפטיים פעילים")
      + When(ri.hasExecutionProceedings, "הוצאה לפועל")
      + When(ri.hasHighDebt, "חוב גבוה")
      + When(ri.hasBankruptcyProceedings, "הליכי פשיטת רגל");
    assert !ri.isCompanyViolating ==> ViolatingRisk !in r by {
      if !ri.isCompanyViolating {
        OtherRisksDiffer();
      }
    }
    r
  }

  /** The texts of the other indicators differ from the violation text (they differ in their first letter). */
  lemma OtherRisksDiffer()
    ensures ViolatingRisk != "חשבון בנק מוגבל" && ViolatingRisk != "תיקים משפטיים פעילים"
    ensures ViolatingRisk != "הוצאה לפועל" && ViolatingRisk != "חוב גבוה" && ViolatingRisk != "הליכי פשיטת רגל"
  {
    assert ViolatingRisk[0] == '⚠';
    assert "חשבון בנק מוגבל"[0] != '⚠' && "תיקים משפטיים פעילים"[0] != '⚠' && "הוצאה לפועל"[0] != '⚠';
    assert "חוב גבוה"[0] != '⚠' && "הליכי פשיטת רגל"[0] != '⚠';
  }

  /** 1 for a raised indicator, 0 otherwise. */
  function Ind(b: bool): nat
  {
    if b then 1 else 0
  }

  /** There is one risk per raised indicator; with none raised the list is empty. */
  lemma RisksCount(ri: UnifiedData.RiskIndicators)
    ensures |Risks(ri)| == Ind(ri.isCompanyViolating) + Ind(ri.hasRestrictedBankAccount) + Ind(ri.hasActiveLegalCases)
      + Ind(ri.hasExecutionProceedings) + Ind(ri.hasHighDebt) + Ind(ri.hasBankruptcyProceedings)
    ensures Risks(ri) == [] <==>
      && !ri.isCompanyViolating && !ri.hasRestrictedBankAccount && !ri.hasActiveLegalCases
      && !ri.hasExecutionProceedings && !ri.hasHighDebt && !ri.hasBankruptcyProceedings
  {
  }

  /** A violating company is given no strengths; any other gets the two fixed ones. */
  function Strengths(ri: UnifiedData.RiskIndicators): (r: seq<string>)
    ensures ri.isCompanyViolating <==> r == []
    ensures !ri.isCompanyViolating ==> r == ["פעילה ללא תיקים משפטיים", "סטטוס תקין"]
  {
    if ri.isCompanyViolating then [] else ["פעילה ללא תיקים משפטיים", "סטטוס תקין"]
  }

  function CompatibleOwner(o: UnifiedData.Owner): CheckId.Owner
  {
    CheckId.Owner(o.name, None, Some(o.role))
  }

  /** The record in the CheckID shape that the report writer is given. */
  function CheckIdCompatible(u: UnifiedData.UnifiedBusinessData): (b: CheckId.BusinessData)
    ensures b.name == u.nameHebrew && b.registrationNumber == u.hpNumber && b.status == u.status
    ensures b.risks == Some(Risks(u.riskIndicators)) && b.strengths == Some(Strengths(u.riskIndicators))
    ensures b.owners.Some? && |b.owners.value| == |u.owners|
    ensures forall k :: 0 <= k < |u.owners| ==>
      b.owners.value[k].name == u.owners[k].name && b.owners.value[k].role == Some(u.owners[k].role)
    ensures b.address == Some(CheckId.Address(OrElse(u.address.street, ""), OrElse(u.address.city, ""), u.address.zipcode))
  {
    CheckId.BusinessData(
      u.nameHebrew, u.hpNumber, u.companyType, u.status, u.registrationDate, u.industry,
      Some(CheckId.Address(OrElse(u.address.street, ""), OrElse(u.address.city, ""), u.address.zipcode)),
      Some(seq(|u.owners|, k requires 0 <= k < |u.owners| => CompatibleOwner(u.owners[k]))),
      Some(Risks(u.riskIndicators)), Some(Strengths(u.riskIndicators)),
      false, None, None)
  }

  datatype Reply =
    | Failed(status: nat, error: string)
    | Reported(business: CheckId.BusinessData, unified: UnifiedData.UnifiedBusinessData,
               facts: Gemini.KeyFacts, fullReport: string)

  /**
   * `POST`: `body` is the parsed request (absent when it is not JSON),
   * `lookup` is `getBusinessData`, `write` the report writer and `answer`
   * the model's key-facts text.
   */
  function PostReport(
    body: Option<ReportRequest>, lookup: string -> Option<UnifiedData.UnifiedBusinessData>,
    write: CheckId.BusinessData -> string, answer: Option<string>, parse: string -> Option<Gemini.KeyFacts>): (r: Reply)
    ensures body.None? ==> r == Failed(500, "Failed to generate report")
    ensures body.Some? && MissingName(body.value) ==> r == Failed(400, "Business name is required")
    ensures body.Some? && !MissingName(body.value) ==>
      var found := lookup(LookupKey(body.value));
      && (found.None? ==> r == Failed(404, "Business not found in any data source"))
      && (found.Some? ==>
            && r.Reported? && r.unified == found.value
            && r.business == CheckIdCompatible(found.value)
            && r.fullReport == write(r.business)
            && r.facts == Gemini.ExtractKeyFacts(answer, parse))
  {
    if body.None? then Failed(500, "Failed to generate report")
    else if MissingName(body.value) then Failed(400, "Business name is required")
    else
      match lookup(LookupKey(body.value))
      case None => Failed(404, "Business not found in any data source")
      case Some(data) =>
        var business := CheckIdCompatible(data);
        Reported(business, data, Gemini.ExtractKeyFacts(answer, parse), write(business))
  }

  /** A blank name is refused before the business is looked up. */
  lemma BlankNameRefused(name: string, registrationNumber: Option<string>,
                         lookup: string -> Option<UnifiedData.UnifiedBusinessData>,
                         write: CheckId.BusinessData -> string, answer: Option<string>, parse: string -> Option<Gemini.KeyFacts>)
    requires forall k :: 0 <= k < |name| ==> IsJsSpace(name[k])
    ensures PostReport(Some(ReportRequest(Some(name), registrationNumber)), lookup, write, answer, parse)
      == Failed(400, "Business name is required")
  {
    TrimEmpty(name, IsJsSpace);
  }

  /** A violating company's report lists the violation first and no strengths. */
  lemma ViolatingReport(u: UnifiedData.UnifiedBusinessData)
    requires u.riskIndicators.isCompanyViolating
    ensures var b := CheckIdCompatible(u);
      b.risks.value[0] == ViolatingRisk && b.strengths == Some([])
  {
  }
}
