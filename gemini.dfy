/**
 * `lib/gemini.ts`: the report writer's client of the language model. The
 * retry policy for its calls, the fallback to the placeholder report, the
 * reading of the model's key facts, and the count of withholding-tax
 * categories without approval that the prompt mentions. The model's
 * answers and `JSON.parse` are inputs; the prompt and report wording are
 * left out.
 */
module Gemini {
  import opened Wrappers
  import opened Text
  import opened Seqs
  import Retry
  import TaxCertificates

  // ------------------------------------------------------------ retries

  /** What a failed call threw: an `Error` with its message, or some other value. */
  datatype GeminiError = Error(message: string) | NotAnError

  /** A quota or rate-limit error stops the retries. */
  predicate QuotaExceeded(e: GeminiError)
  {
    e.Error? && (Contains(ToLower(e.message), "quota") || Contains(ToLower(e.message), "rate limit"))
  }

  /** An error that mentions the quota, in any ASCII case, is thrown after the first call. */
  lemma QuotaErrorStopsAtOnce<T>(call: nat -> Retry.Attempt<T, GeminiError>, retries: int, message: string)
    requires retries >= 1 && Contains(message, "quota")
    requires call(0) == Retry.Threw(Error(message))
    ensures Retry.RunOf(call, retries, QuotaExceeded) == Retry.Run(Retry.Raised(Error(message)), 0)
  {
    ContainsLowered(message, "quota");
    assert ToLower("quota") == "quota";
    Retry.FatalErrorThrown(call, retries, QuotaExceeded, 0, 0);
  }

  /** A value thrown that is not an `Error` is always retried. */
  lemma NonErrorRetried<T>(call: nat -> Retry.Attempt<T, GeminiError>, retries: int)
    requires retries >= 2 && call(0) == Retry.Threw(NotAnError) && call(1).Succeeded?
    ensures Retry.RunOf(call, retries, QuotaExceeded) == Retry.Run(Retry.Returned(call(1).value), 1)
  {
    Retry.FirstSuccessReturned(call, retries, QuotaExceeded, 0, 1);
  }

  function NoJitter(i: nat): nat
  {
    0
  }

  /**
   * `generateBusinessReport`: `call(i)` is the text of the i-th attempt;
   * the placeholder report `mockReport` is returned whenever the retried
   * call fails. `waits` are the pauses, 2000·2^i ms after failed attempt i.
   */
  method GenerateBusinessReport(call: nat -> Retry.Attempt<string, GeminiError>, mockReport: string)
    returns (report: string, waits: seq<nat>)
    ensures var run := Retry.RunOf(call, 3, QuotaExceeded);
      && (run.outcome.Returned? ==> report == run.outcome.value)
      && (!run.outcome.Returned? ==> report == mockReport)
      && |waits| == run.retried <= 2
    ensures forall i :: 0 <= i < |waits| ==> waits[i] == 2000 * Retry.Pow2(i)
  {
    var outcome;
    outcome, waits := Retry.RetryWithBackoff(call, 3, 2000, NoJitter, QuotaExceeded);
    if outcome.Returned? {
      report := outcome.value;
    } else {
      report := mockReport;
    }
  }

  /** Three failures in a row give the placeholder report after two waits of 2 and 4 seconds. */
  lemma ThreeFailuresGiveMock(call: nat -> Retry.Attempt<string, GeminiError>)
    requires forall i :: 0 <= i < 3 ==> call(i) == Retry.Threw(NotAnError)
    ensures Retry.RunOf(call, 3, QuotaExceeded) == Retry.Run(Retry.Raised(NotAnError), 2)
  {
    Retry.LastErrorThrown(call, 3, QuotaExceeded, 0);
  }

  // ---------------------------------------------------------- key facts

  datatype Recommendation = Approved | Caution | Rejected

  datatype KeyFacts = KeyFacts(trustScore: int, risks: seq<string>, strengths: seq<string>, recommendation: Recommendation)

  const FallbackFacts: KeyFacts := KeyFacts(3, ["מידע לא מספיק"], ["מידע לא מספיק"], Caution)

  /** Position of the last `c` in `s`, or -1. */
  function LastIndexOf(s: string, c: char): (i: int)
    ensures -1 <= i < |s|
    ensures i >= 0 ==> s[i] == c
    ensures forall k :: i < k < |s| ==> s[k] != c
  {
    if s == [] then -1
    else if s[|s| - 1] == c then |s| - 1
    else LastIndexOf(s[..|s| - 1], c)
  }

  /** Position of the first `c` in `s`, or `|s|`. */
  function FirstIndexOf(s: string, c: char): (i: nat)
    ensures i <= |s|
    ensures i < |s| ==> s[i] == c
    ensures forall k :: 0 <= k < i ==> s[k] != c
  {
    if s == [] then 0
    else if s[0] == c then 0
    else 1 + FirstIndexOf(s[1..], c)
  }

  /**
   * The match of `/\{[\s\S]*\}/`: from the first `{` to the last `}` after
   * it; nothing when no `}` follows the first `{`.
   */
  function JsonSpan(s: string): (r: Option<string>)
    ensures r.Some? <==> exists i, j :: 0 <= i < j < |s| && s[i] == '{' && s[j] == '}'
    ensures r.Some? ==>
      var i, j := FirstIndexOf(s, '{'), LastIndexOf(s, '}');
      0 <= i < j && r.value == s[i..j + 1] && r.value[0] == '{' && r.value[|r.value| - 1] == '}'
  {
    var i := FirstIndexOf(s, '{');
    var j := LastIndexOf(s, '}');
    if i < j then Some(s[i..j + 1]) else None
  }

  /** An object surrounded by text without braces is found exactly. */
  lemma JsonSpanOfWrapped(before: string, body: string, after: string)
    requires '{' !in before && '}' !in after && '}' !in body
    ensures JsonSpan(before + "{" + body + "}" + after) == Some("{" + body + "}")
  {
    var s := before + "{" + body + "}" + after;
    var i := |before|;
    var j := |before| + 1 + |body|;
    assert s[i] == '{' && s[j] == '}';
    assert forall k :: 0 <= k < i ==> s[k] == before[k];
    assert forall k :: j < k < |s| ==> s[k] == after[k - j - 1];
    assert FirstIndexOf(s, '{') == i;
    assert LastIndexOf(s, '}') == j;
    assert s[i..j + 1] == "{" + body + "}";
  }

  /**
   * `extractKeyFacts`: `answer` is the model's text (absent when the call
   * throws) and `parse` is `JSON.parse` (absent when it throws).
   */
  function ExtractKeyFacts(answer: Option<string>, parse: string -> Option<KeyFacts>): (r: KeyFacts)
    ensures answer.None? ==> r == FallbackFacts
    ensures answer.Some? && JsonSpan(answer.value).None? ==> r == FallbackFacts
    ensures answer.Some? && JsonSpan(answer.value).Some? ==>
      r == parse(JsonSpan(answer.value).value).GetOr(FallbackFacts)
  {
    if answer.None? then FallbackFacts
    else match JsonSpan(answer.value)
      case None => FallbackFacts
      case Some(span) => parse(span).GetOr(FallbackFacts)
  }

  /** An answer with no `{` before a `}`, whatever the parser, gives the fallback facts. */
  lemma NoBracesFallback(answer: string, parse: string -> Option<KeyFacts>)
    requires '{' !in answer
    ensures ExtractKeyFacts(Some(answer), parse) == FallbackFacts
  {
    forall k | 0 <= k < |answer|
      ensures answer[k] != '{'
    {
      assert answer[k] in answer;
    }
  }

  // ------------------------------------------------------- withholding

  /** The value of the status equals the text `אין אישור`. */
  predicate IsNoApprovalText(s: TaxCertificates.CertificateStatus)
  {
    TaxCertificates.StatusText(s) == "אין אישור"
  }

  /**
   * A JavaScript property read on the scraper's record: the record has a
   * `withholdingTaxCategories` object and no other object of statuses.
   */
  function StatusesAt(certs: TaxCertificates.TaxCertificates, property: string): Option<seq<TaxCertificates.CertificateStatus>>
  {
    if property == "withholdingTaxCategories" then Some(TaxCertificates.CategoryList(certs.withholdingTaxCategories))
    else None
  }

  /** `buildReportPrompt` as written: it reads `taxCertificates.withholdingTax`, which the record does not have. */
  function WithholdingTaxIssuesAsWritten(certs: Option<TaxCertificates.TaxCertificates>): nat
  {
    if certs.None? then 0 else Count(StatusesAt(certs.value, "withholdingTax").GetOr([]), IsNoApprovalText)
  }

  /** As written the count is zero for every record, so the prompt never mentions a missing certificate. */
  lemma WithholdingTaxIssuesAlwaysZero(certs: Option<TaxCertificates.TaxCertificates>)
    ensures WithholdingTaxIssuesAsWritten(certs) == 0
  {
  }

  /** The count the prompt intends: categories whose status is `אין אישור`. */
  function WithholdingTaxIssues(certs: Option<TaxCertificates.TaxCertificates>): (n: nat)
    ensures certs.None? ==> n == 0
    ensures n <= 8
    ensures certs.Some? ==>
      (n == 0 <==> forall k :: 0 <= k < 8 ==> TaxCertificates.CategoryList(certs.value.withholdingTaxCategories)[k] != TaxCertificates.NoApproval)
  {
    if certs.None? then 0
    else
      var statuses := StatusesAt(certs.value, "withholdingTaxCategories").GetOr([]);
      NoApprovalTextIff();
      CountExtremes(statuses, IsNoApprovalText);
      Count(statuses, IsNoApprovalText)
  }

  lemma NoApprovalTextIff()
    ensures forall s :: IsNoApprovalText(s) <==> s == TaxCertificates.NoApproval
  {
    forall s: TaxCertificates.CertificateStatus
      ensures IsNoApprovalText(s) <==> s == TaxCertificates.NoApproval
    {
      match s {
        case PerRegulations =>
          assert TaxCertificates.StatusText(s)[0] != "אין אישור"[0];
        case NoApproval =>
        case Unknown =>
          assert TaxCertificates.StatusText(s)[0] != "אין אישור"[0];
      }
    }
  }

  /** A record without any approval: eight issues intended, none counted as written. */
  lemma WithholdingFindingWitness(hpNumber: string, now: string)
    ensures var certs := Some(TaxCertificates.TaxCertificates(
      hpNumber, "", None, None, TaxCertificates.BookkeepingApproval(false, None, "אין אישור"),
      TaxCertificates.WithholdingTaxCategories(
        TaxCertificates.NoApproval, TaxCertificates.NoApproval, TaxCertificates.NoApproval, TaxCertificates.NoApproval,
        TaxCertificates.NoApproval, TaxCertificates.NoApproval, TaxCertificates.NoApproval, TaxCertificates.NoApproval),
      TaxCertificates.Meta(TaxCertificates.SourceUrl, now, true, None)));
      WithholdingTaxIssues(certs) == 8 && WithholdingTaxIssuesAsWritten(certs) == 0
  {
    var c := TaxCertificates.WithholdingTaxCategories(
      TaxCertificates.NoApproval, TaxCertificates.NoApproval, TaxCertificates.NoApproval, TaxCertificates.NoApproval,
      TaxCertificates.NoApproval, TaxCertificates.NoApproval, TaxCertificates.NoApproval, TaxCertificates.NoApproval);
    var statuses := TaxCertificates.CategoryList(c);
    NoApprovalTextIff();
    CountExtremes(statuses, IsNoApprovalText);
  }
}
