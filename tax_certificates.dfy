/**
 * `lib/scrapers/tax_certificates.ts`: the bookkeeping approval and the
 * withholding-tax certificates of a business, read from the Tax
 * Authority's public form. The browser session is an input: each
 * attempt gives back what the results page showed (see `PageVisit`), and
 * the clock readings and the sleeps are parameters and results.
 */
module TaxCertificates {
  import opened Wrappers
  import opened Text
  import Retry

  // ------------------------------------------------------------ records

  /** The three values of `CertificateStatus`. */
  datatype CertificateStatus = PerRegulations | NoApproval | Unknown

  function StatusText(s: CertificateStatus): string
  {
    match s
    case PerRegulations => "עפ''י תקנות מ''ה"
    case NoApproval => "אין אישור"
    case Unknown => "לא ידוע"
  }

  datatype WithholdingTaxCategories = WithholdingTaxCategories(
    services: CertificateStatus, construction: CertificateStatus, securityCleaning: CertificateStatus,
    production: CertificateStatus, consulting: CertificateStatus, planningAdvertising: CertificateStatus,
    itServices: CertificateStatus, insurancePension: CertificateStatus)

  /** The eight categories in declaration order. */
  function CategoryList(c: WithholdingTaxCategories): (r: seq<CertificateStatus>)
    ensures |r| == 8
  {
    [c.services, c.construction, c.securityCleaning, c.production,
     c.consulting, c.planningAdvertising, c.itServices, c.insurancePension]
  }

  datatype BookkeepingApproval = BookkeepingApproval(hasApproval: bool, expirationDate: Option<string>, status: string)

  datatype Meta = Meta(sourceUrl: string, scrapedAt: string, scrapeSuccess: bool, errorMessage: Option<string>)

  datatype TaxCertificates = TaxCertificates(
    hpNumber: string, companyName: string, vatFile: Option<string>, withholdingTaxFile: Option<string>,
    bookkeepingApproval: BookkeepingApproval, withholdingTaxCategories: WithholdingTaxCategories, meta: Meta)

  const SourceUrl: string := "https://taxinfo.taxes.gov.il/gmishurim/"

  // ------------------------------------------------------------ status

  /** `extractCertificateStatus` on the element's text (absent when there is no element). */
  function ExtractCertificateStatus(text: Option<string>): (r: CertificateStatus)
    ensures !Truthy(text) ==> r == Unknown
    ensures Truthy(text) ==>
      var t := JsTrim(text.value);
      && (r == PerRegulations <==> Contains(t, "עפ") || Contains(t, "תקנות"))
      && (r == NoApproval <==> !Contains(t, "עפ") && !Contains(t, "תקנות") && Contains(t, "אין"))
  {
    if !Truthy(text) then Unknown
    else
      var normalized := JsTrim(text.value);
      if Contains(normalized, "עפ") || Contains(normalized, "תקנות") then PerRegulations
      else if Contains(normalized, "אין") then NoApproval
      else Unknown
  }

  /** The words of the statuses themselves are read back as those statuses. */
  lemma StatusTextReadBack(s: CertificateStatus)
    ensures ExtractCertificateStatus(Some(StatusText(s))) == s
  {
    match s {
      case PerRegulations => ReadBackPerRegulations();
      case NoApproval => ReadBackNoApproval();
      case Unknown => ReadBackUnknown();
    }
  }

  lemma ReadBackPerRegulations()
    ensures ExtractCertificateStatus(Some(StatusText(PerRegulations))) == PerRegulations
  {
    var t := StatusText(PerRegulations);
    UntrimmedStatus(t);
    assert "עפ" <= t;
  }

  lemma ReadBackNoApproval()
    ensures ExtractCertificateStatus(Some(StatusText(NoApproval))) == NoApproval
  {
    NegationIsNoApproval(StatusText(NoApproval));
  }

  /** A text that starts with the negation and has neither word is read as no approval. */
  lemma NegationIsNoApproval(t: string)
    requires |t| >= 3 && IsHebrewLetter(t[|t| - 1]) && "אין" <= t
    requires 'ע' !in t && 'ת' !in t
    ensures ExtractCertificateStatus(Some(t)) == NoApproval
  {
    UntrimmedStatus(t);
    ContainsPrefix(t, "אין");
    MissingCharNotContained(t, "עפ", 0);
    MissingCharNotContained(t, "תקנות", 0);
  }

  lemma ReadBackUnknown()
    ensures ExtractCertificateStatus(Some(StatusText(Unknown))) == Unknown
  {
    NeitherWordIsUnknown(StatusText(Unknown));
  }

  /** A text with neither word, and without the negation, is of unknown status. */
  lemma NeitherWordIsUnknown(t: string)
    requires |t| >= 2 && IsHebrewLetter(t[0]) && IsHebrewLetter(t[|t| - 1])
    requires 'פ' !in t && 'ק' !in t && 'ן' !in t
    ensures ExtractCertificateStatus(Some(t)) == Unknown
  {
    UntrimmedStatus(t);
    MissingCharNotContained(t, "עפ", 1);
    MissingCharNotContained(t, "תקנות", 1);
    MissingCharNotContained(t, "אין", 2);
  }

  lemma UntrimmedStatus(t: string)
    requires |t| >= 2 && IsHebrewLetter(t[0]) && IsHebrewLetter(t[|t| - 1])
    ensures JsTrim(t) == t
  {
    TrimPadded(t, ' ', IsJsSpace);
  }

  predicate IsHebrewLetter(c: char)
  {
    '\U{05D0}' <= c <= '\U{05EA}'
  }

  // -------------------------------------------------------------- dates

  /** `(\d{2})\/(\d{2})\/(\d{4})` matches at position `i`. */
  predicate DateAt(t: string, i: nat)
  {
    i + 10 <= |t|
    && IsDigit(t[i]) && IsDigit(t[i + 1]) && t[i + 2] == '/'
    && IsDigit(t[i + 3]) && IsDigit(t[i + 4]) && t[i + 5] == '/'
    && IsDigit(t[i + 6]) && IsDigit(t[i + 7]) && IsDigit(t[i + 8]) && IsDigit(t[i + 9])
  }

  /** The leftmost match at or after `from`, or `|t|` when there is none. */
  function FindDate(t: string, from: nat): (i: nat)
    requires from <= |t|
    ensures from <= i <= |t|
    ensures i < |t| ==> DateAt(t, i)
    ensures forall j :: from <= j < i ==> !DateAt(t, j)
    decreases |t| - from
  {
    if from == |t| then |t|
    else if DateAt(t, from) then from
    else FindDate(t, from + 1)
  }

  /** `extractDate`: the first DD/MM/YYYY of the text rewritten as YYYY-MM-DD, with no range check. */
  function ExtractDate(text: Option<string>): (r: Option<string>)
    ensures !Truthy(text) ==> r.None?
    ensures Truthy(text) ==>
      && (r.None? <==> forall j :: 0 <= j < |text.value| ==> !DateAt(text.value, j))
      && (r.Some? ==> exists i :: 0 <= i < |text.value| && DateAt(text.value, i)
                        && (forall j :: 0 <= j < i ==> !DateAt(text.value, j))
                        && r.value == IsoDate(text.value, i))
  {
    if !Truthy(text) then None
    else
      var t := text.value;
      var i := FindDate(t, 0);
      if i == |t| then None else Some(IsoDate(t, i))
  }

  function IsoDate(t: string, i: nat): string
    requires DateAt(t, i)
  {
    t[i + 6..i + 10] + "-" + t[i + 3..i + 5] + "-" + t[i..i + 2]
  }

  /** The rewritten date has the shape YYYY-MM-DD. */
  lemma IsoDateShape(t: string, i: nat)
    requires DateAt(t, i)
    ensures var d := IsoDate(t, i);
      |d| == 10 && d[4] == '-' && d[7] == '-'
      && forall k :: 0 <= k < 10 && k != 4 && k != 7 ==> IsDigit(d[k])
  {
  }

  /** A text that is one DD/MM/YYYY date round-trips to its YYYY-MM-DD form. */
  lemma DateRoundTrip(day: string, month: string, year: string)
    requires |day| == 2 && |month| == 2 && |year| == 4 && AllDigits(day) && AllDigits(month) && AllDigits(year)
    ensures ExtractDate(Some(day + "/" + month + "/" + year)) == Some(year + "-" + month + "-" + day)
  {
    var t := day + "/" + month + "/" + year;
    assert DateAt(t, 0);
    assert t[6..10] == year && t[3..5] == month && t[0..2] == day;
  }

  // ------------------------------------------------------------ extract

  /** The texts of the results page; an element that is missing gives nothing. */
  datatype PageFields = PageFields(
    companyName: Option<string>, vatFile: Option<string>, withholdingTaxFile: Option<string>,
    bookkeeping: Option<string>, bookkeepingExpiration: Option<string>,
    services: Option<string>, construction: Option<string>, securityCleaning: Option<string>,
    production: Option<string>, consulting: Option<string>, planningAdvertising: Option<string>,
    itServices: Option<string>, insurancePension: Option<string>)

  /** The page's texts of the eight categories, in the order of `CategoryList`. */
  function CategoryTexts(page: PageFields): (r: seq<Option<string>>)
    ensures |r| == 8
  {
    [page.services, page.construction, page.securityCleaning, page.production,
     page.consulting, page.planningAdvertising, page.itServices, page.insurancePension]
  }

  /** `x?.trim() || null`. */
  function TrimmedOrNull(s: Option<string>): (r: Option<string>)
    ensures r.Some? ==> Truthy(s) && r.value == JsTrim(s.value) && r.value != ""
    ensures Truthy(s) && JsTrim(s.value) != "" ==> r == Some(JsTrim(s.value))
  {
    if s.Some? && JsTrim(s.value) != "" then Some(JsTrim(s.value)) else None
  }

  /** `extractCertificatesData`; `now` is the `scrapedAt` timestamp. */
  function ExtractCertificatesData(page: PageFields, hpNumber: string, now: string): (r: TaxCertificates)
    ensures r.hpNumber == hpNumber && r.companyName == JsTrim(OrElse(page.companyName, "לא ידוע"))
    ensures r.bookkeepingApproval.hasApproval <==> Contains(OrElse(page.bookkeeping, "לא ידוע"), "יש אישור")
    ensures r.bookkeepingApproval.status == (if r.bookkeepingApproval.hasApproval then "יש אישור" else "אין אישור")
    ensures r.bookkeepingApproval.expirationDate == ExtractDate(page.bookkeepingExpiration)
    ensures r.vatFile == TrimmedOrNull(page.vatFile) && r.withholdingTaxFile == TrimmedOrNull(page.withholdingTaxFile)
    ensures forall k :: 0 <= k < 8 ==>
      CategoryList(r.withholdingTaxCategories)[k] == ExtractCertificateStatus(CategoryTexts(page)[k])
    ensures r.meta == Meta(SourceUrl, now, true, None)
  {
    var bookkeepingText := OrElse(page.bookkeeping, "לא ידוע");
    var hasApproval := Contains(bookkeepingText, "יש אישור");
    TaxCertificates(
      hpNumber, JsTrim(OrElse(page.companyName, "לא ידוע")),
      TrimmedOrNull(page.vatFile), TrimmedOrNull(page.withholdingTaxFile),
      BookkeepingApproval(hasApproval, ExtractDate(page.bookkeepingExpiration), if hasApproval then "יש אישור" else "אין אישור"),
      ReadCategories(page),
      Meta(SourceUrl, now, true, None))
  }

  /** Each category read from its own text. */
  function ReadCategories(page: PageFields): (c: WithholdingTaxCategories)
    ensures forall k :: 0 <= k < 8 ==> CategoryList(c)[k] == ExtractCertificateStatus(CategoryTexts(page)[k])
  {
    WithholdingTaxCategories(
      ExtractCertificateStatus(page.services), ExtractCertificateStatus(page.construction),
      ExtractCertificateStatus(page.securityCleaning), ExtractCertificateStatus(page.production),
      ExtractCertificateStatus(page.consulting), ExtractCertificateStatus(page.planningAdvertising),
      ExtractCertificateStatus(page.itServices), ExtractCertificateStatus(page.insurancePension))
  }

  /**
   * An empty bookkeeping text falls back to the unknown text and so reports
   * no approval, never an unknown one. `None` is kept as an input as well,
   * although a missing element makes the attempt fail before this point.
   */
  lemma EmptyBookkeepingIsNoApproval(page: PageFields, hpNumber: string, now: string)
    requires !Truthy(page.bookkeeping)
    ensures ExtractCertificatesData(page, hpNumber, now).bookkeepingApproval == BookkeepingApproval(false, ExtractDate(page.bookkeepingExpiration), "אין אישור")
  {
    MissingCharNotContained("לא ידוע", "יש אישור", 1);
  }

  // ------------------------------------------------------------ attempts

  /** What one attempt gave: a failure of the browser or the form, or the results page with its `#lblErr` text. */
  datatype PageVisit = BrowserError(message: string) | ResultsPage(errorLabel: Option<string>, fields: PageFields)

  /** One pass of the loop's body: an error label that is not blank is thrown as an error. */
  function AttemptOf(visit: PageVisit, hpNumber: string, now: string): (a: Retry.Attempt<TaxCertificates, string>)
    ensures visit.BrowserError? ==> a == Retry.Threw(visit.message)
    ensures visit.ResultsPage? && Truthy(visit.errorLabel) && JsTrim(visit.errorLabel.value) != "" ==>
      a == Retry.Threw("Tax Authority error: " + visit.errorLabel.value)
    ensures a.Succeeded? ==> a.value == ExtractCertificatesData(visit.fields, hpNumber, now) && a.value.meta.scrapeSuccess
  {
    match visit
    case BrowserError(message) => Retry.Threw(message)
    case ResultsPage(errText, fields) =>
      if Truthy(errText) && JsTrim(errText.value) != "" then Retry.Threw("Tax Authority error: " + errText.value)
      else Retry.Succeeded(ExtractCertificatesData(fields, hpNumber, now))
  }

  function Attempts(visits: nat -> PageVisit, hpNumber: string, now: string): nat -> Retry.Attempt<TaxCertificates, string>
  {
    (k: nat) => AttemptOf(visits(k), hpNumber, now)
  }

  /** No failure stops this loop early. */
  predicate NeverFatal(e: string)
  {
    false
  }

  /** The record returned when every attempt failed. */
  function FailureRecord(hpNumber: string, lastError: Option<string>, now: string): (r: TaxCertificates)
    ensures !r.meta.scrapeSuccess && !r.bookkeepingApproval.hasApproval
    ensures forall k :: 0 <= k < 8 ==> CategoryList(r.withholdingTaxCategories)[k] == Unknown
    ensures r.meta.errorMessage == Some(OrElse(lastError, "Unknown error"))
  {
    TaxCertificates(
      hpNumber, "לא ידוע", None, None, BookkeepingApproval(false, None, "לא ידוע"),
      WithholdingTaxCategories(Unknown, Unknown, Unknown, Unknown, Unknown, Unknown, Unknown, Unknown),
      Meta(SourceUrl, now, false, Some(OrElse(lastError, "Unknown error"))))
  }

  /** What the loop gives back for a run of attempts. */
  function ResultOf(run: Retry.Outcome<TaxCertificates, string>, hpNumber: string, now: string): TaxCertificates
  {
    match run
    case Returned(data) => data
    case Raised(e) => FailureRecord(hpNumber, Some(e), now)
    case RetryFailed => FailureRecord(hpNumber, None, now)
  }

  /**
   * `scrapeTaxCertificates`: up to `retries` attempts; `waits` are the
   * pauses, 2^attempt seconds after each failed attempt but the last.
   */
  method ScrapeTaxCertificates(hpNumber: string, retries: int, visits: nat -> PageVisit, now: string)
    returns (result: TaxCertificates, waits: seq<nat>)
    ensures var run := Retry.RunOf(Attempts(visits, hpNumber, now), retries, NeverFatal);
      && result == ResultOf(run.outcome, hpNumber, now)
      && |waits| == run.retried
    ensures forall k :: 0 <= k < |waits| ==> waits[k] == Retry.Pow2(k + 1) * 1000
  {
    ghost var run := Retry.RunOf(Attempts(visits, hpNumber, now), retries, NeverFatal);
    var attempt := 0;
    var lastError: Option<string> := None;
    waits := [];
    while attempt < retries
      invariant 0 <= attempt && (attempt > 0 ==> attempt < retries)
      invariant |waits| == attempt && (attempt == 0 ==> lastError.None?)
      invariant forall k :: 0 <= k < attempt ==> waits[k] == Retry.Pow2(k + 1) * 1000
      invariant Retry.RunFrom(Attempts(visits, hpNumber, now), retries, NeverFatal, attempt) == run
      decreases retries - attempt
    {
      var a := AttemptOf(visits(attempt), hpNumber, now);
      attempt := attempt + 1;
      if a.Succeeded? {
        assert run == Retry.Run(Retry.Returned(a.value), attempt - 1);
        return a.value, waits;
      }
      lastError := Some(a.error);
      if attempt < retries {
        assert run == Retry.RunFrom(Attempts(visits, hpNumber, now), retries, NeverFatal, attempt);
        waits := waits + [Retry.Pow2(attempt) * 1000];
      } else {
        assert run == Retry.Run(Retry.Raised(a.error), attempt - 1);
        return FailureRecord(hpNumber, lastError, now), waits;
      }
    }
    assert run == Retry.Run(Retry.RetryFailed, attempt);
    result := FailureRecord(hpNumber, lastError, now);
  }

  /** When every attempt fails, the record says so and every category is unknown. */
  lemma AllAttemptsFailed(hpNumber: string, retries: int, visits: nat -> PageVisit, now: string)
    requires forall k :: 0 <= k < retries ==> visits(k).BrowserError?
    ensures var r := ResultOf(Retry.RunOf(Attempts(visits, hpNumber, now), retries, NeverFatal).outcome, hpNumber, now);
      !r.meta.scrapeSuccess && !r.bookkeepingApproval.hasApproval
      && forall k :: 0 <= k < 8 ==> CategoryList(r.withholdingTaxCategories)[k] == Unknown
    ensures retries >= 1 ==>
      Retry.RunOf(Attempts(visits, hpNumber, now), retries, NeverFatal) == Retry.Run(Retry.Raised(visits(retries - 1).message), retries - 1)
  {
    var call := Attempts(visits, hpNumber, now);
    if retries >= 1 {
      Retry.LastErrorThrown(call, retries, NeverFatal, 0);
    }
  }

  /** A successful first attempt is returned with no wait. */
  lemma FirstPageReturned(hpNumber: string, retries: int, visits: nat -> PageVisit, now: string)
    requires retries >= 1 && visits(0).ResultsPage? && !Truthy(visits(0).errorLabel)
    ensures Retry.RunOf(Attempts(visits, hpNumber, now), retries, NeverFatal)
      == Retry.Run(Retry.Returned(ExtractCertificatesData(visits(0).fields, hpNumber, now)), 0)
  {
    Retry.FirstSuccessReturned(Attempts(visits, hpNumber, now), retries, NeverFatal, 0, 0);
  }

  // ------------------------------------------------------------ limiter

  /** `Math.max(0, minDelay - elapsed)`. */
  function LimiterDelay(minDelay: int, elapsed: int): (d: int)
    ensures d >= 0 && d >= minDelay - elapsed
    ensures d == 0 || d == minDelay - elapsed
  {
    if minDelay - elapsed > 0 then minDelay - elapsed else 0
  }

  /** `rateLimiter`: the time of the last request and the least gap between requests. */
  class RateLimiter {
    var lastRequestTime: int
    var minDelay: int

    constructor()
      ensures lastRequestTime == 0 && minDelay == 2000
    {
      lastRequestTime := 0;
      minDelay := 2000;
    }

    /**
     * `wait`: `now` is the clock before the pause, `after` the clock
     * after it; the pause taken is returned.
     */
    method Wait(now: int, after: int) returns (delay: int)
      modifies this
      ensures delay == LimiterDelay(old(minDelay), now - old(lastRequestTime))
      ensures lastRequestTime == after && minDelay == old(minDelay)
    {
      var elapsed := now - lastRequestTime;
      delay := LimiterDelay(minDelay, elapsed);
      lastRequestTime := after;
    }
  }

  /**
   * With a clock that never goes back and a pause that lasts at least its
   * length, two successive returns of `wait` are at least `minDelay` apart.
   */
  lemma LimiterSpacing(last: int, minDelay: int, now: int, after: int)
    requires last <= now && now + LimiterDelay(minDelay, now - last) <= after
    ensures after - last >= minDelay
  {
  }
}
