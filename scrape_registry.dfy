/**
 * `scripts/scrape_companies_registry.ts`: reading a business out of the
 * Companies Registrar's page, and the batch run that saves the dealers it
 * finds. The browser is an input: a loaded page is its HTML text, the two
 * element lookups the page script uses (`getText` by selector and
 * `getTableValue` by label) and the trimmed cell texts of the owner rows.
 * The store's upsert is `OsekMorsheh.UpsertOsekMorsheh`, whose database
 * query may also throw; the clock is `now`.
 */
module ScrapeRegistry {
  import opened Wrappers
  import opened Text
  import opened Seqs
  import OsekMorsheh

  // ------------------------------------------------------ classification

  datatype ScrapedDealer = DealerLicensed | DealerExempt | DealerCompany | DealerUnknown

  datatype DealerClass = DealerClass(dealerType: ScrapedDealer, isVatRegistered: bool)

  /** The type of dealer, and whether it is VAT-registered, from the registry's type text; the first rule that matches wins. */
  function ClassifyDealer(t: string): (c: DealerClass)
    ensures Contains(t, "עוסק מורשה") ==> c.dealerType == DealerLicensed
    ensures c.dealerType == DealerExempt <==> !Contains(t, "עוסק מורשה") && Contains(t, "עוסק")
    ensures c.dealerType == DealerCompany <==> !Contains(t, "עוסק") && (Contains(t, "בע\"מ") || Contains(t, "חברה פרטית"))
    ensures c.dealerType == DealerUnknown <==>
      !Contains(t, "עוסק") && !Contains(t, "בע\"מ") && !Contains(t, "חברה פרטית")
    ensures c.isVatRegistered <==> c.dealerType == DealerLicensed || c.dealerType == DealerCompany
  {
    LicensedMentionsDealer(t);
    if Contains(t, "עוסק מורשה") then DealerClass(DealerLicensed, true)
    else if Contains(t, "עוסק פטור") || Contains(t, "עוסק") then DealerClass(DealerExempt, false)
    else if Contains(t, "בע\"מ") || Contains(t, "חברה פרטית") then DealerClass(DealerCompany, true)
    else DealerClass(DealerUnknown, false)
  }

  /** Both dealer phrases contain the bare word `עוסק`, so of the tests for them only the bare word matters. */
  lemma LicensedMentionsDealer(t: string)
    ensures Contains(t, "עוסק מורשה") ==> Contains(t, "עוסק")
    ensures Contains(t, "עוסק פטור") ==> Contains(t, "עוסק")
  {
    WordInPhrase(t, "עוסק מורשה", "עוסק");
    WordInPhrase(t, "עוסק פטור", "עוסק");
  }

  lemma WordInPhrase(t: string, phrase: string, word: string)
    requires word <= phrase
    ensures Contains(t, phrase) ==> Contains(t, word)
  {
    if Contains(t, phrase) {
      ContainsPrefix(phrase, word);
      ContainsTrans(t, phrase, word);
    }
  }

  datatype ScrapedStatus = Active | Dissolved | Violating | UnknownStatus

  /** The registration status from the registry's status text; the first rule that matches wins. */
  function ClassifyStatus(t: string): (s: ScrapedStatus)
    ensures s == Active <==> Contains(t, "פעיל") || Contains(t, "רשום")
    ensures s == Dissolved <==> !Contains(t, "פעיל") && !Contains(t, "רשום") && (Contains(t, "פירוק") || Contains(t, "מחוק"))
    ensures s == Violating <==>
      !Contains(t, "פעיל") && !Contains(t, "רשום") && !Contains(t, "פירוק") && !Contains(t, "מחוק") && Contains(t, "מפר")
  {
    if Contains(t, "פעיל") || Contains(t, "רשום") then Active
    else if Contains(t, "פירוק") || Contains(t, "מחוק") then Dissolved
    else if Contains(t, "מפר") then Violating
    else UnknownStatus
  }

  /** Any text that mentions activity reads as active, a negated one such as `לא פעיל` included. */
  lemma NegatedActivityReadsActive(before: string, after: string)
    ensures ClassifyStatus(before + "פעיל" + after) == Active
  {
    var t := before + "פעיל" + after;
    assert t[|before|..][..4] == "פעיל";
    ContainsAt(t, "פעיל", |before|);
  }

  /** The page is a not-found page when it carries one of the registry's four error texts. */
  predicate NotFoundPage(content: string)
  {
    Contains(content, "לא נמצאו תוצאות") || Contains(content, "אין מידע")
    || Contains(content, "No results found") || Contains(content, "ERROR")
  }

  // ---------------------------------------------------------- the page

  /**
   * A loaded page: its HTML, `getText` (an element's trimmed text, absent
   * when there is no element), `getTableValue` (the trimmed value next to
   * a label, absent when no row has the label) and the owner-table rows.
   */
  datatype RegistryPage = RegistryPage(
    content: string, getText: string -> Option<string>, getTableValue: string -> Option<string>,
    ownerRows: seq<seq<string>>)

  /** The browser's visit: it failed (a time-out, a script error) or it loaded a page. */
  datatype PageVisit = Crashed | Loaded(page: RegistryPage)

  /** `getTextMultiple`: the first non-empty text among the selectors. */
  function FirstText(selectors: seq<string>, getText: string -> Option<string>): (r: Option<string>)
    ensures r.Some? ==> r.value != "" && exists k :: 0 <= k < |selectors| && getText(selectors[k]) == r
    ensures r.None? <==> forall k :: 0 <= k < |selectors| ==> !Truthy(getText(selectors[k]))
  {
    if selectors == [] then None
    else if Truthy(getText(selectors[0])) then getText(selectors[0])
    else
      var r := FirstText(selectors[1..], getText);
      assert forall k :: 1 <= k < |selectors| ==> selectors[k] == selectors[1..][k - 1];
      r
  }

  const NameSelectors: seq<string> :=
    ["h1", "h2", ".company-name", ".company-title", "[data-title=\"company-name\"]", "#companyName"]
  const EnglishNameSelectors: seq<string> := [".company-name-english", "[data-title=\"company-name-english\"]"]

  datatype ScrapedOwner = ScrapedOwner(name: string, idNumber: string, share: Option<real>)

  /** A row of the owner table becomes an owner when it has two cells and a name. */
  predicate IsOwnerRow(cells: seq<string>)
  {
    |cells| >= 2 && cells[0] != ""
  }

  /** Name, id and share of an owner row; `parse` is `parseFloat` (absent for `NaN`), used only on a non-empty share cell. */
  function OwnerOf(cells: seq<string>, parse: string -> Option<real>): ScrapedOwner
    requires |cells| >= 2
  {
    ScrapedOwner(cells[0], cells[1], if |cells| > 2 && cells[2] != "" then parse(cells[2]) else None)
  }

  /** `o` is what some owner row of `rows` reads as. */
  predicate FromOwnerRow(rows: seq<seq<string>>, o: ScrapedOwner, parse: string -> Option<real>)
  {
    exists j :: 0 <= j < |rows| && IsOwnerRow(rows[j]) && o == OwnerOf(rows[j], parse)
  }

  /** The owners read from the rows, in row order. */
  function KeptOwners(rows: seq<seq<string>>, parse: string -> Option<real>): (owners: seq<ScrapedOwner>)
    ensures |owners| <= |rows|
    ensures forall k :: 0 <= k < |owners| ==> owners[k].name != ""
    ensures forall k :: 0 <= k < |owners| ==> FromOwnerRow(rows, owners[k], parse)
  {
    var kept := Filter(rows, IsOwnerRow);
    var owners := seq(|kept|, i requires 0 <= i < |kept| => OwnerOf(kept[i], parse));
    assert forall k :: 0 <= k < |owners| ==> FromOwnerRow(rows, owners[k], parse) by {
      forall k | 0 <= k < |owners|
        ensures FromOwnerRow(rows, owners[k], parse)
      {
        assert kept[k] in rows && IsOwnerRow(kept[k]);
        var j :| 0 <= j < |rows| && rows[j] == kept[k];
        assert IsOwnerRow(rows[j]) && owners[k] == OwnerOf(rows[j], parse);
      }
    }
    owners
  }

  /** An owner row is never lost: the owners are as many as the owner rows. */
  lemma KeptOwnersCount(rows: seq<seq<string>>, parse: string -> Option<real>)
    ensures |KeptOwners(rows, parse)| == Count(rows, IsOwnerRow)
  {
    FilterCount(rows, IsOwnerRow);
  }

  /** One more row adds its owner when it is an owner row, and nothing otherwise. */
  lemma KeptOwnersSnoc(rows: seq<seq<string>>, cells: seq<string>, parse: string -> Option<real>)
    ensures KeptOwners(rows + [cells], parse) ==
      KeptOwners(rows, parse) + (if IsOwnerRow(cells) then [OwnerOf(cells, parse)] else [])
  {
    FilterAppend(rows, [cells], IsOwnerRow);
    assert [cells][1..] == [];
    var a := Filter(rows, IsOwnerRow);
    var b := Filter(rows + [cells], IsOwnerRow);
    assert b == a + (if IsOwnerRow(cells) then [cells] else []);
    assert forall k :: 0 <= k < |a| ==> b[k] == a[k];
  }

  /** `ownerRows.forEach(...)`: the loop that pushes an owner for each row with two cells and a name. */
  method ParseOwnerRows(rows: seq<seq<string>>, parse: string -> Option<real>) returns (owners: seq<ScrapedOwner>)
    ensures owners == KeptOwners(rows, parse)
  {
    owners := [];
    var i := 0;
    while i < |rows|
      invariant 0 <= i <= |rows|
      invariant owners == KeptOwners(rows[..i], parse)
    {
      var cells := rows[i];
      assert rows[..i + 1] == rows[..i] + [cells];
      KeptOwnersSnoc(rows[..i], cells, parse);
      if |cells| >= 2 {
        var name := cells[0];
        var idNumber := cells[1];
        var share := if |cells| > 2 && cells[2] != "" then parse(cells[2]) else None;
        if name != "" {
          owners := owners + [ScrapedOwner(name, idNumber, share)];
        }
      }
      i := i + 1;
    }
    assert rows[..|rows|] == rows;
  }

  datatype ScrapedBusinessData = ScrapedBusinessData(
    hpNumber: int, businessName: string, businessNameEnglish: Option<string>, businessType: string,
    dealerType: ScrapedDealer, isVatRegistered: bool, status: ScrapedStatus,
    address: Option<string>, city: Option<string>, registrationDate: Option<string>,
    owners: Option<seq<ScrapedOwner>>, lastScraped: string)

  /** `getTableValue(a) || getTableValue(b)`. */
  function Labelled(page: RegistryPage, a: string, b: string): Option<string>
  {
    Either(page.getTableValue(a), page.getTableValue(b))
  }

  /** The business read from a page that loaded and does not say that nothing was found. */
  function Scraped(hpNumber: int, page: RegistryPage, parse: string -> Option<real>, now: string): ScrapedBusinessData
  {
    var typeText := OrElse(Labelled(page, "סוג תאגיד", "סוג ארגון"), "");
    var dealer := ClassifyDealer(typeText);
    var owners := KeptOwners(page.ownerRows, parse);
    ScrapedBusinessData(
      hpNumber, OrElse(FirstText(NameSelectors, page.getText), "Unknown Business"),
      FirstText(EnglishNameSelectors, page.getText), typeText, dealer.dealerType, dealer.isVatRegistered,
      ClassifyStatus(OrElse(Labelled(page, "סטטוס", "מצב"), "")),
      Labelled(page, "כתובת", "מען"), Labelled(page, "עיר", "ישוב"), Labelled(page, "תאריך התאגדות", "תאריך רישום"),
      if |owners| > 0 then Some(owners) else None, now)
  }

  /** `scrapeCompanyData`: nothing when the visit fails or the page says nothing was found. */
  method ScrapeCompanyData(hpNumber: int, visit: PageVisit, parse: string -> Option<real>, now: string)
    returns (r: Option<ScrapedBusinessData>)
    ensures r.None? <==> visit.Crashed? || NotFoundPage(visit.page.content)
    ensures r.Some? ==>
      var page := visit.page;
      var typeText := OrElse(Labelled(page, "סוג תאגיד", "סוג ארגון"), "");
      var d := r.value;
      && d.hpNumber == hpNumber && d.lastScraped == now
      && d.businessName == OrElse(FirstText(NameSelectors, page.getText), "Unknown Business")
      && d.businessNameEnglish == FirstText(EnglishNameSelectors, page.getText)
      && d.businessType == typeText
      && DealerClass(d.dealerType, d.isVatRegistered) == ClassifyDealer(typeText)
      && d.status == ClassifyStatus(OrElse(Labelled(page, "סטטוס", "מצב"), ""))
      && d.address == Labelled(page, "כתובת", "מען") && d.city == Labelled(page, "עיר", "ישוב")
      && d.registrationDate == Labelled(page, "תאריך התאגדות", "תאריך רישום")
      && (d.owners.None? <==> KeptOwners(page.ownerRows, parse) == [])
      && (d.owners.Some? ==> d.owners.value == KeptOwners(page.ownerRows, parse))
    ensures r.Some? ==> r.value == Scraped(hpNumber, visit.page, parse, now)
  {
    if visit.Crashed? {
      return None;
    }
    var page := visit.page;
    if NotFoundPage(page.content) {
      return None;
    }
    var businessName := OrElse(FirstText(NameSelectors, page.getText), "Unknown Business");
    var businessNameEnglish := FirstText(EnglishNameSelectors, page.getText);
    var businessTypeRaw := OrElse(Labelled(page, "סוג תאגיד", "סוג ארגון"), "");
    var dealer := ClassifyDealer(businessTypeRaw);
    var status := ClassifyStatus(OrElse(Labelled(page, "סטטוס", "מצב"), ""));
    var owners := ParseOwnerRows(page.ownerRows, parse);
    r := Some(ScrapedBusinessData(
      hpNumber, businessName, businessNameEnglish, businessTypeRaw, dealer.dealerType, dealer.isVatRegistered, status,
      Labelled(page, "כתובת", "מען"), Labelled(page, "עיר", "ישוב"), Labelled(page, "תאריך התאגדות", "תאריך רישום"),
      if |owners| > 0 then Some(owners) else None, now));
  }

  // --------------------------------------------------------- the batch

  /** The row saved for a scraped business: companies and unknown types are saved as exempt dealers. */
  function RowFor(data: ScrapedBusinessData): (row: OsekMorsheh.OsekRow)
    ensures row.hpNumber == data.hpNumber && row.businessName == data.businessName
    ensures row.dealerType != OsekMorsheh.Company
    ensures row.dealerType == OsekMorsheh.Licensed <==> data.dealerType == DealerLicensed
    ensures row.isVatRegistered == data.isVatRegistered
    ensures row.taxStatus == OsekMorsheh.TaxActive <==> data.status == Active
    ensures row.taxStatus != OsekMorsheh.TaxActive ==> row.taxStatus == OsekMorsheh.TaxUnknown
    ensures row.dataSource == "scraping" && row.city == data.city && row.businessType == Some(data.businessType)
  {
    var dealer := if data.dealerType == DealerLicensed then OsekMorsheh.Licensed else OsekMorsheh.Exempt;
    OsekMorsheh.OsekRow(
      data.hpNumber, data.businessName, dealer, data.isVatRegistered,
      if data.status == Active then OsekMorsheh.TaxActive else OsekMorsheh.TaxUnknown,
      "scraping", data.city, Some(data.businessType))
  }

  /** A company is saved as an exempt dealer that is nonetheless VAT-registered. */
  lemma CompanySavedAsExempt(data: ScrapedBusinessData)
    requires data.dealerType == DealerCompany && data.isVatRegistered
    ensures RowFor(data).dealerType == OsekMorsheh.Exempt && RowFor(data).isVatRegistered
  {
  }

  /**
   * What happened for one number: opening the browser tab threw, or the
   * tab visited the page and the upsert's database query did or did not
   * throw (the save is attempted only for a business that was found).
   */
  datatype HpAttempt = NoPage | Visited(visit: PageVisit, saveThrows: bool)

  /** A number of the run with what happened for it. */
  datatype Try = Try(hpNumber: int, attempt: HpAttempt)

  /** The numbers paired with their attempts. */
  function Tries(hpNumbers: seq<int>, attempts: seq<HpAttempt>): (t: seq<Try>)
    requires |attempts| == |hpNumbers|
    ensures |t| == |hpNumbers| && forall k :: 0 <= k < |t| ==> t[k] == Try(hpNumbers[k], attempts[k])
  {
    seq(|hpNumbers|, k requires 0 <= k < |hpNumbers| => Try(hpNumbers[k], attempts[k]))
  }

  predicate Found(a: HpAttempt)
  {
    a.Visited? && a.visit.Loaded? && !NotFoundPage(a.visit.page.content)
  }

  /**
   * Found and stored: `validateHPNotFive` inside `upsertOsekMorsheh` let the
   * number through and the query did not throw.
   */
  predicate Saved(t: Try)
  {
    Found(t.attempt) && !OsekMorsheh.StartsWithFive(t.hpNumber) && !t.attempt.saveThrows
  }

  predicate Missing(t: Try)
  {
    t.attempt.Visited? && !Found(t.attempt)
  }

  predicate Failed(t: Try)
  {
    t.attempt.NoPage? || (Found(t.attempt) && (OsekMorsheh.StartsWithFive(t.hpNumber) || t.attempt.saveThrows))
  }

  /** The row handed to the upsert for a business that was found. */
  function FoundRow(t: Try, parse: string -> Option<real>, now: string): (row: OsekMorsheh.OsekRow)
    requires Found(t.attempt)
    ensures row.hpNumber == t.hpNumber
  {
    RowFor(Scraped(t.hpNumber, t.attempt.visit.page, parse, now))
  }

  datatype HpOutcome = Success | NotFound | Failure

  /**
   * One pass of the loop body of `scrapeMultiple`: scrape, then save what
   * was found with `upsertOsekMorsheh`; `stored` is what the run has saved
   * so far.
   */
  method ProcessHp(hpNumber: int, a: HpAttempt, parse: string -> Option<real>, now: string, stored: seq<OsekMorsheh.OsekRow>)
    returns (outcome: HpOutcome, saved: seq<OsekMorsheh.OsekRow>)
    ensures outcome == Success <==> Saved(Try(hpNumber, a))
    ensures outcome == NotFound <==> Missing(Try(hpNumber, a))
    ensures outcome == Failure <==> Failed(Try(hpNumber, a))
    ensures saved == if Saved(Try(hpNumber, a)) then stored + [FoundRow(Try(hpNumber, a), parse, now)] else stored
  {
    var t := Try(hpNumber, a);
    if a.NoPage? {
      return Failure, stored;
    }
    var data := ScrapeCompanyData(hpNumber, a.visit, parse, now);
    if data.None? {
      return NotFound, stored;
    }
    assert Found(a);
    var row := RowFor(data.value);
    assert row == FoundRow(t, parse, now);
    var upsert := OsekMorsheh.UpsertOsekMorsheh(stored, row);
    if upsert.Failure? || a.saveThrows {
      return Failure, stored;
    }
    return Success, upsert.value;
  }

  /** A found business whose nine-digit number lies in the companies' range fails, however the query goes. */
  lemma CompanyNumberFails(t: Try)
    requires Found(t.attempt) && 500000000 <= t.hpNumber < 600000000
    ensures Failed(t) && !Saved(t)
  {
    OsekMorsheh.NineDigitCompanies(t.hpNumber);
  }

  datatype ScrapeStats = ScrapeStats(success: nat, failed: nat, notFound: nat)

  const RateLimitDelay: nat := 2000

  /** The `stats.success++`, `stats.notFound++` or `stats.failed++` of an outcome. */
  function Bump(stats: ScrapeStats, outcome: HpOutcome): ScrapeStats
  {
    match outcome
    case Success => stats.(success := stats.success + 1)
    case NotFound => stats.(notFound := stats.notFound + 1)
    case Failure => stats.(failed := stats.failed + 1)
  }

  /** The counters after a run of tries: those saved, those that failed and those not found. */
  function StatsOf(tries: seq<Try>): ScrapeStats
  {
    ScrapeStats(Count(tries, Saved), Count(tries, Failed), Count(tries, Missing))
  }

  /** How the counts move when the outcome of try `i` is known. */
  lemma TallyStep(tries: seq<Try>, i: nat, outcome: HpOutcome)
    requires i < |tries|
    requires outcome == Success <==> Saved(tries[i])
    requires outcome == NotFound <==> Missing(tries[i])
    requires outcome == Failure <==> Failed(tries[i])
    ensures StatsOf(tries[..i + 1]) == Bump(StatsOf(tries[..i]), outcome)
  {
    CountStep(tries, i, Saved);
    CountStep(tries, i, Missing);
    CountStep(tries, i, Failed);
  }

  /** Every try is saved, failed or not found, and only one of these. */
  lemma {:induction false} StatsTotal(tries: seq<Try>)
    ensures StatsOf(tries).success + StatsOf(tries).failed + StatsOf(tries).notFound == |tries|
  {
    if tries != [] {
      var n := |tries| - 1;
      StatsTotal(tries[..n]);
      CountStep(tries, n, Saved);
      CountStep(tries, n, Missing);
      CountStep(tries, n, Failed);
      assert tries[..n + 1] == tries;
    }
  }

  /** The rows the run stores: one for each saved try, in order. */
  function SavedRows(tries: seq<Try>, parse: string -> Option<real>, now: string): seq<OsekMorsheh.OsekRow>
  {
    if tries == [] then []
    else
      var n := |tries| - 1;
      var init := SavedRows(tries[..n], parse, now);
      if Saved(tries[n]) then init + [FoundRow(tries[n], parse, now)] else init
  }

  /** One more try adds its row exactly when it was saved. */
  lemma SavedRowsStep(tries: seq<Try>, parse: string -> Option<real>, now: string, i: nat)
    requires i < |tries|
    ensures SavedRows(tries[..i + 1], parse, now) ==
      if Saved(tries[i]) then SavedRows(tries[..i], parse, now) + [FoundRow(tries[i], parse, now)]
      else SavedRows(tries[..i], parse, now)
  {
    assert tries[..i + 1][..i] == tries[..i];
  }

  /** One row per saved try. */
  lemma {:induction false} SavedRowsCount(tries: seq<Try>, parse: string -> Option<real>, now: string)
    ensures |SavedRows(tries, parse, now)| == Count(tries, Saved)
  {
    if tries != [] {
      var n := |tries| - 1;
      SavedRowsCount(tries[..n], parse, now);
      CountStep(tries, n, Saved);
      assert tries[..n + 1] == tries;
    }
  }

  /**
   * No stored row is a company, either by its dealer type or by a number
   * starting with 5, and every one is marked as scraped.
   */
  lemma {:induction false} SavedRowsNoCompany(tries: seq<Try>, parse: string -> Option<real>, now: string)
    ensures forall k :: 0 <= k < |SavedRows(tries, parse, now)| ==>
      var row := SavedRows(tries, parse, now)[k];
      row.dealerType != OsekMorsheh.Company && row.dataSource == "scraping" && !OsekMorsheh.StartsWithFive(row.hpNumber)
  {
    if tries != [] {
      var n := |tries| - 1;
      SavedRowsNoCompany(tries[..n], parse, now);
    }
  }

  /**
   * `scrapeMultiple`: `attempts[i]` is what happened for `hpNumbers[i]`.
   * Gives the counters, the rows the run stored and the pauses taken.
   */
  method ScrapeMultiple(hpNumbers: seq<int>, attempts: seq<HpAttempt>, parse: string -> Option<real>, now: string)
    returns (stats: ScrapeStats, stored: seq<OsekMorsheh.OsekRow>, delays: seq<nat>)
    requires |attempts| == |hpNumbers|
    ensures stats.success == Count(Tries(hpNumbers, attempts), Saved)
    ensures stats.notFound == Count(Tries(hpNumbers, attempts), Missing)
    ensures stats.failed == Count(Tries(hpNumbers, attempts), Failed)
    ensures stats.success + stats.failed + stats.notFound == |hpNumbers|
    ensures stored == SavedRows(Tries(hpNumbers, attempts), parse, now)
    ensures |stored| == stats.success
    ensures forall k :: 0 <= k < |stored| ==>
      stored[k].dealerType != OsekMorsheh.Company && stored[k].dataSource == "scraping"
      && !OsekMorsheh.StartsWithFive(stored[k].hpNumber)
    ensures |delays| == if hpNumbers == [] then 0 else |hpNumbers| - 1
    ensures forall k :: 0 <= k < |delays| ==> delays[k] == RateLimitDelay
  {
    var tries := Tries(hpNumbers, attempts);
    stats := ScrapeStats(0, 0, 0);
    stored := [];
    delays := [];
    var i := 0;
    while i < |hpNumbers|
      invariant 0 <= i <= |hpNumbers|
      invariant stats == StatsOf(tries[..i])
      invariant stored == SavedRows(tries[..i], parse, now)
      invariant |delays| == if i == 0 then 0 else if i < |hpNumbers| then i else i - 1
      invariant forall k :: 0 <= k < |delays| ==> delays[k] == RateLimitDelay
    {
      var outcome, saved := ProcessHp(hpNumbers[i], attempts[i], parse, now, stored);
      assert tries[i] == Try(hpNumbers[i], attempts[i]);
      TallyStep(tries, i, outcome);
      SavedRowsStep(tries, parse, now, i);
      stats := Bump(stats, outcome);
      stored := saved;
      if i < |hpNumbers| - 1 {
        delays := delays + [RateLimitDelay];
      }
      i := i + 1;
    }
    assert tries[..|hpNumbers|] == tries;
    StatsTotal(tries);
    SavedRowsNoCompany(tries, parse, now);
    SavedRowsCount(tries, parse, now);
  }
}
