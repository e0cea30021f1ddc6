/**
 * `lib/checkid.ts`: the client of the CheckID service. Which key switches
 * the client to placeholder data, which errors the retry loop gives up on,
 * the defaults that fill a response, and the placeholder record built
 * from a query. The requests themselves are inputs (see `Retry`).
 */
module CheckId {
  import opened Wrappers
  import opened Text
  import Retry

  // ----------------------------------------------------------- records

  datatype Address = Address(street: string, city: string, zipCode: Option<string>)

  datatype Owner = Owner(name: Option<string>, idNumber: Option<string>, role: Option<string>)

  /** `CheckIDBusinessData`. */
  datatype BusinessData = BusinessData(
    name: string, registrationNumber: string, businessType: string, status: string,
    foundedDate: Option<string>, industry: Option<string>, address: Option<Address>,
    owners: Option<seq<Owner>>, risks: Option<seq<string>>, strengths: Option<seq<string>>,
    hasVAT: bool, vatNumber: Option<string>, additionalInfo: Option<string>)

  /** The fields of a service response that the mapping reads; every one may be missing. */
  datatype RawAddress = RawAddress(street: Option<string>, city: Option<string>, zipCode: Option<string>, postalCode: Option<string>)

  datatype RawOwner = RawOwner(
    name: Option<string>, fullName: Option<string>, idNumber: Option<string>, id: Option<string>,
    role: Option<string>, position: Option<string>)

  datatype RawBusiness = RawBusiness(
    name: Option<string>, businessName: Option<string>, registrationNumber: Option<string>, id: Option<string>,
    businessType: Option<string>, status: Option<string>, foundedDate: Option<string>, establishmentDate: Option<string>,
    address: Option<RawAddress>, owners: Option<seq<RawOwner>>, hasVAT: Option<bool>, vatNumber: Option<string>,
    notes: Option<string>, description: Option<string>)

  // --------------------------------------------------------- api key

  /** `hasRealApiKey`: a non-blank key that does not mention `mock`. */
  predicate HasRealApiKey(key: string)
  {
    key != "" && JsTrim(key) != "" && !Contains(key, "mock")
  }

  /** Placeholder data is used exactly when the key is empty, blank, or contains `mock`. */
  lemma MockModeIff(key: string)
    ensures !HasRealApiKey(key) <==>
      (key == "" || (forall k :: 0 <= k < |key| ==> IsJsSpace(key[k])) || Contains(key, "mock"))
  {
    TrimEmpty(key, IsJsSpace);
  }

  // ----------------------------------------------------------- retries

  /** A failed request: the HTTP status when the error is a response error, absent otherwise. */
  datatype CheckIdError = CheckIdError(httpStatus: Option<int>)

  /** A client error other than 429 is thrown without retry. */
  predicate ClientError(e: CheckIdError)
  {
    e.httpStatus.Some? && e.httpStatus.value != 0 && 400 <= e.httpStatus.value < 500 && e.httpStatus.value != 429
  }

  /** A first call answered with a client error is the only call. */
  lemma ClientErrorStopsAtOnce<T>(call: nat -> Retry.Attempt<T, CheckIdError>, retries: int, status: int)
    requires retries >= 1 && 400 <= status < 500 && status != 429
    requires call(0) == Retry.Threw(CheckIdError(Some(status)))
    ensures Retry.RunOf(call, retries, ClientError) == Retry.Run(Retry.Raised(CheckIdError(Some(status))), 0)
  {
    Retry.FatalErrorThrown(call, retries, ClientError, 0, 0);
  }

  /** A 429 or a server error is retried: a success on the next call is returned after one wait. */
  lemma TransientErrorRetried<T>(call: nat -> Retry.Attempt<T, CheckIdError>, retries: int, status: int)
    requires retries >= 2 && (status == 429 || 500 <= status)
    requires call(0) == Retry.Threw(CheckIdError(Some(status))) && call(1).Succeeded?
    ensures Retry.RunOf(call, retries, ClientError) == Retry.Run(Retry.Returned(call(1).value), 1)
  {
    Retry.FirstSuccessReturned(call, retries, ClientError, 0, 1);
  }

  // ----------------------------------------------------------- mapping

  function MapAddress(a: RawAddress): (r: Address)
    ensures r.street == OrElse(a.street, "") && r.city == OrElse(a.city, "")
    ensures r.zipCode == Either(a.zipCode, a.postalCode)
  {
    Address(OrElse(a.street, ""), OrElse(a.city, ""), Either(a.zipCode, a.postalCode))
  }

  /** An owner's name, id and role, each falling back to its alternative field. */
  function MapOwner(o: RawOwner): (r: Owner)
    ensures Truthy(o.name) ==> r.name == o.name
    ensures !Truthy(o.name) ==> r.name == o.fullName
    ensures Truthy(o.idNumber) ==> r.idNumber == o.idNumber
    ensures !Truthy(o.idNumber) ==> r.idNumber == o.id
    ensures Truthy(o.role) ==> r.role == o.role
    ensures !Truthy(o.role) ==> r.role == o.position
  {
    Owner(Either(o.name, o.fullName), Either(o.idNumber, o.id), Either(o.role, o.position))
  }

  /**
   * `mapCheckIDResponse`: each field from its first truthy source, with the
   * defaults `Unknown`, `עוסק מורשה`, `active` and no VAT.
   */
  function MapCheckIDResponse(data: RawBusiness): (r: BusinessData)
    ensures r.name == (if Truthy(data.name) then data.name.value
                       else if Truthy(data.businessName) then data.businessName.value else "Unknown")
    ensures r.registrationNumber == OrElse(Either(data.registrationNumber, data.id), "")
    ensures r.businessType == OrElse(data.businessType, "עוסק מורשה")
    ensures r.status == OrElse(data.status, "active")
    ensures r.hasVAT <==> data.hasVAT == Some(true)
    ensures r.address.Some? <==> data.address.Some?
    ensures r.owners.Some? <==> data.owners.Some?
    ensures r.owners.Some? ==> |r.owners.value| == |data.owners.value|
    ensures r.owners.Some? ==> forall k :: 0 <= k < |r.owners.value| ==> r.owners.value[k] == MapOwner(data.owners.value[k])
    ensures r.name != "" && r.businessType != "" && r.status != ""
    ensures r.industry.None? && r.risks.None? && r.strengths.None?
  {
    BusinessData(
      OrElse(Either(data.name, data.businessName), "Unknown"),
      OrElse(Either(data.registrationNumber, data.id), ""),
      OrElse(data.businessType, "עוסק מורשה"),
      OrElse(data.status, "active"),
      Either(data.foundedDate, data.establishmentDate),
      None,
      if data.address.Some? then Some(MapAddress(data.address.value)) else None,
      if data.owners.Some? then Some(seq(|data.owners.value|, k requires 0 <= k < |data.owners.value| => MapOwner(data.owners.value[k]))) else None,
      None, None,
      data.hasVAT == Some(true),
      data.vatNumber,
      Either(data.notes, data.description))
  }

  /** An empty response maps to the defaults. */
  lemma EmptyResponseDefaults()
    ensures var r := MapCheckIDResponse(RawBusiness(None, None, None, None, None, None, None, None, None, None, None, None, None, None));
      r.name == "Unknown" && r.registrationNumber == "" && r.businessType == "עוסק מורשה"
      && r.status == "active" && !r.hasVAT && r.address.None? && r.owners.None?
  {
  }

  // ------------------------------------------------------- placeholder

  /** `generateRandomHP` for a draw `Math.floor(Math.random() * 900000)`. */
  function GenerateRandomHP(draw: nat): (hp: string)
    requires draw < 900000
    ensures |hp| == 9 && AllDigits(hp) && hp[..3] == "515"
  {
    assert Pow10(5) == 100000 && Pow10(6) == 1000000 by {
      assert Pow10(2) == 100 && Pow10(3) == 1000;
    }
    NatToStringDigits(100000 + draw, 6);
    "515" + NatToString(100000 + draw)
  }

  /** The name of the placeholder record: the caller's name, else a long enough query, else a generic name. */
  function FinalName(hpNumber: string, originalQuery: string, businessName: Option<string>): (name: string)
    ensures Truthy(businessName) && |JsTrim(businessName.value)| > 0 ==> name == businessName.value
    ensures !(Truthy(businessName) && |JsTrim(businessName.value)| > 0) && originalQuery != hpNumber && |originalQuery| > 3
      ==> name == originalQuery
    ensures !(Truthy(businessName) && |JsTrim(businessName.value)| > 0) && !(originalQuery != hpNumber && |originalQuery| > 3)
      ==> name == "עסק " + hpNumber
  {
    if Truthy(businessName) && |JsTrim(businessName.value)| > 0 then businessName.value
    else if originalQuery != hpNumber && |originalQuery| > 3 then originalQuery
    else "עסק " + hpNumber
  }

  /** The placeholder record never has an empty name. */
  lemma FinalNameNonEmpty(hpNumber: string, originalQuery: string, businessName: Option<string>)
    ensures FinalName(hpNumber, originalQuery, businessName) != ""
  {
    var name := FinalName(hpNumber, originalQuery, businessName);
    if Truthy(businessName) && |JsTrim(businessName.value)| > 0 {
      assert |name| > 0 by {
        TrimContained(businessName.value, IsJsSpace);
        ContainsIff(businessName.value, JsTrim(businessName.value));
      }
    }
  }

  const MockNotice: string :=
    "⚠️ מידע חלקי זמין\n\nלקבלת מידע מלא, המערכת זקוקה לחיבור למקורות הבאים:\n• רשם החברות (רשות התאגידים)\n"
    + "• רשות המסים (עוסקים מורשים)\n• משרד המשפטים (תיקים משפטיים)\n• הוצאה לפועל (חובות)\n\n"
    + "נתונים אלו יהיו זמינים לאחר חיבור ל-API המתאים."

  /** `generateMockBusinessByHP`: a minimal active record for the number. */
  function GenerateMockBusinessByHP(hpNumber: string, originalQuery: string, businessName: Option<string>): (r: BusinessData)
    ensures r.registrationNumber == hpNumber
    ensures r.name == FinalName(hpNumber, originalQuery, businessName) && r.name != ""
    ensures r.status == "active" && r.businessType == "עוסק מורשה" && !r.hasVAT && r.vatNumber.None?
    ensures r.owners == Some([]) && r.strengths == Some([]) && r.additionalInfo == Some(MockNotice)
  {
    FinalNameNonEmpty(hpNumber, originalQuery, businessName);
    BusinessData(
      FinalName(hpNumber, originalQuery, businessName), hpNumber, "עוסק מורשה", "active",
      Some("2020-01-01"), Some("לא זמין"), Some(Address("לא זמין", "לא זמין", Some("0000000"))),
      Some([]), Some(["מידע מוגבל - נדרש חיבור למקורות ממשלתיים"]), Some([]),
      false, None, Some(MockNotice))
  }

  /**
   * `getMockBusinessData`: a query that trims to nine digits is the number;
   * any other query gets a random number (from `draw`).
   */
  function GetMockBusinessData(query: string, businessName: Option<string>, draw: nat): (r: BusinessData)
    requires draw < 900000
    ensures IsNineDigits(JsTrim(query)) ==> r.registrationNumber == JsTrim(query)
    ensures !IsNineDigits(JsTrim(query)) ==> r.registrationNumber == GenerateRandomHP(draw)
    ensures IsNineDigits(r.registrationNumber)
    ensures r.name == FinalName(r.registrationNumber, query, businessName) && r.name != ""
    ensures r.status == "active" && r.businessType == "עוסק מורשה" && !r.hasVAT && r.owners == Some([])
  {
    var hp := if IsNineDigits(JsTrim(query)) then JsTrim(query) else GenerateRandomHP(draw);
    GenerateMockBusinessByHP(hp, query, businessName)
  }

  /** A number typed with surrounding spaces keeps the number and takes the generic name. */
  lemma PaddedNumberQuery(hp: string)
    requires IsNineDigits(hp)
    ensures GetMockBusinessData(" " + hp + " ", None, 0).registrationNumber == hp
    ensures GetMockBusinessData(hp, None, 0).name == "עסק " + hp
  {
    assert IsDigit(hp[0]) && IsDigit(hp[8]);
    TrimPadded(hp, ' ', IsJsSpace);
  }

  // ------------------------------------------------------------ search

  /**
   * `searchBusiness`: placeholder data without a real key or when the
   * retried request fails; otherwise the mapped business, or nothing when
   * the service reports no success. `run` is how the retried request ended.
   */
  function SearchBusiness(
    key: string, query: string, run: Retry.Outcome<Option<RawBusiness>, CheckIdError>, draw: nat): (r: Option<BusinessData>)
    requires draw < 900000
    ensures !HasRealApiKey(key) ==> r == Some(GetMockBusinessData(query, None, draw))
    ensures HasRealApiKey(key) && !run.Returned? ==> r == Some(GetMockBusinessData(query, None, draw))
    ensures HasRealApiKey(key) && run.Returned? ==>
      r == (if run.value.Some? then Some(MapCheckIDResponse(run.value.value)) else None)
  {
    if !HasRealApiKey(key) then Some(GetMockBusinessData(query, None, draw))
    else match run
      case Returned(found) => if found.Some? then Some(MapCheckIDResponse(found.value)) else None
      case _ => Some(GetMockBusinessData(query, None, draw))
  }
}
