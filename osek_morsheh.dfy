/**
 * `lib/db/osek_morsheh.ts`: the store of individual dealers. A registration
 * number whose decimal rendering starts with 5 belongs to a company and is
 * refused; every other number is looked up in the store. The store is a map
 * from number to row; the upsert procedure of the database is an abstract
 * sink that receives the rows sent to it and may fail.
 */
module OsekMorsheh {
  import opened Wrappers
  import opened Text
  import opened Seqs

  datatype DealerType = Company | Licensed | Exempt

  /** The Hebrew labels the service returns. */
  function DealerLabel(t: DealerType): string
  {
    match t
    case Company => "חברה בע\"מ"
    case Licensed => "עוסק מורשה"
    case Exempt => "עוסק פטור"
  }

  datatype TaxStatus = TaxActive | TaxCancelled | TaxSuspended | TaxUnknown

  /** A stored dealer, reduced to the fields the service reads or writes. */
  datatype OsekRow = OsekRow(
    hpNumber: int, businessName: string, dealerType: DealerType, isVatRegistered: bool,
    taxStatus: TaxStatus, dataSource: string, city: Option<string>, businessType: Option<string>)

  // --------------------------------------------------------- the 5 rule

  /** `hpNumber.toString().charAt(0) === '5'`. */
  predicate StartsWithFive(hpNumber: int)
  {
    IntToString(hpNumber)[0] == '5'
  }

  /**
   * A non-negative number starts with 5 exactly when it lies in
   * [5·10^k, 6·10^k) for some k; a negative one never does.
   */
  lemma StartsWithFiveRange(n: int)
    ensures n < 0 ==> !StartsWithFive(n)
    ensures n >= 0 && StartsWithFive(n) ==> exists k: nat :: 5 * Pow10(k) <= n < 6 * Pow10(k)
    ensures n >= 0 && (exists k: nat :: 5 * Pow10(k) <= n < 6 * Pow10(k)) ==> StartsWithFive(n)
  {
    if n >= 0 {
      NatToStringFirst(n);
      if StartsWithFive(n) {
        assert LeadingDigit(n) == 5;
        var k := LeadingDigitBounds(n);
      }
      if exists k: nat :: 5 * Pow10(k) <= n < 6 * Pow10(k) {
        var k: nat :| 5 * Pow10(k) <= n < 6 * Pow10(k);
        BoundsGiveLeadingDigit(n, 5, k);
      }
    }
  }

  /** Nine-digit company numbers are those from 500000000 to 599999999. */
  lemma NineDigitCompanies(n: int)
    requires 100000000 <= n < 1000000000
    ensures StartsWithFive(n) <==> 500000000 <= n < 600000000
  {
    StartsWithFiveRange(n);
    assert Pow10(8) == 100000000 by {
      assert Pow10(1) == 10 && Pow10(2) == 100 && Pow10(3) == 1000 && Pow10(4) == 10000;
      assert Pow10(6) == 1000000;
    }
    if StartsWithFive(n) {
      var k: nat :| 5 * Pow10(k) <= n < 6 * Pow10(k);
      PowOrder(k, 8);
      PowOrder(8, k);
    } else {
      assert !(5 * Pow10(8) <= n < 6 * Pow10(8));
    }
  }

  /** Powers of ten grow with the exponent, by at least a factor of ten. */
  lemma {:induction false} PowOrder(i: nat, j: nat)
    ensures i < j ==> 10 * Pow10(i) <= Pow10(j)
  {
    if i < j {
      PowOrder(i, j - 1);
      if i < j - 1 {
        assert Pow10(j - 1) >= 10 * Pow10(i);
      }
    }
  }

  /** The error `validateHPNotFive` raises, or nothing. */
  function ValidateHPNotFive(hpNumber: int): (error: Option<string>)
    ensures error.Some? <==> StartsWithFive(hpNumber)
  {
    if StartsWithFive(hpNumber) then
      Some("Invalid HP number for עוסק מורשה: " + IntToString(hpNumber) + ". "
           + "HP numbers starting with 5 are חברות בע\"מ (companies).")
    else None
  }

  // ------------------------------------------------------------- store

  datatype Result<T> = Ok(value: T) | Failure(error: string)

  /** `getOsekMorsheh`: refused for company numbers, otherwise the stored row if any. */
  function GetOsekMorsheh(store: map<int, OsekRow>, hpNumber: int): (r: Result<Option<OsekRow>>)
    ensures r.Failure? <==> StartsWithFive(hpNumber)
    ensures r.Ok? ==> (r.value.Some? <==> hpNumber in store)
    ensures r.Ok? && r.value.Some? ==> r.value.value == store[hpNumber]
  {
    match ValidateHPNotFive(hpNumber)
    case Some(e) => Failure(e)
    case None => Ok(if hpNumber in store then Some(store[hpNumber]) else None)
  }

  /** `upsertOsekMorsheh`: refused for company numbers, otherwise the row goes to the sink. */
  function UpsertOsekMorsheh(sink: seq<OsekRow>, row: OsekRow): (r: Result<seq<OsekRow>>)
    ensures r.Failure? <==> StartsWithFive(row.hpNumber)
    ensures r.Ok? ==> r.value == sink + [row]
  {
    match ValidateHPNotFive(row.hpNumber)
    case Some(e) => Failure(e)
    case None => Ok(sink + [row])
  }

  // ----------------------------------------------------- classification

  datatype Classification = Classification(dealerType: DealerType, isVatRegistered: bool, requiresLookup: bool)

  /** `classifyByHPNumber`. */
  function ClassifyByHPNumber(hpNumber: int): (c: Classification)
    ensures c.isVatRegistered == !c.requiresLookup
    ensures StartsWithFive(hpNumber) <==> c.dealerType == Company
    ensures c.dealerType != Licensed
    ensures c.requiresLookup ==> c.dealerType == Exempt
  {
    if IntToString(hpNumber)[0] == '5' then Classification(Company, true, false)
    else Classification(Exempt, false, true)
  }

  datatype UnifiedVATStatus = UnifiedVATStatus(
    dealerType: DealerType, isVatRegistered: bool, taxStatus: TaxStatus,
    businessName: Option<string>, city: Option<string>, dataSource: string)

  /** `getUnifiedVATStatus`: the route by the first digit, then the store. */
  function GetUnifiedVATStatus(store: map<int, OsekRow>, hpNumber: int): (r: UnifiedVATStatus)
    ensures StartsWithFive(hpNumber) ==> r == UnifiedVATStatus(Company, true, TaxActive, None, None, "companies_registry")
    ensures !StartsWithFive(hpNumber) && hpNumber in store ==>
      var row := store[hpNumber];
      r == UnifiedVATStatus(row.dealerType, row.isVatRegistered, row.taxStatus, Some(row.businessName), row.city, row.dataSource)
    ensures !StartsWithFive(hpNumber) && hpNumber !in store ==>
      r == UnifiedVATStatus(Exempt, false, TaxUnknown, None, None, "inference")
  {
    var classification := ClassifyByHPNumber(hpNumber);
    if !classification.requiresLookup then
      UnifiedVATStatus(Company, true, TaxActive, None, None, "companies_registry")
    else
      match GetOsekMorsheh(store, hpNumber)
      case Ok(Some(osek)) =>
        UnifiedVATStatus(osek.dealerType, osek.isVatRegistered, osek.taxStatus, Some(osek.businessName),
                         osek.city, osek.dataSource)
      case _ => UnifiedVATStatus(Exempt, false, TaxUnknown, None, None, "inference")
  }

  /** The routing never reads the store for a company number. */
  lemma CompanyIgnoresStore(store: map<int, OsekRow>, other: map<int, OsekRow>, hpNumber: int)
    requires StartsWithFive(hpNumber)
    ensures GetUnifiedVATStatus(store, hpNumber) == GetUnifiedVATStatus(other, hpNumber)
  {
  }

  // ------------------------------------------------------- batch import

  /** One record to import; the two optional fields default. */
  datatype ImportRecord = ImportRecord(
    hpNumber: int, businessName: string, dealerType: Option<DealerType>, taxStatus: Option<TaxStatus>,
    city: Option<string>, businessType: Option<string>)

  /** The row sent to the sink for a record: exempt and active by default, registered iff licensed. */
  function RowFor(r: ImportRecord, dataSource: string): (row: OsekRow)
    ensures row.isVatRegistered <==> row.dealerType == Licensed
    ensures row.hpNumber == r.hpNumber && row.dataSource == dataSource
    ensures r.dealerType.None? ==> row.dealerType == Exempt
    ensures r.taxStatus.None? ==> row.taxStatus == TaxActive
  {
    var dealerType := r.dealerType.GetOr(Exempt);
    OsekRow(r.hpNumber, r.businessName, dealerType, dealerType == Licensed, r.taxStatus.GetOr(TaxActive),
            dataSource, r.city, r.businessType)
  }

  /** The rows the import sends to the sink: one per record whose number does not start with 5. */
  function Attempted(records: seq<ImportRecord>, dataSource: string): seq<OsekRow>
  {
    if records == [] then []
    else
      var init := Attempted(records[..|records| - 1], dataSource);
      var r := records[|records| - 1];
      if StartsWithFive(r.hpNumber) then init else init + [RowFor(r, dataSource)]
  }

  /** No company number ever reaches the sink. */
  lemma {:induction false} AttemptedNoCompany(records: seq<ImportRecord>, dataSource: string)
    ensures forall k :: 0 <= k < |Attempted(records, dataSource)| ==>
      !StartsWithFive(Attempted(records, dataSource)[k].hpNumber)
  {
    if records != [] {
      AttemptedNoCompany(records[..|records| - 1], dataSource);
    }
  }

  /** One more record adds its row exactly when its number does not start with 5. */
  lemma AttemptedStep(records: seq<ImportRecord>, i: nat, dataSource: string)
    requires i < |records|
    ensures Attempted(records[..i + 1], dataSource) ==
      if StartsWithFive(records[i].hpNumber) then Attempted(records[..i], dataSource)
      else Attempted(records[..i], dataSource) + [RowFor(records[i], dataSource)]
  {
    assert records[..i + 1][..i] == records[..i];
  }

  /** The rows the sink accepts: those of the attempted records for which it does not throw. */
  function Accepted(records: seq<ImportRecord>, sinkFails: seq<bool>, dataSource: string): seq<OsekRow>
    requires |sinkFails| == |records|
  {
    if records == [] then []
    else
      var n := |records| - 1;
      var init := Accepted(records[..n], sinkFails[..n], dataSource);
      if StartsWithFive(records[n].hpNumber) || sinkFails[n] then init else init + [RowFor(records[n], dataSource)]
  }

  /** One more record adds its row exactly when it is attempted and the sink takes it. */
  lemma AcceptedStep(records: seq<ImportRecord>, sinkFails: seq<bool>, i: nat, dataSource: string)
    requires |sinkFails| == |records| && i < |records|
    ensures Accepted(records[..i + 1], sinkFails[..i + 1], dataSource) ==
      if StartsWithFive(records[i].hpNumber) || sinkFails[i] then Accepted(records[..i], sinkFails[..i], dataSource)
      else Accepted(records[..i], sinkFails[..i], dataSource) + [RowFor(records[i], dataSource)]
  {
    assert records[..i + 1][..i] == records[..i];
    assert sinkFails[..i + 1][..i] == sinkFails[..i];
  }

  /** A sink that never throws accepts every attempted row, and the accepted rows are always among the attempted ones. */
  lemma {:induction false} AcceptedWithinAttempted(records: seq<ImportRecord>, sinkFails: seq<bool>, dataSource: string)
    requires |sinkFails| == |records|
    ensures multiset(Accepted(records, sinkFails, dataSource)) <= multiset(Attempted(records, dataSource))
    ensures (forall i :: 0 <= i < |sinkFails| ==> !sinkFails[i]) ==>
      Accepted(records, sinkFails, dataSource) == Attempted(records, dataSource)
  {
    if records != [] {
      var n := |records| - 1;
      AcceptedWithinAttempted(records[..n], sinkFails[..n], dataSource);
    }
  }

  /**
   * `batchImportOsek`. `sinkFails[i]` says whether the sink throws for the
   * i-th record; the rows it accepted are returned with the two counters.
   */
  method BatchImportOsek(records: seq<ImportRecord>, dataSource: string, sinkFails: seq<bool>)
    returns (inserted: nat, failed: nat, sent: seq<OsekRow>, stored: seq<OsekRow>)
    requires |sinkFails| == |records|
    ensures inserted + failed == |records|
    ensures sent == Attempted(records, dataSource)
    ensures stored == Accepted(records, sinkFails, dataSource)
    ensures inserted == |stored| <= |sent|
    ensures failed >= |records| - |sent|
    ensures forall k :: 0 <= k < |stored| ==> stored[k] in sent
  {
    inserted, failed := 0, 0;
    sent, stored := [], [];
    for i := 0 to |records|
      invariant inserted + failed == i
      invariant sent == Attempted(records[..i], dataSource)
      invariant stored == Accepted(records[..i], sinkFails[..i], dataSource)
      invariant inserted == |stored| <= |sent| <= i
      invariant failed >= i - |sent|
      invariant forall k :: 0 <= k < |stored| ==> stored[k] in sent
    {
      var record := records[i];
      AttemptedStep(records, i, dataSource);
      AcceptedStep(records, sinkFails, i, dataSource);
      if StartsWithFive(record.hpNumber) {
        failed := failed + 1;
        continue;
      }
      var row := RowFor(record, dataSource);
      sent := sent + [row];
      if sinkFails[i] {
        failed := failed + 1;
      } else {
        stored := stored + [row];
        inserted := inserted + 1;
      }
    }
    assert records[..|records|] == records;
    assert sinkFails[..|sinkFails|] == sinkFails;
  }
}
