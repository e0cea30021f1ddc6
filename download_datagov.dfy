/**
 * `scripts/download_osek_from_datagov.ts`: gathering licensed dealers from
 * the open-data portal data.gov.il. The dataset search, the downloads and
 * the CSV parser are inputs: a search answers datasets, a resource's
 * download-and-parse answers its records (each a map from column name to
 * text) or fails. The store is the set of registration numbers it already
 * holds, and each record's database work may throw; the clock is `now`.
 */
module DownloadDatagov {
  import opened Wrappers
  import opened Text
  import opened Seqs
  import OsekMorsheh

  // --------------------------------------------------------- parseInt

  /** The value of `c` as a digit of `radix` (10 or 16), if it is one. */
  function DigitIn(c: char, radix: nat): (d: Option<nat>)
    ensures d.Some? ==> d.value < radix
    ensures radix == 10 ==> (d.Some? <==> IsDigit(c))
    ensures radix == 10 && IsDigit(c) ==> d == Some(DigitValue(c))
  {
    if '0' <= c <= '9' && (c as int - '0' as int) < radix then Some(c as int - '0' as int)
    else if radix == 16 && 'a' <= c <= 'f' then Some(10 + (c as int - 'a' as int))
    else if radix == 16 && 'A' <= c <= 'F' then Some(10 + (c as int - 'A' as int))
    else None
  }

  /** How many characters at the front of `s` are digits of `radix`. */
  function LeadingRun(s: string, radix: nat): (n: nat)
    ensures n <= |s|
    ensures forall k :: 0 <= k < n ==> DigitIn(s[k], radix).Some?
    ensures n < |s| ==> DigitIn(s[n], radix).None?
  {
    if s == [] || DigitIn(s[0], radix).None? then 0 else 1 + LeadingRun(s[1..], radix)
  }

  /** The value of a run of digits of `radix`, most significant first. */
  function RunValue(s: string, radix: nat): nat
    requires forall k :: 0 <= k < |s| ==> DigitIn(s[k], radix).Some?
  {
    if s == [] then 0 else radix * RunValue(s[..|s| - 1], radix) + DigitIn(s[|s| - 1], radix).value
  }

  /**
   * `parseInt(s)` with no radix: leading white space and a sign are
   * skipped, `0x` or `0X` selects base 16, and the longest run of digits
   * that follows is read; absent (`NaN`) when there is none.
   */
  function ParseInt(s: string): Option<int>
  {
    ParseSigned(TrimStart(s, IsJsSpace))
  }

  /** `parseInt` once the leading white space is gone. */
  function ParseSigned(t: string): Option<int>
  {
    var negative := t != [] && t[0] == '-';
    var body := if t != [] && (t[0] == '-' || t[0] == '+') then t[1..] else t;
    var hex := |body| >= 2 && body[0] == '0' && (body[1] == 'x' || body[1] == 'X');
    var digits := if hex then body[2..] else body;
    var radix := if hex then 16 else 10;
    var n := LeadingRun(digits, radix);
    if n == 0 then None
    else
      var v: int := RunValue(digits[..n], radix);
      Some(if negative then -v else v)
  }

  /** On a string of decimal digits `parseInt` is the decimal value. */
  lemma ParseIntDigits(s: string)
    requires s != [] && AllDigits(s)
    ensures ParseInt(s) == Some(DigitsValue(s))
  {
    assert !IsJsSpace(s[0]);
    assert TrimStart(s, IsJsSpace) == s;
    assert LeadingRun(s, 10) == |s| by {
      LeadingRunAll(s, 10);
    }
    assert s[..|s|] == s;
    RunValueDecimal(s);
  }

  lemma {:induction false} LeadingRunAll(s: string, radix: nat)
    requires forall k :: 0 <= k < |s| ==> DigitIn(s[k], radix).Some?
    ensures LeadingRun(s, radix) == |s|
  {
    if s != [] {
      LeadingRunAll(s[1..], radix);
    }
  }

  lemma {:induction false} RunValueDecimal(s: string)
    requires AllDigits(s)
    ensures RunValue(s, 10) == DigitsValue(s)
  {
    if s != [] {
      RunValueDecimal(s[..|s| - 1]);
    }
  }

  /** parseInt reads an HP that starts with `0x` as hexadecimal. */
  lemma ParseIntHex(d: string)
    requires d != [] && forall k :: 0 <= k < |d| ==> DigitIn(d[k], 16).Some?
    ensures ParseInt("0x" + d) == Some(RunValue(d, 16))
  {
    var s := "0x" + d;
    assert s[0] == '0';
    assert !IsJsSpace('0');
    assert TrimStart(s, IsJsSpace) == s;
    SignedHex(d);
  }

  /** After the white space, `0x` and hexadecimal digits give their value. */
  lemma SignedHex(d: string)
    requires d != [] && forall k :: 0 <= k < |d| ==> DigitIn(d[k], 16).Some?
    ensures ParseSigned("0x" + d) == Some(RunValue(d, 16))
  {
    var s := "0x" + d;
    assert s[0] == '0' && s[1] == 'x' && s[2..] == d;
    LeadingRunAll(d, 16);
    assert d[..|d|] == d;
  }

  // ---------------------------------------------------- parseCSVForOsek

  /** A CSV row: the value of each column the file has. */
  type CsvRecord = map<string, string>

  /** `r[column]`: absent when the file has no such column. */
  function Get(r: CsvRecord, column: string): Option<string>
  {
    if column in r then Some(r[column]) else None
  }

  /** The number column read first: `r['מספר_עוסק'] || r['hp_number'] || r['מספר_תעודת_זהות'] || r['מספר_ח_פ']`. */
  function HpText(r: CsvRecord): Option<string>
  {
    Either(Get(r, "מספר_עוסק"), Either(Get(r, "hp_number"), Either(Get(r, "מספר_תעודת_זהות"), Get(r, "מספר_ח_פ"))))
  }

  /** The filter: a number that trims to nine characters and does not start with 5; the characters need not be digits. */
  predicate Keep(r: CsvRecord)
  {
    Truthy(HpText(r)) && |JsTrim(HpText(r).value)| == 9 && JsTrim(HpText(r).value)[0] != '5'
  }

  datatype OsekCandidate = OsekCandidate(
    hpNumber: Option<int>, businessName: string, dealerType: string, city: Option<string>, raw: CsvRecord)

  /** The name column: `r['שם_עסק'] || r['business_name'] || r['שם']`. */
  function NameText(r: CsvRecord): Option<string>
  {
    Either(Get(r, "שם_עסק"), Either(Get(r, "business_name"), Get(r, "שם")))
  }

  /** The dealer-type column: `r['סוג_עוסק'] || r['dealer_type']`. */
  function DealerText(r: CsvRecord): Option<string>
  {
    Either(Get(r, "סוג_עוסק"), Get(r, "dealer_type"))
  }

  /** The city column: `r['עיר'] || r['city'] || r['ישוב']`. */
  function CityText(r: CsvRecord): Option<string>
  {
    Either(Get(r, "עיר"), Either(Get(r, "city"), Get(r, "ישוב")))
  }

  /** The map: trimmed fields, the name defaulting to `Unknown` and the type to a licensed dealer. */
  function Candidate(r: CsvRecord): (c: OsekCandidate)
    requires Truthy(HpText(r))
    ensures c.raw == r
    ensures c.hpNumber == ParseInt(JsTrim(HpText(r).value))
    ensures Truthy(NameText(r)) ==> c.businessName == JsTrim(NameText(r).value)
    ensures !Truthy(NameText(r)) ==> c.businessName == "Unknown"
    ensures Truthy(DealerText(r)) ==> c.dealerType == JsTrim(DealerText(r).value)
    ensures !Truthy(DealerText(r)) ==> c.dealerType == "עוסק מורשה"
    ensures c.city.Some? <==> CityText(r).Some?
    ensures c.city.Some? ==> c.city.value == JsTrim(CityText(r).value)
  {
    // The defaults have no white space at either end, so trimming them is left out.
    var name := if Truthy(NameText(r)) then JsTrim(NameText(r).value) else "Unknown";
    var dealer := if Truthy(DealerText(r)) then JsTrim(DealerText(r).value) else "עוסק מורשה";
    var city := CityText(r);
    OsekCandidate(
      ParseInt(JsTrim(HpText(r).value)), name, dealer,
      if city.Some? then Some(JsTrim(city.value)) else None, r)
  }

  function Raws(cs: seq<OsekCandidate>): (rs: seq<CsvRecord>)
    ensures |rs| == |cs| && forall k :: 0 <= k < |cs| ==> rs[k] == cs[k].raw
  {
    seq(|cs|, k requires 0 <= k < |cs| => cs[k].raw)
  }

  /** The `map` step over records that all have a number. */
  function Candidates(kept: seq<CsvRecord>): (r: seq<OsekCandidate>)
    requires forall k :: 0 <= k < |kept| ==> Truthy(HpText(kept[k]))
    ensures Raws(r) == kept
    ensures forall k :: 0 <= k < |r| ==> r[k] == Candidate(kept[k])
  {
    var r := seq(|kept|, i requires 0 <= i < |kept| => Candidate(kept[i]));
    assert Raws(r) == kept;
    r
  }

  /**
   * `parseCSVForOsek` on the parsed records: the kept records, each mapped,
   * in their order in the file; none is lost and none is added.
   */
  function ParseCsvForOsek(records: seq<CsvRecord>): (r: seq<OsekCandidate>)
    ensures |r| <= |records|
    ensures forall k :: 0 <= k < |r| ==> Keep(r[k].raw) && r[k] == Candidate(r[k].raw)
    ensures Subsequence(Raws(r), records)
    ensures forall k :: 0 <= k < |records| && Keep(records[k]) ==> records[k] in Raws(r)
    ensures forall x :: multiset(Raws(r))[x] == if Keep(x) then multiset(records)[x] else 0
  {
    var kept := Filter(records, Keep);
    var r := Candidates(kept);
    FilterSubsequence(records, Keep);
    forall x
      ensures multiset(kept)[x] == if Keep(x) then multiset(records)[x] else 0
    {
      FilterMultiset(records, Keep, x);
    }
    r
  }

  /** A record whose number is nine digits not starting with 5 is kept, and its number is read as decimal. */
  lemma NineDigitNumberKept(r: CsvRecord, t: string)
    requires "מספר_עוסק" in r && r["מספר_עוסק"] == t
    requires IsNineDigits(t) && t[0] != '5'
    ensures Keep(r) && Candidate(r).hpNumber == Some(DigitsValue(t))
  {
    assert HpText(r) == Some(t);
    assert !IsJsSpace(t[0]) && !IsJsSpace(t[8]);
    TrimPadded(t, ' ', IsJsSpace);
    assert JsTrim(t) == t;
    ParseIntDigits(t);
    assert Candidate(r).hpNumber == ParseInt(t);
  }

  /** A non-empty first column names the number whatever the later ones say; an empty or missing one passes to the next. */
  lemma FirstColumnWins(r: CsvRecord)
    ensures Truthy(Get(r, "מספר_עוסק")) ==> HpText(r) == Some(r["מספר_עוסק"])
    ensures !Truthy(Get(r, "מספר_עוסק")) ==>
      HpText(r) == Either(Get(r, "hp_number"), Either(Get(r, "מספר_תעודת_זהות"), Get(r, "מספר_ח_פ")))
  {
  }

  /** Any nine characters pass the filter: a number with letters in it is kept. */
  lemma UncheckedCharactersKept(r: CsvRecord, t: string)
    requires "מספר_עוסק" in r && r["מספר_עוסק"] == t
    requires |t| == 9 && t[0] != '5' && !IsJsSpace(t[0]) && !IsJsSpace(t[8])
    ensures Keep(r)
  {
    assert HpText(r) == Some(t);
    TrimPadded(t, ' ', IsJsSpace);
    assert JsTrim(t) == t;
  }

  // ------------------------------------------------------ the datasets

  datatype Resource = Resource(id: string, name: string, url: string, format: string)

  datatype Dataset = Dataset(id: string, name: string, title: string, resources: seq<Resource>)

  function Ids(ds: seq<Dataset>): (ids: seq<string>)
    ensures |ids| == |ds| && forall k :: 0 <= k < |ds| ==> ids[k] == ds[k].id
  {
    seq(|ds|, k requires 0 <= k < |ds| => ds[k].id)
  }

  /** Where the entry with `id` sits, or `|m|`. */
  function IdIndex(m: seq<Dataset>, id: string): (i: nat)
    ensures i <= |m|
    ensures i < |m| ==> m[i].id == id
    ensures i == |m| ==> id !in Ids(m)
  {
    if m == [] then 0
    else if m[0].id == id then 0
    else
      var i := 1 + IdIndex(m[1..], id);
      assert Ids(m) == [m[0].id] + Ids(m[1..]);
      i
  }

  /** No entry before `IdIndex` has the id. */
  lemma {:induction false} IdIndexFirst(m: seq<Dataset>, id: string, k: nat)
    requires k < IdIndex(m, id)
    ensures m[k].id != id
  {
    if k > 0 {
      IdIndexFirst(m[1..], id, k - 1);
    }
  }

  /** `Map.prototype.set`: a known key keeps its place and takes the new value; a new key goes last. */
  function SetEntry(m: seq<Dataset>, d: Dataset): seq<Dataset>
  {
    var i := IdIndex(m, d.id);
    if i < |m| then m[i := d] else m + [d]
  }

  /** `Array.from(new Map(ds.map(d => [d.id, d])).values())`. */
  function UniqueDatasets(ds: seq<Dataset>): seq<Dataset>
  {
    if ds == [] then [] else SetEntry(UniqueDatasets(ds[..|ds| - 1]), ds[|ds| - 1])
  }

  /** `d` is in `ds` and no later dataset has its id. */
  predicate LastOfItsId(ds: seq<Dataset>, d: Dataset)
  {
    exists j :: 0 <= j < |ds| && ds[j] == d && forall m :: j < m < |ds| ==> ds[m].id != d.id
  }

  /** The ids of the datasets without repetition, in the order in which each first appears. */
  lemma {:induction false} UniqueDatasetsIds(ds: seq<Dataset>)
    ensures Ids(UniqueDatasets(ds)) == Dedup(Ids(ds))
  {
    if ds != [] {
      var init := ds[..|ds| - 1];
      var d := ds[|ds| - 1];
      UniqueDatasetsIds(init);
      SetEntryIds(UniqueDatasets(init), d);
      var s := Ids(ds);
      assert s[..|s| - 1] == Ids(init) && s[|s| - 1] == d.id;
      DedupSnoc(s);
    }
  }

  /** Setting an entry adds its id at the end when it is new, and leaves the ids alone otherwise. */
  lemma SetEntryIds(m: seq<Dataset>, d: Dataset)
    ensures Ids(SetEntry(m, d)) == if d.id in Ids(m) then Ids(m) else Ids(m) + [d.id]
  {
    var i := IdIndex(m, d.id);
    if i < |m| {
      assert Ids(m)[i] == d.id;
      assert Ids(m[i := d]) == Ids(m);
    } else {
      assert Ids(m + [d]) == Ids(m) + [d.id];
    }
  }

  /** Each kept dataset is the last one that carried its id. */
  lemma {:induction false} UniqueDatasetsLast(ds: seq<Dataset>)
    ensures forall k :: 0 <= k < |UniqueDatasets(ds)| ==> LastOfItsId(ds, UniqueDatasets(ds)[k])
  {
    if ds != [] {
      var init := ds[..|ds| - 1];
      var d := ds[|ds| - 1];
      assert ds == init + [d];
      var m := UniqueDatasets(init);
      UniqueDatasetsLast(init);
      UniqueDatasetsIds(init);
      var i := IdIndex(m, d.id);
      var out := SetEntry(m, d);
      forall k | 0 <= k < |out|
        ensures LastOfItsId(ds, out[k])
      {
        if k == i {
          LastIsLast(init, d);
        } else {
          LastCarried(init, d, m, i, k);
        }
      }
    }
  }

  lemma LastIsLast(init: seq<Dataset>, d: Dataset)
    ensures LastOfItsId(init + [d], d)
  {
    var ds := init + [d];
    assert ds[|init|] == d;
  }

  lemma LastCarried(init: seq<Dataset>, d: Dataset, m: seq<Dataset>, i: nat, k: nat)
    requires i == IdIndex(m, d.id) && k < |m| && k != i && Distinct(Ids(m))
    requires LastOfItsId(init, m[k])
    ensures LastOfItsId(init + [d], SetEntry(m, d)[k])
  {
    var ds := init + [d];
    var e := m[k];
    assert SetEntry(m, d)[k] == e;
    assert e.id != d.id by {
      if k < i {
        IdIndexFirst(m, d.id, k);
      } else if i < |m| {
        assert Ids(m)[i] != Ids(m)[k];
      }
    }
    var j :| 0 <= j < |init| && init[j] == e && forall n :: j < n < |init| ==> init[n].id != e.id;
    assert ds[j] == e;
    forall n | j < n < |ds|
      ensures ds[n].id != e.id
    {
      if n < |init| {
        assert ds[n] == init[n];
      }
    }
  }

  /** Ids are no longer repeated, and every id searched for is kept. */
  lemma UniqueDatasetsDistinct(ds: seq<Dataset>)
    ensures Distinct(Ids(UniqueDatasets(ds)))
    ensures forall k :: 0 <= k < |ds| ==> ds[k].id in Ids(UniqueDatasets(ds))
  {
    UniqueDatasetsIds(ds);
    assert forall k :: 0 <= k < |ds| ==> Ids(ds)[k] == ds[k].id;
  }

  /** `r.format.toLowerCase() === 'csv'`, for ASCII case. */
  predicate IsCsv(r: Resource)
  {
    ToLower(r.format) == "csv"
  }

  /** A resource is downloaded exactly when its format is `csv` in some mix of cases. */
  lemma CsvFormatIff(r: Resource)
    ensures IsCsv(r) <==>
      |r.format| == 3 && r.format[0] in "cC" && r.format[1] in "sS" && r.format[2] in "vV"
  {
    var f := r.format;
    if |f| == 3 {
      assert ToLower(f) == [LowerChar(f[0]), LowerChar(f[1]), LowerChar(f[2])];
    }
  }

  function CsvResources(rs: seq<Resource>): (r: seq<Resource>)
    ensures forall k :: 0 <= k < |r| ==> IsCsv(r[k]) && r[k] in rs
    ensures forall k :: 0 <= k < |rs| && IsCsv(rs[k]) ==> rs[k] in r
  {
    Filter(rs, IsCsv)
  }

  /** The records of some resources; `load` gives a resource's parsed CSV rows, absent when the download or the parse fails. */
  function FromResources(rs: seq<Resource>, load: Resource -> Option<seq<CsvRecord>>): seq<OsekCandidate>
  {
    if rs == [] then []
    else
      var last := rs[|rs| - 1];
      FromResources(rs[..|rs| - 1], load) + (if load(last).Some? then ParseCsvForOsek(load(last).value) else [])
  }

  /** The records of the CSV resources of some datasets, in order. */
  function Collected(ds: seq<Dataset>, load: Resource -> Option<seq<CsvRecord>>): seq<OsekCandidate>
  {
    if ds == [] then []
    else Collected(ds[..|ds| - 1], load) + FromResources(CsvResources(ds[|ds| - 1].resources), load)
  }

  /** Every collected record passed the filter. */
  lemma {:induction false} CollectedAreKept(ds: seq<Dataset>, load: Resource -> Option<seq<CsvRecord>>)
    ensures forall k :: 0 <= k < |Collected(ds, load)| ==> Keep(Collected(ds, load)[k].raw)
  {
    if ds != [] {
      CollectedAreKept(ds[..|ds| - 1], load);
      FromResourcesKept(CsvResources(ds[|ds| - 1].resources), load);
    }
  }

  lemma {:induction false} FromResourcesKept(rs: seq<Resource>, load: Resource -> Option<seq<CsvRecord>>)
    ensures forall k :: 0 <= k < |FromResources(rs, load)| ==> Keep(FromResources(rs, load)[k].raw)
  {
    if rs != [] {
      FromResourcesKept(rs[..|rs| - 1], load);
    }
  }

  /** The inner download loop: the resources in turn, a failed one skipped. */
  method LoadResources(csv: seq<Resource>, load: Resource -> Option<seq<CsvRecord>>) returns (records: seq<OsekCandidate>)
    ensures records == FromResources(csv, load)
  {
    records := [];
    var j := 0;
    while j < |csv|
      invariant 0 <= j <= |csv|
      invariant records == FromResources(csv[..j], load)
    {
      assert csv[..j + 1][..j] == csv[..j];
      var rows := load(csv[j]);
      if rows.Some? {
        records := records + ParseCsvForOsek(rows.value);
      }
      j := j + 1;
    }
    assert csv[..|csv|] == csv;
  }

  /** The download loop of `downloadOsekMorshehData`: every CSV resource of every dataset, in order. */
  method CollectRecords(datasets: seq<Dataset>, load: Resource -> Option<seq<CsvRecord>>)
    returns (allRecords: seq<OsekCandidate>)
    ensures allRecords == Collected(datasets, load)
  {
    allRecords := [];
    var i := 0;
    while i < |datasets|
      invariant 0 <= i <= |datasets|
      invariant allRecords == Collected(datasets[..i], load)
    {
      assert datasets[..i + 1][..i] == datasets[..i];
      var records := LoadResources(CsvResources(datasets[i].resources), load);
      allRecords := allRecords + records;
      i := i + 1;
    }
    assert datasets[..|datasets|] == datasets;
  }

  // -------------------------------------------------- importToDatabase

  /** What a record's database work does: it works, the existence query throws, or the upsert throws. */
  datatype DbFailure = NoFailure | QueryThrows | UpsertThrows

  datatype ImportRow = ImportRow(
    hpNumber: int, businessName: string, dealerType: string, isVatRegistered: bool, city: Option<string>,
    dataSource: string, verificationStatus: string, lastVerifiedAt: string)

  datatype ImportStats = ImportStats(imported: nat, skipped: nat, errors: nat)

  /** The numbers of some rows. */
  function RowNumbers(rows: seq<ImportRow>): set<int>
  {
    set k | 0 <= k < |rows| :: rows[k].hpNumber
  }

  /** How one record ends: an error, skipped as already stored, or imported. */
  datatype Outcome = Errored | Skipped | Imported

  /**
   * The branch a record takes, given the numbers `known` to be stored by
   * then: a thrown query or a `NaN` number is an error, a known number is
   * skipped, and the upsert is an error when `validateHPNotFive` refuses the
   * number (its decimal text starts with 5) or its query throws.
   */
  function OutcomeOf(record: OsekCandidate, failure: DbFailure, known: set<int>): (o: Outcome)
    ensures o == Imported <==>
      failure.NoFailure? && record.hpNumber.Some? && record.hpNumber.value !in known
      && !OsekMorsheh.StartsWithFive(record.hpNumber.value)
    ensures o == Skipped <==> !failure.QueryThrows? && record.hpNumber.Some? && record.hpNumber.value in known
  {
    if failure.QueryThrows? || record.hpNumber.None? then Errored
    else if record.hpNumber.value in known then Skipped
    else if OsekMorsheh.ValidateHPNotFive(record.hpNumber.value).Some? || failure.UpsertThrows? then Errored
    else Imported
  }

  /** The row upserted for a record: always VAT-registered, from data.gov.il, pending verification. */
  function RowOf(record: OsekCandidate, now: string): (row: ImportRow)
    requires record.hpNumber.Some?
  {
    ImportRow(
      record.hpNumber.value, record.businessName, record.dealerType, true, record.city,
      "data.gov.il", "pending", now)
  }

  /** The rows upserted for the records, in order. */
  function ImportedRows(records: seq<OsekCandidate>, store: set<int>, failures: seq<DbFailure>, now: string): seq<ImportRow>
    requires |failures| == |records|
  {
    if records == [] then []
    else
      var n := |records| - 1;
      var init := ImportedRows(records[..n], store, failures[..n], now);
      if OutcomeOf(records[n], failures[n], store + RowNumbers(init)) == Imported then init + [RowOf(records[n], now)]
      else init
  }

  /** The counters of `stats` after the records. */
  function Tally(records: seq<OsekCandidate>, store: set<int>, failures: seq<DbFailure>, now: string): ImportStats
    requires |failures| == |records|
  {
    if records == [] then ImportStats(0, 0, 0)
    else
      var n := |records| - 1;
      var t := Tally(records[..n], store, failures[..n], now);
      Counted(t, OutcomeOf(records[n], failures[n], store + RowNumbers(ImportedRows(records[..n], store, failures[..n], now))))
  }

  /** The counters after one more record whose outcome is `o`. */
  function Counted(t: ImportStats, o: Outcome): (c: ImportStats)
    ensures c.imported + c.skipped + c.errors == t.imported + t.skipped + t.errors + 1
  {
    match o
    case Errored => t.(errors := t.errors + 1)
    case Skipped => t.(skipped := t.skipped + 1)
    case Imported => t.(imported := t.imported + 1)
  }

  /** One more record: its outcome `o` decides which counter grows and whether its row is added. */
  lemma ImportStep(records: seq<OsekCandidate>, store: set<int>, failures: seq<DbFailure>, now: string, i: nat)
    returns (o: Outcome)
    requires |failures| == |records| && i < |records|
    ensures o == OutcomeOf(records[i], failures[i], store + RowNumbers(ImportedRows(records[..i], store, failures[..i], now)))
    ensures ImportedRows(records[..i + 1], store, failures[..i + 1], now)
      == if o == Imported then ImportedRows(records[..i], store, failures[..i], now) + [RowOf(records[i], now)]
         else ImportedRows(records[..i], store, failures[..i], now)
    ensures Tally(records[..i + 1], store, failures[..i + 1], now) == Counted(Tally(records[..i], store, failures[..i], now), o)
  {
    assert records[..i + 1][..i] == records[..i];
    assert failures[..i + 1][..i] == failures[..i];
    o := OutcomeOf(records[i], failures[i], store + RowNumbers(ImportedRows(records[..i], store, failures[..i], now)));
  }

  /**
   * Each upserted row is the row of a record that reached the upsert with a
   * number not stored before; `idx` names those records, in increasing order.
   */
  lemma {:induction false} ImportedRowsFromRecords(records: seq<OsekCandidate>, store: set<int>, failures: seq<DbFailure>, now: string)
    returns (idx: seq<int>)
    requires |failures| == |records|
    ensures var rows := ImportedRows(records, store, failures, now);
      && |idx| == |rows|
      && (forall k :: 0 <= k < |idx| ==> ReachedUpsert(records, store, failures, idx[k]) && rows[k] == RowOf(records[idx[k]], now))
      && (forall k, j :: 0 <= k < j < |idx| ==> idx[k] < idx[j])
  {
    if records == [] {
      idx := [];
    } else {
      var n := |records| - 1;
      var init := ImportedRows(records[..n], store, failures[..n], now);
      var prev := ImportedRowsFromRecords(records[..n], store, failures[..n], now);
      var rows := ImportedRows(records, store, failures, now);
      var imported := OutcomeOf(records[n], failures[n], store + RowNumbers(init)) == Imported;
      assert rows == if imported then init + [RowOf(records[n], now)] else init;
      forall k | 0 <= k < |prev|
        ensures ReachedUpsert(records, store, failures, prev[k]) && prev[k] < n
        ensures rows[k] == RowOf(records[prev[k]], now)
      {
        ReachedInPrefix(records, store, failures, n, prev[k]);
      }
      idx := if imported then prev + [n] else prev;
    }
  }

  /** A record of a prefix that reached the upsert reached it in the whole run too. */
  lemma ReachedInPrefix(records: seq<OsekCandidate>, store: set<int>, failures: seq<DbFailure>, n: nat, i: int)
    requires |failures| == |records| && n <= |records|
    requires ReachedUpsert(records[..n], store, failures[..n], i)
    ensures ReachedUpsert(records, store, failures, i) && i < n && records[..n][i] == records[i]
  {
  }

  /** Record `i` got through the upsert, with a number not stored before the import and not starting with 5. */
  predicate ReachedUpsert(records: seq<OsekCandidate>, store: set<int>, failures: seq<DbFailure>, i: int)
    requires |failures| == |records|
  {
    0 <= i < |records| && failures[i].NoFailure? && records[i].hpNumber.Some? && records[i].hpNumber.value !in store
    && !OsekMorsheh.StartsWithFive(records[i].hpNumber.value)
  }

  /** Every record is counted once, and `imported` counts the upserted rows. */
  lemma {:induction false} TallyTotal(records: seq<OsekCandidate>, store: set<int>, failures: seq<DbFailure>, now: string)
    requires |failures| == |records|
    ensures var t := Tally(records, store, failures, now);
      t.imported + t.skipped + t.errors == |records| && t.imported == |ImportedRows(records, store, failures, now)|
  {
    if records != [] {
      var n := |records| - 1;
      TallyTotal(records[..n], store, failures[..n], now);
    }
  }

  /** The number of a row just added is one of the rows' numbers. */
  lemma RowNumbersSnoc(rows: seq<ImportRow>, row: ImportRow)
    ensures RowNumbers(rows + [row]) == RowNumbers(rows) + {row.hpNumber}
  {
    assert forall k :: 0 <= k < |rows| ==> (rows + [row])[k] == rows[k];
    assert (rows + [row])[|rows|] == row;
    assert forall k :: 0 <= k < |rows| ==> rows[k].hpNumber in RowNumbers(rows);
  }

  /** No two rows carry the same number. */
  predicate DistinctNumbers(rows: seq<ImportRow>)
  {
    forall k, j :: 0 <= k < j < |rows| ==> rows[k].hpNumber != rows[j].hpNumber
  }

  /** Every row is the row of a record that got through the upsert. */
  ghost predicate FromReachedRecords(records: seq<OsekCandidate>, store: set<int>, failures: seq<DbFailure>, now: string, rows: seq<ImportRow>)
    requires |failures| == |records|
  {
    forall k :: 0 <= k < |rows| ==> exists i :: ReachedUpsert(records, store, failures, i) && rows[k] == RowOf(records[i], now)
  }

  /** Every record whose database work goes through and whose number the upsert accepts has its number stored. */
  predicate AcceptedStored(records: seq<OsekCandidate>, store: set<int>, failures: seq<DbFailure>, rows: seq<ImportRow>)
    requires |failures| == |records|
  {
    forall i :: 0 <= i < |records| && failures[i].NoFailure? && records[i].hpNumber.Some?
                && !OsekMorsheh.StartsWithFive(records[i].hpNumber.value) ==>
      records[i].hpNumber.value in store + RowNumbers(rows)
  }

  /** No row carries a number whose decimal text starts with 5. */
  predicate NoCompanyNumbers(rows: seq<ImportRow>)
  {
    forall k :: 0 <= k < |rows| ==> !OsekMorsheh.StartsWithFive(rows[k].hpNumber)
  }

  /** No number is upserted twice. */
  lemma {:induction false} ImportedRowsDistinct(records: seq<OsekCandidate>, store: set<int>, failures: seq<DbFailure>, now: string)
    requires |failures| == |records|
    ensures DistinctNumbers(ImportedRows(records, store, failures, now))
  {
    if records != [] {
      var n := |records| - 1;
      var init := ImportedRows(records[..n], store, failures[..n], now);
      ImportedRowsDistinct(records[..n], store, failures[..n], now);
      var all := ImportedRows(records, store, failures, now);
      if all != init {
        var row := RowOf(records[n], now);
        assert all == init + [row];
        assert row.hpNumber !in RowNumbers(init);
        forall k, j | 0 <= k < j < |all|
          ensures all[k].hpNumber != all[j].hpNumber
        {
          assert all[k] == init[k];
          if j == |init| {
            assert all[j] == row;
            assert init[k].hpNumber in RowNumbers(init);
            assert all[k].hpNumber == init[k].hpNumber;
          } else {
            assert all[j] == init[j];
          }
        }
      }
    }
  }

  /** Every record whose database work does not fail and whose number the upsert accepts ends with its number stored. */
  lemma {:induction false} ImportedRowsComplete(records: seq<OsekCandidate>, store: set<int>, failures: seq<DbFailure>, now: string)
    requires |failures| == |records|
    ensures forall i :: 0 <= i < |records| && failures[i].NoFailure? && records[i].hpNumber.Some?
                        && !OsekMorsheh.StartsWithFive(records[i].hpNumber.value) ==>
      records[i].hpNumber.value in store + RowNumbers(ImportedRows(records, store, failures, now))
  {
    if records != [] {
      var n := |records| - 1;
      var init := ImportedRows(records[..n], store, failures[..n], now);
      ImportedRowsComplete(records[..n], store, failures[..n], now);
      var all := ImportedRows(records, store, failures, now);
      var imported := OutcomeOf(records[n], failures[n], store + RowNumbers(init)) == Imported;
      assert all == if imported then init + [RowOf(records[n], now)] else init;
      assert RowNumbers(init) <= RowNumbers(all) by {
        if imported {
          RowNumbersSnoc(init, RowOf(records[n], now));
        }
      }
      assert failures[n].NoFailure? && records[n].hpNumber.Some? && !OsekMorsheh.StartsWithFive(records[n].hpNumber.value)
             ==> records[n].hpNumber.value in store + RowNumbers(all) by {
        if imported {
          RowNumbersSnoc(init, RowOf(records[n], now));
        }
      }
      forall i | 0 <= i < n && failures[i].NoFailure? && records[i].hpNumber.Some?
                 && !OsekMorsheh.StartsWithFive(records[i].hpNumber.value)
        ensures records[i].hpNumber.value in store + RowNumbers(all)
      {
        assert records[i] == records[..n][i] && failures[i] == failures[..n][i];
      }
    }
  }

  /**
   * `importToDatabase`: `store` holds the numbers already saved and
   * `failures[i]` says how the i-th record's database work goes. A record
   * whose number is `NaN` is refused by the query. The `inserted` rows are
   * the upserts that succeeded, in order.
   */
  method ImportToDatabase(records: seq<OsekCandidate>, store: set<int>, failures: seq<DbFailure>, now: string)
    returns (stats: ImportStats, inserted: seq<ImportRow>)
    requires |failures| == |records|
    ensures inserted == ImportedRows(records, store, failures, now)
    ensures stats == Tally(records, store, failures, now)
    ensures stats.imported + stats.skipped + stats.errors == |records|
    ensures stats.imported == |inserted|
    ensures FromReachedRecords(records, store, failures, now, inserted)
    ensures DistinctNumbers(inserted)
    ensures AcceptedStored(records, store, failures, inserted)
    ensures NoCompanyNumbers(inserted)
  {
    stats := ImportStats(0, 0, 0);
    inserted := [];
    var i := 0;
    while i < |records|
      invariant 0 <= i <= |records|
      invariant inserted == ImportedRows(records[..i], store, failures[..i], now)
      invariant stats == Tally(records[..i], store, failures[..i], now)
    {
      var record := records[i];
      var outcome := OutcomeOf(record, failures[i], store + RowNumbers(inserted));
      ghost var o := ImportStep(records, store, failures, now, i);
      assert o == outcome;
      match outcome {
        case Errored =>
          stats := stats.(errors := stats.errors + 1);
        case Skipped =>
          stats := stats.(skipped := stats.skipped + 1);
        case Imported =>
          inserted := inserted + [RowOf(record, now)];
          stats := stats.(imported := stats.imported + 1);
      }
      i := i + 1;
    }
    ImportFinished(records, store, failures, now, stats, inserted);
  }

  /** The state `ImportToDatabase` ends in, once every record has been handled, has all its promised properties. */
  lemma ImportFinished(records: seq<OsekCandidate>, store: set<int>, failures: seq<DbFailure>, now: string,
                       stats: ImportStats, inserted: seq<ImportRow>)
    requires |failures| == |records|
    requires inserted == ImportedRows(records[..|records|], store, failures[..|records|], now)
    requires stats == Tally(records[..|records|], store, failures[..|records|], now)
    ensures inserted == ImportedRows(records, store, failures, now)
    ensures stats == Tally(records, store, failures, now)
    ensures stats.imported + stats.skipped + stats.errors == |records|
    ensures stats.imported == |inserted|
    ensures FromReachedRecords(records, store, failures, now, inserted)
    ensures DistinctNumbers(inserted)
    ensures AcceptedStored(records, store, failures, inserted)
    ensures NoCompanyNumbers(inserted)
  {
    assert records[..|records|] == records;
    assert failures[..|records|] == failures;
    TallyTotal(records, store, failures, now);
    ImportedRowsFacts(records, store, failures, now, inserted);
  }

  /** What `ImportToDatabase` promises about the rows it upserts, stated on `ImportedRows`. */
  lemma ImportedRowsFacts(records: seq<OsekCandidate>, store: set<int>, failures: seq<DbFailure>, now: string, inserted: seq<ImportRow>)
    requires |failures| == |records|
    requires inserted == ImportedRows(records, store, failures, now)
    ensures FromReachedRecords(records, store, failures, now, inserted)
    ensures DistinctNumbers(inserted)
    ensures AcceptedStored(records, store, failures, inserted)
    ensures NoCompanyNumbers(inserted)
  {
    var idx := ImportedRowsFromRecords(records, store, failures, now);
    assert forall k :: 0 <= k < |inserted| ==> ReachedUpsert(records, store, failures, idx[k]) && inserted[k] == RowOf(records[idx[k]], now);
    ImportedRowsDistinct(records, store, failures, now);
    ImportedRowsComplete(records, store, failures, now);
    ImportedRowsNoCompany(records, store, failures, now);
  }

  /** No upserted row carries a number whose decimal text starts with 5. */
  lemma ImportedRowsNoCompany(records: seq<OsekCandidate>, store: set<int>, failures: seq<DbFailure>, now: string)
    requires |failures| == |records|
    ensures forall k :: 0 <= k < |ImportedRows(records, store, failures, now)| ==>
      !OsekMorsheh.StartsWithFive(ImportedRows(records, store, failures, now)[k].hpNumber)
  {
    var idx := ImportedRowsFromRecords(records, store, failures, now);
  }

  // ------------------------------------------ the leading-zero refusal

  /** A string of digits with zeros in front has the value of the digits. */
  lemma {:induction false} LeadingZeroValue(d: string)
    requires AllDigits(d)
    ensures AllDigits("0" + d) && DigitsValue("0" + d) == DigitsValue(d)
  {
    if d != [] {
      var n := |d| - 1;
      LeadingZeroValue(d[..n]);
      assert ("0" + d)[..|"0" + d| - 1] == "0" + d[..n];
    }
  }

  /** A string of digits lies between its first digit and the next one, times the power of its other places. */
  lemma {:induction false} DigitsValueBounds(s: string)
    requires s != [] && AllDigits(s)
    ensures DigitValue(s[0]) * Pow10(|s| - 1) <= DigitsValue(s) < (DigitValue(s[0]) + 1) * Pow10(|s| - 1)
  {
    if |s| > 1 {
      var p := s[..|s| - 1];
      DigitsValueBounds(p);
      assert p[0] == s[0];
      ScaleBounds(DigitValue(s[0]), DigitsValue(p), Pow10(|p| - 1), DigitValue(s[|s| - 1]));
    }
  }

  /** A value between f·q and (f+1)·q, shifted one decimal place and given a last digit, lies between f·10q and (f+1)·10q. */
  lemma ScaleBounds(f: nat, w: nat, q: nat, c: nat)
    requires f * q <= w < (f + 1) * q && c < 10
    ensures f * (10 * q) <= 10 * w + c < (f + 1) * (10 * q)
  {
    assert f * (10 * q) == 10 * (f * q);
    assert (f + 1) * (10 * q) == 10 * ((f + 1) * q);
  }

  /** Eight digits starting with 5 make a number whose decimal text starts with 5. */
  lemma EightDigitsFromFive(d: string)
    requires |d| == 8 && AllDigits(d) && d[0] == '5'
    ensures OsekMorsheh.StartsWithFive(DigitsValue(d))
  {
    DigitsValueBounds(d);
    assert Pow10(7) == 10000000 by {
      assert Pow10(1) == 10 && Pow10(2) == 100 && Pow10(3) == 1000;
    }
    OsekMorsheh.StartsWithFiveRange(DigitsValue(d));
    assert 5 * Pow10(7) <= DigitsValue(d) < 6 * Pow10(7);
  }

  /** `0` and eight digits is its own trim, and `parseInt` reads it as the value of the eight digits. */
  lemma ZeroPaddedParse(d: string)
    requires |d| == 8 && AllDigits(d)
    ensures JsTrim("0" + d) == "0" + d
    ensures ParseInt("0" + d) == Some(DigitsValue(d))
  {
    var t := "0" + d;
    DigitsUntrimmed(t);
    LeadingZeroValue(d);
    ParseIntDigits(t);
  }

  /** A string of digits has no white space to trim. */
  lemma DigitsUntrimmed(t: string)
    requires t != [] && AllDigits(t)
    ensures JsTrim(t) == t
  {
    assert IsDigit(t[0]) && IsDigit(t[|t| - 1]);
    assert !IsJsSpace(t[0]) && !IsJsSpace(t[|t| - 1]);
  }

  /**
   * The number text `0` followed by eight digits starting with 5 passes the
   * filter, as a nine-character text not starting with 5; `parseInt` drops
   * the zero, and `validateHPNotFive` then refuses the number as a
   * company's, so even with working database work the record is an error.
   * Checked on the text instead, the same record is imported.
   */
  lemma LeadingZeroRefused(r: CsvRecord, d: string, known: set<int>)
    requires |d| == 8 && AllDigits(d) && d[0] == '5'
    requires HpText(r) == Some("0" + d) && DigitsValue(d) !in known
    ensures Keep(r)
    ensures Candidate(r).hpNumber == Some(DigitsValue(d))
    ensures OutcomeOf(Candidate(r), NoFailure, known) == Errored
    ensures OutcomeOnText(Candidate(r), NoFailure, known) == Imported
  {
    ZeroPaddedParse(d);
    EightDigitsFromFive(d);
    assert KeptText(Candidate(r)) == "0" + d;
  }

  /** The number text a record was kept for, as `parseCSVForOsek` read it. */
  function KeptText(record: OsekCandidate): string
  {
    var text := HpText(record.raw);
    if text.Some? then JsTrim(text.value) else ""
  }

  /**
   * `OutcomeOf` with the company check of `validateHPNotFive` made on the
   * kept nine-character text instead of the parsed number.
   */
  function OutcomeOnText(record: OsekCandidate, failure: DbFailure, known: set<int>): (o: Outcome)
    ensures o == Imported <==>
      failure.NoFailure? && record.hpNumber.Some? && record.hpNumber.value !in known
      && !(KeptText(record) != [] && KeptText(record)[0] == '5')
  {
    if failure.QueryThrows? || record.hpNumber.None? then Errored
    else if record.hpNumber.value in known then Skipped
    else if (KeptText(record) != [] && KeptText(record)[0] == '5') || failure.UpsertThrows? then Errored
    else Imported
  }

  /** With the check on the text, the upsert never refuses a record the filter kept. */
  lemma KeptNeverRefusedOnText(records: seq<CsvRecord>, k: nat, known: set<int>)
    requires k < |ParseCsvForOsek(records)|
    requires ParseCsvForOsek(records)[k].hpNumber.Some? && ParseCsvForOsek(records)[k].hpNumber.value !in known
    ensures OutcomeOnText(ParseCsvForOsek(records)[k], NoFailure, known) == Imported
  {
  }
}
