/**
 * `lib/scrapers/ica_owners.ts`: the shareholders and directors of a company
 * as the Israeli Companies Authority's search answers them, and the two
 * ownership signals drawn from them. The HTTP exchange is an input: what
 * it answered, with the body already decoded; the clock is the parameter
 * `now`, and the date parser of `calculateCompanyAge` is a parameter.
 */
module IcaOwners {
  import opened Wrappers

  /** One entry of `Shareholders` or `Directors`; `sharePercentage` is `parseFloat`'s result, absent for `NaN`. */
  datatype RawPerson = RawPerson(name: Option<string>, idNumber: Option<string>, sharePercentage: Option<real>)

  /** The fields of the decoded answer; a list that is missing or not an array is `None`. */
  datatype RawCompany = RawCompany(
    corpName: Option<string>, shareholders: Option<seq<RawPerson>>, directors: Option<seq<RawPerson>>,
    registrationDate: Option<string>, status: Option<string>)

  /** How the request ended: it threw (no answer, or a body that is not JSON), or an answer and its decoded body (absent for `null`). */
  datatype IcaReply = Threw | Answered(ok: bool, data: Option<RawCompany>)

  datatype IcaOwner = IcaOwner(name: string, idNumber: Option<string>, ownership: Option<real>, role: Option<string>)

  datatype IcaCompanyData = IcaCompanyData(
    hpNumber: string, companyName: string, owners: seq<IcaOwner>, directors: seq<IcaOwner>,
    registrationDate: Option<string>, status: Option<string>, lastUpdated: string)

  /** `parseFloat(...) || undefined`: a zero share, like `NaN`, is dropped. */
  function Ownership(share: Option<real>): (r: Option<real>)
    ensures r.Some? <==> share.Some? && share.value != 0.0
    ensures r.Some? ==> r == share
  {
    if share.Some? && share.value != 0.0 then share else None
  }

  /** The owners read from a shareholder list; none when it is not an array. */
  function OwnersOf(list: Option<seq<RawPerson>>): seq<IcaOwner>
  {
    if list.None? then []
    else
      var people := list.value;
      seq(|people|, k requires 0 <= k < |people| =>
        IcaOwner(OrElse(people[k].name, "Unknown"), people[k].idNumber, Ownership(people[k].sharePercentage), Some("owner")))
  }

  /** The directors read from a director list; none when it is not an array. */
  function DirectorsOf(list: Option<seq<RawPerson>>): seq<IcaOwner>
  {
    if list.None? then []
    else
      var people := list.value;
      seq(|people|, k requires 0 <= k < |people| =>
        IcaOwner(OrElse(people[k].name, "Unknown"), people[k].idNumber, None, Some("director")))
  }

  /** `for (const shareholder of data.Shareholders) owners.push(...)`, with nothing pushed when the list is not an array. */
  method ParseOwners(list: Option<seq<RawPerson>>) returns (owners: seq<IcaOwner>)
    ensures list.None? ==> owners == []
    ensures list.Some? ==> |owners| == |list.value|
    ensures list.Some? ==> forall k :: 0 <= k < |owners| ==>
      && owners[k].name == OrElse(list.value[k].name, "Unknown")
      && owners[k].idNumber == list.value[k].idNumber
      && owners[k].ownership == Ownership(list.value[k].sharePercentage)
      && owners[k].role == Some("owner")
    ensures owners == OwnersOf(list)
  {
    owners := [];
    if list.Some? {
      var people := list.value;
      var i := 0;
      while i < |people|
        invariant 0 <= i <= |people| && |owners| == i
        invariant forall k :: 0 <= k < i ==>
          && owners[k].name == OrElse(people[k].name, "Unknown")
          && owners[k].idNumber == people[k].idNumber
          && owners[k].ownership == Ownership(people[k].sharePercentage)
          && owners[k].role == Some("owner")
      {
        var p := people[i];
        owners := owners + [IcaOwner(OrElse(p.name, "Unknown"), p.idNumber, Ownership(p.sharePercentage), Some("owner"))];
        i := i + 1;
      }
    }
  }

  /** The same for `data.Directors`: no share, role `director`. */
  method ParseDirectors(list: Option<seq<RawPerson>>) returns (directors: seq<IcaOwner>)
    ensures list.None? ==> directors == []
    ensures list.Some? ==> |directors| == |list.value|
    ensures list.Some? ==> forall k :: 0 <= k < |directors| ==>
      && directors[k].name == OrElse(list.value[k].name, "Unknown")
      && directors[k].idNumber == list.value[k].idNumber
      && directors[k].ownership.None?
      && directors[k].role == Some("director")
    ensures directors == DirectorsOf(list)
  {
    directors := [];
    if list.Some? {
      var people := list.value;
      var i := 0;
      while i < |people|
        invariant 0 <= i <= |people| && |directors| == i
        invariant forall k :: 0 <= k < i ==>
          && directors[k].name == OrElse(people[k].name, "Unknown")
          && directors[k].idNumber == people[k].idNumber
          && directors[k].ownership.None?
          && directors[k].role == Some("director")
      {
        var p := people[i];
        directors := directors + [IcaOwner(OrElse(p.name, "Unknown"), p.idNumber, None, Some("director"))];
        i := i + 1;
      }
    }
  }

  /** `fetchICAOwners`: nothing on a failure, an error status or an answer without a company name. */
  method FetchIcaOwners(hpNumber: string, reply: IcaReply, now: string) returns (r: Option<IcaCompanyData>)
    ensures r.None? <==> reply.Threw? || !reply.ok || reply.data.None? || !Truthy(reply.data.value.corpName)
    ensures r.Some? ==>
      var data := reply.data.value;
      && r.value.hpNumber == hpNumber && r.value.companyName == data.corpName.value
      && r.value.registrationDate == data.registrationDate && r.value.status == data.status
      && r.value.lastUpdated == now
      && |r.value.owners| == (if data.shareholders.Some? then |data.shareholders.value| else 0)
      && |r.value.directors| == (if data.directors.Some? then |data.directors.value| else 0)
      && (forall k :: 0 <= k < |r.value.owners| ==> r.value.owners[k].role == Some("owner"))
      && (forall k :: 0 <= k < |r.value.directors| ==> r.value.directors[k].role == Some("director"))
      && r.value.owners == OwnersOf(data.shareholders) && r.value.directors == DirectorsOf(data.directors)
  {
    if reply.Threw? || !reply.ok {
      return None;
    }
    if reply.data.None? || !Truthy(reply.data.value.corpName) {
      return None;
    }
    var data := reply.data.value;
    var owners := ParseOwners(data.shareholders);
    var directors := ParseDirectors(data.directors);
    r := Some(IcaCompanyData(hpNumber, data.corpName.value, owners, directors, data.registrationDate, data.status, now));
  }

  /** `hasSingleOwner`: exactly one shareholder (a higher-risk sign). */
  predicate HasSingleOwner(icaData: Option<IcaCompanyData>)
  {
    icaData.Some? && |icaData.value.owners| == 1
  }

  /**
   * Every listed shareholder becomes an owner, nameless or without a share,
   * so a fetched company has a single owner exactly when one shareholder is listed.
   */
  lemma SingleOwnerIffOneShareholder(c: IcaCompanyData, shareholders: Option<seq<RawPerson>>)
    requires c.owners == OwnersOf(shareholders)
    ensures HasSingleOwner(Some(c)) <==> shareholders.Some? && |shareholders.value| == 1
    ensures HasSingleOwner(Some(c)) ==> c.owners[0].role == Some("owner")
  {
  }

  /** The names given in a list of people. */
  function Names(people: seq<IcaOwner>): (r: set<string>)
    ensures forall k :: 0 <= k < |people| ==> people[k].name in r
    ensures forall n :: n in r ==> exists k :: 0 <= k < |people| && people[k].name == n
  {
    set k | 0 <= k < |people| :: people[k].name
  }

  /** Some name appears in both lists. */
  predicate SharedName(a: seq<IcaOwner>, b: seq<IcaOwner>)
  {
    Names(a) * Names(b) != {}
  }

  /** Sharing a name does not depend on which list is the owners'. */
  lemma SharedNameSymmetric(a: seq<IcaOwner>, b: seq<IcaOwner>)
    ensures SharedName(a, b) <==> SharedName(b, a)
  {
    assert Names(a) * Names(b) == Names(b) * Names(a);
  }

  /** A shareholder and a director with the same name share it. */
  lemma SharedNameWitness(a: seq<IcaOwner>, b: seq<IcaOwner>, i: nat, j: nat)
    requires i < |a| && j < |b| && a[i].name == b[j].name
    ensures SharedName(a, b)
  {
    assert a[i].name in Names(a) * Names(b);
  }

  /** A company with a single shareholder has an owner-director exactly when that shareholder directs it. */
  lemma SingleOwnerDirector(icaData: Option<IcaCompanyData>)
    requires HasSingleOwner(icaData)
    ensures SharedName(icaData.value.owners, icaData.value.directors) <==>
      exists j :: 0 <= j < |icaData.value.directors| && icaData.value.directors[j].name == icaData.value.owners[0].name
  {
    var d := icaData.value;
    assert Names(d.owners) == {d.owners[0].name};
    if exists j :: 0 <= j < |d.directors| && d.directors[j].name == d.owners[0].name {
      var j :| 0 <= j < |d.directors| && d.directors[j].name == d.owners[0].name;
      SharedNameWitness(d.owners, d.directors, 0, j);
    }
  }

  /**
   * `hasOwnerDirector`: looks through the owners' names for one that is
   * also a director's name (a good sign: an involved owner).
   */
  method HasOwnerDirector(icaData: Option<IcaCompanyData>) returns (found: bool)
    ensures found <==> icaData.Some? && SharedName(icaData.value.owners, icaData.value.directors)
  {
    if icaData.None? {
      return false;
    }
    var owners := icaData.value.owners;
    var directorNames := Names(icaData.value.directors);
    var i := 0;
    while i < |owners|
      invariant 0 <= i <= |owners|
      invariant forall k :: 0 <= k < i ==> owners[k].name !in directorNames
    {
      if owners[i].name in directorNames {
        assert owners[i].name in Names(owners) * directorNames;
        return true;
      }
      i := i + 1;
    }
    assert Names(owners) * directorNames == {} by {
      forall n | n in Names(owners)
        ensures n !in directorNames
      {
        var k :| 0 <= k < |owners| && owners[k].name == n;
      }
    }
    return false;
  }

  /** The milliseconds in a year of 365.25 days. */
  const MsPerYear: int := 1000 * 60 * 60 * 24 * 36525 / 100

  /** What `calculateCompanyAge` gives: `null`, `NaN` for a date that does not parse, or whole years. */
  datatype CompanyAge = NoDate | NotANumber | Years(years: int)

  /**
   * `calculateCompanyAge`: `parse` is `new Date(...).getTime()` (absent for
   * an invalid date) and `nowMs` the current time; the age is rounded down.
   */
  function CalculateCompanyAge(registrationDate: Option<string>, parse: string -> Option<int>, nowMs: int): (r: CompanyAge)
    ensures !Truthy(registrationDate) ==> r == NoDate
    ensures Truthy(registrationDate) && parse(registrationDate.value).None? ==> r == NotANumber
    ensures r.Years? <==> Truthy(registrationDate) && parse(registrationDate.value).Some?
    ensures r.Years? ==>
      var age := nowMs - parse(registrationDate.value).value;
      r.years * MsPerYear <= age < (r.years + 1) * MsPerYear
  {
    if !Truthy(registrationDate) then NoDate
    else match parse(registrationDate.value)
      case None => NotANumber
      case Some(t) => Years((nowMs - t) / MsPerYear)
  }
}
