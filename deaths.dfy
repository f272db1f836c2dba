/** The two deaths pages: the register (`src/pages/admin/deaths/register.jsx`)
    picks a living person and builds the death row, the index
    (`src/pages/admin/deaths/index.jsx`) lists and searches every person.
    Both attach the household's location names to each fetched record and
    keep the search result in `filteredFamilies` state. */
module Deaths {
  import opened Js
  import opened Rows
  import opened Registry
  import opened LocationNames

  /** The columns of a `families` row these pages read. */
  datatype Person = Person(id: int, name: Field, nrcId: Field, dateOfBirth: Field, householdNo: Field)

  /** `{ ...family, villageName, …, stateRegionName }`. */
  datatype Listed = Listed(person: Person, names: Names)

  /** The per-family step of `fetchFamilies`: the record kept whole, with
      its five names from the lookup. */
  function WithNames(p: Person, lookup: NamesLookup): (r: Listed)
    ensures r.person == p
    ensures NoneEmpty(r.names)
    ensures lookup.LookupFailed? ==> r.names == UnknownNames
    ensures lookup.Found? ==> r.names == ResolveNames(lookup.loc)
  {
    ResolveNamesSpec(if lookup.Found? then lookup.loc else Location(Missing, Missing, Missing, Missing, Missing));
    FailureLikeNoJoins();
    Listed(p, LookupNames(lookup))
  }

  /** `Promise.all(familiesData.map(...))`: one lookup per record, results in
      the records' order. */
  function WithAllNames(rows: seq<Person>, lookups: seq<NamesLookup>): (r: seq<Listed>)
    requires |lookups| == |rows|
    ensures |r| == |rows|
    ensures forall i :: 0 <= i < |rows| ==> r[i] == WithNames(rows[i], lookups[i])
  {
    seq(|rows|, i requires 0 <= i < |rows| => WithNames(rows[i], lookups[i]))
  }

  /** The register's search: name, NRC id, date of birth or household
      number, ignoring case. */
  function RegisterMatch(term: string, l: Listed): Option<bool> {
    AnyLowerIncludes([l.person.name, l.person.nrcId, l.person.dateOfBirth, l.person.householdNo], term)
  }

  /** The index's search: name, NRC id or household number only. */
  function IndexMatch(term: string, l: Listed): Option<bool> {
    AnyLowerIncludes([l.person.name, l.person.nrcId, l.person.householdNo], term)
  }

  predicate Readable(p: Person) {
    p.name.Str? && p.nrcId.Str? && p.dateOfBirth.Str? && p.householdNo.Str?
  }

  /** On a readable record the register's search matches exactly when one of
      its four fields contains the term ignoring case, the index's when one
      of its three does. */
  lemma {:induction false} MatchMeaning(term: string, l: Listed)
    requires Readable(l.person)
    ensures var p := l.person;
      RegisterMatch(term, l) == Some(
        Includes(Lower(p.name.s), Lower(term)) || Includes(Lower(p.nrcId.s), Lower(term)) ||
        Includes(Lower(p.dateOfBirth.s), Lower(term)) || Includes(Lower(p.householdNo.s), Lower(term)))
    ensures var p := l.person;
      IndexMatch(term, l) == Some(
        Includes(Lower(p.name.s), Lower(term)) || Includes(Lower(p.nrcId.s), Lower(term)) ||
        Includes(Lower(p.householdNo.s), Lower(term)))
  {
    var p := l.person;
    var four := [p.name, p.nrcId, p.dateOfBirth, p.householdNo];
    var three := [p.name, p.nrcId, p.householdNo];
    AnyLowerIncludesStrings(four, term);
    AnyLowerIncludesStrings(three, term);
    FieldsContain(four, term);
    FieldsContain(three, term);
  }

  /** `SomeFieldContains` over a short list of strings, spelled out. */
  lemma {:induction false} FieldsContain(fields: seq<Field>, q: string)
    requires 3 <= |fields| <= 4 && forall i :: 0 <= i < |fields| ==> fields[i].Str?
    ensures SomeFieldContains(fields, q) <==>
      Includes(Lower(fields[0].s), Lower(q)) || Includes(Lower(fields[1].s), Lower(q)) ||
      Includes(Lower(fields[2].s), Lower(q)) || (|fields| == 4 && Includes(Lower(fields[3].s), Lower(q)))
  {
    if SomeFieldContains(fields, q) {
      var i :| 0 <= i < |fields| && fields[i].Str? && Includes(Lower(fields[i].s), Lower(q));
      assert i == 0 || i == 1 || i == 2 || i == 3;
    }
  }

  /** The empty term keeps every record whose name is a string, in order,
      on both pages. */
  lemma {:induction false} EmptyTermKeepsAll(families: seq<Listed>)
    requires forall i :: 0 <= i < |families| ==> families[i].person.name.Str?
    ensures FilterOrThrow(families, "", IndexMatch) == Some(families)
    ensures FilterOrThrow(families, "", RegisterMatch) == Some(families)
  {
    forall i | 0 <= i < |families|
      ensures IndexMatch("", families[i]) == Some(true) && RegisterMatch("", families[i]) == Some(true)
    {
      var p := families[i].person;
      AnyLowerIncludesEmptyTerm([p.name, p.nrcId, p.householdNo]);
      AnyLowerIncludesEmptyTerm([p.name, p.nrcId, p.dateOfBirth, p.householdNo]);
    }
    KeptAll(families, "", IndexMatch);
    KeptAll(families, "", RegisterMatch);
  }

  /** A search result is an order-preserving subsequence of the whole list,
      holding exactly the records that match. */
  lemma {:induction false} SearchSubsequence(term: string, families: seq<Listed>)
    ensures FilterOrThrow(families, term, RegisterMatch).Some? ==>
      Subsequence(FilterOrThrow(families, term, RegisterMatch).value, families) &&
      (forall l :: l in FilterOrThrow(families, term, RegisterMatch).value <==>
         l in families && RegisterMatch(term, l) == Some(true)) &&
      forall l :: multiset(FilterOrThrow(families, term, RegisterMatch).value)[l] ==
        if RegisterMatch(term, l) == Some(true) then multiset(families)[l] else 0
    ensures FilterOrThrow(families, term, IndexMatch).Some? ==>
      Subsequence(FilterOrThrow(families, term, IndexMatch).value, families) &&
      (forall l :: l in FilterOrThrow(families, term, IndexMatch).value <==>
         l in families && IndexMatch(term, l) == Some(true)) &&
      forall l :: multiset(FilterOrThrow(families, term, IndexMatch).value)[l] ==
        if IndexMatch(term, l) == Some(true) then multiset(families)[l] else 0
  {
    FilterOrThrowSpec(families, term, RegisterMatch);
    KeptSpec(families, term, RegisterMatch);
    KeptMultiplicity(families, term, RegisterMatch);
    FilterOrThrowSpec(families, term, IndexMatch);
    KeptSpec(families, term, IndexMatch);
    KeptMultiplicity(families, term, IndexMatch);
  }

  /** `filteredFamilies.find(family => family.id === familyId)`. */
  function FindById(xs: seq<Listed>, id: int): (r: Option<Listed>)
    ensures r.None? <==> forall i :: 0 <= i < |xs| ==> xs[i].person.id != id
    ensures r.Some? ==> r.value.person.id == id
    ensures r.Some? ==> exists i :: 0 <= i < |xs| && xs[i] == r.value && forall j :: 0 <= j < i ==> xs[j].person.id != id
    decreases |xs|
  {
    if xs == [] then None
    else if xs[0].person.id == id then Some(xs[0])
    else
      var r := FindById(xs[1..], id);
      assert forall i :: 1 <= i < |xs| ==> xs[i] == xs[1..][i - 1];
      if r.Some? then
        ghost var k :| 0 <= k < |xs[1..]| && xs[1..][k] == r.value && forall j :: 0 <= j < k ==> xs[1..][j].person.id != id;
        assert xs[k + 1] == r.value && forall j :: 0 <= j < k + 1 ==> xs[j].person.id != id;
        r
      else r
  }

  /** What the death form holds. */
  datatype DeathForm = DeathForm(deathDate: string, deathPlace: string, complainant: string, remark: string)

  /** The row `handleRegister` inserts into `deaths`. */
  datatype DeathRow = DeathRow(deathDate: string, deathPlace: string, complainant: string, remark: string, familyId: int)

  /** The row built from the form and the selected person:
      `selectedFamily.id` throws (`None`) when nobody is selected. */
  function BuildDeathRow(form: DeathForm, selected: Option<Listed>): (r: Option<DeathRow>)
    ensures r.None? <==> selected.None?
    ensures r.Some? ==> r.value.familyId == selected.value.person.id
    ensures r.Some? ==> DeathForm(r.value.deathDate, r.value.deathPlace, r.value.complainant, r.value.remark) == form
  {
    match selected
    case None => None
    case Some(l) => Some(DeathRow(form.deathDate, form.deathPlace, form.complainant, form.remark, l.person.id))
  }

  /** The register page's state. */
  class Register {
    var families: seq<Listed>
    var searchTerm: string
    var filteredFamilies: seq<Listed>
    var selectedFamily: Option<Listed>

    constructor ()
      ensures families == [] && searchTerm == "" && filteredFamilies == [] && selectedFamily == None
    {
      families := [];
      searchTerm := "";
      filteredFamilies := [];
      selectedFamily := None;
    }

    /** `fetchFamilies` once its queries are answered: `fetched` is `None`
        when the `families` query failed, which leaves the state as it was;
        otherwise both lists become the records with their names. */
    method FetchFamilies(fetched: Option<seq<Person>>, lookups: seq<NamesLookup>)
      requires fetched.Some? ==> |lookups| == |fetched.value|
      modifies this
      ensures fetched.None? ==> families == old(families) && filteredFamilies == old(filteredFamilies)
      ensures fetched.Some? ==> families == WithAllNames(fetched.value, lookups) && filteredFamilies == families
      ensures searchTerm == old(searchTerm) && selectedFamily == old(selectedFamily)
    {
      if fetched.Some? {
        var withNames := WithAllNames(fetched.value, lookups);
        families := withNames;
        filteredFamilies := withNames;
      }
    }

    /** `handleSearch`: the term is stored, and the search runs over the
        whole `families` list, never over an earlier result; when it throws
        the shown list stays as it was. */
    method HandleSearch(term: string)
      modifies this
      ensures searchTerm == term
      ensures match FilterOrThrow(families, term, RegisterMatch)
        case Some(kept) => filteredFamilies == kept
        case None => filteredFamilies == old(filteredFamilies)
      ensures families == old(families) && selectedFamily == old(selectedFamily)
    {
      searchTerm := term;
      var filtered := FilterOrThrow(families, term, RegisterMatch);
      if filtered.Some? {
        filteredFamilies := filtered.value;
      }
    }

    /** `handleRegistrationClick`: the first shown record with the id, or
        nobody. */
    method HandleRegistrationClick(familyId: int)
      modifies this
      ensures selectedFamily == FindById(filteredFamilies, familyId)
      ensures families == old(families) && filteredFamilies == old(filteredFamilies) && searchTerm == old(searchTerm)
    {
      selectedFamily := FindById(filteredFamilies, familyId);
    }

    /** `handleRegister` up to its two writes, whose outcomes are given:
        it returns the row it inserts (`None` when nobody is selected, which
        throws before any write) and clears the selection only when neither
        write reported an error. */
    method HandleRegister(form: DeathForm, updateFailed: bool, insertFailed: bool) returns (row: Option<DeathRow>)
      modifies this
      ensures row == BuildDeathRow(form, old(selectedFamily))
      ensures selectedFamily == (if row.Some? && !updateFailed && !insertFailed then None else old(selectedFamily))
      ensures families == old(families) && filteredFamilies == old(filteredFamilies) && searchTerm == old(searchTerm)
    {
      row := BuildDeathRow(form, selectedFamily);
      if row.Some? && !updateFailed && !insertFailed {
        selectedFamily := None;
      }
    }
  }

  /** The index page's state. */
  class Index {
    var families: seq<Listed>
    var searchTerm: string
    var filteredFamilies: seq<Listed>

    constructor ()
      ensures families == [] && searchTerm == "" && filteredFamilies == []
    {
      families := [];
      searchTerm := "";
      filteredFamilies := [];
    }

    method FetchFamilies(fetched: Option<seq<Person>>, lookups: seq<NamesLookup>)
      requires fetched.Some? ==> |lookups| == |fetched.value|
      modifies this
      ensures fetched.None? ==> families == old(families) && filteredFamilies == old(filteredFamilies)
      ensures fetched.Some? ==> families == WithAllNames(fetched.value, lookups) && filteredFamilies == families
      ensures searchTerm == old(searchTerm)
    {
      if fetched.Some? {
        var withNames := WithAllNames(fetched.value, lookups);
        families := withNames;
        filteredFamilies := withNames;
      }
    }

    method HandleSearch(term: string)
      modifies this
      ensures searchTerm == term
      ensures match FilterOrThrow(families, term, IndexMatch)
        case Some(kept) => filteredFamilies == kept
        case None => filteredFamilies == old(filteredFamilies)
      ensures families == old(families)
    {
      searchTerm := term;
      var filtered := FilterOrThrow(families, term, IndexMatch);
      if filtered.Some? {
        filteredFamilies := filtered.value;
      }
    }
  }
}
