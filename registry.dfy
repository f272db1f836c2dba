/** The family record the admin pages fetch from the `families` table, with
    its joined names, the dropdown selections and age bounds a user sets, and
    the pieces of the record filters that several pages share. */
module Registry {
  import opened Js

  /** The names joined through `households (..., state_regions(name),
      districts(name), townships(name), ward_village_tracts(name),
      villages(name))`. */
  datatype Location = Location(
    stateRegion: Field,
    district: Field,
    township: Field,
    wardVillageTract: Field,
    village: Field)

  /** One row of `families` as a page holds it. `birth` is what
      `new Date(date_of_birth)` gives; `household` is the joined
      `households.household_no`, while `householdNo` is the row's own
      `household_no` column. */
  datatype Family = Family(
    id: int,
    name: Field,
    dateOfBirth: Field,
    birth: JsDate,
    nrcId: Field,
    gender: Field,
    fatherName: Field,
    motherName: Field,
    remark: Field,
    isDeath: Field,
    householdNo: Field,
    occupation: Field,
    education: Field,
    ethnicity: Field,
    religion: Field,
    household: Field,
    location: Location)

  /** The dropdown selections; `""` is "all". */
  datatype Selections = Selections(
    death: string,
    occupation: string,
    education: string,
    ethnicity: string,
    religion: string,
    gender: string,
    stateRegion: string,
    district: string,
    township: string,
    wardVillageTract: string,
    village: string,
    household: string)

  /** The selections that accept everything. */
  const NoSelections := Selections("", "", "", "", "", "", "", "", "", "", "", "")

  /** The age inputs: `None` is the empty input `''`, otherwise the value
      `parseInt` gave. */
  datatype AgeRange = AgeRange(minAge: Option<int>, maxAge: Option<int>)

  const AnyAge := AgeRange(None, None)

  /** What a page's filter closes over: the search term, the dropdowns, the
      age inputs and the current year. */
  datatype Filter = Filter(query: string, sel: Selections, ages: AgeRange, todayYear: int)

  /** The `isDeath` value the Dashboard and the Report ask the database
      for: `'No'` while the death dropdown is on "all", the selection
      otherwise. */
  function QueryDeathStatus(selectedDeath: string): string {
    if selectedDeath == "" then "No" else selectedDeath
  }

  /** The query never asks for an empty status, and the client-side death
      check `selectedDeath === '' || family.isDeath === selectedDeath` keeps
      every record the query returned. */
  lemma {:induction false} QueryDeathStatusAgrees(selectedDeath: string, f: Family)
    requires f.isDeath == Str(QueryDeathStatus(selectedDeath))
    ensures QueryDeathStatus(selectedDeath) != ""
    ensures Matches(selectedDeath, f.isDeath)
    ensures selectedDeath == "" ==> f.isDeath == Str("No")
  {
  }

  // ---------------------------------------------------------------- checkAge

  /** `today.getFullYear() - birthDate.getFullYear()`; NaN (`None`) for an
      Invalid Date. Month and day take no part. */
  function Age(todayYear: int, birth: JsDate): Option<int> {
    if birth.ValidDate? then Some(todayYear - birth.year) else None
  }

  /** `minAge === '' || age >= minAge`; a NaN age fails every comparison. */
  predicate AtLeast(age: Option<int>, bound: Option<int>) {
    bound.None? || (age.Some? && age.value >= bound.value)
  }

  /** `maxAge === '' || age <= maxAge`. */
  predicate AtMost(age: Option<int>, bound: Option<int>) {
    bound.None? || (age.Some? && age.value <= bound.value)
  }

  /** `checkAge(dateOfBirth)`, where `todayYear` is the current year. */
  predicate CheckAge(range: AgeRange, todayYear: int, birth: JsDate) {
    AtLeast(Age(todayYear, birth), range.minAge) && AtMost(Age(todayYear, birth), range.maxAge)
  }

  /** For a real date, the age is the difference of the years and both bounds
      are inclusive; an empty bound is ignored. */
  lemma {:induction false} CheckAgeValid(range: AgeRange, todayYear: int, birth: JsDate)
    requires birth.ValidDate?
    ensures CheckAge(range, todayYear, birth) <==>
      (range.minAge.None? || range.minAge.value <= todayYear - birth.year) &&
      (range.maxAge.None? || todayYear - birth.year <= range.maxAge.value)
  {
  }

  /** An Invalid Date passes only when both bounds are empty. */
  lemma {:induction false} CheckAgeInvalid(range: AgeRange, todayYear: int)
    ensures CheckAge(range, todayYear, InvalidDate) <==> range.minAge.None? && range.maxAge.None?
  {
  }

  /** Month and day are ignored: two birth dates in the same year pass or
      fail together. */
  lemma {:induction false} CheckAgeIgnoresMonth(range: AgeRange, todayYear: int, a: JsDate, b: JsDate)
    requires a.ValidDate? && b.ValidDate? && a.year == b.year
    ensures CheckAge(range, todayYear, a) == CheckAge(range, todayYear, b)
  {
  }

  /** Widening the bounds never drops a record. */
  lemma {:induction false} CheckAgeWiden(narrow: AgeRange, wide: AgeRange, todayYear: int, birth: JsDate)
    requires wide.minAge.Some? ==> narrow.minAge.Some? && wide.minAge.value <= narrow.minAge.value
    requires wide.maxAge.Some? ==> narrow.maxAge.Some? && narrow.maxAge.value <= wide.maxAge.value
    requires CheckAge(narrow, todayYear, birth)
    ensures CheckAge(wide, todayYear, birth)
  {
  }

  // ---------------------------------------------------------------- the twelve-field search

  /** The fields the family search reads, in the order the `||` chain reads
      them: name, gender, father's and mother's name, remark, date of birth,
      NRC id, occupation, education, ethnicity, household number (joined) and
      religion. */
  function SearchFields(f: Family): (r: seq<Field>)
    ensures |r| == 12
  {
    [f.name, f.gender, f.fatherName, f.motherName, f.remark, f.dateOfBirth, f.nrcId,
     f.occupation, f.education, f.ethnicity, f.household, f.religion]
  }

  /** The search constant of the Dashboard, Report and families filters. */
  function FamilySearch(f: Family, q: string): Option<bool> {
    AnyLowerIncludes(SearchFields(f), q)
  }

  /** Every field the search reads is a string. */
  predicate SearchReadable(f: Family) {
    forall i :: 0 <= i < 12 ==> SearchFields(f)[i].Str?
  }

  /** On a record whose search fields are strings the search matches exactly
      when one of the twelve fields contains the term, ignoring case. */
  lemma {:induction false} FamilySearchMeaning(f: Family, q: string)
    requires SearchReadable(f)
    ensures FamilySearch(f, q) == Some(SomeFieldContains(SearchFields(f), q))
  {
    AnyLowerIncludesStrings(SearchFields(f), q);
  }

  /** The search throws only on a record with a field that is not a string. */
  lemma {:induction false} FamilySearchThrows(f: Family, q: string)
    requires FamilySearch(f, q).None?
    ensures !SearchReadable(f)
  {
    AnyLowerIncludesThrows(SearchFields(f), q);
  }

  /** With an empty term a record whose name is a string matches before any
      other field is read. */
  lemma {:induction false} FamilySearchEmpty(f: Family)
    requires f.name.Str?
    ensures FamilySearch(f, "") == Some(true)
  {
    AnyLowerIncludesEmptyTerm(SearchFields(f));
  }

  /** The search term's case does not matter. */
  lemma {:induction false} FamilySearchCase(f: Family, q: string)
    ensures FamilySearch(f, Lower(q)) == FamilySearch(f, q)
  {
    LowerIdempotent(q);
    var fields := SearchFields(f);
    assert seq(|fields|, i requires 0 <= i < |fields| => LowerIncludes(fields[i], Lower(q)))
        == seq(|fields|, i requires 0 <= i < |fields| => LowerIncludes(fields[i], q));
  }

  // ---------------------------------------------------------------- the joined names

  /** The joined names a filter compares against are readable: no joined
      object on their paths is null. */
  predicate JoinsPresent(f: Family) {
    !f.occupation.Missing? && !f.education.Missing? && !f.ethnicity.Missing? &&
    !f.religion.Missing? && !f.household.Missing?
  }
}
