/** The disabilities list (`src/pages/admin/disabilities/index.jsx`) and
    its guarded search. */
module Disabilities {
  import opened Js
  import opened Rows
  import Tools

  /** The joined `families (name, date_of_birth, nrc_id, gender, …)`;
      `birth` is `new Date(date_of_birth)`. */
  datatype DisabledPerson = DisabledPerson(name: Field, dateOfBirth: Field, birth: JsDate, nrcId: Field, gender: Field)

  /** One row of `disabilities`; `typeName` is the joined
      `type_of_disabilities.name`. A `Missing` field is a null join. */
  datatype Disability = Disability(id: int, typeName: Field, description: Field, family: DisabledPerson)

  /** `dob && formatDate(dob).startsWith(term)`: the raw term, case and all,
      against the `DD/MM/YYYY` text. */
  function GuardedDatePrefix(dob: Field, birth: JsDate, term: string): (r: Option<bool>)
    ensures r.None? <==> dob.Missing?
    ensures r == Some(true) <==> Truthy(dob) && StartsWith(Tools.FormatDate(birth), term)
  {
    if dob.Missing? then None
    else Some(Truthy(dob) && StartsWith(Tools.FormatDate(birth), term))
  }

  /** The six guarded tests of the `||` chain, in order. */
  function SearchParts(d: Disability, term: string): (r: seq<Option<bool>>)
    ensures |r| == 6
  {
    [GuardedLowerIncludes(d.typeName, term), GuardedLowerIncludes(d.description, term),
     GuardedLowerIncludes(d.family.name, term), GuardedDatePrefix(d.family.dateOfBirth, d.family.birth, term),
     GuardedLowerIncludes(d.family.nrcId, term), GuardedLowerIncludes(d.family.gender, term)]
  }

  /** The callback of `filteredDisabilities`. */
  function KeepDisability(term: string, d: Disability): Option<bool> {
    OrChain(SearchParts(d, term))
  }

  function FilteredDisabilities(term: string, disabilities: seq<Disability>): Option<seq<Disability>> {
    FilterOrThrow(disabilities, term, KeepDisability)
  }

  /** No field the search reads is a null join. */
  predicate Readable(d: Disability) {
    !d.typeName.Missing? && !d.description.Missing? && !d.family.name.Missing? &&
    !d.family.dateOfBirth.Missing? && !d.family.nrcId.Missing? && !d.family.gender.Missing?
  }

  /** A field takes part only when it is truthy: a readable record is kept
      exactly when some non-empty string field contains the term ignoring
      case, or its date of birth is set and its `DD/MM/YYYY` text starts
      with the term as typed. A null or empty field never matches. */
  lemma {:induction false} KeepDisabilityMeaning(term: string, d: Disability)
    requires Readable(d)
    ensures KeepDisability(term, d) == Some(
      (Truthy(d.typeName) && Includes(Lower(d.typeName.s), Lower(term))) ||
      (Truthy(d.description) && Includes(Lower(d.description.s), Lower(term))) ||
      (Truthy(d.family.name) && Includes(Lower(d.family.name.s), Lower(term))) ||
      (Truthy(d.family.dateOfBirth) && StartsWith(Tools.FormatDate(d.family.birth), term)) ||
      (Truthy(d.family.nrcId) && Includes(Lower(d.family.nrcId.s), Lower(term))) ||
      (Truthy(d.family.gender) && Includes(Lower(d.family.gender.s), Lower(term))))
  {
    var parts := SearchParts(d, term);
    OrChainDefined(parts);
    var b := exists i :: 0 <= i < |parts| && parts[i] == Some(true);
    if b {
      var i :| 0 <= i < |parts| && parts[i] == Some(true);
      assert i == 0 || i == 1 || i == 2 || i == 3 || i == 4 || i == 5;
    } else {
      assert parts[0] != Some(true) && parts[1] != Some(true) && parts[2] != Some(true);
      assert parts[3] != Some(true) && parts[4] != Some(true) && parts[5] != Some(true);
    }
  }

  /** With an empty search a readable record is kept exactly when at least
      one of the six fields is a non-empty string. */
  lemma {:induction false} EmptySearch(d: Disability)
    requires Readable(d)
    ensures KeepDisability("", d) == Some(
      Truthy(d.typeName) || Truthy(d.description) || Truthy(d.family.name) ||
      Truthy(d.family.dateOfBirth) || Truthy(d.family.nrcId) || Truthy(d.family.gender))
  {
    KeepDisabilityMeaning("", d);
    IncludesEmpty(Tools.FormatDate(d.family.birth));
    if Truthy(d.typeName) { IncludesEmpty(Lower(d.typeName.s)); }
    if Truthy(d.description) { IncludesEmpty(Lower(d.description.s)); }
    if Truthy(d.family.name) { IncludesEmpty(Lower(d.family.name.s)); }
    if Truthy(d.family.nrcId) { IncludesEmpty(Lower(d.family.nrcId.s)); }
    if Truthy(d.family.gender) { IncludesEmpty(Lower(d.family.gender.s)); }
  }

  /** `filteredDisabilities` keeps, in order, the records the callback
      accepts, and is `None` exactly when the callback throws on one. */
  lemma {:induction false} FilteredDisabilitiesSpec(term: string, disabilities: seq<Disability>)
    ensures FilteredDisabilities(term, disabilities).None? <==>
      exists i :: 0 <= i < |disabilities| && KeepDisability(term, disabilities[i]).None?
    ensures FilteredDisabilities(term, disabilities).Some? ==>
      Subsequence(FilteredDisabilities(term, disabilities).value, disabilities) &&
      (forall d :: d in FilteredDisabilities(term, disabilities).value <==>
          d in disabilities && KeepDisability(term, d) == Some(true)) &&
      forall d :: multiset(FilteredDisabilities(term, disabilities).value)[d] ==
        if KeepDisability(term, d) == Some(true) then multiset(disabilities)[d] else 0
  {
    FilterOrThrowSpec(disabilities, term, KeepDisability);
    KeptSpec(disabilities, term, KeepDisability);
    KeptMultiplicity(disabilities, term, KeepDisability);
  }
}
