/** The Dashboard's `filterFamilies` (`src/components/admin/Dashboard.jsx`
    189-257): the records the page lists and tallies. */
module DashboardFilter {
  import opened Js
  import opened Rows
  import opened Registry
  import opened DashboardTally

  /** The callback: the fourteen `isMatching…` constants, in the order it
      computes them, combined by `&&`; `None` when computing one of them
      throws. The location selections read the names joined through
      `households`; the household selection reads the record's own
      `household_no` column. */
  function KeepFamily(c: Filter, f: Family): Option<bool> {
    Both(FamilySearch(f, c.query),
    Both(ColumnSelection(c.sel.death, f.isDeath),
    Both(Selection(c.sel.occupation, f.occupation),
    Both(Selection(c.sel.education, f.education),
    Both(Selection(c.sel.ethnicity, f.ethnicity),
    Both(Selection(c.sel.religion, f.religion),
    Both(ColumnSelection(c.sel.gender, f.gender),
    Both(Some(CheckAge(c.ages, c.todayYear, f.birth)),
    Both(Selection(c.sel.stateRegion, f.location.stateRegion),
    Both(Selection(c.sel.district, f.location.district),
    Both(Selection(c.sel.township, f.location.township),
    Both(Selection(c.sel.wardVillageTract, f.location.wardVillageTract),
    Both(Selection(c.sel.village, f.location.village),
         ColumnSelection(c.sel.household, f.householdNo))))))))))))))
  }

  /** `families.filter(...)`; `None` when the callback throws on a record. */
  function FilterFamilies(c: Filter, families: seq<Family>): Option<seq<Family>> {
    FilterOrThrow(families, c, KeepFamily)
  }

  /** The five location names a selection can read are readable. */
  predicate LocationPresent(f: Family) {
    !f.location.stateRegion.Missing? && !f.location.district.Missing? &&
    !f.location.township.Missing? && !f.location.wardVillageTract.Missing? &&
    !f.location.village.Missing?
  }

  /** The record passes, stated without the `Option` plumbing: every
      selection is empty or equal to the field, the term occurs in one of
      the twelve search fields ignoring case, and the age is in range. */
  predicate Passes(c: Filter, f: Family) {
    SomeFieldContains(SearchFields(f), c.query) &&
    Matches(c.sel.death, f.isDeath) && Matches(c.sel.occupation, f.occupation) &&
    Matches(c.sel.education, f.education) && Matches(c.sel.ethnicity, f.ethnicity) &&
    Matches(c.sel.religion, f.religion) && Matches(c.sel.gender, f.gender) &&
    CheckAge(c.ages, c.todayYear, f.birth) &&
    Matches(c.sel.stateRegion, f.location.stateRegion) && Matches(c.sel.district, f.location.district) &&
    Matches(c.sel.township, f.location.township) &&
    Matches(c.sel.wardVillageTract, f.location.wardVillageTract) &&
    Matches(c.sel.village, f.location.village) && Matches(c.sel.household, f.householdNo)
  }

  /** On a record whose fields can all be read the callback decides exactly
      `Passes`. */
  lemma {:induction false} KeepFamilyMeaning(c: Filter, f: Family)
    requires SearchReadable(f) && JoinsPresent(f) && LocationPresent(f)
    ensures KeepFamily(c, f) == Some(Passes(c, f))
  {
    FamilySearchMeaning(f, c.query);
    SelectionMeaning(c.sel.occupation, f.occupation);
    SelectionMeaning(c.sel.education, f.education);
    SelectionMeaning(c.sel.ethnicity, f.ethnicity);
    SelectionMeaning(c.sel.religion, f.religion);
    SelectionMeaning(c.sel.stateRegion, f.location.stateRegion);
    SelectionMeaning(c.sel.district, f.location.district);
    SelectionMeaning(c.sel.township, f.location.township);
    SelectionMeaning(c.sel.wardVillageTract, f.location.wardVillageTract);
    SelectionMeaning(c.sel.village, f.location.village);
  }

  /** The callback throws exactly when the search throws or a non-empty
      selection reads a name whose joined object is null. */
  lemma {:induction false} KeepFamilyThrows(c: Filter, f: Family)
    ensures KeepFamily(c, f).None? <==>
      FamilySearch(f, c.query).None? ||
      (c.sel.occupation != "" && f.occupation.Missing?) ||
      (c.sel.education != "" && f.education.Missing?) ||
      (c.sel.ethnicity != "" && f.ethnicity.Missing?) ||
      (c.sel.religion != "" && f.religion.Missing?) ||
      (c.sel.stateRegion != "" && f.location.stateRegion.Missing?) ||
      (c.sel.district != "" && f.location.district.Missing?) ||
      (c.sel.township != "" && f.location.township.Missing?) ||
      (c.sel.wardVillageTract != "" && f.location.wardVillageTract.Missing?) ||
      (c.sel.village != "" && f.location.village.Missing?)
  {
  }

  /** When no record makes the callback throw, the filter keeps, in order,
      exactly the records the callback accepts. */
  lemma {:induction false} FilterFamiliesSpec(c: Filter, families: seq<Family>)
    ensures FilterFamilies(c, families).None? <==>
      exists i :: 0 <= i < |families| && KeepFamily(c, families[i]).None?
    ensures FilterFamilies(c, families).Some? ==>
      Subsequence(FilterFamilies(c, families).value, families) &&
      (forall f :: f in FilterFamilies(c, families).value <==> f in families && KeepFamily(c, f) == Some(true)) &&
      forall f :: multiset(FilterFamilies(c, families).value)[f] ==
        if KeepFamily(c, f) == Some(true) then multiset(families)[f] else 0
  {
    FilterOrThrowSpec(families, c, KeepFamily);
    KeptSpec(families, c, KeepFamily);
    KeptMultiplicity(families, c, KeepFamily);
  }

  /** With every dropdown on "all", an empty search and empty age bounds,
      every record with a string name is kept, in order: the search is
      already true at the name. */
  lemma {:induction false} FilterFamiliesAll(families: seq<Family>, todayYear: int)
    requires forall i :: 0 <= i < |families| ==> families[i].name.Str?
    ensures FilterFamilies(Filter("", NoSelections, AnyAge, todayYear), families) == Some(families)
  {
    var c := Filter("", NoSelections, AnyAge, todayYear);
    forall i | 0 <= i < |families|
      ensures KeepFamily(c, families[i]) == Some(true)
    {
      var f := families[i];
      FamilySearchEmpty(f);
    }
    KeptAll(families, c, KeepFamily);
  }

  /** With the death dropdown on "Yes" every kept record is a death, so the
      tally adds each of them exactly once, by the second branch. */
  lemma {:induction false} DeathYesAddsAll(c: Filter, families: seq<Family>)
    requires c.sel.death == "Yes" && FilterFamilies(c, families).Some?
    ensures forall f :: f in FilterFamilies(c, families).value ==> f.isDeath == Str("Yes")
    ensures Added(FilterFamilies(c, families).value, "Yes") == FilterFamilies(c, families).value
  {
    FilterFamiliesSpec(c, families);
    var kept := FilterFamilies(c, families).value;
    forall f | f in kept
      ensures f.isDeath == Str("Yes")
    {
    }
    AddedAllDead(kept);
  }
}
