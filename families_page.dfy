/** The families list (`src/pages/admin/families/index.jsx`): its
    `filteredFamilies`, which has no death, gender, age or location
    dropdowns. */
module FamiliesPage {
  import opened Js
  import opened Rows
  import opened Registry

  /** The callback: the search, then the occupation, education, ethnicity,
      religion and household selections, all read through the joins; the
      household selection compares against the joined
      `households.household_no`. */
  function KeepListed(c: Filter, f: Family): Option<bool> {
    Both(FamilySearch(f, c.query),
    Both(Selection(c.sel.occupation, f.occupation),
    Both(Selection(c.sel.education, f.education),
    Both(Selection(c.sel.ethnicity, f.ethnicity),
    Both(Selection(c.sel.religion, f.religion),
         Selection(c.sel.household, f.household))))))
  }

  function FilteredFamilies(c: Filter, families: seq<Family>): Option<seq<Family>> {
    FilterOrThrow(families, c, KeepListed)
  }

  /** On a readable record: kept exactly when the term occurs in one of the
      twelve search fields ignoring case, and each of the five selections
      is "all" or equal to the joined value. */
  lemma {:induction false} KeepListedMeaning(c: Filter, f: Family)
    requires SearchReadable(f) && JoinsPresent(f)
    ensures KeepListed(c, f) == Some(
      SomeFieldContains(SearchFields(f), c.query) &&
      Matches(c.sel.occupation, f.occupation) && Matches(c.sel.education, f.education) &&
      Matches(c.sel.ethnicity, f.ethnicity) && Matches(c.sel.religion, f.religion) &&
      Matches(c.sel.household, f.household))
  {
    FamilySearchMeaning(f, c.query);
    SelectionMeaning(c.sel.occupation, f.occupation);
    SelectionMeaning(c.sel.education, f.education);
    SelectionMeaning(c.sel.ethnicity, f.ethnicity);
    SelectionMeaning(c.sel.religion, f.religion);
    SelectionMeaning(c.sel.household, f.household);
  }

  /** The record's own `household_no` column takes no part, and neither do
      the dropdowns this page does not have, its age inputs or the year. */
  lemma {:induction false} KeepListedIgnores(c: Filter, f: Family, householdNo: Field, ages: AgeRange, todayYear: int,
                                             death: string, gender: string)
    ensures KeepListed(c, f) == KeepListed(c.(ages := ages, todayYear := todayYear,
                                               sel := c.sel.(death := death, gender := gender)),
                                           f.(householdNo := householdNo))
  {
    assert SearchFields(f) == SearchFields(f.(householdNo := householdNo));
  }

  /** `filteredFamilies` keeps, in order, the records the callback
      accepts, and is `None` exactly when the callback throws on one. */
  lemma {:induction false} FilteredFamiliesSpec(c: Filter, families: seq<Family>)
    ensures FilteredFamilies(c, families).None? <==>
      exists i :: 0 <= i < |families| && KeepListed(c, families[i]).None?
    ensures FilteredFamilies(c, families).Some? ==>
      Subsequence(FilteredFamilies(c, families).value, families) &&
      (forall f :: f in FilteredFamilies(c, families).value <==> f in families && KeepListed(c, f) == Some(true)) &&
      forall f :: multiset(FilteredFamilies(c, families).value)[f] ==
        if KeepListed(c, f) == Some(true) then multiset(families)[f] else 0
  {
    FilterOrThrowSpec(families, c, KeepListed);
    KeptSpec(families, c, KeepListed);
    KeptMultiplicity(families, c, KeepListed);
  }
}
