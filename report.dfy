/** The Report page (`src/components/admin/Report.jsx`): the records with
    the names derived from their household, and the page's filter. */
module Report {
  import opened Js
  import opened Rows
  import opened Registry
  import opened LocationNames

  /** One row of the `households` lookup `.eq('household_no',
      family.household_no)`. */
  datatype HouseholdRow = HouseholdRow(
    entryDate: Field,
    houseNo: Field,
    householdNo: Field,
    familyHead: Field,
    loc: Location)

  /** The lookup's outcome: an error (which the `catch` block handles), or
      the rows it returned. */
  datatype HouseholdLookup = LookupError | Returned(rows: seq<HouseholdRow>)

  /** The nine fields the Report adds to a record. */
  datatype Derived = Derived(
    entryDate: string,
    houseNo: string,
    householdNo: string,
    familyHead: string,
    names: Names)

  /** What the `catch` block spreads in. */
  const AllUnknown := Derived(Unknown, Unknown, Unknown, Unknown, UnknownNames)

  /** `householdsData[0]`: an empty result gives `undefined`, which every
      `?.` turns into `undefined` again. */
  function FirstRow(rows: seq<HouseholdRow>): HouseholdRow {
    if rows == [] then HouseholdRow(Missing, Missing, Missing, Missing, Location(Missing, Missing, Missing, Missing, Missing))
    else rows[0]
  }

  /** The nine `householdsData[0]?.… || 'Unknown'` constants. */
  function FromRow(row: HouseholdRow): Derived {
    Derived(OrUnknown(row.entryDate), OrUnknown(row.houseNo), OrUnknown(row.householdNo),
            OrUnknown(row.familyHead), ResolveNames(row.loc))
  }

  function Derive(lookup: HouseholdLookup): Derived {
    match lookup
    case LookupError => AllUnknown
    case Returned(rows) => FromRow(FirstRow(rows))
  }

  /** A record as the Report holds it: `{ ...family, entryDate, … }`. */
  datatype ReportFamily = ReportFamily(family: Family, derived: Derived)

  /** The per-family step of `fetchFamilies`: the fetched record, kept
      whole, with the derived fields beside it. */
  function WithLocationNames(f: Family, lookup: HouseholdLookup): (r: ReportFamily)
    ensures r.family == f
    ensures r.derived == Derive(lookup)
  {
    ReportFamily(f, Derive(lookup))
  }

  /** Each derived field is the first row's value when that is a non-empty
      string and `'Unknown'` otherwise, field by field; a failed lookup and
      an empty result both give `'Unknown'` in all nine. */
  lemma {:induction false} DeriveSpec(lookup: HouseholdLookup)
    ensures lookup.Returned? && lookup.rows != [] ==>
      var row := lookup.rows[0];
      var d := Derive(lookup);
      d.entryDate == (if Truthy(row.entryDate) then row.entryDate.s else Unknown) &&
      d.houseNo == (if Truthy(row.houseNo) then row.houseNo.s else Unknown) &&
      d.householdNo == (if Truthy(row.householdNo) then row.householdNo.s else Unknown) &&
      d.familyHead == (if Truthy(row.familyHead) then row.familyHead.s else Unknown) &&
      d.names == ResolveNames(row.loc)
    ensures lookup.LookupError? || lookup.rows == [] ==> Derive(lookup) == AllUnknown
  {
    FailureLikeNoJoins();
  }

  // ---------------------------------------------------------------- filterFamilies

  /** The callback of the Report's `filterFamilies`: the Dashboard's
      conjunction, except that the household selection reads the derived
      `householdNo` and the location selections read the derived names,
      which are plain strings and never throw. */
  function KeepReportFamily(c: Filter, r: ReportFamily): Option<bool> {
    var f := r.family;
    var d := r.derived;
    Both(FamilySearch(f, c.query),
    Both(ColumnSelection(c.sel.death, f.isDeath),
    Both(Selection(c.sel.occupation, f.occupation),
    Both(Selection(c.sel.education, f.education),
    Both(Selection(c.sel.ethnicity, f.ethnicity),
    Both(Selection(c.sel.religion, f.religion),
    Both(ColumnSelection(c.sel.gender, f.gender),
    Both(Some(CheckAge(c.ages, c.todayYear, f.birth)),
    Both(ColumnSelection(c.sel.household, Str(d.householdNo)),
    Both(ColumnSelection(c.sel.stateRegion, Str(d.names.stateRegion)),
    Both(ColumnSelection(c.sel.district, Str(d.names.district)),
    Both(ColumnSelection(c.sel.township, Str(d.names.township)),
    Both(ColumnSelection(c.sel.wardVillageTract, Str(d.names.wardVillageTract)),
         ColumnSelection(c.sel.village, Str(d.names.village)))))))))))))))
  }

  function FilterReport(c: Filter, families: seq<ReportFamily>): Option<seq<ReportFamily>> {
    FilterOrThrow(families, c, KeepReportFamily)
  }

  /** The selection is "all" or names exactly this string. */
  predicate Picks(sel: string, s: string) {
    sel == "" || s == sel
  }

  /** The record passes, without the `Option` plumbing. */
  predicate ReportPasses(c: Filter, r: ReportFamily) {
    var f := r.family;
    var d := r.derived;
    SomeFieldContains(SearchFields(f), c.query) &&
    Matches(c.sel.death, f.isDeath) && Matches(c.sel.occupation, f.occupation) &&
    Matches(c.sel.education, f.education) && Matches(c.sel.ethnicity, f.ethnicity) &&
    Matches(c.sel.religion, f.religion) && Matches(c.sel.gender, f.gender) &&
    CheckAge(c.ages, c.todayYear, f.birth) &&
    Picks(c.sel.household, d.householdNo) && Picks(c.sel.stateRegion, d.names.stateRegion) &&
    Picks(c.sel.district, d.names.district) && Picks(c.sel.township, d.names.township) &&
    Picks(c.sel.wardVillageTract, d.names.wardVillageTract) && Picks(c.sel.village, d.names.village)
  }

  /** On a record whose search fields and joined names can be read the
      callback decides exactly `ReportPasses`. */
  lemma {:induction false} KeepReportMeaning(c: Filter, r: ReportFamily)
    requires SearchReadable(r.family) && JoinsPresent(r.family)
    ensures KeepReportFamily(c, r) == Some(ReportPasses(c, r))
  {
    var f := r.family;
    FamilySearchMeaning(f, c.query);
    SelectionMeaning(c.sel.occupation, f.occupation);
    SelectionMeaning(c.sel.education, f.education);
    SelectionMeaning(c.sel.ethnicity, f.ethnicity);
    SelectionMeaning(c.sel.religion, f.religion);
  }

  /** Unlike the Dashboard's, this callback throws only through the search
      or the four joined names a selection reads; the location selections
      never throw. */
  lemma {:induction false} KeepReportThrows(c: Filter, r: ReportFamily)
    ensures KeepReportFamily(c, r).None? <==>
      FamilySearch(r.family, c.query).None? ||
      (c.sel.occupation != "" && r.family.occupation.Missing?) ||
      (c.sel.education != "" && r.family.education.Missing?) ||
      (c.sel.ethnicity != "" && r.family.ethnicity.Missing?) ||
      (c.sel.religion != "" && r.family.religion.Missing?)
  {
  }

  /** The filter keeps, in order, the records the callback accepts. */
  lemma {:induction false} FilterReportSpec(c: Filter, families: seq<ReportFamily>)
    ensures FilterReport(c, families).None? <==>
      exists i :: 0 <= i < |families| && KeepReportFamily(c, families[i]).None?
    ensures FilterReport(c, families).Some? ==>
      Subsequence(FilterReport(c, families).value, families) &&
      (forall r :: r in FilterReport(c, families).value <==> r in families && KeepReportFamily(c, r) == Some(true)) &&
      forall r :: multiset(FilterReport(c, families).value)[r] ==
        if KeepReportFamily(c, r) == Some(true) then multiset(families)[r] else 0
  {
    FilterOrThrowSpec(families, c, KeepReportFamily);
    KeptSpec(families, c, KeepReportFamily);
    KeptMultiplicity(families, c, KeepReportFamily);
  }

  /** With every selection on "all", an empty search and empty age bounds,
      every record with a string name is kept, in order. */
  lemma {:induction false} FilterReportAll(families: seq<ReportFamily>, todayYear: int)
    requires forall i :: 0 <= i < |families| ==> families[i].family.name.Str?
    ensures FilterReport(Filter("", NoSelections, AnyAge, todayYear), families) == Some(families)
  {
    var c := Filter("", NoSelections, AnyAge, todayYear);
    forall i | 0 <= i < |families|
      ensures KeepReportFamily(c, families[i]) == Some(true)
    {
      FamilySearchEmpty(families[i].family);
    }
    KeptAll(families, c, KeepReportFamily);
  }

  /** A record whose lookup failed passes a location or household selection
      only when the selection is `'Unknown'` itself. */
  lemma {:induction false} FailedLookupSelections(c: Filter, f: Family)
    requires KeepReportFamily(c, WithLocationNames(f, LookupError)) == Some(true)
    ensures Picks(c.sel.village, Unknown) && Picks(c.sel.wardVillageTract, Unknown) &&
      Picks(c.sel.township, Unknown) && Picks(c.sel.district, Unknown) &&
      Picks(c.sel.stateRegion, Unknown) && Picks(c.sel.household, Unknown)
  {
  }
}
