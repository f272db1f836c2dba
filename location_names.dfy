/** The per-family household lookup the Report and the two deaths pages run
    after fetching their records: every joined location name falls back to
    `'Unknown'` when it is falsy, and a lookup that fails gives `'Unknown'`
    everywhere. */
module LocationNames {
  import opened Js
  import opened Registry

  const Unknown := "Unknown"

  /** `value || 'Unknown'`. */
  function OrUnknown(f: Field): (r: string)
    ensures Truthy(f) ==> r == f.s
    ensures !Truthy(f) ==> r == Unknown
    ensures r != ""
  {
    OrElseCases(f, Unknown);
    OrElse(f, Unknown)
  }

  /** `villageName`, `wardVillageTractName`, `townshipName`, `districtName`
      and `stateRegionName`. */
  datatype Names = Names(
    village: string,
    wardVillageTract: string,
    township: string,
    district: string,
    stateRegion: string)

  /** What the `catch` block spreads in. */
  const UnknownNames := Names(Unknown, Unknown, Unknown, Unknown, Unknown)

  /** `row?.villages?.name || 'Unknown'` and the like, where a `Missing`
      field is a null row or a null join. */
  function ResolveNames(loc: Location): Names {
    Names(OrUnknown(loc.village), OrUnknown(loc.wardVillageTract), OrUnknown(loc.township),
          OrUnknown(loc.district), OrUnknown(loc.stateRegion))
  }

  /** Each name is the joined name when that is a non-empty string and
      `'Unknown'` otherwise, decided field by field; no name is ever
      empty. */
  lemma {:induction false} ResolveNamesSpec(loc: Location)
    ensures ResolveNames(loc).village == (if Truthy(loc.village) then loc.village.s else Unknown)
    ensures ResolveNames(loc).wardVillageTract ==
      (if Truthy(loc.wardVillageTract) then loc.wardVillageTract.s else Unknown)
    ensures ResolveNames(loc).township == (if Truthy(loc.township) then loc.township.s else Unknown)
    ensures ResolveNames(loc).district == (if Truthy(loc.district) then loc.district.s else Unknown)
    ensures ResolveNames(loc).stateRegion == (if Truthy(loc.stateRegion) then loc.stateRegion.s else Unknown)
    ensures NoneEmpty(ResolveNames(loc))
  {
  }

  predicate NoneEmpty(n: Names) {
    n.village != "" && n.wardVillageTract != "" && n.township != "" &&
    n.district != "" && n.stateRegion != ""
  }

  /** A failed lookup reads like a household with no joined names. */
  lemma {:induction false} FailureLikeNoJoins()
    ensures ResolveNames(Location(Missing, Missing, Missing, Missing, Missing)) == UnknownNames
    ensures NoneEmpty(UnknownNames)
  {
  }

  /** The outcome of the `.single()` lookup of the deaths pages: an error,
      or the household row's joined names. */
  datatype NamesLookup = LookupFailed | Found(loc: Location)

  /** The names a deaths page attaches to a record. */
  function LookupNames(lookup: NamesLookup): Names {
    match lookup
    case LookupFailed => UnknownNames
    case Found(loc) => ResolveNames(loc)
  }
}
