# VIMS admin console: a model of its in-memory logic

VIMS is a village information management console. Administrators use it to
browse and search the registry of families. Each family row joins its
household, location names, occupation, education, ethnicity and religion.
The console also registers deaths and shows a dashboard per village. All
persistent state lives in a hosted database. This project models what the
React pages do with the rows once they have fetched them:

- the Dashboard's record filter, its per-village tally of genders,
  families and distinct households, the sort by family count, and the chart
  series derived from them;
- the record filters of the Report, families, disabilities and deaths
  pages, with their dropdown selections, case-insensitive searches and age
  range check;
- the per-field `'Unknown'` fallback for location names looked up per
  family, and the fallback for a lookup that fails;
- client-side pagination: the page slice, row numbering, and the guarded
  previous/next handlers over a `currentPage` state;
- the death-register page state: the search result, the selected person,
  and the death row it builds;
- the locale switcher and the date and `classNames` helpers.

Modules follow the source layout:

- `Js` holds JavaScript values as rows carry them (`Missing` for a null
  join, `Null`, strings), truthiness, ASCII lower-casing, substring tests,
  and the short-circuit `||` and `&&` of callbacks that may throw.
- `Rows` holds an order-preserving `filter` that may throw, and
  `[...new Set(xs)]`.
- `Registry` holds the family record, the selections, `checkAge` and the
  twelve-field search.
- `Tools` models `src/pages/utilities/tools.js`.
- `DashboardFilter`, `DashboardTally` and `DashboardCharts` model
  `src/components/admin/Dashboard.jsx`.
- `Report`, `FamiliesPage`, `Disabilities` and `Deaths` model the pages of
  the same names.
- `LocationNames` is the lookup fallback the Report and the deaths pages
  share.
- `Pagination` is the paging the list pages share.
- `LocaleSwitcher` models the language links.

The tally is imperative, as in the source. `DashboardTally.TallyVillages`
is the `forEach` as a `while` loop over local state. `villageSet`,
`villageCounts`, the single shared `householdCounts` object and the two
totals are updated in place. The loop invariant ties them to specification
functions over the records the branch body has run for so far.
`householdCounts` stays one map whose entries are either a village's Set of
household numbers or a household's counter, as in the source. Pagination and
the deaths pages keep their React state as fields of a class, which their
handlers update.

## Model

| member | source | states |
|---|---|---|
| `Js.LowerIncludes` | src/components/admin/Dashboard.jsx:191-204 | `x.toLowerCase().includes(q.toLowerCase())` throws exactly on a non-string and otherwise is case-insensitive containment |
| `Js.GuardedLowerIncludes` | src/pages/admin/disabilities/index.jsx:57-63 | `x && x.toLowerCase()...` throws only on a null join; it is true only for a non-empty string containing the term |
| `Js.Selection` | src/components/admin/Dashboard.jsx:209-210 | an empty selection accepts without reading the field; otherwise it is strict equality, which throws exactly on a null join |
| `Js.ColumnSelection` | src/components/admin/Dashboard.jsx:206-207 | a selection against a plain column never throws and accepts exactly "all" or an equal string |
| `Js.Both` | src/components/admin/Dashboard.jsx:241-256 | constants combined by `&&` throw if either throws, and are true exactly when both are true |
| `Js.OrChainDefined` | src/components/admin/Dashboard.jsx:191-204 | a `\|\|` chain whose parts do not throw is true exactly when some part is true |
| `Js.AnyLowerIncludesThrows` | src/components/admin/Dashboard.jsx:191-204 | the search throws only if some listed field is not a string |
| `Rows.FilterOrThrowSpec` | src/components/admin/Dashboard.jsx:190 | `filter` throws exactly when its callback throws on some element, and otherwise returns the accepted elements |
| `Rows.KeptMultiplicity` | src/components/admin/Dashboard.jsx:190 | `filter` keeps each accepted value as many times as it occurs and drops every other value |
| `Rows.KeptSpec` | src/pages/admin/families/index.jsx:171 | the accepted elements form an order-preserving subsequence holding exactly the elements the callback accepts |
| `Rows.UniqueSpec` | src/components/admin/Report.jsx:365 | `[...new Set(values)]` has no duplicates, holds exactly the input values, and keeps first-occurrence order (also the genders list at line 384) |
| `Registry.QueryDeathStatusAgrees` | src/components/admin/Report.jsx:56-169 | the queried status is `'No'` for "all" and the selection otherwise; the client-side death check keeps every record the query returned |
| `Registry.CheckAgeValid` | src/components/admin/Dashboard.jsx:169-178 | for a real date the age is the difference of the years; both bounds are inclusive, and an empty bound is ignored |
| `Registry.CheckAgeInvalid` | src/components/admin/Report.jsx:241-250 | an Invalid Date passes only when both bounds are empty |
| `Registry.CheckAgeIgnoresMonth` | src/components/admin/Dashboard.jsx:171-173 | two birth dates in the same year pass or fail together; month and day take no part |
| `Registry.CheckAgeWiden` | src/components/admin/Dashboard.jsx:174-175 | widening either bound never drops a record |
| `Registry.FamilySearchMeaning` | src/components/admin/Dashboard.jsx:191-204 | on a record whose twelve fields are strings, the search is true exactly when one of them contains the term, ignoring case |
| `Registry.FamilySearchThrows` | src/components/admin/Report.jsx:263-276 | the search throws only on a record with a field that is not a string |
| `Registry.FamilySearchEmpty` | src/components/admin/Report.jsx:264 | with an empty term a record with a string name matches at the name |
| `Registry.FamilySearchCase` | src/pages/admin/families/index.jsx:172-185 | the case of the search term does not matter |
| `DashboardFilter.KeepFamilyMeaning` | src/components/admin/Dashboard.jsx:190-257 | on a readable record the callback is true exactly when every selection is "all" or equal, the search matches, and `checkAge` holds |
| `DashboardFilter.KeepFamilyThrows` | src/components/admin/Dashboard.jsx:190-240 | the callback throws exactly when the search throws or a non-empty selection reads a null join |
| `DashboardFilter.FilterFamiliesSpec` | src/components/admin/Dashboard.jsx:189-257 | `filterFamilies` is the order-preserving subsequence of accepted records, or throws when the callback throws on one; every copy of an accepted record is kept and no copy of a rejected one |
| `DashboardFilter.FilterFamiliesAll` | src/components/admin/Dashboard.jsx:205-233 | with every dropdown on "all", an empty search and empty ages, every record with a string name is kept, in order |
| `DashboardFilter.DeathYesAddsAll` | src/components/admin/Dashboard.jsx:206-207 | with the death dropdown on `Yes`, every kept record is a death, and the tally adds each exactly once |
| `DashboardTally.CountVillage` | src/components/admin/Dashboard.jsx:273-290 | the village joins the set; a new village starts with an all-zero bucket; the bucket counts `'ကျား'` as male and, otherwise, `'မ'` as female; the family count and `totalFamilies` grow by one |
| `DashboardTally.CountHousehold` | src/components/admin/Dashboard.jsx:292-305 | the writes to the shared `householdCounts`: the Set under the village key and the counter under the household number; the bucket's `householdCount` becomes the Set's size; `totalHouseholds` grows exactly for a household number with no truthy entry |
| `DashboardTally.TallyStep` | src/components/admin/Dashboard.jsx:273-305 | one run of the branch body keeps every variable in agreement with the records run so far, and no statement in it throws |
| `DashboardTally.RunBody` | src/components/admin/Dashboard.jsx:308-340 | the branch body (both copies) takes agreeing state to state agreeing with one more record |
| `DashboardTally.VisitFamily` | src/components/admin/Dashboard.jsx:266-341 | one callback runs the body for a living record with a truthy village, and again when the death selection is `Yes` |
| `DashboardTally.TallyVillages` | src/components/admin/Dashboard.jsx:259-342 | after the loop, the village set is exactly the villages tallied; each bucket holds its male, female and record counts and distinct household count; `totalFamilies` is the number of runs; `totalHouseholds` is the number of distinct truthy household numbers |
| `DashboardTally.AddedMembers` | src/components/admin/Dashboard.jsx:272 | a record is tallied exactly when it is living with a truthy village name, or when the death selection is `Yes` |
| `DashboardTally.AddedAtMostOnce` | src/components/admin/Dashboard.jsx:307 | without the `Yes` selection each record is tallied at most once |
| `DashboardTally.AddedAllDead` | src/components/admin/Dashboard.jsx:307-340 | with `Yes` and no living record, every record is tallied exactly once, in order, even one whose village is undefined |
| `DashboardTally.AddedLivingTwice` | src/components/admin/Dashboard.jsx:272-340 | with `Yes`, a living record with a truthy village is tallied twice |
| `DashboardTally.GenderWithinFamily` | src/components/admin/Dashboard.jsx:283-289 | in each bucket `maleCount + femaleCount <= familyCount` |
| `DashboardTally.HouseholdsWithinFamily` | src/components/admin/Dashboard.jsx:292-298 | a village's distinct household numbers never outnumber its records |
| `DashboardTally.HouseholdsWithinRecords` | src/components/admin/Dashboard.jsx:300-305 | all distinct household numbers never outnumber the tallied records |
| `DashboardTally.CountKeysAll` | src/components/admin/Dashboard.jsx:289-290 | counting under every village key counts every tallied record of the kind |
| `DashboardCharts.SortVillages` | src/components/admin/Dashboard.jsx:344-348 | `sortedVillages` lists exactly the keys it was given, each as often |
| `DashboardCharts.SortVillagesOrdered` | src/components/admin/Dashboard.jsx:344-348 | `sortedVillages` has non-increasing `familyCount` |
| `DashboardCharts.SortVillagesListing` | src/components/admin/Dashboard.jsx:344 | sorting a listing of the bucket keys gives a listing of the bucket keys, each once |
| `DashboardCharts.TotalsSpec` | src/components/admin/Dashboard.jsx:357-360 | the female reduction is the number of female records tallied; the family counts sum to the records tallied |
| `DashboardCharts.DashboardSpec` | src/components/admin/Dashboard.jsx:344-360 | after the tally, the labels are the keys in non-increasing family count. The two bar series are aligned with them and hold each village's records and distinct households, the second never above the first. The family bars sum to `totalFamilies`. `genderData` splits `totalFamilies` into not-female and female, the first at least the male count. `totalHouseholds <= totalFamilies` |
| `DashboardCharts.GenderData` | src/components/admin/Dashboard.jsx:357-360 | `genderData` has two entries that sum to `totalFamilies` |
| `Pagination.PageCount` | src/components/admin/Report.jsx:523 | `Math.ceil(n / perPage)` is the fewest pages that hold `n` rows |
| `Pagination.PageSlice` | src/pages/admin/families/index.jsx:213-214 | a page has at most `perPage` rows and is empty at or past the end; its row `i` is row `page * perPage + i` of the list |
| `Pagination.PagesCover` | src/pages/admin/families/index.jsx:211-214 | pages `0 .. ceil(n / perPage) - 1` concatenate back to exactly the list; every later page is empty |
| `Pagination.StepsInRange` | src/pages/admin/families/index.jsx:215-224 | both handlers keep `currentPage` within `[0, max(0, ceil(n / perPage) - 1)]`; next only moves to a page holding rows; neither moves past the last page |
| `Pagination.StepsUndo` | src/pages/admin/disabilities/index.jsx:74-83 | inside the range the two handlers undo each other |
| `Pagination.Pager.CurrentPageData` | src/pages/admin/disabilities/index.jsx:300 | the page has at most `perPage` rows, and the row numbered `currentPage * perPage + idx + 1` is that row of the whole list |
| `Pagination.Pager.GoToPreviousPage` | src/components/admin/Report.jsx:517-521 | `currentPage` moves back one unless it is 0, and stays in range |
| `Pagination.Pager.GoToNextPage` | src/components/admin/Dashboard.jsx:537-541 | `currentPage` moves forward one only while below `ceil(n / perPage) - 1`, and stays in range |
| `LocationNames.OrUnknown` | src/pages/admin/deaths/index.jsx:49 | `x \|\| 'Unknown'` is the value when truthy, `'Unknown'` otherwise, and never empty |
| `LocationNames.ResolveNamesSpec` | src/pages/admin/deaths/register.jsx:50-54 | each of the five names is the joined name when truthy, `'Unknown'` otherwise, field by field |
| `LocationNames.FailureLikeNoJoins` | src/pages/admin/deaths/register.jsx:57-65 | a failed lookup gives five `'Unknown'` names, as a row with no joins would |
| `Report.DeriveSpec` | src/components/admin/Report.jsx:102-137 | each of the nine derived fields is the first row's value when truthy and `'Unknown'` otherwise; a failed lookup or an empty result gives `'Unknown'` in all nine |
| `Report.WithLocationNames` | src/components/admin/Report.jsx:102-137 | the fetched record is kept whole through the spread, and beside it stand exactly the nine derived fields of its lookup, each the first row's value or `'Unknown'` field by field, as `Report.DeriveSpec` states |
| `Report.KeepReportMeaning` | src/components/admin/Report.jsx:262-330 | on a readable record the callback is the Dashboard's conjunction, but locations and household are compared against the derived names and household number |
| `Report.KeepReportThrows` | src/components/admin/Report.jsx:263-291 | the Report callback throws only through the search or the four joined dropdown names |
| `Report.FilterReportSpec` | src/components/admin/Report.jsx:262 | `filterFamilies` is the order-preserving subsequence of accepted records; every copy of an accepted record is kept and no copy of a rejected one |
| `Report.FilterReportAll` | src/components/admin/Report.jsx:262-330 | with every selection "all", an empty search and empty ages, every record with a string name is kept, in order |
| `Report.FailedLookupSelections` | src/components/admin/Report.jsx:124-137 | a record whose lookup failed passes a location or household selection only when the selection is `'Unknown'` |
| `FamiliesPage.KeepListedMeaning` | src/pages/admin/families/index.jsx:171-207 | a readable record is kept exactly when the search matches and each of five selections is "all" or equal to the joined value |
| `FamiliesPage.KeepListedIgnores` | src/pages/admin/families/index.jsx:198 | the record's own `household_no` column takes no part; the household dropdown reads the joined one |
| `FamiliesPage.FilteredFamiliesSpec` | src/pages/admin/families/index.jsx:171-208 | `filteredFamilies` is the order-preserving subsequence of accepted records; every copy of an accepted record is kept and no copy of a rejected one |
| `Disabilities.GuardedDatePrefix` | src/pages/admin/disabilities/index.jsx:61 | the date of birth matches only when set and its `DD/MM/YYYY` text starts with the term as typed |
| `Disabilities.KeepDisabilityMeaning` | src/pages/admin/disabilities/index.jsx:56-63 | a readable record is kept exactly when a truthy field contains the term, ignoring case, or its formatted date of birth starts with it; null or empty fields never match |
| `Disabilities.EmptySearch` | src/pages/admin/disabilities/index.jsx:56-68 | with an empty search a record is kept exactly when one guarded field is truthy |
| `Disabilities.FilteredDisabilitiesSpec` | src/pages/admin/disabilities/index.jsx:56-68 | `filteredDisabilities` is the order-preserving subsequence of accepted records; every copy of an accepted record is kept and no copy of a rejected one |
| `Deaths.WithNames` | src/pages/admin/deaths/register.jsx:46-66 | the record is kept whole with five non-empty names: after a found lookup each is the joined name or `'Unknown'`, field by field, as `LocationNames.ResolveNamesSpec` states; after a failed lookup all five are `'Unknown'` |
| `Deaths.WithAllNames` | src/pages/admin/deaths/index.jsx:31-66 | one lookup per record; results in the records' order |
| `Deaths.MatchMeaning` | src/pages/admin/deaths/register.jsx:83-90 | the register's search is case-insensitive containment in name, NRC id, date of birth or household number; the index's in name, NRC id or household number only |
| `Deaths.EmptyTermKeepsAll` | src/pages/admin/deaths/index.jsx:82-88 | the empty term keeps every record with a string name, in order |
| `Deaths.SearchSubsequence` | src/pages/admin/deaths/index.jsx:83-89 | a search result is an order-preserving subsequence of the whole list, holding exactly the matching records; every copy of an accepted record is kept and no copy of a rejected one |
| `Deaths.FindById` | src/pages/admin/deaths/register.jsx:105-108 | `find` gives the first record with the id, or nothing when none has it |
| `Deaths.BuildDeathRow` | src/pages/admin/deaths/register.jsx:116-123 | the death row carries the four form fields and `family_id` of the selected person; with nobody selected it throws |
| `Deaths.Register.FetchFamilies` | src/pages/admin/deaths/register.jsx:70-71 | after a fetch, `filteredFamilies` equals `families`; a failed query changes nothing |
| `Deaths.Register.HandleSearch` | src/pages/admin/deaths/register.jsx:78-91 | the search always runs over the full `families` list, so the result for a term does not depend on earlier searches |
| `Deaths.Register.HandleRegistrationClick` | src/pages/admin/deaths/register.jsx:105-108 | the selection becomes the first shown record with the id, or nobody |
| `Deaths.Register.HandleRegister` | src/pages/admin/deaths/register.jsx:111-141 | returns the row it inserts; the selection is cleared only after both writes succeed |
| `Deaths.Index.FetchFamilies` | src/pages/admin/deaths/index.jsx:69-70 | after a fetch, `filteredFamilies` equals `families` |
| `Deaths.Index.HandleSearch` | src/pages/admin/deaths/index.jsx:77-90 | the search always runs over the full `families` list |
| `LocaleSwitcher.OtherLocales` | src/components/admin/layouts/locale-switcher.jsx:10-12 | `otherLocales` is undefined exactly when `locales` is. Otherwise it is an order-preserving subsequence holding every locale except the active one and `"default"` |
| `LocaleSwitcher.FlagAndLabel` | src/components/admin/layouts/locale-switcher.jsx:20-37 | `en` and `mm` get `/images/flags/<locale>.png` and a label; every other locale gets null for both |
| `LocaleSwitcher.ConfiguredLinks` | src/components/admin/layouts/locale-switcher.jsx:10-12 | with `['default','en','mm']` (next.config.js:18) and active `en` the result is `['mm']`; every link shown has a flag and a label |
| `Tools.PadTwoDigits` | src/pages/utilities/tools.js:7-8 | `padStart(2, '0')` on 0..99 gives two digits reading back as the value: 1..9 become `01`..`09`, two-digit values are unchanged |
| `Tools.GetDateValueEmpty` | src/pages/utilities/tools.js:3 | a falsy input gives `""` |
| `Tools.GetDateValueRoundTrip` | src/pages/utilities/tools.js:5-10 | `getDateValue` writes `year-MM-DD` with month + 1, and reading it back gives the date |
| `Tools.FormatDateRoundTrip` | src/pages/utilities/tools.js:14-19 | `formatDate` writes `DD/MM/YYYY` with month + 1, and reading it back gives the date |
| `Tools.FormatsAgree` | src/pages/utilities/tools.js:2-20 | the two formats hold the same three fields in the opposite order |
| `Tools.InvalidDateText` | src/pages/utilities/tools.js:5-19 | an Invalid Date prints `NaN` in every field |
| `Tools.ClassNamesEmpty` | src/pages/utilities/tools.js:22-24 | `classNames` is `""` exactly when no argument is truthy, and returns a single truthy argument unchanged |
| `Tools.ClassNamesSplit` | src/pages/utilities/tools.js:22-24 | splitting the result on spaces gives back the truthy arguments in order, when none contains a space |

## Left out

- All database calls are inputs, not modelled. The queries' results and
  the per-family household lookups come in as given sequences, with a
  "failed" variant. That covers `Promise.all`, the `.eq`/`.order` filters
  applied by the server, and the reloads after a write.
- `Deaths.Register.HandleRegister`: the outcomes of the two writes are
  parameters. Their order and the missing transaction are not modelled.
  The page's `fetchFamilies` after a successful register is a separate
  `FetchFamilies` call.
- The floating-point display age (`Math.floor(... / 365.25 days)`) is left
  out. Only the integer year difference `checkAge` uses is modelled.
- JavaScript `Date` parsing, the time zone and the clock: `new Date(dob)` is
  given as a `JsDate` and the current year as a parameter.
- `toLowerCase` is modelled on ASCII letters only. Unicode case mapping is
  not modelled.
- `Object.keys` order: `sortedVillages` starts from any duplicate-free
  listing of the bucket keys. `Array.prototype.sort` is modelled as a
  stable insertion sort. Any other sort consistent with the comparator
  meets the same permutation and order lemmas, but ties may come out in a
  different order.
- `DashboardTally.TallyVillages`: requires that no two village values
  become the same property name (`undefined` and `"undefined"`, `null` and
  `"null"`), and that no household number equals a village key. One
  `householdCounts` object holds both kinds of entry. After such a clash
  the source's counts stop meaning what they say, or `.add` throws. The
  model does not describe what happens then.
- `DashboardTally.TallyVillages`, `DashboardTally.CountVillage` and
  `DashboardTally.CountHousehold` start `villageCounts` and
  `householdCounts` as empty maps. In the source they are `{}` literals
  that inherit `Object.prototype`. Property names such as `constructor`,
  `toString`, `valueOf`, `hasOwnProperty` and `__proto__` are not modelled:
  - a village named like that reads a truthy inherited value from
    `householdCounts`, gets no Set, and `.add` throws;
  - a household number named like that skips its counter, is not counted
    in `totalHouseholds`, and `++` stores `NaN`;
  - a village named `__proto__` replaces the prototype of `villageCounts`
    and never appears in `Object.keys`.

  The model treats every such name as a fresh key.
- An entry of `householdCounts` that is `NaN` (a Set incremented by `++`,
  possible only after such a clash) is represented, but no lemma speaks
  about it.
- The tally runs on local-variable method parameters, not on a class,
  because the source keeps them as locals of the render function.
- `LocaleSwitcher.OtherLocales`: the active locale is a string; an
  undefined active locale is not modelled.
- Not modelled: PDF and print export, the Chart.js configuration, JSX and
  Tailwind markup, `window.confirm`, `alert`, `window.location.reload`, the
  Sidebar (its `classNames` is the one in `Tools`), the wrapper pages
  and the static death form.
- The dropdown option lists fetched from the lookup tables are outside this
  model. They are plain query results, and no cascade links them.
