/** What the Dashboard draws from the tally (`src/components/admin/Dashboard.jsx`
    344-360): the villages sorted by family count, the two bar series and the
    gender pair. */
module DashboardCharts {
  import opened Js
  import opened Rows
  import opened Registry
  import opened DashboardTally

  /** Every listed key has a bucket. */
  predicate Listed(keys: seq<string>, vc: map<string, Bucket>) {
    forall i :: 0 <= i < |keys| ==> keys[i] in vc
  }

  /** `keys` is an `Object.keys(villageCounts)` listing: every key once, in
      some order. */
  predicate KeyListing(keys: seq<string>, vc: map<string, Bucket>) {
    NoDuplicates(keys) && Listed(keys, vc) && (forall k :: k in vc ==> k in keys)
  }

  // ---------------------------------------------------------------- sortedVillages

  /** The keys, as far as they are listed, in non-increasing order of their
      family counts. */
  predicate FamilyCountOrdered(s: seq<string>, vc: map<string, Bucket>) {
    forall i, j :: 0 <= i < j < |s| && s[i] in vc && s[j] in vc ==>
      vc[s[i]].familyCount >= vc[s[j]].familyCount
  }

  /** `x` placed into a list ordered by family count, behind every key with
      a count at least its own. */
  function InsertByCount(s: seq<string>, x: string, vc: map<string, Bucket>): (r: seq<string>)
    requires Listed(s, vc) && x in vc
    ensures Listed(r, vc)
    ensures multiset(r) == multiset(s) + multiset{x}
    decreases |s|
  {
    if s == [] then [x]
    else if vc[x].familyCount > vc[s[0]].familyCount then [x] + s
    else
      assert s == [s[0]] + s[1..];
      [s[0]] + InsertByCount(s[1..], x, vc)
  }

  /** `Object.keys(villageCounts).sort((a, b) => b.familyCount - a.familyCount)`:
      a stable sort, so keys with equal counts keep their order. It lists
      the same keys as often as the listing does. */
  function SortVillages(keys: seq<string>, vc: map<string, Bucket>): (r: seq<string>)
    requires Listed(keys, vc)
    ensures Listed(r, vc)
    ensures multiset(r) == multiset(keys)
    decreases |keys|
  {
    if keys == [] then []
    else
      assert keys == keys[..|keys| - 1] + [keys[|keys| - 1]];
      InsertByCount(SortVillages(keys[..|keys| - 1], vc), keys[|keys| - 1], vc)
  }

  /** Inserting keeps the order. */
  lemma {:induction false} InsertOrdered(s: seq<string>, x: string, vc: map<string, Bucket>)
    requires Listed(s, vc) && x in vc && FamilyCountOrdered(s, vc)
    ensures FamilyCountOrdered(InsertByCount(s, x, vc), vc)
    decreases |s|
  {
    if s == [] {
    } else if vc[x].familyCount > vc[s[0]].familyCount {
      HeadDominates(s, vc);
      ConsOrdered(x, s, vc);
    } else {
      var rest := InsertByCount(s[1..], x, vc);
      TailOrdered(s, vc);
      InsertOrdered(s[1..], x, vc);
      HeadDominates(s, vc);
      InsertBounded(s[1..], x, vc, vc[s[0]].familyCount);
      ConsOrdered(s[0], rest, vc);
    }
  }

  /** Every listed key has a count of at most `c`. */
  predicate AllAtMost(s: seq<string>, vc: map<string, Bucket>, c: nat) {
    forall j :: 0 <= j < |s| ==> s[j] in vc && vc[s[j]].familyCount <= c
  }

  /** Inserting a key of count at most `c` keeps every count at most `c`. */
  lemma {:induction false} InsertBounded(s: seq<string>, x: string, vc: map<string, Bucket>, c: nat)
    requires Listed(s, vc) && x in vc && AllAtMost(s, vc, c) && vc[x].familyCount <= c
    ensures AllAtMost(InsertByCount(s, x, vc), vc, c)
    decreases |s|
  {
    if s != [] && vc[x].familyCount <= vc[s[0]].familyCount {
      assert AllAtMost(s[1..], vc, c);
      InsertBounded(s[1..], x, vc, c);
    }
  }

  /** The tail of an ordered listing is ordered. */
  lemma {:induction false} TailOrdered(s: seq<string>, vc: map<string, Bucket>)
    requires FamilyCountOrdered(s, vc) && s != []
    ensures FamilyCountOrdered(s[1..], vc)
  {
    forall i, j | 0 <= i < j < |s[1..]| && s[1..][i] in vc && s[1..][j] in vc
      ensures vc[s[1..][i]].familyCount >= vc[s[1..][j]].familyCount
    {
      assert s[1..][i] == s[i + 1] && s[1..][j] == s[j + 1];
    }
  }

  /** A key whose count is at least every count of an ordered listing can
      go in front of it. */
  lemma {:induction false} ConsOrdered(k: string, s: seq<string>, vc: map<string, Bucket>)
    requires k in vc && FamilyCountOrdered(s, vc) && AllAtMost(s, vc, vc[k].familyCount)
    ensures FamilyCountOrdered([k] + s, vc)
  {
    forall i, j | 0 <= i < j < |[k] + s| && ([k] + s)[i] in vc && ([k] + s)[j] in vc
      ensures vc[([k] + s)[i]].familyCount >= vc[([k] + s)[j]].familyCount
    {
      if i > 0 {
        assert ([k] + s)[i] == s[i - 1];
      }
      assert ([k] + s)[j] == s[j - 1];
    }
  }

  /** In an ordered listing every key's count is at most the first key's. */
  lemma {:induction false} HeadDominates(s: seq<string>, vc: map<string, Bucket>)
    requires Listed(s, vc) && FamilyCountOrdered(s, vc) && s != []
    ensures AllAtMost(s, vc, vc[s[0]].familyCount)
    ensures AllAtMost(s[1..], vc, vc[s[0]].familyCount)
  {
    assert forall j :: 0 <= j < |s[1..]| ==> s[1..][j] == s[j + 1];
  }

  /** `sortedVillages` is in non-increasing order of family count. */
  lemma {:induction false} SortVillagesOrdered(keys: seq<string>, vc: map<string, Bucket>)
    requires Listed(keys, vc)
    ensures FamilyCountOrdered(SortVillages(keys, vc), vc)
    decreases |keys|
  {
    if keys != [] {
      var init := keys[..|keys| - 1];
      SortVillagesOrdered(init, vc);
      InsertOrdered(SortVillages(init, vc), keys[|keys| - 1], vc);
    }
  }

  /** Sorting a key listing gives a key listing. */
  lemma {:induction false} SortVillagesListing(keys: seq<string>, vc: map<string, Bucket>)
    requires KeyListing(keys, vc)
    ensures Listed(keys, vc)
    ensures KeyListing(SortVillages(keys, vc), vc)
  {
    var r := SortVillages(keys, vc);
    forall k | k in vc
      ensures k in r
    {
      assert k in multiset(keys);
    }
    forall i, j | 0 <= i < j < |r|
      ensures r[i] != r[j]
    {
      if r[i] == r[j] {
        MultiplicityTwo(r, i, j);
        MultiplicityOne(keys, r[i]);
      }
    }
  }

  lemma {:induction false} MultiplicityTwo<T>(s: seq<T>, i: int, j: int)
    requires 0 <= i < j < |s| && s[i] == s[j]
    ensures multiset(s)[s[i]] >= 2
  {
    assert s == s[..i] + [s[i]] + s[i + 1..j] + [s[j]] + s[j + 1..];
  }

  lemma {:induction false} MultiplicityOne<T>(s: seq<T>, x: T)
    requires NoDuplicates(s)
    ensures multiset(s)[x] <= 1
    decreases |s|
  {
    if s != [] {
      MultiplicityOne(s[1..], x);
      assert s == [s[0]] + s[1..];
      if s[0] == x {
        assert x !in s[1..];
      }
    }
  }

  // ---------------------------------------------------------------- the chart series

  /** `sortedVillages.map((village) => villageCounts[village].familyCount)`. */
  function FamilySeries(labels: seq<string>, vc: map<string, Bucket>): (r: seq<nat>)
    requires Listed(labels, vc)
    ensures |r| == |labels|
  {
    seq(|labels|, i requires 0 <= i < |labels| && Listed(labels, vc) => vc[labels[i]].familyCount)
  }

  /** `sortedVillages.map((village) => villageCounts[village].householdCount)`. */
  function HouseholdSeries(labels: seq<string>, vc: map<string, Bucket>): (r: seq<nat>)
    requires Listed(labels, vc)
    ensures |r| == |labels|
  {
    seq(|labels|, i requires 0 <= i < |labels| && Listed(labels, vc) => vc[labels[i]].householdCount)
  }

  /** `sortedVillages.reduce((acc, village) => acc + villageCounts[village].femaleCount, 0)`. */
  function FemaleTotal(labels: seq<string>, vc: map<string, Bucket>): nat
    requires Listed(labels, vc)
    decreases |labels|
  {
    if labels == [] then 0
    else FemaleTotal(labels[..|labels| - 1], vc) + vc[labels[|labels| - 1]].femaleCount
  }

  /** The same reduction over `familyCount`: the families the chart shows. */
  function FamilyTotal(labels: seq<string>, vc: map<string, Bucket>): nat
    requires Listed(labels, vc)
    decreases |labels|
  {
    if labels == [] then 0
    else FamilyTotal(labels[..|labels| - 1], vc) + vc[labels[|labels| - 1]].familyCount
  }

  /** `genderData`: the families not counted as female, then the female
      ones. */
  function GenderData(totalFamilies: int, labels: seq<string>, vc: map<string, Bucket>): (r: seq<int>)
    requires Listed(labels, vc)
    ensures |r| == 2 && r[0] + r[1] == totalFamilies
  {
    [totalFamilies - FemaleTotal(labels, vc), FemaleTotal(labels, vc)]
  }

  /** The keys a listing holds. */
  function KeySet(labels: seq<string>): (r: set<string>)
    ensures forall k :: k in r <==> k in labels
    decreases |labels|
  {
    if labels == [] then {}
    else
      assert labels == labels[..|labels| - 1] + [labels[|labels| - 1]];
      KeySet(labels[..|labels| - 1]) + {labels[|labels| - 1]}
  }

  /** Over listed keys free of duplicates, the reductions count the tallied
      records under those keys. */
  lemma {:induction false} TotalsCountKeys(labels: seq<string>, vc: map<string, Bucket>, a: seq<Family>)
    requires Listed(labels, vc) && NoDuplicates(labels) && CountsAgree(vc, a)
    ensures FemaleTotal(labels, vc) == CountKeys(a, KeySet(labels), FemaleRecord)
    ensures FamilyTotal(labels, vc) == CountKeys(a, KeySet(labels), AnyRecord)
    decreases |labels|
  {
    if labels == [] {
      CountKeysEmpty(a, FemaleRecord);
      CountKeysEmpty(a, AnyRecord);
    } else {
      var init := labels[..|labels| - 1];
      var last := labels[|labels| - 1];
      assert labels == init + [last];
      assert Listed(init, vc) && NoDuplicates(init);
      TotalsCountKeys(init, vc, a);
      assert last !in init;
      assert vc[last] == BucketOf(a, last);
      CountKeysAdd(a, KeySet(init), last, FemaleRecord);
      CountKeysAdd(a, KeySet(init), last, AnyRecord);
    }
  }

  /** Over a key listing, the female reduction is the number of female
      records tallied, and the family reduction is the number of records
      tallied, which is `totalFamilies`. */
  lemma {:induction false} TotalsSpec(labels: seq<string>, vc: map<string, Bucket>, a: seq<Family>)
    requires KeyListing(labels, vc) && CountsAgree(vc, a)
    ensures Listed(labels, vc)
    ensures FemaleTotal(labels, vc) == CountAll(a, FemaleRecord)
    ensures FamilyTotal(labels, vc) == |a|
  {
    assert Listed(labels, vc);
    TotalsCountKeys(labels, vc, a);
    assert Keys(a) <= KeySet(labels);
    CountKeysAll(a, KeySet(labels), FemaleRecord);
    CountKeysAll(a, KeySet(labels), AnyRecord);
    CountAllRecords(a);
  }

  /** What the Dashboard shows after the tally: the sorted labels are the
      village keys in non-increasing order of family count; the bar series
      are aligned with them and hold, per village, the number of records
      and of distinct household numbers tallied there, the latter never
      above the former; the family bars add up to `totalFamilies`; and the
      gender pair splits `totalFamilies` into the records not counted
      female, at least the male ones, and the female ones. */
  lemma {:induction false} DashboardSpec(vs: set<Field>, vc: map<string, Bucket>, hc: map<string, Entry>,
                                         totalFamilies: nat, totalHouseholds: nat, a: seq<Family>,
                                         keys: seq<string>)
    requires TallyAgrees(vs, vc, hc, totalFamilies, totalHouseholds, a) && KeyListing(keys, vc)
    ensures Listed(keys, vc)
    ensures var labels := SortVillages(keys, vc);
      KeyListing(labels, vc) && FamilyCountOrdered(labels, vc) &&
      (forall i :: 0 <= i < |labels| ==>
         FamilySeries(labels, vc)[i] == Count(a, labels[i], AnyRecord) &&
         HouseholdSeries(labels, vc)[i] == |HouseholdsIn(a, labels[i])| &&
         HouseholdSeries(labels, vc)[i] <= FamilySeries(labels, vc)[i]) &&
      FamilyTotal(labels, vc) == totalFamilies &&
      GenderData(totalFamilies, labels, vc)[1] == CountAll(a, FemaleRecord) &&
      GenderData(totalFamilies, labels, vc)[0] >= CountAll(a, MaleRecord)
    ensures totalHouseholds <= totalFamilies
  {
    SortVillagesListing(keys, vc);
    var labels := SortVillages(keys, vc);
    SortVillagesOrdered(keys, vc);
    forall i | 0 <= i < |labels|
      ensures FamilySeries(labels, vc)[i] == Count(a, labels[i], AnyRecord)
      ensures HouseholdSeries(labels, vc)[i] == |HouseholdsIn(a, labels[i])|
      ensures HouseholdSeries(labels, vc)[i] <= FamilySeries(labels, vc)[i]
    {
      assert vc[labels[i]] == BucketOf(a, labels[i]);
      HouseholdsWithinFamily(a, labels[i]);
    }
    TotalsSpec(labels, vc, a);
    GendersApart(a);
    HouseholdsWithinRecords(a);
  }
}
