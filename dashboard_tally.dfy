/** The Dashboard's per-village tally (`src/components/admin/Dashboard.jsx`
    259-342): a `forEach` over the filtered families that fills `villageSet`,
    `villageCounts`, `householdCounts` and the two running totals.

    The tally is specified against the sequence of records the block has been
    run for (`added`): a record may be run through it once, twice or not at
    all, depending on the two branches of the loop body. */
module DashboardTally {
  import opened Js
  import opened Registry

  /** The gender tokens the tally recognises. */
  const Male := "ကျား"
  const Female := "မ"

  /** `villageCounts[villageName]`. */
  datatype Bucket = Bucket(maleCount: nat, femaleCount: nat, familyCount: nat, householdCount: nat)

  const EmptyBucket := Bucket(0, 0, 0, 0)

  /** Which records a count counts. */
  datatype Kind = AnyRecord | MaleRecord | FemaleRecord

  /** `family.households?.villages?.name`. */
  function VillageOf(f: Family): Field {
    f.location.village
  }

  /** `family.households?.household_no`. */
  function HouseholdOf(f: Family): Field {
    f.household
  }

  /** The property name under which a record is tallied. */
  function KeyFor(f: Family): string {
    KeyOf(VillageOf(f))
  }

  predicate IsKind(f: Family, kind: Kind) {
    match kind
    case AnyRecord => true
    case MaleRecord => f.gender == Str(Male)
    case FemaleRecord => f.gender == Str(Female)
  }

  // ---------------------------------------------------------------- the specification of the tally

  /** The village values seen, as the JavaScript `Set` keeps them. */
  function Villages(a: seq<Family>): set<Field>
    decreases |a|
  {
    if a == [] then {} else Villages(a[..|a| - 1]) + {VillageOf(a[|a| - 1])}
  }

  /** The keys of `villageCounts`. */
  function Keys(a: seq<Family>): set<string>
    decreases |a|
  {
    if a == [] then {} else Keys(a[..|a| - 1]) + {KeyFor(a[|a| - 1])}
  }

  /** The number of records of a kind tallied under key `k`. */
  function Count(a: seq<Family>, k: string, kind: Kind): nat
    decreases |a|
  {
    if a == [] then 0
    else Count(a[..|a| - 1], k, kind) + (if KeyFor(a[|a| - 1]) == k && IsKind(a[|a| - 1], kind) then 1 else 0)
  }

  /** The number of records of a kind, under any key. */
  function CountAll(a: seq<Family>, kind: Kind): nat
    decreases |a|
  {
    if a == [] then 0
    else CountAll(a[..|a| - 1], kind) + (if IsKind(a[|a| - 1], kind) then 1 else 0)
  }

  /** The household number a record adds, if it is truthy. */
  function HouseholdSet(f: Family): set<string> {
    if Truthy(HouseholdOf(f)) then {HouseholdOf(f).s} else {}
  }

  /** The truthy household numbers of the records tallied under key `k`. */
  function HouseholdsIn(a: seq<Family>, k: string): set<string>
    decreases |a|
  {
    if a == [] then {}
    else HouseholdsIn(a[..|a| - 1], k) + (if KeyFor(a[|a| - 1]) == k then HouseholdSet(a[|a| - 1]) else {})
  }

  /** The truthy household numbers of all tallied records. */
  function AllHouseholds(a: seq<Family>): set<string>
    decreases |a|
  {
    if a == [] then {} else AllHouseholds(a[..|a| - 1]) + HouseholdSet(a[|a| - 1])
  }

  /** The village keys under which `householdCounts` holds a Set: those of
      the records with a truthy household number. */
  function SetKeys(a: seq<Family>): set<string>
    decreases |a|
  {
    if a == [] then {}
    else SetKeys(a[..|a| - 1]) + (if Truthy(HouseholdOf(a[|a| - 1])) then {KeyFor(a[|a| - 1])} else {})
  }

  /** The property names `householdCounts[householdNo]++` writes: those of
      every record's household number, truthy or not. */
  function HouseholdKeys(a: seq<Family>): set<string>
    decreases |a|
  {
    if a == [] then {} else HouseholdKeys(a[..|a| - 1]) + {KeyOf(HouseholdOf(a[|a| - 1]))}
  }

  /** What `villageCounts[k]` should hold after tallying `a`. */
  function BucketOf(a: seq<Family>, k: string): Bucket {
    Bucket(Count(a, k, MaleRecord), Count(a, k, FemaleRecord), Count(a, k, AnyRecord), |HouseholdsIn(a, k)|)
  }

  /** The tally means what it says only while no two distinct village values
      become the same property name (`undefined` and `"undefined"`, `null`
      and `"null"`), and while no household number is written under a
      property name that holds a village's Set: the shared `householdCounts`
      object keeps both kinds of entry. */
  predicate NoClash(a: seq<Family>) {
    VillagesApart(Villages(a)) && HouseholdKeys(a) !! SetKeys(a)
  }

  /** No two of the village values become the same property name. */
  predicate VillagesApart(vs: set<Field>) {
    !(Missing in vs && Str("undefined") in vs) && !(Null in vs && Str("null") in vs)
  }

  // ---------------------------------------------------------------- facts the tally step uses

  /** Each specification function takes one step when a record is tallied. */
  lemma {:induction false} Unfold(a: seq<Family>, f: Family)
    ensures Villages(a + [f]) == Villages(a) + {VillageOf(f)}
    ensures Keys(a + [f]) == Keys(a) + {KeyFor(f)}
    ensures forall k, kind :: Count(a + [f], k, kind) ==
              Count(a, k, kind) + (if KeyFor(f) == k && IsKind(f, kind) then 1 else 0)
    ensures forall kind :: CountAll(a + [f], kind) == CountAll(a, kind) + (if IsKind(f, kind) then 1 else 0)
    ensures forall k :: HouseholdsIn(a + [f], k) ==
              HouseholdsIn(a, k) + (if KeyFor(f) == k then HouseholdSet(f) else {})
    ensures AllHouseholds(a + [f]) == AllHouseholds(a) + HouseholdSet(f)
    ensures SetKeys(a + [f]) == SetKeys(a) + (if Truthy(HouseholdOf(f)) then {KeyFor(f)} else {})
    ensures HouseholdKeys(a + [f]) == HouseholdKeys(a) + {KeyOf(HouseholdOf(f))}
  {
    assert (a + [f])[..|a|] == a;
  }

  /** The steps of the household functions alone, for the proofs about
      `householdCounts`. */
  lemma {:induction false} UnfoldHouseholds(a: seq<Family>, f: Family)
    ensures forall k :: HouseholdsIn(a + [f], k) ==
              HouseholdsIn(a, k) + (if KeyFor(f) == k then HouseholdSet(f) else {})
    ensures SetKeys(a + [f]) == SetKeys(a) + (if Truthy(HouseholdOf(f)) then {KeyFor(f)} else {})
    ensures HouseholdKeys(a + [f]) == HouseholdKeys(a) + {KeyOf(HouseholdOf(f))}
  {
    Unfold(a, f);
  }

  lemma {:induction false} NoClashPrefix(a: seq<Family>, f: Family)
    requires NoClash(a + [f])
    ensures NoClash(a)
  {
    Unfold(a, f);
  }

  /** A key holds a Set exactly when some record under it has a truthy
      household number. */
  lemma {:induction false} SetKeysMeaning(a: seq<Family>, k: string)
    ensures k in SetKeys(a) <==> HouseholdsIn(a, k) != {}
    decreases |a|
  {
    if a != [] {
      var init := a[..|a| - 1];
      var f := a[|a| - 1];
      assert a == init + [f];
      Unfold(init, f);
      SetKeysMeaning(init, k);
    }
  }

  /** A key nobody was tallied under has an empty bucket and no Set. */
  lemma {:induction false} UnseenKey(a: seq<Family>, k: string)
    requires k !in Keys(a)
    ensures BucketOf(a, k) == EmptyBucket
    ensures HouseholdsIn(a, k) == {}
    decreases |a|
  {
    if a != [] {
      var init := a[..|a| - 1];
      var f := a[|a| - 1];
      assert a == init + [f];
      Unfold(init, f);
      UnseenKey(init, k);
    }
  }

  /** The keys are the property names of the village values. */
  lemma {:induction false} KeysOfVillages(a: seq<Family>, k: string)
    requires k in Keys(a)
    ensures exists v :: v in Villages(a) && KeyOf(v) == k
    decreases |a|
  {
    var init := a[..|a| - 1];
    var f := a[|a| - 1];
    assert a == init + [f];
    Unfold(init, f);
    if k != KeyFor(f) {
      KeysOfVillages(init, k);
    } else {
      assert VillageOf(f) in Villages(a);
    }
  }

  /** Two village values with the same property name are the same value,
      unless they are one of the two pairs `NoClash` rules out. */
  lemma {:induction false} KeyOfClash(v: Field, w: Field)
    requires KeyOf(v) == KeyOf(w) && v != w
    ensures (v == Missing && w == Str("undefined")) || (v == Str("undefined") && w == Missing) ||
            (v == Null && w == Str("null")) || (v == Str("null") && w == Null)
  {
  }

  /** Under `NoClash`, a value new to the village set has a key new to
      `villageCounts`, and a value already in it has its key there. */
  lemma {:induction false} VillageKey(a: seq<Family>, f: Family)
    requires VillagesApart(Villages(a + [f]))
    ensures VillageOf(f) !in Villages(a) <==> KeyFor(f) !in Keys(a)
    decreases |a|
  {
    if a != [] {
      var init := a[..|a| - 1];
      var g := a[|a| - 1];
      assert a == init + [g];
      UnfoldVillages(init, g);
      UnfoldVillages(a, f);
      UnfoldVillages(init, f);
      VillageKey(init, f);
      if KeyFor(g) == KeyFor(f) && VillageOf(g) != VillageOf(f) {
        KeyOfClash(VillageOf(g), VillageOf(f));
      }
    }
  }

  lemma {:induction false} UnfoldVillages(a: seq<Family>, f: Family)
    ensures Villages(a + [f]) == Villages(a) + {VillageOf(f)}
    ensures Keys(a + [f]) == Keys(a) + {KeyFor(f)}
  {
    Unfold(a, f);
  }

  /** Under `NoClash`, a household number never names a key holding a
      Set, so a truthy one has a counter or nothing. */
  lemma {:induction false} KeysApart(a: seq<Family>)
    requires NoClash(a)
    ensures AllHouseholds(a) !! SetKeys(a)
    decreases |a|
  {
    if a != [] {
      var init := a[..|a| - 1];
      var f := a[|a| - 1];
      assert a == init + [f];
      Unfold(init, f);
      AllHouseholdsKeys(init);
    }
  }

  /** A truthy household number is written under its own text. */
  lemma {:induction false} AllHouseholdsKeys(a: seq<Family>)
    ensures AllHouseholds(a) <= HouseholdKeys(a)
    decreases |a|
  {
    if a != [] {
      var init := a[..|a| - 1];
      var f := a[|a| - 1];
      assert a == init + [f];
      Unfold(init, f);
      AllHouseholdsKeys(init);
    }
  }

  // ---------------------------------------------------------------- the shared householdCounts object

  /** A value of `householdCounts`: a village's Set of household numbers,
      a household number's counter, or the NaN that `++` leaves on an entry
      that was `undefined` or a Set. */
  datatype Entry = Members(households: set<string>) | Counter(n: nat) | NotANumber

  /** `!!householdCounts[k]`. */
  predicate Present(hc: map<string, Entry>, k: string) {
    k in hc && (hc[k].Members? || (hc[k].Counter? && hc[k].n != 0))
  }

  /** `householdCounts[k]++`. */
  function Increment(hc: map<string, Entry>, k: string): (r: map<string, Entry>)
    ensures r.Keys == hc.Keys + {k}
  {
    var next := if k in hc && hc[k].Counter? then Counter(hc[k].n + 1) else NotANumber;
    hc[k := next]
  }

  /** `villageCounts` holds the bucket of every key tallied, and no other. */
  predicate CountsAgree(vc: map<string, Bucket>, a: seq<Family>) {
    vc.Keys == Keys(a) && forall k {:trigger BucketOf(a, k)} :: k in vc ==> vc[k] == BucketOf(a, k)
  }

  /** `householdCounts` holds, under each village key with a truthy household
      number, the Set of those numbers, and a positive counter exactly under
      the truthy household numbers seen. */
  ghost predicate HouseholdCountsAgree(hc: map<string, Entry>, a: seq<Family>) {
    (forall k :: k in SetKeys(a) ==> k in hc && hc[k] == Members(HouseholdsIn(a, k))) &&
    (forall k :: k in AllHouseholds(a) ==> k in hc) &&
    (forall k :: k in hc ==>
       (hc[k].Members? ==> k in SetKeys(a)) &&
       (hc[k].Counter? <==> k in AllHouseholds(a)) &&
       (hc[k].Counter? ==> hc[k].n > 0))
  }

  /** The bucket after lines 284-289 count a record's gender and the
      record itself. */
  function Tallied(b: Bucket, f: Family): Bucket {
    Bucket(
      b.maleCount + (if f.gender == Str(Male) then 1 else 0),
      b.femaleCount + (if f.gender != Str(Male) && f.gender == Str(Female) then 1 else 0),
      b.familyCount + 1,
      b.householdCount)
  }

  /** The bucket after lines 292-297 for a record: with a truthy household
      number, the size of the village's Set once the number is added. */
  function WithHousehold(b: Bucket, hc: map<string, Entry>, f: Family): Bucket {
    var h := HouseholdOf(f);
    if Truthy(h) then b.(householdCount := |SetUnder(hc, KeyFor(f)) + {h.s}|) else b
  }

  /** Tallying a record turns the bucket under its own key into its bucket
      before with the gender and the record counted and, for a truthy
      household number, the size of the village's Set with that number. */
  lemma {:induction false} BucketAfter(a: seq<Family>, f: Family)
    ensures var k := KeyFor(f);
      var b := Tallied(BucketOf(a, k), f);
      var h := HouseholdOf(f);
      BucketOf(a + [f], k) ==
        if Truthy(h) then b.(householdCount := |HouseholdsIn(a, k) + {h.s}|) else b
  {
    OwnCounts(a, f);
  }

  /** The counts under the record's own key each take one step. */
  lemma {:induction false} OwnCounts(a: seq<Family>, f: Family)
    ensures HouseholdsIn(a + [f], KeyFor(f)) == HouseholdsIn(a, KeyFor(f)) + HouseholdSet(f)
    ensures Count(a + [f], KeyFor(f), AnyRecord) == Count(a, KeyFor(f), AnyRecord) + 1
    ensures Count(a + [f], KeyFor(f), MaleRecord) ==
              Count(a, KeyFor(f), MaleRecord) + (if f.gender == Str(Male) then 1 else 0)
    ensures Count(a + [f], KeyFor(f), FemaleRecord) ==
              Count(a, KeyFor(f), FemaleRecord) + (if f.gender == Str(Female) then 1 else 0)
  {
    assert (a + [f])[..|a|] == a;
  }

  /** The buckets under the other keys do not change. */
  lemma {:induction false} OtherBucket(a: seq<Family>, f: Family, k: string)
    requires k != KeyFor(f)
    ensures BucketOf(a + [f], k) == BucketOf(a, k)
  {
    assert (a + [f])[..|a|] == a;
  }

  /** A map that agreed with the tally of `a` and now holds the bucket of
      `a + [f]` under the record's key agrees with the tally of `a + [f]`. */
  lemma {:induction false} CountsAfter(vc: map<string, Bucket>, vc': map<string, Bucket>, a: seq<Family>, f: Family)
    requires CountsAgree(vc, a)
    requires vc'.Keys == vc.Keys + {KeyFor(f)}
    requires forall k :: k in vc' && k != KeyFor(f) ==> vc'[k] == vc[k]
    requires vc'[KeyFor(f)] == BucketOf(a + [f], KeyFor(f))
    ensures CountsAgree(vc', a + [f])
  {
    Unfold(a, f);
    forall k | k in vc' && k != KeyFor(f)
      ensures vc'[k] == BucketOf(a + [f], k)
    {
      OtherBucket(a, f, k);
    }
  }

  /** The Set under village key `k` that `.add` extends: the entry itself,
      or the `new Set()` stored there when the entry is falsy. (A truthy
      entry that is not a Set would make `.add` throw; `NoClash` rules that
      out.) */
  function SetUnder(hc: map<string, Entry>, k: string): set<string> {
    if Present(hc, k) && hc[k].Members? then hc[k].households else {}
  }

  /** Lines 293-296: the household number joins the Set under the village
      key. */
  function AddToSet(hc: map<string, Entry>, k: string, h: string): map<string, Entry> {
    hc[k := Members(SetUnder(hc, k) + {h})]
  }

  /** Lines 300-303: a truthy household number without a truthy entry gets
      the counter `0`. */
  function StartCounter(hc: map<string, Entry>, h: Field): map<string, Entry> {
    if Truthy(h) && !Present(hc, h.s) then hc[h.s := Counter(0)] else hc
  }

  /** The three writes to `householdCounts` made for one record
      (lines 292-305): the village's Set gains the household number, a new
      household number gets a counter, and the entry under the household
      number is incremented. */
  function HouseholdWrites(hc: map<string, Entry>, f: Family): map<string, Entry> {
    var h := HouseholdOf(f);
    Increment(StartCounter(SetStep(hc, f), h), KeyOf(h))
  }

  /** Before a record with a truthy household number is tallied, the entry
      under its village key is that village's Set, or falsy when the village
      has none yet. */
  lemma {:induction false} VillageEntry(hc: map<string, Entry>, a: seq<Family>, f: Family)
    requires HouseholdCountsAgree(hc, a) && NoClash(a + [f]) && Truthy(HouseholdOf(f))
    ensures !Present(hc, KeyFor(f)) || hc[KeyFor(f)].Members?
    ensures SetUnder(hc, KeyFor(f)) == HouseholdsIn(a, KeyFor(f))
  {
    Unfold(a, f);
    AllHouseholdsKeys(a + [f]);
    SetKeysMeaning(a, KeyFor(f));
    assert KeyFor(f) in SetKeys(a + [f]);
    assert KeyFor(f) !in AllHouseholds(a);
  }

  /** The writes under the village key, when the household number is
      truthy. */
  function SetStep(hc: map<string, Entry>, f: Family): map<string, Entry> {
    if Truthy(HouseholdOf(f)) then AddToSet(hc, KeyFor(f), HouseholdOf(f).s) else hc
  }

  /** A truthy household number is not the village key, and it already has
      a truthy entry exactly when it was seen before. */
  lemma {:induction false} CounterPresent(hc: map<string, Entry>, a: seq<Family>, f: Family)
    requires HouseholdCountsAgree(hc, a) && NoClash(a + [f]) && Truthy(HouseholdOf(f))
    ensures var h := HouseholdOf(f).s;
      h != KeyFor(f) && (Present(SetStep(hc, f), h) <==> h in AllHouseholds(a))
  {
    Unfold(a, f);
    var h := HouseholdOf(f).s;
    assert h in HouseholdKeys(a + [f]);
    assert KeyFor(f) in SetKeys(a + [f]);
  }

  /** After the writes, every village key with a truthy household number
      holds the Set of that village's numbers. */
  lemma {:induction false} SetsStep(hc: map<string, Entry>, a: seq<Family>, f: Family)
    requires HouseholdCountsAgree(hc, a) && NoClash(a + [f])
    ensures forall k :: k in SetKeys(a + [f]) ==>
              k in HouseholdWrites(hc, f) && HouseholdWrites(hc, f)[k] == Members(HouseholdsIn(a + [f], k))
  {
    UnfoldHouseholds(a, f);
    var h := HouseholdOf(f);
    var hw := HouseholdWrites(hc, f);
    assert KeyOf(h) in HouseholdKeys(a + [f]);
    if Truthy(h) {
      VillageEntry(hc, a, f);
      CounterPresent(hc, a, f);
    }
    forall k | k in SetKeys(a + [f])
      ensures k in hw && hw[k] == Members(HouseholdsIn(a + [f], k))
    {
      assert k != KeyOf(h);
      if Truthy(h) && k == KeyFor(f) {
        assert hw[k] == Members(SetUnder(hc, k) + {h.s});
      } else {
        assert k in SetKeys(a);
        assert hw[k] == hc[k];
      }
    }
  }

  /** After the writes, the entries under the truthy household numbers seen
      are counters, and only those. */
  lemma {:induction false} CountersStep(hc: map<string, Entry>, a: seq<Family>, f: Family)
    requires HouseholdCountsAgree(hc, a) && NoClash(a + [f])
    ensures forall k :: k in AllHouseholds(a + [f]) ==> k in HouseholdWrites(hc, f)
    ensures forall k :: k in HouseholdWrites(hc, f) ==>
              (HouseholdWrites(hc, f)[k].Members? ==> k in SetKeys(a + [f])) &&
              (HouseholdWrites(hc, f)[k].Counter? <==> k in AllHouseholds(a + [f])) &&
              (HouseholdWrites(hc, f)[k].Counter? ==> HouseholdWrites(hc, f)[k].n > 0)
  {
    Unfold(a, f);
    var h := HouseholdOf(f);
    var hc3 := HouseholdWrites(hc, f);
    KeysApart(a + [f]);
    if Truthy(h) {
      CounterPresent(hc, a, f);
    }
    forall k | k in hc3
      ensures (hc3[k].Members? ==> k in SetKeys(a + [f])) &&
              (hc3[k].Counter? <==> k in AllHouseholds(a + [f])) &&
              (hc3[k].Counter? ==> hc3[k].n > 0)
    {
      if k == KeyOf(h) && !Truthy(h) {
        assert k in hc && hc[k].Members? ==> k in SetKeys(a + [f]);
      }
    }
  }

  /** The writes keep `householdCounts` in agreement with the tally. */
  lemma {:induction false} HouseholdStep(hc: map<string, Entry>, a: seq<Family>, f: Family)
    requires HouseholdCountsAgree(hc, a) && NoClash(a + [f])
    ensures HouseholdCountsAgree(HouseholdWrites(hc, f), a + [f])
  {
    SetsStep(hc, a, f);
    CountersStep(hc, a, f);
  }

  /** `totalHouseholds` grows exactly when a new truthy household number
      appears. */
  lemma {:induction false} HouseholdTotalStep(a: seq<Family>, f: Family)
    ensures var h := HouseholdOf(f);
      |AllHouseholds(a + [f])| == |AllHouseholds(a)| + (if Truthy(h) && h.s !in AllHouseholds(a) then 1 else 0)
  {
    Unfold(a, f);
    var h := HouseholdOf(f);
    if Truthy(h) && h.s in AllHouseholds(a) {
      assert AllHouseholds(a) + {h.s} == AllHouseholds(a);
    }
  }

  // ---------------------------------------------------------------- one run of the branch body

  /** The bucket lines 273-282 leave under the record's key: the one there,
      or a fresh empty bucket for a village not yet in the Set. */
  function VillageBucket(vs: set<Field>, vc: map<string, Bucket>, f: Family): Bucket {
    if VillageOf(f) in vs && KeyFor(f) in vc then vc[KeyFor(f)] else EmptyBucket
  }

  /** `villageCounts` after lines 273-297. */
  function VillageCountsAfter(vs: set<Field>, vc: map<string, Bucket>, hc: map<string, Entry>, f: Family): map<string, Bucket> {
    vc[KeyFor(f) := NewBucket(vs, vc, hc, f)]
  }

  /** The bucket under the record's key after lines 273-297. */
  function NewBucket(vs: set<Field>, vc: map<string, Bucket>, hc: map<string, Entry>, f: Family): Bucket {
    WithHousehold(Tallied(VillageBucket(vs, vc, f), f), hc, f)
  }

  /** Lines 300-303 start a counter, and count a household, for a truthy
      household number without a truthy entry. */
  predicate NewHousehold(hc: map<string, Entry>, f: Family) {
    Truthy(HouseholdOf(f)) && !Present(SetStep(hc, f), HouseholdOf(f).s)
  }

  /** After a run, the bucket under the record's key is the bucket of the
      records tallied so far under that key. */
  lemma {:induction false} OwnBucketStep(vs: set<Field>, vc: map<string, Bucket>, hc: map<string, Entry>,
                                         a: seq<Family>, f: Family)
    requires CountsAgree(vc, a) && (VillageOf(f) in vs <==> KeyFor(f) in vc)
    requires Truthy(HouseholdOf(f)) ==> SetUnder(hc, KeyFor(f)) == HouseholdsIn(a, KeyFor(f))
    ensures NewBucket(vs, vc, hc, f) == BucketOf(a + [f], KeyFor(f))
  {
    var key := KeyFor(f);
    assert VillageBucket(vs, vc, f) == BucketOf(a, key) by {
      if key !in vc {
        UnseenKey(a, key);
      }
    }
    BucketAfter(a, f);
  }

  /** A run writes `villageCounts` only under the record's key. */
  lemma {:induction false} VillageCountsShape(vs: set<Field>, vc: map<string, Bucket>, hc: map<string, Entry>, f: Family)
    ensures VillageCountsAfter(vs, vc, hc, f).Keys == vc.Keys + {KeyFor(f)}
    ensures forall k :: k in VillageCountsAfter(vs, vc, hc, f) && k != KeyFor(f) ==>
              VillageCountsAfter(vs, vc, hc, f)[k] == vc[k]
    ensures VillageCountsAfter(vs, vc, hc, f)[KeyFor(f)] == NewBucket(vs, vc, hc, f)
  {
  }

  /** Lines 273-290 and then 292-297 write the bucket `NewBucket` names. */
  lemma {:induction false} VillageCountsWrites(vs: set<Field>, vc: map<string, Bucket>, hc: map<string, Entry>, f: Family)
    ensures var vc1 := vc[KeyFor(f) := Tallied(VillageBucket(vs, vc, f), f)];
      vc1[KeyFor(f) := WithHousehold(vc1[KeyFor(f)], hc, f)] == VillageCountsAfter(vs, vc, hc, f)
  {
  }

  /** After a run, `villageCounts` holds the buckets of the records tallied
      so far, the previous ones and this one. */
  lemma {:induction false} VillageCountsStep(vs: set<Field>, vc: map<string, Bucket>, hc: map<string, Entry>,
                                             a: seq<Family>, f: Family)
    requires CountsAgree(vc, a) && (VillageOf(f) in vs <==> KeyFor(f) in vc)
    requires Truthy(HouseholdOf(f)) ==> SetUnder(hc, KeyFor(f)) == HouseholdsIn(a, KeyFor(f))
    ensures CountsAgree(VillageCountsAfter(vs, vc, hc, f), a + [f])
  {
    OwnBucketStep(vs, vc, hc, a, f);
    VillageCountsShape(vs, vc, hc, f);
    CountsAfter(vc, VillageCountsAfter(vs, vc, hc, f), a, f);
  }

  /** After a run, `totalHouseholds` is the number of distinct truthy
      household numbers tallied. */
  lemma {:induction false} TotalHouseholdsStep(hc: map<string, Entry>, a: seq<Family>, f: Family)
    requires HouseholdCountsAgree(hc, a) && NoClash(a + [f])
    ensures |AllHouseholds(a)| + (if NewHousehold(hc, f) then 1 else 0) == |AllHouseholds(a + [f])|
  {
    if Truthy(HouseholdOf(f)) {
      CounterPresent(hc, a, f);
    }
    HouseholdTotalStep(a, f);
  }

  /** The state of the tally agrees with the records tallied so far. */
  ghost predicate TallyAgrees(vs: set<Field>, vc: map<string, Bucket>, hc: map<string, Entry>,
                              totalFamilies: nat, totalHouseholds: nat, a: seq<Family>) {
    vs == Villages(a) &&
    CountsAgree(vc, a) &&
    HouseholdCountsAgree(hc, a) &&
    totalFamilies == |a| &&
    totalHouseholds == |AllHouseholds(a)|
  }

  /** One run of the branch body keeps the tally in agreement, and never
      reaches a statement that throws: a village already in the Set has its
      bucket, and the entry a truthy household number is added to is a Set
      or falsy. */
  lemma {:induction false} TallyStep(vs: set<Field>, vc: map<string, Bucket>, hc: map<string, Entry>,
                                     totalFamilies: nat, totalHouseholds: nat, a: seq<Family>, f: Family)
    requires TallyAgrees(vs, vc, hc, totalFamilies, totalHouseholds, a) && NoClash(a + [f])
    ensures VillageOf(f) in vs ==> KeyFor(f) in vc
    ensures Truthy(HouseholdOf(f)) ==> !Present(hc, KeyFor(f)) || hc[KeyFor(f)].Members?
    ensures TallyAgrees(vs + {VillageOf(f)}, VillageCountsAfter(vs, vc, hc, f), HouseholdWrites(hc, f),
                        totalFamilies + 1, totalHouseholds + (if NewHousehold(hc, f) then 1 else 0), a + [f])
  {
    VillageKey(a, f);
    if Truthy(HouseholdOf(f)) {
      VillageEntry(hc, a, f);
    }
    VillageCountsStep(vs, vc, hc, a, f);
    HouseholdStep(hc, a, f);
    TotalHouseholdsStep(hc, a, f);
    assert Villages(a + [f]) == vs + {VillageOf(f)} by {
      Unfold(a, f);
    }
  }

  // ---------------------------------------------------------------- the tally

  /** Lines 273-290: a village seen for the first time gets an empty
      bucket; the bucket counts the record's gender and the record; and the
      record counts towards `totalFamilies`. */
  method CountVillage(villageSet: set<Field>, villageCounts: map<string, Bucket>, totalFamilies: nat, f: Family)
    returns (villageSet': set<Field>, villageCounts': map<string, Bucket>, totalFamilies': nat)
    requires VillageOf(f) in villageSet ==> KeyFor(f) in villageCounts
    ensures villageSet' == villageSet + {VillageOf(f)}
    ensures villageCounts' == villageCounts[KeyFor(f) := Tallied(VillageBucket(villageSet, villageCounts, f), f)]
    ensures totalFamilies' == totalFamilies + 1
  {
    villageSet', villageCounts' := villageSet, villageCounts;
    var villageName := VillageOf(f);
    var key := KeyOf(villageName);
    if villageName !in villageSet' {
      villageSet' := villageSet' + {villageName};
      villageCounts' := villageCounts'[key := EmptyBucket];
    }
    var b := villageCounts'[key];
    if f.gender == Str(Male) {
      b := b.(maleCount := b.maleCount + 1);
    } else if f.gender == Str(Female) {
      b := b.(femaleCount := b.femaleCount + 1);
    }
    villageCounts' := villageCounts'[key := b.(familyCount := b.familyCount + 1)];
    totalFamilies' := totalFamilies + 1;
  }

  /** Lines 292-305: a truthy household number joins the Set under the
      village key, whose size becomes the bucket's `householdCount`; one
      without a truthy entry gets the counter `0` and counts towards
      `totalHouseholds`; then the entry under the household number is
      incremented. */
  method CountHousehold(villageCounts: map<string, Bucket>, householdCounts: map<string, Entry>,
                        totalHouseholds: nat, f: Family)
    returns (villageCounts': map<string, Bucket>, householdCounts': map<string, Entry>, totalHouseholds': nat)
    requires KeyFor(f) in villageCounts
    requires Truthy(HouseholdOf(f)) ==>
      !Present(householdCounts, KeyFor(f)) || householdCounts[KeyFor(f)].Members?
    ensures householdCounts' == HouseholdWrites(householdCounts, f)
    ensures villageCounts' == villageCounts[KeyFor(f) :=
      WithHousehold(villageCounts[KeyFor(f)], householdCounts, f)]
    ensures totalHouseholds' == totalHouseholds + (if NewHousehold(householdCounts, f) then 1 else 0)
  {
    villageCounts', householdCounts', totalHouseholds' := villageCounts, householdCounts, totalHouseholds;
    var key := KeyFor(f);
    var householdNo := HouseholdOf(f);
    if Truthy(householdNo) {
      if !Present(householdCounts', key) {
        householdCounts' := householdCounts'[key := Members({})];
      }
      householdCounts' := householdCounts'[key := Members(householdCounts'[key].households + {householdNo.s})];
      villageCounts' := villageCounts'[key := villageCounts'[key].(householdCount := |householdCounts'[key].households|)];
    }
    if Truthy(householdNo) && !Present(householdCounts', householdNo.s) {
      householdCounts' := householdCounts'[householdNo.s := Counter(0)];
      totalHouseholds' := totalHouseholds' + 1;
    }
    householdCounts' := Increment(householdCounts', KeyOf(householdNo));
  }

  /** The branch body (lines 273-305, repeated at 308-340) run for one more
      record keeps the tally in agreement with the records it has run for. */
  method RunBody(villageSet: set<Field>, villageCounts: map<string, Bucket>, householdCounts: map<string, Entry>,
                 totalFamilies: nat, totalHouseholds: nat, ghost a: seq<Family>, f: Family)
    returns (villageSet': set<Field>, villageCounts': map<string, Bucket>, householdCounts': map<string, Entry>,
             totalFamilies': nat, totalHouseholds': nat)
    requires TallyAgrees(villageSet, villageCounts, householdCounts, totalFamilies, totalHouseholds, a)
    requires NoClash(a + [f])
    ensures TallyAgrees(villageSet', villageCounts', householdCounts', totalFamilies', totalHouseholds', a + [f])
  {
    TallyStep(villageSet, villageCounts, householdCounts, totalFamilies, totalHouseholds, a, f);
    var vc;
    villageSet', vc, totalFamilies' := CountVillage(villageSet, villageCounts, totalFamilies, f);
    villageCounts', householdCounts', totalHouseholds' := CountHousehold(vc, householdCounts, totalHouseholds, f);
    VillageCountsWrites(villageSet, villageCounts, householdCounts, f);
  }

  // ---------------------------------------------------------------- the loop

  /** The run of the branch body for a record with a truthy village that
      is not dead (line 272). */
  function FirstRun(f: Family): seq<Family> {
    if Truthy(VillageOf(f)) && f.isDeath == Str("No") then [f] else []
  }

  /** The run whenever the death selection is `Yes` (line 307). */
  function SecondRun(f: Family, selectedDeath: string): seq<Family> {
    if selectedDeath == "Yes" then [f] else []
  }

  /** The runs of the branch body for one record, in order. */
  function Contribution(f: Family, selectedDeath: string): seq<Family> {
    FirstRun(f) + SecondRun(f, selectedDeath)
  }

  /** The runs taken one at a time. */
  lemma {:induction false} RunsInOrder(done: seq<Family>, f: Family, selectedDeath: string)
    ensures done + Contribution(f, selectedDeath) == (done + FirstRun(f)) + SecondRun(f, selectedDeath)
    ensures done + FirstRun(f) == if Truthy(VillageOf(f)) && f.isDeath == Str("No") then done + [f] else done
    ensures (done + FirstRun(f)) + SecondRun(f, selectedDeath) ==
              if selectedDeath == "Yes" then (done + FirstRun(f)) + [f] else done + FirstRun(f)
  {
  }

  /** The records the branch body has run for after the loop has visited
      `records`. */
  function Added(records: seq<Family>, selectedDeath: string): seq<Family>
    decreases |records|
  {
    if records == [] then []
    else Added(records[..|records| - 1], selectedDeath) + Contribution(records[|records| - 1], selectedDeath)
  }

  lemma {:induction false} NoClashAppend(a: seq<Family>, b: seq<Family>)
    requires NoClash(a + b)
    ensures NoClash(a)
    decreases |b|
  {
    if b == [] {
      assert a + b == a;
    } else {
      var init := b[..|b| - 1];
      assert a + b == (a + init) + [b[|b| - 1]];
      NoClashPrefix(a + init, b[|b| - 1]);
      NoClashAppend(a, init);
    }
  }

  /** What the loop has tallied after `j` records is a prefix of what it
      tallies in all, so it is free of clashes when the whole is. */
  lemma {:induction false} AddedNoClash(records: seq<Family>, j: nat, selectedDeath: string)
    requires j <= |records| && NoClash(Added(records, selectedDeath))
    ensures NoClash(Added(records[..j], selectedDeath))
    decreases |records|
  {
    if j < |records| {
      var init := records[..|records| - 1];
      NoClashAppend(Added(init, selectedDeath), Contribution(records[|records| - 1], selectedDeath));
      AddedNoClash(init, j, selectedDeath);
      assert init[..j] == records[..j];
    } else {
      assert records[..j] == records;
    }
  }

  /** One more record visited adds its runs of the branch body. */
  lemma {:induction false} AddedStep(records: seq<Family>, i: nat, selectedDeath: string)
    requires i < |records|
    ensures Added(records[..i + 1], selectedDeath) ==
              Added(records[..i], selectedDeath) + Contribution(records[i], selectedDeath)
  {
    assert records[..i + 1][..i] == records[..i];
  }

  /** The `forEach` callback (lines 266-341) for one family: the branch body
      for a living record with a truthy village, and again when the death
      selection is `Yes`. */
  method VisitFamily(villageSet: set<Field>, villageCounts: map<string, Bucket>, householdCounts: map<string, Entry>,
                     totalFamilies: nat, totalHouseholds: nat, ghost done: seq<Family>,
                     family: Family, selectedDeath: string)
    returns (villageSet': set<Field>, villageCounts': map<string, Bucket>, householdCounts': map<string, Entry>,
             totalFamilies': nat, totalHouseholds': nat)
    requires TallyAgrees(villageSet, villageCounts, householdCounts, totalFamilies, totalHouseholds, done)
    requires NoClash(done + Contribution(family, selectedDeath))
    ensures TallyAgrees(villageSet', villageCounts', householdCounts', totalFamilies', totalHouseholds',
                        done + Contribution(family, selectedDeath))
  {
    villageSet', villageCounts', householdCounts', totalFamilies', totalHouseholds' :=
      villageSet, villageCounts, householdCounts, totalFamilies, totalHouseholds;
    RunsInOrder(done, family, selectedDeath);
    NoClashAppend(done + FirstRun(family), SecondRun(family, selectedDeath));
    if Truthy(VillageOf(family)) && family.isDeath == Str("No") {
      villageSet', villageCounts', householdCounts', totalFamilies', totalHouseholds' :=
        RunBody(villageSet', villageCounts', householdCounts', totalFamilies', totalHouseholds', done, family);
    }
    if selectedDeath == "Yes" {
      villageSet', villageCounts', householdCounts', totalFamilies', totalHouseholds' :=
        RunBody(villageSet', villageCounts', householdCounts', totalFamilies', totalHouseholds',
                done + FirstRun(family), family);
    }
  }

  /** Lines 259-341: the `forEach` over the filtered families. With no
      clash among the property names, it leaves every variable agreeing with
      the records the branch body ran for. */
  method TallyVillages(families: seq<Family>, selectedDeath: string)
    returns (villageSet: set<Field>, villageCounts: map<string, Bucket>, householdCounts: map<string, Entry>,
             totalFamilies: nat, totalHouseholds: nat)
    requires NoClash(Added(families, selectedDeath))
    ensures TallyAgrees(villageSet, villageCounts, householdCounts, totalFamilies, totalHouseholds,
                        Added(families, selectedDeath))
  {
    villageSet, villageCounts, householdCounts, totalFamilies, totalHouseholds := {}, map[], map[], 0, 0;
    var i := 0;
    while i < |families|
      invariant i <= |families|
      invariant TallyAgrees(villageSet, villageCounts, householdCounts, totalFamilies, totalHouseholds,
                            Added(families[..i], selectedDeath))
    {
      AddedStep(families, i, selectedDeath);
      AddedNoClash(families, i + 1, selectedDeath);
      villageSet, villageCounts, householdCounts, totalFamilies, totalHouseholds :=
        VisitFamily(villageSet, villageCounts, householdCounts, totalFamilies, totalHouseholds,
                    Added(families[..i], selectedDeath), families[i], selectedDeath);
      i := i + 1;
    }
    assert families[..i] == families;
  }

  // ---------------------------------------------------------------- what the tally promises

  /** A record is tallied exactly when it is among the visited records and
      it is a living record with a truthy village or the death selection is
      `Yes`. */
  lemma {:induction false} AddedMembers(records: seq<Family>, selectedDeath: string)
    ensures forall f :: f in Added(records, selectedDeath) <==>
              f in records && ((Truthy(VillageOf(f)) && f.isDeath == Str("No")) || selectedDeath == "Yes")
    decreases |records|
  {
    if records != [] {
      var init := records[..|records| - 1];
      var last := records[|records| - 1];
      AddedMembers(init, selectedDeath);
      assert records == init + [last];
      assert forall f :: f in records <==> f in init || f == last;
    }
  }

  /** When the death selection is not `Yes`, each record is tallied at most
      once. */
  lemma {:induction false} AddedAtMostOnce(records: seq<Family>, selectedDeath: string)
    requires selectedDeath != "Yes"
    ensures |Added(records, selectedDeath)| <= |records|
    decreases |records|
  {
    if records != [] {
      AddedAtMostOnce(records[..|records| - 1], selectedDeath);
    }
  }

  /** When the death selection is `Yes` and no record is a living one (as
      the records the selection lets through are), every record is tallied
      exactly once, in order. */
  lemma {:induction false} AddedAllDead(records: seq<Family>)
    requires forall i :: 0 <= i < |records| ==> records[i].isDeath != Str("No")
    ensures Added(records, "Yes") == records
    decreases |records|
  {
    if records != [] {
      AddedAllDead(records[..|records| - 1]);
      assert records[..|records| - 1] + [records[|records| - 1]] == records;
    }
  }

  /** When the death selection is `Yes`, a living record with a truthy
      village runs through the branch body twice. */
  lemma {:induction false} AddedLivingTwice(f: Family)
    requires Truthy(VillageOf(f)) && f.isDeath == Str("No")
    ensures Added([f], "Yes") == [f, f]
  {
    assert [f][..0] == [];
  }

  /** A bucket's male and female counts together never exceed its family
      count. */
  lemma {:induction false} GenderWithinFamily(a: seq<Family>, k: string)
    ensures Count(a, k, MaleRecord) + Count(a, k, FemaleRecord) <= Count(a, k, AnyRecord)
    decreases |a|
  {
    if a != [] {
      GenderWithinFamily(a[..|a| - 1], k);
    }
  }

  /** A village's distinct household numbers never outnumber its records. */
  lemma {:induction false} HouseholdsWithinFamily(a: seq<Family>, k: string)
    ensures |HouseholdsIn(a, k)| <= Count(a, k, AnyRecord)
    decreases |a|
  {
    if a != [] {
      var init := a[..|a| - 1];
      HouseholdsWithinFamily(init, k);
      var extra := if KeyFor(a[|a| - 1]) == k then HouseholdSet(a[|a| - 1]) else {};
      assert |HouseholdsIn(init, k) + extra| <= |HouseholdsIn(init, k)| + |extra|;
    }
  }

  /** All distinct household numbers never outnumber the tallied records. */
  lemma {:induction false} HouseholdsWithinRecords(a: seq<Family>)
    ensures |AllHouseholds(a)| <= |a|
    decreases |a|
  {
    if a != [] {
      var init := a[..|a| - 1];
      HouseholdsWithinRecords(init);
      var extra := HouseholdSet(a[|a| - 1]);
      assert |AllHouseholds(init) + extra| <= |AllHouseholds(init)| + |extra|;
    }
  }

  /** Every tallied record is counted under some key. */
  lemma {:induction false} CountAllRecords(a: seq<Family>)
    ensures CountAll(a, AnyRecord) == |a|
    decreases |a|
  {
    if a != [] {
      CountAllRecords(a[..|a| - 1]);
    }
  }

  /** No record is both male and female. */
  lemma {:induction false} GendersApart(a: seq<Family>)
    ensures CountAll(a, MaleRecord) + CountAll(a, FemaleRecord) <= |a|
    decreases |a|
  {
    if a != [] {
      GendersApart(a[..|a| - 1]);
    }
  }

  /** The records of a kind tallied under the keys in `K`. */
  function CountKeys(a: seq<Family>, K: set<string>, kind: Kind): nat
    decreases |a|
  {
    if a == [] then 0
    else CountKeys(a[..|a| - 1], K, kind) + (if KeyFor(a[|a| - 1]) in K && IsKind(a[|a| - 1], kind) then 1 else 0)
  }

  lemma {:induction false} CountKeysEmpty(a: seq<Family>, kind: Kind)
    ensures CountKeys(a, {}, kind) == 0
    decreases |a|
  {
    if a != [] {
      CountKeysEmpty(a[..|a| - 1], kind);
    }
  }

  /** Counting under one more key adds that key's count. */
  lemma {:induction false} CountKeysAdd(a: seq<Family>, K: set<string>, k: string, kind: Kind)
    requires k !in K
    ensures CountKeys(a, K + {k}, kind) == CountKeys(a, K, kind) + Count(a, k, kind)
    decreases |a|
  {
    if a != [] {
      CountKeysAdd(a[..|a| - 1], K, k, kind);
    }
  }

  /** Counting under every key tallied counts every record of the kind. */
  lemma {:induction false} CountKeysAll(a: seq<Family>, K: set<string>, kind: Kind)
    requires Keys(a) <= K
    ensures CountKeys(a, K, kind) == CountAll(a, kind)
    decreases |a|
  {
    if a != [] {
      var init := a[..|a| - 1];
      assert a == init + [a[|a| - 1]];
      Unfold(init, a[|a| - 1]);
      CountKeysAll(init, K, kind);
    }
  }
}
