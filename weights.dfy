/**
 * The weight store logic of App.tsx: merging imported weights, saving one
 * edited weight, a group's total and average over its member slots, and
 * the display tier of a weight.
 */
module Weights {
  import opened Wrappers
  import opened Types

  // ---------------------------------------------------------------------
  // Updates of the store

  /** `{ ...existing, ...imported }`: the imported weights win. */
  function Merge(existing: MemberWeight, imported: MemberWeight): (r: MemberWeight)
    ensures forall k :: k in r <==> k in imported || k in existing
    ensures forall k :: k in imported ==> r[k] == imported[k]
    ensures forall k :: k !in imported && k in existing ==> r[k] == existing[k]
  {
    existing + imported
  }

  /** Merging nothing leaves the store as it was. */
  lemma MergeNothing(existing: MemberWeight)
    ensures Merge(existing, map[]) == existing
  {
  }

  /** `{ ...prev, [name]: weight }`: one entry set, every other one kept. */
  function SetWeight(weights: MemberWeight, name: string, weight: real): (r: MemberWeight)
    ensures name in r && r[name] == weight
    ensures forall k :: k != name ==> (k in r <==> k in weights)
    ensures forall k :: k != name && k in weights ==> r[k] == weights[k]
  {
    weights[name := weight]
  }

  // ---------------------------------------------------------------------
  // Group statistics

  /** `m && weights[m]`: the slot is non-empty and holds a stored weight
    * that is not 0 (a weight of exactly 0 is falsy). */
  predicate Counted(weights: MemberWeight, m: string)
  {
    m != "" && m in weights && weights[m] != 0.0
  }

  /** The sum of the counted slots' weights. */
  function SlotTotal(weights: MemberWeight, members: seq<string>): real
  {
    if members == [] then 0.0
    else
      SlotTotal(weights, members[..|members| - 1])
      + (if Counted(weights, members[|members| - 1]) then weights[members[|members| - 1]] else 0.0)
  }

  /** The number of counted slots. */
  function SlotCount(weights: MemberWeight, members: seq<string>): (n: nat)
    ensures n <= |members|
  {
    if members == [] then 0
    else SlotCount(weights, members[..|members| - 1]) + (if Counted(weights, members[|members| - 1]) then 1 else 0)
  }

  /** The sum of the stored weights of the non-empty slots, zeros included. */
  function StoredTotal(weights: MemberWeight, members: seq<string>): real
  {
    if members == [] then 0.0
    else
      StoredTotal(weights, members[..|members| - 1])
      + (if members[|members| - 1] != "" && members[|members| - 1] in weights then weights[members[|members| - 1]] else 0.0)
  }

  /** Leaving out zero weights does not change a total: the truthiness test
    * matters only for the count. */
  lemma {:induction false} SlotTotalIsStoredTotal(weights: MemberWeight, members: seq<string>)
    ensures SlotTotal(weights, members) == StoredTotal(weights, members)
  {
    if members != [] {
      SlotTotalIsStoredTotal(weights, members[..|members| - 1]);
    }
  }

  /** With every counted weight at least lo, the total is at least count times lo. */
  lemma {:induction false} SlotTotalAtLeast(weights: MemberWeight, members: seq<string>, lo: real)
    requires forall i :: 0 <= i < |members| && Counted(weights, members[i]) ==> lo <= weights[members[i]]
    ensures (SlotCount(weights, members) as real) * lo <= SlotTotal(weights, members)
  {
    if members != [] {
      SlotTotalAtLeast(weights, members[..|members| - 1], lo);
    }
  }

  /** With every counted weight at most hi, the total is at most count times hi. */
  lemma {:induction false} SlotTotalAtMost(weights: MemberWeight, members: seq<string>, hi: real)
    requires forall i :: 0 <= i < |members| && Counted(weights, members[i]) ==> weights[members[i]] <= hi
    ensures SlotTotal(weights, members) <= (SlotCount(weights, members) as real) * hi
  {
    if members != [] {
      SlotTotalAtMost(weights, members[..|members| - 1], hi);
    }
  }

  /** The average of a group lies within the range of its counted weights. */
  lemma AverageWithinBounds(weights: MemberWeight, members: seq<string>, lo: real, hi: real)
    requires SlotCount(weights, members) > 0
    requires forall i :: 0 <= i < |members| && Counted(weights, members[i]) ==> lo <= weights[members[i]] <= hi
    ensures lo <= SlotTotal(weights, members) / (SlotCount(weights, members) as real) <= hi
  {
    var n := SlotCount(weights, members) as real;
    var t := SlotTotal(weights, members);
    SlotTotalAtLeast(weights, members, lo);
    SlotTotalAtMost(weights, members, hi);
    QuotientBounds(t, n, lo, hi);
  }

  lemma QuotientBounds(t: real, n: real, lo: real, hi: real)
    requires n > 0.0 && n * lo <= t <= n * hi
    ensures lo <= t / n <= hi
  {
  }

  /** `calculateGroupTotal`: the loop over the member slots. */
  method GroupTotal(group: ClanGroup, weights: MemberWeight) returns (total: real)
    ensures total == SlotTotal(weights, group.members)
  {
    var members := group.members;
    total := 0.0;
    for i := 0 to |members|
      invariant total == SlotTotal(weights, members[..i])
    {
      var m := members[i];
      assert members[..i + 1][..i] == members[..i];
      if m != "" && m in weights && weights[m] != 0.0 {
        total := total + weights[m];
      }
    }
    assert members[..|members|] == members;
  }

  /** `calculateGroupAverage`: the total over the counted slots divided by
    * their number, and 0 without dividing when no slot counts. */
  method GroupAverage(group: ClanGroup, weights: MemberWeight) returns (average: real)
    ensures SlotCount(weights, group.members) == 0 ==> average == 0.0
    ensures SlotCount(weights, group.members) > 0 ==>
              average == SlotTotal(weights, group.members) / (SlotCount(weights, group.members) as real)
  {
    var members := group.members;
    var total := 0.0;
    var count: nat := 0;
    for i := 0 to |members|
      invariant total == SlotTotal(weights, members[..i])
      invariant count == SlotCount(weights, members[..i])
    {
      var m := members[i];
      assert members[..i + 1][..i] == members[..i];
      if m != "" && m in weights && weights[m] != 0.0 {
        total := total + weights[m];
        count := count + 1;
      }
    }
    assert members[..|members|] == members;
    average := if count == 0 then 0.0 else total / (count as real);
  }

  // ---------------------------------------------------------------------
  // Display tiers

  /** The five colour classes of `getWeightColor`: no weight, then town
    * hall 16 and up, 15, 14, and below. */
  datatype Tier = Unset | Th16 | Th15 | Th14 | Lower

  /** The first matching band wins; lower bounds are inclusive. */
  function ClassifyTier(weight: Option<real>): (t: Tier)
    ensures t == Unset <==> weight == None
    ensures weight.Some? ==> (t == Th16 <==> 16.0 <= weight.value)
    ensures weight.Some? ==> (t == Th15 <==> 15.0 <= weight.value < 16.0)
    ensures weight.Some? ==> (t == Th14 <==> 14.0 <= weight.value < 15.0)
    ensures weight.Some? ==> (t == Lower <==> weight.value < 14.0)
  {
    match weight
    case None => Unset
    case Some(w) =>
      if w >= 16.0 then Th16
      else if w >= 15.0 then Th15
      else if w >= 14.0 then Th14
      else Lower
  }

  /** The order of the tiers, lowest first. */
  function Rank(t: Tier): nat
  {
    match t
    case Unset => 0
    case Lower => 1
    case Th14 => 2
    case Th15 => 3
    case Th16 => 4
  }

  /** A larger weight never has a lower tier. */
  lemma TierMonotone(x: real, y: real)
    requires x <= y
    ensures Rank(ClassifyTier(Some(x))) <= Rank(ClassifyTier(Some(y)))
  {
  }

  /** The tier shown beside a member name: `getWeightColor(weights[member])`. */
  function MemberTier(weights: MemberWeight, m: string): (t: Tier)
    ensures t == Unset <==> m !in weights
  {
    ClassifyTier(if m in weights then Some(weights[m]) else None)
  }

  /** A stored weight of 0 is shown in the lowest tier yet left out of the
    * group's total and count. */
  lemma ZeroWeightShownButNotCounted(weights: MemberWeight, m: string)
    requires m != "" && m in weights && weights[m] == 0.0
    ensures MemberTier(weights, m) == Lower
    ensures !Counted(weights, m)
  {
  }
}
