/**
 * The bookkeeping of `assign_items`: turning the solver's per-track
 * assignment vector into the item/track pairing and the two sorted lists of
 * leftovers.
 */
module Assignment {
  import opened Records
  import opened Sorting
  import TD = TrackDistance

  /** `{items[iidx]: t for iidx, t in zip(assigned_item_idxs, tracks) if iidx != -1}`,
      as (item position, track position) pairs in track order. */
  function MappingOf(vector: seq<int>): (r: Mapping)
    requires forall j :: 0 <= j < |vector| ==> -1 <= vector[j]
    ensures forall k :: 0 <= k < |r| ==> r[k].track < |vector| && r[k].item as int == vector[r[k].track]
    ensures forall k, l :: 0 <= k < l < |r| ==> r[k].track < r[l].track
  {
    if vector == [] then []
    else
      var j := |vector| - 1;
      var earlier := MappingOf(vector[..j]);
      if vector[j] == -1 then earlier else earlier + [Pair(vector[j] as nat, j)]
  }

  /** Every track the vector assigns is paired. */
  lemma {:induction false} MappingOfCovers(vector: seq<int>, j: nat)
    requires forall j :: 0 <= j < |vector| ==> -1 <= vector[j]
    requires j < |vector| && vector[j] != -1
    ensures IsValue(MappingOf(vector), j)
  {
    var last := |vector| - 1;
    var earlier := MappingOf(vector[..last]);
    if j == last {
      assert MappingOf(vector)[|earlier|].track == j;
    } else {
      MappingOfCovers(vector[..last], j);
      var k :| 0 <= k < |earlier| && earlier[k].track == j;
      assert MappingOf(vector)[k] == earlier[k];
    }
  }

  function KeySet(m: Mapping): set<nat> {
    set k | 0 <= k < |m| :: m[k].item
  }

  function ValueSet(m: Mapping): set<nat> {
    set k | 0 <= k < |m| :: m[k].track
  }

  /** The positions below `n` that are not in `used`, in increasing order:
      `set(range(n)) - used` before sorting. */
  function Without(n: nat, used: set<nat>): (r: seq<nat>)
    ensures forall k :: 0 <= k < |r| ==> r[k] < n && r[k] !in used
    ensures forall i :: 0 <= i < n && i !in used ==> i in r
    ensures forall k, l :: 0 <= k < l < |r| ==> r[k] < r[l]
  {
    if n == 0 then []
    else
      var earlier := Without(n - 1, used);
      if n - 1 in used then earlier else earlier + [n - 1]
  }

  /** The sort key of a leftover item: `(disc, track, title)`. */
  function ItemSortKeys(items: seq<Item>): (keys: seq<SortKey>)
    ensures |keys| == |items|
  {
    seq(|items|, i requires 0 <= i < |items| => [Num(items[i].disc), Num(items[i].track), Text(items[i].title)])
  }

  function OptNum(o: Option<int>): KeyPart {
    if o.Some? then Num(o.value) else Absent
  }

  function OptText(o: Option<string>): KeyPart {
    if o.Some? then Text(o.value) else Absent
  }

  /** The sort key of a leftover track: `(index, title)`. */
  function TrackSortKeys(tracks: seq<TrackInfo>): (keys: seq<SortKey>)
    ensures |keys| == |tracks|
  {
    seq(|tracks|, j requires 0 <= j < |tracks| => [OptNum(tracks[j].index), OptText(tracks[j].title)])
  }

  /** The three results of `assign_items`. */
  datatype Assignment = Assignment(mapping: Mapping, extraItems: seq<nat>, extraTracks: seq<nat>)

  /** The pairing and the leftovers a valid assignment vector yields. */
  function Assign(items: seq<Item>, tracks: seq<TrackInfo>, vector: seq<int>): Assignment
    requires ValidAssignment(vector, |items|, |tracks|)
  {
    var mapping := MappingOf(vector);
    Assignment(
      mapping,
      SortByKeys(Without(|items|, KeySet(mapping)), ItemSortKeys(items)),
      SortByKeys(Without(|tracks|, ValueSet(mapping)), TrackSortKeys(tracks)))
  }

  /** The pairing is a one-to-one dictionary between item and track
      positions that follows the vector. */
  lemma AssignMappingFollowsVector(items: seq<Item>, tracks: seq<TrackInfo>, vector: seq<int>)
    requires ValidAssignment(vector, |items|, |tracks|)
    ensures var r := Assign(items, tracks, vector);
      && (forall k :: 0 <= k < |r.mapping| ==>
            r.mapping[k].item < |items| && r.mapping[k].track < |tracks| &&
            vector[r.mapping[k].track] == r.mapping[k].item as int)
      && DistinctKeys(r.mapping) && DistinctValues(r.mapping)
  {
    var mapping := MappingOf(vector);
    forall k, l | 0 <= k < l < |mapping| ensures mapping[k].item != mapping[l].item {
      assert mapping[k].track < mapping[l].track;
    }
  }

  /** Every track is either paired (exactly when the vector assigns it) or
      left over, never both. */
  lemma AssignPartitionsTracks(items: seq<Item>, tracks: seq<TrackInfo>, vector: seq<int>, j: nat)
    requires ValidAssignment(vector, |items|, |tracks|) && j < |tracks|
    ensures var r := Assign(items, tracks, vector);
      && (IsValue(r.mapping, j) <==> vector[j] != -1)
      && (j in r.extraTracks <==> !IsValue(r.mapping, j))
  {
    var r := Assign(items, tracks, vector);
    var mapping := MappingOf(vector);
    if vector[j] != -1 {
      MappingOfCovers(vector, j);
    }
    var left := Without(|tracks|, ValueSet(mapping));
    SortByKeysSorted(left, TrackSortKeys(tracks));
    assert multiset(left) == multiset(r.extraTracks);
    assert j in r.extraTracks <==> j in left by {
      assert j in r.extraTracks <==> j in multiset(r.extraTracks);
      assert j in left <==> j in multiset(left);
    }
    if IsValue(mapping, j) {
      var k :| 0 <= k < |mapping| && mapping[k].track == j;
      assert j in ValueSet(mapping);
    } else {
      assert j !in ValueSet(mapping);
    }
  }

  /** Every item is either paired or left over, never both. */
  lemma AssignPartitionsItems(items: seq<Item>, tracks: seq<TrackInfo>, vector: seq<int>, i: nat)
    requires ValidAssignment(vector, |items|, |tracks|) && i < |items|
    ensures var r := Assign(items, tracks, vector);
      i in r.extraItems <==> !IsKey(r.mapping, i)
  {
    var r := Assign(items, tracks, vector);
    var mapping := MappingOf(vector);
    var left := Without(|items|, KeySet(mapping));
    SortByKeysSorted(left, ItemSortKeys(items));
    assert multiset(left) == multiset(r.extraItems);
    assert i in r.extraItems <==> i in left by {
      assert i in r.extraItems <==> i in multiset(r.extraItems);
      assert i in left <==> i in multiset(left);
    }
    if IsKey(mapping, i) {
      var k :| 0 <= k < |mapping| && mapping[k].item == i;
      assert i in KeySet(mapping);
    } else {
      assert i !in KeySet(mapping);
    }
  }

  /** Each leftover list holds every position once, sorted by its key. */
  lemma AssignExtrasSorted(items: seq<Item>, tracks: seq<TrackInfo>, vector: seq<int>)
    requires ValidAssignment(vector, |items|, |tracks|)
    ensures var r := Assign(items, tracks, vector);
      && InRange(r.extraItems, |items|) && SortedBy(r.extraItems, ItemSortKeys(items))
      && InRange(r.extraTracks, |tracks|) && SortedBy(r.extraTracks, TrackSortKeys(tracks))
      && NoDuplicates(r.extraItems) && NoDuplicates(r.extraTracks)
  {
    var mapping := MappingOf(vector);
    var leftItems := Without(|items|, KeySet(mapping));
    var leftTracks := Without(|tracks|, ValueSet(mapping));
    SortByKeysSorted(leftItems, ItemSortKeys(items));
    SortByKeysSorted(leftTracks, TrackSortKeys(tracks));
    SortKeepsDistinct(leftItems, ItemSortKeys(items));
    SortKeepsDistinct(leftTracks, TrackSortKeys(tracks));
  }

  /** The cost matrix: one row per item, one column per track, each entry
      the total of the track distance computed without the artist. */
  function CostMatrix(items: seq<Item>, tracks: seq<TrackInfo>, cfg: Config, m: Metrics): (costs: seq<seq<real>>)
    ensures |costs| == |items| && forall i :: 0 <= i < |costs| ==> |costs[i]| == |tracks|
  {
    seq(|items|, i requires 0 <= i < |items| =>
      seq(|tracks|, j requires 0 <= j < |tracks| =>
        m.total(TD.TrackDistanceOf(items[i], tracks[j], false, cfg, m).penalties)))
  }

  /** The pairing cost never looks at the item's artist: two items that
      differ only there score the same against every track, apart from
      what plugins add. */
  lemma CostIgnoresArtist(item: Item, artist: string, track: TrackInfo, cfg: Config, m: Metrics)
    ensures TD.TrackOwn(item.(artist := artist), track, false, cfg, m) == TD.TrackOwn(item, track, false, cfg, m)
  {
  }

  /** `assign_items(items, tracks)`: every track is paired with the item the
      solver chose for it or left over, every item is paired or left over,
      never both, and the leftovers come sorted. */
  function AssignItems(items: seq<Item>, tracks: seq<TrackInfo>, cfg: Config, m: Metrics): (r: Assignment)
    requires SolverSound(m)
    ensures DistinctKeys(r.mapping) && DistinctValues(r.mapping)
    ensures forall k :: 0 <= k < |r.mapping| ==> r.mapping[k].item < |items| && r.mapping[k].track < |tracks|
    ensures forall j :: 0 <= j < |tracks| ==> (j in r.extraTracks <==> !IsValue(r.mapping, j))
    ensures forall i :: 0 <= i < |items| ==> (i in r.extraItems <==> !IsKey(r.mapping, i))
    ensures InRange(r.extraItems, |items|) && SortedBy(r.extraItems, ItemSortKeys(items)) && NoDuplicates(r.extraItems)
    ensures InRange(r.extraTracks, |tracks|) && SortedBy(r.extraTracks, TrackSortKeys(tracks)) && NoDuplicates(r.extraTracks)
  {
    var vector := m.solver(CostMatrix(items, tracks, cfg, m), |items|, |tracks|);
    AssignMappingFollowsVector(items, tracks, vector);
    AssignExtrasSorted(items, tracks, vector);
    AssignPartitions(items, tracks, vector);
    Assign(items, tracks, vector)
  }

  lemma AssignPartitions(items: seq<Item>, tracks: seq<TrackInfo>, vector: seq<int>)
    requires ValidAssignment(vector, |items|, |tracks|)
    ensures var r := Assign(items, tracks, vector);
      && (forall j :: 0 <= j < |tracks| ==> (j in r.extraTracks <==> !IsValue(r.mapping, j)))
      && (forall i :: 0 <= i < |items| ==> (i in r.extraItems <==> !IsKey(r.mapping, i)))
  {
    forall j | 0 <= j < |tracks| {
      AssignPartitionsTracks(items, tracks, vector, j);
    }
    forall i | 0 <= i < |items| {
      AssignPartitionsItems(items, tracks, vector, i);
    }
  }
}
