/**
 * The candidate table (`_add_candidate`): the release candidates found so
 * far, keyed by their album id in insertion order. A candidate joins only
 * when it has tracks, is not a duplicate, carries every required field and
 * is not penalised in an ignored category.
 */
module Candidates {
  import opened Records
  import opened Assignment
  import AD = AlbumDistance

  /** Some field the configuration requires is None on the release. */
  predicate MissingRequired(info: AlbumInfo, required: seq<string>) {
    exists k :: 0 <= k < |required| && AttrIsNone(info, required[k])
  }

  /** The distance was penalised in some category the configuration
      ignores. */
  predicate PenalisedIgnored(dist: Distance, ignored: seq<string>, m: Metrics) {
    exists k :: 0 <= k < |ignored| && ignored[k] in m.keys(dist.penalties)
  }

  /** The candidate a release becomes: its pairing with the items, the
      leftovers on both sides and the release distance. */
  function CandidateOf(items: seq<Item>, info: AlbumInfo, cfg: Config, m: Metrics): (c: Match)
    requires |items| > 0 && SolverSound(m)
    ensures c.AlbumMatch? && c.info == info
    ensures DistinctKeys(c.mapping) && DistinctValues(c.mapping)
    ensures forall j :: 0 <= j < |info.tracks| ==> (j in c.extraTracks <==> !IsValue(c.mapping, j))
    ensures forall i :: 0 <= i < |items| ==> (i in c.extraItems <==> !IsKey(c.mapping, i))
  {
    var a := AssignItems(items, info.tracks, cfg, m);
    AlbumMatch(AD.AlbumDistanceOf(items, info, a.mapping, cfg, m), info, a.mapping, a.extraItems, a.extraTracks)
  }

  /** Whether the release passes every filter, given the ids already held
      and the candidate it would become. */
  predicate Accepted(held: set<Option<string>>, info: AlbumInfo, candidate: Match, cfg: Config, m: Metrics) {
    PassesEarlyFilters(held, info, cfg) && !PenalisedIgnored(candidate.distance, cfg.ignored, m)
  }

  /** The filters applied before the distance is computed: some tracks, an
      id not held yet (or no id), every required field present. */
  predicate PassesEarlyFilters(held: set<Option<string>>, info: AlbumInfo, cfg: Config) {
    && |info.tracks| > 0
    && !(PresentText(info.albumId) && info.albumId in held)
    && !MissingRequired(info, cfg.required)
  }

  /** The table `_add_candidate` leaves behind, given the candidate the
      release would become. */
  function AddCandidateOf(results: map<Option<string>, Match>, info: AlbumInfo, candidate: Match, cfg: Config, m: Metrics)
    : map<Option<string>, Match>
  {
    if Accepted(results.Keys, info, candidate, cfg, m) then results[info.albumId := candidate] else results
  }

  /** A release without tracks, a duplicate id, a missing required field or
      an ignored penalty leaves the table as it was. */
  lemma RejectedLeavesTable(results: map<Option<string>, Match>, info: AlbumInfo, candidate: Match, cfg: Config, m: Metrics)
    requires || |info.tracks| == 0
             || (PresentText(info.albumId) && info.albumId in results)
             || (exists k :: 0 <= k < |cfg.required| && AttrIsNone(info, cfg.required[k]))
             || (exists k :: 0 <= k < |cfg.ignored| && cfg.ignored[k] in m.keys(candidate.distance.penalties))
    ensures AddCandidateOf(results, info, candidate, cfg, m) == results
  {
  }

  /** An accepted release adds exactly its album id and changes no other
      entry; the entry is the release's candidate. */
  lemma AcceptedAddsOneKey(results: map<Option<string>, Match>, info: AlbumInfo, candidate: Match, cfg: Config, m: Metrics)
    requires Accepted(results.Keys, info, candidate, cfg, m)
    ensures var after := AddCandidateOf(results, info, candidate, cfg, m);
      && after.Keys == results.Keys + {info.albumId}
      && after[info.albumId] == candidate
      && forall k :: k in results && k != info.albumId ==> after[k] == results[k]
  {
  }

  /** A candidate already in the table under an album id stays there. */
  lemma HeldIdsStay(results: map<Option<string>, Match>, info: AlbumInfo, candidate: Match, cfg: Config, m: Metrics, id: string)
    requires Some(id) in results && id != ""
    ensures var after := AddCandidateOf(results, info, candidate, cfg, m);
      Some(id) in after && after[Some(id)] == results[Some(id)]
  {
    if info.albumId == Some(id) {
      assert !Accepted(results.Keys, info, candidate, cfg, m);
    }
  }

  /** A release that passes the early filters is accepted when its distance
      received no contribution in any ignored category: the penalised
      categories are drawn from the contributions. */
  lemma UnpenalisedIsAccepted(held: set<Option<string>>, info: AlbumInfo, candidate: Match, cfg: Config, m: Metrics)
    requires KeysSound(m) && PassesEarlyFilters(held, info, cfg)
    requires forall k :: 0 <= k < |cfg.ignored| ==> Contributions(candidate.distance.penalties, cfg.ignored[k]) == []
    ensures Accepted(held, info, candidate, cfg, m)
  {
    forall k | 0 <= k < |cfg.ignored| ensures cfg.ignored[k] !in m.keys(candidate.distance.penalties) {
      ContributionsEmptyIff(candidate.distance.penalties, cfg.ignored[k]);
    }
  }

  /** Pairs the items with the release's tracks and computes the distance. */
  method MakeCandidate(items: seq<Item>, info: AlbumInfo, cfg: Config, m: Metrics) returns (c: Match)
    requires |items| > 0 && SolverSound(m)
    ensures c == CandidateOf(items, info, cfg, m)
  {
    var assignment := AssignItems(items, info.tracks, cfg, m);
    var dist := AD.ComputeAlbumDistance(items, info, assignment.mapping, cfg, m);
    c := AlbumMatch(dist, info, assignment.mapping, assignment.extraItems, assignment.extraTracks);
  }

  /** Candidates held in a dictionary that remembers insertion order. */
  class CandidateTable {
    /** The keys in the order they were first inserted. */
    var order: seq<Option<string>>
    var results: map<Option<string>, Match>

    ghost predicate Valid()
      reads this
    {
      && (forall k, l :: 0 <= k < l < |order| ==> order[k] != order[l])
      && (forall key :: key in results <==> key in order)
    }

    constructor ()
      ensures Valid() && order == [] && results == map[]
    {
      order := [];
      results := map[];
    }

    /** `list(results.values())`: the candidates in insertion order. */
    function Values(): (vs: seq<Match>)
      reads this
      requires Valid()
      ensures |vs| == |order| == |results|
      ensures forall k :: 0 <= k < |order| ==> vs[k] == results[order[k]]
    {
      KeysCounted();
      var keys := order;
      var table := results;
      seq(|keys|, k requires 0 <= k < |keys| => table[keys[k]])
    }

    lemma KeysCounted()
      requires Valid()
      ensures |results| == |order|
    {
      DistinctCount(order, results.Keys);
    }

    /** `_add_candidate(items, results, info)`. */
    method Add(items: seq<Item>, info: AlbumInfo, cfg: Config, m: Metrics)
      requires Valid() && |items| > 0 && SolverSound(m)
      modifies this
      ensures Valid()
      ensures results == AddCandidateOf(old(results), info, CandidateOf(items, info, cfg, m), cfg, m)
      ensures order ==
        if info.albumId in old(results) || !Accepted(old(results).Keys, info, CandidateOf(items, info, cfg, m), cfg, m)
        then old(order) else old(order) + [info.albumId]
    {
      var admitted := Screen(items, info, cfg, m);
      if admitted.Some? {
        Put(info.albumId, admitted.value);
      }
    }

    /** The filters of `_add_candidate`, in the source's order: the
        candidate when the release passes them all. */
    method Screen(items: seq<Item>, info: AlbumInfo, cfg: Config, m: Metrics) returns (admitted: Option<Match>)
      requires |items| > 0 && SolverSound(m)
      ensures admitted.Some? <==> Accepted(results.Keys, info, CandidateOf(items, info, cfg, m), cfg, m)
      ensures admitted.Some? ==> admitted.value == CandidateOf(items, info, cfg, m)
    {
      var passes := EarlyFilters(info, cfg);
      if !passes {
        return None;
      }
      var candidate := MakeCandidate(items, info, cfg, m);
      var ignored := FindIgnoredPenalty(m.keys(candidate.distance.penalties), cfg.ignored);
      if ignored {
        return None;
      }
      return Some(candidate);
    }

    /** The checks `_add_candidate` makes before pairing the items: the
        track count, a duplicate id, the required fields. */
    method EarlyFilters(info: AlbumInfo, cfg: Config) returns (passes: bool)
      ensures passes <==> PassesEarlyFilters(results.Keys, info, cfg)
    {
      if |info.tracks| == 0 {
        return false;
      }
      if PresentText(info.albumId) && info.albumId in results {
        return false;
      }
      var missing := FindMissingRequired(info, cfg.required);
      return !missing;
    }

    /** `results[key] = candidate`: a new key goes to the end of the
        insertion order, an existing key keeps its place. */
    method Put(key: Option<string>, candidate: Match)
      requires Valid()
      modifies this
      ensures Valid()
      ensures results == old(results)[key := candidate]
      ensures order == if key in old(results) then old(order) else old(order) + [key]
    {
      if key !in results {
        order := order + [key];
      }
      results := results[key := candidate];
    }
  }

  /** The loop over the required fields: whether one of them is None. */
  method FindMissingRequired(info: AlbumInfo, required: seq<string>) returns (missing: bool)
    ensures missing <==> exists k :: 0 <= k < |required| && AttrIsNone(info, required[k])
  {
    var i := 0;
    while i < |required|
      invariant 0 <= i <= |required|
      invariant forall k :: 0 <= k < i ==> !AttrIsNone(info, required[k])
    {
      if AttrIsNone(info, required[i]) {
        return true;
      }
      i := i + 1;
    }
    return false;
  }

  /** The loop over the ignored categories: whether the distance was
      penalised in one of them. */
  method FindIgnoredPenalty(penalties: set<string>, ignored: seq<string>) returns (found: bool)
    ensures found <==> exists k :: 0 <= k < |ignored| && ignored[k] in penalties
  {
    var j := 0;
    while j < |ignored|
      invariant 0 <= j <= |ignored|
      invariant forall k :: 0 <= k < j ==> ignored[k] !in penalties
    {
      if ignored[j] in penalties {
        return true;
      }
      j := j + 1;
    }
    return false;
  }

  /** A sequence without repetitions has as many elements as the set of
      its elements. */
  lemma {:induction false} DistinctCount<T>(s: seq<T>, keys: set<T>)
    requires forall k, l :: 0 <= k < l < |s| ==> s[k] != s[l]
    requires forall x :: x in keys <==> x in s
    ensures |keys| == |s|
  {
    if s != [] {
      var last := s[|s| - 1];
      var front := s[..|s| - 1];
      forall x ensures x in keys - {last} <==> x in front {
        if x in s && x != last {
          var k :| 0 <= k < |s| && s[k] == x;
          assert front[k] == x;
        }
      }
      DistinctCount(front, keys - {last});
    }
  }
}
