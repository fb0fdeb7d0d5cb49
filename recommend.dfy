/**
 * Ranking the candidates (`_sort_candidates`) and the recommendation
 * classifier (`_recommendation`): a level from the best candidate's
 * distance and its gap to the runner-up, then capped by the configured
 * ceiling of every category the best candidate was penalised in.
 */
module Recommend {
  import opened Records
  import opened Sorting

  /** The numeric distance of a candidate. */
  function MatchDistance(x: Match, m: Metrics): real {
    m.total(x.distance.penalties)
  }

  /** The sort key of each candidate: its distance. */
  function ScoreKeys(candidates: seq<Match>, m: Metrics): (keys: seq<SortKey>)
    ensures |keys| == |candidates|
  {
    seq(|candidates|, i requires 0 <= i < |candidates| => [KeyPart.Score(MatchDistance(candidates[i], m))])
  }

  /** The positions of the candidates in `sorted` order: by distance, equal
      distances in their original order. */
  function CandidateOrder(candidates: seq<Match>, m: Metrics): (order: seq<nat>)
    ensures InRange(order, |candidates|) && |order| == |candidates|
  {
    SortByKeys(Range(|candidates|), ScoreKeys(candidates, m))
  }

  /** `_sort_candidates(candidates)`. */
  function SortCandidates(candidates: seq<Match>, m: Metrics): (r: seq<Match>)
    ensures |r| == |candidates|
  {
    var order := CandidateOrder(candidates, m);
    seq(|order|, k requires 0 <= k < |order| => candidates[order[k]])
  }

  lemma ScoreKeyOrder(a: real, b: real)
    ensures KeyLess([KeyPart.Score(a)], [KeyPart.Score(b)]) <==> a < b
  {
    assert [KeyPart.Score(a)][1..] == [] && [KeyPart.Score(b)][1..] == [];
  }

  /** The sorted candidates are a rearrangement of the candidates: every
      candidate appears exactly once. */
  lemma SortIsPermutation(candidates: seq<Match>, m: Metrics)
    ensures var order := CandidateOrder(candidates, m);
      && NoDuplicates(order)
      && (forall i :: 0 <= i < |candidates| ==> i in order)
      && (forall k :: 0 <= k < |order| ==> SortCandidates(candidates, m)[k] == candidates[order[k]])
  {
    var order := CandidateOrder(candidates, m);
    var all := Range(|candidates|);
    SortByKeysSorted(all, ScoreKeys(candidates, m));
    SortKeepsDistinct(all, ScoreKeys(candidates, m));
    forall i | 0 <= i < |candidates| ensures i in order {
      assert all[i] == i;
      assert i in multiset(all);
    }
  }

  /** The sorted candidates have non-decreasing distances, and candidates
      at equal distance keep their original order. */
  lemma SortIsStableByScore(candidates: seq<Match>, m: Metrics, k: nat, l: nat)
    requires k < l < |candidates|
    ensures var order := CandidateOrder(candidates, m);
      var sorted := SortCandidates(candidates, m);
      && MatchDistance(sorted[k], m) <= MatchDistance(sorted[l], m)
      && (MatchDistance(sorted[k], m) == MatchDistance(sorted[l], m) ==> order[k] < order[l])
  {
    var order := CandidateOrder(candidates, m);
    var keys := ScoreKeys(candidates, m);
    SortByKeysSorted(Range(|candidates|), keys);
    assert Before(keys, order[k], order[l]);
    ScoreKeyOrder(MatchDistance(candidates[order[k]], m), MatchDistance(candidates[order[l]], m));
    SortIsPermutation(candidates, m);
  }

  /** The level the thresholds alone give: strong below the strong
      threshold, medium up to the medium threshold, low for a lone
      candidate or a wide enough gap to the runner-up, none otherwise. */
  function ThresholdLevel(results: seq<Match>, cfg: Config, m: Metrics): Recommendation {
    if results == [] then RecNone
    else
      var best := MatchDistance(results[0], m);
      if best < cfg.strongThresh then RecStrong
      else if best <= cfg.mediumThresh then RecMedium
      else if |results| == 1 then RecLow
      else if MatchDistance(results[1], m) - best >= cfg.gapThresh then RecLow
      else RecNone
  }

  /** Strong exactly when the best distance is below the strong threshold;
      none for no candidates, or when the best is above the medium threshold
      and a runner-up sits closer than the gap threshold. */
  lemma ThresholdLevelRule(results: seq<Match>, cfg: Config, m: Metrics)
    ensures ThresholdLevel(results, cfg, m) == RecStrong <==> results != [] && MatchDistance(results[0], m) < cfg.strongThresh
    ensures ThresholdLevel(results, cfg, m) == RecMedium <==>
      results != [] && cfg.strongThresh <= MatchDistance(results[0], m) <= cfg.mediumThresh
    ensures ThresholdLevel(results, cfg, m) == RecNone <==>
      || results == []
      || (&& |results| > 1 && MatchDistance(results[0], m) >= cfg.strongThresh
          && MatchDistance(results[0], m) > cfg.mediumThresh
          && MatchDistance(results[1], m) - MatchDistance(results[0], m) < cfg.gapThresh)
  {
  }

  /** The categories of the best candidate's distance and, for a release,
      of its tracks' distances. */
  function BestKeys(best: Match, m: Metrics): set<string> {
    m.keys(best.distance.penalties) +
    (if best.AlbumMatch? then set p, k | p in best.distance.tracks.Values && k in m.keys(p) :: k else {})
  }

  /** The categories with a configured ceiling that the best candidate
      was penalised in. */
  function Triggered(results: seq<Match>, cfg: Config, m: Metrics): set<string> {
    if results == [] then {} else set k | k in BestKeys(results[0], m) && k in cfg.maxRec
  }

  /** A level no higher than the threshold level and every triggered
      ceiling. */
  predicate Allowed(x: Recommendation, results: seq<Match>, cfg: Config, m: Metrics) {
    && AtMost(x, ThresholdLevel(results, cfg, m))
    && forall k :: k in Triggered(results, cfg, m) ==> AtMost(x, cfg.maxRec[k])
  }

  /** The recommendation: the highest allowed level. */
  function RecommendationOf(results: seq<Match>, cfg: Config, m: Metrics): Recommendation {
    if Allowed(RecStrong, results, cfg, m) then RecStrong
    else if Allowed(RecMedium, results, cfg, m) then RecMedium
    else if Allowed(RecLow, results, cfg, m) then RecLow
    else RecNone
  }

  /** A level is below the recommendation exactly when it is allowed: the
      recommendation is the minimum of the threshold level and the
      triggered ceilings. */
  lemma RecommendationIsGreatestAllowed(results: seq<Match>, cfg: Config, m: Metrics)
    ensures Allowed(RecommendationOf(results, cfg, m), results, cfg, m)
    ensures forall x :: AtMost(x, RecommendationOf(results, cfg, m)) <==> Allowed(x, results, cfg, m)
  {
    assert Allowed(RecNone, results, cfg, m);
  }

  /** The downgrade never raises the threshold level and respects every
      triggered ceiling; no candidates, or no conclusion, give none. */
  lemma RecommendationBounds(results: seq<Match>, cfg: Config, m: Metrics)
    ensures AtMost(RecommendationOf(results, cfg, m), ThresholdLevel(results, cfg, m))
    ensures forall k :: k in Triggered(results, cfg, m) ==> AtMost(RecommendationOf(results, cfg, m), cfg.maxRec[k])
    ensures results == [] ==> RecommendationOf(results, cfg, m) == RecNone
    ensures ThresholdLevel(results, cfg, m) == RecNone ==> RecommendationOf(results, cfg, m) == RecNone
  {
    RecommendationIsGreatestAllowed(results, cfg, m);
  }

  /** A strong recommendation needs a best distance below the strong
      threshold and no triggered ceiling below strong. */
  lemma StrongNeedsCloseMatch(results: seq<Match>, cfg: Config, m: Metrics)
    requires RecommendationOf(results, cfg, m) == RecStrong
    ensures results != [] && MatchDistance(results[0], m) < cfg.strongThresh
    ensures forall k :: k in BestKeys(results[0], m) && k in cfg.maxRec ==> cfg.maxRec[k] == RecStrong
  {
    RecommendationBounds(results, cfg, m);
    forall k | k in BestKeys(results[0], m) && k in cfg.maxRec ensures cfg.maxRec[k] == RecStrong {
      assert k in Triggered(results, cfg, m);
    }
  }

  /** `_recommendation(results)`. */
  method Recommend(results: seq<Match>, cfg: Config, m: Metrics) returns (rec: Recommendation)
    ensures rec == RecommendationOf(results, cfg, m)
  {
    RecommendationIsGreatestAllowed(results, cfg, m);
    if results == [] {
      return RecNone;
    }
    var best := MatchDistance(results[0], m);
    if best < cfg.strongThresh {
      rec := RecStrong;
    } else if best <= cfg.mediumThresh {
      rec := RecMedium;
    } else if |results| == 1 {
      rec := RecLow;
    } else if MatchDistance(results[1], m) - best >= cfg.gapThresh {
      rec := RecLow;
    } else {
      return RecNone;
    }
    ghost var level := rec;
    assert level == ThresholdLevel(results, cfg, m);

    var keys := BestKeys(results[0], m);
    var remaining := keys;
    while remaining != {}
      invariant remaining <= keys
      invariant forall x :: AtMost(x, rec) <==>
        AtMost(x, level) && forall k :: k in keys - remaining && k in cfg.maxRec ==> AtMost(x, cfg.maxRec[k])
      decreases |remaining|
    {
      var key :| key in remaining;
      if key in cfg.maxRec {
        rec := MinRec(rec, cfg.maxRec[key]);
      }
      remaining := remaining - {key};
    }
    assert forall k :: k in keys && k in cfg.maxRec <==> k in Triggered(results, cfg, m);
    LevelsAntisymmetric(rec, RecommendationOf(results, cfg, m));
  }

  lemma LevelsAntisymmetric(a: Recommendation, b: Recommendation)
    requires forall x :: AtMost(x, a) <==> AtMost(x, b)
    ensures a == b
  {
    assert AtMost(a, a) && AtMost(b, b);
  }
}
