/**
 * The decisions `tag_album` and `tag_item` take between their lookups: the
 * search terms, whether the release is likely a various-artists one, and
 * when a match by a stored id is good enough to stop searching.
 */
module Tagging {
  import opened Records
  import opened Consensus
  import opened Recommend
  import TD = TrackDistance
  import IM = IdMatch
  import C = Candidates

  /** The artist and album the items currently carry. */
  function CurrentArtist(items: seq<Item>): string
    requires |items| > 0
  {
    match CurrentLikely(items, Artist)
    case Text(s) => s
    case Number(_) => ""
  }

  function CurrentAlbum(items: seq<Item>): string
    requires |items| > 0
  {
    match CurrentLikely(items, Album)
    case Text(s) => s
    case Number(_) => ""
  }

  /** The search terms: the explicit ones when both are given and
      non-empty, otherwise the current artist and album. */
  function SearchTerms(current: (string, string), searchArtist: Option<string>, searchAlbum: Option<string>): (string, string) {
    if PresentText(searchArtist) && PresentText(searchAlbum) then (searchArtist.value, searchAlbum.value)
    else current
  }

  /** The explicit terms replace the current metadata together, when both
      are given and non-empty; otherwise neither is used, so a search never
      mixes an explicit term with a current one or with an empty one. */
  lemma SearchTermsBothOrNeither(current: (string, string), searchArtist: Option<string>, searchAlbum: Option<string>)
    ensures PresentText(searchArtist) && PresentText(searchAlbum) ==>
      SearchTerms(current, searchArtist, searchAlbum) == (searchArtist.value, searchAlbum.value)
    ensures !PresentText(searchArtist) || !PresentText(searchAlbum) ==> SearchTerms(current, searchArtist, searchAlbum) == current
    ensures var terms := SearchTerms(current, searchArtist, searchAlbum);
      terms == current || (terms.0 != "" && terms.1 != "")
  {
  }

  /** `va_likely`: no artist consensus, a various-artists search name, or
      some item flagged as part of a compilation. */
  predicate VaLikely(items: seq<Item>, searchArtist: string)
    requires |items| > 0
  {
    || !CurrentConsensus(items, Artist)
    || TD.IsVaName(searchArtist)
    || exists i :: 0 <= i < |items| && items[i].comp
  }

  /** The release is likely a various-artists one exactly when two items
      name different artists, the search artist is a various-artists
      name, or some item is part of a compilation. */
  lemma VaLikelyIff(items: seq<Item>, searchArtist: string)
    requires |items| > 0
    ensures VaLikely(items, searchArtist) <==>
      || (exists i, j :: 0 <= i < |items| && 0 <= j < |items| && items[i].artist != items[j].artist)
      || TD.Lower(searchArtist) in TD.VaArtists
      || (exists i :: 0 <= i < |items| && items[i].comp)
  {
    ConsensusIffUnanimous(items, Artist);
    if exists i, j :: 0 <= i < |items| && 0 <= j < |items| && items[i].artist != items[j].artist {
      var i, j :| 0 <= i < |items| && 0 <= j < |items| && items[i].artist != items[j].artist;
      DifferingArtistsNoConsensus(items, i, j);
    } else {
      forall i, j | 0 <= i < |items| && 0 <= j < |items| ensures FieldOf(items[i], Artist) == FieldOf(items[j], Artist) {
        assert items[i].artist == items[j].artist;
      }
    }
  }

  /** Without explicit terms, items whose album artist is unanimously
      "Various Artists" search as a various-artists release. */
  lemma VariousAlbumArtistIsVaLikely(items: seq<Item>, searchArtist: Option<string>)
    requires |items| > 0 && !PresentText(searchArtist)
    requires forall i :: 0 <= i < |items| ==> items[i].albumartist == "Various Artists"
    ensures VaLikely(items, SearchTerms((CurrentArtist(items), CurrentAlbum(items)), searchArtist, None).0)
  {
    AlbumArtistOverridesArtist(items, "Various Artists");
    assert TD.Lower("Various Artists") == "various artists";
  }

  /** The album search stops after the id match when there is a candidate,
      the importer is not timid and the recommendation is strong. */
  predicate AlbumStopsEarly(candidates: seq<Match>, cfg: Config, m: Metrics) {
    candidates != [] && !cfg.timid && RecommendationOf(candidates, cfg, m) == RecStrong
  }

  /** The track search stops when the recommendation is strong and the
      importer is not timid. */
  predicate TrackStopsEarly(candidates: seq<Match>, cfg: Config, m: Metrics) {
    RecommendationOf(candidates, cfg, m) == RecStrong && !cfg.timid
  }

  /** Both stopping rules are the same rule, and stopping means the best
      candidate is within the strong threshold and no category it was
      penalised in caps the recommendation below strong. */
  lemma StoppingNeedsStrongMatch(candidates: seq<Match>, cfg: Config, m: Metrics)
    ensures AlbumStopsEarly(candidates, cfg, m) <==> TrackStopsEarly(candidates, cfg, m)
    ensures AlbumStopsEarly(candidates, cfg, m) ==>
      && MatchDistance(candidates[0], m) < cfg.strongThresh
      && forall k :: k in BestKeys(candidates[0], m) && k in cfg.maxRec ==> cfg.maxRec[k] == RecStrong
  {
    if RecommendationOf(candidates, cfg, m) == RecStrong {
      StrongNeedsCloseMatch(candidates, cfg, m);
    }
  }

  /** A timid importer never stops early. */
  lemma TimidNeverStops(candidates: seq<Match>, cfg: Config, m: Metrics)
    requires cfg.timid
    ensures !AlbumStopsEarly(candidates, cfg, m) && !TrackStopsEarly(candidates, cfg, m)
  {
  }

  /** The candidates `_add_candidate` leaves in a fresh dictionary for the
      release the id match found, if any. */
  function IdCandidates(items: seq<Item>, found: Option<AlbumInfo>, cfg: Config, m: Metrics): (cs: seq<Match>)
    requires |items| > 0 && SolverSound(m)
    ensures |cs| <= 1
    ensures cs != [] ==> found.Some? && cs[0].AlbumMatch? && cs[0].info == found.value
  {
    match found
    case None => []
    case Some(info) =>
      var c := C.CandidateOf(items, info, cfg, m);
      if C.Accepted({}, info, c, cfg, m) then [c] else []
  }

  /** The id stage of `tag_album`: look the stored album id up, try the
      release as a candidate, and decide whether to stop there. */
  method AlbumIdStage(items: seq<Item>, lookup: string -> Option<AlbumInfo>, cfg: Config, m: Metrics)
    returns (candidates: seq<Match>, rec: Recommendation, stop: bool)
    requires |items| > 0 && SolverSound(m)
    ensures |candidates| <= 1
    ensures IM.IdMatchOf(items, lookup).None? ==> candidates == [] && !stop
    ensures candidates != [] ==> candidates[0].AlbumMatch? && candidates[0].info == IM.IdMatchOf(items, lookup).value
    ensures candidates == IdCandidates(items, IM.IdMatchOf(items, lookup), cfg, m)
    ensures rec == RecommendationOf(candidates, cfg, m)
    ensures stop <==> AlbumStopsEarly(candidates, cfg, m)
  {
    var found := IM.MatchById(items, lookup);
    candidates := TryCandidate(items, found, cfg, m);
    rec := Recommend.Recommend(candidates, cfg, m);
    stop := candidates != [] && !cfg.timid && rec == RecStrong;
  }

  /** `_add_candidate` on a fresh dictionary with the release found, if
      any, and the dictionary's values afterwards. */
  method TryCandidate(items: seq<Item>, found: Option<AlbumInfo>, cfg: Config, m: Metrics) returns (candidates: seq<Match>)
    requires |items| > 0 && SolverSound(m)
    ensures candidates == IdCandidates(items, found, cfg, m)
  {
    if found.None? {
      return [];
    }
    var table := new C.CandidateTable();
    table.Add(items, found.value, cfg, m);
    ghost var c := C.CandidateOf(items, found.value, cfg, m);
    ghost var accepted := C.Accepted({}, found.value, c, cfg, m);
    ghost var empty: map<Option<string>, Match> := map[];
    assert empty.Keys == {};
    candidates := table.Values();
    OneEntryValues(table.order, table.results, candidates, found.value.albumId, c, accepted);
  }

  /** The values of a dictionary that is empty or holds one entry. */
  lemma OneEntryValues(order: seq<Option<string>>, results: map<Option<string>, Match>, vs: seq<Match>,
                       key: Option<string>, c: Match, accepted: bool)
    requires results == if accepted then map[key := c] else map[]
    requires order == if accepted then [key] else []
    requires |vs| == |order| && forall k :: 0 <= k < |order| ==> vs[k] == results[order[k]]
    ensures vs == if accepted then [c] else []
  {
  }

  /** The ids `tag_item` searches by: the explicit ones, or else the
      item's own track id when it has one. */
  function TrackIds(item: Item, searchIds: seq<string>): (ids: seq<string>)
    ensures searchIds != [] ==> ids == searchIds
    ensures searchIds == [] && item.mbTrackId != "" ==> ids == [item.mbTrackId]
    ensures searchIds == [] && item.mbTrackId == "" ==> ids == []
  {
    if searchIds != [] then searchIds
    else if item.mbTrackId != "" then [item.mbTrackId]
    else []
  }

  /** Track candidates ranked by distance, best first. */
  predicate RankedTracks(proposal: seq<Match>, m: Metrics) {
    && (forall k :: 0 <= k < |proposal| ==> proposal[k].TrackMatch?)
    && forall k, l :: 0 <= k < l < |proposal| ==> MatchDistance(proposal[k], m) <= MatchDistance(proposal[l], m)
  }

  /** The track dictionary of `tag_item`: its keys in insertion order and
      its entries. */
  datatype Entries = Entries(order: seq<Option<string>>, results: map<Option<string>, Match>)

  /** The keys are listed once each, exactly the keys of the entries, and
      every entry is a track match. */
  ghost predicate WellKeyed(e: Entries) {
    && (forall k, l :: 0 <= k < l < |e.order| ==> e.order[k] != e.order[l])
    && (forall key :: key in e.results <==> key in e.order)
    && (forall key :: key in e.results ==> e.results[key].TrackMatch?)
  }

  /** The dictionary once each track found went in under its track id with
      its track distance: a repeated id keeps its place and takes the later
      track. */
  function Entered(item: Item, found: seq<TrackInfo>, cfg: Config, m: Metrics): (e: Entries)
    ensures WellKeyed(e)
    ensures |e.order| <= |found|
    decreases |found|
  {
    if found == [] then Entries([], map[])
    else
      var e := Entered(item, found[..|found| - 1], cfg, m);
      var t := found[|found| - 1];
      Entries(if t.trackId in e.results then e.order else e.order + [t.trackId],
              e.results[t.trackId := TrackMatch(TD.TrackDistanceOf(item, t, true, cfg, m), t)])
  }

  /** `candidates.values()` of a dictionary. */
  function ValuesOf(e: Entries): (vs: seq<Match>)
    requires WellKeyed(e)
    ensures |vs| == |e.order|
    ensures forall k :: 0 <= k < |vs| ==> vs[k] == e.results[e.order[k]]
  {
    seq(|e.order|, k requires 0 <= k < |e.order| => e.results[e.order[k]])
  }

  /** The ranked candidates once the tracks found went in. */
  function RankedAfter(item: Item, found: seq<TrackInfo>, cfg: Config, m: Metrics): seq<Match> {
    SortCandidates(ValuesOf(Entered(item, found, cfg, m)), m)
  }

  /** Whether the search stops once the tracks found went in. */
  predicate StopsAfter(item: Item, found: seq<TrackInfo>, cfg: Config, m: Metrics) {
    TrackStopsEarly(RankedAfter(item, found, cfg, m), cfg, m)
  }

  /** For each track found, whether the search stops once it and the
      tracks before it went in. */
  function StopFlags(item: Item, found: seq<TrackInfo>, cfg: Config, m: Metrics): (flags: seq<bool>)
    ensures |flags| == |found|
    decreases |found|
  {
    if found == [] then [] else StopFlags(item, found[..|found| - 1], cfg, m) + [StopsAfter(item, found, cfg, m)]
  }

  /** A search with these stop flags ends after the first `n` tracks: it
      stopped early after the `n`-th, the first whose flag is set, or it ran
      through all of them with no flag set. */
  predicate FirstStop(flags: seq<bool>, n: nat, stopped: bool) {
    && n <= |flags|
    && (stopped ==> 0 < n && flags[n - 1] && true !in flags[..n - 1])
    && (!stopped ==> n == |flags| && true !in flags)
  }

  /** The search over the tracks found ends after the first `n`. */
  predicate StoppedAt(item: Item, found: seq<TrackInfo>, n: nat, stopped: bool, cfg: Config, m: Metrics) {
    FirstStop(StopFlags(item, found, cfg, m), n, stopped)
  }

  /** The outcome of the id stage of `tag_item` over the tracks `found`
      for its ids, in order, ending after the first `n`: the proposal is
      the ranked dictionary at that point and the recommendation the last
      one computed, none when no track was found. */
  predicate SearchOutcome(item: Item, found: seq<TrackInfo>, n: nat, proposal: seq<Match>,
                          rec: Option<Recommendation>, stop: bool, cfg: Config, m: Metrics) {
    && StoppedAt(item, found, n, stop, cfg, m)
    && proposal == RankedAfter(item, found[..n], cfg, m)
    && rec == (if n == 0 then None else Some(RecommendationOf(proposal, cfg, m)))
  }

  /** The tracks found for the ids, in order. */
  function FoundTracks(ids: seq<string>, lookup: string -> seq<TrackInfo>): (found: seq<TrackInfo>)
    decreases |ids|
  {
    if ids == [] then [] else FoundTracks(ids[..|ids| - 1], lookup) + lookup(ids[|ids| - 1])
  }

  /** The id stage of `tag_item`: every track found for every id becomes
      a candidate keyed by its track id; after each one the candidates are
      ranked and the search stops at the first strong recommendation
      unless the importer is timid. */
  method TrackIdStage(item: Item, searchIds: seq<string>, lookup: string -> seq<TrackInfo>, cfg: Config, m: Metrics)
    returns (proposal: seq<Match>, rec: Option<Recommendation>, stop: bool, ghost n: nat)
    ensures SearchOutcome(item, FoundTracks(TrackIds(item, searchIds), lookup), n, proposal, rec, stop, cfg, m)
    ensures rec.Some? ==> rec.value == RecommendationOf(proposal, cfg, m)
    ensures stop <==> rec == Some(RecStrong) && !cfg.timid
    ensures stop ==> proposal != [] && MatchDistance(proposal[0], m) < cfg.strongThresh
    ensures RankedTracks(proposal, m)
    ensures TrackIds(item, searchIds) == [] ==> rec.None? && proposal == []
  {
    var table := new C.CandidateTable();
    var ids := TrackIds(item, searchIds);
    proposal, rec, stop := [], None, false;
    ghost var all := FoundTracks(ids, lookup);
    ghost var done: seq<TrackInfo> := [];
    for i := 0 to |ids|
      invariant fresh(table) && table.Valid()
      invariant done == FoundTracks(ids[..i], lookup)
      invariant table.order == Entered(item, done, cfg, m).order && table.results == Entered(item, done, cfg, m).results
      invariant proposal == RankedAfter(item, done, cfg, m)
      invariant rec == (if done == [] then None else Some(RecommendationOf(proposal, cfg, m)))
      invariant !(rec == Some(RecStrong) && !cfg.timid)
      invariant true !in StopFlags(item, done, cfg, m)
    {
      var tracks := lookup(ids[i]);
      FoundTracksStep(ids, lookup, i);
      proposal, rec, stop, done := SearchTracks(item, tracks, table, done, proposal, rec, cfg, m);
      if stop {
        StoppedInAll(item, ids, lookup, i, done, cfg, m);
        n := |done|;
        RankedAfterIsRanked(item, done, cfg, m);
        return;
      }
    }
    FoundTracksWhole(ids, lookup);
    n := |done|;
    RankedAfterIsRanked(item, done, cfg, m);
  }

  /** The inner loop of the id stage of `tag_item`, over the tracks found
      for one id, after the tracks `done0` went in. */
  method SearchTracks(item: Item, tracks: seq<TrackInfo>, table: C.CandidateTable, ghost done0: seq<TrackInfo>,
                      proposal0: seq<Match>, rec0: Option<Recommendation>, cfg: Config, m: Metrics)
    returns (proposal: seq<Match>, rec: Option<Recommendation>, stop: bool, ghost done: seq<TrackInfo>)
    requires table.Valid()
    requires table.order == Entered(item, done0, cfg, m).order && table.results == Entered(item, done0, cfg, m).results
    requires proposal0 == RankedAfter(item, done0, cfg, m)
    requires rec0 == (if done0 == [] then None else Some(RecommendationOf(proposal0, cfg, m)))
    requires !(rec0 == Some(RecStrong) && !cfg.timid)
    requires true !in StopFlags(item, done0, cfg, m)
    modifies table
    ensures table.Valid()
    ensures done0 <= done <= done0 + tracks
    ensures table.order == Entered(item, done, cfg, m).order && table.results == Entered(item, done, cfg, m).results
    ensures proposal == RankedAfter(item, done, cfg, m)
    ensures rec == (if done == [] then None else Some(RecommendationOf(proposal, cfg, m)))
    ensures stop <==> rec == Some(RecStrong) && !cfg.timid
    ensures stop ==> |done0| < |done| && FirstStop(StopFlags(item, done, cfg, m), |done|, true)
    ensures !stop ==> done == done0 + tracks && true !in StopFlags(item, done, cfg, m)
    ensures tracks == [] ==> proposal == proposal0 && rec == rec0 && !stop
  {
    proposal, rec, stop, done := proposal0, rec0, false, done0;
    PrefixEnds(done0, tracks);
    for t := 0 to |tracks|
      invariant done == done0 + tracks[..t] && table.Valid()
      invariant table.order == Entered(item, done, cfg, m).order && table.results == Entered(item, done, cfg, m).results
      invariant proposal == RankedAfter(item, done, cfg, m)
      invariant rec == (if done == [] then None else Some(RecommendationOf(proposal, cfg, m)))
      invariant !(rec == Some(RecStrong) && !cfg.timid)
      invariant true !in StopFlags(item, done, cfg, m)
    {
      proposal, rec := Enter(item, tracks[t], table, done, cfg, m);
      done := done + [tracks[t]];
      PrefixStep(done0, tracks, t);
      if rec.value == RecStrong && !cfg.timid {
        stop := true;
        return;
      }
    }
  }

  /** None of the tracks found for the id, or all of them. */
  lemma PrefixEnds(done0: seq<TrackInfo>, tracks: seq<TrackInfo>)
    ensures done0 + tracks[..0] == done0 && done0 + tracks[..|tracks|] == done0 + tracks
  {
    assert tracks[..0] == [] && tracks[..|tracks|] == tracks;
  }

  /** The tracks gone in grow by one track at a time, within the tracks
      found for the id. */
  lemma PrefixStep(done0: seq<TrackInfo>, tracks: seq<TrackInfo>, t: nat)
    requires t < |tracks|
    ensures done0 + tracks[..t + 1] == done0 + tracks[..t] + [tracks[t]]
    ensures done0 <= done0 + tracks[..t + 1] <= done0 + tracks
  {
    assert tracks[..t + 1] == tracks[..t] + [tracks[t]];
  }

  /** A search that stopped within the tracks found for the first ids
      stopped at the same point within all the tracks found. */
  lemma StoppedInAll(item: Item, ids: seq<string>, lookup: string -> seq<TrackInfo>, i: nat, done: seq<TrackInfo>, cfg: Config, m: Metrics)
    requires i < |ids| && done <= FoundTracks(ids[..i + 1], lookup)
    requires FirstStop(StopFlags(item, done, cfg, m), |done|, true)
    ensures var all := FoundTracks(ids, lookup);
      done <= all && done == all[..|done|] && StoppedAt(item, all, |done|, true, cfg, m)
  {
    var all := FoundTracks(ids, lookup);
    FoundTracksPrefix(ids, lookup, i + 1);
    PrefixOfPrefix(done, FoundTracks(ids[..i + 1], lookup), all);
    StopFlagsPrefix(item, done, all, cfg, m);
    FirstStopExtends(StopFlags(item, done, cfg, m), StopFlags(item, all, cfg, m), |done|);
  }

  /** A prefix of a prefix is the leading part of the whole. */
  lemma PrefixOfPrefix(done: seq<TrackInfo>, mid: seq<TrackInfo>, all: seq<TrackInfo>)
    requires done <= mid <= all
    ensures done == all[..|done|]
  {
  }

  /** Going through every id finds all the tracks. */
  lemma FoundTracksWhole(ids: seq<string>, lookup: string -> seq<TrackInfo>)
    ensures var all := FoundTracks(ids, lookup);
      FoundTracks(ids[..|ids|], lookup) == all && all[..|all|] == all
  {
    assert ids[..|ids|] == ids;
  }

  /** The tracks found for one more id follow those found before. */
  lemma FoundTracksStep(ids: seq<string>, lookup: string -> seq<TrackInfo>, i: nat)
    requires i < |ids|
    ensures FoundTracks(ids[..i + 1], lookup) == FoundTracks(ids[..i], lookup) + lookup(ids[i])
  {
    assert ids[..i + 1][..i] == ids[..i];
  }

  /** One step of the inner loop: the track goes in under its id with its
      distance, the dictionary is ranked again, and the search stops there
      exactly when the recommendation is strong and the importer not
      timid. */
  method Enter(item: Item, track: TrackInfo, table: C.CandidateTable, ghost done: seq<TrackInfo>, cfg: Config, m: Metrics)
    returns (proposal: seq<Match>, rec: Option<Recommendation>)
    requires table.Valid()
    requires table.order == Entered(item, done, cfg, m).order && table.results == Entered(item, done, cfg, m).results
    requires true !in StopFlags(item, done, cfg, m)
    modifies table
    ensures table.Valid()
    ensures table.order == Entered(item, done + [track], cfg, m).order
    ensures table.results == Entered(item, done + [track], cfg, m).results
    ensures proposal == RankedAfter(item, done + [track], cfg, m)
    ensures rec == Some(RecommendationOf(proposal, cfg, m))
    ensures rec.value == RecStrong && !cfg.timid ==> FirstStop(StopFlags(item, done + [track], cfg, m), |done| + 1, true)
    ensures !(rec.value == RecStrong && !cfg.timid) ==> true !in StopFlags(item, done + [track], cfg, m)
  {
    ghost var e := Entered(item, done + [track], cfg, m);
    EnteredStep(item, done, track, cfg, m);
    var dist := TD.ComputeTrackDistance(item, track, true, cfg, m);
    table.Put(track.trackId, TrackMatch(dist, track));
    assert table.order == e.order && table.results == e.results;
    var r;
    proposal, r := Rank(table, cfg, m);
    SameValues(e, table.Values());
    rec := Some(r);
    if r == RecStrong && !cfg.timid {
      StopFlagsStop(item, done, track, cfg, m);
    } else {
      StopFlagsGoOn(item, done, track, cfg, m);
    }
  }

  /** One more track: its id goes in, or keeps its place, with the new
      track and its distance. */
  lemma EnteredStep(item: Item, before: seq<TrackInfo>, track: TrackInfo, cfg: Config, m: Metrics)
    ensures var e := Entered(item, before, cfg, m);
      && Entered(item, before + [track], cfg, m).results == e.results[track.trackId := TrackMatch(TD.TrackDistanceOf(item, track, true, cfg, m), track)]
      && Entered(item, before + [track], cfg, m).order == if track.trackId in e.results then e.order else e.order + [track.trackId]
  {
    var after := before + [track];
    assert after[..|after| - 1] == before;
  }

  /** A table whose values are listed in the order of the dictionary's keys
      has the dictionary's values. */
  lemma SameValues(e: Entries, vs: seq<Match>)
    requires WellKeyed(e)
    requires |vs| == |e.order| && forall k :: 0 <= k < |vs| ==> vs[k] == e.results[e.order[k]]
    ensures vs == ValuesOf(e)
  {
  }

  /** `_recommendation(_sort_candidates(candidates.values()))` over a table
      of track candidates. */
  method Rank(table: C.CandidateTable, cfg: Config, m: Metrics) returns (proposal: seq<Match>, rec: Recommendation)
    requires table.Valid()
    requires forall key :: key in table.results ==> table.results[key].TrackMatch?
    ensures proposal == SortCandidates(table.Values(), m)
    ensures RankedTracks(proposal, m) && |proposal| == |table.order|
    ensures rec == RecommendationOf(proposal, cfg, m)
    ensures rec == RecStrong ==> proposal != [] && MatchDistance(proposal[0], m) < cfg.strongThresh
  {
    var values := table.Values();
    proposal := SortCandidates(values, m);
    SortedProposal(values, m);
    rec := Recommend.Recommend(proposal, cfg, m);
    if rec == RecStrong {
      StrongNeedsCloseMatch(proposal, cfg, m);
    }
  }

  /** The tracks found for a prefix of the ids are a prefix of those found
      for all of them. */
  lemma {:induction false} FoundTracksPrefix(ids: seq<string>, lookup: string -> seq<TrackInfo>, i: nat)
    requires i <= |ids|
    ensures FoundTracks(ids[..i], lookup) <= FoundTracks(ids, lookup)
    decreases |ids|
  {
    if i < |ids| {
      var front := ids[..|ids| - 1];
      assert front[..i] == ids[..i];
      FoundTracksPrefix(front, lookup, i);
    } else {
      assert ids[..i] == ids;
    }
  }

  /** One more track adds its own stop flag after those of the tracks
      before it. */
  lemma StopFlagsStep(item: Item, done: seq<TrackInfo>, track: TrackInfo, cfg: Config, m: Metrics)
    ensures StopFlags(item, done + [track], cfg, m) == StopFlags(item, done, cfg, m) + [StopsAfter(item, done + [track], cfg, m)]
  {
    assert (done + [track])[..|done|] == done;
  }

  /** The first track that stops the search is where it stops. */
  lemma StopFlagsStop(item: Item, done: seq<TrackInfo>, track: TrackInfo, cfg: Config, m: Metrics)
    requires true !in StopFlags(item, done, cfg, m) && StopsAfter(item, done + [track], cfg, m)
    ensures FirstStop(StopFlags(item, done + [track], cfg, m), |done| + 1, true)
  {
    StopFlagsStep(item, done, track, cfg, m);
    var flags := StopFlags(item, done + [track], cfg, m);
    assert flags[..|done|] == StopFlags(item, done, cfg, m);
  }

  /** A track that does not stop the search leaves it unstopped. */
  lemma StopFlagsGoOn(item: Item, done: seq<TrackInfo>, track: TrackInfo, cfg: Config, m: Metrics)
    requires true !in StopFlags(item, done, cfg, m) && !StopsAfter(item, done + [track], cfg, m)
    ensures true !in StopFlags(item, done + [track], cfg, m)
  {
    StopFlagsStep(item, done, track, cfg, m);
  }

  /** The stop flags of a prefix of the tracks found are a prefix of their
      stop flags: a flag depends only on the tracks up to its own. */
  lemma {:induction false} StopFlagsPrefix(item: Item, found: seq<TrackInfo>, more: seq<TrackInfo>, cfg: Config, m: Metrics)
    requires found <= more
    ensures StopFlags(item, found, cfg, m) <= StopFlags(item, more, cfg, m)
    decreases |more|
  {
    if |found| < |more| {
      var front := more[..|more| - 1];
      assert found <= front;
      StopFlagsPrefix(item, found, front, cfg, m);
    } else {
      assert found == more;
    }
  }

  /** The search stops at one point only. */
  lemma FirstStopUnique(flags: seq<bool>, n1: nat, stopped1: bool, n2: nat, stopped2: bool)
    requires FirstStop(flags, n1, stopped1) && FirstStop(flags, n2, stopped2)
    ensures n1 == n2 && stopped1 == stopped2
  {
  }

  /** The search over the tracks found ends at one point only. */
  lemma StoppedAtUnique(item: Item, found: seq<TrackInfo>, n1: nat, stopped1: bool, n2: nat, stopped2: bool, cfg: Config, m: Metrics)
    requires StoppedAt(item, found, n1, stopped1, cfg, m) && StoppedAt(item, found, n2, stopped2, cfg, m)
    ensures n1 == n2 && stopped1 == stopped2
  {
    FirstStopUnique(StopFlags(item, found, cfg, m), n1, stopped1, n2, stopped2);
  }

  /** Flags that stop the search stop it at the same point within any
      longer run of flags. */
  lemma FirstStopExtends(flags: seq<bool>, more: seq<bool>, n: nat)
    requires flags <= more && FirstStop(flags, n, true)
    ensures FirstStop(more, n, true)
  {
    assert more[..n - 1] == flags[..n - 1];
  }

  /** A search that stopped early stops at the same point over any longer
      list of tracks found: the tracks after the stop point are never
      looked at. */
  lemma StoppedSearchExtends(item: Item, found: seq<TrackInfo>, more: seq<TrackInfo>, n: nat, cfg: Config, m: Metrics)
    requires found <= more && StoppedAt(item, found, n, true, cfg, m)
    ensures StoppedAt(item, more, n, true, cfg, m)
  {
    StopFlagsPrefix(item, found, more, cfg, m);
    FirstStopExtends(StopFlags(item, found, cfg, m), StopFlags(item, more, cfg, m), n);
  }

  /** The ranked dictionary holds track matches in non-decreasing distance,
      and a strong recommendation means the best one is within the strong
      threshold. */
  lemma RankedAfterIsRanked(item: Item, found: seq<TrackInfo>, cfg: Config, m: Metrics)
    ensures RankedTracks(RankedAfter(item, found, cfg, m), m)
    ensures var ranked := RankedAfter(item, found, cfg, m);
      RecommendationOf(ranked, cfg, m) == RecStrong ==> ranked != [] && MatchDistance(ranked[0], m) < cfg.strongThresh
  {
    var ranked := RankedAfter(item, found, cfg, m);
    SortedProposal(ValuesOf(Entered(item, found, cfg, m)), m);
    if RecommendationOf(ranked, cfg, m) == RecStrong {
      StrongNeedsCloseMatch(ranked, cfg, m);
    }
  }

  /** The ids of the tracks found, in order. */
  function IdsOf(found: seq<TrackInfo>): (ids: seq<Option<string>>)
    ensures |ids| == |found| && forall l :: 0 <= l < |found| ==> ids[l] == found[l].trackId
  {
    seq(|found|, l requires 0 <= l < |found| => found[l].trackId)
  }

  /** The keys of the dictionary are exactly the ids of the tracks found. */
  lemma {:induction false} EnteredKeysAreIds(item: Item, found: seq<TrackInfo>, cfg: Config, m: Metrics)
    ensures forall key :: key in Entered(item, found, cfg, m).results <==> key in IdsOf(found)
    decreases |found|
  {
    if found != [] {
      var front := found[..|found| - 1];
      var last := found[|found| - 1];
      EnteredKeysAreIds(item, front, cfg, m);
      assert front + [last] == found;
      EnteredStep(item, front, last, cfg, m);
      assert IdsOf(found) == IdsOf(front) + [last.trackId];
    }
  }

  /** Each id maps to the last track found under it, with that track's
      distance including the artist. */
  lemma {:induction false} EnteredKeepsLast(item: Item, found: seq<TrackInfo>, l: nat, cfg: Config, m: Metrics)
    requires l < |found|
    requires forall l' :: l < l' < |found| ==> found[l'].trackId != found[l].trackId
    ensures var e := Entered(item, found, cfg, m);
      && found[l].trackId in e.results
      && e.results[found[l].trackId] == TrackMatch(TD.TrackDistanceOf(item, found[l], true, cfg, m), found[l])
    decreases |found|
  {
    if l < |found| - 1 {
      var front := found[..|found| - 1];
      assert front[l] == found[l];
      EnteredKeepsLast(item, front, l, cfg, m);
    }
  }

  /** Ranked track candidates are all track matches, in non-decreasing
      distance. */
  lemma SortedProposal(values: seq<Match>, m: Metrics)
    requires forall k :: 0 <= k < |values| ==> values[k].TrackMatch?
    ensures RankedTracks(SortCandidates(values, m), m)
  {
    var sorted := SortCandidates(values, m);
    SortIsPermutation(values, m);
    forall k, l | 0 <= k < l < |sorted| ensures MatchDistance(sorted[k], m) <= MatchDistance(sorted[l], m) {
      SortIsStableByScore(values, m, k, l);
    }
  }
}
