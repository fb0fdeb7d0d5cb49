/**
 * The track-level distance (`track_distance`, `track_index_changed`): which
 * penalty categories a pairing of a library item with a catalog track
 * receives, and under which presence conditions.
 */
module TrackDistance {
  import opened Records

  /** Artist names that signal a various-artists release. */
  const VaArtists: seq<string> := ["", "various artists", "various", "va", "unknown"]

  function LowerChar(c: char): char {
    if 'A' <= c <= 'Z' then (c as int + 32) as char else c
  }

  /** `str.lower()`, for ASCII letters. */
  function Lower(s: string): string {
    seq(|s|, i requires 0 <= i < |s| => LowerChar(s[i]))
  }

  /** `track_index_changed`: the item's track number is neither the
      per-disc nor the per-release number of the catalog track. */
  function TrackIndexChanged(item: Item, track: TrackInfo): bool {
    item.track !in NumberingsOf(track)
  }

  /** The numbers a catalog track may be known by. */
  function NumberingsOf(track: TrackInfo): set<int> {
    (if track.mediumIndex.Some? then {track.mediumIndex.value} else {})
    + (if track.index.Some? then {track.index.value} else {})
  }

  lemma TrackIndexUnchangedIff(item: Item, track: TrackInfo)
    ensures !TrackIndexChanged(item, track) <==>
      track.mediumIndex == Some(item.track) || track.index == Some(item.track)
  {
  }

  /** The penalty a binary check contributes. */
  function Flag(mismatch: bool): real {
    if mismatch then 1.0 else 0.0
  }

  /** `name.lower() in VA_ARTISTS`. */
  predicate IsVaName(name: string) {
    Lower(name) in VaArtists
  }

  /** Whether the artist comparison applies. */
  predicate ArtistCompared(item: Item, track: TrackInfo, inclArtist: bool) {
    inclArtist && PresentText(track.artist) && !IsVaName(item.artist)
  }

  /** The length penalty; consulted only when the catalog knows the length. */
  function LengthPenalty(item: Item, track: TrackInfo, cfg: Config, m: Metrics): real {
    var known := if track.length.Some? then track.length.value else 0.0;
    m.ratio(AbsReal(item.length - known) - cfg.lengthGrace, cfg.lengthMax)
  }

  /** The distance `track_distance` builds itself, category by category. */
  function TrackOwn(item: Item, track: TrackInfo, inclArtist: bool, cfg: Config, m: Metrics): Distance {
    var d := AddWhen(EmptyDistance, PresentReal(track.length), "track_length", LengthPenalty(item, track, cfg, m));
    var d := d.Add("track_title", m.stringDist(Some(item.title), track.title));
    var d := AddWhen(d, ArtistCompared(item, track, inclArtist),
                     "track_artist", m.stringDist(Some(item.artist), track.artist));
    var d := AddWhen(d, PresentNum(track.index) && item.track != 0,
                     "track_index", Flag(TrackIndexChanged(item, track)));
    var d := AddWhen(d, item.mbTrackId != "", "track_id", Flag(Some(item.mbTrackId) != track.trackId));
    var d := AddWhen(d, PresentNum(track.medium) && item.disc != 0,
                     "medium", Flag(Some(item.disc) != track.medium));
    d
  }

  /** The whole track distance: the plugins' penalties come last. */
  function TrackDistanceOf(item: Item, track: TrackInfo, inclArtist: bool, cfg: Config, m: Metrics): Distance {
    TrackOwn(item, track, inclArtist, cfg, m).Update(m.pluginTrack(item, track))
  }

  /** `track_distance(item, track_info, incl_artist)`. */
  method ComputeTrackDistance(item: Item, track: TrackInfo, inclArtist: bool, cfg: Config, m: Metrics)
    returns (dist: Distance)
    ensures dist == TrackDistanceOf(item, track, inclArtist, cfg, m)
  {
    dist := EmptyDistance;
    if PresentReal(track.length) {
      var diff := AbsReal(item.length - track.length.value) - cfg.lengthGrace;
      dist := dist.Add("track_length", m.ratio(diff, cfg.lengthMax));
    }
    dist := dist.Add("track_title", m.stringDist(Some(item.title), track.title));
    if inclArtist && PresentText(track.artist) && !IsVaName(item.artist) {
      dist := dist.Add("track_artist", m.stringDist(Some(item.artist), track.artist));
    }
    if PresentNum(track.index) && item.track != 0 {
      dist := dist.AddExpr("track_index", TrackIndexChanged(item, track));
    }
    if item.mbTrackId != "" {
      dist := dist.AddExpr("track_id", Some(item.mbTrackId) != track.trackId);
    }
    if PresentNum(track.medium) && item.disc != 0 {
      dist := dist.AddExpr("medium", Some(item.disc) != track.medium);
    }
    dist := dist.Update(m.pluginTrack(item, track));
  }

  /** How `key` fares along the steps of the track's own distance: each
      step adds to its own category only. */
  lemma TrackOwnSteps(item: Item, track: TrackInfo, inclArtist: bool, cfg: Config, m: Metrics, key: string)
    ensures
      var d0 := AddWhen(EmptyDistance, PresentReal(track.length), "track_length", LengthPenalty(item, track, cfg, m));
      var d1 := d0.Add("track_title", m.stringDist(Some(item.title), track.title));
      var d2 := AddWhen(d1, ArtistCompared(item, track, inclArtist), "track_artist", m.stringDist(Some(item.artist), track.artist));
      var d3 := AddWhen(d2, PresentNum(track.index) && item.track != 0, "track_index", Flag(TrackIndexChanged(item, track)));
      var d4 := AddWhen(d3, item.mbTrackId != "", "track_id", Flag(Some(item.mbTrackId) != track.trackId));
      var c0 := Contributions(d0.penalties, key);
      var c1 := Contributions(d1.penalties, key);
      var c2 := Contributions(d2.penalties, key);
      var c3 := Contributions(d3.penalties, key);
      var c4 := Contributions(d4.penalties, key);
      && c0 == (if PresentReal(track.length) && key == "track_length" then [LengthPenalty(item, track, cfg, m)] else [])
      && c1 == c0 + (if key == "track_title" then [m.stringDist(Some(item.title), track.title)] else [])
      && c2 == c1 + (if ArtistCompared(item, track, inclArtist) && key == "track_artist"
                     then [m.stringDist(Some(item.artist), track.artist)] else [])
      && c3 == c2 + (if PresentNum(track.index) && item.track != 0 && key == "track_index"
                     then [Flag(TrackIndexChanged(item, track))] else [])
      && c4 == c3 + (if item.mbTrackId != "" && key == "track_id" then [Flag(Some(item.mbTrackId) != track.trackId)] else [])
      && Contributions(TrackOwn(item, track, inclArtist, cfg, m).penalties, key) ==
           c4 + (if PresentNum(track.medium) && item.disc != 0 && key == "medium"
                 then [Flag(Some(item.disc) != track.medium)] else [])
  {
    var d0 := AddWhen(EmptyDistance, PresentReal(track.length), "track_length", LengthPenalty(item, track, cfg, m));
    ContributionsAddWhen(EmptyDistance, PresentReal(track.length), "track_length", LengthPenalty(item, track, cfg, m), key);
    var d1 := d0.Add("track_title", m.stringDist(Some(item.title), track.title));
    ContributionsAddWhen(d0, true, "track_title", m.stringDist(Some(item.title), track.title), key);
    var d2 := AddWhen(d1, ArtistCompared(item, track, inclArtist), "track_artist", m.stringDist(Some(item.artist), track.artist));
    ContributionsAddWhen(d1, ArtistCompared(item, track, inclArtist), "track_artist", m.stringDist(Some(item.artist), track.artist), key);
    var d3 := AddWhen(d2, PresentNum(track.index) && item.track != 0, "track_index", Flag(TrackIndexChanged(item, track)));
    ContributionsAddWhen(d2, PresentNum(track.index) && item.track != 0, "track_index", Flag(TrackIndexChanged(item, track)), key);
    var d4 := AddWhen(d3, item.mbTrackId != "", "track_id", Flag(Some(item.mbTrackId) != track.trackId));
    ContributionsAddWhen(d3, item.mbTrackId != "", "track_id", Flag(Some(item.mbTrackId) != track.trackId), key);
    ContributionsAddWhen(d4, PresentNum(track.medium) && item.disc != 0, "medium", Flag(Some(item.disc) != track.medium), key);
  }

  /** The title is always compared; the length only when the catalog knows it. */
  lemma TitleAndLengthRules(item: Item, track: TrackInfo, inclArtist: bool, cfg: Config, m: Metrics)
    ensures Contributions(TrackOwn(item, track, inclArtist, cfg, m).penalties, "track_title") ==
      [m.stringDist(Some(item.title), track.title)]
    ensures Contributions(TrackOwn(item, track, inclArtist, cfg, m).penalties, "track_length") ==
      (if PresentReal(track.length) then [LengthPenalty(item, track, cfg, m)] else [])
  {
    TrackOwnSteps(item, track, inclArtist, cfg, m, "track_title");
    TrackOwnSteps(item, track, inclArtist, cfg, m, "track_length");
  }

  /** The artist is compared exactly when asked to, when the catalog names an
      artist, and when the item's artist is not a various-artists name. */
  lemma ArtistRule(item: Item, track: TrackInfo, inclArtist: bool, cfg: Config, m: Metrics)
    ensures Contributions(TrackOwn(item, track, inclArtist, cfg, m).penalties, "track_artist") != [] <==>
      inclArtist && PresentText(track.artist) && Lower(item.artist) !in VaArtists
    ensures Contributions(TrackOwn(item, track, inclArtist, cfg, m).penalties, "track_artist") != [] ==>
      Contributions(TrackOwn(item, track, inclArtist, cfg, m).penalties, "track_artist") ==
        [m.stringDist(Some(item.artist), track.artist)]
  {
    TrackOwnSteps(item, track, inclArtist, cfg, m, "track_artist");
  }

  /** The track number is checked when both sides have one; it is a full
      penalty exactly when it matches neither catalog numbering. */
  lemma IndexRule(item: Item, track: TrackInfo, inclArtist: bool, cfg: Config, m: Metrics)
    ensures Contributions(TrackOwn(item, track, inclArtist, cfg, m).penalties, "track_index") ==
      if PresentNum(track.index) && item.track != 0 then
        [if track.mediumIndex == Some(item.track) || track.index == Some(item.track) then 0.0 else 1.0]
      else []
  {
    TrackOwnSteps(item, track, inclArtist, cfg, m, "track_index");
    TrackIndexUnchangedIff(item, track);
  }

  /** The recording id is checked whenever the item has one; it is a full
      penalty exactly when the catalog track's id differs. */
  lemma TrackIdRule(item: Item, track: TrackInfo, inclArtist: bool, cfg: Config, m: Metrics)
    ensures Contributions(TrackOwn(item, track, inclArtist, cfg, m).penalties, "track_id") ==
      if item.mbTrackId != "" then [if track.trackId == Some(item.mbTrackId) then 0.0 else 1.0] else []
  {
    TrackOwnSteps(item, track, inclArtist, cfg, m, "track_id");
  }

  /** The disc number is checked when both sides have one; it is a full
      penalty exactly when they differ. */
  lemma MediumRule(item: Item, track: TrackInfo, inclArtist: bool, cfg: Config, m: Metrics)
    ensures Contributions(TrackOwn(item, track, inclArtist, cfg, m).penalties, "medium") ==
      if PresentNum(track.medium) && item.disc != 0 then [if track.medium == Some(item.disc) then 0.0 else 1.0]
      else []
  {
    TrackOwnSteps(item, track, inclArtist, cfg, m, "medium");
  }

  /** The track's own distance uses only its six categories, each at most once. */
  lemma TrackOwnCategories(item: Item, track: TrackInfo, inclArtist: bool, cfg: Config, m: Metrics, key: string)
    ensures |Contributions(TrackOwn(item, track, inclArtist, cfg, m).penalties, key)| <= 1
    ensures key !in TrackKeys ==> Contributions(TrackOwn(item, track, inclArtist, cfg, m).penalties, key) == []
  {
    TrackOwnSteps(item, track, inclArtist, cfg, m, key);
  }

  const TrackKeys: set<string> := {"track_length", "track_title", "track_artist", "track_index", "track_id", "medium"}
}
