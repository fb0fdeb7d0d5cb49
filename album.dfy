/**
 * The release-level distance (`distance`): the release metadata compared
 * against the items' likely values, one track distance per pairing, and a
 * unit penalty per missing catalog track and per unmatched item.
 */
module AlbumDistance {
  import opened Records
  import opened Consensus
  import TD = TrackDistance

  /** The text of a text value; a number has none. */
  function TextOf(v: Value): string {
    match v
    case Text(s) => s
    case Number(_) => ""
  }

  /** A present optional string, or "". */
  function TextOr(o: Option<string>): string {
    if o.Some? then o.value else ""
  }

  /** A present optional integer, or `default`. */
  function NumOr(o: Option<int>, default: int): int {
    if o.Some? then o.value else default
  }

  /** The preferred-media patterns, each allowing a "2x"-style count before
      the medium name. */
  function MediaPatterns(patterns: seq<string>): (r: seq<string>)
    ensures |r| == |patterns|
  {
    seq(|patterns|, i requires 0 <= i < |patterns| => "(\\d+x)?(" + patterns[i] + ")")
  }

  /** The likely values, one per release-level field. */
  type Likelies = map<Field, Value>

  predicate Complete(likely: Likelies) {
    forall f: Field :: f in likely
  }

  /** Whether the media comparison applies: the catalog names a medium and
      there is either a preference list or a likely medium. */
  predicate MediaCompared(likely: Likelies, info: AlbumInfo, cfg: Config)
    requires Complete(likely)
  {
    PresentText(info.media) && (|cfg.preferredMedia| > 0 || Truthy(likely[Media]))
  }

  function MediaPenalty(likely: Likelies, info: AlbumInfo, cfg: Config, m: Metrics): real
    requires Complete(likely)
  {
    if |cfg.preferredMedia| > 0 then m.priority(TextOr(info.media), MediaPatterns(cfg.preferredMedia))
    else m.equality(TextOr(info.media), Some(TextOf(likely[Media])))
  }

  /** Whether the year comparison applies. */
  predicate YearCompared(likely: Likelies, info: AlbumInfo, cfg: Config)
    requires Complete(likely)
  {
    PresentNum(info.year) && (cfg.preferOriginalYear || Truthy(likely[Year]))
  }

  /** The year penalty: with the original-year preference, how far the
      release is from the original release (1889 when unknown) relative to
      the original's age; otherwise free for a matching release or original
      year, relative to the original's age when one is known, and full
      otherwise. */
  function YearPenalty(likelyYear: int, info: AlbumInfo, cfg: Config, m: Metrics): real {
    var year := NumOr(info.year, 0);
    if cfg.preferOriginalYear then
      var original := if PresentNum(info.originalYear) then info.originalYear.value else 1889;
      m.ratio(Abs(year - original) as real, Abs(cfg.today - original) as real)
    else if Some(likelyYear) == info.year || Some(likelyYear) == info.originalYear then 0.0
    else if PresentNum(info.originalYear) then
      m.ratio(Abs(likelyYear - year) as real, Abs(cfg.today - info.originalYear.value) as real)
    else 1.0
  }

  /** Whether the country comparison applies. */
  predicate CountryCompared(likely: Likelies, info: AlbumInfo, cfg: Config)
    requires Complete(likely)
  {
    PresentText(info.country) && (|cfg.preferredCountries| > 0 || Truthy(likely[Country]))
  }

  function CountryPenalty(likely: Likelies, info: AlbumInfo, cfg: Config, m: Metrics): real
    requires Complete(likely)
  {
    if |cfg.preferredCountries| > 0 then m.priority(TextOr(info.country), cfg.preferredCountries)
    else m.stringDist(AsText(likely[Country]), info.country)
  }

  /** A string comparison that applies when both sides are non-empty. */
  predicate BothPresent(v: Value, o: Option<string>) {
    Truthy(v) && PresentText(o)
  }

  /** The artist, album, media, mediums and year part of the distance. */
  function ReleasePart(likely: Likelies, info: AlbumInfo, cfg: Config, m: Metrics): Distance
    requires Complete(likely)
  {
    var d := AddWhen(EmptyDistance, !info.va, "artist", m.stringDist(AsText(likely[Artist]), info.artist));
    var d := d.Add("album", m.stringDist(AsText(likely[Album]), info.album));
    var d := AddWhen(d, MediaCompared(likely, info, cfg), "media", MediaPenalty(likely, info, cfg, m));
    var d := AddWhen(d, Truthy(likely[DiscTotal]) && PresentNum(info.mediums),
                     "mediums", m.number(AsNumber(likely[DiscTotal]), NumOr(info.mediums, 0)));
    var d := AddWhen(d, YearCompared(likely, info, cfg), "year", YearPenalty(AsNumber(likely[Year]), info, cfg, m));
    d
  }

  /** The country, label, catalog number, disambiguation and release id
      part of the distance. */
  function CatalogPart(d: Distance, likely: Likelies, info: AlbumInfo, cfg: Config, m: Metrics): Distance
    requires Complete(likely)
  {
    var d := AddWhen(d, CountryCompared(likely, info, cfg), "country", CountryPenalty(likely, info, cfg, m));
    var d := AddWhen(d, BothPresent(likely[RecordLabel], info.recordLabel),
                     "label", m.stringDist(AsText(likely[RecordLabel]), info.recordLabel));
    var d := AddWhen(d, BothPresent(likely[CatalogNum], info.catalognum),
                     "catalognum", m.stringDist(AsText(likely[CatalogNum]), info.catalognum));
    var d := AddWhen(d, BothPresent(likely[AlbumDisambig], info.albumdisambig),
                     "albumdisambig", m.stringDist(AsText(likely[AlbumDisambig]), info.albumdisambig));
    var d := AddWhen(d, Truthy(likely[MbAlbumId]), "album_id", m.equality(TextOf(likely[MbAlbumId]), info.albumId));
    d
  }

  /** The metadata part of the distance, before any track is looked at. */
  function MetadataPart(likely: Likelies, info: AlbumInfo, cfg: Config, m: Metrics): Distance
    requires Complete(likely)
  {
    CatalogPart(ReleasePart(likely, info, cfg, m), likely, info, cfg, m)
  }

  /** Every pair of the mapping names an item and a catalog track. */
  predicate PairsInRange(mapping: Mapping, items: nat, tracks: nat) {
    forall k :: 0 <= k < |mapping| ==> mapping[k].item < items && mapping[k].track < tracks
  }

  /** The penalties of each pair's track distance, in mapping order, with
      the artist compared on various-artists releases. */
  function PairPenalties(items: seq<Item>, info: AlbumInfo, mapping: Mapping, cfg: Config, m: Metrics): (owns: seq<Penalties>)
    requires PairsInRange(mapping, |items|, |info.tracks|)
    ensures |owns| == |mapping|
  {
    seq(|mapping|, k requires 0 <= k < |mapping| =>
      TD.TrackDistanceOf(items[mapping[k].item], info.tracks[mapping[k].track], info.va, cfg, m).penalties)
  }

  /** The first `n` pairs' track distances `owns`: each is recorded under
      its track and its total joins the "tracks" category. */
  function TracksPart(d: Distance, mapping: Mapping, owns: seq<Penalties>, m: Metrics, n: nat): Distance
    requires |owns| == |mapping| && n <= |mapping|
  {
    if n == 0 then d
    else
      var earlier := TracksPart(d, mapping, owns, m, n - 1);
      Distance(earlier.penalties, earlier.tracks[mapping[n - 1].track := owns[n - 1]]).Add("tracks", m.total(owns[n - 1]))
  }

  /** `for _ in range(n): dist.add(key, 1.0)`; nothing when `n` is not
      positive. */
  function Repeat(d: Distance, key: string, n: int): Distance
    decreases n
  {
    if n <= 0 then d else Repeat(d, key, n - 1).Add(key, 1.0)
  }

  /** What follows the metadata: the track distances `owns` of the pairs,
      then a unit penalty per catalog track and per item beyond the pairs. */
  function TrackPart(metadata: Distance, mapping: Mapping, owns: seq<Penalties>, m: Metrics, trackCount: nat, itemCount: nat): Distance
    requires |owns| == |mapping|
  {
    var d := TracksPart(metadata.(tracks := map[]), mapping, owns, m, |mapping|);
    var d := Repeat(d, "missing_tracks", trackCount - |mapping|);
    Repeat(d, "unmatched_tracks", itemCount - |mapping|)
  }

  /** The distance `distance` builds itself, given the likely values. */
  function AlbumOwn(items: seq<Item>, likely: Likelies, info: AlbumInfo, mapping: Mapping, cfg: Config, m: Metrics): Distance
    requires Complete(likely) && PairsInRange(mapping, |items|, |info.tracks|)
  {
    TrackPart(MetadataPart(likely, info, cfg, m), mapping, PairPenalties(items, info, mapping, cfg, m), m, |info.tracks|, |items|)
  }

  /** The whole release distance, against the likely values of the items;
      the plugins' penalties come last. */
  function AlbumDistanceOf(items: seq<Item>, info: AlbumInfo, mapping: Mapping, cfg: Config, m: Metrics): Distance
    requires |items| > 0 && PairsInRange(mapping, |items|, |info.tracks|)
  {
    AlbumOwn(items, LikeliesOf(items), info, mapping, cfg, m).Update(m.pluginAlbum(items, info, mapping))
  }

  /** The likely values of `current_metadata`, as a dictionary. */
  function LikeliesOf(items: seq<Item>): (likely: Likelies)
    requires |items| > 0
    ensures Complete(likely)
  {
    assert forall f: Field :: f in Fields by {
      forall f: Field { FieldListed(f); }
    }
    map f | f in Fields :: CurrentLikely(items, f)
  }

  /** The dictionary `current_metadata` fills is `LikeliesOf`. */
  lemma MetadataLikelies(items: seq<Item>, likely: Likelies)
    requires |items| > 0
    requires forall f: Field :: f in likely && likely[f] == CurrentLikely(items, f)
    ensures likely == LikeliesOf(items)
  {
    var spec := LikeliesOf(items);
    assert likely.Keys == spec.Keys;
    assert forall f :: f in likely ==> likely[f] == spec[f];
  }

  /** The artist, album, media, mediums and year checks. */
  method AddReleasePenalties(likely: Likelies, info: AlbumInfo, cfg: Config, m: Metrics) returns (dist: Distance)
    requires Complete(likely)
    ensures dist == ReleasePart(likely, info, cfg, m)
  {
    dist := EmptyDistance;
    if !info.va {
      dist := dist.Add("artist", m.stringDist(AsText(likely[Artist]), info.artist));
    }
    dist := dist.Add("album", m.stringDist(AsText(likely[Album]), info.album));
    if PresentText(info.media) {
      if |cfg.preferredMedia| > 0 {
        dist := dist.Add("media", m.priority(info.media.value, MediaPatterns(cfg.preferredMedia)));
      } else if Truthy(likely[Media]) {
        dist := dist.Add("media", m.equality(info.media.value, Some(TextOf(likely[Media]))));
      }
    }
    if Truthy(likely[DiscTotal]) && PresentNum(info.mediums) {
      dist := dist.Add("mediums", m.number(AsNumber(likely[DiscTotal]), info.mediums.value));
    }
    var likelyYear := AsNumber(likely[Year]);
    if PresentNum(info.year) && cfg.preferOriginalYear {
      var original := if PresentNum(info.originalYear) then info.originalYear.value else 1889;
      var diff := Abs(info.year.value - original);
      var diffMax := Abs(cfg.today - original);
      dist := dist.Add("year", m.ratio(diff as real, diffMax as real));
    } else if Truthy(likely[Year]) && PresentNum(info.year) {
      if Some(likelyYear) == info.year || Some(likelyYear) == info.originalYear {
        dist := dist.Add("year", 0.0);
      } else if PresentNum(info.originalYear) {
        var diff := Abs(likelyYear - info.year.value);
        var diffMax := Abs(cfg.today - info.originalYear.value);
        dist := dist.Add("year", m.ratio(diff as real, diffMax as real));
      } else {
        dist := dist.Add("year", 1.0);
      }
    }
  }

  /** The country, label, catalog number, disambiguation and release id
      checks. */
  method AddCatalogPenalties(d: Distance, likely: Likelies, info: AlbumInfo, cfg: Config, m: Metrics) returns (dist: Distance)
    requires Complete(likely)
    ensures dist == CatalogPart(d, likely, info, cfg, m)
  {
    dist := d;
    if PresentText(info.country) && |cfg.preferredCountries| > 0 {
      dist := dist.Add("country", m.priority(info.country.value, cfg.preferredCountries));
    } else if Truthy(likely[Country]) && PresentText(info.country) {
      dist := dist.Add("country", m.stringDist(AsText(likely[Country]), info.country));
    }
    if Truthy(likely[RecordLabel]) && PresentText(info.recordLabel) {
      dist := dist.Add("label", m.stringDist(AsText(likely[RecordLabel]), info.recordLabel));
    }
    if Truthy(likely[CatalogNum]) && PresentText(info.catalognum) {
      dist := dist.Add("catalognum", m.stringDist(AsText(likely[CatalogNum]), info.catalognum));
    }
    if Truthy(likely[AlbumDisambig]) && PresentText(info.albumdisambig) {
      dist := dist.Add("albumdisambig", m.stringDist(AsText(likely[AlbumDisambig]), info.albumdisambig));
    }
    if Truthy(likely[MbAlbumId]) {
      dist := dist.Add("album_id", m.equality(TextOf(likely[MbAlbumId]), info.albumId));
    }
  }

  /** The track loop of `distance`: one track distance per pair, in the
      mapping's order. */
  method AddTrackDistances(d: Distance, items: seq<Item>, info: AlbumInfo, mapping: Mapping, cfg: Config, m: Metrics)
    returns (dist: Distance)
    requires PairsInRange(mapping, |items|, |info.tracks|)
    ensures dist == TracksPart(d, mapping, PairPenalties(items, info, mapping, cfg, m), m, |mapping|)
  {
    dist := d;
    for k := 0 to |mapping|
      invariant dist == TracksPart(d, mapping, PairPenalties(items, info, mapping, cfg, m), m, k)
    {
      var item, track := items[mapping[k].item], info.tracks[mapping[k].track];
      var own := TD.ComputeTrackDistance(item, track, info.va, cfg, m);
      dist := dist.(tracks := dist.tracks[mapping[k].track := own.penalties]);
      dist := dist.Add("tracks", m.total(own.penalties));
    }
  }

  /** `for _ in range(n): dist.add(key, 1.0)`. */
  method AddUnits(d: Distance, key: string, n: int) returns (dist: Distance)
    ensures dist == Repeat(d, key, n)
  {
    dist := d;
    var i := 0;
    while i < n
      invariant 0 <= i && (i == 0 || i <= n)
      invariant dist == Repeat(d, key, i)
    {
      dist := dist.Add(key, 1.0);
      i := i + 1;
    }
  }

  /** The metadata checks of `distance`, against the likely values of
      `current_metadata`. */
  method AddMetadataPenalties(items: seq<Item>, info: AlbumInfo, cfg: Config, m: Metrics) returns (dist: Distance)
    requires |items| > 0
    ensures dist == MetadataPart(LikeliesOf(items), info, cfg, m)
  {
    var likelies, _ := CurrentMetadata(items);
    MetadataLikelies(items, likelies);
    dist := AddReleasePenalties(likelies, info, cfg, m);
    dist := AddCatalogPenalties(dist, likelies, info, cfg, m);
  }

  /** The track, missing-track and unmatched-item penalties of `distance`. */
  method AddTrackPenalties(d: Distance, items: seq<Item>, info: AlbumInfo, mapping: Mapping, cfg: Config, m: Metrics)
    returns (dist: Distance)
    requires PairsInRange(mapping, |items|, |info.tracks|)
    ensures dist == TrackPart(d, mapping, PairPenalties(items, info, mapping, cfg, m), m, |info.tracks|, |items|)
  {
    dist := d.(tracks := map[]);
    dist := AddTrackDistances(dist, items, info, mapping, cfg, m);
    dist := AddUnits(dist, "missing_tracks", |info.tracks| - |mapping|);
    dist := AddUnits(dist, "unmatched_tracks", |items| - |mapping|);
  }

  /** `distance(items, album_info, mapping)`. */
  method ComputeAlbumDistance(items: seq<Item>, info: AlbumInfo, mapping: Mapping, cfg: Config, m: Metrics)
    returns (dist: Distance)
    requires |items| > 0 && PairsInRange(mapping, |items|, |info.tracks|)
    ensures dist == AlbumDistanceOf(items, info, mapping, cfg, m)
  {
    dist := AddMetadataPenalties(items, info, cfg, m);
    dist := AddTrackPenalties(dist, items, info, mapping, cfg, m);
    dist := dist.Update(m.pluginAlbum(items, info, mapping));
  }

  /** Each step of the artist, album, media, mediums and year part adds to
      its own category only. */
  lemma ReleasePartSteps(likely: Likelies, info: AlbumInfo, cfg: Config, m: Metrics, key: string)
    requires Complete(likely)
    ensures
      var d0 := AddWhen(EmptyDistance, !info.va, "artist", m.stringDist(AsText(likely[Artist]), info.artist));
      var d1 := d0.Add("album", m.stringDist(AsText(likely[Album]), info.album));
      var d2 := AddWhen(d1, MediaCompared(likely, info, cfg), "media", MediaPenalty(likely, info, cfg, m));
      var d3 := AddWhen(d2, Truthy(likely[DiscTotal]) && PresentNum(info.mediums),
                        "mediums", m.number(AsNumber(likely[DiscTotal]), NumOr(info.mediums, 0)));
      var c0 := Contributions(d0.penalties, key);
      var c1 := Contributions(d1.penalties, key);
      var c2 := Contributions(d2.penalties, key);
      var c3 := Contributions(d3.penalties, key);
      && c0 == (if !info.va && key == "artist" then [m.stringDist(AsText(likely[Artist]), info.artist)] else [])
      && c1 == c0 + (if key == "album" then [m.stringDist(AsText(likely[Album]), info.album)] else [])
      && c2 == c1 + (if MediaCompared(likely, info, cfg) && key == "media" then [MediaPenalty(likely, info, cfg, m)] else [])
      && c3 == c2 + (if Truthy(likely[DiscTotal]) && PresentNum(info.mediums) && key == "mediums"
                     then [m.number(AsNumber(likely[DiscTotal]), NumOr(info.mediums, 0))] else [])
      && Contributions(ReleasePart(likely, info, cfg, m).penalties, key) ==
           c3 + (if YearCompared(likely, info, cfg) && key == "year"
                 then [YearPenalty(AsNumber(likely[Year]), info, cfg, m)] else [])
  {
    var d0 := AddWhen(EmptyDistance, !info.va, "artist", m.stringDist(AsText(likely[Artist]), info.artist));
    ContributionsAddWhen(EmptyDistance, !info.va, "artist", m.stringDist(AsText(likely[Artist]), info.artist), key);
    var d1 := d0.Add("album", m.stringDist(AsText(likely[Album]), info.album));
    ContributionsAddWhen(d0, true, "album", m.stringDist(AsText(likely[Album]), info.album), key);
    var d2 := AddWhen(d1, MediaCompared(likely, info, cfg), "media", MediaPenalty(likely, info, cfg, m));
    ContributionsAddWhen(d1, MediaCompared(likely, info, cfg), "media", MediaPenalty(likely, info, cfg, m), key);
    var d3 := AddWhen(d2, Truthy(likely[DiscTotal]) && PresentNum(info.mediums),
                      "mediums", m.number(AsNumber(likely[DiscTotal]), NumOr(info.mediums, 0)));
    ContributionsAddWhen(d2, Truthy(likely[DiscTotal]) && PresentNum(info.mediums),
                         "mediums", m.number(AsNumber(likely[DiscTotal]), NumOr(info.mediums, 0)), key);
    ContributionsAddWhen(d3, YearCompared(likely, info, cfg), "year", YearPenalty(AsNumber(likely[Year]), info, cfg, m), key);
  }

  /** Each step of the country, label, catalog number, disambiguation and
      release id part adds to its own category only. */
  lemma CatalogPartSteps(d: Distance, likely: Likelies, info: AlbumInfo, cfg: Config, m: Metrics, key: string)
    requires Complete(likely)
    ensures
      var d0 := AddWhen(d, CountryCompared(likely, info, cfg), "country", CountryPenalty(likely, info, cfg, m));
      var d1 := AddWhen(d0, BothPresent(likely[RecordLabel], info.recordLabel),
                        "label", m.stringDist(AsText(likely[RecordLabel]), info.recordLabel));
      var d2 := AddWhen(d1, BothPresent(likely[CatalogNum], info.catalognum),
                        "catalognum", m.stringDist(AsText(likely[CatalogNum]), info.catalognum));
      var d3 := AddWhen(d2, BothPresent(likely[AlbumDisambig], info.albumdisambig),
                        "albumdisambig", m.stringDist(AsText(likely[AlbumDisambig]), info.albumdisambig));
      var c0 := Contributions(d0.penalties, key);
      var c1 := Contributions(d1.penalties, key);
      var c2 := Contributions(d2.penalties, key);
      var c3 := Contributions(d3.penalties, key);
      && c0 == Contributions(d.penalties, key) +
               (if CountryCompared(likely, info, cfg) && key == "country" then [CountryPenalty(likely, info, cfg, m)] else [])
      && c1 == c0 + (if BothPresent(likely[RecordLabel], info.recordLabel) && key == "label"
                     then [m.stringDist(AsText(likely[RecordLabel]), info.recordLabel)] else [])
      && c2 == c1 + (if BothPresent(likely[CatalogNum], info.catalognum) && key == "catalognum"
                     then [m.stringDist(AsText(likely[CatalogNum]), info.catalognum)] else [])
      && c3 == c2 + (if BothPresent(likely[AlbumDisambig], info.albumdisambig) && key == "albumdisambig"
                     then [m.stringDist(AsText(likely[AlbumDisambig]), info.albumdisambig)] else [])
      && Contributions(CatalogPart(d, likely, info, cfg, m).penalties, key) ==
           c3 + (if Truthy(likely[MbAlbumId]) && key == "album_id"
                 then [m.equality(TextOf(likely[MbAlbumId]), info.albumId)] else [])
  {
    var d0 := AddWhen(d, CountryCompared(likely, info, cfg), "country", CountryPenalty(likely, info, cfg, m));
    ContributionsAddWhen(d, CountryCompared(likely, info, cfg), "country", CountryPenalty(likely, info, cfg, m), key);
    var d1 := AddWhen(d0, BothPresent(likely[RecordLabel], info.recordLabel),
                      "label", m.stringDist(AsText(likely[RecordLabel]), info.recordLabel));
    ContributionsAddWhen(d0, BothPresent(likely[RecordLabel], info.recordLabel),
                         "label", m.stringDist(AsText(likely[RecordLabel]), info.recordLabel), key);
    var d2 := AddWhen(d1, BothPresent(likely[CatalogNum], info.catalognum),
                      "catalognum", m.stringDist(AsText(likely[CatalogNum]), info.catalognum));
    ContributionsAddWhen(d1, BothPresent(likely[CatalogNum], info.catalognum),
                         "catalognum", m.stringDist(AsText(likely[CatalogNum]), info.catalognum), key);
    var d3 := AddWhen(d2, BothPresent(likely[AlbumDisambig], info.albumdisambig),
                      "albumdisambig", m.stringDist(AsText(likely[AlbumDisambig]), info.albumdisambig));
    ContributionsAddWhen(d2, BothPresent(likely[AlbumDisambig], info.albumdisambig),
                         "albumdisambig", m.stringDist(AsText(likely[AlbumDisambig]), info.albumdisambig), key);
    ContributionsAddWhen(d3, Truthy(likely[MbAlbumId]), "album_id", m.equality(TextOf(likely[MbAlbumId]), info.albumId), key);
  }

  /** `n` unit penalties, none when `n` is not positive. */
  function Ones(n: int): (r: seq<real>)
    ensures |r| == (if n < 0 then 0 else n)
  {
    seq(if n < 0 then 0 else n, _ => 1.0)
  }

  lemma {:induction false} RepeatContributions(d: Distance, k: string, n: int, key: string)
    ensures Contributions(Repeat(d, k, n).penalties, key) == Contributions(d.penalties, key) + (if k == key then Ones(n) else [])
    ensures Repeat(d, k, n).tracks == d.tracks
    decreases n
  {
    if n <= 0 {
      assert Contributions(d.penalties, key) + [] == Contributions(d.penalties, key);
    } else {
      RepeatContributions(d, k, n - 1, key);
      assert Ones(n) == Ones(n - 1) + [1.0];
    }
  }

  /** The totals of the first `n` track distances, in mapping order. */
  function TrackTotals(owns: seq<Penalties>, m: Metrics, n: nat): (r: seq<real>)
    requires n <= |owns|
    ensures |r| == n
  {
    seq(n, k requires 0 <= k < n => m.total(owns[k]))
  }

  lemma {:induction false} TracksPartContributions(d: Distance, mapping: Mapping, owns: seq<Penalties>, m: Metrics, n: nat, key: string)
    requires |owns| == |mapping| && n <= |mapping|
    ensures Contributions(TracksPart(d, mapping, owns, m, n).penalties, key) ==
      Contributions(d.penalties, key) + (if key == "tracks" then TrackTotals(owns, m, n) else [])
  {
    if n == 0 {
      assert Contributions(d.penalties, key) + [] == Contributions(d.penalties, key);
    } else {
      TracksPartContributions(d, mapping, owns, m, n - 1, key);
      assert TrackTotals(owns, m, n) == TrackTotals(owns, m, n - 1) + [m.total(owns[n - 1])];
    }
  }

  /** A track distance is recorded under each paired track: with each
      track paired at most once, under its own pair's. */
  lemma {:induction false} TracksPartRecords(d: Distance, mapping: Mapping, owns: seq<Penalties>, m: Metrics, n: nat)
    requires |owns| == |mapping| && n <= |mapping| && DistinctValues(mapping)
    ensures forall k :: 0 <= k < n ==>
      var r := TracksPart(d, mapping, owns, m, n);
      mapping[k].track in r.tracks && r.tracks[mapping[k].track] == owns[k]
  {
    if n > 0 {
      TracksPartRecords(d, mapping, owns, m, n - 1);
      var earlier := TracksPart(d, mapping, owns, m, n - 1);
      var r := TracksPart(d, mapping, owns, m, n);
      var last := mapping[n - 1].track;
      assert r.tracks == earlier.tracks[last := owns[n - 1]];
      forall k | 0 <= k < n - 1
        ensures mapping[k].track in r.tracks && r.tracks[mapping[k].track] == owns[k]
      {
        assert mapping[k].track != last;
      }
    }
  }

  /** The recorded tracks are those recorded before and the paired ones. */
  lemma {:induction false} TracksPartDomain(d: Distance, mapping: Mapping, owns: seq<Penalties>, m: Metrics, n: nat)
    requires |owns| == |mapping| && n <= |mapping|
    ensures TracksPart(d, mapping, owns, m, n).tracks.Keys == d.tracks.Keys + set k | 0 <= k < n :: mapping[k].track
  {
    if n > 0 {
      TracksPartDomain(d, mapping, owns, m, n - 1);
      var earlier := TracksPart(d, mapping, owns, m, n - 1);
      assert (set k | 0 <= k < n :: mapping[k].track) == (set k | 0 <= k < n - 1 :: mapping[k].track) + {mapping[n - 1].track};
    }
  }

  /** The metadata part touches none of the track-level categories. */
  lemma MetadataSkipsTrackKeys(likely: Likelies, info: AlbumInfo, cfg: Config, m: Metrics, key: string)
    requires Complete(likely)
    requires key in {"tracks", "missing_tracks", "unmatched_tracks"}
    ensures Contributions(MetadataPart(likely, info, cfg, m).penalties, key) == []
  {
    ReleasePartSteps(likely, info, cfg, m, key);
    CatalogPartSteps(ReleasePart(likely, info, cfg, m), likely, info, cfg, m, key);
  }

  /** After the metadata, only the track-level categories grow. */
  lemma TrackPartKeeps(metadata: Distance, mapping: Mapping, owns: seq<Penalties>, m: Metrics, trackCount: nat, itemCount: nat, key: string)
    requires |owns| == |mapping|
    requires key !in {"tracks", "missing_tracks", "unmatched_tracks"}
    ensures Contributions(TrackPart(metadata, mapping, owns, m, trackCount, itemCount).penalties, key) == Contributions(metadata.penalties, key)
  {
    var d0 := TracksPart(metadata.(tracks := map[]), mapping, owns, m, |mapping|);
    TracksPartContributions(metadata.(tracks := map[]), mapping, owns, m, |mapping|, key);
    RepeatContributions(d0, "missing_tracks", trackCount - |mapping|, key);
    RepeatContributions(Repeat(d0, "missing_tracks", trackCount - |mapping|), "unmatched_tracks", itemCount - |mapping|, key);
  }

  /** After the metadata, one "tracks" penalty per pair, in mapping order. */
  lemma TrackPartTotals(metadata: Distance, mapping: Mapping, owns: seq<Penalties>, m: Metrics, trackCount: nat, itemCount: nat)
    requires |owns| == |mapping|
    ensures Contributions(TrackPart(metadata, mapping, owns, m, trackCount, itemCount).penalties, "tracks") ==
      Contributions(metadata.penalties, "tracks") + TrackTotals(owns, m, |mapping|)
  {
    var d0 := TracksPart(metadata.(tracks := map[]), mapping, owns, m, |mapping|);
    TracksPartContributions(metadata.(tracks := map[]), mapping, owns, m, |mapping|, "tracks");
    RepeatContributions(d0, "missing_tracks", trackCount - |mapping|, "tracks");
    RepeatContributions(Repeat(d0, "missing_tracks", trackCount - |mapping|), "unmatched_tracks", itemCount - |mapping|, "tracks");
  }

  /** After the metadata, one unit penalty per catalog track beyond the
      pairs. */
  lemma TrackPartMissing(metadata: Distance, mapping: Mapping, owns: seq<Penalties>, m: Metrics, trackCount: nat, itemCount: nat)
    requires |owns| == |mapping|
    ensures Contributions(TrackPart(metadata, mapping, owns, m, trackCount, itemCount).penalties, "missing_tracks") ==
      Contributions(metadata.penalties, "missing_tracks") + Ones(trackCount - |mapping|)
  {
    var d0 := TracksPart(metadata.(tracks := map[]), mapping, owns, m, |mapping|);
    TracksPartContributions(metadata.(tracks := map[]), mapping, owns, m, |mapping|, "missing_tracks");
    RepeatContributions(d0, "missing_tracks", trackCount - |mapping|, "missing_tracks");
    RepeatContributions(Repeat(d0, "missing_tracks", trackCount - |mapping|), "unmatched_tracks", itemCount - |mapping|, "missing_tracks");
  }

  /** After the metadata, one unit penalty per item beyond the pairs. */
  lemma TrackPartUnmatched(metadata: Distance, mapping: Mapping, owns: seq<Penalties>, m: Metrics, trackCount: nat, itemCount: nat)
    requires |owns| == |mapping|
    ensures Contributions(TrackPart(metadata, mapping, owns, m, trackCount, itemCount).penalties, "unmatched_tracks") ==
      Contributions(metadata.penalties, "unmatched_tracks") + Ones(itemCount - |mapping|)
  {
    var d0 := TracksPart(metadata.(tracks := map[]), mapping, owns, m, |mapping|);
    TracksPartContributions(metadata.(tracks := map[]), mapping, owns, m, |mapping|, "unmatched_tracks");
    RepeatContributions(d0, "missing_tracks", trackCount - |mapping|, "unmatched_tracks");
    RepeatContributions(Repeat(d0, "missing_tracks", trackCount - |mapping|), "unmatched_tracks", itemCount - |mapping|, "unmatched_tracks");
  }

  /** The track distances the part after the metadata records. */
  lemma TrackPartRecords(metadata: Distance, mapping: Mapping, owns: seq<Penalties>, m: Metrics, trackCount: nat, itemCount: nat)
    requires |owns| == |mapping|
    ensures TrackPart(metadata, mapping, owns, m, trackCount, itemCount).tracks.Keys == set k | 0 <= k < |mapping| :: mapping[k].track
    ensures DistinctValues(mapping) ==> forall k :: 0 <= k < |mapping| ==>
      TrackPart(metadata, mapping, owns, m, trackCount, itemCount).tracks[mapping[k].track] == owns[k]
  {
    var d0 := TracksPart(metadata.(tracks := map[]), mapping, owns, m, |mapping|);
    TracksPartDomain(metadata.(tracks := map[]), mapping, owns, m, |mapping|);
    RepeatContributions(d0, "missing_tracks", trackCount - |mapping|, "tracks");
    RepeatContributions(Repeat(d0, "missing_tracks", trackCount - |mapping|), "unmatched_tracks", itemCount - |mapping|, "tracks");
    if DistinctValues(mapping) {
      TracksPartRecords(metadata.(tracks := map[]), mapping, owns, m, |mapping|);
    }
  }

  /** The release artist is compared exactly when the release is not a
      various-artists release. */
  lemma ArtistUnlessVarious(items: seq<Item>, likely: Likelies, info: AlbumInfo, mapping: Mapping, cfg: Config, m: Metrics)
    requires Complete(likely) && PairsInRange(mapping, |items|, |info.tracks|)
    ensures Contributions(AlbumOwn(items, likely, info, mapping, cfg, m).penalties, "artist") ==
      if info.va then [] else [m.stringDist(AsText(likely[Artist]), info.artist)]
  {
    TrackPartKeeps(MetadataPart(likely, info, cfg, m), mapping, PairPenalties(items, info, mapping, cfg, m), m, |info.tracks|, |items|, "artist");
    MetadataArtist(likely, info, cfg, m);
  }

  lemma MetadataArtist(likely: Likelies, info: AlbumInfo, cfg: Config, m: Metrics)
    requires Complete(likely)
    ensures Contributions(MetadataPart(likely, info, cfg, m).penalties, "artist") ==
      if info.va then [] else [m.stringDist(AsText(likely[Artist]), info.artist)]
  {
    ReleasePartSteps(likely, info, cfg, m, "artist");
    CatalogPartSteps(ReleasePart(likely, info, cfg, m), likely, info, cfg, m, "artist");
  }

  /** The year is compared when the catalog knows the release year and
      either the original year is preferred or the items have a likely
      year; it then contributes exactly one penalty. */
  lemma YearRule(items: seq<Item>, likely: Likelies, info: AlbumInfo, mapping: Mapping, cfg: Config, m: Metrics)
    requires Complete(likely) && PairsInRange(mapping, |items|, |info.tracks|)
    ensures Contributions(AlbumOwn(items, likely, info, mapping, cfg, m).penalties, "year") ==
      if PresentNum(info.year) && (cfg.preferOriginalYear || Truthy(likely[Year]))
      then [YearPenalty(AsNumber(likely[Year]), info, cfg, m)] else []
  {
    TrackPartKeeps(MetadataPart(likely, info, cfg, m), mapping, PairPenalties(items, info, mapping, cfg, m), m, |info.tracks|, |items|, "year");
    MetadataYear(likely, info, cfg, m);
  }

  lemma MetadataYear(likely: Likelies, info: AlbumInfo, cfg: Config, m: Metrics)
    requires Complete(likely)
    ensures Contributions(MetadataPart(likely, info, cfg, m).penalties, "year") ==
      if PresentNum(info.year) && (cfg.preferOriginalYear || Truthy(likely[Year]))
      then [YearPenalty(AsNumber(likely[Year]), info, cfg, m)] else []
  {
    ReleasePartSteps(likely, info, cfg, m, "year");
    CatalogPartSteps(ReleasePart(likely, info, cfg, m), likely, info, cfg, m, "year");
  }

  /** Without the original-year preference, a likely year equal to the
      release or the original year costs nothing, and a differing one costs
      a full penalty when no original year is known. With the preference,
      an unknown original year counts as 1889. */
  lemma YearPenaltyCases(likelyYear: int, info: AlbumInfo, cfg: Config, m: Metrics)
    ensures !cfg.preferOriginalYear && (info.year == Some(likelyYear) || info.originalYear == Some(likelyYear)) ==>
      YearPenalty(likelyYear, info, cfg, m) == 0.0
    ensures !cfg.preferOriginalYear && info.year != Some(likelyYear) && info.originalYear != Some(likelyYear)
            && !PresentNum(info.originalYear) ==>
      YearPenalty(likelyYear, info, cfg, m) == 1.0
    ensures cfg.preferOriginalYear && !PresentNum(info.originalYear) && info.year.Some? ==>
      YearPenalty(likelyYear, info, cfg, m) ==
        m.ratio(Abs(info.year.value - 1889) as real, Abs(cfg.today - 1889) as real)
  {
  }

  /** One "tracks" penalty per pair, in mapping order, each the total of
      that pair's track distance. */
  lemma TracksRule(items: seq<Item>, likely: Likelies, info: AlbumInfo, mapping: Mapping, cfg: Config, m: Metrics)
    requires Complete(likely) && PairsInRange(mapping, |items|, |info.tracks|)
    ensures var c := Contributions(AlbumOwn(items, likely, info, mapping, cfg, m).penalties, "tracks");
      && |c| == |mapping|
      && forall k :: 0 <= k < |mapping| ==>
           c[k] == m.total(TD.TrackDistanceOf(items[mapping[k].item], info.tracks[mapping[k].track], info.va, cfg, m).penalties)
  {
    var owns := PairPenalties(items, info, mapping, cfg, m);
    var metadata := MetadataPart(likely, info, cfg, m);
    MetadataSkipsTrackKeys(likely, info, cfg, m, "tracks");
    TrackPartTotals(metadata, mapping, owns, m, |info.tracks|, |items|);
    var c := Contributions(AlbumOwn(items, likely, info, mapping, cfg, m).penalties, "tracks");
    assert c == TrackTotals(owns, m, |mapping|);
    forall k | 0 <= k < |mapping|
      ensures c[k] == m.total(TD.TrackDistanceOf(items[mapping[k].item], info.tracks[mapping[k].track], info.va, cfg, m).penalties)
    {
      assert c[k] == m.total(owns[k]);
    }
  }

  /** The recorded track distances are keyed by exactly the paired tracks;
      with each track paired at most once, each is its pair's distance. */
  lemma TrackRecordsRule(items: seq<Item>, likely: Likelies, info: AlbumInfo, mapping: Mapping, cfg: Config, m: Metrics)
    requires Complete(likely) && PairsInRange(mapping, |items|, |info.tracks|)
    ensures AlbumOwn(items, likely, info, mapping, cfg, m).tracks.Keys == set k | 0 <= k < |mapping| :: mapping[k].track
    ensures DistinctValues(mapping) ==> forall k :: 0 <= k < |mapping| ==>
      AlbumOwn(items, likely, info, mapping, cfg, m).tracks[mapping[k].track] ==
        TD.TrackDistanceOf(items[mapping[k].item], info.tracks[mapping[k].track], info.va, cfg, m).penalties
  {
    TrackPartRecords(MetadataPart(likely, info, cfg, m), mapping, PairPenalties(items, info, mapping, cfg, m), m, |info.tracks|, |items|);
  }

  /** One unit penalty per catalog track beyond the pairs, and one per
      item beyond the pairs; none when there are fewer. */
  lemma MissingAndUnmatchedRule(items: seq<Item>, likely: Likelies, info: AlbumInfo, mapping: Mapping, cfg: Config, m: Metrics)
    requires Complete(likely) && PairsInRange(mapping, |items|, |info.tracks|)
    ensures Contributions(AlbumOwn(items, likely, info, mapping, cfg, m).penalties, "missing_tracks") == Ones(|info.tracks| - |mapping|)
    ensures Contributions(AlbumOwn(items, likely, info, mapping, cfg, m).penalties, "unmatched_tracks") == Ones(|items| - |mapping|)
  {
    MetadataSkipsTrackKeys(likely, info, cfg, m, "missing_tracks");
    MetadataSkipsTrackKeys(likely, info, cfg, m, "unmatched_tracks");
    TrackPartMissing(MetadataPart(likely, info, cfg, m), mapping, PairPenalties(items, info, mapping, cfg, m), m, |info.tracks|, |items|);
    TrackPartUnmatched(MetadataPart(likely, info, cfg, m), mapping, PairPenalties(items, info, mapping, cfg, m), m, |info.tracks|, |items|);
  }
}
