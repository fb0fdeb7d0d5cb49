/**
 * The records the matcher works on: local items, catalog tracks and
 * releases, the distance accumulator, the item/track pairing, candidate
 * matches, the recommendation level, and the collaborators (configuration,
 * string metrics, plugins, the assignment solver) that the matcher consumes.
 */
module Records {

  datatype Option<+T> = None | Some(value: T)

  /** The Python truthiness of an optional string: neither None nor "". */
  predicate PresentText(o: Option<string>) {
    o.Some? && o.value != ""
  }

  /** The Python truthiness of an optional integer: neither None nor 0. */
  predicate PresentNum(o: Option<int>) {
    o.Some? && o.value != 0
  }

  /** The Python truthiness of an optional real: neither None nor 0.0. */
  predicate PresentReal(o: Option<real>) {
    o.Some? && o.value != 0.0
  }

  function Abs(x: int): nat {
    if x < 0 then -x else x
  }

  function AbsReal(x: real): real {
    if x < 0.0 then -x else x
  }

  /** A track as stored in the local library. Library fields are never
      None: absent text is "" and absent numbers are 0. */
  datatype Item = Item(
    title: string,
    artist: string,
    album: string,
    albumartist: string,
    track: int,
    disc: int,
    disctotal: int,
    length: real,
    year: int,
    mbTrackId: string,
    mbAlbumId: string,
    recordLabel: string,
    barcode: string,
    catalognum: string,
    country: string,
    media: string,
    albumdisambig: string,
    comp: bool)

  /** A track as known to the catalog; any field may be None. */
  datatype TrackInfo = TrackInfo(
    title: Option<string>,
    artist: Option<string>,
    trackId: Option<string>,
    index: Option<int>,
    mediumIndex: Option<int>,
    medium: Option<int>,
    length: Option<real>)

  /** A release as known to the catalog. */
  datatype AlbumInfo = AlbumInfo(
    album: Option<string>,
    albumId: Option<string>,
    artist: Option<string>,
    va: bool,
    tracks: seq<TrackInfo>,
    year: Option<int>,
    originalYear: Option<int>,
    country: Option<string>,
    recordLabel: Option<string>,
    catalognum: Option<string>,
    albumdisambig: Option<string>,
    media: Option<string>,
    mediums: Option<int>)

  /** Whether `getattr(info, name) is None`. */
  predicate AttrIsNone(info: AlbumInfo, name: string) {
    match name
    case "album" => info.album.None?
    case "album_id" => info.albumId.None?
    case "artist" => info.artist.None?
    case "year" => info.year.None?
    case "original_year" => info.originalYear.None?
    case "country" => info.country.None?
    case "label" => info.recordLabel.None?
    case "catalognum" => info.catalognum.None?
    case "albumdisambig" => info.albumdisambig.None?
    case "media" => info.media.None?
    case "mediums" => info.mediums.None?
    case _ => false
  }

  /** Only the release attributes can be None, and a release with every
      attribute set has none that is None, so it passes any list of
      required fields. */
  lemma AttrIsNoneOnlyForUnset(info: AlbumInfo, name: string)
    ensures AttrIsNone(info, name) ==>
      name in {"album", "album_id", "artist", "year", "original_year", "country", "label",
               "catalognum", "albumdisambig", "media", "mediums"}
    ensures && info.album.Some? && info.albumId.Some? && info.artist.Some? && info.year.Some?
            && info.originalYear.Some? && info.country.Some? && info.recordLabel.Some?
            && info.catalognum.Some? && info.albumdisambig.Some? && info.media.Some? && info.mediums.Some?
            ==> !AttrIsNone(info, name)
  {
  }

  /** One contribution to a distance: a category key and a penalty. */
  datatype Penalty = Penalty(key: string, value: real)

  /** The penalties of a distance, in the order they were added. */
  datatype Penalties = NoPenalty | Then(earlier: Penalties, last: Penalty)

  /** The distance accumulator. `tracks` is only filled for release-level
      distances and maps a track's position in the release to the penalties
      of that track's own distance. */
  datatype Distance = Distance(penalties: Penalties, tracks: map<nat, Penalties>) {
    /** `Distance.add(key, value)`. */
    function Add(key: string, value: real): Distance {
      Distance(Then(penalties, Penalty(key, value)), tracks)
    }

    /** `Distance.add_expr(key, expr)`: a full penalty when `expr` holds. */
    function AddExpr(key: string, expr: bool): Distance {
      Add(key, if expr then 1.0 else 0.0)
    }

    /** `Distance.update(other)`: the other distance's penalties join this
        one's, in order. */
    function Update(other: seq<Penalty>): Distance
      decreases |other|
    {
      if other == [] then this else Add(other[0].key, other[0].value).Update(other[1..])
    }
  }

  /** `if cond: dist.add(key, value)`. */
  function AddWhen(d: Distance, cond: bool, key: string, value: real): Distance {
    if cond then d.Add(key, value) else d
  }

  const EmptyDistance := Distance(NoPenalty, map[])

  /** Every value contributed under `key`, in order. */
  function Contributions(ps: Penalties, key: string): seq<real> {
    match ps
    case NoPenalty => []
    case Then(earlier, p) => Contributions(earlier, key) + (if p.key == key then [p.value] else [])
  }

  lemma ContributionsAddWhen(d: Distance, cond: bool, k: string, v: real, key: string)
    ensures Contributions(AddWhen(d, cond, k, v).penalties, key) ==
      Contributions(d.penalties, key) + (if cond && k == key then [v] else [])
  {
    if !cond {
      assert Contributions(d.penalties, key) + [] == Contributions(d.penalties, key);
    }
  }

  /** Every category that received at least one contribution. */
  function Categories(ps: Penalties): set<string> {
    match ps
    case NoPenalty => {}
    case Then(earlier, p) => Categories(earlier) + {p.key}
  }

  /** A category receives a contribution exactly when it is among the categories. */
  lemma {:induction false} ContributionsEmptyIff(ps: Penalties, key: string)
    ensures Contributions(ps, key) == [] <==> key !in Categories(ps)
  {
    match ps
    case NoPenalty =>
    case Then(earlier, p) =>
      ContributionsEmptyIff(earlier, key);
  }

  /** A pairing of item positions with track positions, in the order the
      pairs were inserted into the source's dictionary. */
  datatype Pair = Pair(item: nat, track: nat)
  type Mapping = seq<Pair>

  predicate IsKey(m: Mapping, i: nat) {
    exists k :: 0 <= k < |m| && m[k].item == i
  }

  predicate IsValue(m: Mapping, j: nat) {
    exists k :: 0 <= k < |m| && m[k].track == j
  }

  /** A dictionary holds each key once. */
  predicate DistinctKeys(m: Mapping) {
    forall k, l :: 0 <= k < l < |m| ==> m[k].item != m[l].item
  }

  predicate DistinctValues(m: Mapping) {
    forall k, l :: 0 <= k < l < |m| ==> m[k].track != m[l].track
  }

  /** A candidate: either a release with its pairing and leftovers, or a
      single track. */
  datatype Match =
    | AlbumMatch(distance: Distance, info: AlbumInfo, mapping: Mapping,
                 extraItems: seq<nat>, extraTracks: seq<nat>)
    | TrackMatch(distance: Distance, track: TrackInfo)

  /** The four recommendation levels, ordered none < low < medium < strong. */
  datatype Recommendation = RecNone | RecLow | RecMedium | RecStrong {
    function Level(): (n: nat)
      ensures n <= 3
    {
      match this
      case RecNone => 0
      case RecLow => 1
      case RecMedium => 2
      case RecStrong => 3
    }
  }

  predicate AtMost(a: Recommendation, b: Recommendation) {
    a.Level() <= b.Level()
  }

  /** `min` on the ordered enumeration. */
  function MinRec(a: Recommendation, b: Recommendation): (r: Recommendation)
    ensures AtMost(r, a) && AtMost(r, b)
    ensures r == a || r == b
  {
    if b.Level() < a.Level() then b else a
  }

  /** The configuration values the matcher reads, and today's year. */
  datatype Config = Config(
    strongThresh: real,
    mediumThresh: real,
    gapThresh: real,
    maxRec: map<string, Recommendation>,
    required: seq<string>,
    ignored: seq<string>,
    preferredMedia: seq<string>,
    preferredCountries: seq<string>,
    preferOriginalYear: bool,
    timid: bool,
    lengthGrace: real,
    lengthMax: real,
    today: int)

  /** The collaborators that live outside the matcher: the scoring
      primitives of the distance module, its aggregate and reported keys,
      the plugin hooks and the linear-assignment solver. */
  datatype Metrics = Metrics(
    stringDist: (Option<string>, Option<string>) -> real,
    ratio: (real, real) -> real,
    priority: (string, seq<string>) -> real,
    number: (int, int) -> real,
    equality: (string, Option<string>) -> real,
    total: Penalties -> real,
    keys: Penalties -> set<string>,
    pluginTrack: (Item, TrackInfo) -> seq<Penalty>,
    pluginAlbum: (seq<Item>, AlbumInfo, Mapping) -> seq<Penalty>,
    solver: (seq<seq<real>>, nat, nat) -> seq<int>)

  /** The distance module reports only categories that received a
      contribution: `Distance.keys()` and iterating a distance draw their
      keys from its penalties. */
  ghost predicate KeysSound(m: Metrics) {
    forall ps :: m.keys(ps) <= Categories(ps)
  }

  /** What the solver promises: one entry per column (track), each either
      -1 or a row (item) index, and no row used twice. */
  predicate ValidAssignment(a: seq<int>, rows: nat, cols: nat) {
    && |a| == cols
    && (forall j :: 0 <= j < |a| ==> -1 <= a[j] < rows)
    && (forall j, k :: 0 <= j < k < |a| && a[j] != -1 ==> a[j] != a[k])
  }

  /** The solver returns a valid assignment for every cost matrix. */
  ghost predicate SolverSound(m: Metrics) {
    forall c, r, k :: ValidAssignment(m.solver(c, r, k), r, k)
  }
}
