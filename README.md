# beets autotagger matching core, modelled in Dafny

This project models the matching core of the beets music tagger
(`beets/autotag/match.py`). The core compares a group of local library
items with releases and tracks from a metadata catalog. It:

- derives the items' likely current metadata and whether the items agree
  on each field (`current_metadata`);
- pairs items with a release's tracks through a linear-assignment solver and
  sorts the leftovers (`assign_items`);
- scores a pairing of one item and one track (`track_distance`,
  `track_index_changed`) and scores a whole release (`distance`);
- looks a release up by the album id the items already carry
  (`match_by_id`);
- keeps an insertion-ordered table of candidates that passes each release
  through the track-count, duplicate, required-field and ignored-penalty
  filters (`_add_candidate`);
- ranks candidates by distance with a stable sort (`_sort_candidates`);
- turns the ranked list into a recommendation level (`_recommendation`);
- in `tag_album` and `tag_item`, decides whether a release is likely a
  various-artists one, and when a match by stored id is good enough to stop
  searching.

The distance accumulator is modelled as its ordered list of `(category,
penalty)` contributions plus the per-track record a release distance
keeps. Its scoring primitives (string distance, ratio, priority, number,
equality), its aggregate (`distance` as a number), its reported keys, the
plugin hooks, the catalog lookups and the assignment solver are parameters.
The configuration and today's year are a `Config` value.

Modules:

- `Records`: the data model.
- `Sorting`: a stable sort by Python-style tuple keys.
- `Consensus`: `current_metadata`.
- `TrackDistance`: `track_distance` and `track_index_changed`.
- `Assignment`: `assign_items`.
- `AlbumDistance`: `distance`.
- `IdMatch`: `match_by_id`.
- `Recommend`: `_sort_candidates` and `_recommendation`.
- `Candidates`: `_add_candidate` and the candidate dictionary.
- `Tagging`: the id stages and `va_likely` of `tag_album` and `tag_item`.

Code that builds its result step by step is a method with loops. Each such
method is proved equal to a specification function, and the properties are
proved about that function. This covers `current_metadata`, the distance
builders, `match_by_id`, `_recommendation` and `_add_candidate`. The album
id stage is proved equal to the candidates `_add_candidate` leaves for the
release `match_by_id` finds. The track id stage is proved to reach the
outcome `Tagging.SearchOutcome` specifies: the dictionary after each track
found, in order, up to the first track whose ranking stops the search. The candidate dictionary that `_add_candidate` mutates is the
class `Candidates.CandidateTable`; its key order stands for the dictionary's
insertion order.

The recording id is scored whenever the item has one (match.py:217-219),
even when the catalog track has no id: a track without an id then counts
as a mismatch. The index and disc checks need both sides. The model follows
the code here.

## Model

| member | source | states |
|---|---|---|
| Records.Recommendation.Level | beets/autotag/match.py:68-76 | The four levels are ordered none < low < medium < strong, with values 0 to 3 |
| Records.MinRec | beets/autotag/match.py:422 | `min(rec, max_rec)` is at most both levels and is one of them |
| Records.ContributionsAddWhen | beets/autotag/match.py:198-223 | A guarded `dist.add` adds one contribution to its own category when the guard holds, and changes nothing otherwise |
| Records.ContributionsEmptyIff | beets/autotag/match.py:474 | A category has no contribution exactly when it is not among the distance's categories |
| Records.AttrIsNoneOnlyForUnset | beets/autotag/match.py:463 | `getattr(info, name) is None` holds only for a release attribute, and never when every attribute is set |
| Sorting.Insert | beets/autotag/match.py:155-157 | Inserting one position keeps every position in range and adds exactly one |
| Sorting.InsertAddsOne | beets/autotag/match.py:155-157 | Insertion adds exactly the inserted position to the multiset, and puts it or the old head first |
| Sorting.InsertSorted | beets/autotag/match.py:155-157 | Insertion into a list sorted by key (ties by position) keeps it sorted |
| Sorting.SortByKeys | beets/autotag/match.py:155-157 | `list.sort(key=...)` on positions keeps them in range and keeps the length |
| Sorting.SortByKeysSorted | beets/autotag/match.py:155-157 | The sort's result is ordered by key, ties in original position order, and is a permutation of its input |
| Sorting.InsertKeepsDistinct | beets/autotag/match.py:155-157 | Inserting a new position into a repetition-free list leaves no repetition |
| Sorting.SortKeepsDistinct | beets/autotag/match.py:155-157 | Sorting a repetition-free list leaves no repetition |
| Sorting.StrLessTrans | beets/autotag/match.py:155-157 | Lexicographic string order, used for titles in the sort keys, is transitive |
| Sorting.StrTrichotomy | beets/autotag/match.py:155-157 | Any two strings are equal or one is lexicographically smaller |
| Sorting.StrLessIrreflexive | beets/autotag/match.py:155-157 | No string is smaller than itself |
| Sorting.PartLessTrans | beets/autotag/match.py:155-157 | The order on tuple components is transitive |
| Sorting.PartTrichotomy | beets/autotag/match.py:155-157 | Any two tuple components are equal or ordered |
| Sorting.PartLessIrreflexive | beets/autotag/match.py:155-157 | No tuple component is smaller than itself |
| Sorting.KeyLessTrans | beets/autotag/match.py:155-157 | Lexicographic tuple comparison is transitive |
| Sorting.KeyTrichotomy | beets/autotag/match.py:155-157 | Any two sort tuples are equal or one is smaller |
| Sorting.BeforeTotal | beets/autotag/match.py:155-157 | Of two positions, one goes first under "smaller key, or equal key and earlier position" |
| Sorting.BeforeTrans | beets/autotag/match.py:155-157 | The stable-sort order on positions is transitive |
| Sorting.ConsSorted | beets/autotag/match.py:155-157 | A position that goes before every element of a sorted list may be put in front of it |
| Sorting.FrontGoesFirst | beets/autotag/match.py:155-157 | A position that goes before a sorted list's head goes before all its elements |
| Consensus.FieldListed | beets/autotag/match.py:104-117 | Every modelled field is in the list of twelve fields `current_metadata` walks |
| Consensus.Values | beets/autotag/match.py:119 | One value per item for the field |
| Consensus.PluralityUpTo | beets/autotag/match.py:120 | The index of the most common value, searched among the first n, is one of them |
| Consensus.PluralityUpToIsFirstMost | beets/autotag/match.py:120 | That index has the highest count, and no earlier value has as high a count |
| Consensus.PluralityIsMostCommon | beets/autotag/match.py:120 | `plurality` returns a value the items hold, with its true frequency, and no value is more frequent |
| Consensus.PluralityFirstMet | beets/autotag/match.py:120 | Among equally frequent values, the one met first wins |
| Consensus.PluralityUnanimousIff | beets/autotag/match.py:120-121 | The plurality frequency equals the number of values exactly when all values are equal |
| Consensus.CountAllIff | beets/autotag/match.py:121 | A count never exceeds the length, and equals it exactly when every value is that value |
| Consensus.CurrentMetadata | beets/autotag/match.py:92-127 | The loop fills both dictionaries for every field with the specified likely value and consensus flag |
| Consensus.ConsensusIffUnanimous | beets/autotag/match.py:121 | A field has consensus exactly when every pair of items agrees on it |
| Consensus.LikelyIsPresent | beets/autotag/match.py:119-125 | The likely value is held by some item, in that field or, for the artist, in the album artist |
| Consensus.AlbumArtistOverridesArtist | beets/autotag/match.py:123-125 | A unanimous non-empty album artist has consensus and becomes the likely artist |
| Consensus.DifferingArtistsNoConsensus | beets/autotag/match.py:121 | Two items with different artists give no artist consensus |
| TrackDistance.TrackIndexUnchangedIff | beets/autotag/match.py:162-166 | The index is unchanged exactly when the item's track number equals the per-disc or the per-release number |
| TrackDistance.ComputeTrackDistance | beets/autotag/match.py:181-227 | The method builds exactly the specified track distance, step by step, plugins last |
| TrackDistance.TrackOwnSteps | beets/autotag/match.py:197-223 | Each step of `track_distance` adds only to its own category, under its own guard |
| TrackDistance.TitleAndLengthRules | beets/autotag/match.py:197-203 | The title is always compared; the length only when the catalog has a non-zero length |
| TrackDistance.ArtistRule | beets/autotag/match.py:205-211 | `track_artist` is added exactly when incl_artist is set, the catalog names an artist, and the item's lower-cased artist is not a various-artists name |
| TrackDistance.IndexRule | beets/autotag/match.py:213-215 | `track_index` is added exactly when both numbers are present, and is 1 exactly when the index changed |
| TrackDistance.TrackIdRule | beets/autotag/match.py:217-219 | `track_id` is added exactly when the item has a recording id, and is 1 exactly when the catalog id differs or is missing |
| TrackDistance.MediumRule | beets/autotag/match.py:221-223 | `medium` is added exactly when both disc numbers are present, and is 1 exactly when they differ |
| TrackDistance.TrackOwnCategories | beets/autotag/match.py:197-223 | The track's own distance has at most one contribution per category, and only in the six track categories |
| Assignment.MappingOf | beets/autotag/match.py:149-153 | The dictionary built from the solver's vector pairs each assigned track with its item, in track order |
| Assignment.MappingOfCovers | beets/autotag/match.py:149-153 | Every track the vector assigns is in the dictionary |
| Assignment.Without | beets/autotag/match.py:154-156 | `set(all) - used` holds exactly the unused positions, each once |
| Assignment.ItemSortKeys | beets/autotag/match.py:155 | One `(disc, track, title)` key per item |
| Assignment.TrackSortKeys | beets/autotag/match.py:157 | One `(index, title)` key per track |
| Assignment.AssignMappingFollowsVector | beets/autotag/match.py:149-153 | The pairs follow the vector and are one-to-one between items and tracks |
| Assignment.AssignPartitionsTracks | beets/autotag/match.py:149-157 | A track is paired exactly when the solver assigns it, and is a leftover exactly when it is not paired |
| Assignment.AssignPartitionsItems | beets/autotag/match.py:149-155 | An item is a leftover exactly when it is not paired |
| Assignment.AssignPartitions | beets/autotag/match.py:149-157 | Items and tracks are each split into paired and leftover |
| Assignment.AssignExtrasSorted | beets/autotag/match.py:154-157 | Both leftover lists are sorted by their keys, hold no repetition, and are in range |
| Assignment.CostMatrix | beets/autotag/match.py:140-141 | One row per item and one column per track |
| Assignment.CostIgnoresArtist | beets/autotag/match.py:141 | The pairing cost is computed without `incl_artist`, so it never looks at the item's artist, apart from plugins |
| Assignment.AssignItems | beets/autotag/match.py:130-159 | The result is a one-to-one pairing in range; items and tracks are each partitioned into paired and leftover; the leftovers are sorted and repetition-free |
| AlbumDistance.MediaPatterns | beets/autotag/match.py:257-259 | One media pattern per configured preference |
| AlbumDistance.PairPenalties | beets/autotag/match.py:328-329 | One track distance per pair, in dictionary order |
| AlbumDistance.LikeliesOf | beets/autotag/match.py:243 | The likely values cover every field |
| AlbumDistance.MetadataLikelies | beets/autotag/match.py:243 | The dictionary `current_metadata` returns is the one the distance is specified with |
| AlbumDistance.AddReleasePenalties | beets/autotag/match.py:247-292 | The artist, album, media, mediums and year steps build the specified distance |
| AlbumDistance.AddCatalogPenalties | beets/autotag/match.py:294-324 | The country, label, catalog number, disambiguation and album-id steps build the specified distance |
| AlbumDistance.AddTrackDistances | beets/autotag/match.py:327-330 | The loop over the pairs records each track distance and adds its total to `tracks` |
| AlbumDistance.AddUnits | beets/autotag/match.py:333-338 | The loop adds a unit penalty n times, none when n is not positive |
| AlbumDistance.AddMetadataPenalties | beets/autotag/match.py:243-324 | The metadata steps, against the items' likely values, build the specified distance |
| AlbumDistance.AddTrackPenalties | beets/autotag/match.py:326-338 | The track, missing and unmatched steps build the specified distance |
| AlbumDistance.ComputeAlbumDistance | beets/autotag/match.py:230-343 | The method builds exactly the specified release distance, plugins last |
| AlbumDistance.ReleasePartSteps | beets/autotag/match.py:247-292 | Each release step adds only to its own category, under its own guard |
| AlbumDistance.CatalogPartSteps | beets/autotag/match.py:294-324 | Each catalog step adds only to its own category, under its own guard |
| AlbumDistance.Ones | beets/autotag/match.py:333-338 | n unit penalties, none for a negative n |
| AlbumDistance.RepeatContributions | beets/autotag/match.py:333-338 | Repeating a unit penalty adds exactly n ones to its category and leaves the track records alone |
| AlbumDistance.TrackTotals | beets/autotag/match.py:330 | One total per pair |
| AlbumDistance.TracksPartContributions | beets/autotag/match.py:328-330 | The pair loop adds each pair's total to `tracks` in pair order and nothing to other categories |
| AlbumDistance.TracksPartRecords | beets/autotag/match.py:328-329 | With one-to-one pairs, each paired track's record is its own track distance |
| AlbumDistance.TracksPartDomain | beets/autotag/match.py:328-329 | Exactly the paired tracks get a record |
| AlbumDistance.MetadataSkipsTrackKeys | beets/autotag/match.py:247-324 | The metadata steps never add to `tracks`, `missing_tracks` or `unmatched_tracks` |
| AlbumDistance.TrackPartKeeps | beets/autotag/match.py:326-338 | The track steps leave every metadata category as it was |
| AlbumDistance.TrackPartTotals | beets/autotag/match.py:328-330 | After the track steps, `tracks` holds one total per pair |
| AlbumDistance.TrackPartMissing | beets/autotag/match.py:333-334 | After the track steps, `missing_tracks` holds len(tracks) - len(mapping) ones |
| AlbumDistance.TrackPartUnmatched | beets/autotag/match.py:337-338 | After the track steps, `unmatched_tracks` holds len(items) - len(mapping) ones |
| AlbumDistance.TrackPartRecords | beets/autotag/match.py:327-329 | The track records cover exactly the paired tracks, each holding its own distance |
| AlbumDistance.ArtistUnlessVarious | beets/autotag/match.py:247-249 | The release artist is compared exactly when the release is not a various-artists one |
| AlbumDistance.MetadataArtist | beets/autotag/match.py:247-249 | The metadata part compares the artist exactly when the release is not a various-artists one |
| AlbumDistance.YearRule | beets/autotag/match.py:270-292 | The year is scored once when the release has a year and either the original-year preference or a likely year applies, with the year penalty |
| AlbumDistance.MetadataYear | beets/autotag/match.py:270-292 | The metadata part scores the year under the same rule |
| AlbumDistance.YearPenaltyCases | beets/autotag/match.py:270-292 | A matching release or original year is free; no original year is a full penalty; with the preference, an unknown original counts as 1889 |
| AlbumDistance.TracksRule | beets/autotag/match.py:326-330 | `tracks` holds one entry per pair: that pair's track distance total, with the artist compared on various-artists releases |
| AlbumDistance.TrackRecordsRule | beets/autotag/match.py:327-329 | Exactly the paired tracks have a record, each its own track distance |
| AlbumDistance.MissingAndUnmatchedRule | beets/autotag/match.py:332-338 | missing = len(tracks) - len(mapping) and unmatched = len(items) - len(mapping) unit penalties |
| IdMatch.AlbumIds | beets/autotag/match.py:351 | The non-empty album ids, in item order, at most one per item |
| IdMatch.AlbumIdsAre | beets/autotag/match.py:351 | Every item's non-empty album id is listed, and every listed id is some item's |
| IdMatch.NoIdsNoMatch | beets/autotag/match.py:353-358 | No item with an album id gives no release |
| IdMatch.DifferingIdsNoMatch | beets/autotag/match.py:360-364 | Two items with different album ids give no release |
| IdMatch.CommonIdIsLookedUp | beets/autotag/match.py:365-367 | When every present album id is the same, that id is looked up |
| IdMatch.MatchById | beets/autotag/match.py:346-367 | The loop with early exits returns the specified release |
| IdMatch.AlbumIdsPrefix | beets/autotag/match.py:351 | The ids of the first n items are a prefix of all ids |
| Recommend.ScoreKeys | beets/autotag/match.py:432 | One distance key per candidate |
| Recommend.CandidateOrder | beets/autotag/match.py:432 | One sorted position per candidate, each in range |
| Recommend.SortCandidates | beets/autotag/match.py:430-432 | The sorted list has as many candidates as the input |
| Recommend.ScoreKeyOrder | beets/autotag/match.py:432 | Distance keys compare as their distances |
| Recommend.SortIsPermutation | beets/autotag/match.py:430-432 | The sorted candidates are a rearrangement: every candidate appears exactly once |
| Recommend.SortIsStableByScore | beets/autotag/match.py:430-432 | Distances are non-decreasing, and equal distances keep their original order |
| Recommend.ThresholdLevelRule | beets/autotag/match.py:380-403 | Strong exactly below the strong threshold; medium exactly from there up to the medium threshold; none exactly for no candidates or a best above both thresholds with a runner-up closer than the gap |
| Recommend.RecommendationIsGreatestAllowed | beets/autotag/match.py:370-424 | The recommendation is the minimum of the threshold level and every triggered ceiling |
| Recommend.RecommendationBounds | beets/autotag/match.py:380-424 | Never above the threshold level or a triggered ceiling; none for no candidates or for no conclusion |
| Recommend.StrongNeedsCloseMatch | beets/autotag/match.py:384-422 | A strong recommendation needs a best distance below the strong threshold and no ceiling below strong among its categories |
| Recommend.Recommend | beets/autotag/match.py:370-424 | The thresholds-then-downgrade loop returns the specified recommendation |
| Recommend.LevelsAntisymmetric | beets/autotag/match.py:68-76 | Two levels with the same levels below them are equal |
| Candidates.CandidateOf | beets/autotag/match.py:467-484 | The candidate holds the release, a one-to-one pairing, and leftovers that are exactly the unpaired items and tracks |
| Candidates.RejectedLeavesTable | beets/autotag/match.py:449-479 | No tracks, a duplicate id, a missing required field or an ignored penalty leaves the results unchanged |
| Candidates.AcceptedAddsOneKey | beets/autotag/match.py:481-484 | An accepted release adds exactly its album id with its candidate and leaves other entries unchanged |
| Candidates.HeldIdsStay | beets/autotag/match.py:454-457 | An entry held under a non-empty album id is never replaced |
| Candidates.MakeCandidate | beets/autotag/match.py:467-471 | Pairing then distance gives the specified candidate |
| Candidates.CandidateTable.constructor | beets/autotag/match.py:517 | A new table is empty |
| Candidates.CandidateTable.Values | beets/autotag/match.py:532 | `list(results.values())`: one candidate per key, in insertion order |
| Candidates.CandidateTable.KeysCounted | beets/autotag/match.py:532 | The table has as many entries as keys in its order |
| Candidates.CandidateTable.Add | beets/autotag/match.py:435-484 | The results become the specified ones, and a newly accepted id joins the end of the insertion order |
| Candidates.CandidateTable.Screen | beets/autotag/match.py:449-479 | The filters admit exactly the accepted releases, with their candidate |
| Candidates.CandidateTable.EarlyFilters | beets/autotag/match.py:449-465 | Passes exactly when there are tracks, the id is not held, and no required field is None |
| Candidates.CandidateTable.Put | beets/autotag/match.py:482-484 | `results[key] = candidate`: a new key goes last, an existing key keeps its place |
| Candidates.FindMissingRequired | beets/autotag/match.py:460-465 | Finds a required field that is None exactly when one exists |
| Candidates.FindIgnoredPenalty | beets/autotag/match.py:474-479 | Finds an ignored category among the penalties exactly when one exists |
| Candidates.UnpenalisedIsAccepted | beets/autotag/match.py:449-479 | When the distance module reports only penalised categories, a release that passes the early filters and has no contribution in any ignored category is accepted |
| Candidates.DistinctCount | beets/autotag/match.py:532 | A repetition-free list has as many elements as its set |
| Tagging.SearchTermsBothOrNeither | beets/autotag/match.py:547-549 | Both explicit terms are used when both are given and non-empty; otherwise the current artist and album are, so terms are never mixed |
| Tagging.VaLikelyIff | beets/autotag/match.py:558-563 | Likely various-artists exactly when two items name different artists, the search artist lower-cased is a various-artists name, or some item is a compilation |
| Tagging.VariousAlbumArtistIsVaLikely | beets/autotag/match.py:546-563 | Without explicit terms, a unanimous "Various Artists" album artist makes the search various-artists |
| Tagging.StoppingNeedsStrongMatch | beets/autotag/match.py:534-544 | The early return of `tag_album` (given a candidate) agrees with that of `tag_item` (lines 610-615), and both need a best distance below the strong threshold with no lower ceiling |
| Tagging.TimidNeverStops | beets/autotag/match.py:534 | A timid importer never returns early |
| Tagging.IdCandidates | beets/autotag/match.py:435-484 | `_add_candidate` on a fresh dictionary leaves at most one candidate, and only an album match for the release the id match found |
| Tagging.AlbumIdStage | beets/autotag/match.py:528-544 | The candidates are exactly those `_add_candidate` leaves for the release `match_by_id` returns (that release's candidate if accepted, else none); none without an id match; the recommendation is that of those candidates; stops exactly when there is a candidate, the importer is not timid and the recommendation is strong |
| Tagging.TryCandidate | beets/autotag/match.py:529-531 | A fresh dictionary, one `_add_candidate` call and its values give exactly the specified candidates |
| Tagging.TrackIds | beets/autotag/match.py:599 | The explicit ids when given, else the item's track id when it has one, else none |
| Tagging.TrackIdStage | beets/autotag/match.py:596-615 | The outcome is the specified one over every track found for every id in order: the proposal is the sorted values of the dictionary holding each track under its track id with its track distance (artist included), up to the first track after which the recommendation is strong and the importer not timid, or all of them; the recommendation is that of the proposal, none when no track was found; stops exactly on that condition, with a best match within the strong threshold; no ids give nothing |
| Tagging.SearchTracks | beets/autotag/match.py:603-615 | Over the tracks found for one id, the dictionary and the proposal advance one track at a time as specified, stopping after the first track whose ranking is strong and not timid, or taking all of them; nothing changes without tracks |
| Tagging.Enter | beets/autotag/match.py:604-609 | `candidates[track.track_id] = TrackMatch(track_distance(item, track, True), track)`: the dictionary becomes the specified one with this track, the proposal its sorted values, and the stop flag of this track decides whether the search stops here |
| Tagging.Rank | beets/autotag/match.py:609 | The proposal is `_sort_candidates` of the dictionary's values, all track matches in non-decreasing distance, with its recommendation; strong needs a best match within the strong threshold |
| Tagging.RankedAfterIsRanked | beets/autotag/match.py:609-615 | Any proposal of the track search is ranked, and a strong one has a best match within the strong threshold |
| Tagging.EnteredKeysAreIds | beets/autotag/match.py:603-607 | The dictionary's keys are exactly the ids of the tracks found |
| Tagging.EnteredKeepsLast | beets/autotag/match.py:605-607 | Each id holds the last track found under it, with that track's distance |
| Tagging.StopFlagsStep | beets/autotag/match.py:609-615 | Each further track adds its own stop decision after those of the tracks before it |
| Tagging.StopFlagsPrefix | beets/autotag/match.py:609-615 | The stop decisions for the first tracks do not depend on the tracks after them |
| Tagging.FirstStopUnique | beets/autotag/match.py:610-615 | The search ends at one point only |
| Tagging.StoppedAtUnique | beets/autotag/match.py:610-615 | The track search ends at one point only, so the outcome of the id stage is determined |
| Tagging.StoppedSearchExtends | beets/autotag/match.py:610-615 | A search that stopped early stops at the same point whatever further tracks there are: they are never looked at |
| Tagging.SortedProposal | beets/autotag/match.py:609 | Sorting track candidates yields track matches in non-decreasing distance |

## Left out

- The linear-assignment solver (`lap.lapjv` over a numpy matrix) is a parameter. The model relies only on it returning, per track, an unused item or -1. The optimality of the pairing is not modelled.
- The distance module's internals are not part of this model: weights, normalisation, the numeric total, which keys it reports, and `add_string`/`add_ratio`/`add_priority`/`add_number`/`add_equality`. They are parameters of `Metrics`. The model states which category gets a contribution, when, and from which arguments.
- `plurality` (beets.util) is not part of this model. It is modelled as returning the most frequent value and, among ties, the first met.
- Regular expressions: the preferred-media and preferred-country patterns are passed as strings to the priority metric. Case-insensitive matching is not modelled.
- Plugin distances (`plugins.track_distance`, `plugins.album_distance`) are opaque parameters. Their penalties are appended last.
- Catalog lookups (`album_for_mbid`, `albums_for_id`, `tracks_for_id`, `album_candidates`, `item_candidates`) and the network are functions passed in.
- Logging is left out.
- Configuration reads, the `@cache` on the length limits, and `datetime.date.today()` are fields of `Config`.
- Floating-point arithmetic is modelled with `real`.
- TrackDistance.Lower: lower-cases ASCII letters only, not all of Unicode.
- Assignment.TrackSortKeys: a catalog track whose index or title is None sorts before every number or text. In Python 3 comparing None with an int raises, so the source would fail there.
- Records.AttrIsNone: a required name that is not a release attribute is treated as not None. `getattr` would raise there, and that error is not modelled.
- Consensus.CurrentMetadata: there is no model of the `if item` filter on falsy items. Every item is treated as truthy, so `values` has one entry per item.
- Assignment.AssignItems: orders the leftovers that come out of `set(...)` by position before sorting. Python's set order is arbitrary, so ties between equal keys may come out differently in the source.
- Recommend.Recommend: computes the set of categories with a comprehension, not by walking the track distances one by one.
- `musicbrainz.extra_tags` (lines 552-556) is left out: it only forwards likely values to the catalog search.
- The rest of `tag_album` and `tag_item` is left out: the explicit-id loop, the text search, and the final sort and recommendation over all candidates. They only call lookups and the operations modelled here.
- The `Proposal` and `AnyMatch` wrappers are left out; the id stages return the candidate list and the recommendation directly.
