/**
 * Matching by an album id the items already carry (`match_by_id`): the
 * catalog is asked for a release only when every item that has an album id
 * has the same one.
 */
module IdMatch {
  import opened Records

  /** The non-empty album ids of the items, in item order. */
  function AlbumIds(items: seq<Item>): (ids: seq<string>)
    ensures |ids| <= |items|
    ensures forall k :: 0 <= k < |ids| ==> ids[k] != ""
  {
    if items == [] then []
    else
      var last := items[|items| - 1].mbAlbumId;
      AlbumIds(items[..|items| - 1]) + (if last != "" then [last] else [])
  }

  /** The release `match_by_id` returns: nothing without an id, nothing
      when two ids differ, otherwise the lookup of the first id. */
  function IdMatchOf(items: seq<Item>, lookup: string -> Option<AlbumInfo>): Option<AlbumInfo> {
    var ids := AlbumIds(items);
    if ids == [] then None
    else if exists k :: 0 <= k < |ids| && ids[k] != ids[0] then None
    else lookup(ids[0])
  }

  /** Every non-empty album id of an item is among the ids, and every id
      is some item's album id. */
  lemma {:induction false} AlbumIdsAre(items: seq<Item>)
    ensures forall i :: 0 <= i < |items| && items[i].mbAlbumId != "" ==> items[i].mbAlbumId in AlbumIds(items)
    ensures forall x :: x in AlbumIds(items) ==> exists i :: 0 <= i < |items| && items[i].mbAlbumId == x
  {
    if items != [] {
      var front := items[..|items| - 1];
      AlbumIdsAre(front);
      forall x | x in AlbumIds(items) ensures exists i :: 0 <= i < |items| && items[i].mbAlbumId == x {
        if x in AlbumIds(front) {
          var i :| 0 <= i < |front| && front[i].mbAlbumId == x;
          assert items[i].mbAlbumId == x;
        } else {
          assert items[|items| - 1].mbAlbumId == x;
        }
      }
      forall i | 0 <= i < |items| && items[i].mbAlbumId != "" ensures items[i].mbAlbumId in AlbumIds(items) {
        if i < |front| {
          assert front[i] == items[i];
        }
      }
    }
  }

  /** No item with an album id: no release. */
  lemma {:induction false} NoIdsNoMatch(items: seq<Item>, lookup: string -> Option<AlbumInfo>)
    requires forall i :: 0 <= i < |items| ==> items[i].mbAlbumId == ""
    ensures AlbumIds(items) == [] && IdMatchOf(items, lookup) == None
  {
    if items != [] {
      NoIdsNoMatch(items[..|items| - 1], lookup);
    }
  }

  /** Two items with different, non-empty album ids: no release. */
  lemma DifferingIdsNoMatch(items: seq<Item>, lookup: string -> Option<AlbumInfo>, i: nat, j: nat)
    requires i < |items| && j < |items|
    requires items[i].mbAlbumId != "" && items[j].mbAlbumId != ""
    requires items[i].mbAlbumId != items[j].mbAlbumId
    ensures IdMatchOf(items, lookup) == None
  {
    AlbumIdsAre(items);
    var ids := AlbumIds(items);
    var a :| 0 <= a < |ids| && ids[a] == items[i].mbAlbumId;
    var b :| 0 <= b < |ids| && ids[b] == items[j].mbAlbumId;
    if ids[a] != ids[0] {
      assert exists k :: 0 <= k < |ids| && ids[k] != ids[0];
    } else {
      assert ids[b] != ids[0];
    }
  }

  /** When every album id present is `id`, and one is present, the release
      is the lookup of `id`. */
  lemma CommonIdIsLookedUp(items: seq<Item>, lookup: string -> Option<AlbumInfo>, id: string, i: nat)
    requires i < |items| && items[i].mbAlbumId == id && id != ""
    requires forall j :: 0 <= j < |items| && items[j].mbAlbumId != "" ==> items[j].mbAlbumId == id
    ensures IdMatchOf(items, lookup) == lookup(id)
  {
    AlbumIdsAre(items);
    var ids := AlbumIds(items);
    assert forall k :: 0 <= k < |ids| ==> ids[k] == id by {
      forall k | 0 <= k < |ids| ensures ids[k] == id {
        assert ids[k] in ids;
      }
    }
  }

  /** `match_by_id(items)`: walks the items once, remembering the first id
      and giving up at the first id that differs from it. */
  method MatchById(items: seq<Item>, lookup: string -> Option<AlbumInfo>) returns (r: Option<AlbumInfo>)
    ensures r == IdMatchOf(items, lookup)
  {
    var first: Option<string> := None;
    var i := 0;
    while i < |items|
      invariant 0 <= i <= |items|
      invariant first.None? <==> AlbumIds(items[..i]) == []
      invariant first.Some? ==> forall k :: 0 <= k < |AlbumIds(items[..i])| ==> AlbumIds(items[..i])[k] == first.value
      invariant first.Some? ==> AlbumIds(items[..i])[0] == first.value
    {
      assert items[..i + 1][..i] == items[..i];
      var id := items[i].mbAlbumId;
      if id != "" {
        if first.None? {
          first := Some(id);
        } else if id != first.value {
          ghost var ids := AlbumIds(items);
          AlbumIdsPrefix(items, i + 1);
          assert ids[|AlbumIds(items[..i + 1])| - 1] == id;
          return None;
        }
      }
      i := i + 1;
    }
    assert items[..i] == items;
    if first.None? {
      return None;
    }
    return lookup(first.value);
  }

  /** The ids of a prefix of the items are a prefix of their ids. */
  lemma {:induction false} AlbumIdsPrefix(items: seq<Item>, n: nat)
    requires n <= |items|
    ensures |AlbumIds(items[..n])| <= |AlbumIds(items)|
    ensures AlbumIds(items[..n]) == AlbumIds(items)[..|AlbumIds(items[..n])|]
    decreases |items|
  {
    if n < |items| {
      var front := items[..|items| - 1];
      assert front[..n] == items[..n];
      AlbumIdsPrefix(front, n);
    } else {
      assert items[..n] == items;
    }
  }
}
