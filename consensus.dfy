/**
 * The consensus extractor (`current_metadata`): for each release-level
 * field, the most common value among the items and whether the items agree
 * on it unanimously. A unanimous, non-empty album artist replaces the
 * derived artist.
 */
module Consensus {
  import opened Records

  /** The release-level fields `current_metadata` inspects. */
  datatype Field =
    | Artist | Album | AlbumArtist | Year | DiscTotal | MbAlbumId | RecordLabel
    | Barcode | CatalogNum | Country | Media | AlbumDisambig

  /** The fields in the order `current_metadata` lists them. */
  const Fields: seq<Field> := [
    Artist, Album, AlbumArtist, Year, DiscTotal, MbAlbumId, RecordLabel,
    Barcode, CatalogNum, Country, Media, AlbumDisambig
  ]

  lemma FieldListed(f: Field)
    ensures f in Fields
  {
  }

  /** A field value: the text and integer fields of a library item. */
  datatype Value = Text(s: string) | Number(n: int)

  function FieldOf(item: Item, f: Field): Value {
    match f
    case Artist => Text(item.artist)
    case Album => Text(item.album)
    case AlbumArtist => Text(item.albumartist)
    case Year => Number(item.year)
    case DiscTotal => Number(item.disctotal)
    case MbAlbumId => Text(item.mbAlbumId)
    case RecordLabel => Text(item.recordLabel)
    case Barcode => Text(item.barcode)
    case CatalogNum => Text(item.catalognum)
    case Country => Text(item.country)
    case Media => Text(item.media)
    case AlbumDisambig => Text(item.albumdisambig)
  }

  /** Python truthiness of a field value. */
  predicate Truthy(v: Value) {
    match v
    case Text(s) => s != ""
    case Number(n) => n != 0
  }

  function AsText(v: Value): Option<string> {
    match v
    case Text(s) => Some(s)
    case Number(_) => None
  }

  function AsNumber(v: Value): int {
    match v
    case Text(_) => 0
    case Number(n) => n
  }

  /** `[item[field] for item in items]`. */
  function Values(items: seq<Item>, f: Field): (vs: seq<Value>)
    ensures |vs| == |items|
  {
    seq(|items|, i requires 0 <= i < |items| => FieldOf(items[i], f))
  }

  /** How often `v` occurs in `vs`. */
  function Count(vs: seq<Value>, v: Value): nat {
    if vs == [] then 0 else (if vs[0] == v then 1 else 0) + Count(vs[1..], v)
  }

  /** The first position, among the first `n`, whose value is the most
      frequent one of the whole sequence (see `PluralityUpToIsFirstMost`). */
  function PluralityUpTo(vs: seq<Value>, n: nat): (r: nat)
    requires 0 < n <= |vs|
    ensures r < n
  {
    if n == 1 then 0
    else
      var best := PluralityUpTo(vs, n - 1);
      if Count(vs, vs[n - 1]) > Count(vs, vs[best]) then n - 1 else best
  }

  lemma {:induction false} PluralityUpToIsFirstMost(vs: seq<Value>, n: nat)
    requires 0 < n <= |vs|
    ensures forall j :: 0 <= j < n ==> Count(vs, vs[j]) <= Count(vs, vs[PluralityUpTo(vs, n)])
    ensures forall j :: 0 <= j < PluralityUpTo(vs, n) ==> Count(vs, vs[j]) < Count(vs, vs[PluralityUpTo(vs, n)])
  {
    if n > 1 {
      PluralityUpToIsFirstMost(vs, n - 1);
    }
  }

  /** `plurality(values)`: the most common value, the first one met among
      equally common values, and its frequency (see `PluralityIsMostCommon`). */
  function Plurality(vs: seq<Value>): (r: (Value, nat))
    requires |vs| > 0
  {
    var p := PluralityUpTo(vs, |vs|);
    (vs[p], Count(vs, vs[p]))
  }

  lemma PluralityIsMostCommon(vs: seq<Value>)
    requires |vs| > 0
    ensures Plurality(vs).0 in vs && Plurality(vs).1 == Count(vs, Plurality(vs).0)
    ensures forall j :: 0 <= j < |vs| ==> Count(vs, vs[j]) <= Plurality(vs).1
  {
    PluralityUpToIsFirstMost(vs, |vs|);
  }

  /** Among equally common values, the plurality is the one met first. */
  lemma PluralityFirstMet(vs: seq<Value>, j: nat)
    requires j < |vs| && Count(vs, vs[j]) == Plurality(vs).1
    ensures exists i :: 0 <= i <= j && vs[i] == Plurality(vs).0
  {
    var p := PluralityUpTo(vs, |vs|);
    PluralityUpToIsFirstMost(vs, |vs|);
    assert p <= j;
    assert vs[p] == Plurality(vs).0;
  }

  /** The plurality frequency is the number of values exactly when all
      values are equal. */
  lemma PluralityUnanimousIff(vs: seq<Value>)
    requires |vs| > 0
    ensures Plurality(vs).1 == |vs| <==> forall i, j :: 0 <= i < |vs| && 0 <= j < |vs| ==> vs[i] == vs[j]
  {
    var p := Plurality(vs);
    PluralityIsMostCommon(vs);
    CountAllIff(vs, p.0);
    if forall i, j :: 0 <= i < |vs| && 0 <= j < |vs| ==> vs[i] == vs[j] {
      var i0 :| 0 <= i0 < |vs| && vs[i0] == p.0;
      assert forall i :: 0 <= i < |vs| ==> vs[i] == p.0 by {
        forall i | 0 <= i < |vs| ensures vs[i] == p.0 {
          assert vs[i] == vs[i0];
        }
      }
    }
  }

  function PluralValue(items: seq<Item>, f: Field): Value
    requires |items| > 0
  {
    Plurality(Values(items, f)).0
  }

  /** `consensus[field]`: the plurality frequency equals the number of values. */
  predicate CurrentConsensus(items: seq<Item>, f: Field)
    requires |items| > 0
  {
    Plurality(Values(items, f)).1 == |items|
  }

  /** `likelies[field]`, after the album-artist override. */
  function CurrentLikely(items: seq<Item>, f: Field): Value
    requires |items| > 0
  {
    if f == Artist && CurrentConsensus(items, AlbumArtist) && Truthy(PluralValue(items, AlbumArtist))
    then PluralValue(items, AlbumArtist)
    else PluralValue(items, f)
  }

  /** `current_metadata(items)`: fills the two dictionaries field by field. */
  method CurrentMetadata(items: seq<Item>) returns (likelies: map<Field, Value>, consensus: map<Field, bool>)
    requires |items| > 0
    ensures forall f: Field :: f in likelies && f in consensus
    ensures forall f: Field :: f in consensus ==> consensus[f] == CurrentConsensus(items, f)
    ensures forall f: Field :: f in likelies ==> likelies[f] == CurrentLikely(items, f)
  {
    likelies, consensus := map[], map[];
    for k := 0 to |Fields|
      invariant forall i :: 0 <= i < k ==> Fields[i] in likelies && Fields[i] in consensus
      invariant forall f :: f in likelies ==> likelies[f] == PluralValue(items, f)
      invariant forall f :: f in consensus ==> consensus[f] == CurrentConsensus(items, f)
    {
      var field := Fields[k];
      var values := Values(items, field);
      var plural := Plurality(values);
      likelies := likelies[field := plural.0];
      consensus := consensus[field := plural.1 == |values|];
    }
    forall f: Field ensures f in likelies && f in consensus {
      FieldListed(f);
    }
    ghost var plural := likelies;
    if consensus[AlbumArtist] && Truthy(likelies[AlbumArtist]) {
      likelies := likelies[Artist := likelies[AlbumArtist]];
    }
    forall f: Field ensures f in likelies && likelies[f] == CurrentLikely(items, f) {
      if f != Artist {
        assert likelies[f] == plural[f];
      }
    }
  }

  lemma {:induction false} CountAllIff(vs: seq<Value>, v: Value)
    ensures Count(vs, v) <= |vs|
    ensures Count(vs, v) == |vs| <==> forall i :: 0 <= i < |vs| ==> vs[i] == v
  {
    if vs != [] {
      var rest := vs[1..];
      CountAllIff(rest, v);
      if forall i :: 0 <= i < |vs| ==> vs[i] == v {
        assert forall i :: 0 <= i < |rest| ==> rest[i] == vs[i + 1];
      }
      if Count(vs, v) == |vs| {
        forall i | 0 <= i < |vs| ensures vs[i] == v {
          if i > 0 {
            assert vs[i] == rest[i - 1];
          }
        }
      }
    }
  }

  /** The unanimity flag is set exactly when every item has the same value. */
  lemma ConsensusIffUnanimous(items: seq<Item>, f: Field)
    requires |items| > 0
    ensures CurrentConsensus(items, f) <==>
      forall i, j :: 0 <= i < |items| && 0 <= j < |items| ==> FieldOf(items[i], f) == FieldOf(items[j], f)
  {
    var vs := Values(items, f);
    PluralityUnanimousIff(vs);
    assert forall i :: 0 <= i < |items| ==> vs[i] == FieldOf(items[i], f);
  }

  /** The likely value is one the items hold; for the artist it may come
      from the album artists instead. */
  lemma LikelyIsPresent(items: seq<Item>, f: Field)
    requires |items| > 0
    ensures exists i :: (0 <= i < |items| &&
      (FieldOf(items[i], f) == CurrentLikely(items, f) ||
       (f == Artist && FieldOf(items[i], AlbumArtist) == CurrentLikely(items, f))))
  {
    var v := CurrentLikely(items, f);
    if v == PluralValue(items, f) {
      var vs := Values(items, f);
      PluralityIsMostCommon(vs);
      var i :| 0 <= i < |vs| && vs[i] == Plurality(vs).0;
      assert FieldOf(items[i], f) == v;
    } else {
      var ws := Values(items, AlbumArtist);
      PluralityIsMostCommon(ws);
      var k :| 0 <= k < |ws| && ws[k] == Plurality(ws).0;
      assert FieldOf(items[k], AlbumArtist) == v;
    }
  }

  /** A unanimous, non-empty album artist becomes the artist. */
  lemma AlbumArtistOverridesArtist(items: seq<Item>, name: string)
    requires |items| > 0 && name != ""
    requires forall i :: 0 <= i < |items| ==> items[i].albumartist == name
    ensures CurrentConsensus(items, AlbumArtist)
    ensures CurrentLikely(items, Artist) == Text(name)
    ensures CurrentLikely(items, AlbumArtist) == Text(name)
  {
    ConsensusIffUnanimous(items, AlbumArtist);
    var ws := Values(items, AlbumArtist);
    PluralityIsMostCommon(ws);
    assert Plurality(ws).0 in ws;
  }

  /** Items that disagree on the artist have no artist consensus, even when
      the album artist overrides the likely artist. */
  lemma DifferingArtistsNoConsensus(items: seq<Item>, i: nat, j: nat)
    requires i < |items| && j < |items| && items[i].artist != items[j].artist
    ensures !CurrentConsensus(items, Artist)
  {
    ConsensusIffUnanimous(items, Artist);
    assert FieldOf(items[i], Artist) != FieldOf(items[j], Artist);
  }
}
