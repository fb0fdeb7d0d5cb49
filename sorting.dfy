/**
 * Sorting by a Python-style tuple key. The matcher sorts leftover items by
 * (disc, track, title), leftover tracks by (index, title) and candidates by
 * their distance; all three are sorts of positions by a key, with ties kept
 * in position order.
 */
module Sorting {

  /** One component of a sort key. `Absent` stands for None. */
  datatype KeyPart = Absent | Num(n: int) | Score(r: real) | Text(s: string)

  type SortKey = seq<KeyPart>

  /** Python's `<` on strings: lexicographic by code point. */
  predicate StrLess(a: string, b: string) {
    if a == [] then b != []
    else if b == [] then false
    else if a[0] != b[0] then a[0] < b[0]
    else StrLess(a[1..], b[1..])
  }

  function PartRank(p: KeyPart): nat {
    match p
    case Absent => 0
    case Num(_) => 1
    case Score(_) => 2
    case Text(_) => 3
  }

  predicate PartLess(a: KeyPart, b: KeyPart) {
    if PartRank(a) != PartRank(b) then PartRank(a) < PartRank(b)
    else match (a, b)
      case (Num(x), Num(y)) => x < y
      case (Score(x), Score(y)) => x < y
      case (Text(x), Text(y)) => StrLess(x, y)
      case _ => false
  }

  /** Python's `<` on tuples: lexicographic. */
  predicate KeyLess(a: SortKey, b: SortKey) {
    if a == [] then b != []
    else if b == [] then false
    else if a[0] != b[0] then PartLess(a[0], b[0])
    else KeyLess(a[1..], b[1..])
  }

  /** Position `i` goes before position `j`: a smaller key, or an equal key
      and an earlier position. */
  predicate Before(keys: seq<SortKey>, i: nat, j: nat)
    requires i < |keys| && j < |keys|
  {
    KeyLess(keys[i], keys[j]) || (keys[i] == keys[j] && i <= j)
  }

  predicate InRange(s: seq<nat>, n: nat) {
    forall k :: 0 <= k < |s| ==> s[k] < n
  }

  predicate SortedBy(s: seq<nat>, keys: seq<SortKey>)
    requires InRange(s, |keys|)
  {
    forall k, l :: 0 <= k < l < |s| ==> Before(keys, s[k], s[l])
  }

  lemma {:induction false} StrLessTrans(a: string, b: string, c: string)
    requires StrLess(a, b) && StrLess(b, c)
    ensures StrLess(a, c)
  {
    if a != [] && b != [] && c != [] && a[0] == b[0] && b[0] == c[0] {
      StrLessTrans(a[1..], b[1..], c[1..]);
    }
  }

  lemma {:induction false} StrTrichotomy(a: string, b: string)
    ensures a == b || StrLess(a, b) || StrLess(b, a)
  {
    if a != [] && b != [] && a[0] == b[0] {
      StrTrichotomy(a[1..], b[1..]);
      if a[1..] == b[1..] {
        assert a == [a[0]] + a[1..] && b == [b[0]] + b[1..];
      }
    }
  }

  lemma PartLessTrans(a: KeyPart, b: KeyPart, c: KeyPart)
    requires PartLess(a, b) && PartLess(b, c)
    ensures PartLess(a, c)
  {
    if a.Text? && b.Text? && c.Text? {
      StrLessTrans(a.s, b.s, c.s);
    }
  }

  lemma PartTrichotomy(a: KeyPart, b: KeyPart)
    ensures a == b || PartLess(a, b) || PartLess(b, a)
  {
    if a.Text? && b.Text? {
      StrTrichotomy(a.s, b.s);
    }
  }

  lemma {:induction false} KeyLessTrans(a: SortKey, b: SortKey, c: SortKey)
    requires KeyLess(a, b) && KeyLess(b, c)
    ensures KeyLess(a, c)
  {
    if a != [] {
      if a[0] != b[0] && b[0] != c[0] {
        PartLessTrans(a[0], b[0], c[0]);
        if a[0] == c[0] {
          PartLessTrans(b[0], c[0], b[0]);
          PartLessIrreflexive(b[0]);
        }
      } else if a[0] == b[0] && b[0] == c[0] {
        KeyLessTrans(a[1..], b[1..], c[1..]);
      }
    }
  }

  lemma PartLessIrreflexive(a: KeyPart)
    ensures !PartLess(a, a)
  {
    if a.Text? {
      StrLessIrreflexive(a.s);
    }
  }

  lemma {:induction false} StrLessIrreflexive(a: string)
    ensures !StrLess(a, a)
  {
    if a != [] {
      StrLessIrreflexive(a[1..]);
    }
  }

  lemma {:induction false} KeyTrichotomy(a: SortKey, b: SortKey)
    ensures a == b || KeyLess(a, b) || KeyLess(b, a)
  {
    if a != [] && b != [] {
      if a[0] == b[0] {
        KeyTrichotomy(a[1..], b[1..]);
        if a[1..] == b[1..] {
          assert a == [a[0]] + a[1..] && b == [b[0]] + b[1..];
        }
      } else {
        PartTrichotomy(a[0], b[0]);
      }
    }
  }

  lemma BeforeTotal(keys: seq<SortKey>, i: nat, j: nat)
    requires i < |keys| && j < |keys|
    ensures Before(keys, i, j) || Before(keys, j, i)
  {
    KeyTrichotomy(keys[i], keys[j]);
  }

  lemma BeforeTrans(keys: seq<SortKey>, i: nat, j: nat, l: nat)
    requires i < |keys| && j < |keys| && l < |keys|
    requires Before(keys, i, j) && Before(keys, j, l)
    ensures Before(keys, i, l)
  {
    if KeyLess(keys[i], keys[j]) && KeyLess(keys[j], keys[l]) {
      KeyLessTrans(keys[i], keys[j], keys[l]);
    }
  }

  /** Putting a position that goes before every element in front keeps a
      sequence sorted. */
  lemma ConsSorted(y: nat, s: seq<nat>, keys: seq<SortKey>)
    requires y < |keys| && InRange(s, |keys|) && SortedBy(s, keys)
    requires forall l :: 0 <= l < |s| ==> Before(keys, y, s[l])
    ensures InRange([y] + s, |keys|) && SortedBy([y] + s, keys)
  {
    var r := [y] + s;
    forall k, l | 0 <= k < l < |r| ensures Before(keys, r[k], r[l]) {
      if k > 0 {
        assert r[k] == s[k - 1] && r[l] == s[l - 1];
      } else {
        assert r[l] == s[l - 1];
      }
    }
  }

  lemma FrontGoesFirst(x: nat, s: seq<nat>, keys: seq<SortKey>)
    requires x < |keys| && InRange(s, |keys|) && SortedBy(s, keys)
    requires s != [] && Before(keys, x, s[0])
    ensures forall l :: 0 <= l < |s| ==> Before(keys, x, s[l])
  {
    forall l | 0 <= l < |s| ensures Before(keys, x, s[l]) {
      if l > 0 { BeforeTrans(keys, x, s[0], s[l]); }
    }
  }

  /** Inserts position `x` before the first position it goes before. */
  function Insert(x: nat, s: seq<nat>, keys: seq<SortKey>): (r: seq<nat>)
    requires x < |keys| && InRange(s, |keys|)
    ensures InRange(r, |keys|) && |r| == |s| + 1
  {
    if s == [] then [x]
    else if Before(keys, x, s[0]) then [x] + s
    else [s[0]] + Insert(x, s[1..], keys)
  }

  /** Insertion adds exactly the one position, at the front or after the
      first element. */
  lemma {:induction false} InsertAddsOne(x: nat, s: seq<nat>, keys: seq<SortKey>)
    requires x < |keys| && InRange(s, |keys|)
    ensures multiset(Insert(x, s, keys)) == multiset(s) + multiset{x}
    ensures Insert(x, s, keys)[0] == x || (|s| > 0 && Insert(x, s, keys)[0] == s[0])
  {
    if s != [] && !Before(keys, x, s[0]) {
      InsertAddsOne(x, s[1..], keys);
      assert s == [s[0]] + s[1..];
    }
  }

  /** Inserting into a sorted sequence keeps it sorted. */
  lemma {:induction false} InsertSorted(x: nat, s: seq<nat>, keys: seq<SortKey>)
    requires x < |keys| && InRange(s, |keys|) && SortedBy(s, keys)
    ensures SortedBy(Insert(x, s, keys), keys)
  {
    if s == [] {
    } else if Before(keys, x, s[0]) {
      FrontGoesFirst(x, s, keys);
      ConsSorted(x, s, keys);
    } else {
      BeforeTotal(keys, x, s[0]);
      var rest := Insert(x, s[1..], keys);
      InsertSorted(x, s[1..], keys);
      InsertAddsOne(x, s[1..], keys);
      forall l | 0 <= l < |rest| ensures Before(keys, s[0], rest[l]) {
        assert rest[l] in multiset(rest);
        assert rest[l] == x || rest[l] in s[1..];
      }
      ConsSorted(s[0], rest, keys);
    }
  }

  /** Insertion sort of positions by key; equal keys keep position order. */
  function SortByKeys(s: seq<nat>, keys: seq<SortKey>): (r: seq<nat>)
    requires InRange(s, |keys|)
    ensures InRange(r, |keys|) && |r| == |s|
  {
    if s == [] then []
    else Insert(s[0], SortByKeys(s[1..], keys), keys)
  }

  /** The sort orders the positions by key and neither loses nor adds
      one. */
  lemma {:induction false} SortByKeysSorted(s: seq<nat>, keys: seq<SortKey>)
    requires InRange(s, |keys|)
    ensures SortedBy(SortByKeys(s, keys), keys)
    ensures multiset(SortByKeys(s, keys)) == multiset(s)
  {
    if s != [] {
      SortByKeysSorted(s[1..], keys);
      InsertSorted(s[0], SortByKeys(s[1..], keys), keys);
      InsertAddsOne(s[0], SortByKeys(s[1..], keys), keys);
      assert s == [s[0]] + s[1..];
    }
  }

  predicate NoDuplicates(s: seq<nat>) {
    forall k, l :: 0 <= k < l < |s| ==> s[k] != s[l]
  }

  lemma {:induction false} InsertKeepsDistinct(x: nat, s: seq<nat>, keys: seq<SortKey>)
    requires x < |keys| && InRange(s, |keys|)
    requires NoDuplicates(s) && x !in s
    ensures NoDuplicates(Insert(x, s, keys))
  {
    if s != [] && !Before(keys, x, s[0]) {
      var rest := Insert(x, s[1..], keys);
      InsertAddsOne(x, s[1..], keys);
      InsertKeepsDistinct(x, s[1..], keys);
      forall l | 0 <= l < |rest| ensures rest[l] != s[0] {
        assert rest[l] in multiset(rest);
        assert rest[l] == x || rest[l] in s[1..];
        if rest[l] in s[1..] {
          var a :| 0 <= a < |s[1..]| && s[1..][a] == rest[l];
          assert s[a + 1] == rest[l];
        }
      }
    }
  }

  /** Sorting neither loses nor repeats a position. */
  lemma {:induction false} SortKeepsDistinct(s: seq<nat>, keys: seq<SortKey>)
    requires InRange(s, |keys|) && NoDuplicates(s)
    ensures NoDuplicates(SortByKeys(s, keys))
  {
    if s != [] {
      SortKeepsDistinct(s[1..], keys);
      SortByKeysSorted(s[1..], keys);
      var sorted := SortByKeys(s[1..], keys);
      assert s[0] !in s[1..];
      assert s[0] !in multiset(s[1..]);
      InsertKeepsDistinct(s[0], sorted, keys);
    }
  }

  /** The positions 0 .. n-1 in order. */
  function Range(n: nat): seq<nat> {
    seq(n, k => k)
  }
}
