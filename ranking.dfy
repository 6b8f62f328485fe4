/**
 * The collection primitives the analyzer ranks and selects with: lodash's
 * `_.filter`, `_.minBy` and multi-key `_.sortBy`, and `Array.prototype.slice`.
 */
module Ranking {
  import opened Wrappers
  import opened Catalog

  /** `_.filter`: the elements satisfying `p`, in their original order. */
  function FilterBy<T(!new)>(s: seq<T>, p: T -> bool): (r: seq<T>)
    ensures |r| <= |s|
    ensures forall x :: x in r <==> x in s && p(x)
  {
    if |s| == 0 then []
    else
      assert s == [s[0]] + s[1..];
      (if p(s[0]) then [s[0]] else []) + FilterBy(s[1..], p)
  }

  lemma FilterByCons<T(!new)>(x: T, s: seq<T>, p: T -> bool)
    ensures FilterBy([x] + s, p) == (if p(x) then [x] else []) + FilterBy(s, p)
  {
    assert ([x] + s)[1..] == s;
  }

  /** Each kept element occurs as often as in the input; the others not at all. */
  lemma {:induction false} FilterByCounts<T(!new)>(s: seq<T>, p: T -> bool)
    ensures forall x :: multiset(FilterBy(s, p))[x] == if p(x) then multiset(s)[x] else 0
  {
    if |s| > 0 {
      FilterByCounts(s[1..], p);
      assert s == [s[0]] + s[1..];
      assert multiset(s) == multiset{s[0]} + multiset(s[1..]);
    }
  }

  /** Filtering a concatenation filters each part and keeps the parts in order. */
  lemma {:induction false} FilterByAppend<T(!new)>(a: seq<T>, b: seq<T>, p: T -> bool)
    ensures FilterBy(a + b, p) == FilterBy(a, p) + FilterBy(b, p)
  {
    if |a| > 0 {
      assert a + b == [a[0]] + (a[1..] + b);
      FilterByCons(a[0], a[1..] + b, p);
      FilterByAppend(a[1..], b, p);
      FilterByCons(a[0], a[1..], p);
      assert a == [a[0]] + a[1..];
    } else {
      assert a + b == b;
    }
  }

  /** Filtering with a predicate that every element meets changes nothing. */
  lemma {:induction false} FilterByAll<T(!new)>(s: seq<T>, p: T -> bool)
    requires forall i :: 0 <= i < |s| ==> p(s[i])
    ensures FilterBy(s, p) == s
  {
    if |s| > 0 {
      FilterByAll(s[1..], p);
    }
  }

  /** The two property paths the analyzer ranks by. */
  datatype Field = TotalCost | Datetime

  function KeyOf(f: Field, x: Roundtrip): int {
    match f
    case TotalCost => x.totalCost
    case Datetime => x.originatingTicket.datetime
  }

  /**
   * The index `_.minBy` settles on: it scans from the left and only moves on
   * a strictly smaller key, so it is the first index holding the least key.
   */
  function MinIndex(s: seq<Roundtrip>, f: Field): (i: nat)
    requires |s| > 0
    ensures i < |s|
    ensures forall j :: 0 <= j < |s| ==> KeyOf(f, s[i]) <= KeyOf(f, s[j])
    ensures forall j :: 0 <= j < i ==> KeyOf(f, s[i]) < KeyOf(f, s[j])
  {
    if |s| == 1 then 0
    else
      var i := MinIndex(s[..|s| - 1], f);
      if KeyOf(f, s[|s| - 1]) < KeyOf(f, s[i]) then |s| - 1 else i
  }

  /** `x` is the first element of `s` that carries the least key. */
  predicate IsFirstMin(s: seq<Roundtrip>, f: Field, x: Roundtrip) {
    exists i :: 0 <= i < |s| && s[i] == x
      && (forall j :: 0 <= j < |s| ==> KeyOf(f, x) <= KeyOf(f, s[j]))
      && (forall j :: 0 <= j < i ==> KeyOf(f, x) < KeyOf(f, s[j]))
  }

  /** `_.minBy(s, f)`: undefined on an empty list, else the first least entry. */
  function MinBy(s: seq<Roundtrip>, f: Field): (r: Option<Roundtrip>)
    ensures r.None? <==> |s| == 0
    ensures r.Some? ==> r.value in s && IsFirstMin(s, f, r.value)
  {
    if |s| == 0 then None else Some(s[MinIndex(s, f)])
  }

  /** At most one element of a list is its first least element. */
  lemma FirstMinUnique(s: seq<Roundtrip>, f: Field, x: Roundtrip, y: Roundtrip)
    requires IsFirstMin(s, f, x) && IsFirstMin(s, f, y)
    ensures x == y
  {
    var i :| 0 <= i < |s| && s[i] == x
      && (forall j :: 0 <= j < |s| ==> KeyOf(f, x) <= KeyOf(f, s[j]))
      && (forall j :: 0 <= j < i ==> KeyOf(f, x) < KeyOf(f, s[j]));
    var k :| 0 <= k < |s| && s[k] == y
      && (forall j :: 0 <= j < |s| ==> KeyOf(f, y) <= KeyOf(f, s[j]))
      && (forall j :: 0 <= j < k ==> KeyOf(f, y) < KeyOf(f, s[j]));
    assert KeyOf(f, x) <= KeyOf(f, s[k]) && KeyOf(f, y) <= KeyOf(f, s[i]);
  }

  /** `a` ranks strictly ahead of `b` by (totalCost, originatingTicket.datetime). */
  predicate Ahead(a: Roundtrip, b: Roundtrip) {
    a.totalCost < b.totalCost
    || (a.totalCost == b.totalCost && a.originatingTicket.datetime < b.originatingTicket.datetime)
  }

  /** No element ranks strictly ahead of an earlier one. */
  predicate Sorted(s: seq<Roundtrip>) {
    forall i, j :: 0 <= i < j < |s| ==> !Ahead(s[j], s[i])
  }

  /** Places `x` before the first element of `t` that does not rank ahead of it. */
  function Insert(x: Roundtrip, t: seq<Roundtrip>): (r: seq<Roundtrip>)
    ensures multiset(r) == multiset(t) + multiset{x}
  {
    if |t| == 0 || !Ahead(t[0], x) then [x] + t
    else
      assert t == [t[0]] + t[1..];
      [t[0]] + Insert(x, t[1..])
  }

  lemma {:induction false} InsertSorted(x: Roundtrip, t: seq<Roundtrip>)
    requires Sorted(t)
    ensures Sorted(Insert(x, t))
  {
    if |t| == 0 || !Ahead(t[0], x) {
      forall j | 0 <= j < |t| ensures !Ahead(t[j], x) {
        if j > 0 { assert !Ahead(t[j], t[0]); }
      }
    } else {
      var rest := Insert(x, t[1..]);
      InsertSorted(x, t[1..]);
      forall j | 0 <= j < |rest| ensures !Ahead(rest[j], t[0]) {
        assert rest[j] in multiset(rest);
        if rest[j] != x {
          assert rest[j] in multiset(t[1..]);
          var k :| 0 <= k < |t[1..]| && t[1..][k] == rest[j];
          assert !Ahead(t[k + 1], t[0]);
        }
      }
      assert Insert(x, t) == [t[0]] + rest;
    }
  }

  /**
   * `_.sortBy(s, ['totalCost', 'originatingTicket.datetime'])`: ascending by
   * cost, then by departure; lodash's sort is stable (see `SortIsStable`).
   */
  function SortByCostThenTime(s: seq<Roundtrip>): (r: seq<Roundtrip>)
    ensures Sorted(r)
    ensures multiset(r) == multiset(s)
  {
    if |s| == 0 then []
    else
      assert s == [s[0]] + s[1..];
      InsertSorted(s[0], SortByCostThenTime(s[1..]));
      Insert(s[0], SortByCostThenTime(s[1..]))
  }

  /** The entries that tie at cost `c` and departure `d`. */
  function Tied(c: int, d: int): Roundtrip -> bool {
    (x: Roundtrip) => x.totalCost == c && x.originatingTicket.datetime == d
  }

  /** `x` alone if it ties at cost `c` and departure `d`, else nothing. */
  function TieOf(x: Roundtrip, c: int, d: int): seq<Roundtrip> {
    if Tied(c, d)(x) then [x] else []
  }

  lemma {:induction false} InsertKeepsTies(x: Roundtrip, t: seq<Roundtrip>, c: int, d: int)
    ensures FilterBy(Insert(x, t), Tied(c, d))
         == TieOf(x, c, d) + FilterBy(t, Tied(c, d))
  {
    if |t| == 0 || !Ahead(t[0], x) {
      FilterByCons(x, t, Tied(c, d));
    } else {
      InsertKeepsTies(x, t[1..], c, d);
      PassedEntryKeepsTies(x, t, c, d);
    }
  }

  /** The step of `InsertKeepsTies` where `x` passes the head of `t`. */
  lemma PassedEntryKeepsTies(x: Roundtrip, t: seq<Roundtrip>, c: int, d: int)
    requires |t| > 0 && Ahead(t[0], x)
    requires FilterBy(Insert(x, t[1..]), Tied(c, d))
          == TieOf(x, c, d) + FilterBy(t[1..], Tied(c, d))
    ensures FilterBy(Insert(x, t), Tied(c, d))
         == TieOf(x, c, d) + FilterBy(t, Tied(c, d))
  {
    var p := Tied(c, d);
    var t0, t1 := t[0], t[1..];
    var rest := Insert(x, t1);
    var fx := TieOf(x, c, d);
    var f0 := TieOf(t0, c, d);
    assert FilterBy(Insert(x, t), p) == f0 + FilterBy(rest, p) by {
      assert Insert(x, t) == [t0] + rest;
      FilterByCons(t0, rest, p);
    }
    assert FilterBy(t, p) == f0 + FilterBy(t1, p) by {
      assert t == [t0] + t1;
      FilterByCons(t0, t1, p);
    }
    TiedApart(x, t0, c, d);
    SwapEmpty(f0, fx, FilterBy(t1, p));
  }

  /** Two parts of which one is empty can be swapped in front of a third. */
  lemma SwapEmpty<T>(a: seq<T>, b: seq<T>, u: seq<T>)
    requires a == [] || b == []
    ensures a + (b + u) == b + (a + u)
  {
  }

  /** An entry ranked strictly ahead of `x` never ties with it. */
  lemma TiedApart(x: Roundtrip, y: Roundtrip, c: int, d: int)
    requires Ahead(y, x)
    ensures TieOf(x, c, d) == [] || TieOf(y, c, d) == []
  {
  }

  /** Stability: entries that tie on both keys keep their relative order. */
  lemma {:induction false} SortIsStable(s: seq<Roundtrip>, c: int, d: int)
    ensures FilterBy(SortByCostThenTime(s), Tied(c, d)) == FilterBy(s, Tied(c, d))
  {
    if |s| > 0 {
      SortIsStable(s[1..], c, d);
      InsertKeepsTies(s[0], SortByCostThenTime(s[1..]), c, d);
      FilterByCons(s[0], s[1..], Tied(c, d));
      assert s == [s[0]] + s[1..];
    }
  }

  /**
   * How `Array.prototype.slice` reads an index: a negative one counts from
   * the end, and the result is clamped to `[0, len]`.
   */
  function RelativeIndex(k: int, len: nat): (i: nat)
    ensures i <= len
    ensures 0 <= k <= len ==> i == k
  {
    if k < 0 then (if len + k < 0 then 0 else len + k)
    else if k < len then k else len
  }

  /** `s.slice(start, end)`. */
  function Slice<T(!new)>(s: seq<T>, start: int, end: int): (r: seq<T>)
    ensures forall x :: x in r ==> x in s
    ensures start <= end ==> |r| <= end - start
    ensures 0 <= start <= end ==>
      |r| == (if |s| <= start then 0 else if end < |s| then end - start else |s| - start)
      && forall i :: 0 <= i < |r| ==> r[i] == s[start + i]
  {
    var a, b := RelativeIndex(start, |s|), RelativeIndex(end, |s|);
    if a < b then s[a..b] else []
  }
}
