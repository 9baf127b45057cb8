/**
 The three ordering helpers of the simulator (executeFCFS, executeSSTF,
 executeSCAN). Each takes the pending requests and the head's cylinder (SCAN
 also the direction) and returns them in the order the policy serves them.
 The serving step of the engine never calls them.
 */
module Scheduling {
  import opened DiskTypes

  /** `s` is non-decreasing under `key`. */
  ghost predicate SortedBy(s: seq<Request>, key: Request -> int) {
    forall i, j :: 0 <= i < j < |s| ==> key(s[i]) <= key(s[j])
  }

  /** Putting `a` in front of a sorted sequence whose keys are all at least
      `key(a)` keeps it sorted. */
  lemma ConsSorted(a: Request, s: seq<Request>, key: Request -> int)
    requires SortedBy(s, key)
    requires forall k :: 0 <= k < |s| ==> key(a) <= key(s[k])
    ensures SortedBy([a] + s, key)
  {
    var r := [a] + s;
    forall i, j | 0 <= i < j < |r| ensures key(r[i]) <= key(r[j]) {
      assert r[j] == s[j - 1];
      if i > 0 { assert r[i] == s[i - 1]; }
    }
  }

  /** A bound on the keys of `s` and of `x` bounds the keys of any
      rearrangement of `s` with `x` added. */
  lemma BoundsRearrangement(a: Request, r: seq<Request>, s: seq<Request>, x: Request, key: Request -> int)
    requires multiset(r) == multiset(s) + multiset{x}
    requires key(a) <= key(x)
    requires forall k :: 0 <= k < |s| ==> key(a) <= key(s[k])
    ensures forall k :: 0 <= k < |r| ==> key(a) <= key(r[k])
  {
    forall k | 0 <= k < |r| ensures key(a) <= key(r[k]) {
      assert r[k] in multiset(r);
      if r[k] != x {
        assert r[k] in multiset(s);
        var m :| 0 <= m < |s| && s[m] == r[k];
      }
    }
  }

  /** Inserts `x` into the sorted `s` in front of the first element whose key
      is not smaller, so that equal keys keep their relative order. */
  function Insert(x: Request, s: seq<Request>, key: Request -> int): (r: seq<Request>)
    requires SortedBy(s, key)
    ensures multiset(r) == multiset(s) + multiset{x}
    ensures SortedBy(r, key)
  {
    if s == [] || key(x) <= key(s[0]) then
      ConsSorted(x, s, key);
      [x] + s
    else
      assert s == [s[0]] + s[1..];
      var rest := Insert(x, s[1..], key);
      BoundsRearrangement(s[0], rest, s[1..], x, key);
      ConsSorted(s[0], rest, key);
      [s[0]] + rest
  }

  /** A stable sort by `key`, the ordering a comparator `key(a) - key(b)`
      gives to the engine's array sort. */
  function SortBy(s: seq<Request>, key: Request -> int): (r: seq<Request>)
    ensures multiset(r) == multiset(s)
    ensures SortedBy(r, key)
  {
    if s == [] then []
    else
      assert s == [s[0]] + s[1..];
      Insert(s[0], SortBy(s[1..], key), key)
  }

  /** `r` is `s` with some elements left out, the rest in their order. */
  predicate Subsequence(r: seq<Request>, s: seq<Request>)
    decreases s
  {
    if r == [] then true
    else if s == [] then false
    else if r[0] == s[0] then Subsequence(r[1..], s[1..])
    else Subsequence(r, s[1..])
  }

  /** The requests of `s` that `keep` accepts, in their original order. */
  function Filter(s: seq<Request>, keep: Request -> bool): (r: seq<Request>)
    ensures forall x :: x in r ==> keep(x)
    ensures forall x :: x in s && keep(x) ==> x in r
    ensures multiset(r) <= multiset(s)
    ensures Subsequence(r, s)
  {
    if s == [] then []
    else
      assert s == [s[0]] + s[1..];
      if keep(s[0]) then [s[0]] + Filter(s[1..], keep)
      else Filter(s[1..], keep)
  }

  /** Splitting by a predicate and by its negation loses and duplicates nothing. */
  lemma {:induction false} FilterSplits(s: seq<Request>, keep: Request -> bool, drop: Request -> bool)
    requires forall x :: drop(x) == !keep(x)
    ensures multiset(Filter(s, keep)) + multiset(Filter(s, drop)) == multiset(s)
  {
    if s != [] {
      FilterSplits(s[1..], keep, drop);
      assert s == [s[0]] + s[1..];
    }
  }

  /** executeFCFS: the requests in arrival order, untouched. */
  function Fcfs(requests: seq<Request>, currentCylinder: int): (r: seq<Request>)
    ensures r == requests
  {
    requests
  }

  /** The distance a seek from `head` to request `x` travels. */
  function Distance(x: Request, head: int): nat {
    Abs(x.cylinder - head)
  }

  /** executeSSTF: a permutation of the requests ordered by increasing seek
      distance from the head, so that its first element is a nearest one. */
  function Sstf(requests: seq<Request>, currentCylinder: int): (r: seq<Request>)
    ensures multiset(r) == multiset(requests)
    ensures forall i, j :: 0 <= i < j < |r| ==>
              Distance(r[i], currentCylinder) <= Distance(r[j], currentCylinder)
    ensures |r| > 0 ==> forall x :: x in requests ==>
              Distance(r[0], currentCylinder) <= Distance(x, currentCylinder)
  {
    var r := SortBy(requests, (x: Request) => Distance(x, currentCylinder));
    assert forall x :: x in requests ==> x in multiset(r);
    r
  }

  /** The SCAN order: with `upFirst` every request above the head precedes
      every request at or below it, otherwise the reverse; the requests above
      the head appear by ascending cylinder, those at or below by descending
      cylinder. */
  ghost predicate ScanOrdered(r: seq<Request>, head: int, upFirst: bool) {
    forall i, j :: 0 <= i < j < |r| ==>
      (if upFirst then !(r[i].cylinder <= head < r[j].cylinder)
       else !(r[j].cylinder <= head < r[i].cylinder)) &&
      (head < r[i].cylinder && head < r[j].cylinder ==> r[i].cylinder <= r[j].cylinder) &&
      (r[i].cylinder <= head && r[j].cylinder <= head ==> r[j].cylinder <= r[i].cylinder)
  }

  /** Sort keys for ascending and for descending cylinder. */
  function Up(x: Request): int { x.cylinder }
  function Down(x: Request): int { -x.cylinder }

  lemma SweepsConcatenate(first: seq<Request>, second: seq<Request>, head: int, upFirst: bool)
    requires forall k :: 0 <= k < |first| ==> (head < first[k].cylinder) == upFirst
    requires forall k :: 0 <= k < |second| ==> (head < second[k].cylinder) == !upFirst
    requires upFirst ==> SortedBy(first, Up) && SortedBy(second, Down)
    requires !upFirst ==> SortedBy(first, Down) && SortedBy(second, Up)
    ensures ScanOrdered(first + second, head, upFirst)
  {
    var r := first + second;
    forall i, j | 0 <= i < j < |r|
      ensures (if upFirst then !(r[i].cylinder <= head < r[j].cylinder)
               else !(r[j].cylinder <= head < r[i].cylinder)) &&
              (head < r[i].cylinder && head < r[j].cylinder ==> r[i].cylinder <= r[j].cylinder) &&
              (r[i].cylinder <= head && r[j].cylinder <= head ==> r[j].cylinder <= r[i].cylinder)
    {
      if j < |first| {
        assert r[i] == first[i] && r[j] == first[j];
      } else if i >= |first| {
        assert r[i] == second[i - |first|] && r[j] == second[j - |first|];
      } else {
        assert r[i] == first[i] && r[j] == second[j - |first|];
      }
    }
  }

  /** Every element of a sorted part came from its filtered source. */
  lemma SortedPartSide(part: seq<Request>, source: seq<Request>, head: int, above: bool)
    requires multiset(part) == multiset(source)
    requires forall x :: x in source ==> (head < x.cylinder) == above
    ensures forall k :: 0 <= k < |part| ==> (head < part[k].cylinder) == above
  {
    forall k | 0 <= k < |part| ensures (head < part[k].cylinder) == above {
      assert part[k] in multiset(part);
    }
  }

  /** executeSCAN: the requests at or below the head by descending cylinder and
      those above it by ascending cylinder; the upward part goes first exactly
      when `direction` is 1. */
  function Scan(requests: seq<Request>, currentCylinder: int, direction: int): (r: seq<Request>)
    ensures multiset(r) == multiset(requests)
    ensures ScanOrdered(r, currentCylinder, direction == 1)
  {
    var atOrBelow := Filter(requests, (x: Request) => x.cylinder <= currentCylinder);
    var above := Filter(requests, (x: Request) => x.cylinder > currentCylinder);
    var left := SortBy(atOrBelow, Down);
    var right := SortBy(above, Up);
    FilterSplits(requests, (x: Request) => x.cylinder > currentCylinder, (x: Request) => x.cylinder <= currentCylinder);
    SortedPartSide(left, atOrBelow, currentCylinder, false);
    SortedPartSide(right, above, currentCylinder, true);
    if direction == 1 then
      SweepsConcatenate(right, left, currentCylinder, true);
      right + left
    else
      SweepsConcatenate(left, right, currentCylinder, false);
      left + right
  }
}
