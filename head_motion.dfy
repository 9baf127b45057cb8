/**
 The rule each serving step applies to the head, as pure functions: where the
 head goes, how far it travels, and when its direction counts as changed.
 Replay runs the rule over a sequence of served requests from a starting
 head; it is the reference the engine's state is proved against. The lemmas
 relate what a run records to quantities defined without the step rule: the
 length of the path the head travels and the reversals of its travel.
 */
module HeadMotion {
  import opened DiskTypes

  /** The head: its cylinder, and its direction (1: towards higher
      cylinders, -1: towards lower ones). */
  datatype Head = Head(cylinder: int, direction: int)

  predicate Oriented(h: Head) {
    h.direction == 1 || h.direction == -1
  }

  /** A move to `target` goes against the head's direction. */
  predicate Reverses(h: Head, target: int) {
    (target > h.cylinder && h.direction == -1) || (target < h.cylinder && h.direction == 1)
  }

  /** The head after a move to `target`: its direction flips exactly when the
      move reverses it, so afterwards it points the way the head went, and a
      move to the same cylinder leaves it alone. */
  function Move(h: Head, target: int): (h': Head)
    ensures h'.cylinder == target
    ensures Reverses(h, target) <==> h'.direction != h.direction
    ensures Oriented(h) ==> Oriented(h')
    ensures Oriented(h) && target > h.cylinder ==> h'.direction == 1
    ensures Oriented(h) && target < h.cylinder ==> h'.direction == -1
    ensures target == h.cylinder ==> h' == h
  {
    Head(target, if Reverses(h, target) then h.direction * -1 else h.direction)
  }

  /** The result recorded for serving `r` with the head at `h`. */
  function Outcome(h: Head, r: Request): StepResult {
    StepResult(r.id, Abs(r.cylinder - h.cylinder), Reverses(h, r.cylinder))
  }

  /** The results of serving `s` in order, starting with the head at `h`. */
  function Replay(h: Head, s: seq<Request>): (rs: seq<StepResult>)
    ensures |rs| == |s|
    ensures forall i :: 0 <= i < |s| ==> rs[i].requestId == s[i].id
    decreases s
  {
    if s == [] then [] else [Outcome(h, s[0])] + Replay(Move(h, s[0].cylinder), s[1..])
  }

  /** The head after serving `s` in order, starting at `h`. */
  function After(h: Head, s: seq<Request>): Head
    decreases s
  {
    if s == [] then h else After(Move(h, s[0].cylinder), s[1..])
  }

  function SumTracks(rs: seq<StepResult>): nat {
    if rs == [] then 0 else rs[0].tracks + SumTracks(rs[1..])
  }

  /** The number of results flagged as a direction change. */
  function CountChanges(rs: seq<StepResult>): nat {
    if rs == [] then 0 else (if rs[0].directionChanged then 1 else 0) + CountChanges(rs[1..])
  }

  lemma {:induction false} SumTracksAppend(a: seq<StepResult>, b: seq<StepResult>)
    ensures SumTracks(a + b) == SumTracks(a) + SumTracks(b)
  {
    if a == [] {
      assert a + b == b;
    } else {
      assert (a + b)[0] == a[0] && (a + b)[1..] == a[1..] + b;
      SumTracksAppend(a[1..], b);
    }
  }

  lemma {:induction false} CountChangesAppend(a: seq<StepResult>, b: seq<StepResult>)
    ensures CountChanges(a + b) == CountChanges(a) + CountChanges(b)
  {
    if a == [] {
      assert a + b == b;
    } else {
      assert (a + b)[0] == a[0] && (a + b)[1..] == a[1..] + b;
      CountChangesAppend(a[1..], b);
    }
  }

  /** Serving one more request extends the replay by that request's outcome
      from where the head stood, which is how the engine's step grows it. */
  lemma {:induction false} ReplaySnoc(h: Head, s: seq<Request>, r: Request)
    ensures Replay(h, s + [r]) == Replay(h, s) + [Outcome(After(h, s), r)]
    ensures After(h, s + [r]) == Move(After(h, s), r.cylinder)
    decreases s
  {
    if s == [] {
      assert [r][1..] == [];
    } else {
      assert (s + [r])[1..] == s[1..] + [r];
      ReplaySnoc(Move(h, s[0].cylinder), s[1..], r);
    }
  }

  /** The record of a run agrees with its reference: the results are the
      replay of the served requests from the starting head, the head is where
      the replay leaves it, and the counters total the results. */
  ghost predicate Consistent(origin: Head, served: seq<Request>, results: seq<StepResult>,
                             head: Head, tracks: int, changes: int)
  {
    && results == Replay(origin, served)
    && head == After(origin, served)
    && tracks == SumTracks(results)
    && changes == CountChanges(results)
  }

  /** Serving one more request by the step rule keeps the record consistent. */
  lemma ServeExtends(origin: Head, served: seq<Request>, results: seq<StepResult>,
                     head: Head, tracks: int, changes: int, r: Request)
    requires Consistent(origin, served, results, head, tracks, changes)
    ensures Consistent(origin, served + [r], results + [Outcome(head, r)], Move(head, r.cylinder),
                       tracks + Outcome(head, r).tracks,
                       changes + (if Outcome(head, r).directionChanged then 1 else 0))
  {
    ReplaySnoc(origin, served, r);
    SumTracksAppend(results, [Outcome(head, r)]);
    CountChangesAppend(results, [Outcome(head, r)]);
    assert [Outcome(head, r)][1..] == [];
  }

  /** The cylinders of `s`, in order. */
  function CylindersOf(s: seq<Request>): (cs: seq<int>)
    ensures |cs| == |s|
  {
    if s == [] then [] else [s[0].cylinder] + CylindersOf(s[1..])
  }

  /** The last element of `xs`, or `d` when there is none. */
  function LastOr(d: int, xs: seq<int>): int
    decreases xs
  {
    if xs == [] then d else LastOr(xs[0], xs[1..])
  }

  /** The length of the path from cylinder `from` through the cylinders `cs`. */
  function PathLength(from: int, cs: seq<int>): nat
    decreases cs
  {
    if cs == [] then 0 else Abs(cs[0] - from) + PathLength(cs[0], cs[1..])
  }

  /** The tracks recorded over a run add up to the length of the path the head
      travels, and the head ends on the last cylinder served. */
  lemma {:induction false} TracksArePathLength(h: Head, s: seq<Request>)
    ensures SumTracks(Replay(h, s)) == PathLength(h.cylinder, CylindersOf(s))
    ensures After(h, s).cylinder == LastOr(h.cylinder, CylindersOf(s))
    decreases s
  {
    if s != [] {
      var rs := Replay(h, s);
      TracksArePathLength(Move(h, s[0].cylinder), s[1..]);
      assert rs[1..] == Replay(Move(h, s[0].cylinder), s[1..]);
      assert CylindersOf(s)[1..] == CylindersOf(s[1..]);
    }
  }

  function Sign(x: int): int {
    if x > 0 then 1 else if x < 0 then -1 else 0
  }

  /** The directions of the moves along the path from `from` through `cs`,
      leaving out the moves that stay on the same cylinder. */
  function Travel(from: int, cs: seq<int>): (ds: seq<int>)
    ensures forall k :: 0 <= k < |ds| ==> ds[k] == 1 || ds[k] == -1
    decreases cs
  {
    if cs == [] then []
    else (if cs[0] == from then [] else [Sign(cs[0] - from)]) + Travel(cs[0], cs[1..])
  }

  /** How often consecutive entries of `ds` differ, `d` coming before the first. */
  function Alternations(d: int, ds: seq<int>): nat
    decreases ds
  {
    if ds == [] then 0 else (if ds[0] != d then 1 else 0) + Alternations(ds[0], ds[1..])
  }

  /** The changes recorded over a run are exactly the reversals of the head's
      travel, the starting direction counting as the way it travelled before
      the first move; the direction at the end is the way it last moved. */
  lemma {:induction false} ChangesAreReversals(h: Head, s: seq<Request>)
    requires Oriented(h)
    ensures CountChanges(Replay(h, s)) == Alternations(h.direction, Travel(h.cylinder, CylindersOf(s)))
    ensures After(h, s).direction == LastOr(h.direction, Travel(h.cylinder, CylindersOf(s)))
    decreases s
  {
    if s != [] {
      var h' := Move(h, s[0].cylinder);
      var rs := Replay(h, s);
      ChangesAreReversals(h', s[1..]);
      assert rs[1..] == Replay(h', s[1..]);
      var cs := CylindersOf(s);
      assert cs[0] == s[0].cylinder && cs[1..] == CylindersOf(s[1..]);
      var tail := Travel(s[0].cylinder, CylindersOf(s[1..]));
      if s[0].cylinder == h.cylinder {
        assert Travel(h.cylinder, cs) == tail;
      } else {
        var step := Sign(s[0].cylinder - h.cylinder);
        assert Travel(h.cylinder, cs) == [step] + tail;
        assert ([step] + tail)[1..] == tail;
        assert h'.direction == step;
      }
    }
  }

  /** The start of a run is never neutral: from cylinder 20 heading up, a
      first move to a lower cylinder already counts as a direction change. */
  lemma FirstMoveDownCounts(r: Request)
    requires r.cylinder < HomeCylinder
    ensures Replay(Head(HomeCylinder, 1), [r]) == [StepResult(r.id, HomeCylinder - r.cylinder, true)]
    ensures After(Head(HomeCylinder, 1), [r]) == Head(r.cylinder, -1)
  {
  }

  /** Cylinders 25, 10, 10, 5 served from cylinder 20 heading up: one change
      (at 25 to 10), no change for the stay at 10, 25 tracks in all. */
  lemma ScriptedRun(a: Request, b: Request, c: Request, d: Request)
    requires a.cylinder == 25 && b.cylinder == 10 && c.cylinder == 10 && d.cylinder == 5
    ensures CountChanges(Replay(Head(HomeCylinder, 1), [a, b, c, d])) == 1
    ensures SumTracks(Replay(Head(HomeCylinder, 1), [a, b, c, d])) == 25
    ensures var rs := Replay(Head(HomeCylinder, 1), [a, b, c, d]);
      !rs[0].directionChanged && rs[1].directionChanged && !rs[2].directionChanged && !rs[3].directionChanged
  {
    var h := Head(HomeCylinder, 1);
    var h1 := Move(h, 25);
    var h2 := Move(h1, 10);
    assert h1 == Head(25, 1) && h2 == Head(10, -1) && Move(h2, 10) == h2;
    var r4 := Replay(h2, [d]);
    assert [d][1..] == [] && r4 == [Outcome(h2, d)];
    var r3 := Replay(h2, [c, d]);
    assert [c, d][1..] == [d] && r3 == [Outcome(h2, c)] + r4;
    var r2 := Replay(h1, [b, c, d]);
    assert [b, c, d][1..] == [c, d] && r2 == [Outcome(h1, b)] + r3;
    var rs := Replay(h, [a, b, c, d]);
    assert [a, b, c, d][1..] == [b, c, d] && rs == [Outcome(h, a)] + r2;
    assert rs[1..] == r2 && r2[1..] == r3 && r3[1..] == r4 && r4[1..] == [];
    assert SumTracks(r4) == 5 && CountChanges(r4) == 0;
    assert SumTracks(r3) == 5 && CountChanges(r3) == 0;
    assert SumTracks(r2) == 20 && CountChanges(r2) == 1;
  }
}
