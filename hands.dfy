/**
 * The hand pass of the osu!mania transform. The kept cubes, ordered by time,
 * are taken in runs sharing one spawn time; each run's cubes are typed left,
 * right or bomb by the run's size and by the columns it occupies.
 */
module HandAssignment {
  import opened Common
  import opened BsConstants

  /** Non-decreasing spawn times. */
  predicate TimeSorted(s: seq<Entity>)
  {
    forall a, b :: 0 <= a <= b < |s| ==> s[a].spawnTime <= s[b].spawnTime
  }

  /** r splits [lo, |s|) into times up to t before it and a later time at it. */
  predicate SplitsAt(s: seq<Entity>, lo: nat, t: real, r: nat)
    requires lo <= r <= |s|
  {
    && (forall j :: lo <= j < r ==> s[j].spawnTime <= t)
    && (r < |s| ==> t < s[r].spawnTime)
  }

  /** Position of the first entity at or after `lo` whose time is later than t, or |s| when there is none. */
  function UpperBound(s: seq<Entity>, lo: nat, t: real): (r: nat)
    requires lo <= |s|
    ensures lo <= r <= |s|
    decreases |s| - lo
  {
    if lo == |s| || t < s[lo].spawnTime then lo else UpperBound(s, lo + 1, t)
  }

  /** The linear upper bound splits the times at t. */
  lemma {:induction false} UpperBoundSplits(s: seq<Entity>, lo: nat, t: real)
    requires lo <= |s|
    ensures SplitsAt(s, lo, t, UpperBound(s, lo, t))
    decreases |s| - lo
  {
    if lo < |s| && s[lo].spawnTime <= t {
      UpperBoundSplits(s, lo + 1, t);
    }
  }

  /** At most one position splits the times at t. */
  lemma SplitsUnique(s: seq<Entity>, lo: nat, t: real, r1: nat, r2: nat)
    requires lo <= r1 <= |s| && lo <= r2 <= |s| && SplitsAt(s, lo, t, r1) && SplitsAt(s, lo, t, r2)
    ensures r1 == r2
  {
  }

  /** End of the run starting at i: the upper bound of the time of s[i]. */
  ghost function RunEnd(s: seq<Entity>, i: nat): (r: nat)
    requires i < |s|
    ensures i < r <= |s| && SplitsAt(s, i, s[i].spawnTime, r)
  {
    UpperBoundSplits(s, i, s[i].spawnTime);
    var r :| i <= r <= |s| && SplitsAt(s, i, s[i].spawnTime, r);
    r
  }

  /** In time order, a run is exactly the entities sharing its first entity's time. */
  lemma RunShared(s: seq<Entity>, i: nat)
    requires i < |s| && TimeSorted(s)
    ensures forall j :: i <= j < RunEnd(s, i) ==> s[j].spawnTime == s[i].spawnTime
    ensures RunEnd(s, i) < |s| ==> s[i].spawnTime < s[RunEnd(s, i)].spawnTime
  {
  }

  /** Kind of a cube in a run of one or two: left on the two left-hand columns, else right. */
  function SideKind(e: Entity): (k: bv8)
    ensures k == CUBE_LEFT <==> e.location.0 < 2
    ensures k == CUBE_LEFT || k == CUBE_RIGHT
  {
    if e.location.0 < 2 then CUBE_LEFT else CUBE_RIGHT
  }

  /** Three entities ordered by column, equal columns keeping their order (insertion order). */
  function SortByColumn(run: seq<Entity>): (r: seq<Entity>)
    requires |run| == 3
    ensures |r| == 3 && r[0].location.0 <= r[1].location.0 <= r[2].location.0
  {
    assert run == [run[0], run[1], run[2]];
    if run[1].location.0 < run[0].location.0 then
      if run[2].location.0 >= run[0].location.0 then [run[1], run[0], run[2]]
      else if run[2].location.0 < run[1].location.0 then [run[2], run[1], run[0]]
      else [run[1], run[2], run[0]]
    else
      if run[2].location.0 >= run[1].location.0 then [run[0], run[1], run[2]]
      else if run[2].location.0 < run[0].location.0 then [run[2], run[0], run[1]]
      else [run[0], run[2], run[1]]
  }

  /** The multiset of a three-element sequence, one element at a time. */
  lemma ThreeElements(x: Entity, y: Entity, z: Entity)
    ensures multiset([x, y, z]) == multiset{x} + multiset{y} + multiset{z}
  {
    assert [x, y, z] == [x] + [y] + [z];
  }

  /** Sorting only reorders the three entities. */
  lemma SortByColumnPermutes(run: seq<Entity>)
    requires |run| == 3
    ensures multiset(SortByColumn(run)) == multiset(run)
  {
    var a, b, c := run[0], run[1], run[2];
    assert run == [a, b, c];
    ThreeElements(a, b, c);
    var r := SortByColumn(run);
    assert r == [r[0], r[1], r[2]];
    ThreeElements(r[0], r[1], r[2]);
  }


  /** Number of leading entities from k on whose column equals their position. */
  function Contiguous(s: seq<Entity>, k: nat): (r: nat)
    requires k <= |s|
    ensures k <= r <= |s|
    ensures forall j :: k <= j < r ==> s[j].location.0 == j
    ensures r < |s| ==> s[r].location.0 != r
    decreases |s| - k
  {
    if k < |s| && s[k].location.0 == k then Contiguous(s, k + 1) else k
  }

  /** Kind of the j-th column-sorted cube of a run of three with c contiguous columns from the far left. */
  function TwistKind(c: nat, j: nat): bv8
  {
    if c == 0 then CUBE_LEFT
    else if c == 1 then (if j == 0 then CUBE_LEFT else CUBE_BOMB)
    else if c == 2 then (if j == 2 then CUBE_RIGHT else CUBE_BOMB)
    else CUBE_RIGHT
  }

  /** Hand flag after a run of n cubes: only a run of four flips it. */
  function NextIsLeft(n: nat, isLeft: bool): (r: bool)
    ensures r != isLeft <==> n == 4
  {
    if n == 4 then !isLeft else isLeft
  }

  /** The same entity but for its kind. */
  predicate Retyped(e: Entity, f: Entity)
  {
    e.(kind := CUBE_LEFT) == f.(kind := CUBE_LEFT)
  }

  /** A run of one or two: each cube on the side of its column. */
  function SideRun(run: seq<Entity>): (r: seq<Entity>)
    ensures |r| == |run|
  {
    seq(|run|, j requires 0 <= j < |run| => run[j].(kind := SideKind(run[j])))
  }

  /** A run of three: ordered by column, typed by the columns contiguous from the far left. */
  function TwistRun(run: seq<Entity>): (r: seq<Entity>)
    requires |run| == 3
    ensures |r| == 3
  {
    var s := SortByColumn(run);
    var c := Contiguous(s, 0);
    [s[0].(kind := TwistKind(c, 0)), s[1].(kind := TwistKind(c, 1)), s[2].(kind := TwistKind(c, 2))]
  }

  /** A run of four: every cube on the flagged hand. */
  function PaintRun(run: seq<Entity>, isLeft: bool): (r: seq<Entity>)
    ensures |r| == |run|
  {
    seq(|run|, j requires 0 <= j < |run| => run[j].(kind := if isLeft then CUBE_LEFT else CUBE_RIGHT))
  }

  /** Kinds given to one run: by side (one or two cubes), twisted (three), alternating (four), none (more). */
  function AssignRun(run: seq<Entity>, isLeft: bool): (r: seq<Entity>)
    ensures |r| == |run|
  {
    if |run| == 1 || |run| == 2 then SideRun(run)
    else if |run| == 3 then TwistRun(run)
    else if |run| == 4 then PaintRun(run, isLeft)
    else run
  }

  /**
   * What a run's cubes become: by side for one or two cubes; for three, ordered
   * by column and typed by how many occupy the columns contiguous from the far
   * left; for four, all on the flagged hand; five or more are left as they are.
   */
  lemma AssignRunKinds(run: seq<Entity>, isLeft: bool)
    ensures |run| != 3 ==> forall j :: 0 <= j < |run| ==> Retyped(AssignRun(run, isLeft)[j], run[j])
    ensures |run| == 1 || |run| == 2 ==> forall j :: 0 <= j < |run| ==>
      && (AssignRun(run, isLeft)[j].kind == CUBE_LEFT <==> run[j].location.0 < 2)
      && AssignRun(run, isLeft)[j].kind in {CUBE_LEFT, CUBE_RIGHT}
    ensures |run| == 3 ==> var r := AssignRun(run, isLeft);
      && (forall j :: 0 <= j < 3 ==> Retyped(r[j], SortByColumn(run)[j]))
      && r[0].location.0 <= r[1].location.0 <= r[2].location.0
      && (r[0].location.0 != 0 ==> r[0].kind == r[1].kind == r[2].kind == CUBE_LEFT)
      && (r[0].location.0 == 0 && r[1].location.0 != 1 ==>
            r[0].kind == CUBE_LEFT && r[1].kind == r[2].kind == CUBE_BOMB)
      && (r[0].location.0 == 0 && r[1].location.0 == 1 && r[2].location.0 != 2 ==>
            r[0].kind == r[1].kind == CUBE_BOMB && r[2].kind == CUBE_RIGHT)
      && (r[0].location.0 == 0 && r[1].location.0 == 1 && r[2].location.0 == 2 ==>
            r[0].kind == r[1].kind == r[2].kind == CUBE_RIGHT)
    ensures |run| == 4 ==> forall j :: 0 <= j < 4 ==> AssignRun(run, isLeft)[j].kind == (if isLeft then CUBE_LEFT else CUBE_RIGHT)
    ensures |run| > 4 ==> AssignRun(run, isLeft) == run
  {
  }

  /** A typing of runs: from a run and the hand flag, the run's typed cubes, as many as it has. */
  ghost predicate KeepsLength(typing: (seq<Entity>, bool) -> seq<Entity>)
  {
    forall run, isLeft :: |typing(run, isLeft)| == |run|
  }

  lemma AssignRunKeepsLength()
    ensures KeepsLength(AssignRun)
  {
  }

  /**
   * The pass over s from position i with hand flag isLeft: each run typed in
   * turn, the flag updated after each run.
   */
  ghost function PassFrom(typing: (seq<Entity>, bool) -> seq<Entity>, s: seq<Entity>, i: nat, isLeft: bool): (r: seq<Entity>)
    requires KeepsLength(typing) && i <= |s|
    ensures |r| == |s| - i
    decreases |s| - i
  {
    if i == |s| then []
    else
      var e := RunEnd(s, i);
      typing(s[i..e], isLeft) + PassFrom(typing, s, e, NextIsLeft(e - i, isLeft))
  }

  /** The hand pass over the kept cubes: runs typed by AssignRun, the flag starting on the left hand. */
  ghost function Hands(s: seq<Entity>): (r: seq<Entity>)
    ensures |r| == |s|
  {
    AssignRunKeepsLength();
    PassFrom(AssignRun, s, 0, true)
  }

  /** p is where a run starts when the runs are walked from i. */
  ghost predicate RunStart(s: seq<Entity>, i: nat, p: nat)
    requires i <= |s|
    decreases |s| - i
  {
    i < |s| && (p == i || (i < p && RunStart(s, RunEnd(s, i), p)))
  }

  /** Number of four-cube runs starting in [i, p) when the runs are walked from i. */
  ghost function FoursBetween(s: seq<Entity>, i: nat, p: nat): nat
    requires i <= |s|
    decreases |s| - i
  {
    if p <= i || i == |s| then 0
    else (if RunEnd(s, i) - i == 4 then 1 else 0) + FoursBetween(s, RunEnd(s, i), p)
  }

  /** Hand flag when the walk of the runs from i, starting with flag isLeft, reaches p. */
  ghost function FlagAt(s: seq<Entity>, i: nat, isLeft: bool, p: nat): bool
    requires i <= |s|
    decreases |s| - i
  {
    if p <= i || i == |s| then isLeft
    else FlagAt(s, RunEnd(s, i), NextIsLeft(RunEnd(s, i) - i, isLeft), p)
  }

  /** The flag has flipped once per run of four passed on the way. */
  lemma {:induction false} FlagAtFours(s: seq<Entity>, i: nat, isLeft: bool, p: nat)
    requires i <= |s|
    ensures FlagAt(s, i, isLeft, p) == (isLeft == (FoursBetween(s, i, p) % 2 == 0))
    decreases |s| - i
  {
    if p > i && i < |s| {
      var e := RunEnd(s, i);
      FlagAtFours(s, e, NextIsLeft(e - i, isLeft), p);
    }
  }

  /** The k-th cube of the pass from i: from the first run, or from the pass after it. */
  lemma PassAt(typing: (seq<Entity>, bool) -> seq<Entity>, s: seq<Entity>, i: nat, isLeft: bool, k: nat)
    requires KeepsLength(typing) && i + k < |s|
    ensures var e := RunEnd(s, i);
      PassFrom(typing, s, i, isLeft)[k]
        == if k < e - i then typing(s[i..e], isLeft)[k] else PassFrom(typing, s, e, NextIsLeft(e - i, isLeft))[k - (e - i)]
  {
  }

  /** From a run start p on, the pass is the pass started at p with the flag the walk has there. */
  lemma {:induction false} PassSuffix(typing: (seq<Entity>, bool) -> seq<Entity>, s: seq<Entity>, i: nat, isLeft: bool, p: nat, k: nat)
    requires KeepsLength(typing) && i <= p && p + k < |s| && RunStart(s, i, p)
    ensures PassFrom(typing, s, i, isLeft)[p - i + k] == PassFrom(typing, s, p, FlagAt(s, i, isLeft, p))[k]
    decreases |s| - i
  {
    if p == i {
      assert FlagAt(s, i, isLeft, p) == isLeft;
    } else {
      var e := RunEnd(s, i);
      var f := NextIsLeft(e - i, isLeft);
      assert RunStart(s, e, p) && e <= p;
      assert FlagAt(s, i, isLeft, p) == FlagAt(s, e, f, p);
      PassSuffix(typing, s, e, f, p, k);
      PassAt(typing, s, i, isLeft, p - i + k);
      assert PassFrom(typing, s, i, isLeft)[p - i + k] == PassFrom(typing, s, e, f)[p - e + k];
    }
  }

  /** Within a run starting at p, the pass from i holds the run as typed alone under the flag at p. */
  lemma PassAtRun(typing: (seq<Entity>, bool) -> seq<Entity>, s: seq<Entity>, i: nat, isLeft: bool, p: nat, k: nat)
    requires KeepsLength(typing) && i <= p < |s| && RunStart(s, i, p) && k < RunEnd(s, p) - p
    ensures PassFrom(typing, s, i, isLeft)[p - i + k] == typing(s[p..RunEnd(s, p)], FlagAt(s, i, isLeft, p))[k]
  {
    PassSuffix(typing, s, i, isLeft, p, k);
    PassAt(typing, s, p, FlagAt(s, i, isLeft, p), k);
  }

  /**
   * Each run gets the kinds AssignRun gives it alone, under a hand flag that
   * starts left and has flipped once per earlier run of four.
   */
  lemma HandsAtRun(s: seq<Entity>, p: nat)
    requires p < |s| && RunStart(s, 0, p)
    ensures p < RunEnd(s, p) <= |s|
    ensures FlagAt(s, 0, true, p) == (FoursBetween(s, 0, p) % 2 == 0)
    ensures forall k :: 0 <= k < RunEnd(s, p) - p ==> Hands(s)[p + k] == AssignRun(s[p..RunEnd(s, p)], FlagAt(s, 0, true, p))[k]
  {
    FlagAtFours(s, 0, true, p);
    AssignRunKeepsLength();
    forall k | 0 <= k < RunEnd(s, p) - p
      ensures Hands(s)[p + k] == AssignRun(s[p..RunEnd(s, p)], FlagAt(s, 0, true, p))[k]
    {
      PassAtRun(AssignRun, s, 0, true, p, k);
    }
  }

  /** Typing a run whose cubes share one time keeps that time on every cube. */
  lemma RunKeepsTime(run: seq<Entity>, isLeft: bool, t: real)
    requires forall j :: 0 <= j < |run| ==> run[j].spawnTime == t
    ensures forall j :: 0 <= j < |run| ==> AssignRun(run, isLeft)[j].spawnTime == t
  {
    AssignRunKinds(run, isLeft);
    if |run| == 3 {
      SortByColumnPermutes(run);
      forall j | 0 <= j < 3
        ensures AssignRun(run, isLeft)[j].spawnTime == t
      {
        assert SortByColumn(run)[j] in multiset(run);
        assert Retyped(AssignRun(run, isLeft)[j], SortByColumn(run)[j]);
      }
    } else {
      forall j | 0 <= j < |run|
        ensures AssignRun(run, isLeft)[j].spawnTime == t
      {
        assert Retyped(AssignRun(run, isLeft)[j], run[j]);
      }
    }
  }

  /** With times in order the pass moves no cube to another time. */
  lemma {:induction false} HandsFromKeepTimes(s: seq<Entity>, i: nat, isLeft: bool)
    requires i <= |s| && TimeSorted(s) && KeepsLength(AssignRun)
    ensures forall k :: 0 <= k < |s| - i ==> PassFrom(AssignRun, s, i, isLeft)[k].spawnTime == s[i + k].spawnTime
    decreases |s| - i
  {
    AssignRunKeepsLength();
    if i < |s| {
      var e := RunEnd(s, i);
      var f := NextIsLeft(e - i, isLeft);
      RunShared(s, i);
      RunKeepsTime(s[i..e], isLeft, s[i].spawnTime);
      HandsFromKeepTimes(s, e, f);
      forall k | 0 <= k < |s| - i
        ensures PassFrom(AssignRun, s, i, isLeft)[k].spawnTime == s[i + k].spawnTime
      {
        if k < e - i {
          assert PassFrom(AssignRun, s, i, isLeft)[k] == AssignRun(s[i..e], isLeft)[k];
          assert s[i..e][k] == s[i + k];
        } else {
          assert PassFrom(AssignRun, s, i, isLeft)[k] == PassFrom(AssignRun, s, e, f)[k - (e - i)];
        }
      }
    }
  }

  /** The hand pass over cubes in time order keeps every cube at its time. */
  lemma HandsKeepTimes(s: seq<Entity>)
    requires TimeSorted(s)
    ensures forall j :: 0 <= j < |s| ==> Hands(s)[j].spawnTime == s[j].spawnTime
  {
    AssignRunKeepsLength();
    HandsFromKeepTimes(s, 0, true);
  }

  /** From position i on, h holds the pass from i. */
  ghost predicate SuffixIs(typing: (seq<Entity>, bool) -> seq<Entity>, s: seq<Entity>, h: seq<Entity>, i: nat, isLeft: bool)
    requires KeepsLength(typing) && i <= |s| == |h|
  {
    forall k :: 0 <= k < |s| - i ==> h[i + k] == PassFrom(typing, s, i, isLeft)[k]
  }

  /** Where h holds the pass from the run start i, it holds that run typed and then the pass from the next run. */
  lemma SuffixStep(typing: (seq<Entity>, bool) -> seq<Entity>, s: seq<Entity>, h: seq<Entity>, i: nat, isLeft: bool)
    requires KeepsLength(typing) && i < |s| == |h| && SuffixIs(typing, s, h, i, isLeft)
    ensures forall k :: 0 <= k < RunEnd(s, i) - i ==> h[i + k] == typing(s[i..RunEnd(s, i)], isLeft)[k]
    ensures SuffixIs(typing, s, h, RunEnd(s, i), NextIsLeft(RunEnd(s, i) - i, isLeft))
  {
    var e := RunEnd(s, i);
    forall k | 0 <= k < e - i
      ensures h[i + k] == typing(s[i..e], isLeft)[k]
    {
      PassAt(typing, s, i, isLeft, k);
    }
    var tail := PassFrom(typing, s, e, NextIsLeft(e - i, isLeft));
    forall k | 0 <= k < |s| - e
      ensures h[e + k] == tail[k]
    {
      PassAt(typing, s, i, isLeft, e - i + k);
    }
  }

  /** std::upper_bound over a[lo..hi], in time order, by binary search. */
  method UpperBoundSearch(a: array<Entity>, lo: nat, hi: nat, t: real) returns (r: nat)
    requires lo <= hi <= a.Length
    requires forall x, y :: lo <= x <= y < hi ==> a[x].spawnTime <= a[y].spawnTime
    ensures lo <= r <= hi
    ensures forall j :: lo <= j < r ==> a[j].spawnTime <= t
    ensures r < hi ==> t < a[r].spawnTime
  {
    var l, h := lo, hi;
    while l < h
      invariant lo <= l <= h <= hi
      invariant forall j :: lo <= j < l ==> a[j].spawnTime <= t
      invariant forall j :: h <= j < hi ==> t < a[j].spawnTime
      decreases h - l
    {
      var mid := l + (h - l) / 2;
      if t < a[mid].spawnTime {
        h := mid;
      } else {
        l := mid + 1;
      }
    }
    r := l;
  }

  /** Sorts a[lo..lo + 3] by column in place: insertion order, as std::sort does on three elements. */
  method SortThree(a: array<Entity>, lo: nat)
    requires lo + 3 <= a.Length
    modifies a
    ensures a[lo..lo + 3] == SortByColumn(old(a[lo..lo + 3]))
    ensures forall j :: 0 <= j < a.Length && !(lo <= j < lo + 3) ==> a[j] == old(a[j])
  {
    if a[lo + 1].location.0 < a[lo].location.0 {
      a[lo], a[lo + 1] := a[lo + 1], a[lo];
    }
    if a[lo + 2].location.0 < a[lo + 1].location.0 {
      a[lo + 1], a[lo + 2] := a[lo + 2], a[lo + 1];
      if a[lo + 1].location.0 < a[lo].location.0 {
        a[lo], a[lo + 1] := a[lo + 1], a[lo];
      }
    }
    assert a[lo..lo + 3] == [a[lo], a[lo + 1], a[lo + 2]];
  }

  /** A run of one or two: each cube to the side of its column. */
  method AssignSide(a: array<Entity>, lo: nat, hi: nat)
    requires lo <= hi <= a.Length
    modifies a
    ensures forall k :: 0 <= k < hi - lo ==> a[lo + k] == SideRun(old(a[lo..hi]))[k]
    ensures forall j :: 0 <= j < a.Length && !(lo <= j < hi) ==> a[j] == old(a[j])
  {
    var dst := lo;
    while dst < hi
      invariant lo <= dst <= hi
      invariant forall j :: lo <= j < dst ==> a[j] == old(a[j]).(kind := SideKind(old(a[j])))
      invariant forall j :: 0 <= j < a.Length && !(lo <= j < dst) ==> a[j] == old(a[j])
    {
      a[dst] := a[dst].(kind := if a[dst].location.0 < 2 then CUBE_LEFT else CUBE_RIGHT);
      dst := dst + 1;
    }
  }

  /** A run of three: sorted by column, then typed by the count of contiguous columns from the far left. */
  method AssignTwist(a: array<Entity>, lo: nat)
    requires lo + 3 <= a.Length
    modifies a
    ensures a[lo..lo + 3] == TwistRun(old(a[lo..lo + 3]))
    ensures forall j :: 0 <= j < a.Length && !(lo <= j < lo + 3) ==> a[j] == old(a[j])
  {
    SortThree(a, lo);
    ghost var sorted := a[lo..lo + 3];
    var c := 0;
    while c < 3 && a[lo + c].location.0 == c
      invariant c <= 3 && Contiguous(sorted, c) == Contiguous(sorted, 0)
    {
      c := c + 1;
    }
    if c == 0 {
      a[lo] := a[lo].(kind := CUBE_LEFT);
      a[lo + 1] := a[lo + 1].(kind := CUBE_LEFT);
      a[lo + 2] := a[lo + 2].(kind := CUBE_LEFT);
    } else if c == 1 {
      a[lo] := a[lo].(kind := CUBE_LEFT);
      a[lo + 1] := a[lo + 1].(kind := CUBE_BOMB);
      a[lo + 2] := a[lo + 2].(kind := CUBE_BOMB);
    } else if c == 2 {
      a[lo] := a[lo].(kind := CUBE_BOMB);
      a[lo + 1] := a[lo + 1].(kind := CUBE_BOMB);
      a[lo + 2] := a[lo + 2].(kind := CUBE_RIGHT);
    } else {
      a[lo] := a[lo].(kind := CUBE_RIGHT);
      a[lo + 1] := a[lo + 1].(kind := CUBE_RIGHT);
      a[lo + 2] := a[lo + 2].(kind := CUBE_RIGHT);
    }
    assert a[lo..lo + 3] == [sorted[0].(kind := TwistKind(c, 0)), sorted[1].(kind := TwistKind(c, 1)), sorted[2].(kind := TwistKind(c, 2))];
  }

  /** A run of four: every cube to the flagged hand. */
  method AssignPaint(a: array<Entity>, lo: nat, hi: nat, isLeft: bool)
    requires lo <= hi <= a.Length
    modifies a
    ensures forall k :: 0 <= k < hi - lo ==> a[lo + k] == PaintRun(old(a[lo..hi]), isLeft)[k]
    ensures forall j :: 0 <= j < a.Length && !(lo <= j < hi) ==> a[j] == old(a[j])
  {
    var dst := lo;
    while dst < hi
      invariant lo <= dst <= hi
      invariant forall j :: lo <= j < dst ==> a[j] == old(a[j]).(kind := if isLeft then CUBE_LEFT else CUBE_RIGHT)
      invariant forall j :: 0 <= j < a.Length && !(lo <= j < dst) ==> a[j] == old(a[j])
    {
      a[dst] := a[dst].(kind := if isLeft then CUBE_LEFT else CUBE_RIGHT);
      dst := dst + 1;
    }
  }

  /** Types the cubes of the run a[lo..hi] in place; returns the hand flag for the next run. */
  method AssignRunAt(a: array<Entity>, lo: nat, hi: nat, isLeft: bool) returns (nextLeft: bool)
    requires lo < hi <= a.Length
    modifies a
    ensures forall k :: 0 <= k < hi - lo ==> a[lo + k] == AssignRun(old(a[lo..hi]), isLeft)[k]
    ensures forall j :: 0 <= j < a.Length && !(lo <= j < hi) ==> a[j] == old(a[j])
    ensures nextLeft == NextIsLeft(hi - lo, isLeft)
  {
    ghost var run := a[lo..hi];
    var count := hi - lo;
    nextLeft := isLeft;
    if count <= 2 {
      assert AssignRun(run, isLeft) == SideRun(run);
      AssignSide(a, lo, hi);
    } else if count == 3 {
      assert AssignRun(run, isLeft) == TwistRun(run);
      AssignTwist(a, lo);
      forall k | 0 <= k < 3
        ensures a[lo + k] == TwistRun(run)[k]
      {
        assert a[lo + k] == a[lo..lo + 3][k];
      }
    } else if count == 4 {
      assert AssignRun(run, isLeft) == PaintRun(run, isLeft);
      AssignPaint(a, lo, hi, isLeft);
      nextLeft := !isLeft;
    } else {
      assert AssignRun(run, isLeft) == run;
    }
  }

  /**
   * State of the in-place pass: cur holds the pass result h before dst and the
   * untouched cubes of s from dst on, and h from dst on is the pass from dst
   * with flag isLeft.
   */
  ghost predicate HandsUpTo(s: seq<Entity>, h: seq<Entity>, cur: seq<Entity>, dst: nat, isLeft: bool)
    requires KeepsLength(AssignRun) && |s| == |h|
  {
    && dst <= |s| == |cur|
    && SuffixIs(AssignRun, s, h, dst, isLeft)
    && (forall x :: 0 <= x < dst ==> cur[x] == h[x])
    && (forall x :: dst <= x < |s| ==> cur[x] == s[x])
  }

  /** Typing the run at dst in place moves the state of the pass to the next run. */
  lemma HandsStep(s: seq<Entity>, h: seq<Entity>, before: seq<Entity>, after: seq<Entity>, dst: nat, isLeft: bool)
    requires KeepsLength(AssignRun) && |s| == |h| && dst < |s| && HandsUpTo(s, h, before, dst, isLeft)
    requires |after| == |s|
    requires forall k :: 0 <= k < RunEnd(s, dst) - dst ==> after[dst + k] == AssignRun(before[dst..RunEnd(s, dst)], isLeft)[k]
    requires forall j :: 0 <= j < |s| && !(dst <= j < RunEnd(s, dst)) ==> after[j] == before[j]
    ensures HandsUpTo(s, h, after, RunEnd(s, dst), NextIsLeft(RunEnd(s, dst) - dst, isLeft))
  {
    var e := RunEnd(s, dst);
    SuffixStep(AssignRun, s, h, dst, isLeft);
    assert before[dst..e] == s[dst..e];
    forall x | dst <= x < e
      ensures after[x] == h[x]
    {
      var k := x - dst;
      assert after[dst + k] == AssignRun(s[dst..e], isLeft)[k];
    }
  }

  /** One round of the hand pass: the run at dst is found and typed in place. */
  method AssignNextRun(a: array<Entity>, n: nat, dst: nat, isLeft: bool, ghost s: seq<Entity>, ghost h: seq<Entity>)
    returns (next: nat, nextLeft: bool)
    requires KeepsLength(AssignRun) && n <= a.Length && |s| == |h| == n && TimeSorted(s)
    requires dst < n && HandsUpTo(s, h, a[..n], dst, isLeft)
    modifies a
    ensures dst < next <= n && HandsUpTo(s, h, a[..n], next, nextLeft)
    ensures forall x :: n <= x < a.Length ==> a[x] == old(a[x])
  {
    assert forall x, y :: dst <= x <= y < n ==> a[x].spawnTime <= a[y].spawnTime by {
      assert forall x :: dst <= x < n ==> a[x] == a[..n][x] == s[x];
    }
    next := UpperBoundSearch(a, dst, n, a[dst].spawnTime);
    SplitsUnique(s, dst, s[dst].spawnTime, next, RunEnd(s, dst));
    ghost var before := a[..n];
    assert a[dst..next] == before[dst..next] by {
      assert forall x :: dst <= x < next ==> a[x] == before[x];
    }
    nextLeft := AssignRunAt(a, dst, next, isLeft);
    HandsStep(s, h, before, a[..n], dst, isLeft);
  }

  /**
   * The hand pass in place over the n kept cubes a[..n], in time order, run by
   * run; a run of five or more is left as it is and skipped.
   */
  method AssignHands(a: array<Entity>, n: nat)
    requires n <= a.Length && TimeSorted(a[..n])
    modifies a
    ensures a[..n] == Hands(old(a[..n])) && a[n..] == old(a[n..])
  {
    ghost var s := a[..n];
    ghost var h := Hands(s);
    AssignRunKeepsLength();
    var isLeft := true;
    var dst := 0;
    while dst < n
      invariant dst <= n && HandsUpTo(s, h, a[..n], dst, isLeft)
      invariant forall x :: n <= x < a.Length ==> a[x] == old(a[x])
      decreases n - dst
    {
      dst, isLeft := AssignNextRun(a, n, dst, isLeft, s, h);
    }
    assert a[..n] == h;
  }

  /**
   * The state of the hand-pass loop as written in the source: the cubes, the
   * read cursor src, the write cursor dst and the hand flag.
   */
  datatype HandLoop = HandLoop(cubes: seq<Entity>, src: nat, dst: nat, isLeft: bool)

  /**
   * One iteration of the loop as written: the run is searched from dst; a run
   * of at most four cubes is typed and both cursors move past it, while a run
   * of five or more moves src only, so dst stays where it was.
   */
  ghost function HandStepAsWritten(h: HandLoop): (r: HandLoop)
    requires h.dst < |h.cubes|
    ensures |r.cubes| == |h.cubes| && r.isLeft == NextIsLeft(RunEnd(h.cubes, h.dst) - h.dst, h.isLeft)
    ensures r.src == RunEnd(h.cubes, h.dst)
    ensures r.dst == r.src <==> RunEnd(h.cubes, h.dst) - h.dst <= 4
    ensures r.dst < r.src ==> r.dst == h.dst && r.cubes == h.cubes
  {
    var e := RunEnd(h.cubes, h.dst);
    if e - h.dst <= 4 then
      HandLoop(h.cubes[..h.dst] + AssignRun(h.cubes[h.dst..e], h.isLeft) + h.cubes[e..], e, e, NextIsLeft(e - h.dst, h.isLeft))
    else HandLoop(h.cubes, e, h.dst, h.isLeft)
  }

  /**
   * A run of five or more that is not the last one traps the loop as written:
   * after one iteration src has not reached the end, and every further
   * iteration leaves the state as it is.
   */
  lemma HandLoopStuck(h: HandLoop)
    requires h.dst < |h.cubes| && RunEnd(h.cubes, h.dst) - h.dst > 4 && RunEnd(h.cubes, h.dst) < |h.cubes|
    ensures var h1 := HandStepAsWritten(h);
      h1.src < |h1.cubes| && h1.dst < |h1.cubes| && HandStepAsWritten(h1) == h1
  {
    var h1 := HandStepAsWritten(h);
    assert h1 == HandLoop(h.cubes, RunEnd(h.cubes, h.dst), h.dst, h.isLeft);
  }

  /** Five cubes at one time followed by a later one. */
  function FiveThenOne(): (s: seq<Entity>)
    ensures |s| == 6 && TimeSorted(s)
  {
    var e := Entity((0, 0), CUBE_LEFT, 1.0, 0.0);
    [e, e, e, e, e, e.(spawnTime := 2.0)]
  }

  /** On FiveThenOne the loop as written never reaches the end of the cubes. */
  lemma FiveThenOneStuck()
    ensures var h1 := HandStepAsWritten(HandLoop(FiveThenOne(), 0, 0, true));
      h1.src == 5 && h1.dst == 0 && HandStepAsWritten(h1) == h1
  {
    var s := FiveThenOne();
    assert SplitsAt(s, 0, s[0].spawnTime, 5);
    SplitsUnique(s, 0, s[0].spawnTime, 5, RunEnd(s, 0));
    HandLoopStuck(HandLoop(s, 0, 0, true));
  }
}
