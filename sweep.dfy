/**
 * Detection of a lateral sweep: a seed note on an outer column followed by
 * three circles, at successive later times, on the columns moving one step
 * at a time away from the seed's edge, with regular gaps.
 */
module SweepDetector {
  import opened Common

  /** Largest gap change, in milliseconds, between two steps of a sweep (half the block downtime). */
  const SWEEP_GAP_JITTER_MS: real := 100.0

  /** The osu! column (0..3) of a pixel x position on the 512-pixel playfield. */
  function OsuColumn(e: Entity): nat
  {
    4 * e.location.0 / OS_MAP_WIDTH
  }

  /** A seed on the right half sweeps to the left. */
  predicate IsLeftSweep(seed: Entity)
  {
    seed.location.0 > 127
  }

  /** Column of the j-th chain note after the seed (j = 0, 1, 2). */
  function SweepColumn(leftward: bool, j: nat): int
  {
    if leftward then 2 - j else 1 + j
  }

  predicate SortedFrom(targets: seq<Entity>, start: nat)
  {
    forall a, b :: start <= a <= b < |targets| ==> targets[a].spawnTime <= targets[b].spawnTime
  }

  /** Note `n` may stand at position j (0, 1 or 2) of a chain after the seed. */
  predicate ChainNote(targets: seq<Entity>, n: nat, j: nat, leftward: bool)
  {
    && n < |targets|
    && IsCircle(targets[n].kind)
    && !IsContinuous(targets[n].kind)
    && OsuColumn(targets[n]) == SweepColumn(leftward, j)
  }

  /** `c` holds the indices of three chain notes after `start`. */
  predicate SweepChain(targets: seq<Entity>, start: nat, c: seq<nat>)
  {
    && |c| == 3
    && start < c[0] < c[1] < c[2] < |targets|
    && (forall j :: 0 <= j < 3 ==> ChainNote(targets, c[j], j, IsLeftSweep(targets[start])))
    && targets[start].spawnTime < targets[c[0]].spawnTime < targets[c[1]].spawnTime < targets[c[2]].spawnTime
  }

  /** Every gap of the chain is within `tolerance` and within 100 ms of the gap before it. */
  predicate SweepGaps(targets: seq<Entity>, start: nat, c: seq<nat>, tolerance: real)
    requires SweepChain(targets, start, c)
  {
    var g1 := targets[c[0]].spawnTime - targets[start].spawnTime;
    var g2 := targets[c[1]].spawnTime - targets[c[0]].spawnTime;
    var g3 := targets[c[2]].spawnTime - targets[c[1]].spawnTime;
    && g1 <= tolerance && g2 <= tolerance && g3 <= tolerance
    && Abs(g2 - g1) <= SWEEP_GAP_JITTER_MS && Abs(g3 - g2) <= SWEEP_GAP_JITTER_MS
  }

  /**
   * The scan's cursors: `i` is the number of the timeline being filled (1..3),
   * `idx` the column the next chain note must be on, `prev` the previous timeline
   * (ti[i-1]), `cur` the current one (ti[i], 0 while unset) and `dtI` the gap of
   * the previous chain step.
   */
  datatype ScanState = ScanState(i: nat, idx: int, prev: real, cur: real, dtI: real)

  /** The outcome of looking at one note: the scan stops (pattern broken) or goes on in a new state. */
  datatype ScanStepResult = Stop | Next(state: ScanState)

  /** One iteration of the scan over the note at position `it`, while fewer than three chain notes are found. */
  function ScanStep(targets: seq<Entity>, tolerance: real, leftward: bool, s: ScanState, it: nat): ScanStepResult
    requires it < |targets|
  {
    var t := targets[it].spawnTime;
    if !(s.prev < t) then Next(s)
    else if s.cur != 0.0 && t > s.cur then Stop
    else
      var cur := if s.cur == 0.0 then t else s.cur;
      var dtJ := cur - s.prev;
      var dtI := if s.i == 1 then dtJ else s.dtI;
      if IsContinuous(targets[it].kind) || tolerance < dtJ || SWEEP_GAP_JITTER_MS < Abs(dtJ - dtI) then Stop
      else if IsCircle(targets[it].kind) && s.idx == OsuColumn(targets[it]) then
        Next(ScanState(s.i + 1, if leftward then s.idx - 1 else s.idx + 1, cur, 0.0, dtJ))
      else Next(ScanState(s.i, s.idx, s.prev, cur, dtI))
  }

  /**
   * Where the scan ends when it reaches position `it` in state `s`: one past the
   * fourth note of a sweep, or |targets| when the pattern is broken or runs out.
   */
  function ScanFrom(targets: seq<Entity>, tolerance: real, leftward: bool, s: ScanState, it: nat): (r: nat)
    requires it <= |targets|
    ensures it <= r <= |targets|
    decreases |targets| - it
  {
    if s.i >= 4 then it
    else if it == |targets| then |targets|
    else match ScanStep(targets, tolerance, leftward, s, it)
      case Stop => |targets|
      case Next(n) => ScanFrom(targets, tolerance, leftward, n, it + 1)
  }

  /** The result of the sweep scan started at the seed `start`. */
  function SweepEnd(targets: seq<Entity>, start: nat, tolerance: real): (r: nat)
    requires start <= |targets|
    ensures start <= r <= |targets|
  {
    if start == |targets| then |targets|
    else
      var leftward := IsLeftSweep(targets[start]);
      var idx := if leftward then 2 else 1;
      ScanFrom(targets, tolerance, leftward, ScanState(1, idx, targets[start].spawnTime, 0.0, 0.0), start + 1)
  }

  /** The scan reads only the notes from position `it` on. */
  lemma {:induction false} ScanFromFrame(t1: seq<Entity>, t2: seq<Entity>, tolerance: real, leftward: bool, s: ScanState, it: nat)
    requires it <= |t1| == |t2| && t1[it..] == t2[it..]
    ensures ScanFrom(t1, tolerance, leftward, s, it) == ScanFrom(t2, tolerance, leftward, s, it)
    decreases |t1| - it
  {
    if s.i < 4 && it < |t1| {
      assert t1[it] == t1[it..][0] == t2[it];
      assert t1[it + 1..] == t1[it..][1..];
      assert t2[it + 1..] == t2[it..][1..];
      match ScanStep(t1, tolerance, leftward, s, it)
      case Stop =>
      case Next(n) => ScanFromFrame(t1, t2, tolerance, leftward, n, it + 1);
    }
  }

  /** The sweep result from `start` depends only on the notes from `start` on. */
  lemma SweepEndFrame(t1: seq<Entity>, t2: seq<Entity>, start: nat, tolerance: real)
    requires start <= |t1| == |t2| && t1[start..] == t2[start..]
    ensures SweepEnd(t1, start, tolerance) == SweepEnd(t2, start, tolerance)
  {
    if start < |t1| {
      assert t1[start] == t1[start..][0] == t2[start];
      assert t1[start + 1..] == t1[start..][1..];
      assert t2[start + 1..] == t2[start..][1..];
      var leftward := IsLeftSweep(t1[start]);
      var idx := if leftward then 2 else 1;
      ScanFromFrame(t1, t2, tolerance, leftward, ScanState(1, idx, t1[start].spawnTime, 0.0, 0.0), start + 1);
    }
  }

  /** Time of the seed (k = 0) or of the k-th recorded chain note. */
  function ChainTime(targets: seq<Entity>, start: nat, chain: seq<nat>, k: nat): real
    requires start < |targets| && k <= |chain|
    requires forall j :: 0 <= j < |chain| ==> chain[j] < |targets|
  {
    if k == 0 then targets[start].spawnTime else targets[chain[k - 1]].spawnTime
  }

  /** Gap number k (1-based) between successive chain times. */
  function Gap(targets: seq<Entity>, start: nat, chain: seq<nat>, k: nat): real
    requires start < |targets| && 1 <= k <= |chain|
    requires forall j :: 0 <= j < |chain| ==> chain[j] < |targets|
  {
    ChainTime(targets, start, chain, k) - ChainTime(targets, start, chain, k - 1)
  }

  /** The chain notes recorded so far (at most two before the last step), in order and on their columns. */
  predicate ChainSoFar(targets: seq<Entity>, start: nat, chain: seq<nat>, leftward: bool)
  {
    && start < |targets|
    && |chain| <= 2
    && (|chain| >= 1 ==> start < chain[0] && ChainNote(targets, chain[0], 0, leftward)
                         && targets[start].spawnTime < targets[chain[0]].spawnTime)
    && (|chain| >= 2 ==> chain[0] < chain[1] && ChainNote(targets, chain[1], 1, leftward)
                         && targets[chain[0]].spawnTime < targets[chain[1]].spawnTime)
  }

  /** On sorted input the recorded gaps are regular so far. */
  predicate GapsSoFar(targets: seq<Entity>, start: nat, chain: seq<nat>, tolerance: real)
    requires start < |targets| && ChainSoFar(targets, start, chain, IsLeftSweep(targets[start]))
  {
    && (|chain| >= 1 ==> Gap(targets, start, chain, 1) <= tolerance)
    && (|chain| >= 2 ==> Gap(targets, start, chain, 2) <= tolerance
                         && Abs(Gap(targets, start, chain, 2) - Gap(targets, start, chain, 1)) <= SWEEP_GAP_JITTER_MS)
  }

  /** What holds of the scan in state `s` before it looks at position `it`. */
  predicate ScanInv(targets: seq<Entity>, start: nat, tolerance: real, s: ScanState, it: nat, chain: seq<nat>)
  {
    && start < it <= |targets|
    && 1 <= s.i <= 3 && |chain| == s.i - 1
    && s.idx == SweepColumn(IsLeftSweep(targets[start]), s.i - 1)
    && ChainSoFar(targets, start, chain, IsLeftSweep(targets[start]))
    && (|chain| > 0 ==> chain[|chain| - 1] < it)
    && ChainTime(targets, start, chain, |chain|) <= s.prev
    && (|chain| == 0 ==> s.prev == targets[start].spawnTime)
    && (s.cur != 0.0 ==> s.prev < s.cur)
    && (SortedFrom(targets, start) ==>
          && ChainTime(targets, start, chain, |chain|) == s.prev
          && GapsSoFar(targets, start, chain, tolerance)
          && (s.i > 1 ==> s.dtI == Gap(targets, start, chain, |chain|))
          && (s.cur != 0.0 && it < |targets| ==> s.cur <= targets[it].spawnTime))
  }

  /** A note not later than the previous timeline is passed over. */
  lemma ScanSkip(targets: seq<Entity>, start: nat, tolerance: real, s: ScanState, it: nat, chain: seq<nat>)
    requires ScanInv(targets, start, tolerance, s, it, chain)
    requires it < |targets| && !(s.prev < targets[it].spawnTime)
    ensures ScanInv(targets, start, tolerance, s, it + 1, chain)
  {
  }

  /** A later note within the current timeline that is not the next chain note. */
  lemma ScanRecord(targets: seq<Entity>, start: nat, tolerance: real, s: ScanState, it: nat, chain: seq<nat>, cur: real, dtI: real)
    requires ScanInv(targets, start, tolerance, s, it, chain)
    requires it < |targets| && s.prev < targets[it].spawnTime
    requires s.cur == 0.0 || targets[it].spawnTime <= s.cur
    requires cur == if s.cur == 0.0 then targets[it].spawnTime else s.cur
    requires dtI == if s.i == 1 then cur - s.prev else s.dtI
    ensures ScanInv(targets, start, tolerance, ScanState(s.i, s.idx, s.prev, cur, dtI), it + 1, chain)
  {
    if SortedFrom(targets, start) && it + 1 < |targets| {
      assert targets[it].spawnTime <= targets[it + 1].spawnTime;
    }
  }

  /** On sorted input the accepted chain note lies exactly on the current timeline. */
  lemma SortedOnTimeline(targets: seq<Entity>, start: nat, tolerance: real, s: ScanState, it: nat, chain: seq<nat>, cur: real)
    requires ScanInv(targets, start, tolerance, s, it, chain)
    requires it < |targets| && s.prev < targets[it].spawnTime
    requires s.cur == 0.0 || targets[it].spawnTime <= s.cur
    requires cur == if s.cur == 0.0 then targets[it].spawnTime else s.cur
    requires SortedFrom(targets, start)
    ensures targets[it].spawnTime == cur
  {
  }

  /** The first or second chain note moves the cursor one column on and opens the next timeline. */
  lemma ScanAdvance(targets: seq<Entity>, start: nat, tolerance: real, s: ScanState, it: nat, chain: seq<nat>, cur: real, dtI: real)
    requires ScanInv(targets, start, tolerance, s, it, chain) && s.i < 3
    requires it < |targets| && s.prev < targets[it].spawnTime
    requires s.cur == 0.0 || targets[it].spawnTime <= s.cur
    requires cur == if s.cur == 0.0 then targets[it].spawnTime else s.cur
    requires dtI == if s.i == 1 then cur - s.prev else s.dtI
    requires tolerance >= cur - s.prev && Abs((cur - s.prev) - dtI) <= SWEEP_GAP_JITTER_MS
    requires ChainNote(targets, it, s.i - 1, IsLeftSweep(targets[start]))
    ensures var leftward := IsLeftSweep(targets[start]);
      ScanInv(targets, start, tolerance,
              ScanState(s.i + 1, if leftward then s.idx - 1 else s.idx + 1, cur, 0.0, cur - s.prev), it + 1, chain + [it])
  {
    var chain' := chain + [it];
    assert ChainTime(targets, start, chain', |chain'|) == targets[it].spawnTime;
    assert forall k :: 0 <= k <= |chain| ==> ChainTime(targets, start, chain', k) == ChainTime(targets, start, chain, k);
    if SortedFrom(targets, start) {
      SortedOnTimeline(targets, start, tolerance, s, it, chain, cur);
    }
  }

  /** The third chain note completes the sweep. */
  lemma ScanComplete(targets: seq<Entity>, start: nat, tolerance: real, s: ScanState, it: nat, chain: seq<nat>, cur: real, dtI: real)
    requires ScanInv(targets, start, tolerance, s, it, chain) && s.i == 3
    requires it < |targets| && s.prev < targets[it].spawnTime
    requires s.cur == 0.0 || targets[it].spawnTime <= s.cur
    requires cur == if s.cur == 0.0 then targets[it].spawnTime else s.cur
    requires dtI == s.dtI
    requires tolerance >= cur - s.prev && Abs((cur - s.prev) - dtI) <= SWEEP_GAP_JITTER_MS
    requires ChainNote(targets, it, 2, IsLeftSweep(targets[start]))
    ensures SweepChain(targets, start, chain + [it])
    ensures SortedFrom(targets, start) ==> SweepGaps(targets, start, chain + [it], tolerance)
  {
    var c := chain + [it];
    assert forall j :: 0 <= j < 3 ==> ChainNote(targets, c[j], j, IsLeftSweep(targets[start]));
    if SortedFrom(targets, start) {
      SortedOnTimeline(targets, start, tolerance, s, it, chain, cur);
    }
  }

  /** `r` is the end position, or one past the third chain note of a sweep from `start`. */
  ghost predicate SweepResult(targets: seq<Entity>, start: nat, tolerance: real, r: nat)
  {
    r == |targets| || exists c :: (SweepChain(targets, start, c) && r == c[2] + 1 &&
      (SortedFrom(targets, start) ==> SweepGaps(targets, start, c, tolerance)))
  }

  /** One step keeps the invariant, with the chain extended exactly when the cursor moves on. */
  lemma ScanStepSound(targets: seq<Entity>, start: nat, tolerance: real, s: ScanState, it: nat, chain: seq<nat>)
    requires ScanInv(targets, start, tolerance, s, it, chain) && it < |targets|
    ensures var step := ScanStep(targets, tolerance, IsLeftSweep(targets[start]), s, it);
      step.Next? ==>
        && (step.state.i == s.i ==> ScanInv(targets, start, tolerance, step.state, it + 1, chain))
        && (step.state.i == s.i + 1 < 4 ==> ScanInv(targets, start, tolerance, step.state, it + 1, chain + [it]))
        && (step.state.i == 4 ==> SweepResult(targets, start, tolerance, it + 1))
        && (step.state.i == s.i || step.state.i == s.i + 1)
  {
    var leftward := IsLeftSweep(targets[start]);
    var t := targets[it].spawnTime;
    if !(s.prev < t) {
      ScanSkip(targets, start, tolerance, s, it, chain);
    } else if s.cur != 0.0 && t > s.cur {
    } else {
      var cur := if s.cur == 0.0 then t else s.cur;
      var dtJ := cur - s.prev;
      var dtI := if s.i == 1 then dtJ else s.dtI;
      if IsContinuous(targets[it].kind) || tolerance < dtJ || SWEEP_GAP_JITTER_MS < Abs(dtJ - dtI) {
      } else if IsCircle(targets[it].kind) && s.idx == OsuColumn(targets[it]) {
        if s.i == 3 {
          ScanComplete(targets, start, tolerance, s, it, chain, cur, dtI);
          var c := chain + [it];
          assert c[2] + 1 == it + 1;
        } else {
          ScanAdvance(targets, start, tolerance, s, it, chain, cur, dtI);
        }
      } else {
        ScanRecord(targets, start, tolerance, s, it, chain, cur, dtI);
      }
    }
  }

  /** Whatever the scan returns from a state satisfying the invariant is the end or one past a sweep. */
  lemma {:induction false} ScanSound(targets: seq<Entity>, start: nat, tolerance: real, s: ScanState, it: nat, chain: seq<nat>)
    requires ScanInv(targets, start, tolerance, s, it, chain)
    ensures SweepResult(targets, start, tolerance, ScanFrom(targets, tolerance, IsLeftSweep(targets[start]), s, it))
    decreases |targets| - it
  {
    if it < |targets| {
      var step := ScanStep(targets, tolerance, IsLeftSweep(targets[start]), s, it);
      ScanStepSound(targets, start, tolerance, s, it, chain);
      if step.Next? && step.state.i < 4 {
        ScanSound(targets, start, tolerance, step.state, it + 1, if step.state.i == s.i then chain else chain + [it]);
      }
    }
  }

  /**
   * A sweep result other than the end position is one past the third chain note
   * of a sweep from `start`; on sorted input its gaps are regular.
   */
  lemma SweepEndSound(targets: seq<Entity>, start: nat, tolerance: real)
    requires start <= |targets|
    ensures start == |targets| ==> SweepEnd(targets, start, tolerance) == |targets|
    ensures SweepResult(targets, start, tolerance, SweepEnd(targets, start, tolerance))
  {
    if start < |targets| {
      var leftward := IsLeftSweep(targets[start]);
      var idx := if leftward then 2 else 1;
      ScanSound(targets, start, tolerance, ScanState(1, idx, targets[start].spawnTime, 0.0, 0.0), start + 1, []);
    }
  }

  /** The scan's local variables and its array of timelines hold the state `st`. */
  ghost predicate ScanMirrors(ti: array<real>, i: nat, idx: int, dtI: real, st: ScanState)
    reads ti
  {
    && ti.Length == 4 && 1 <= i <= 4
    && (i < 3 ==> ti[3] == 0.0) && (i < 2 ==> ti[2] == 0.0)
    && st.i == i && st.idx == idx && st.prev == ti[i - 1] && st.dtI == dtI
    && (i < 4 ==> st.cur == ti[i])
  }

  /** One iteration of the sweep scan over the note at position `it`: stops exactly where the specification stops. */
  method ScanNote(targets: seq<Entity>, tolerance: real, leftward: bool, ti: array<real>, i: nat, idx: int, dtI: real,
                  it: nat, ghost st: ScanState)
    returns (stop: bool, i': nat, idx': int, dtI': real)
    requires it < |targets| && i < 4 && ScanMirrors(ti, i, idx, dtI, st)
    modifies ti
    ensures stop <==> ScanStep(targets, tolerance, leftward, st, it) == Stop
    ensures stop ==> i' == i && idx' == idx && dtI' == dtI
    ensures !stop ==> ScanMirrors(ti, i', idx', dtI', ScanStep(targets, tolerance, leftward, st, it).state)
  {
    stop, i', idx', dtI' := false, i, idx, dtI;
    var t := targets[it].spawnTime;
    if ti[i - 1] < t {
      if ti[i] == 0.0 {
        ti[i] := t;
      } else if t > ti[i] {
        return true, i, idx, dtI;
      }
      var dtJ := ti[i] - ti[i - 1];
      if i == 1 {
        dtI' := dtJ;
      }
      if IsContinuous(targets[it].kind) || tolerance < dtJ || SWEEP_GAP_JITTER_MS < Abs(dtJ - dtI') {
        return true, i, idx, dtI;
      }
      if IsCircle(targets[it].kind) && idx == OsuColumn(targets[it]) {
        dtI' := dtJ;
        idx' := if leftward then idx - 1 else idx + 1;
        i' := i + 1;
      }
    }
  }

  /**
   * Scans forward from the seed at `start` with the timeline array `ti`; on
   * success returns the position one past the fourth note of the sweep,
   * otherwise |targets| (the end position).
   */
  method IsSweepPattern(targets: seq<Entity>, start: nat, tolerance: real) returns (r: nat)
    requires start <= |targets|
    requires start < |targets| ==> targets[start].location.0 < 128 || targets[start].location.0 >= 384
    ensures r == SweepEnd(targets, start, tolerance)
    ensures start == |targets| ==> r == |targets|
  {
    if start == |targets| {
      return |targets|;
    }
    var ti := new real[4](_ => 0.0);
    var dtI: real := 0.0;
    var leftward := targets[start].location.0 > 127;
    var idx: int := if leftward then 2 else 1;
    var i := 1;
    ti[0] := targets[start].spawnTime;
    var it := start + 1;
    ghost var st := ScanState(i, idx, ti[0], 0.0, dtI);
    assert ScanMirrors(ti, i, idx, dtI, st);
    while i < 4 && it != |targets|
      invariant start < it <= |targets|
      invariant ScanMirrors(ti, i, idx, dtI, st)
      invariant ScanFrom(targets, tolerance, leftward, st, it) == SweepEnd(targets, start, tolerance)
      decreases |targets| - it
    {
      var stop;
      stop, i, idx, dtI := ScanNote(targets, tolerance, leftward, ti, i, idx, dtI, it, st);
      if stop {
        break;
      }
      st := ScanStep(targets, tolerance, leftward, st, it).state;
      it := it + 1;
    }
    r := if i >= 4 then it else |targets|;
  }
}
