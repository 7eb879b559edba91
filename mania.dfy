/**
 * The osu!mania transform: the notes after the lead-in are compacted in place
 * into target cubes (one column per mania key, bottom row), subject to two
 * spacing rules; holds become horizontal walls, detected sweeps vertical walls
 * and combo starts side-light colour toggles. A second pass assigns the hands
 * over each run of notes sharing a quantized time.
 */
module ManiaTransformer {
  import opened Common
  import opened BsConstants
  import opened Lists
  import SweepDetector

  /** Position of the first target later than the lead-in time, or |targets| when there is none. */
  function FirstAfterLeadIn(targets: seq<Entity>): (r: nat)
    ensures r <= |targets|
    ensures forall j :: 0 <= j < r ==> targets[j].spawnTime <= LEAD_IN_TIME_MS
    ensures r < |targets| ==> LEAD_IN_TIME_MS < targets[r].spawnTime
  {
    if |targets| == 0 then 0
    else if LEAD_IN_TIME_MS < targets[0].spawnTime then 0
    else 1 + FirstAfterLeadIn(targets[1..])
  }

  /** The note at position a is no later than the one at position b. */
  predicate NoLater(targets: seq<Entity>, a: nat, b: nat)
    requires a < |targets| && b < |targets|
  {
    targets[a].spawnTime <= targets[b].spawnTime
  }

  /** The notes from position `first` on are sorted by time, as the hit objects of an osu! file are. */
  predicate SortedAfter(targets: seq<Entity>, first: nat)
  {
    forall a, b {:trigger NoLater(targets, a, b)} :: first <= a <= b < |targets| ==> NoLater(targets, a, b)
  }

  /** Every note the transform visits lies on the 512-pixel playfield, so its column is 0..3. */
  predicate ColumnsInRange(targets: seq<Entity>)
  {
    forall i :: FirstAfterLeadIn(targets) <= i < |targets| ==> targets[i].location.0 < OS_MAP_WIDTH
  }

  /** Index of the time slot of a (column, row) cell in the flattened 4 x 3 grid. */
  function Cell(col: nat, row: nat): nat
  {
    3 * col + row
  }

  /**
   * The state of the compaction after some source notes: the cubes kept so far
   * (and, for the proofs, the source positions they came from), the walls, the
   * colour toggles in order of emission, the colour flag, the 4 x 3 grid of
   * blocked-until times, the last accepted quantized time, the end of the last
   * sweep wall and the type byte left in the work copy by the last swap.
   */
  datatype ManiaState = ManiaState(
    kept: seq<Entity>, from: seq<nat>, walls: seq<Entity>, toggles: seq<Event>,
    isLeft: bool, slots: seq<real>, lastSample: real, tSample: real, workKind: bv8)

  function ManiaInit(): ManiaState
  {
    ManiaState([], [], [], [], true, seq(12, _ => 0.0), 0.0, 0.0, 0)
  }

  /** A combo start toggles the side-light colour, starting with the second colour. */
  function Toggle(st: ManiaState, q: real): ManiaState
  {
    st.(toggles := st.toggles + [Event(LightSd, q, if st.isLeft then S2_ON else S1_ON)], isLeft := !st.isLeft)
  }

  /** A hold of at least one beat puts a horizontal wall over its column and blocks the upper two rows until its end. */
  function HoldWall(st: ManiaState, src: Entity, col: nat, q: real, sample: real -> real): (r: ManiaState)
    requires col < 4 && |st.slots| == 12
    ensures |r.slots| == 12 && r.kept == st.kept && r.from == st.from && r.workKind == st.workKind
    ensures r.isLeft == st.isLeft && r.toggles == st.toggles
  {
    var dur := sample(src.value - src.spawnTime);
    if 1.0 <= dur then
      st.(slots := st.slots[Cell(col, 2) := src.value][Cell(col, 1) := src.value],
          walls := st.walls + [Entity((col, 1), WALL_HORIZONTAL, q, dur)])
    else st
  }

  /** The grid with every cell of the three columns from `c0` blocked until `until`. */
  function Block(slots: seq<real>, c0: nat, until: real): (r: seq<real>)
    requires |slots| == 12 && c0 <= 1
    ensures |r| == 12
  {
    seq(12, k requires 0 <= k < 12 => if Cell(c0, 0) <= k < Cell(c0 + 3, 0) then until else slots[k])
  }

  /**
   * A sweep from column `col` ending before the note at `endTime` blocks the three
   * columns on its side until 200 ms after that note; its vertical wall is added
   * only when it starts after the end of the last one.
   */
  function SweepWall(st: ManiaState, src: Entity, col: nat, q: real, endTime: real, sample: real -> real): (r: ManiaState)
    requires |st.slots| == 12
    ensures |r.slots| == 12 && r.kept == st.kept && r.from == st.from && r.workKind == st.workKind
    ensures r.isLeft == st.isLeft && r.toggles == st.toggles
  {
    var wall := Entity((if col == 0 then 0 else 2, 2), WALL_VERTICAL, q, sample(endTime - src.spawnTime));
    var st1 := st.(slots := Block(st.slots, if col == 0 then 0 else 1, endTime + BLOCK_PLACEMENT_DOWNTIME_MS));
    if q > st.tSample then st1.(walls := st.walls + [wall], tSample := q + wall.value + 1.0) else st1
  }

  /**
   * The two spacing rules: a new quantized time must be at least 125 ms after the
   * last accepted one, and a cell takes a note only more than 200 ms after it was
   * last blocked. A kept note is swapped into the next free position.
   */
  function Place(targets: seq<Entity>, base: real, st: ManiaState, i: nat, col: nat, q: real): (r: ManiaState)
    requires |st.kept| <= i < |targets| && col < 4 && |st.slots| == 12
    ensures |r.slots| == 12 && |r.kept| <= |st.kept| + 1 && (|st.kept| == |st.from| ==> |r.kept| == |r.from|)
    ensures r.isLeft == st.isLeft && r.toggles == st.toggles && r.walls == st.walls && r.tSample == st.tSample
  {
    var src := targets[i];
    if st.lastSample != q && BLOCK_PLACEMENT_DOWNTIME_NEIGHBOUR_MS > base * (q - st.lastSample) then st
    else if BLOCK_PLACEMENT_DOWNTIME_MS < src.spawnTime - st.slots[Cell(col, 0)] then
      st.(lastSample := q, slots := st.slots[Cell(col, 0) := src.spawnTime],
          kept := st.kept + [Entity((col, 0), st.workKind, q, DIR_FWD)], from := st.from + [i],
          workKind := targets[|st.kept|].kind)
    else st.(lastSample := q)
  }

  /** The cube, wall and spacing part of one source note, after its colour toggle. */
  function NoteStep(targets: seq<Entity>, base: real, sample: real -> real, st: ManiaState, i: nat): (r: ManiaState)
    requires |st.kept| <= i < |targets| && |st.slots| == 12 && targets[i].location.0 < OS_MAP_WIDTH
    ensures |r.slots| == 12
    ensures |r.kept| <= |st.kept| + 1 && (|st.kept| == |st.from| ==> |r.kept| == |r.from|)
    ensures r.isLeft == st.isLeft && r.toggles == st.toggles
  {
    var src := targets[i];
    var col := SweepDetector.OsuColumn(src);
    var q := sample(src.spawnTime);
    if !(IsCircle(src.kind) || IsContinuous(src.kind)) then st
    else if IsContinuous(src.kind) then Place(targets, base, HoldWall(st, src, col, q, sample), i, col, q)
    else if col != 0 && col != 3 then Place(targets, base, st, i, col, q)
    else
      var e := SweepDetector.SweepEnd(targets, i, base);
      if e != |targets| then SweepWall(st, src, col, q, targets[e].spawnTime, sample)
      else Place(targets, base, st, i, col, q)
  }

  /** One source note of the compaction: its colour toggle, then its cube or wall. */
  function ManiaStep(targets: seq<Entity>, base: real, sample: real -> real, st: ManiaState, i: nat): (r: ManiaState)
    requires |st.kept| <= i < |targets| && |st.slots| == 12 && targets[i].location.0 < OS_MAP_WIDTH
    ensures |r.slots| == 12
    ensures |r.kept| <= |st.kept| + 1 && (|st.kept| == |st.from| ==> |r.kept| == |r.from|)
  {
    var src := targets[i];
    var st1 := if IsComboStart(src.kind) then Toggle(st, sample(src.spawnTime)) else st;
    NoteStep(targets, base, sample, st1, i)
  }

  /** The compaction state after the source notes before position k. */
  function ManiaAfter(targets: seq<Entity>, base: real, sample: real -> real, k: nat): (st: ManiaState)
    requires FirstAfterLeadIn(targets) <= k <= |targets| && ColumnsInRange(targets)
    ensures |st.slots| == 12 && |st.kept| == |st.from| && |st.kept| <= k - FirstAfterLeadIn(targets)
    decreases k
  {
    if k == FirstAfterLeadIn(targets) then ManiaInit()
    else ManiaStep(targets, base, sample, ManiaAfter(targets, base, sample, k - 1), k - 1)
  }

  lemma ManiaAfterNext(targets: seq<Entity>, base: real, sample: real -> real, k: nat)
    requires FirstAfterLeadIn(targets) <= k < |targets| && ColumnsInRange(targets)
    ensures ManiaAfter(targets, base, sample, k + 1) == ManiaStep(targets, base, sample, ManiaAfter(targets, base, sample, k), k)
  {
  }

  /** The cube kept for source note i: a circle or hold, on column x/128 in the bottom row, at its quantized time, cut forward. */
  predicate KeptCube(targets: seq<Entity>, sample: real -> real, i: nat, e: Entity)
    requires i < |targets|
  {
    && (IsCircle(targets[i].kind) || IsContinuous(targets[i].kind))
    && e.location == (SweepDetector.OsuColumn(targets[i]), 0)
    && e.spawnTime == sample(targets[i].spawnTime) && e.value == DIR_FWD
  }

  /** Step from `st` to `r` at note i keeps nothing, or appends the note's cube typed with the work copy's byte. */
  predicate KeepsOrAppends(targets: seq<Entity>, sample: real -> real, i: nat, st: ManiaState, r: ManiaState)
    requires i < |targets|
  {
    || (r.kept == st.kept && r.from == st.from && r.workKind == st.workKind)
    || (&& |st.kept| < |targets| && |r.kept| == |st.kept| + 1 && r.kept[..|st.kept|] == st.kept && r.from == st.from + [i]
        && r.kept[|st.kept|].kind == st.workKind && KeptCube(targets, sample, i, r.kept[|st.kept|])
        && r.workKind == targets[|st.kept|].kind)
  }

  /** One note keeps nothing or appends its own cube, typed with the byte the work copy holds. */
  lemma StepKeeps(targets: seq<Entity>, base: real, sample: real -> real, st: ManiaState, i: nat)
    requires |st.kept| <= i < |targets| && |st.slots| == 12 && targets[i].location.0 < OS_MAP_WIDTH
    ensures KeepsOrAppends(targets, sample, i, st, ManiaStep(targets, base, sample, st, i))
  {
    var src := targets[i];
    var col := SweepDetector.OsuColumn(src);
    var q := sample(src.spawnTime);
    var st1 := if IsComboStart(src.kind) then Toggle(st, q) else st;
    if IsContinuous(src.kind) {
      PlaceKeeps(targets, base, HoldWall(st1, src, col, q, sample), i, col, q);
    } else if IsCircle(src.kind) {
      PlaceKeeps(targets, base, st1, i, col, q);
    }
  }

  lemma PlaceKeeps(targets: seq<Entity>, base: real, st: ManiaState, i: nat, col: nat, q: real)
    requires |st.kept| <= i < |targets| && col < 4 && |st.slots| == 12
    ensures var r := Place(targets, base, st, i, col, q);
      || (r.kept == st.kept && r.from == st.from && r.workKind == st.workKind)
      || (&& r.kept == st.kept + [Entity((col, 0), st.workKind, q, DIR_FWD)] && r.from == st.from + [i]
          && r.workKind == targets[|st.kept|].kind)
  {
  }

  /** The kept cubes of `st` come from the notes in [first, k), in order, one per note at most. */
  predicate KeptTrace(targets: seq<Entity>, sample: real -> real, first: nat, k: nat, st: ManiaState)
  {
    && |st.kept| == |st.from| <= k - first && k <= |targets|
    && (forall j :: 0 <= j < |st.from| ==> first <= st.from[j] < k)
    && (forall j1, j2 :: 0 <= j1 < j2 < |st.from| ==> st.from[j1] < st.from[j2])
    && (forall j :: 0 <= j < |st.kept| ==> KeptCube(targets, sample, st.from[j], st.kept[j]))
    && (forall j :: 0 <= j < |st.kept| ==> st.kept[j].kind == (if j == 0 then 0 else targets[j - 1].kind))
    && st.workKind == (if |st.kept| == 0 then 0 else targets[|st.kept| - 1].kind)
  }

  lemma KeptTraceStep(targets: seq<Entity>, sample: real -> real, first: nat, k: nat, st: ManiaState, r: ManiaState)
    requires first <= k < |targets| && KeptTrace(targets, sample, first, k, st)
    requires KeepsOrAppends(targets, sample, k, st, r)
    ensures KeptTrace(targets, sample, first, k + 1, r)
  {
    if r.kept != st.kept {
      var n := |st.kept|;
      assert forall j :: 0 <= j < n ==> r.kept[j] == st.kept[j];
    }
  }

  /**
   * The kept cubes come from circles and holds after the lead-in, in source
   * order, at most one per note; the k-th cube carries the type byte of the
   * source entity at position k - 1 (0 for the first), left in the work copy by
   * the swaps.
   */
  lemma {:induction false} KeptFromSource(targets: seq<Entity>, base: real, sample: real -> real, k: nat)
    requires FirstAfterLeadIn(targets) <= k <= |targets| && ColumnsInRange(targets)
    ensures KeptTrace(targets, sample, FirstAfterLeadIn(targets), k, ManiaAfter(targets, base, sample, k))
    decreases k
  {
    if k > FirstAfterLeadIn(targets) {
      KeptFromSource(targets, base, sample, k - 1);
      var prev := ManiaAfter(targets, base, sample, k - 1);
      StepKeeps(targets, base, sample, prev, k - 1);
      KeptTraceStep(targets, sample, FirstAfterLeadIn(targets), k - 1, prev, ManiaStep(targets, base, sample, prev, k - 1));
    }
  }

  /** Two quantized times are on one timeline or at least 125 ms apart at the beat length `base`. */
  predicate Spaced(base: real, a: real, b: real)
  {
    a == b || BLOCK_PLACEMENT_DOWNTIME_NEIGHBOUR_MS <= base * (b - a)
  }

  lemma SpacedTrans(base: real, a: real, b: real, c: real)
    requires base > 0.0 && a <= b && Spaced(base, a, b) && Spaced(base, b, c)
    ensures b <= c && a <= c && Spaced(base, a, c)
  {
    if b != c {
      if a != b {
        assert base * (c - a) == base * (c - b) + base * (b - a);
      }
    }
  }

  /** A step moves the last accepted timeline only forward by 125 ms or more, and a cube it keeps is on the new timeline. */
  predicate TimelineStep(base: real, st: ManiaState, r: ManiaState)
  {
    && Spaced(base, st.lastSample, r.lastSample)
    && (|r.kept| == |st.kept| || |r.kept| == |st.kept| + 1)
    && r.kept[..|st.kept|] == st.kept
    && (|r.kept| == |st.kept| + 1 ==> r.kept[|st.kept|].spawnTime == r.lastSample)
  }

  lemma PlaceTimeline(targets: seq<Entity>, base: real, st: ManiaState, i: nat, col: nat, q: real)
    requires |st.kept| <= i < |targets| && col < 4 && |st.slots| == 12
    ensures TimelineStep(base, st, Place(targets, base, st, i, col, q))
  {
  }

  lemma StepTimeline(targets: seq<Entity>, base: real, sample: real -> real, st: ManiaState, i: nat)
    requires |st.kept| <= i < |targets| && |st.slots| == 12 && targets[i].location.0 < OS_MAP_WIDTH
    ensures TimelineStep(base, st, ManiaStep(targets, base, sample, st, i))
  {
    var src := targets[i];
    var col := SweepDetector.OsuColumn(src);
    var q := sample(src.spawnTime);
    var st1 := if IsComboStart(src.kind) then Toggle(st, q) else st;
    if IsContinuous(src.kind) {
      PlaceTimeline(targets, base, HoldWall(st1, src, col, q, sample), i, col, q);
    } else if IsCircle(src.kind) {
      PlaceTimeline(targets, base, st1, i, col, q);
    }
  }

  /** The kept cubes lie on non-decreasing timelines, pairwise spaced, none after the last accepted one. */
  predicate SpacedTrace(base: real, st: ManiaState)
  {
    && (forall j :: 0 <= j < |st.kept| ==> st.kept[j].spawnTime <= st.lastSample && Spaced(base, st.kept[j].spawnTime, st.lastSample))
    && (forall j1, j2 :: 0 <= j1 < j2 < |st.kept| ==>
          st.kept[j1].spawnTime <= st.kept[j2].spawnTime && Spaced(base, st.kept[j1].spawnTime, st.kept[j2].spawnTime))
  }

  lemma SpacedTraceStep(base: real, st: ManiaState, r: ManiaState)
    requires base > 0.0 && SpacedTrace(base, st) && TimelineStep(base, st, r)
    ensures SpacedTrace(base, r)
  {
    var n := |st.kept|;
    assert forall j :: 0 <= j < n ==> r.kept[j] == st.kept[j];
    forall j | 0 <= j < n
      ensures r.kept[j].spawnTime <= r.lastSample && Spaced(base, r.kept[j].spawnTime, r.lastSample)
    {
      SpacedTrans(base, st.kept[j].spawnTime, st.lastSample, r.lastSample);
    }
  }

  /**
   * Consecutive kept cubes share a quantized time or lie at least 125 ms apart
   * (at the beat length `base`); in particular the kept cubes are sorted by time.
   */
  lemma {:induction false} KeptSpaced(targets: seq<Entity>, base: real, sample: real -> real, k: nat)
    requires FirstAfterLeadIn(targets) <= k <= |targets| && ColumnsInRange(targets) && base > 0.0
    ensures SpacedTrace(base, ManiaAfter(targets, base, sample, k))
    decreases k
  {
    if k > FirstAfterLeadIn(targets) {
      KeptSpaced(targets, base, sample, k - 1);
      var prev := ManiaAfter(targets, base, sample, k - 1);
      StepTimeline(targets, base, sample, prev, k - 1);
      SpacedTraceStep(base, prev, ManiaStep(targets, base, sample, prev, k - 1));
    }
  }

  /**
   * A step at note i from `st` never lowers a bottom-row slot below the note's
   * own time, and keeps a cube only when the note lies more than 200 ms after
   * its cell's slot.
   */
  predicate CellStep(targets: seq<Entity>, i: nat, st: ManiaState, r: ManiaState)
    requires i < |targets| && |st.slots| == 12 && |r.slots| == 12
  {
    && SlotRaised(st.slots, r.slots, 0, targets[i].spawnTime) && SlotRaised(st.slots, r.slots, 1, targets[i].spawnTime)
    && SlotRaised(st.slots, r.slots, 2, targets[i].spawnTime) && SlotRaised(st.slots, r.slots, 3, targets[i].spawnTime)
    && (|r.kept| == |st.kept| ==> r.kept == st.kept && r.from == st.from)
    && (|r.kept| != |st.kept| ==>
          && |r.kept| == |st.kept| + 1 && r.kept[..|st.kept|] == st.kept && r.from == st.from + [i]
          && r.kept[|st.kept|].location == (SweepDetector.OsuColumn(targets[i]), 0) && SweepDetector.OsuColumn(targets[i]) < 4
          && BLOCK_PLACEMENT_DOWNTIME_MS < targets[i].spawnTime - st.slots[Cell(SweepDetector.OsuColumn(targets[i]), 0)]
          && r.slots[Cell(SweepDetector.OsuColumn(targets[i]), 0)] == targets[i].spawnTime)
  }

  /** The bottom-row slot of column c is unchanged or at least t. */
  predicate SlotRaised(slots: seq<real>, slots': seq<real>, c: nat, t: real)
    requires |slots| == 12 && |slots'| == 12 && c < 4
  {
    slots'[Cell(c, 0)] == slots[Cell(c, 0)] || t <= slots'[Cell(c, 0)]
  }

  lemma PlaceCell(targets: seq<Entity>, base: real, st: ManiaState, st1: ManiaState, i: nat, col: nat, q: real)
    requires |st1.kept| <= i < |targets| && col < 4 && |st.slots| == 12 && |st1.slots| == 12
    requires col == SweepDetector.OsuColumn(targets[i]) && st1.kept == st.kept && st1.from == st.from
    requires forall c :: 0 <= c < 4 ==> st1.slots[Cell(c, 0)] == st.slots[Cell(c, 0)]
    ensures CellStep(targets, i, st, Place(targets, base, st1, i, col, q))
  {
  }

  lemma HoldCell(targets: seq<Entity>, base: real, sample: real -> real, st: ManiaState, st1: ManiaState, i: nat, col: nat, q: real)
    requires |st1.kept| <= i < |targets| && col < 4 && st1.slots == st.slots && |st.slots| == 12
    requires col == SweepDetector.OsuColumn(targets[i]) && st1.kept == st.kept && st1.from == st.from
    ensures CellStep(targets, i, st, Place(targets, base, HoldWall(st1, targets[i], col, q, sample), i, col, q))
  {
    var st2 := HoldWall(st1, targets[i], col, q, sample);
    assert forall c :: 0 <= c < 4 ==> st2.slots[Cell(c, 0)] == st.slots[Cell(c, 0)];
    PlaceCell(targets, base, st, st2, i, col, q);
  }

  lemma SweepCell(targets: seq<Entity>, sample: real -> real, st: ManiaState, st1: ManiaState, i: nat, col: nat, q: real, endTime: real)
    requires i < |targets| && st1.slots == st.slots && |st.slots| == 12 && st1.kept == st.kept && st1.from == st.from
    requires targets[i].spawnTime <= endTime
    ensures CellStep(targets, i, st, SweepWall(st1, targets[i], col, q, endTime, sample))
  {
  }

  lemma StepCell(targets: seq<Entity>, base: real, sample: real -> real, st: ManiaState, i: nat)
    requires |st.kept| <= i < |targets| && |st.slots| == 12 && targets[i].location.0 < OS_MAP_WIDTH
    requires SortedAfter(targets, i)
    ensures CellStep(targets, i, st, ManiaStep(targets, base, sample, st, i))
  {
    var src := targets[i];
    var col := SweepDetector.OsuColumn(src);
    var q := sample(src.spawnTime);
    var st1 := if IsComboStart(src.kind) then Toggle(st, q) else st;
    if IsContinuous(src.kind) {
      HoldCell(targets, base, sample, st, st1, i, col, q);
    } else if IsCircle(src.kind) {
      if col == 0 || col == 3 {
        var e := SweepDetector.SweepEnd(targets, i, base);
        if e != |targets| {
          assert NoLater(targets, i, e);
          SweepCell(targets, sample, st, st1, i, col, q, targets[e].spawnTime);
          return;
        }
      }
      PlaceCell(targets, base, st, st1, i, col, q);
    }
  }

  lemma CellStepAt(targets: seq<Entity>, base: real, sample: real -> real, i: nat)
    requires FirstAfterLeadIn(targets) <= i < |targets| && ColumnsInRange(targets) && SortedAfter(targets, FirstAfterLeadIn(targets))
    ensures CellStep(targets, i, ManiaAfter(targets, base, sample, i), ManiaAfter(targets, base, sample, i + 1))
  {
    StepCell(targets, base, sample, ManiaAfter(targets, base, sample, i), i);
  }

  /**
   * Kept cube j sits in the bottom-row cell of its source note's column, whose
   * slot is at least the time of that note.
   */
  predicate CubeInCell(targets: seq<Entity>, st: ManiaState, j: nat)
  {
    && j < |st.kept| == |st.from| && st.from[j] < |targets| && |st.slots| == 12
    && st.kept[j].location == (SweepDetector.OsuColumn(targets[st.from[j]]), 0) && st.kept[j].location.0 < 4
    && targets[st.from[j]].spawnTime <= st.slots[Cell(st.kept[j].location.0, 0)]
  }

  /** Kept cubes j1 and j2 in one cell come from notes more than 200 ms apart. */
  predicate CellApart(targets: seq<Entity>, st: ManiaState, j1: nat, j2: nat)
    requires j1 < |st.kept| && j2 < |st.kept| == |st.from| && st.from[j1] < |targets| && st.from[j2] < |targets|
  {
    st.kept[j1].location == st.kept[j2].location ==>
      BLOCK_PLACEMENT_DOWNTIME_MS < targets[st.from[j2]].spawnTime - targets[st.from[j1]].spawnTime
  }

  /**
   * The kept cubes come from notes in [first, k); each sits in its note's cell,
   * whose bottom-row slot is at least the note's time, and two kept cubes in one
   * cell come from notes more than 200 ms apart.
   */
  predicate CellTrace(targets: seq<Entity>, first: nat, k: nat, st: ManiaState)
  {
    && |st.slots| == 12 && |st.kept| == |st.from| && k <= |targets|
    && (forall j :: 0 <= j < |st.from| ==> first <= st.from[j] < k)
    && (forall j {:trigger CubeInCell(targets, st, j)} :: 0 <= j < |st.from| ==> CubeInCell(targets, st, j))
    && (forall j1, j2 {:trigger CellApart(targets, st, j1, j2)} :: 0 <= j1 < j2 < |st.from| ==> CellApart(targets, st, j1, j2))
  }

  lemma CellTraceStep(targets: seq<Entity>, first: nat, k: nat, k': nat, st: ManiaState, r: ManiaState)
    requires first <= k < |targets| && k' == k + 1 && |r.slots| == 12 && SortedAfter(targets, first)
    requires CellTrace(targets, first, k, st) && CellStep(targets, k, st, r)
    ensures CellTrace(targets, first, k', r)
  {
    var n := |st.kept|;
    assert forall j :: 0 <= j < n ==> r.from[j] == st.from[j] && r.kept[j] == st.kept[j];
    forall j | 0 <= j < |r.from|
      ensures CubeInCell(targets, r, j)
    {
      if j < n {
        assert CubeInCell(targets, st, j) && NoLater(targets, st.from[j], k);
      }
    }
    forall j1, j2 | 0 <= j1 < j2 < |r.from|
      ensures CellApart(targets, r, j1, j2)
    {
      if j2 < n {
        assert CellApart(targets, st, j1, j2);
      } else {
        assert CubeInCell(targets, st, j1);
      }
    }
  }

  /**
   * On notes sorted by time after the lead-in, two kept cubes in the same cell
   * come from source notes more than 200 ms apart.
   */
  lemma {:induction false} KeptCellsSpaced(targets: seq<Entity>, base: real, sample: real -> real, k: nat)
    requires FirstAfterLeadIn(targets) <= k <= |targets| && ColumnsInRange(targets)
    requires SortedAfter(targets, FirstAfterLeadIn(targets))
    ensures CellTrace(targets, FirstAfterLeadIn(targets), k, ManiaAfter(targets, base, sample, k))
    decreases k
  {
    if k > FirstAfterLeadIn(targets) {
      KeptCellsSpaced(targets, base, sample, k - 1);
      CellStepAt(targets, base, sample, k - 1);
      CellTraceStep(targets, FirstAfterLeadIn(targets), k - 1, k, ManiaAfter(targets, base, sample, k - 1), ManiaAfter(targets, base, sample, k));
    }
  }

  /**
   * A mania wall is a horizontal wall over rows 1-2 of a column lasting at least
   * one beat, or a vertical wall at the left or right of the top row.
   */
  predicate WallShape(w: Entity)
  {
    || (w.kind == WALL_HORIZONTAL && w.location.0 < 4 && w.location.1 == 1 && 1.0 <= w.value)
    || (w.kind == WALL_VERTICAL && (w.location == (0, 2) || w.location == (2, 2)))
  }

  /**
   * A step adds at most one wall: a horizontal one leaves the sweep end alone, a
   * vertical one starts after the last sweep end and moves it past its own end.
   */
  predicate WallStep(st: ManiaState, r: ManiaState)
  {
    && (|r.walls| == |st.walls| || |r.walls| == |st.walls| + 1) && r.walls[..|st.walls|] == st.walls
    && (|r.walls| == |st.walls| ==> r.tSample == st.tSample)
    && (|r.walls| == |st.walls| + 1 ==>
          var w := r.walls[|st.walls|];
          && WallShape(w)
          && (w.kind == WALL_HORIZONTAL ==> r.tSample == st.tSample)
          && (w.kind == WALL_VERTICAL ==> st.tSample < w.spawnTime && 0.0 <= w.value && r.tSample == w.spawnTime + w.value + 1.0))
  }

  /** The quantizer maps non-negative durations to non-negative beats. */
  ghost predicate NonNegativeSampler(sample: real -> real)
  {
    forall x :: 0.0 <= x ==> 0.0 <= sample(x)
  }

  lemma HoldWalls(targets: seq<Entity>, base: real, sample: real -> real, st: ManiaState, i: nat, col: nat, q: real)
    requires |st.kept| <= i < |targets| && col < 4 && |st.slots| == 12
    ensures WallStep(st, Place(targets, base, HoldWall(st, targets[i], col, q, sample), i, col, q))
  {
  }

  lemma SweepWalls(src: Entity, sample: real -> real, st: ManiaState, col: nat, q: real, endTime: real)
    requires |st.slots| == 12 && src.spawnTime <= endTime && NonNegativeSampler(sample)
    ensures WallStep(st, SweepWall(st, src, col, q, endTime, sample))
  {
    assert 0.0 <= sample(endTime - src.spawnTime);
  }

  lemma StepWalls(targets: seq<Entity>, base: real, sample: real -> real, st: ManiaState, i: nat)
    requires |st.kept| <= i < |targets| && |st.slots| == 12 && targets[i].location.0 < OS_MAP_WIDTH
    requires SortedAfter(targets, i) && NonNegativeSampler(sample)
    ensures WallStep(st, ManiaStep(targets, base, sample, st, i))
  {
    var src := targets[i];
    var col := SweepDetector.OsuColumn(src);
    var q := sample(src.spawnTime);
    var st1 := if IsComboStart(src.kind) then Toggle(st, q) else st;
    if IsContinuous(src.kind) {
      HoldWalls(targets, base, sample, st1, i, col, q);
    } else if IsCircle(src.kind) && (col == 0 || col == 3) {
      var e := SweepDetector.SweepEnd(targets, i, base);
      if e != |targets| {
        assert NoLater(targets, i, e);
        SweepWalls(src, sample, st1, col, q, targets[e].spawnTime);
      }
    }
  }

  /**
   * Every wall has a mania wall's shape, and the vertical walls never overlap:
   * each starts more than one beat after the end of the one before, and all end
   * before the recorded sweep end.
   */
  predicate WallTrace(st: ManiaState)
  {
    && (forall j :: 0 <= j < |st.walls| ==> WallShape(st.walls[j]))
    && (forall j :: 0 <= j < |st.walls| && st.walls[j].kind == WALL_VERTICAL ==>
          st.walls[j].spawnTime + st.walls[j].value + 1.0 <= st.tSample)
    && (forall j1, j2 :: 0 <= j1 < j2 < |st.walls| && st.walls[j1].kind == WALL_VERTICAL && st.walls[j2].kind == WALL_VERTICAL ==>
          st.walls[j1].spawnTime + st.walls[j1].value + 1.0 < st.walls[j2].spawnTime)
  }

  lemma WallTraceStep(st: ManiaState, r: ManiaState)
    requires WallTrace(st) && WallStep(st, r)
    ensures WallTrace(r)
  {
    var n := |st.walls|;
    assert forall j :: 0 <= j < n ==> r.walls[j] == st.walls[j];
  }

  lemma WallTraceNext(targets: seq<Entity>, base: real, sample: real -> real, k: nat)
    requires FirstAfterLeadIn(targets) < k <= |targets| && ColumnsInRange(targets)
    requires SortedAfter(targets, FirstAfterLeadIn(targets)) && NonNegativeSampler(sample)
    requires WallTrace(ManiaAfter(targets, base, sample, k - 1))
    ensures WallTrace(ManiaAfter(targets, base, sample, k))
  {
    var prev := ManiaAfter(targets, base, sample, k - 1);
    StepWalls(targets, base, sample, prev, k - 1);
    WallTraceStep(prev, ManiaStep(targets, base, sample, prev, k - 1));
  }

  /**
   * On notes sorted by time, with a quantizer that keeps durations non-negative,
   * every wall is a horizontal hold wall or a vertical sweep wall, and the sweep
   * walls never overlap.
   */
  lemma {:induction false} WallsWellFormed(targets: seq<Entity>, base: real, sample: real -> real, k: nat)
    requires FirstAfterLeadIn(targets) <= k <= |targets| && ColumnsInRange(targets)
    requires SortedAfter(targets, FirstAfterLeadIn(targets)) && NonNegativeSampler(sample)
    ensures WallTrace(ManiaAfter(targets, base, sample, k))
    decreases k
  {
    if k > FirstAfterLeadIn(targets) {
      WallsWellFormed(targets, base, sample, k - 1);
      WallTraceNext(targets, base, sample, k);
    }
  }

  /** The number of combo starts among the notes in [lo, hi). */
  function ComboCount(targets: seq<Entity>, lo: nat, hi: nat): (r: nat)
    requires hi <= |targets|
    ensures lo <= hi ==> r <= hi - lo
    decreases hi
  {
    if hi <= lo then 0
    else ComboCount(targets, lo, hi - 1) + (if IsComboStart(targets[hi - 1].kind) then 1 else 0)
  }

  /** The side-light events alternate between the second and the first colour, one per combo start so far. */
  predicate ToggleTrace(targets: seq<Entity>, first: nat, k: nat, st: ManiaState)
    requires k <= |targets|
  {
    && |st.toggles| == ComboCount(targets, first, k)
    && st.isLeft == (|st.toggles| % 2 == 0)
    && forall j :: 0 <= j < |st.toggles| ==>
         st.toggles[j].eventType == LightSd && st.toggles[j].value == (if j % 2 == 0 then S2_ON else S1_ON)
  }

  lemma ToggleTraceNext(targets: seq<Entity>, base: real, sample: real -> real, k: nat)
    requires FirstAfterLeadIn(targets) < k <= |targets| && ColumnsInRange(targets)
    requires ToggleTrace(targets, FirstAfterLeadIn(targets), k - 1, ManiaAfter(targets, base, sample, k - 1))
    ensures ToggleTrace(targets, FirstAfterLeadIn(targets), k, ManiaAfter(targets, base, sample, k))
  {
    var st := ManiaAfter(targets, base, sample, k - 1);
    var r := ManiaStep(targets, base, sample, st, k - 1);
    if IsComboStart(targets[k - 1].kind) {
      assert forall j :: 0 <= j < |st.toggles| ==> r.toggles[j] == st.toggles[j];
    }
  }

  /**
   * Each combo start after the lead-in emits one side-light event; the events
   * alternate between the second colour and the first, starting with the
   * second, and the colour flag tells which comes next.
   */
  lemma {:induction false} TogglesAlternate(targets: seq<Entity>, base: real, sample: real -> real, k: nat)
    requires FirstAfterLeadIn(targets) <= k <= |targets| && ColumnsInRange(targets)
    ensures ToggleTrace(targets, FirstAfterLeadIn(targets), k, ManiaAfter(targets, base, sample, k))
    decreases k
  {
    if k > FirstAfterLeadIn(targets) {
      TogglesAlternate(targets, base, sample, k - 1);
      ToggleTraceNext(targets, base, sample, k);
    }
  }

  /** The 4 x 3 array of blocked-until times holds the flattened grid `s`. */
  ghost predicate GridIs(slots: array2<real>, s: seq<real>)
    reads slots
  {
    && slots.Length0 == 4 && slots.Length1 == 3 && |s| == 12
    && forall c, r :: 0 <= c < 4 && 0 <= r < 3 ==> slots[c, r] == s[Cell(c, r)]
  }

  /** Blocks every cell of the three columns from `c0` until `until`. */
  method BlockColumns(slots: array2<real>, c0: nat, until: real)
    requires slots.Length0 == 4 && slots.Length1 == 3 && c0 <= 1
    modifies slots
    ensures forall c, r :: 0 <= c < 4 && 0 <= r < 3 ==>
      slots[c, r] == (if c0 <= c < c0 + 3 then until else old(slots[c, r]))
  {
    if c0 == 1 {
      slots[1, 2], slots[2, 2], slots[3, 2] := until, until, until;
      slots[1, 1], slots[2, 1], slots[3, 1] := until, until, until;
      slots[1, 0], slots[2, 0], slots[3, 0] := until, until, until;
    } else {
      slots[0, 2], slots[1, 2], slots[2, 2] := until, until, until;
      slots[0, 1], slots[1, 1], slots[2, 1] := until, until, until;
      slots[0, 0], slots[1, 0], slots[2, 0] := until, until, until;
    }
  }

  /** Blocks the upper two rows of a hold's column and adds its wall, when the hold lasts a beat or more. */
  method PushHoldWall(slots: array2<real>, walls: seq<Entity>, src: Entity, col: nat, q: real, sample: real -> real, ghost st: ManiaState)
    returns (walls': seq<Entity>)
    requires col < 4 && GridIs(slots, st.slots) && walls == st.walls
    modifies slots
    ensures GridIs(slots, HoldWall(st, src, col, q, sample).slots) && walls' == HoldWall(st, src, col, q, sample).walls
  {
    var obs := Entity((col, 1), WALL_HORIZONTAL, q, sample(src.value - src.spawnTime));
    walls' := walls;
    if 1.0 <= obs.value {
      slots[col, 2] := src.value;
      slots[col, 1] := src.value;
      walls' := walls + [obs];
    }
  }

  /** Blocks the three columns on the seed's side and adds the sweep wall unless it would overlap the last one. */
  method PushSweepWall(slots: array2<real>, walls: seq<Entity>, tSample: real, src: Entity, col: nat, q: real, endTime: real,
                       sample: real -> real, ghost st: ManiaState)
    returns (walls': seq<Entity>, tSample': real)
    requires GridIs(slots, st.slots) && walls == st.walls && tSample == st.tSample
    modifies slots
    ensures var r := SweepWall(st, src, col, q, endTime, sample);
      GridIs(slots, r.slots) && walls' == r.walls && tSample' == r.tSample
  {
    var c0 := if col != 0 then 1 else 0;
    BlockColumns(slots, c0, endTime + BLOCK_PLACEMENT_DOWNTIME_MS);
    forall c, r | 0 <= c < 4 && 0 <= r < 3
      ensures slots[c, r] == Block(st.slots, c0, endTime + BLOCK_PLACEMENT_DOWNTIME_MS)[Cell(c, r)]
    {
      assert Cell(c0, 0) <= Cell(c, r) < Cell(c0 + 3, 0) <==> c0 <= c < c0 + 3;
    }
    var obs := Entity((if col != 0 then 2 else 0, 2), WALL_VERTICAL, q, sample(endTime - src.spawnTime));
    walls', tSample' := walls, tSample;
    if obs.spawnTime > tSample {
      walls' := walls + [obs];
      tSample' := obs.spawnTime + obs.value + 1.0;
    }
  }

  /**
   * Applies the two spacing rules to the note at position i; a kept note is
   * swapped with the entity at `dst`, which becomes the new work copy.
   */
  method PlaceNote(a: array<Entity>, slots: array2<real>, dst: nat, obj: Entity, lastSample: real, base: real,
                   i: nat, col: nat, ghost targets: seq<Entity>, ghost st: ManiaState)
    returns (dst': nat, obj': Entity, lastSample': real)
    requires a.Length == |targets| && dst <= i < |targets| && col < 4 && a[i] == targets[i]
    requires dst == |st.kept| && a[..dst] == st.kept && a[dst..] == targets[dst..]
    requires GridIs(slots, st.slots) && lastSample == st.lastSample
    requires obj == Entity((col, 0), st.workKind, obj.spawnTime, DIR_FWD)
    modifies a, slots
    ensures var r := Place(targets, base, st, i, col, obj.spawnTime);
      && dst' == |r.kept| && a[..dst'] == r.kept && a[dst'..] == targets[dst'..]
      && GridIs(slots, r.slots) && lastSample' == r.lastSample && obj'.kind == r.workKind
  {
    dst', obj', lastSample' := dst, obj, lastSample;
    if lastSample != obj.spawnTime {
      if BLOCK_PLACEMENT_DOWNTIME_NEIGHBOUR_MS > base * (obj.spawnTime - lastSample) {
        return;
      }
      lastSample' := obj.spawnTime;
    }
    if BLOCK_PLACEMENT_DOWNTIME_MS < a[i].spawnTime - slots[col, 0] {
      slots[col, 0] := a[i].spawnTime;
      assert forall x :: dst < x < a.Length ==> a[x] == targets[x] by {
        forall x | dst < x < a.Length ensures a[x] == targets[x] { assert a[x] == a[dst..][x - dst]; }
      }
      obj', a[dst] := a[dst], obj;
      dst' := dst + 1;
      assert a[..dst'] == st.kept + [obj];
      assert a[dst'..] == targets[dst'..];
    }
  }

  /** Pushes a side-light colour event to the front of the event list and flips the colour. */
  method PushToggle(evOut: seq<Event>, isLeft: bool, q: real, ghost evList: seq<Event>, ghost st: ManiaState)
    returns (evOut': seq<Event>, isLeft': bool)
    requires evOut == Reverse(st.toggles) + evList && isLeft == st.isLeft
    ensures evOut' == Reverse(Toggle(st, q).toggles) + evList && isLeft' == Toggle(st, q).isLeft
  {
    var toggle := Event(LightSd, q, if isLeft then S2_ON else S1_ON);
    ghost var before := Reverse(st.toggles);
    ReversePush(st.toggles, toggle);
    assert Toggle(st, q).toggles == st.toggles + [toggle];
    assert [toggle] + (before + evList) == ([toggle] + before) + evList;
    evOut', isLeft' := [toggle] + evOut, !isLeft;
  }

  /**
   * The body of the compaction loop for the note at `src`, after its colour
   * toggle: a hold's wall, a sweep's wall (which skips the note) or the two
   * spacing rules.
   */
  method ProcessNote(a: array<Entity>, slots: array2<real>, src: nat, dst: nat, obj: Entity, lastSample: real, tSample: real,
                     walls: seq<Entity>, base: real, sample: real -> real, ghost targets: seq<Entity>, ghost st: ManiaState)
    returns (dst': nat, obj': Entity, lastSample': real, tSample': real, walls': seq<Entity>)
    requires a.Length == |targets| && dst <= src < |targets| && targets[src].location.0 < OS_MAP_WIDTH
    requires dst == |st.kept| && a[..dst] == st.kept && a[dst..] == targets[dst..]
    requires GridIs(slots, st.slots) && obj.kind == st.workKind
    requires lastSample == st.lastSample && tSample == st.tSample && walls == st.walls
    modifies a, slots
    ensures var r := NoteStep(targets, base, sample, st, src);
      && dst' == |r.kept| && a[..dst'] == r.kept && a[dst'..] == targets[dst'..]
      && GridIs(slots, r.slots) && obj'.kind == r.workKind
      && lastSample' == r.lastSample && tSample' == r.tSample && walls' == r.walls
  {
    assert a[src] == targets[src];
    var x := a[src];
    var col := x.location.0 / 128;
    assert col == SweepDetector.OsuColumn(targets[src]);
    dst', obj', lastSample', tSample', walls' := dst, obj, lastSample, tSample, walls;
    obj' := obj'.(location := (col, 0), value := DIR_FWD, spawnTime := sample(x.spawnTime));
    if IsCircle(x.kind) || IsContinuous(x.kind) {
      ghost var st1 := st;
      if IsContinuous(x.kind) {
        walls' := PushHoldWall(slots, walls, x, col, obj'.spawnTime, sample, st);
        st1 := HoldWall(st, x, col, obj'.spawnTime, sample);
      } else if col == 0 || col == 3 {
        SweepDetector.SweepEndFrame(a[..], targets, src, base);
        var e := SweepDetector.IsSweepPattern(a[..], src, base);
        if e != a.Length {
          assert a[e] == targets[e];
          walls', tSample' := PushSweepWall(slots, walls, tSample, x, col, obj'.spawnTime, a[e].spawnTime, sample, st);
          assert NoteStep(targets, base, sample, st, src) == SweepWall(st, x, col, obj'.spawnTime, a[e].spawnTime, sample);
          return;
        }
      }
      assert NoteStep(targets, base, sample, st, src) == Place(targets, base, st1, src, col, obj'.spawnTime);
      dst', obj', lastSample' := PlaceNote(a, slots, dst, obj', lastSample, base, src, col, targets, st1);
    }
  }

  /** The variables of the compaction loop hold the state `st` of the specification. */
  ghost predicate Mirrors(a: array<Entity>, slots: array2<real>, targets: seq<Entity>, dst: nat, obj: Entity,
                          isLeft: bool, lastSample: real, tSample: real, walls: seq<Entity>, evOut: seq<Event>,
                          evList: seq<Event>, st: ManiaState)
    reads a, slots
  {
    && a.Length == |targets| && dst == |st.kept| <= a.Length
    && a[..dst] == st.kept && a[dst..] == targets[dst..]
    && GridIs(slots, st.slots) && obj.kind == st.workKind && isLeft == st.isLeft
    && lastSample == st.lastSample && tSample == st.tSample && walls == st.walls
    && evOut == Reverse(st.toggles) + evList
  }

  /** One iteration of the compaction loop: the colour toggle of the note at `src`, then its cube or wall. */
  method VisitNote(a: array<Entity>, slots: array2<real>, src: nat, dst: nat, obj: Entity, isLeft: bool,
                   lastSample: real, tSample: real, walls: seq<Entity>, evOut: seq<Event>, base: real, sample: real -> real,
                   ghost targets: seq<Entity>, ghost evList: seq<Event>, ghost st: ManiaState)
    returns (dst': nat, obj': Entity, isLeft': bool, lastSample': real, tSample': real, walls': seq<Entity>, evOut': seq<Event>)
    requires dst <= src < |targets| && targets[src].location.0 < OS_MAP_WIDTH
    requires Mirrors(a, slots, targets, dst, obj, isLeft, lastSample, tSample, walls, evOut, evList, st)
    modifies a, slots
    ensures Mirrors(a, slots, targets, dst', obj', isLeft', lastSample', tSample', walls', evOut', evList,
                    ManiaStep(targets, base, sample, st, src))
  {
    assert a[src] == targets[src];
    var x := a[src];
    var q := sample(x.spawnTime);
    ghost var st1 := st;
    isLeft', evOut' := isLeft, evOut;
    if IsComboStart(x.kind) {
      evOut', isLeft' := PushToggle(evOut, isLeft, q, evList, st);
      st1 := Toggle(st, q);
    }
    dst', obj', lastSample', tSample', walls' := ProcessNote(a, slots, src, dst, obj, lastSample, tSample, walls, base, sample, targets, st1);
  }

  /**
   * Rewrites the notes after the lead-in in place: kept cubes are swapped into
   * the front of `a` and the first `n` entries are the result; walls are
   * collected and colour toggles pushed to the front of the event list.
   */
  method CompactTargets(a: array<Entity>, base: real, evList: seq<Event>, sample: real -> real)
    returns (n: nat, walls: seq<Entity>, evOut: seq<Event>)
    requires ColumnsInRange(a[..])
    modifies a
    ensures var st := ManiaAfter(old(a[..]), base, sample, a.Length);
      && n <= a.Length && a[..n] == st.kept && walls == st.walls && evOut == Reverse(st.toggles) + evList
  {
    ghost var targets := a[..];
    var first := FirstAfterLeadIn(a[..]);
    var dst := 0;
    var obj := Entity((0, 0), 0, 0.0, 0.0);
    var isLeft := true;
    var slots := new real[4, 3]((_, _) => 0.0);
    var lastSample := 0.0;
    var tSample := 0.0;
    walls, evOut := [], evList;
    ghost var st := ManiaInit();
    for src := first to a.Length
      invariant st == ManiaAfter(targets, base, sample, src)
      invariant Mirrors(a, slots, targets, dst, obj, isLeft, lastSample, tSample, walls, evOut, evList, st)
    {
      dst, obj, isLeft, lastSample, tSample, walls, evOut :=
        VisitNote(a, slots, src, dst, obj, isLeft, lastSample, tSample, walls, evOut, base, sample, targets, evList, st);
      ManiaAfterNext(targets, base, sample, src);
      st := ManiaAfter(targets, base, sample, src + 1);
    }
    n := dst;
  }
}
