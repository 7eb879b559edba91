/**
 * The osu!taiko transform: every hit object after the lead-in becomes cubes in
 * a fresh target list. Circles are shaped by their hit area and alternate the
 * hands unless both hands strike; sliders become a vertical wall with filler
 * cubes every 250 ms; spinners become rounds of bombs and a cube pair once per
 * beat. A second pass for the two-handed mode gives each cube a cut direction
 * from its place in the grid.
 */
module TaikoTransformer {
  import opened Common
  import opened BsConstants
  import opened Lists

  /**
   * The hit areas of a taiko note, as the value of a hit object reads to the
   * decoder of its sound flags; the decoder itself is a parameter of the model.
   */
  datatype HitArea = Don | SoftCenter | Katsu | Rim | DonDon | HardCenter | Katatsu | Sides | OtherArea

  /** Areas struck with both hands: they give a left and a right cube and keep the hand. */
  predicate IsDouble(area: HitArea)
  {
    area.DonDon? || area.HardCenter? || area.Katatsu? || area.Sides?
  }

  function HandKind(isLeft: bool): bv8
  {
    if isLeft then CUBE_LEFT else CUBE_RIGHT
  }

  /** A cube of the target grid; the work copy the source fills in always carries the forward direction. */
  function Cube(col: nat, row: nat, kind: bv8, t: real): Entity
  {
    Entity((col, row), kind, t, DIR_FWD)
  }

  /** The cube is in the 4 x 3 grid, is a left or right cube or a bomb, and points forward. */
  predicate InGrid(e: Entity)
  {
    e.location.0 < 4 && e.location.1 < 3 && (e.kind == CUBE_LEFT || e.kind == CUBE_RIGHT || e.kind == CUBE_BOMB)
  }

  predicate AllInGrid(s: seq<Entity>)
  {
    forall j :: 0 <= j < |s| ==> InGrid(s[j])
  }

  /* ---------- circles ---------- */

  /**
   * The cubes of a circle at quantized time t: centre hits in the middle
   * columns, rim hits on the outer columns or, for a finisher, on the top row.
   */
  function CircleCubes(area: HitArea, isLeft: bool, fin: bool, t: real): (r: seq<Entity>)
  {
    if area.DonDon? || area.HardCenter? then
      var row := if fin then 1 else 0;
      [Cube(1, row, CUBE_LEFT, t), Cube(2, row, CUBE_RIGHT, t)]
    else if area.Katatsu? || area.Sides? then
      if fin then [Cube(1, 2, CUBE_LEFT, t), Cube(2, 2, CUBE_RIGHT, t)]
      else [Cube(0, 1, CUBE_LEFT, t), Cube(3, 1, CUBE_RIGHT, t)]
    else if area.Katsu? || area.Rim? then
      if fin then [Cube(if isLeft then 1 else 2, 2, HandKind(isLeft), t)]
      else [Cube(if isLeft then 0 else 3, 1, HandKind(isLeft), t)]
    else [Cube(if isLeft then 1 else 2, if fin then 1 else 0, HandKind(isLeft), t)]
  }

  /**
   * A single-hand area gives one cube of the acting hand; a two-hand area gives
   * a left cube and then a right cube; all in the grid at time t.
   */
  lemma CircleShape(area: HitArea, isLeft: bool, fin: bool, t: real)
    ensures var r := CircleCubes(area, isLeft, fin, t);
      && (!IsDouble(area) ==> |r| == 1 && r[0].kind == HandKind(isLeft))
      && (IsDouble(area) ==> |r| == 2 && r[0].kind == CUBE_LEFT && r[1].kind == CUBE_RIGHT)
      && (forall k :: 0 <= k < |r| ==> InGrid(r[k]) && r[k].spawnTime == t && r[k].value == DIR_FWD)
  {
  }

  /* ---------- sliders and spinners ---------- */

  /** Cubes emitted by a loop, and the hand flag after it. */
  datatype Emitted = Emitted(cubes: seq<Entity>, isLeft: bool)

  const SLIDER_STEP_MS: real := 250.0

  /** Steps of `step` from ts that stay below `lim`, as a termination measure. */
  function Steps(ts: real, lim: real, step: real): int
    requires step > 0.0
  {
    if ts < lim then ((lim - ts) / step).Floor + 1 else 0
  }

  lemma StepsDecrease(ts: real, lim: real, step: real)
    requires step > 0.0 && ts < lim
    ensures 0 <= Steps(ts + step, lim, step) < Steps(ts, lim, step)
  {
    var a := lim - ts;
    assert step / step == 1.0;
    assert (a - step) / step == a / step - step / step;
    assert lim - (ts + step) == a - step;
  }

  /** The filler cubes of a slider: one every 250 ms from ts while before tMax, in one column, alternating hands. */
  function SliderCubes(ts: real, tMax: real, col: nat, isLeft: bool, sample: real -> real): (r: Emitted)
    decreases Steps(ts, tMax, SLIDER_STEP_MS)
  {
    if ts < tMax then
      StepsDecrease(ts, tMax, SLIDER_STEP_MS);
      var rest := SliderCubes(ts + SLIDER_STEP_MS, tMax, col, !isLeft, sample);
      Emitted([Cube(col, 0, HandKind(isLeft), sample(ts))] + rest.cubes, rest.isLeft)
    else Emitted([], isLeft)
  }

  /**
   * The k-th filler cube sits in the slider's column on the bottom row at the
   * quantized time ts + 250 k, and belongs to the starting hand for even k and
   * to the other for odd k; the flag ends flipped once per cube.
   */
  lemma {:induction false} SliderAlternates(ts: real, tMax: real, col: nat, isLeft: bool, sample: real -> real)
    ensures var r := SliderCubes(ts, tMax, col, isLeft, sample);
      && r.isLeft == (isLeft == (|r.cubes| % 2 == 0))
      && (forall k :: 0 <= k < |r.cubes| ==>
            r.cubes[k] == Cube(col, 0, HandKind(isLeft == (k % 2 == 0)), sample(ts + k as real * SLIDER_STEP_MS)))
    decreases Steps(ts, tMax, SLIDER_STEP_MS)
  {
    if ts < tMax {
      StepsDecrease(ts, tMax, SLIDER_STEP_MS);
      var rest := SliderCubes(ts + SLIDER_STEP_MS, tMax, col, !isLeft, sample);
      SliderAlternates(ts + SLIDER_STEP_MS, tMax, col, !isLeft, sample);
      var r := SliderCubes(ts, tMax, col, isLeft, sample);
      forall k | 1 <= k < |r.cubes|
        ensures r.cubes[k] == Cube(col, 0, HandKind(isLeft == (k % 2 == 0)), sample(ts + k as real * SLIDER_STEP_MS))
      {
        assert r.cubes[k] == rest.cubes[k - 1];
        assert ts + SLIDER_STEP_MS + (k - 1) as real * SLIDER_STEP_MS == ts + k as real * SLIDER_STEP_MS;
      }
    }
  }

  /**
   * One round of a spinner: bombs on both outer columns of the middle row and
   * on opposite corners, then a right cube in column 2 and a left cube in
   * column 1, on rows that swap with the hand flag.
   */
  function SpinRound(isLeft: bool, t: real): (r: seq<Entity>)
  {
    [ Cube(0, 1, CUBE_BOMB, t), Cube(3, 1, CUBE_BOMB, t),
      Cube(0, if isLeft then 0 else 2, CUBE_BOMB, t), Cube(3, if isLeft then 2 else 0, CUBE_BOMB, t),
      Cube(2, if isLeft then 2 else 0, CUBE_RIGHT, t), Cube(1, if isLeft then 0 else 2, CUBE_LEFT, t) ]
  }

  /** The rounds of a spinner: one per beat length from ts while before both its end and the next note. */
  function SpinCubes(ts: real, end: real, nextTs: real, period: real, isLeft: bool, sample: real -> real): (r: Emitted)
    requires period > 0.0
    decreases Steps(ts, Min(end, nextTs), period)
  {
    if ts < end && ts < nextTs then
      StepsDecrease(ts, Min(end, nextTs), period);
      var rest := SpinCubes(ts + period, end, nextTs, period, !isLeft, sample);
      Emitted(SpinRound(isLeft, sample(ts)) + rest.cubes, rest.isLeft)
    else Emitted([], isLeft)
  }

  /**
   * The cube at position k of a spinner's output: in the grid, a bomb at the
   * first four places of its round, then a right cube in column 2 and a left
   * cube in column 1.
   */
  predicate SpinCubeAt(c: Entity, k: nat)
  {
    && InGrid(c)
    && (c.kind == CUBE_BOMB <==> k % 6 < 4)
    && (k % 6 == 4 ==> c.kind == CUBE_RIGHT && c.location.0 == 2)
    && (k % 6 == 5 ==> c.kind == CUBE_LEFT && c.location.0 == 1)
  }

  lemma SpinRoundShape(isLeft: bool, t: real)
    ensures |SpinRound(isLeft, t)| == 6
    ensures forall k :: 0 <= k < 6 ==> SpinCubeAt(SpinRound(isLeft, t)[k], k)
  {
  }

  /** A spinner gives six cubes per round, laid out as SpinCubeAt says; the flag flips once per round. */
  lemma {:induction false} SpinShape(ts: real, end: real, nextTs: real, period: real, isLeft: bool, sample: real -> real)
    requires period > 0.0
    ensures var r := SpinCubes(ts, end, nextTs, period, isLeft, sample);
      && |r.cubes| % 6 == 0
      && r.isLeft == (isLeft == (|r.cubes| / 6 % 2 == 0))
      && (forall k :: 0 <= k < |r.cubes| ==> SpinCubeAt(r.cubes[k], k))
    decreases Steps(ts, Min(end, nextTs), period)
  {
    if ts < end && ts < nextTs {
      StepsDecrease(ts, Min(end, nextTs), period);
      var rest := SpinCubes(ts + period, end, nextTs, period, !isLeft, sample);
      SpinShape(ts + period, end, nextTs, period, !isLeft, sample);
      var r := SpinCubes(ts, end, nextTs, period, isLeft, sample);
      var round := SpinRound(isLeft, sample(ts));
      SpinRoundShape(isLeft, sample(ts));
      assert r.cubes == round + rest.cubes;
      forall k | 0 <= k < |r.cubes|
        ensures SpinCubeAt(r.cubes[k], k)
      {
        if k < 6 {
          assert r.cubes[k] == round[k];
        } else {
          assert r.cubes[k] == rest.cubes[k - 6];
          assert k % 6 == (k - 6) % 6;
        }
      }
      assert |r.cubes| / 6 == |rest.cubes| / 6 + 1;
    }
  }

  /* ---------- the walk over the hit objects ---------- */

  /**
   * The state of the walk: the cubes so far, the obstacles (the source's
   * objects, then the slider walls), the colour toggles in order of emission,
   * the colour and hand flags, the blocked-until times of the two hands, and
   * the time of the next note.
   */
  datatype TaikoState = TaikoState(
    tars: seq<Entity>, objs: seq<Entity>, toggles: seq<Event>,
    isBlue: bool, isLeft: bool, slotL: real, slotR: real, nextTs: real)

  /** The walk starts with the first colour, the right hand and both hands free. */
  function TaikoInit(objs: seq<Entity>): TaikoState
  {
    TaikoState([], objs, [], true, false, 0.0, 0.0, 0.0)
  }

  function Slot(st: TaikoState): real
  {
    if st.isLeft then st.slotL else st.slotR
  }

  /**
   * A circle: dropped when it comes within 200 ms of the acting hand's last
   * circle; otherwise its cubes are added, the hand's slot moves to the
   * circle's time and a single-hand area passes the turn to the other hand.
   * A finisher is a circle more than two beats before the next note.
   */
  function CircleStep(st: TaikoState, tar: Entity, base: real, area: real -> HitArea, sample: real -> real): (r: TaikoState)
  {
    if BLOCK_PLACEMENT_DOWNTIME_MS > tar.spawnTime - Slot(st) then st
    else
      var fin := 2.0 * base < st.nextTs - tar.spawnTime;
      var a := area(tar.value);
      var st1 := if st.isLeft then st.(slotL := tar.spawnTime) else st.(slotR := tar.spawnTime);
      st1.(tars := st.tars + CircleCubes(a, st.isLeft, fin, sample(tar.spawnTime)),
           isLeft := if IsDouble(a) then st.isLeft else !st.isLeft)
  }

  /** The end of a slider: its length in beats at 140 px per beat, cut at the next note. */
  function SliderEnd(tar: Entity, base: real, nextTs: real): real
  {
    Min(base / 140.0 * tar.value + tar.spawnTime, nextTs)
  }

  /** A slider: a vertical wall on the side opposite the hand, then its filler cubes on the hand's side. */
  function SliderStep(st: TaikoState, tar: Entity, base: real, sample: real -> real): (r: TaikoState)
  {
    var tMax := SliderEnd(tar, base, st.nextTs);
    var wall := Entity((if st.isLeft then 2 else 0, 2), WALL_VERTICAL, sample(tar.spawnTime), sample(tMax - tar.spawnTime));
    var e := SliderCubes(tar.spawnTime, tMax, if st.isLeft then 0 else 3, st.isLeft, sample);
    st.(objs := st.objs + [wall], tars := st.tars + e.cubes, isLeft := e.isLeft)
  }

  /** A spinner: its rounds, then both hands blocked until it ends. */
  function SpinStep(st: TaikoState, tar: Entity, base: real, sample: real -> real): (r: TaikoState)
    requires base > 0.0
  {
    var e := SpinCubes(tar.spawnTime, tar.value, st.nextTs, base, st.isLeft, sample);
    st.(tars := st.tars + e.cubes, isLeft := e.isLeft, slotL := tar.value, slotR := tar.value)
  }

  /** The time of the note after position i, or 3000 ms past the last one seen after the last note. */
  function NextTime(targets: seq<Entity>, i: nat, nextTs: real): real
  {
    if i + 1 < |targets| then targets[i + 1].spawnTime else nextTs + LEAD_IN_TIME_MS
  }

  /** The colour toggle of a combo start: the second colour first, then alternating. */
  function ColourStep(st: TaikoState, tar: Entity, sample: real -> real): (r: TaikoState)
  {
    if IsComboStart(tar.kind) then
      st.(toggles := st.toggles + [Event(LightSd, sample(tar.spawnTime), if st.isBlue then S2_ON else S1_ON)], isBlue := !st.isBlue)
    else st
  }

  /** The circle, slider or spinner part of one hit object; other hit objects give nothing. */
  function HitObjectStep(st: TaikoState, tar: Entity, base: real, area: real -> HitArea, sample: real -> real): (r: TaikoState)
    requires base > 0.0
  {
    if IsCircle(tar.kind) then CircleStep(st, tar, base, area, sample)
    else if IsSlider(tar.kind) then SliderStep(st, tar, base, sample)
    else if IsSpin(tar.kind) then SpinStep(st, tar, base, sample)
    else st
  }

  /** One hit object: its colour toggle, the time of the next note, then its circle, slider or spinner. */
  function TaikoStep(targets: seq<Entity>, i: nat, base: real, area: real -> HitArea, sample: real -> real, st: TaikoState): (r: TaikoState)
    requires i < |targets| && base > 0.0
  {
    var tar := targets[i];
    var st1 := ColourStep(st, tar, sample);
    HitObjectStep(st1.(nextTs := NextTime(targets, i, st1.nextTs)), tar, base, area, sample)
  }

  /** The state after the hit objects at positions fst .. k - 1. */
  function TaikoAfter(targets: seq<Entity>, fst: nat, k: nat, base: real, objs: seq<Entity>,
                      area: real -> HitArea, sample: real -> real): (st: TaikoState)
    requires fst <= k <= |targets| && base > 0.0
    decreases k
  {
    if k == fst then TaikoInit(objs)
    else TaikoStep(targets, k - 1, base, area, sample, TaikoAfter(targets, fst, k - 1, base, objs, area, sample))
  }

  /**
   * A circle within 200 ms of the acting hand's last circle changes nothing, not
   * even the hand. Otherwise a single-hand circle adds one cube of the acting
   * hand and passes the turn; a two-hand circle adds a left and a right cube and
   * keeps the hand.
   */
  lemma CircleStepShape(st: TaikoState, tar: Entity, base: real, area: real -> HitArea, sample: real -> real)
    ensures var r := CircleStep(st, tar, base, area, sample);
      && (BLOCK_PLACEMENT_DOWNTIME_MS > tar.spawnTime - Slot(st) ==> r == st)
      && (BLOCK_PLACEMENT_DOWNTIME_MS <= tar.spawnTime - Slot(st) ==>
            && r.tars[..|st.tars|] == st.tars
            && (!IsDouble(area(tar.value)) ==>
                  |r.tars| == |st.tars| + 1 && r.tars[|st.tars|].kind == HandKind(st.isLeft) && r.isLeft == !st.isLeft)
            && (IsDouble(area(tar.value)) ==>
                  |r.tars| == |st.tars| + 2 && r.tars[|st.tars|].kind == CUBE_LEFT
                  && r.tars[|st.tars| + 1].kind == CUBE_RIGHT && r.isLeft == st.isLeft)
            && (if st.isLeft then r.slotL == tar.spawnTime && r.slotR == st.slotR
                else r.slotR == tar.spawnTime && r.slotL == st.slotL))
  {
    CircleShape(area(tar.value), st.isLeft, 2.0 * base < st.nextTs - tar.spawnTime, sample(tar.spawnTime));
  }

  /** Every cube the walk emits lies in the grid and is a left or right cube or a bomb. */
  lemma {:induction false} TaikoInGrid(targets: seq<Entity>, fst: nat, k: nat, base: real, objs: seq<Entity>,
                                       area: real -> HitArea, sample: real -> real)
    requires fst <= k <= |targets| && base > 0.0
    ensures AllInGrid(TaikoAfter(targets, fst, k, base, objs, area, sample).tars)
    decreases k
  {
    if k > fst {
      TaikoInGrid(targets, fst, k - 1, base, objs, area, sample);
      var prev := TaikoAfter(targets, fst, k - 1, base, objs, area, sample);
      var tar := targets[k - 1];
      var st2 := ColourStep(prev, tar, sample).(nextTs := NextTime(targets, k - 1, ColourStep(prev, tar, sample).nextTs));
      var added: seq<Entity> := [];
      if IsCircle(tar.kind) {
        if BLOCK_PLACEMENT_DOWNTIME_MS <= tar.spawnTime - Slot(st2) {
          added := CircleCubes(area(tar.value), st2.isLeft, 2.0 * base < st2.nextTs - tar.spawnTime, sample(tar.spawnTime));
          CircleShape(area(tar.value), st2.isLeft, 2.0 * base < st2.nextTs - tar.spawnTime, sample(tar.spawnTime));
        }
      } else if IsSlider(tar.kind) {
        added := SliderCubes(tar.spawnTime, SliderEnd(tar, base, st2.nextTs), if st2.isLeft then 0 else 3, st2.isLeft, sample).cubes;
        SliderAlternates(tar.spawnTime, SliderEnd(tar, base, st2.nextTs), if st2.isLeft then 0 else 3, st2.isLeft, sample);
        assert forall i :: 0 <= i < |added| ==> InGrid(added[i]);
      } else if IsSpin(tar.kind) {
        added := SpinCubes(tar.spawnTime, tar.value, st2.nextTs, base, st2.isLeft, sample).cubes;
        SpinShape(tar.spawnTime, tar.value, st2.nextTs, base, st2.isLeft, sample);
        assert forall i :: 0 <= i < |added| ==> SpinCubeAt(added[i], i);
      }
      assert forall i :: 0 <= i < |added| ==> InGrid(added[i]);
      var st := TaikoAfter(targets, fst, k, base, objs, area, sample);
      assert st.tars == prev.tars + added;
      forall j | 0 <= j < |st.tars|
        ensures InGrid(st.tars[j])
      {
        if j >= |prev.tars| {
          assert st.tars[j] == added[j - |prev.tars|];
        } else {
          assert st.tars[j] == prev.tars[j];
        }
      }
    }
  }

  /* ---------- the two-handed cut directions ---------- */

  /**
   * The cut direction of a cube in the two-handed mode: down on the bottom
   * row, diagonally inwards in its corners, outwards on the outer columns of
   * the middle row, forward in its middle, up on the top row. Bombs, and cubes
   * outside the grid, keep their value.
   */
  function TwoHandDirection(e: Entity): (r: Entity)
  {
    if e.kind == CUBE_BOMB then e
    else
      var col := e.location.0;
      var row := e.location.1;
      if row == 0 then
        if col == 0 || col == 3 then e.(value := if e.kind == CUBE_LEFT then DIR_R_DOWN else DIR_L_DOWN)
        else if col == 1 || col == 2 then e.(value := DIR_DOWN)
        else e
      else if row == 1 then
        if col == 0 then e.(value := DIR_LEFT)
        else if col == 1 || col == 2 then e.(value := DIR_FWD)
        else if col == 3 then e.(value := DIR_RIGHT)
        else e
      else if row == 2 then e.(value := DIR_UP)
      else e
  }

  /**
   * The second pass changes only the value of a cube; a cube in the grid that
   * is not a bomb gets one of the nine cut directions, and on the bottom row a
   * corner cube is cut towards the middle of the grid.
   */
  lemma TwoHandDirectionShape(e: Entity)
    ensures var r := TwoHandDirection(e);
      && r == e.(value := r.value)
      && (e.kind == CUBE_BOMB ==> r == e)
      && (InGrid(e) && e.kind != CUBE_BOMB ==> r.value in {DIR_UP, DIR_DOWN, DIR_LEFT, DIR_RIGHT, DIR_L_DOWN, DIR_R_DOWN, DIR_FWD})
      && (e.kind == CUBE_LEFT && e.location == (0, 0) ==> r.value == DIR_R_DOWN)
      && (e.kind == CUBE_RIGHT && e.location == (3, 0) ==> r.value == DIR_L_DOWN)
  {
  }

  /** The second pass in place over the cubes, for the two-handed mode. */
  method TwoHandPass(a: array<Entity>)
    modifies a
    ensures forall j :: 0 <= j < a.Length ==> a[j] == TwoHandDirection(old(a[j]))
  {
    for j := 0 to a.Length
      invariant forall x :: 0 <= x < j ==> a[x] == TwoHandDirection(old(a[x]))
      invariant forall x :: j <= x < a.Length ==> a[x] == old(a[x])
    {
      a[j] := TwoHandDirection(a[j]);
    }
  }

  /** Every cube with its two-handed cut direction. */
  function TwoHanded(s: seq<Entity>): (r: seq<Entity>)
    ensures |r| == |s| && forall j :: 0 <= j < |s| ==> r[j] == TwoHandDirection(s[j])
  {
    seq(|s|, j requires 0 <= j < |s| => TwoHandDirection(s[j]))
  }

  /* ---------- the transform in place ---------- */

  /** The filler cubes of a slider appended to `tars`, one per 250 ms from t0 while before tMax. */
  method EmitSlider(tars: seq<Entity>, t0: real, tMax: real, col: nat, isLeft: bool, sample: real -> real)
    returns (tars': seq<Entity>, isLeft': bool)
    ensures tars' == tars + SliderCubes(t0, tMax, col, isLeft, sample).cubes
    ensures isLeft' == SliderCubes(t0, tMax, col, isLeft, sample).isLeft
  {
    tars', isLeft' := tars, isLeft;
    var ts := t0;
    while ts < tMax
      invariant tars + SliderCubes(t0, tMax, col, isLeft, sample).cubes == tars' + SliderCubes(ts, tMax, col, isLeft', sample).cubes
      invariant SliderCubes(ts, tMax, col, isLeft', sample).isLeft == SliderCubes(t0, tMax, col, isLeft, sample).isLeft
      decreases Steps(ts, tMax, SLIDER_STEP_MS)
    {
      StepsDecrease(ts, tMax, SLIDER_STEP_MS);
      tars' := tars' + [Cube(col, 0, HandKind(isLeft'), sample(ts))];
      isLeft' := !isLeft';
      ts := ts + SLIDER_STEP_MS;
    }
  }

  /** The rounds of a spinner appended to `tars`, one per beat length from t0 while before its end and the next note. */
  method EmitSpin(tars: seq<Entity>, t0: real, end: real, nextTs: real, period: real, isLeft: bool, sample: real -> real)
    returns (tars': seq<Entity>, isLeft': bool)
    requires period > 0.0
    ensures tars' == tars + SpinCubes(t0, end, nextTs, period, isLeft, sample).cubes
    ensures isLeft' == SpinCubes(t0, end, nextTs, period, isLeft, sample).isLeft
  {
    tars', isLeft' := tars, isLeft;
    var ts := t0;
    while ts < end && ts < nextTs
      invariant tars + SpinCubes(t0, end, nextTs, period, isLeft, sample).cubes == tars' + SpinCubes(ts, end, nextTs, period, isLeft', sample).cubes
      invariant SpinCubes(ts, end, nextTs, period, isLeft', sample).isLeft == SpinCubes(t0, end, nextTs, period, isLeft, sample).isLeft
      decreases Steps(ts, Min(end, nextTs), period)
    {
      StepsDecrease(ts, Min(end, nextTs), period);
      tars' := tars' + SpinRound(isLeft', sample(ts));
      isLeft' := !isLeft';
      ts := ts + period;
    }
  }

  /** The cubes, wall or blocked slots of one hit object, once its colour toggle and next-note time are known. */
  method VisitHitObject(tar: Entity, base: real, area: real -> HitArea, sample: real -> real,
                        tars: seq<Entity>, objs: seq<Entity>, isLeft: bool, slotL: real, slotR: real, nextTs: real,
                        ghost st: TaikoState)
    returns (tars': seq<Entity>, objs': seq<Entity>, isLeft': bool, slotL': real, slotR': real)
    requires base > 0.0
    requires st == TaikoState(tars, objs, st.toggles, st.isBlue, isLeft, slotL, slotR, nextTs)
    ensures TaikoState(tars', objs', st.toggles, st.isBlue, isLeft', slotL', slotR', nextTs)
         == HitObjectStep(st, tar, base, area, sample)
  {
    tars', objs', isLeft', slotL', slotR' := tars, objs, isLeft, slotL, slotR;
    if IsCircle(tar.kind) {
      if BLOCK_PLACEMENT_DOWNTIME_MS <= tar.spawnTime - (if isLeft then slotL else slotR) {
        if isLeft {
          slotL' := tar.spawnTime;
        } else {
          slotR' := tar.spawnTime;
        }
        var isFinisher := 2.0 * base < nextTs - tar.spawnTime;
        var a := area(tar.value);
        tars' := tars + CircleCubes(a, isLeft, isFinisher, sample(tar.spawnTime));
        if !IsDouble(a) {
          isLeft' := !isLeft;
        }
      }
    } else if IsSlider(tar.kind) {
      var tMax := SliderEnd(tar, base, nextTs);
      objs' := objs + [Entity((if isLeft then 2 else 0, 2), WALL_VERTICAL, sample(tar.spawnTime), sample(tMax - tar.spawnTime))];
      tars', isLeft' := EmitSlider(tars, tar.spawnTime, tMax, if isLeft then 0 else 3, isLeft, sample);
    } else if IsSpin(tar.kind) {
      tars', isLeft' := EmitSpin(tars, tar.spawnTime, tar.value, nextTs, base, isLeft, sample);
      slotL', slotR' := tar.value, tar.value;
    }
  }

  /** The walk over the hit objects from position `first` on, with its state in local variables. */
  method TaikoWalk(targets: seq<Entity>, first: nat, base: real, evList: seq<Event>, objs: seq<Entity>,
                   area: real -> HitArea, sample: real -> real)
    returns (tars: seq<Entity>, evOut: seq<Event>, objsOut: seq<Entity>)
    requires first <= |targets| && base > 0.0
    ensures var st := TaikoAfter(targets, first, |targets|, base, objs, area, sample);
      tars == st.tars && objsOut == st.objs && evOut == Reverse(st.toggles) + evList
  {
    var isBlue, isLeft := true, false;
    var slotL, slotR, nextTs := 0.0, 0.0, 0.0;
    tars := [];
    ghost var toggles: seq<Event> := [];
    objsOut, evOut := objs, evList;
    var i := first;
    while i < |targets|
      invariant first <= i <= |targets|
      invariant TaikoState(tars, objsOut, toggles, isBlue, isLeft, slotL, slotR, nextTs)
             == TaikoAfter(targets, first, i, base, objs, area, sample)
      invariant evOut == Reverse(toggles) + evList
    {
      ghost var st := TaikoState(tars, objsOut, toggles, isBlue, isLeft, slotL, slotR, nextTs);
      var tar := targets[i];
      if IsComboStart(tar.kind) {
        var ev := Event(LightSd, sample(tar.spawnTime), if isBlue then S2_ON else S1_ON);
        ReversePush(toggles, ev);
        evOut := [ev] + evOut;
        toggles := toggles + [ev];
        isBlue := !isBlue;
      }
      ghost var st1 := TaikoState(tars, objsOut, toggles, isBlue, isLeft, slotL, slotR, nextTs);
      assert st1 == ColourStep(st, tar, sample);
      nextTs := NextTime(targets, i, nextTs);
      ghost var st2 := TaikoState(tars, objsOut, toggles, isBlue, isLeft, slotL, slotR, nextTs);
      assert st2 == st1.(nextTs := NextTime(targets, i, st1.nextTs));
      tars, objsOut, isLeft, slotL, slotR := VisitHitObject(tar, base, area, sample, tars, objsOut, isLeft, slotL, slotR, nextTs, st2);
      i := i + 1;
    }
  }

  /**
   * transform_taiko: the hit objects from position fst on become the new
   * targets, the slider walls are appended to the obstacles and the colour
   * toggles pushed to the front of the event list; with twoHand the cubes get
   * their two-handed cut directions. An empty target list is left as it is.
   */
  method TransformTaiko(targets: seq<Entity>, fst: nat, base: real, evList: seq<Event>, objs: seq<Entity>,
                        area: real -> HitArea, sample: real -> real, twoHand: bool)
    returns (tarsOut: seq<Entity>, evOut: seq<Event>, objsOut: seq<Entity>)
    requires base > 0.0
    ensures |targets| == 0 ==> tarsOut == targets && evOut == evList && objsOut == objs
    ensures |targets| > 0 ==>
      var st := TaikoAfter(targets, MinNat(fst, |targets|), |targets|, base, objs, area, sample);
      && tarsOut == (if twoHand then TwoHanded(st.tars) else st.tars)
      && objsOut == st.objs && evOut == Reverse(st.toggles) + evList
  {
    if |targets| == 0 {
      return targets, evList, objs;
    }
    var tars;
    tars, evOut, objsOut := TaikoWalk(targets, MinNat(fst, |targets|), base, evList, objs, area, sample);
    if twoHand {
      var a := new Entity[|tars|](j requires 0 <= j < |tars| => tars[j]);
      TwoHandPass(a);
      tarsOut := a[..];
      assert tarsOut == TwoHanded(tars);
    } else {
      tarsOut := tars;
    }
  }
}
