/**
 * The hit objects of an osu! file: each line "x,y,time,type,sound,attributes..."
 * becomes an entity with its position clamped to the playfield, its type byte and
 * a type-dependent value (hold end, slider length, spin end or hit sound). Lines
 * with a '-' before the last field, or that do not parse, are skipped; so is an
 * object that is neither a combo start nor exactly one (or three) of the kinds.
 */
module OsuHitObjects {
  import opened Common
  import opened XString
  import opened OsuSections

  const HIT_X: nat := 0
  const HIT_Y: nat := 1
  const HIT_TIME: nat := 2
  const HIT_TYPE: nat := 3
  const HIT_SOUND: nat := 4
  const HIT_ATTRIB: nat := 5

  /** The fold state: the entities so far and the value the last line left in the reused object. */
  datatype HitState = HitState(out: seq<Entity>, value: real)

  /** Every field fits a std::string position. */
  predicate ArgsFit(args: seq<string>)
  {
    forall k :: 0 <= k < |args| ==> |args[k]| < NPOS
  }

  /** Some field before the last contains a '-'. */
  predicate HasDash(args: seq<string>)
    requires ArgsFit(args)
  {
    exists k :: 0 <= k < |args| - 1 && Contains(args[k], "-")
  }

  /** An odd number of the circle, slider, spin and hold flags is set. */
  predicate OddKind(t: bv8)
  {
    (IsCircle(t) != IsSlider(t)) != (IsSpin(t) != IsContinuous(t))
  }

  /** The objects the parser keeps. */
  predicate KeptKind(t: bv8)
  {
    IsComboStart(t) || OddKind(t)
  }

  /** The low byte of a parsed integer, as a two's-complement truncation. */
  function LowByte(v: int): bv8
  {
    (v % 256) as bv8
  }

  /** The hold's end time: the first ':'-piece of the last field, when that field splits. */
  function HoldParts(args: seq<string>): (parts: seq<string>)
    requires |args| > 0 && ArgsFit(args)
  {
    var last := args[|args| - 1];
    if last == [] then [] else Pieces(last, ':', 0)
  }

  /**
   * The type byte and value of an object of type `kind`, or None when a slider
   * has too few fields. A field that does not parse clears the flag that needed
   * it and gives 0, except that a hold whose last field does not split keeps the
   * value of the previous line.
   */
  function ObjectValue(kind: bv8, args: seq<string>, carry: real,
                       parseInt: string -> Option<int>, parseFloat: string -> Option<real>): Option<(bv8, real)>
    requires |args| > 0 && ArgsFit(args)
  {
    if IsContinuous(kind) then
      var parts := HoldParts(args);
      if |parts| >= 2 then
        match parseFloat(parts[0])
        case Some(v) => Some((kind, v))
        case None => Some((ClearFlag(kind, CONTINUOUS_BIT), 0.0))
      else Some((ClearFlag(kind, CONTINUOUS_BIT), carry))
    else if IsSlider(kind) then
      if |args| > HIT_ATTRIB + 2 then
        var repeats := parseFloat(args[HIT_ATTRIB + 1]);
        var length := parseFloat(args[HIT_ATTRIB + 2]);
        if repeats.Some? && length.Some? then Some((kind, repeats.value * length.value))
        else Some((ClearFlag(kind, SLIDER_BIT), 0.0))
      else None
    else if IsSpin(kind) then
      match ArgAt(args, HIT_ATTRIB, parseFloat)
      case Some(v) => Some((kind, v))
      case None => Some((ClearFlag(kind, SPIN_BIT), 0.0))
    else
      match ArgAt(args, HIT_SOUND, parseInt)
      case Some(v) => Some((kind, (v % 256) as real))
      case None => Some((kind, 0.0))
  }

  /** The state after one split hit-object line. */
  function HitObject(st: HitState, args: seq<string>,
                     parseInt: string -> Option<int>, parseFloat: string -> Option<real>): HitState
    requires |args| > 0 && ArgsFit(args)
  {
    if HasDash(args) then st
    else
      var x := ArgAt(args, HIT_X, parseInt);
      var y := ArgAt(args, HIT_Y, parseInt);
      var t := ArgAt(args, HIT_TIME, parseFloat);
      var ty := ArgAt(args, HIT_TYPE, parseInt);
      if x.None? || y.None? || t.None? || ty.None? then st
      else
        match ObjectValue(LowByte(ty.value), args, st.value, parseInt, parseFloat)
        case None => st
        case Some((kind, v)) =>
          var obj := Entity((MinNat(OS_MAP_WIDTH, x.value % 0x1_0000), MinNat(OS_MAP_HEIGHT, y.value % 0x1_0000)),
                            kind, t.value, v);
          HitState(if KeptKind(kind) then st.out + [obj] else st.out, v)
  }

  /** The state after one line: an empty line or one without a ',' is skipped. */
  function HitLine(st: HitState, line: string,
                   parseInt: string -> Option<int>, parseFloat: string -> Option<real>): HitState
    requires |line| < NPOS
  {
    if line == [] then st
    else
      var args := Pieces(line, ',', 0);
      PiecesWithin(line, ',', 0);
      if |args| < 2 then st else HitObject(st, args, parseInt, parseFloat)
  }

  /** The state after the lines lo..k-1; the reused object starts with value 0. */
  function HitAfter(lines: seq<string>, lo: nat, k: nat, out0: seq<Entity>,
                    parseInt: string -> Option<int>, parseFloat: string -> Option<real>): HitState
    requires lo <= k <= |lines| && LinesFit(lines)
    decreases k - lo
  {
    if k == lo then HitState(out0, 0.0)
    else HitLine(HitAfter(lines, lo, k - 1, out0, parseInt, parseFloat), lines[k - 1], parseInt, parseFloat)
  }

  /** Reads one split hit-object line into the output and the reused object's value. */
  method ReadHitObject(args: seq<string>, out: seq<Entity>, value: real,
                       parseInt: string -> Option<int>, parseFloat: string -> Option<real>)
    returns (out': seq<Entity>, value': real)
    requires |args| > 0 && ArgsFit(args)
    ensures HitState(out', value') == HitObject(HitState(out, value), args, parseInt, parseFloat)
  {
    out', value' := out, value;
    for k := 0 to |args| - 1
      invariant forall j :: 0 <= j < k ==> !Contains(args[j], "-")
    {
      if Contains(args[k], "-") {
        return;
      }
    }
    var x := ArgAt(args, HIT_X, parseInt);
    var y := ArgAt(args, HIT_Y, parseInt);
    var t := ArgAt(args, HIT_TIME, parseFloat);
    var ty := ArgAt(args, HIT_TYPE, parseInt);
    if x.None? || y.None? || t.None? || ty.None? {
      return;
    }
    var kind := LowByte(ty.value);
    if IsContinuous(kind) {
      var split, parts := TrySplit(args[|args| - 1], args, ':');
      if split {
        match parseFloat(parts[0])
        case Some(v) =>
          value' := v;
        case None =>
          kind := ClearFlag(kind, CONTINUOUS_BIT);
          value' := 0.0;
      } else {
        kind := ClearFlag(kind, CONTINUOUS_BIT);
      }
    } else if IsSlider(kind) {
      if |args| > HIT_ATTRIB + 2 {
        var repeats := parseFloat(args[HIT_ATTRIB + 1]);
        var length := parseFloat(args[HIT_ATTRIB + 2]);
        if repeats.Some? && length.Some? {
          value' := repeats.value * length.value;
        } else {
          kind := ClearFlag(kind, SLIDER_BIT);
          value' := 0.0;
        }
      } else {
        return;
      }
    } else if IsSpin(kind) {
      match ArgAt(args, HIT_ATTRIB, parseFloat)
      case Some(v) =>
        value' := v;
      case None =>
        kind := ClearFlag(kind, SPIN_BIT);
        value' := 0.0;
    } else {
      match ArgAt(args, HIT_SOUND, parseInt)
      case Some(v) =>
        value' := (v % 256) as real;
      case None =>
        value' := 0.0;
    }
    if KeptKind(kind) {
      var obj := Entity((MinNat(OS_MAP_WIDTH, x.value % 0x1_0000), MinNat(OS_MAP_HEIGHT, y.value % 0x1_0000)),
                        kind, t.value, value');
      out' := out + [obj];
    }
  }

  /**
   * assignFromSequence for hit objects: an empty range fails and changes
   * nothing; otherwise every line after the header is read into `out0`, and
   * success means the output is not empty.
   */
  method AssignTargets(lines: seq<string>, ss: StringSequence, out0: seq<Entity>,
                       parseInt: string -> Option<int>, parseFloat: string -> Option<real>)
    returns (ok: bool, out: seq<Entity>)
    requires InLines(ss, lines) && LinesFit(lines) && ss.end == ss.begin + ss.distance
    ensures ss.distance == 0 ==> !ok && out == out0
    ensures ss.distance > 0 ==>
      && out == HitAfter(lines, ss.begin + 1, ss.end, out0, parseInt, parseFloat).out
      && (ok <==> |out| > 0)
  {
    if ss.distance == 0 {
      return false, out0;
    }
    var args: seq<string> := [];
    out := out0;
    var value := 0.0;
    for i := ss.begin + 1 to ss.end
      invariant HitState(out, value) == HitAfter(lines, ss.begin + 1, i, out0, parseInt, parseFloat)
    {
      var split;
      split, args := TrySplit(lines[i], args, ',');
      if split {
        PiecesWithin(lines[i], ',', 0);
        out, value := ReadHitObject(args, out, value, parseInt, parseFloat);
      }
    }
    ok := |out| > 0;
  }

  /* ---------- what the filter keeps ---------- */

  /** A type byte equal to `raw` up to clearing the hold, slider or spin flag. */
  predicate FromRaw(kind: bv8, raw: bv8)
  {
    kind == raw || kind == ClearFlag(raw, CONTINUOUS_BIT) || kind == ClearFlag(raw, SLIDER_BIT) || kind == ClearFlag(raw, SPIN_BIT)
  }

  /**
   * One line adds at most one entity, and only when no field before the last
   * holds a '-' and position, time and type parse. The entity lies on the
   * playfield, sits at the parsed time, keeps the low byte of the type up to one
   * cleared flag, is a combo start or of an odd number of kinds, and a hold
   * that keeps its flag carries the parsed end time.
   */
  lemma HitObjectAdds(st: HitState, args: seq<string>,
                      parseInt: string -> Option<int>, parseFloat: string -> Option<real>)
    requires |args| > 0 && ArgsFit(args)
    ensures var r := HitObject(st, args, parseInt, parseFloat);
      || r.out == st.out
      || (&& |r.out| == |st.out| + 1 && r.out[..|st.out|] == st.out
          && !HasDash(args)
          && ArgAt(args, HIT_X, parseInt).Some? && ArgAt(args, HIT_Y, parseInt).Some?
          && ArgAt(args, HIT_TIME, parseFloat).Some? && ArgAt(args, HIT_TYPE, parseInt).Some?
          && var o := r.out[|st.out|];
          && o.location.0 <= OS_MAP_WIDTH && o.location.1 <= OS_MAP_HEIGHT
          && o.spawnTime == ArgAt(args, HIT_TIME, parseFloat).value
          && FromRaw(o.kind, LowByte(ArgAt(args, HIT_TYPE, parseInt).value))
          && KeptKind(o.kind)
          && (IsContinuous(o.kind) ==> |HoldParts(args)| >= 2 && parseFloat(HoldParts(args)[0]) == Some(o.value)))
    ensures HasDash(args) ==> HitObject(st, args, parseInt, parseFloat) == st
  {
    var r := HitObject(st, args, parseInt, parseFloat);
    if r.out != st.out {
      var kind := LowByte(ArgAt(args, HIT_TYPE, parseInt).value);
      assert r.out[..|st.out|] == st.out;
      if IsContinuous(kind) {
        if |HoldParts(args)| < 2 || parseFloat(HoldParts(args)[0]).None? {
          assert !IsContinuous(r.out[|st.out|].kind);
        }
      }
    }
  }

  /** What every fold state keeps: the given entities first, then only entities a line added. */
  predicate HitTrace(out0: seq<Entity>, st: HitState)
  {
    && |st.out| >= |out0| && st.out[..|out0|] == out0
    && forall j :: |out0| <= j < |st.out| ==>
         st.out[j].location.0 <= OS_MAP_WIDTH && st.out[j].location.1 <= OS_MAP_HEIGHT && KeptKind(st.out[j].kind)
  }

  /**
   * After the whole fold, the given entities come first, and every entity the
   * lines added lies on the playfield and is a combo start or of an odd number
   * of kinds.
   */
  lemma {:induction false} HitAfterTrace(lines: seq<string>, lo: nat, k: nat, out0: seq<Entity>,
                                         parseInt: string -> Option<int>, parseFloat: string -> Option<real>)
    requires lo <= k <= |lines| && LinesFit(lines)
    ensures HitTrace(out0, HitAfter(lines, lo, k, out0, parseInt, parseFloat))
    decreases k - lo
  {
    if k == lo {
      assert out0[..|out0|] == out0;
    } else {
      HitAfterTrace(lines, lo, k - 1, out0, parseInt, parseFloat);
      var st := HitAfter(lines, lo, k - 1, out0, parseInt, parseFloat);
      var line := lines[k - 1];
      if line != [] && |Pieces(line, ',', 0)| >= 2 {
        var args := Pieces(line, ',', 0);
        PiecesWithin(line, ',', 0);
        HitObjectAdds(st, args, parseInt, parseFloat);
        var r := HitObject(st, args, parseInt, parseFloat);
        if r.out != st.out {
          assert r.out[..|out0|] == st.out[..|out0|];
        }
      }
    }
  }
}
