/**
 * The timing points of an osu! file: each line "time,beatLength,...,kiai" becomes
 * a kiai, shift or ignore event. A negative beat length is inherited (a percentage
 * of the last non-negative one); an event at the time of the previous one replaces
 * it. The common beat unit of all shift events is the period the translator uses.
 */
module OsuTiming {
  import opened Common
  import opened XString
  import opened OsuSections

  /* ---------- the subtraction GCD on reals ---------- */

  /** A whole non-negative number. */
  predicate IsWhole(x: real)
  {
    x >= 0.0 && x == x.Floor as real
  }

  /** Greatest common divisor by repeated subtraction. */
  function Gcd(a: nat, b: nat): nat
    decreases a + b
  {
    if a == 0 then b
    else if b == 0 then a
    else if a >= b then Gcd(a - b, b)
    else Gcd(a, b - a)
  }

  ghost predicate Divides(d: nat, n: nat)
  {
    exists k: nat :: n == d * k
  }

  lemma {:induction false} GcdSymmetric(a: nat, b: nat)
    ensures Gcd(a, b) == Gcd(b, a)
    decreases a + b
  {
    if a > 0 && b > 0 && a != b {
      if a > b {
        GcdSymmetric(a - b, b);
      } else {
        GcdSymmetric(a, b - a);
      }
    }
  }

  lemma {:induction false} GcdOne(a: nat)
    requires a > 0
    ensures Gcd(a, 1) == 1
  {
    if a > 1 {
      GcdOne(a - 1);
    }
  }

  lemma DividesSum(d: nat, m: nat, n: nat)
    requires Divides(d, m) && Divides(d, n)
    ensures Divides(d, m + n)
  {
    var k1: nat :| m == d * k1;
    var k2: nat :| n == d * k2;
    assert m + n == d * (k1 + k2);
  }

  /** The GCD divides both numbers. */
  lemma {:induction false} GcdDivides(a: nat, b: nat)
    ensures Divides(Gcd(a, b), a) && Divides(Gcd(a, b), b)
    decreases a + b
  {
    var g := Gcd(a, b);
    if a == 0 {
      assert b == g * 1 && a == g * 0;
    } else if b == 0 {
      assert a == g * 1 && b == g * 0;
    } else if a >= b {
      GcdDivides(a - b, b);
      DividesSum(g, a - b, b);
      assert a - b + b == a;
    } else {
      GcdDivides(a, b - a);
      DividesSum(g, b - a, a);
      assert b - a + a == b;
    }
  }

  lemma DividesDiff(d: nat, m: nat, n: nat)
    requires Divides(d, m) && Divides(d, n) && n <= m
    ensures Divides(d, m - n)
  {
    var k1: nat :| m == d * k1;
    var k2: nat :| n == d * k2;
    if d == 0 {
      assert m - n == d * 0;
    } else {
      if k1 < k2 {
        assert d * k2 == d * k1 + d * (k2 - k1);
      }
      assert m - n == d * (k1 - k2);
    }
  }

  lemma DividesBound(d: nat, n: nat)
    requires Divides(d, n) && n > 0
    ensures d <= n
  {
    var k: nat :| n == d * k;
    assert n == d + d * (k - 1);
  }

  /** Every common divisor of both numbers divides the GCD, so none is greater. */
  lemma {:induction false} GcdGreatest(a: nat, b: nat, d: nat)
    requires Divides(d, a) && Divides(d, b)
    ensures Divides(d, Gcd(a, b))
    ensures a + b > 0 ==> d <= Gcd(a, b)
    decreases a + b
  {
    if a > 0 && b > 0 {
      if a >= b {
        DividesDiff(d, a, b);
        GcdGreatest(a - b, b, d);
      } else {
        DividesDiff(d, b, a);
        GcdGreatest(a, b - a, d);
      }
    }
    if a + b > 0 {
      GcdPositive(a, b);
      DividesBound(d, Gcd(a, b));
    }
  }

  lemma {:induction false} GcdPositive(a: nat, b: nat)
    requires a + b > 0
    ensures Gcd(a, b) > 0
    decreases a + b
  {
    if a > 0 && b > 0 {
      if a >= b {
        GcdPositive(a - b, b);
      } else {
        GcdPositive(a, b - a);
      }
    }
  }

  /** Subtracting at least one lowers the whole part. */
  lemma FloorDrops(s: real, y: real)
    requires y >= 1.0
    ensures (s - y).Floor < s.Floor
  {
  }

  /**
   * commonUnit: a zero operand gives the magnitude of the other; otherwise the
   * larger operand is reduced by the smaller while the smaller exceeds 1 and the
   * difference exceeds FLT_EPSILON. On whole numbers this is their GCD.
   */
  method CommonUnit(a: real, b: real) returns (r: real)
    ensures r >= 0.0
    ensures a == 0.0 ==> r == Abs(b)
    ensures a != 0.0 && b == 0.0 ==> r == Abs(a)
    ensures IsWhole(a) && IsWhole(b) ==> r == Gcd(a.Floor, b.Floor) as real
  {
    if a == 0.0 {
      return Abs(b);
    }
    if b == 0.0 {
      return Abs(a);
    }
    ghost var whole := IsWhole(a) && IsWhole(b);
    ghost var g := if whole then Gcd(a.Floor, b.Floor) else 0;
    ghost var gx: nat, gy: nat := if whole then a.Floor else 0, if whole then b.Floor else 0;
    var x, y := a, b;
    if y > x {
      x, y := y, x;
      gx, gy := gy, gx;
      if whole {
        GcdSymmetric(gx, gy);
      }
    }
    if y > 1.0 {
      x := x - y;
      gx := if whole then gx - gy else 0;
      while Abs(x) > FLT_EPSILON
        invariant x >= 0.0 && y > 1.0
        invariant whole ==> x == gx as real && y == gy as real && Gcd(gx, gy) == g
        decreases (x + y).Floor
      {
        if y > x {
          x, y := y, x;
          gx, gy := gy, gx;
          if whole {
            GcdSymmetric(gx, gy);
          }
        }
        if y <= 1.0 {
          break;
        }
        FloorDrops(x + y, y);
        x := x - y;
        gx := if whole then gx - gy else 0;
      }
    }
    if whole {
      if y <= 1.0 {
        GcdOne(gx);
      }
    }
    r := Abs(y);
  }

  /* ---------- evaluateTiming ---------- */

  /** Position of the first shift event, or |events|. */
  function FirstShift(events: seq<Event>): (r: nat)
    ensures r <= |events|
    ensures r < |events| ==> events[r].eventType == Shift
    ensures forall k :: 0 <= k < r ==> events[k].eventType != Shift
  {
    if |events| == 0 then 0
    else if events[0].eventType == Shift then 0
    else 1 + FirstShift(events[1..])
  }

  /** Strictly ascending: the iteration order of an ordered set. */
  predicate Increasing(s: seq<real>)
  {
    forall i, j :: 0 <= i < j < |s| ==> s[i] < s[j]
  }

  /** Inserting into an ordered set of beat lengths. */
  function SetInsert(s: seq<real>, v: real): (r: seq<real>)
    requires Increasing(s)
    ensures Increasing(r)
    ensures forall x :: x in r <==> x in s || x == v
    decreases |s|
  {
    if s == [] then [v]
    else if v < s[0] then [v] + s
    else if v == s[0] then s
    else
      assert Increasing(s[1..]);
      var t := SetInsert(s[1..], v);
      assert forall j :: 0 <= j < |t| ==> s[0] < t[j] by {
        forall j | 0 <= j < |t|
          ensures s[0] < t[j]
        {
          assert t[j] in t;
        }
      }
      [s[0]] + t
  }

  /** A beat length of some shift event among the first i events. */
  predicate IsShiftValue(events: seq<Event>, i: nat, x: real)
    requires i <= |events|
  {
    exists k :: 0 <= k < i && events[k].eventType == Shift && events[k].value == x
  }

  /**
   * evaluateTiming: the common unit of the shift beat lengths, folded in
   * ascending order from the smallest; a unit below 200 ms (faster than 300 bpm)
   * falls back to the beat length of the first shift event. Without any shift
   * event there is no period (`None`).
   */
  method EvaluateTiming(events: seq<Event>) returns (r: Option<real>)
    ensures r.None? <==> FirstShift(events) == |events|
    ensures r.Some? ==> r.value >= 200.0 || r.value == events[FirstShift(events)].value
  {
    var periods: seq<real> := [];
    for i := 0 to |events|
      invariant Increasing(periods)
      invariant forall x :: x in periods <==> IsShiftValue(events, i, x)
      invariant periods == [] ==> forall k :: 0 <= k < i ==> events[k].eventType != Shift
    {
      if events[i].eventType == Shift {
        periods := SetInsert(periods, events[i].value);
      }
    }
    if periods == [] {
      return None;
    }
    assert IsShiftValue(events, |events|, periods[0]);
    var k0 :| 0 <= k0 < |events| && events[k0].eventType == Shift && events[k0].value == periods[0];
    assert FirstShift(events) <= k0;
    var val := periods[0];
    for i := 1 to |periods| {
      val := CommonUnit(val, periods[i]);
    }
    if val < 200.0 {
      var k: nat := 0;
      while events[k].eventType != Shift
        invariant k <= FirstShift(events) < |events|
        decreases FirstShift(events) - k
      {
        k := k + 1;
      }
      val := events[k].value;
    }
    return Some(val);
  }

  /* ---------- timing points ---------- */

  /** The numeric value of the kiai event type, which the shift branch compares the flag with. */
  const KIAI_CODE: int := 14

  /** The fold state: the events so far, the last non-negative beat length, the last shift value, the kiai state. */
  datatype TimingState = TimingState(out: seq<Event>, baseVal: real, lastVal: real, kiai: bool)

  /** An inherited (negative) beat length is a percentage of the base one. */
  function BeatLength(v: real, baseVal: real): (r: real)
    ensures v >= 0.0 ==> r == v
    ensures baseVal >= 0.0 ==> r >= 0.0
  {
    if v < 0.0 then Abs(v) / 100.0 * baseVal else v
  }

  /** No two neighbouring events share a timestamp. */
  predicate TimesApart(s: seq<Event>)
  {
    forall j :: 0 <= j < |s| - 1 ==> s[j].timestamp != s[j + 1].timestamp
  }

  /**
   * Appends ev, or replaces the last event when ev has its time (an ignore
   * event at that time is dropped): the list grows exactly when ev's time is
   * new, everything before the last event is kept, the last event is ev unless
   * an ignore was dropped, and neighbours keep distinct times.
   */
  function Record(out: seq<Event>, ev: Event): (r: seq<Event>)
    ensures |out| <= |r| <= |out| + 1
    ensures |r| == |out| + 1 <==> |out| == 0 || out[|out| - 1].timestamp != ev.timestamp
    ensures |out| > 0 ==> r[..|out| - 1] == out[..|out| - 1]
    ensures r[|r| - 1].timestamp == ev.timestamp
    ensures r[|r| - 1] == ev || (ev.eventType == Ignore && r == out)
    ensures TimesApart(out) ==> TimesApart(r)
  {
    if |out| > 0 && ev.timestamp == out[|out| - 1].timestamp then
      if ev.eventType == Ignore then out else out[..|out| - 1] + [ev]
    else out + [ev]
  }

  /** The state after one split timing-point line. */
  function TimingPoint(st: TimingState, args: seq<string>, parseFloat: string -> Option<real>,
                       parseInt: string -> Option<int>): TimingState
  {
    var ts := ArgAt(args, 0, parseFloat);
    var v := ArgAt(args, 1, parseFloat);
    if ts.None? || v.None? then st
    else
      var value := BeatLength(v.value, st.baseVal);
      var flag := ArgAt(args, 7, parseInt);
      var iEvent := if flag.Some? then flag.value else 0;
      var rising := !st.kiai && iEvent != 0;
      var shift := !rising && (st.kiai != (iEvent != 0) || FLT_EPSILON < Abs(value - st.lastVal));
      var kind := if rising then Kiai else if shift then Shift else Ignore;
      TimingState(
        Record(st.out, Event(kind, ts.value, value)),
        if v.value < 0.0 then st.baseVal else v.value,
        if shift then value else st.lastVal,
        if rising then true else if shift then iEvent == KIAI_CODE else st.kiai)
  }

  /** The state after one line: an empty line or one without a ',' is skipped. */
  function TimingLine(st: TimingState, line: string, parseFloat: string -> Option<real>,
                      parseInt: string -> Option<int>): TimingState
  {
    if line == [] then st
    else
      var args := Pieces(line, ',', 0);
      if |args| < 2 then st else TimingPoint(st, args, parseFloat, parseInt)
  }

  function TimingInit(out0: seq<Event>): TimingState
  {
    TimingState(out0, 1.0, 1.0, false)
  }

  /** The state after the lines lo..k-1. */
  function TimingAfter(lines: seq<string>, lo: nat, k: nat, out0: seq<Event>,
                       parseFloat: string -> Option<real>, parseInt: string -> Option<int>): TimingState
    requires lo <= k <= |lines|
    decreases k - lo
  {
    if k == lo then TimingInit(out0)
    else TimingLine(TimingAfter(lines, lo, k - 1, out0, parseFloat, parseInt), lines[k - 1], parseFloat, parseInt)
  }

  /** Reads one split timing-point line into the running state. */
  method ReadTimingPoint(args: seq<string>, out: seq<Event>, baseVal: real, lastVal: real, state: bool,
                         parseFloat: string -> Option<real>, parseInt: string -> Option<int>)
    returns (out': seq<Event>, baseVal': real, lastVal': real, state': bool)
    ensures TimingState(out', baseVal', lastVal', state')
         == TimingPoint(TimingState(out, baseVal, lastVal, state), args, parseFloat, parseInt)
  {
    out', baseVal', lastVal', state' := out, baseVal, lastVal, state;
    var ts := ArgAt(args, 0, parseFloat);
    var v := ArgAt(args, 1, parseFloat);
    if ts.None? || v.None? {
      return;
    }
    var value := v.value;
    if value < 0.0 {
      value := Abs(value) / 100.0 * baseVal;
    } else {
      baseVal' := value;
    }
    var flag := ArgAt(args, 7, parseInt);
    var iEvent := if flag.Some? then flag.value else 0;
    var kind: EventType;
    if !state && iEvent != 0 {
      kind := Kiai;
      state' := true;
    } else if state != (iEvent != 0) || FLT_EPSILON < Abs(value - lastVal) {
      lastVal' := value;
      state' := iEvent == KIAI_CODE;
      kind := Shift;
    } else {
      kind := Ignore;
    }
    var ev := Event(kind, ts.value, value);
    if |out| > 0 && ev.timestamp == out[|out| - 1].timestamp {
      if kind == Ignore {
        return;
      }
      out' := out[|out| - 1 := ev];
      assert out' == out[..|out| - 1] + [ev];
    } else {
      out' := out + [ev];
    }
    assert out' == Record(out, ev);
    assert value == BeatLength(v.value, baseVal);
  }

  /**
   * assignFromSequence for timing points: an empty range fails and changes
   * nothing; otherwise every line after the header is read into `out0`, and
   * success means the first event has a beat length over 1 ms.
   */
  method AssignEvents(lines: seq<string>, ss: StringSequence, out0: seq<Event>,
                      parseFloat: string -> Option<real>, parseInt: string -> Option<int>)
    returns (ok: bool, out: seq<Event>)
    requires InLines(ss, lines) && LinesFit(lines) && ss.end == ss.begin + ss.distance
    ensures ss.distance == 0 ==> !ok && out == out0
    ensures ss.distance > 0 ==>
      && out == TimingAfter(lines, ss.begin + 1, ss.end, out0, parseFloat, parseInt).out
      && (ok <==> |out| > 0 && out[0].value > 1.0)
  {
    if ss.distance == 0 {
      return false, out0;
    }
    var args: seq<string> := [];
    out := out0;
    var baseVal, lastVal, state := 1.0, 1.0, false;
    for i := ss.begin + 1 to ss.end
      invariant TimingState(out, baseVal, lastVal, state) == TimingAfter(lines, ss.begin + 1, i, out0, parseFloat, parseInt)
    {
      var split;
      split, args := TrySplit(lines[i], args, ',');
      if split {
        out, baseVal, lastVal, state := ReadTimingPoint(args, out, baseVal, lastVal, state, parseFloat, parseInt);
      }
    }
    ok := |out| > 0 && out[0].value > 1.0;
  }

  /* ---------- what the fold keeps ---------- */

  /** Position from which the fold may have changed the list: the last event it was given. */
  function Kept(out0: seq<Event>): nat
  {
    if |out0| == 0 then 0 else |out0| - 1
  }

  /** An event the fold produced: kiai, shift or ignore, with a non-negative beat length. */
  predicate FoldEvent(e: Event)
  {
    (e.eventType == Kiai || e.eventType == Shift || e.eventType == Ignore) && e.value >= 0.0
  }

  /**
   * What every fold state keeps: the given list up to its last event is kept,
   * every later event is one the fold produced or the kept last one, no two
   * neighbours from there on share a time, and the base beat length is not
   * negative.
   */
  predicate TimingTrace(out0: seq<Event>, st: TimingState)
  {
    var p := Kept(out0);
    && |st.out| >= |out0| && st.out[..p] == out0[..p]
    && (forall j :: p <= j < |st.out| ==> FoldEvent(st.out[j]) || (j < |out0| && st.out[j] == out0[j]))
    && (forall j :: p <= j < |st.out| - 1 ==> st.out[j].timestamp != st.out[j + 1].timestamp)
    && st.baseVal >= 0.0
  }

  lemma TimingPointTrace(out0: seq<Event>, st: TimingState, args: seq<string>,
                         parseFloat: string -> Option<real>, parseInt: string -> Option<int>)
    requires TimingTrace(out0, st)
    ensures TimingTrace(out0, TimingPoint(st, args, parseFloat, parseInt))
  {
    var r := TimingPoint(st, args, parseFloat, parseInt);
    var p := Kept(out0);
    var n := |st.out|;
    if r.out != st.out {
      var ev := r.out[|r.out| - 1];
      assert FoldEvent(ev);
      if n > 0 && ev.timestamp == st.out[n - 1].timestamp {
        assert r.out == st.out[..n - 1] + [ev];
        forall j | p <= j < |r.out| - 1
          ensures r.out[j].timestamp != r.out[j + 1].timestamp
        {
          assert r.out[j] == st.out[j] && (j + 1 < n - 1 ==> r.out[j + 1] == st.out[j + 1]);
        }
        assert r.out[..p] == st.out[..p];
      } else {
        assert r.out == st.out + [ev];
        assert r.out[..p] == st.out[..p];
      }
    }
  }

  /** The whole fold keeps the trace property from its start. */
  lemma {:induction false} TimingAfterTrace(lines: seq<string>, lo: nat, k: nat, out0: seq<Event>,
                                            parseFloat: string -> Option<real>, parseInt: string -> Option<int>)
    requires lo <= k <= |lines|
    ensures TimingTrace(out0, TimingAfter(lines, lo, k, out0, parseFloat, parseInt))
    decreases k - lo
  {
    if k == lo {
      assert TimingInit(out0).out[..Kept(out0)] == out0[..Kept(out0)];
    } else {
      TimingAfterTrace(lines, lo, k - 1, out0, parseFloat, parseInt);
      var st := TimingAfter(lines, lo, k - 1, out0, parseFloat, parseInt);
      var line := lines[k - 1];
      if line != [] && |Pieces(line, ',', 0)| >= 2 {
        TimingPointTrace(out0, st, Pieces(line, ',', 0), parseFloat, parseInt);
      }
    }
  }

  /**
   * One timing point: the kiai flag rising outside kiai gives a kiai event and
   * enters kiai; otherwise a changed flag or a beat length differing from the
   * last shift by more than FLT_EPSILON gives a shift event, which records the
   * beat length and sets the state to "flag is 14"; anything else is ignored.
   * An inherited beat length is the percentage of the base, which only a
   * non-negative beat length replaces.
   */
  lemma TimingPointEvent(st: TimingState, args: seq<string>, parseFloat: string -> Option<real>,
                         parseInt: string -> Option<int>)
    requires ArgAt(args, 0, parseFloat).Some? && ArgAt(args, 1, parseFloat).Some?
    ensures var r := TimingPoint(st, args, parseFloat, parseInt);
      var t := ArgAt(args, 0, parseFloat).value;
      var v := ArgAt(args, 1, parseFloat).value;
      var flag := if ArgAt(args, 7, parseInt).Some? then ArgAt(args, 7, parseInt).value else 0;
      var value := if v < 0.0 then Abs(v) / 100.0 * st.baseVal else v;
      && r.baseVal == (if v < 0.0 then st.baseVal else v)
      && (!st.kiai && flag != 0 ==> r.kiai && r.lastVal == st.lastVal && r.out == Record(st.out, Event(Kiai, t, value)))
      && (!(!st.kiai && flag != 0) && (st.kiai != (flag != 0) || FLT_EPSILON < Abs(value - st.lastVal)) ==>
            r.kiai == (flag == 14) && r.lastVal == value && r.out == Record(st.out, Event(Shift, t, value)))
      && (!(!st.kiai && flag != 0) && !(st.kiai != (flag != 0) || FLT_EPSILON < Abs(value - st.lastVal)) ==>
            r.kiai == st.kiai && r.lastVal == st.lastVal && r.out == Record(st.out, Event(Ignore, t, value)))
  {
  }

  /**
   * The fold keeps no shift event when its only line starts kiai: a single
   * timing point "0,500,4,2,0,100,1,1" yields one kiai event with beat length
   * 500, so the section reads as successful without any shift event.
   */
  lemma KiaiOnlyTiming(parseFloat: string -> Option<real>, parseInt: string -> Option<int>)
    requires parseFloat("0") == Some(0.0) && parseFloat("500") == Some(500.0) && parseInt("1") == Some(1)
    ensures var st := TimingPoint(TimingInit([]), ["0", "500", "4", "2", "0", "100", "1", "1"], parseFloat, parseInt);
      && st.out == [Event(Kiai, 0.0, 500.0)]
      && st.out[0].value > 1.0
      && FirstShift(st.out) == |st.out|
  {
    var st := TimingPoint(TimingInit([]), ["0", "500", "4", "2", "0", "100", "1", "1"], parseFloat, parseInt);
    assert st.out == [Event(Kiai, 0.0, 500.0)];
  }
}
