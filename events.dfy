/**
 * Generation of the lighting and laser-speed events of the target map from the
 * timing events of the source map. Every generated event is pushed to the front
 * of the output list, so the list holds them in reverse order of emission.
 */
module EventSequencer {
  import opened Common
  import opened BsConstants
  import opened Lists
  import Quantizer

  /** The five channel-off events, emitted first: background, side, left and right laser, low light. */
  function OffEvents(): (r: seq<Event>)
    ensures |r| == 5
    ensures forall k :: 0 <= k < 5 ==> r[k].timestamp == 0.0 && r[k].value == 0.0
  {
    [ Event(LightBg, 0.0, 0.0), Event(LightSd, 0.0, 0.0), Event(LaserLs, 0.0, 0.0),
      Event(LaserRs, 0.0, 0.0), Event(LightLo, 0.0, 0.0) ]
  }

  /**
   * The opening events: all channels off, then the background light on after the
   * lead-in and the side light on at the start, whichever of the two comes first,
   * never before beat 3.
   */
  function Prologue(leadIn: UInt16, start: UInt16, sample: real -> real): seq<Event>
  {
    var lo := if start < leadIn then start else leadIn;
    var hi := if start < leadIn then leadIn else start;
    OffEvents() + [Event(LightBg, Max(3.0, sample(lo as real)), S1_ON), Event(LightSd, Max(3.0, sample(hi as real)), S1_ON)]
  }

  /** A shift event whose beat length differs from the last one seen changes the laser speed. */
  predicate SpeedChanged(ev: Event, tVal: real)
  {
    ev.eventType == Shift && FLT_EPSILON < Abs(tVal - ev.value)
  }

  /** The events emitted for one source event at quantized time `ts`, with `tVal` the last beat length seen. */
  function Burst(ev: Event, ts: real, tVal: real): seq<Event>
  {
    match ev.eventType
    case Shift =>
      if FLT_EPSILON < Abs(tVal - ev.value) then
        var speed := Quantizer.SpeedByPeriod(ev.value) as real;
        [Event(LaserLsSpeed, ts, speed), Event(LaserRsSpeed, ts, speed)]
      else
        [ Event(LaserLs, ts, S2_FL_OFF), Event(LaserRs, ts, S2_FL_OFF), Event(LightLo, ts, S2_FL_OFF),
          Event(LightBg, ts, S1_ON), Event(RingMov, ts, RING_MOV_TOGG_VAL) ]
    case Kiai =>
      [ Event(LightBg, ts, SWITCH_OFF), Event(LaserLs, ts, S2_ON), Event(LaserRs, ts, S2_ON),
        Event(LightLo, ts, S2_ON), Event(RingMov, ts, RING_MOV_TOGG_VAL) ]
    case _ => [Event(RingRot, ts, 0.0)]
  }

  /** The last beat length seen after `ev`. */
  function NextTVal(ev: Event, tVal: real): real
  {
    if SpeedChanged(ev, tVal) then ev.value else tVal
  }

  /** The last beat length seen before the k-th source event (0 before any). */
  function TValBefore(evs: seq<Event>, k: nat): real
    requires k <= |evs|
  {
    if k == 0 then 0.0 else NextTVal(evs[k - 1], TValBefore(evs, k - 1))
  }

  /** The events emitted for the first k source events, in order of emission. */
  function Bursts(evs: seq<Event>, k: nat, sample: real -> real): seq<Event>
    requires k <= |evs|
  {
    if k == 0 then []
    else Bursts(evs, k - 1, sample) + Burst(evs[k - 1], sample(evs[k - 1].timestamp), TValBefore(evs, k - 1))
  }

  /** All events emitted for `evs`, in order of emission. */
  function Emission(evs: seq<Event>, leadIn: UInt16, start: UInt16, sample: real -> real): seq<Event>
  {
    Prologue(leadIn, start, sample) + Bursts(evs, |evs|, sample)
  }

  /** Event types the target game understands: neither the ignored type nor the two source-only ones. */
  predicate IsTargetEventType(t: EventType)
  {
    t != Ignore && t != Kiai && t != Shift
  }

  predicate IsSpeedEvent(t: EventType)
  {
    t == LaserLsSpeed || t == LaserRsSpeed
  }

  /**
   * A burst has 2 events for a changed beat length, 5 for an unchanged shift or a
   * kiai, 1 ring rotation otherwise; all at the quantized time, all of target
   * types, with laser speeds in 1..7.
   */
  lemma BurstShape(ev: Event, ts: real, tVal: real)
    ensures var b := Burst(ev, ts, tVal);
      && |b| == (if SpeedChanged(ev, tVal) then 2 else if ev.eventType == Shift || ev.eventType == Kiai then 5 else 1)
      && (forall k :: 0 <= k < |b| ==> b[k].timestamp == ts && IsTargetEventType(b[k].eventType))
      && (forall k :: 0 <= k < |b| && IsSpeedEvent(b[k].eventType) ==> 1.0 <= b[k].value <= 7.0)
      && (SpeedChanged(ev, tVal) <==> IsSpeedEvent(b[0].eventType))
      && (ev.eventType != Shift && ev.eventType != Kiai <==> b == [Event(RingRot, ts, 0.0)])
  {
  }

  /** The events of the first k bursts: between k and 5k of them, all of target types, laser speeds in 1..7, each at the quantized time of its source event. */
  lemma {:induction false} BurstsShape(evs: seq<Event>, k: nat, sample: real -> real)
    requires k <= |evs|
    ensures var bs := Bursts(evs, k, sample);
      && k <= |bs| <= 5 * k
      && (forall n :: 0 <= n < |bs| ==> IsTargetEventType(bs[n].eventType))
      && (forall n :: 0 <= n < |bs| && IsSpeedEvent(bs[n].eventType) ==> 1.0 <= bs[n].value <= 7.0)
      && (forall n :: 0 <= n < |bs| ==> exists j :: 0 <= j < k && bs[n].timestamp == sample(evs[j].timestamp))
  {
    if k > 0 {
      BurstsShape(evs, k - 1, sample);
      var prev: seq<Event> := Bursts(evs, k - 1, sample);
      var b: seq<Event> := Burst(evs[k - 1], sample(evs[k - 1].timestamp), TValBefore(evs, k - 1));
      BurstShape(evs[k - 1], sample(evs[k - 1].timestamp), TValBefore(evs, k - 1));
      forall n | 0 <= n < |prev + b|
        ensures exists j: nat :: j < k && (prev + b)[n].timestamp == sample(evs[j].timestamp)
      {
        if n < |prev| {
          var j :| 0 <= j < k - 1 && prev[n].timestamp == sample(evs[j].timestamp);
        } else {
          assert (prev + b)[n] == b[n - |prev|];
        }
      }
    }
  }

  /**
   * The emission opens with the five off events at time 0, then the background
   * light on at max(3, q(min(leadIn, start))) and the side light on at
   * max(3, q(max(leadIn, start))), and holds 7 + |evs| to 7 + 5|evs| events.
   */
  lemma EmissionShape(evs: seq<Event>, leadIn: UInt16, start: UInt16, sample: real -> real)
    ensures var e := Emission(evs, leadIn, start, sample);
      && 7 + |evs| <= |e| <= 7 + 5 * |evs|
      && e[..5] == OffEvents()
      && e[5] == Event(LightBg, Max(3.0, sample(if start < leadIn then start as real else leadIn as real)), S1_ON)
      && e[6] == Event(LightSd, Max(3.0, sample(if start < leadIn then leadIn as real else start as real)), S1_ON)
      && (forall n :: 0 <= n < |e| ==> IsTargetEventType(e[n].eventType))
      && (forall n :: 0 <= n < |e| && IsSpeedEvent(e[n].eventType) ==> 1.0 <= e[n].value <= 7.0)
  {
    BurstsShape(evs, |evs|, sample);
    var p: seq<Event> := Prologue(leadIn, start, sample);
    var bs: seq<Event> := Bursts(evs, |evs|, sample);
    assert (p + bs)[..5] == OffEvents();
    forall n | 0 <= n < |p + bs|
      ensures IsTargetEventType((p + bs)[n].eventType)
      ensures IsSpeedEvent((p + bs)[n].eventType) ==> 1.0 <= (p + bs)[n].value <= 7.0
    {
      if n >= |p| {
        assert (p + bs)[n] == bs[n - |p|];
      }
    }
  }

  /** The beat length remembered before the k-th event is 0 or the value of an earlier shift event. */
  lemma {:induction false} TValSeen(evs: seq<Event>, k: nat)
    requires k <= |evs|
    ensures TValBefore(evs, k) == 0.0 || exists j :: 0 <= j < k && evs[j].eventType == Shift && evs[j].value == TValBefore(evs, k)
  {
    if k > 0 {
      TValSeen(evs, k - 1);
    }
  }

  /**
   * Pushes the opening events and, for each source event in order, its burst to
   * the front of `outEvents`.
   */
  method ProcessEvents(inEvents: seq<Event>, outEvents: seq<Event>, leadIn: UInt16, start: UInt16, sample: real -> real)
    returns (out: seq<Event>)
    ensures out == Reverse(Emission(inEvents, leadIn, start, sample)) + outEvents
  {
    var evn: Event;
    evn, out := PushPrologue(outEvents, leadIn, start, sample);
    var tVal := 0.0;
    ghost var pro := Prologue(leadIn, start, sample);
    assert pro + Bursts(inEvents, 0, sample) == pro;
    for k := 0 to |inEvents|
      invariant tVal == TValBefore(inEvents, k)
      invariant out == Reverse(pro + Bursts(inEvents, k, sample)) + outEvents
    {
      var evi := inEvents[k];
      evn, tVal, out := PushBurst(evi, sample(evi.timestamp), tVal, evn, out);
      EmissionStep(inEvents, k, leadIn, start, sample);
      assert out == Reverse(pro + Bursts(inEvents, k + 1, sample)) + outEvents by {
        LeftAssoc(Reverse(Burst(evi, sample(evi.timestamp), TValBefore(inEvents, k))),
                  Reverse(pro + Bursts(inEvents, k, sample)), outEvents);
      }
    }
  }

  /** Concatenation regroups to the left. */
  lemma LeftAssoc(x: seq<Event>, y: seq<Event>, z: seq<Event>)
    ensures x + (y + z) == (x + y) + z
  {
  }

  /** Emitting the burst of the k-th source event after the earlier ones. */
  lemma EmissionStep(evs: seq<Event>, k: nat, leadIn: UInt16, start: UInt16, sample: real -> real)
    requires k < |evs|
    ensures Reverse(Prologue(leadIn, start, sample) + Bursts(evs, k + 1, sample))
         == Reverse(Burst(evs[k], sample(evs[k].timestamp), TValBefore(evs, k)))
            + Reverse(Prologue(leadIn, start, sample) + Bursts(evs, k, sample))
  {
    var p := Prologue(leadIn, start, sample) + Bursts(evs, k, sample);
    var b := Burst(evs[k], sample(evs[k].timestamp), TValBefore(evs, k));
    assert Prologue(leadIn, start, sample) + Bursts(evs, k + 1, sample) == p + b;
    ReverseAppend(p, b);
  }

  /**
   * Pushes the five channel-off events (the default event with each light type)
   * and the two turn-on events; returns the work event as last set.
   */
  method PushPrologue(outEvents: seq<Event>, leadIn: UInt16, start: UInt16, sample: real -> real)
    returns (evn: Event, out: seq<Event>)
    ensures out == Reverse(Prologue(leadIn, start, sample)) + outEvents
  {
    var tLeadIn, tStart := leadIn, start;
    if tStart < tLeadIn {
      tLeadIn, tStart := tStart, tLeadIn;
    }
    evn := DEFAULT_EVENT;
    var lights := [LightBg, LightSd, LaserLs, LaserRs, LightLo];
    out := outEvents;
    for j := 0 to 5
      invariant evn.timestamp == 0.0 && evn.value == 0.0
      invariant out == Reverse(OffEvents()[..j]) + outEvents
    {
      evn := evn.(eventType := lights[j]);
      ReversePush(OffEvents()[..j], evn);
      assert OffEvents()[..j] + [evn] == OffEvents()[..j + 1];
      out := [evn] + out;
    }
    assert OffEvents()[..5] == OffEvents();
    evn := evn.(eventType := lights[0], timestamp := Max(3.0, sample(tLeadIn as real)), value := S1_ON);
    out := [evn] + out;
    evn := evn.(timestamp := Max(3.0, sample(tStart as real)), value := S1_ON, eventType := lights[1]);
    out := [evn] + out;
    PrologueOrder(leadIn, start, sample);
  }

  /** The opening events, as pushed: the side light on, the background light on, then the five off events. */
  lemma PrologueOrder(leadIn: UInt16, start: UInt16, sample: real -> real)
    ensures var lo := if start < leadIn then start else leadIn;
      var hi := if start < leadIn then leadIn else start;
      Reverse(Prologue(leadIn, start, sample))
        == [Event(LightSd, Max(3.0, sample(hi as real)), S1_ON), Event(LightBg, Max(3.0, sample(lo as real)), S1_ON)]
           + Reverse(OffEvents())
  {
    var lo := if start < leadIn then start else leadIn;
    var hi := if start < leadIn then leadIn else start;
    var bgOn := Event(LightBg, Max(3.0, sample(lo as real)), S1_ON);
    var sdOn := Event(LightSd, Max(3.0, sample(hi as real)), S1_ON);
    ReverseTwo(bgOn, sdOn);
    ReverseAppend(OffEvents(), [bgOn, sdOn]);
  }

  /**
   * Pushes the burst of the source event `evi` at quantized time `ts` to the front
   * of `out`, reusing the work event `evn`; returns the last beat length seen.
   */
  method PushBurst(evi: Event, ts: real, tVal: real, evn: Event, out: seq<Event>)
    returns (evn': Event, tVal': real, out': seq<Event>)
    ensures tVal' == NextTVal(evi, tVal)
    ensures out' == Reverse(Burst(evi, ts, tVal)) + out
  {
    evn', tVal', out' := evn.(timestamp := ts), tVal, out;
    ghost var e1, e2, e3, e4: Event;
    match evi.eventType {
      case Shift =>
        if FLT_EPSILON < Abs(tVal' - evi.value) {
          evn' := evn'.(eventType := LaserLsSpeed, value := Quantizer.SpeedByPeriod(evi.value) as real);
          out', e1 := [evn'] + out', evn';
          evn' := evn'.(eventType := LaserRsSpeed);
          tVal' := evi.value;
          ReverseTwo(e1, evn');
        } else {
          evn' := evn'.(value := S2_FL_OFF, eventType := LaserLs);
          out', e1 := [evn'] + out', evn';
          evn' := evn'.(eventType := LaserRs);
          out', e2 := [evn'] + out', evn';
          evn' := evn'.(eventType := LightLo);
          out', e3 := [evn'] + out', evn';
          evn' := evn'.(eventType := LightBg, value := S1_ON);
          out', e4 := [evn'] + out', evn';
          evn' := evn'.(eventType := RingMov, value := RING_MOV_TOGG_VAL);
          ReverseFive(e1, e2, e3, e4, evn');
        }
      case Kiai =>
        evn' := evn'.(eventType := LightBg, value := SWITCH_OFF);
        out', e1 := [evn'] + out', evn';
        evn' := evn'.(value := S2_ON, eventType := LaserLs);
        out', e2 := [evn'] + out', evn';
        evn' := evn'.(eventType := LaserRs);
        out', e3 := [evn'] + out', evn';
        evn' := evn'.(eventType := LightLo);
        out', e4 := [evn'] + out', evn';
        evn' := evn'.(eventType := RingMov, value := RING_MOV_TOGG_VAL);
        ReverseFive(e1, e2, e3, e4, evn');
      case _ =>
        evn' := evn'.(eventType := RingRot, value := 0.0);
        ReverseOne(evn');
    }
    out' := [evn'] + out';
  }
}
