/**
 * The target-game sequencer: turns a parsed osu! beat set into a Beat Saber one.
 * It finds the first note after the lead-in, emits the lighting events, runs the
 * mania or taiko transform, sorts the collected events by time (stable) into the
 * beat set's event list and sets the target-game meta data.
 */
module BeatSaberSequencer {
  import opened Common
  import opened BsConstants
  import opened Lists
  import Quantizer
  import opened EventSequencer
  import opened ManiaTransformer
  import opened ManiaPass
  import opened TaikoTransformer

  /* mode flags of the sequencer */
  const SUPPORTED: bv8 := 0x0
  const TWO_HAND: bv8 := 0x1
  const ONE_HAND: bv8 := 0x2
  const FREESTYLE: bv8 := 0x4

  const UINT16_MAX: real := 65535.0

  /** Length of one beat in ms, from the average rate clamped to 1..300 bpm. */
  function BaseTime(bpm: real): (r: real)
    ensures 200.0 <= r <= 60000.0
    ensures 1.0 <= bpm <= BS_MAX_BPM ==> r * bpm == 60000.0
    ensures bpm <= 1.0 ==> r == 60000.0
    ensures bpm >= BS_MAX_BPM ==> r == 200.0
  {
    60000.0 / Max(1.0, Min(bpm, BS_MAX_BPM))
  }

  /** A faster rate never gives a longer beat. */
  lemma BaseTimeAntitone(bpm1: real, bpm2: real)
    requires bpm1 <= bpm2
    ensures BaseTime(bpm2) <= BaseTime(bpm1)
  {
    var c1 := Max(1.0, Min(bpm1, BS_MAX_BPM));
    var c2 := Max(1.0, Min(bpm2, BS_MAX_BPM));
    assert 1.0 <= c1 <= c2;
    Quantizer.DivAntitone(60000.0, c1, c2);
  }

  /** The time of the first note, cut to 16 bits (truncating toward zero). */
  function StartMs(tFirst: real): (r: UInt16)
    requires tFirst >= 0.0
    ensures r as real <= tFirst && r as real <= UINT16_MAX
    ensures tFirst < UINT16_MAX ==> tFirst < r as real + 1.0
    ensures tFirst >= UINT16_MAX ==> r == 0xFFFF
  {
    Min(tFirst, UINT16_MAX).Floor
  }

  /** Scans for the first note later than the lead-in. */
  method FindFirstTarget(targets: seq<Entity>) returns (i: nat)
    ensures i == FirstAfterLeadIn(targets)
  {
    i := 0;
    while i < |targets| && targets[i].spawnTime <= LEAD_IN_TIME_MS
      invariant i <= |targets|
      invariant forall j :: 0 <= j < i ==> targets[j].spawnTime <= LEAD_IN_TIME_MS
    {
      i := i + 1;
    }
    FirstAfterLeadInUnique(targets, i);
  }

  /** The first note after the lead-in is characterised by its position. */
  lemma FirstAfterLeadInUnique(targets: seq<Entity>, i: nat)
    requires i <= |targets|
    requires forall j :: 0 <= j < i ==> targets[j].spawnTime <= LEAD_IN_TIME_MS
    requires i < |targets| ==> LEAD_IN_TIME_MS < targets[i].spawnTime
    ensures i == FirstAfterLeadIn(targets)
  {
  }

  /* ---------- stable sort of the collected events ---------- */

  /** Places e before the first event not earlier than it. */
  function InsertByTime(e: Event, s: seq<Event>): (r: seq<Event>)
    ensures |r| == |s| + 1 && multiset(r) == multiset(s) + multiset{e}
  {
    if |s| == 0 || e.timestamp <= s[0].timestamp then [e] + s
    else
      assert s == [s[0]] + s[1..];
      [s[0]] + InsertByTime(e, s[1..])
  }

  /**
   * The list sort with the "earlier timestamp" comparison: an insertion sort,
   * each event going before the sorted rest from its first equal or later event.
   */
  function SortByTime(s: seq<Event>): (r: seq<Event>)
    ensures |r| == |s|
  {
    if |s| == 0 then [] else InsertByTime(s[0], SortByTime(s[1..]))
  }

  predicate TimeOrdered(s: seq<Event>)
  {
    forall a, b :: 0 <= a < b < |s| ==> s[a].timestamp <= s[b].timestamp
  }

  /** The events of s at time t, in the order of s. */
  function AtTime(s: seq<Event>, t: real): (r: seq<Event>)
    ensures |r| <= |s|
  {
    if |s| == 0 then []
    else (if s[0].timestamp == t then [s[0]] else []) + AtTime(s[1..], t)
  }

  lemma {:induction false} InsertOrdered(e: Event, s: seq<Event>)
    requires TimeOrdered(s)
    ensures TimeOrdered(InsertByTime(e, s))
    ensures |s| > 0 ==> InsertByTime(e, s)[0].timestamp == Min(e.timestamp, s[0].timestamp)
  {
    if |s| > 0 && e.timestamp > s[0].timestamp {
      var rest := s[1..];
      assert TimeOrdered(rest) by {
        forall a, b | 0 <= a < b < |rest| ensures rest[a].timestamp <= rest[b].timestamp {
          assert rest[a] == s[a + 1] && rest[b] == s[b + 1];
        }
      }
      InsertOrdered(e, rest);
      var r := InsertByTime(e, s);
      var tail := InsertByTime(e, rest);
      assert r == [s[0]] + tail;
      forall a, b | 0 <= a < b < |r| ensures r[a].timestamp <= r[b].timestamp {
        if a == 0 {
          if |rest| > 0 {
            assert s[0].timestamp <= s[1].timestamp;
            assert tail[0].timestamp == Min(e.timestamp, rest[0].timestamp);
          }
          assert tail[0].timestamp <= tail[b - 1].timestamp;
        } else {
          assert r[a] == tail[a - 1] && r[b] == tail[b - 1];
        }
      }
    }
  }

  /** The sorted list is ordered by time. */
  lemma {:induction false} SortOrdered(s: seq<Event>)
    ensures TimeOrdered(SortByTime(s))
  {
    if |s| > 0 {
      SortOrdered(s[1..]);
      InsertOrdered(s[0], SortByTime(s[1..]));
    }
  }

  /** The sorted list is a permutation of the list. */
  lemma {:induction false} SortPermutes(s: seq<Event>)
    ensures multiset(SortByTime(s)) == multiset(s)
  {
    if |s| > 0 {
      SortPermutes(s[1..]);
      assert s == [s[0]] + s[1..];
    }
  }

  lemma {:induction false} InsertAtTime(e: Event, s: seq<Event>, t: real)
    ensures e.timestamp == t ==> AtTime(InsertByTime(e, s), t) == [e] + AtTime(s, t)
    ensures e.timestamp != t ==> AtTime(InsertByTime(e, s), t) == AtTime(s, t)
  {
    if |s| == 0 || e.timestamp <= s[0].timestamp {
      assert AtTime(InsertByTime(e, s), t) == (if e.timestamp == t then [e] else []) + AtTime(s, t) by {
        assert ([e] + s)[1..] == s;
      }
    } else {
      var tail := InsertByTime(e, s[1..]);
      var head := if s[0].timestamp == t then [s[0]] else [];
      assert AtTime(InsertByTime(e, s), t) == head + AtTime(tail, t) by {
        assert ([s[0]] + tail)[1..] == tail;
      }
      assert AtTime(s, t) == head + AtTime(s[1..], t);
      InsertAtTime(e, s[1..], t);
    }
  }

  /** Stability: for every timestamp, the events at that time keep their order. */
  lemma {:induction false} SortStable(s: seq<Event>, t: real)
    ensures AtTime(SortByTime(s), t) == AtTime(s, t)
  {
    if |s| > 0 {
      SortStable(s[1..], t);
      InsertAtTime(s[0], SortByTime(s[1..]), t);
    }
  }

  /* ---------- moving the sorted events into the beat set ---------- */

  /** The event list after the sorted events overwrite its first entries and the surplus is appended. */
  function Overwritten(events: seq<Event>, sorted: seq<Event>): (r: seq<Event>)
    ensures |r| == MaxNat(|events|, |sorted|)
    ensures forall k :: 0 <= k < |r| ==> r[k] == if k < |sorted| then sorted[k] else events[k]
    ensures multiset(r) == multiset(sorted) + multiset(events[MinNat(|sorted|, |events|)..])
  {
    if |sorted| >= |events| then sorted else sorted + events[|sorted|..]
  }

  /** Moves the list into the event vector: overwriting while old entries remain, then appending. */
  method MoveEvents(events: seq<Event>, sorted: seq<Event>) returns (r: seq<Event>)
    ensures r == Overwritten(events, sorted)
  {
    r := events;
    var sz := |events|;
    var k := 0;
    while k < |sorted|
      invariant k <= |sorted|
      invariant |r| == MaxNat(|events|, k)
      invariant sz == |events| - MinNat(k, |events|)
      invariant k <= |events| ==> r[..k] == sorted[..k] && r[k..] == events[k..]
      invariant k >= |events| ==> r == sorted[..k]
    {
      if sz > 0 {
        r := r[k := sorted[k]];
        sz := sz - 1;
      } else {
        r := r + [sorted[k]];
      }
      k := k + 1;
    }
    assert sorted[..k] == sorted;
  }

  /* ---------- the whole transform ---------- */

  datatype TransformError = UnsupportedMode

  /** The quantizer of the beat set: beats of the base time, up to the subgrid denominator. */
  function Sampler(base: real, subgrid: UInt8): real -> real
  {
    t => Quantizer.Quantized(t, base, subgrid)
  }

  /** What the transform demands of an osu! beat set: a note after the lead-in, a stage level naming a stage, columns on the playfield for mania. */
  predicate Transformable(bs: BeatSet)
  {
    && FirstAfterLeadIn(bs.targets) < |bs.targets|
    && bs.stageLevel / 2 < |STAGE_NAMES|
    && (bs.setting.mode == OsMania ==> ColumnsInRange(bs.targets))
  }

  /** The events collected before the mode transform, newest first: the emission, then the first-colour event when the first note starts no combo. */
  function OpeningEvents(bs: BeatSet): seq<Event>
    requires FirstAfterLeadIn(bs.targets) < |bs.targets|
  {
    var base := BaseTime(bs.media.averageRateBpm);
    var sample := Sampler(base, bs.setting.subgridSize);
    var first := bs.targets[FirstAfterLeadIn(bs.targets)];
    var evList := Reverse(Emission(bs.events, bs.setting.leadInMs, StartMs(first.spawnTime), sample));
    if IsComboStart(first.kind) then evList
    else [Event(LightSd, sample(first.spawnTime), S1_ON)] + evList
  }

  /** The colour toggles of the mode transform, in order of emission. */
  ghost function ModeToggles(bs: BeatSet, area: real -> HitArea): seq<Event>
    requires Transformable(bs)
  {
    var base := BaseTime(bs.media.averageRateBpm);
    var sample := Sampler(base, bs.setting.subgridSize);
    if bs.setting.mode == OsMania then ManiaAfter(bs.targets, base, sample, |bs.targets|).toggles
    else TaikoAfter(bs.targets, FirstAfterLeadIn(bs.targets), |bs.targets|, base, bs.objects, area, sample).toggles
  }

  /** All events collected by the transform, newest first. */
  ghost function CollectedEvents(bs: BeatSet, area: real -> HitArea): seq<Event>
    requires Transformable(bs)
  {
    Reverse(ModeToggles(bs, area)) + OpeningEvents(bs)
  }

  /** The play modes with a transform. */
  predicate HasTransform(mode: GameMode)
  {
    mode == OsMania || mode == OsTaiko
  }

  /** The beat set after the mode transform: new targets and objects, the target-game mode and the mode part of the map name. */
  ghost function ModeTransformed(bs: BeatSet, area: real -> HitArea): BeatSet
    requires Transformable(bs) && HasTransform(bs.setting.mode)
  {
    var base := BaseTime(bs.media.averageRateBpm);
    var sample := Sampler(base, bs.setting.subgridSize);
    if bs.setting.mode == OsMania then
      ManiaBeatSet(bs, base, sample).(setting := bs.setting.(mode := Bs2HFree, mapName := MODE_NAME_NA))
    else
      var st := TaikoAfter(bs.targets, FirstAfterLeadIn(bs.targets), |bs.targets|, base, bs.objects, area, sample);
      bs.(targets := TwoHanded(st.tars), objects := st.objs, setting := bs.setting.(mode := Bs2H, mapName := MODE_NAME_NM))
  }

  /** The transformed beat set, or the error for a mode without a transform. */
  ghost function Transformed(bs: BeatSet, area: real -> HitArea): (r: Result<BeatSet, TransformError>)
    requires bs.game == BeatSaber || Transformable(bs)
  {
    if bs.game == BeatSaber then Ok(bs)
    else if !HasTransform(bs.setting.mode) then Err(UnsupportedMode)
    else
      var m := ModeTransformed(bs, area);
      Ok(m.(game := BeatSaber,
            events := Overwritten(bs.events, SortByTime(CollectedEvents(bs, area))),
            setting := m.setting.(mapName := m.setting.mapName + STAGE_NAMES[bs.stageLevel / 2])))
  }

  /**
   * The sequencer object; its mode flags collect the play modes the transformed
   * beat sets support.
   */
  class BsSequencer {
    var enabledModes: bv8

    constructor()
      ensures enabledModes == SUPPORTED
    {
      enabledModes := SUPPORTED;
    }

    method SetMode(flags: bv8)
      modifies this
      ensures enabledModes == flags
    {
      enabledModes := flags;
    }

    /**
     * transformBeatset: a target-game beat set is returned as it is; an osu!
     * one is transformed, or rejected when its mode has no transform. A taiko
     * transform enables the two-hand mode.
     */
    method TransformBeatset(bs: BeatSet, area: real -> HitArea) returns (r: Result<BeatSet, TransformError>)
      requires bs.game == BeatSaber || (bs.game == Osu && Transformable(bs))
      modifies this
      ensures r == Transformed(bs, area)
      ensures enabledModes ==
        (if bs.game == Osu && bs.setting.mode == OsTaiko then old(enabledModes) | TWO_HAND else old(enabledModes))
    {
      if bs.game == BeatSaber {
        return Ok(bs);
      }
      var base := BaseTime(bs.media.averageRateBpm);
      var sample := Sampler(base, bs.setting.subgridSize);
      var iFst := FindFirstTarget(bs.targets);
      var tFirst := bs.targets[iFst].spawnTime;
      var evList := ProcessEvents(bs.events, [], bs.setting.leadInMs, StartMs(tFirst), sample);
      if !IsComboStart(bs.targets[iFst].kind) {
        var qFirst := Quantizer.QuantizeTimestamp(tFirst, base, bs.setting.subgridSize);
        evList := [Event(LightSd, qFirst, S1_ON)] + evList;
      }
      assert evList == OpeningEvents(bs);
      var out: BeatSet;
      match bs.setting.mode {
        case OsMania =>
          out, evList := TransformMania(bs, base, evList, sample);
          assert evList == CollectedEvents(bs, area);
          out := out.(setting := out.setting.(mode := Bs2HFree, mapName := MODE_NAME_NA));
          assert out == ModeTransformed(bs, area);
        case OsTaiko =>
          var tars, objs;
          tars, evList, objs := TransformTaiko(bs.targets, iFst, base, evList, bs.objects, area, sample, true);
          assert evList == CollectedEvents(bs, area);
          enabledModes := enabledModes | TWO_HAND;
          out := bs.(targets := tars, objects := objs, setting := bs.setting.(mode := Bs2H, mapName := MODE_NAME_NM));
          assert out == ModeTransformed(bs, area);
        case _ =>
          return Err(UnsupportedMode);
      }
      var events := MoveEvents(bs.events, SortByTime(evList));
      out := out.(game := BeatSaber, events := events,
                  setting := out.setting.(mapName := out.setting.mapName + STAGE_NAMES[bs.stageLevel / 2]));
      r := Ok(out);
    }
  }

  /* ---------- what the transform promises ---------- */

  /** The opening events number at least seven more than the source events. */
  lemma OpeningEventsLength(bs: BeatSet)
    requires FirstAfterLeadIn(bs.targets) < |bs.targets|
    ensures |bs.events| + 7 <= |OpeningEvents(bs)|
  {
    var base := BaseTime(bs.media.averageRateBpm);
    var first := bs.targets[FirstAfterLeadIn(bs.targets)];
    EmissionShape(bs.events, bs.setting.leadInMs, StartMs(first.spawnTime), Sampler(base, bs.setting.subgridSize));
  }

  /**
   * Moving the sorted list into an event vector no longer than it leaves exactly
   * the sorted list: ordered by time, a permutation of the list, and with the
   * events of each timestamp in list order.
   */
  lemma SortedInto(events: seq<Event>, evs: seq<Event>)
    requires |events| <= |evs|
    ensures var r := Overwritten(events, SortByTime(evs));
      && r == SortByTime(evs)
      && TimeOrdered(r)
      && multiset(r) == multiset(evs)
      && (forall t :: AtTime(r, t) == AtTime(evs, t))
  {
    SortOrdered(evs);
    SortPermutes(evs);
    forall t ensures AtTime(SortByTime(evs), t) == AtTime(evs, t) {
      SortStable(evs, t);
    }
  }

  /**
   * After a successful transform of an osu! beat set, the events are exactly the
   * collected ones sorted by time, a permutation of them, with events of equal
   * time in the order of the collected list (newest emission first), and there
   * are more of them than before.
   */
  lemma TransformedEvents(bs: BeatSet, area: real -> HitArea)
    requires bs.game == Osu && Transformable(bs)
    ensures var r := Transformed(bs, area);
      r.Ok? ==>
        var evs := CollectedEvents(bs, area);
        && r.value.events == SortByTime(evs)
        && TimeOrdered(r.value.events)
        && multiset(r.value.events) == multiset(evs)
        && (forall t :: AtTime(r.value.events, t) == AtTime(evs, t))
        && |bs.events| < |r.value.events|
  {
    var evs := CollectedEvents(bs, area);
    OpeningEventsLength(bs);
    SortedInto(bs.events, evs);
  }

  /**
   * A successful transform yields a target-game beat set whose mode and map name
   * follow the source mode: two-hand free with "NoArrows" for mania, two-hand with
   * "Standard" for taiko, followed by the stage name; any other mode is rejected.
   */
  lemma TransformedMeta(bs: BeatSet, area: real -> HitArea)
    requires bs.game == Osu && Transformable(bs)
    ensures var r := Transformed(bs, area);
      && (r.Ok? <==> HasTransform(bs.setting.mode))
      && (r.Ok? ==>
           && r.value.game == BeatSaber
           && r.value.setting.mode == (if bs.setting.mode == OsMania then Bs2HFree else Bs2H)
           && r.value.setting.mapName
              == (if bs.setting.mode == OsMania then MODE_NAME_NA else MODE_NAME_NM) + STAGE_NAMES[bs.stageLevel / 2]
           && r.value.setting.leadInMs == bs.setting.leadInMs
           && r.value.setting.subgridSize == bs.setting.subgridSize
           && r.value.media == bs.media && r.value.stageLevel == bs.stageLevel)
  {
  }

  /** The transform of a target-game beat set leaves it unchanged, and a transformed beat set is not transformed again. */
  lemma TransformIdempotent(bs: BeatSet, area: real -> HitArea)
    requires bs.game == Osu && Transformable(bs)
    ensures var r := Transformed(bs, area);
      r.Ok? ==> r.value.game == BeatSaber && Transformed(r.value, area) == r
  {
  }

  /* ---------- the difficulty list of the map info ---------- */

  /** One entry of a characteristic's difficulty list: stage name, rank and note-jump offset. */
  datatype StageEntry = StageEntry(name: string, rank: nat, offset: nat)

  /** The entries of the flagged stages from slot i on, in slot order; only the last stage has offset 1. */
  function StageEntries(flags: seq<bool>, i: nat): (r: seq<StageEntry>)
    requires |flags| == |STAGE_NAMES| && i <= |flags|
    ensures |r| <= |flags| - i
    decreases |flags| - i
  {
    if i == |flags| then []
    else if flags[i] then [StageEntry(STAGE_NAMES[i], 2 * i + 1, if i == 4 then 1 else 0)] + StageEntries(flags, i + 1)
    else StageEntries(flags, i + 1)
  }

  /** Some stage from slot i on is flagged. */
  predicate AnyFrom(flags: seq<bool>, i: nat)
    requires i <= |flags|
  {
    exists j :: i <= j < |flags| && flags[j]
  }

  /** The separators the list writes from slot i on: one after each flagged stage that a flagged stage follows. */
  function Separators(flags: seq<bool>, i: nat): nat
    requires i <= |flags|
    decreases |flags| - i
  {
    if i == |flags| then 0
    else (if flags[i] && AnyFrom(flags, i + 1) then 1 else 0) + Separators(flags, i + 1)
  }

  /** Each entry names a flagged stage from slot i on, with rank 2j + 1 for slot j and offset 1 only for the last stage. */
  lemma {:induction false} StageEntriesFlagged(flags: seq<bool>, i: nat)
    requires |flags| == |STAGE_NAMES| && i <= |flags|
    ensures forall e :: e in StageEntries(flags, i) ==>
      && e.rank % 2 == 1 && i <= e.rank / 2 < |flags| && flags[e.rank / 2]
      && e.name == STAGE_NAMES[e.rank / 2]
      && e.offset == (if e.rank / 2 == 4 then 1 else 0)
    decreases |flags| - i
  {
    if i < |flags| {
      StageEntriesFlagged(flags, i + 1);
    }
  }

  /** The entries come in strictly ascending rank. */
  lemma {:induction false} StageEntriesAscending(flags: seq<bool>, i: nat)
    requires |flags| == |STAGE_NAMES| && i <= |flags|
    ensures forall k, l :: 0 <= k < l < |StageEntries(flags, i)| ==> StageEntries(flags, i)[k].rank < StageEntries(flags, i)[l].rank
    decreases |flags| - i
  {
    if i < |flags| {
      StageEntriesAscending(flags, i + 1);
      StageEntriesFlagged(flags, i + 1);
      var t := StageEntries(flags, i + 1);
      assert forall l :: 0 <= l < |t| ==> t[l].rank > 2 * i + 1 by {
        forall l | 0 <= l < |t| ensures t[l].rank > 2 * i + 1 {
          assert t[l] in t;
        }
      }
    }
  }

  /** Every flagged stage from slot i on has its entry. */
  lemma {:induction false} StageEntriesComplete(flags: seq<bool>, i: nat, j: nat)
    requires |flags| == |STAGE_NAMES| && i <= j < |flags| && flags[j]
    ensures StageEntry(STAGE_NAMES[j], 2 * j + 1, if j == 4 then 1 else 0) in StageEntries(flags, i)
    decreases j - i
  {
    if i < j {
      StageEntriesComplete(flags, i + 1, j);
    }
  }

  /** Some stage from slot i on is flagged exactly when slot i is or some later one is. */
  lemma AnyFromStep(flags: seq<bool>, i: nat)
    requires i < |flags|
    ensures AnyFrom(flags, i) <==> flags[i] || AnyFrom(flags, i + 1)
  {
    if AnyFrom(flags, i) && !flags[i] {
      var j :| i <= j < |flags| && flags[j];
      assert j > i;
    }
  }

  /** The list is empty exactly when no stage from slot i on is flagged. */
  lemma {:induction false} StageEntriesEmpty(flags: seq<bool>, i: nat)
    requires |flags| == |STAGE_NAMES| && i <= |flags|
    ensures StageEntries(flags, i) == [] <==> !AnyFrom(flags, i)
    decreases |flags| - i
  {
    if i < |flags| {
      StageEntriesEmpty(flags, i + 1);
      AnyFromStep(flags, i);
    }
  }

  /** The list writes exactly one separator between consecutive entries. */
  lemma {:induction false} SeparatorsBetween(flags: seq<bool>, i: nat)
    requires |flags| == |STAGE_NAMES| && i <= |flags|
    ensures Separators(flags, i) == if AnyFrom(flags, i) then |StageEntries(flags, i)| - 1 else 0
    decreases |flags| - i
  {
    if i < |flags| {
      SeparatorsBetween(flags, i + 1);
      StageEntriesEmpty(flags, i + 1);
      AnyFromStep(flags, i);
    }
  }
}
