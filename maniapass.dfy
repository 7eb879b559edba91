/**
 * The whole osu!mania transform of a beat set: the compaction of the notes
 * into cubes, walls and colour toggles, the removal of the unused tail, then
 * the hand pass over the kept cubes.
 */
module ManiaPass {
  import opened Common
  import opened Lists
  import opened ManiaTransformer
  import opened HandAssignment

  /** The beat set after the transform: the typed kept cubes as targets, the walls as the only objects. */
  ghost function ManiaBeatSet(bs: BeatSet, base: real, sample: real -> real): BeatSet
    requires ColumnsInRange(bs.targets)
  {
    var st := ManiaAfter(bs.targets, base, sample, |bs.targets|);
    bs.(targets := Hands(st.kept), objects := st.walls)
  }

  /**
   * The targets after the transform are at most the notes after the lead-in,
   * keep the times of the kept cubes, and are sorted by time, consecutive cubes
   * sharing a quantized time or lying at least 125 ms apart.
   */
  lemma ManiaTargets(bs: BeatSet, base: real, sample: real -> real)
    requires ColumnsInRange(bs.targets) && base > 0.0
    ensures var st := ManiaAfter(bs.targets, base, sample, |bs.targets|);
      var out := ManiaBeatSet(bs, base, sample).targets;
      && |out| == |st.kept| <= |bs.targets| - FirstAfterLeadIn(bs.targets)
      && (forall j :: 0 <= j < |out| ==> out[j].spawnTime == st.kept[j].spawnTime)
      && TimeSorted(out)
      && (forall j :: 0 < j < |out| ==> Spaced(base, out[j - 1].spawnTime, out[j].spawnTime))
  {
    var st := ManiaAfter(bs.targets, base, sample, |bs.targets|);
    KeptSpaced(bs.targets, base, sample, |bs.targets|);
    assert TimeSorted(st.kept);
    HandsKeepTimes(st.kept);
  }

  /** transform_mania on a beat set in osu!mania mode; evList collects the emitted events, newest first. */
  method TransformMania(bs: BeatSet, base: real, evList: seq<Event>, sample: real -> real) returns (r: BeatSet, evOut: seq<Event>)
    requires bs.setting.mode == OsMania && ColumnsInRange(bs.targets) && base > 0.0
    ensures r == ManiaBeatSet(bs, base, sample)
    ensures evOut == Reverse(ManiaAfter(bs.targets, base, sample, |bs.targets|).toggles) + evList
  {
    var a := new Entity[|bs.targets|](i requires 0 <= i < |bs.targets| => bs.targets[i]);
    assert a[..] == bs.targets;
    var n, walls;
    n, walls, evOut := CompactTargets(a, base, evList, sample);
    ghost var st := ManiaAfter(bs.targets, base, sample, |bs.targets|);
    KeptSpaced(bs.targets, base, sample, |bs.targets|);
    assert TimeSorted(a[..n]);
    AssignHands(a, n);
    r := bs.(targets := a[..n], objects := walls);
  }
}
