/**
 * Reading an osu! beatmap into a beat set: the [General] section gives the audio
 * file, preview time, lead-in and game mode; [Metadata] gives title, artist and
 * creator; [TimingPoints] gives the events and the average rate; [HitObjects]
 * gives the targets. The beatmap file is a vector of lines with a game type and
 * a file name.
 */
module OsuParser {
  import opened Common
  import opened XString
  import opened OsuSections
  import opened OsuTiming
  import opened OsuHitObjects

  /** A loaded beatmap file. */
  datatype Beatmap = Beatmap(lines: seq<string>, game: GameType, filename: string)

  /** A beatmap with lines, a known game and a file name. */
  predicate IsValid(b: Beatmap)
  {
    |b.lines| > 0 && b.game != UnknownGame && b.filename != []
  }

  /** The range of all lines. */
  function WholeFile(lines: seq<string>): (r: StringSequence)
    ensures InLines(r, lines) && r.end == r.begin + r.distance
    ensures r.IsEmpty() <==> |lines| == 0
  {
    StringSequence(0, |lines|, |lines|)
  }

  /** The largest finite single-precision value. */
  const FLT_MAX: real := 340282346638528859811704183484516925440.0

  /** The "Mode" code of the file: 3 is osu!mania, 1 is osu!taiko, anything else is not supported. */
  function ModeOf(code: int): (m: GameMode)
    ensures m == OsMania <==> code == 3
    ensures m == OsTaiko <==> code == 1
    ensures m == Undefined <==> code != 1 && code != 3
  {
    match code
    case 3 => OsMania
    case 1 => OsTaiko
    case _ => Undefined
  }

  /**
   * Beats per minute of a beat period in milliseconds. A zero period divides to
   * +infinity in floats; the model uses the largest float instead, which agrees
   * once BaseTime clamps the rate to 300.
   */
  function Rate(period: real): (r: real)
    ensures period != 0.0 ==> r * period == 60000.0
    ensures period > 0.0 ==> r > 0.0
  {
    if period == 0.0 then FLT_MAX else 60000.0 / period
  }

  /* ---------- sections ---------- */

  /** The dictionary as the tag scan builds it: element indices are not negative and tell the tags apart. */
  predicate TagsScanned(dict: TagDict)
  {
    && TagsNumbered(dict)
    && forall a, b :: a in dict && b in dict && dict[a].0 == dict[b].0 ==> a == b
  }

  /** The line of the tag numbered n + 1, or SIZE_MAX. */
  ghost function NextLine(dict: TagDict, n: int): nat
  {
    var m := (if n < 0 then 0 else n) + 1;
    if m < |dict| && exists k :: k in dict && dict[k].0 == m then
      var k :| k in dict && dict[k].0 == m;
      dict[k].1
    else SIZE_MAX
  }

  /** The lines of a section: from its tag's line to the next tag's line, both included and clamped to the file. */
  ghost function Section(lines: seq<string>, dict: TagDict, tag: string): (r: Option<StringSequence>)
    requires |lines| > 0 && TagsNumbered(dict)
    ensures r.None? <==> tag !in dict
  {
    var p := GetMappedPair(dict, tag);
    if p.0 < 0 then None
    else Some(MakeSubsequence(WholeFile(lines), p.1, NextLine(dict, p.0)).value)
  }

  /** A non-empty, consistent range within the lines. */
  predicate SectionFits(ss: StringSequence, lines: seq<string>)
  {
    InLines(ss, lines) && ss.distance > 0 && ss.end == ss.begin + ss.distance
  }

  /** A section lies within the file, is not empty and is consistent. */
  lemma SectionShape(lines: seq<string>, dict: TagDict, tag: string)
    requires |lines| > 0 && TagsScanned(dict)
    ensures var r := Section(lines, dict, tag);
      r.Some? ==> (&& SectionFits(r.value, lines)
                   && r.value.begin == MinNat(MinNat(dict[tag].1, NextLine(dict, dict[tag].0)), |lines| - 1))
  {
    var r := Section(lines, dict, tag);
    if r.Some? {
      MappedPairFound(dict, tag);
    }
  }

  /** Locates a section through the tag dictionary. */
  method FindSection(lines: seq<string>, dict: TagDict, tag: string) returns (r: Option<StringSequence>)
    requires |lines| > 0 && TagsScanned(dict)
    ensures r == Section(lines, dict, tag)
  {
    var p := GetMappedPair(dict, tag);
    if p.0 < 0 {
      return None;
    }
    assert tag in dict;
    assert |dict| > 0 by {
      assert tag in dict.Keys;
    }
    var next := GetNextMappedLine(dict, p.0);
    ghost var m := (if p.0 < 0 then 0 else p.0) + 1;
    if m < |dict| && exists k :: k in dict && dict[k].0 == m {
      var k :| k in dict && dict[k].0 == m;
      NextMappedLineUnique(dict, m, next, k);
    }
    var sub := MakeSubsequence(WholeFile(lines), p.1, next);
    return Some(sub.value);
  }

  /* ---------- the parse ---------- */

  /** The strings the parse tests for blanks fit a std::string. */
  predicate NamesFit(bs: BeatSet)
  {
    |bs.media.filename| < NPOS && |bs.setting.mapName| < NPOS
  }

  /** The beat set names an audio file, a map and a supported mode. */
  predicate GeneralComplete(bs: BeatSet)
    requires NamesFit(bs)
  {
    && !IsEmptyOrWhitespace(Some(bs.media.filename))
    && bs.setting.mode != Undefined
    && !IsEmptyOrWhitespace(Some(bs.setting.mapName))
  }

  /** Timing points the rate can be taken from: a first beat length over 1 ms and some shift event. */
  predicate TimingUsable(events: seq<Event>)
  {
    |events| > 0 && events[0].value > 1.0 && FirstShift(events) < |events|
  }

  /** The setting after [General]: the map is named after the file; lead-in and mode are read. */
  function GeneralSetting(lines: seq<string>, sec: StringSequence, filename: string, s0: Setting,
                          parseInt: string -> Option<int>): Setting
    requires InLines(sec, lines) && LinesFit(lines)
  {
    s0.(mapName := filename,
        leadInMs := IntAttribute(lines, sec, PROP_LEAD_IN, 0, parseInt) % 0x1_0000,
        mode := ModeOf(IntAttribute(lines, sec, PROP_MODE, -1, parseInt)))
  }

  /** The media after [General]: audio file name and preview time are read. */
  function GeneralMedia(lines: seq<string>, sec: StringSequence, m0: MediaInfo,
                        parseInt: string -> Option<int>): MediaInfo
    requires InLines(sec, lines) && LinesFit(lines)
  {
    m0.(filename := GetStrAttribute(lines, sec, PROP_MEDIA_NAME),
        previewStartMs := IntAttribute(lines, sec, PROP_PREVIEW, 0, parseInt) % 0x1_0000_0000)
  }

  /** The media after [Metadata]: title, artist and creator are read. */
  function MetadataMedia(lines: seq<string>, sec: StringSequence, m0: MediaInfo): MediaInfo
    requires InLines(sec, lines) && LinesFit(lines)
  {
    m0.(title := GetStrAttribute(lines, sec, PROP_TITLE),
        artist := GetStrAttribute(lines, sec, PROP_ARTIST),
        author := GetStrAttribute(lines, sec, PROP_AUTHOR))
  }

  /** The beat set after the game, subgrid, [General] and [Metadata] steps. */
  ghost function HeaderRead(b: Beatmap, dict: TagDict, out0: BeatSet, parseInt: string -> Option<int>): (r: BeatSet)
    requires |b.lines| > 0 && LinesFit(b.lines) && TagsScanned(dict)
    requires |b.filename| < NPOS && NamesFit(out0)
    ensures NamesFit(r)
  {
    var whole := WholeFile(b.lines);
    var gen := Section(b.lines, dict, TAG_GENERAL);
    var meta := Section(b.lines, dict, TAG_METADATA);
    SectionShape(b.lines, dict, TAG_GENERAL);
    SectionShape(b.lines, dict, TAG_METADATA);
    var setting := out0.setting.(subgridSize := IntAttribute(b.lines, whole, PROP_SUBGRID, 8, parseInt) % 0x100);
    var media := if gen.Some? then GeneralMedia(b.lines, gen.value, out0.media, parseInt) else out0.media;
    var media' := if meta.Some? then MetadataMedia(b.lines, meta.value, media) else media;
    out0.(game := Osu,
          setting := if gen.Some? then GeneralSetting(b.lines, gen.value, b.filename, setting, parseInt) else setting,
          media := media')
  }

  /** Reads the game, subgrid, [General] and [Metadata] steps; `ok` is whether the general data is complete. */
  method ReadHeader(b: Beatmap, dict: TagDict, out0: BeatSet, parseInt: string -> Option<int>)
    returns (ok: bool, out: BeatSet)
    requires |b.lines| > 0 && LinesFit(b.lines) && TagsScanned(dict)
    requires |b.filename| < NPOS && NamesFit(out0)
    ensures out == HeaderRead(b, dict, out0, parseInt)
    ensures ok == GeneralComplete(out)
  {
    var whole := WholeFile(b.lines);
    out := out0.(game := Osu);
    out := out.(setting := out.setting.(subgridSize := IntAttribute(b.lines, whole, PROP_SUBGRID, 8, parseInt) % 0x100));
    var gen := FindSection(b.lines, dict, TAG_GENERAL);
    SectionShape(b.lines, dict, TAG_GENERAL);
    if gen.Some? {
      var sub := gen.value;
      if sub.distance > 0 {
        out := out.(setting := GeneralSetting(b.lines, sub, b.filename, out.setting, parseInt),
                    media := GeneralMedia(b.lines, sub, out.media, parseInt));
      }
    }
    ok := !(IsEmptyOrWhitespace(Some(out.media.filename)) || out.setting.mode == Undefined
            || IsEmptyOrWhitespace(Some(out.setting.mapName)));
    var meta := FindSection(b.lines, dict, TAG_METADATA);
    SectionShape(b.lines, dict, TAG_METADATA);
    if meta.Some? {
      var sub := meta.value;
      if sub.distance > 0 {
        out := out.(media := MetadataMedia(b.lines, sub, out.media));
      }
    }
  }

  /** The events of a timing section appended to `events0`; the given ones without a section. */
  function TimingEvents(lines: seq<string>, tim: Option<StringSequence>, events0: seq<Event>,
                        parseFloat: string -> Option<real>, parseInt: string -> Option<int>): seq<Event>
    requires tim.Some? ==> SectionFits(tim.value, lines)
  {
    if tim.Some? then TimingAfter(lines, tim.value.begin + 1, tim.value.end, events0, parseFloat, parseInt).out
    else events0
  }

  /** The targets of a hit-object section appended to `targets0`; the given ones without a section. */
  function SectionTargets(lines: seq<string>, hit: Option<StringSequence>, targets0: seq<Entity>,
                          parseInt: string -> Option<int>, parseFloat: string -> Option<real>): seq<Entity>
    requires LinesFit(lines)
    requires hit.Some? ==> SectionFits(hit.value, lines)
  {
    if hit.Some? then HitAfter(lines, hit.value.begin + 1, hit.value.end, targets0, parseInt, parseFloat).out
    else targets0
  }

  /**
   * The timing step: a present section fails unless its events are usable,
   * and a usable one sets the rate from a period that is at least 200 ms or
   * the beat length of the first shift event.
   */
  method ReadTiming(lines: seq<string>, tim: Option<StringSequence>, bs: BeatSet,
                    parseFloat: string -> Option<real>, parseInt: string -> Option<int>)
    returns (ok: bool, out: BeatSet)
    requires LinesFit(lines)
    requires tim.Some? ==> SectionFits(tim.value, lines)
    ensures out == bs.(events := out.events, media := bs.media.(averageRateBpm := out.media.averageRateBpm))
    ensures out.events == TimingEvents(lines, tim, bs.events, parseFloat, parseInt)
    ensures ok <==> tim.None? || TimingUsable(out.events)
    ensures !(tim.Some? && TimingUsable(out.events)) ==> out.media.averageRateBpm == bs.media.averageRateBpm
    ensures tim.Some? && TimingUsable(out.events) ==>
      exists period :: (period >= 200.0 || period == out.events[FirstShift(out.events)].value)
                    && out.media.averageRateBpm == Rate(period)
  {
    out := bs;
    ok := true;
    if tim.Some? {
      var appended, events := AssignEvents(lines, tim.value, out.events, parseFloat, parseInt);
      out := out.(events := events);
      if appended {
        var period := EvaluateTiming(out.events);
        if period.Some? {
          out := out.(media := out.media.(averageRateBpm := Rate(period.value)));
        } else {
          ok := false;
        }
      } else {
        ok := false;
      }
    }
  }

  /** The hit-object step: a present section fails when the targets stay empty. */
  method ReadTargets(lines: seq<string>, hit: Option<StringSequence>, bs: BeatSet,
                     parseInt: string -> Option<int>, parseFloat: string -> Option<real>)
    returns (ok: bool, out: BeatSet)
    requires LinesFit(lines)
    requires hit.Some? ==> SectionFits(hit.value, lines)
    ensures out == bs.(targets := SectionTargets(lines, hit, bs.targets, parseInt, parseFloat))
    ensures ok <==> hit.None? || |out.targets| > 0
  {
    out := bs;
    ok := true;
    if hit.Some? {
      var targets;
      ok, targets := AssignTargets(lines, hit.value, out.targets, parseInt, parseFloat);
      out := out.(targets := targets);
    }
  }

  /**
   * tryParse: only a valid osu! beatmap is read. The header fields come from
   * their sections (a missing section keeps the given values), the events and
   * targets are the folds of their sections appended to the given ones, and
   * the parse passes exactly when the general data is complete, a present
   * timing section is usable and a present hit-object section yields targets.
   * A usable timing section sets the rate from the period of its events.
   */
  method TryParse(b: Beatmap, dict: TagDict, out0: BeatSet,
                  parseInt: string -> Option<int>, parseFloat: string -> Option<real>)
    returns (pass: bool, out: BeatSet)
    requires LinesFit(b.lines) && TagsScanned(dict)
    requires |b.filename| < NPOS && NamesFit(out0)
    ensures !(b.game == Osu && IsValid(b)) ==> !pass && out == out0
    ensures b.game == Osu && IsValid(b) ==>
      var head := HeaderRead(b, dict, out0, parseInt);
      var tim := Section(b.lines, dict, TAG_TIMING);
      var hit := Section(b.lines, dict, TAG_HIT_OBJECTS);
      && (tim.Some? ==> SectionFits(tim.value, b.lines))
      && (hit.Some? ==> SectionFits(hit.value, b.lines))
      && out == head.(events := TimingEvents(b.lines, tim, out0.events, parseFloat, parseInt),
                      targets := SectionTargets(b.lines, hit, out0.targets, parseInt, parseFloat),
                      media := head.media.(averageRateBpm := out.media.averageRateBpm))
      && (!(tim.Some? && TimingUsable(out.events)) ==> out.media.averageRateBpm == out0.media.averageRateBpm)
      && (tim.Some? && TimingUsable(out.events) ==>
            exists period :: (period >= 200.0 || period == out.events[FirstShift(out.events)].value)
                          && out.media.averageRateBpm == Rate(period))
      && (pass <==> GeneralComplete(head) && (tim.Some? ==> TimingUsable(out.events)) && (hit.Some? ==> |out.targets| > 0))
    ensures pass ==> NamesFit(out) && GeneralComplete(out)
  {
    var whole := WholeFile(b.lines);
    if b.game != Osu || !IsValid(b) || whole.IsEmpty() {
      return false, out0;
    }
    pass, out := ReadHeader(b, dict, out0, parseInt);
    ghost var head := out;

    var tim := FindSection(b.lines, dict, TAG_TIMING);
    SectionShape(b.lines, dict, TAG_TIMING);
    var timed;
    timed, out := ReadTiming(b.lines, tim, out, parseFloat, parseInt);
    pass := pass && timed;

    var hit := FindSection(b.lines, dict, TAG_HIT_OBJECTS);
    SectionShape(b.lines, dict, TAG_HIT_OBJECTS);
    var hitOk;
    hitOk, out := ReadTargets(b.lines, hit, out, parseInt, parseFloat);
    pass := pass && hitOk;
  }

  /**
   * Given a [General] section, a parse whose general data is complete read a
   * mode code of 1 or 3 and a non-blank audio file name from it.
   */
  lemma CompleteGeneral(b: Beatmap, dict: TagDict, out0: BeatSet, parseInt: string -> Option<int>)
    requires |b.lines| > 0 && LinesFit(b.lines) && TagsScanned(dict)
    requires |b.filename| < NPOS && NamesFit(out0)
    requires GeneralComplete(HeaderRead(b, dict, out0, parseInt))
    requires Section(b.lines, dict, TAG_GENERAL).Some?
    ensures var gen := Section(b.lines, dict, TAG_GENERAL).value;
      && InLines(gen, b.lines)
      && (var code := IntAttribute(b.lines, gen, PROP_MODE, -1, parseInt); code == 1 || code == 3)
      && !IsEmptyOrWhitespace(Some(GetStrAttribute(b.lines, gen, PROP_MEDIA_NAME)))
      && !IsEmptyOrWhitespace(Some(b.filename))
  {
    SectionShape(b.lines, dict, TAG_GENERAL);
  }
}
