/**
 * Shared vocabulary of the beatmap translator: the game/mode/event enumerations,
 * the entity type byte with its osu! hit-object flag view, the event, entity,
 * setting and beat-set records, and the line-range view used by the parser.
 */
module Common {

  datatype Option<T> = None | Some(value: T)

  datatype Result<T, E> = Ok(value: T) | Err(error: E)

  type UInt8 = x: int | 0 <= x < 0x100
  type UInt16 = x: int | 0 <= x < 0x1_0000

  /** The largest size_t value; also std::string::npos. */
  const SIZE_MAX: nat := 0xFFFF_FFFF_FFFF_FFFF

  /** Single-precision machine epsilon, 2^-23. */
  const FLT_EPSILON: real := 1.0 / 8388608.0

  const OS_MAP_WIDTH: nat := 512
  const OS_MAP_HEIGHT: nat := 384
  const BS_MAP_WIDTH: nat := 4
  const BS_MAP_HEIGHT: nat := 3

  function Abs(x: real): (r: real)
    ensures r >= 0.0 && (r == x || r == -x)
  {
    if x < 0.0 then -x else x
  }

  function Min(a: real, b: real): real { if a < b then a else b }
  function Max(a: real, b: real): real { if a < b then b else a }

  datatype GameType = UnknownGame | Osu | BeatSaber

  /**
   * Play modes. The osu! taiko mode is used by the parser and the orchestrator
   * but is missing from the enumeration of the source; it is added here.
   */
  datatype GameMode = Undefined | OsTaiko | OsMania | Bs1H | Bs2H | Bs2HFree

  datatype EventType =
    | Ignore
    | LightBg | LightSd | LaserLs | LaserRs | LightLo
    | RingRot | RingMov
    | LaserLsSpeed | LaserRsSpeed
    | Kiai | Shift

  /** The numeric value of each event type, as written into the target file. */
  function EventCode(t: EventType): int
  {
    match t
    case Ignore => -1
    case LightBg => 0
    case LightSd => 1
    case LaserLs => 2
    case LaserRs => 3
    case LightLo => 4
    case RingRot => 8
    case RingMov => 9
    case LaserLsSpeed => 12
    case LaserRsSpeed => 13
    case Kiai => 14
    case Shift => 15
  }

  lemma {:induction false} EventCodesDistinct(a: EventType, b: EventType)
    ensures EventCode(a) == EventCode(b) <==> a == b
  {
  }

  /* ---------- entity type byte and its osu! hit-object view ---------- */

  const CIRCLE_BIT: bv8 := 0x01
  const SLIDER_BIT: bv8 := 0x02
  const COMBO_START_BIT: bv8 := 0x04
  const SPIN_BIT: bv8 := 0x08
  const CONTINUOUS_BIT: bv8 := 0x80

  predicate IsCircle(t: bv8) { t & CIRCLE_BIT != 0 }
  predicate IsSlider(t: bv8) { t & SLIDER_BIT != 0 }
  predicate IsComboStart(t: bv8) { t & COMBO_START_BIT != 0 }
  predicate IsSpin(t: bv8) { t & SPIN_BIT != 0 }
  predicate IsContinuous(t: bv8) { t & CONTINUOUS_BIT != 0 }

  predicate IsFlag(f: bv8)
  {
    f == CIRCLE_BIT || f == SLIDER_BIT || f == COMBO_START_BIT || f == SPIN_BIT || f == CONTINUOUS_BIT
  }

  predicate HasFlag(t: bv8, f: bv8) { t & f != 0 }

  /** Writing `false` into one flag of the bit-field view. */
  function ClearFlag(t: bv8, flag: bv8): (r: bv8)
    requires IsFlag(flag)
    ensures !HasFlag(r, flag)
    ensures forall other :: IsFlag(other) && other != flag ==> (HasFlag(r, other) <==> HasFlag(t, other))
  {
    t & !flag
  }

  /** The five flags sit on bits 0, 1, 2, 3 and 7, matching the osu! type codes 1, 2, 4, 8 and 128. */
  lemma {:induction false} FlagView(t: bv8)
    ensures IsCircle(t) <==> t % 2 == 1
    ensures IsSlider(t) <==> (t / 2) % 2 == 1
    ensures IsComboStart(t) <==> (t / 4) % 2 == 1
    ensures IsSpin(t) <==> (t / 8) % 2 == 1
    ensures IsContinuous(t) <==> t >= 128
  {
  }

  /* ---------- records ---------- */

  /** A timed event: type, timestamp and a type-dependent value. */
  datatype Event = Event(eventType: EventType, timestamp: real, value: real)

  /** The default-constructed event: ignored, at time 0, value 0. */
  const DEFAULT_EVENT: Event := Event(Ignore, 0.0, 0.0)

  /**
   * A note or obstacle. `location` is the pixel position of an osu! hit object or
   * the (column, row) / (column, width) of a target-game cube or wall; `kind` is
   * the raw type byte; `value` is a duration, an end time or a cut direction.
   */
  datatype Entity = Entity(location: (nat, nat), kind: bv8, spawnTime: real, value: real)

  datatype Setting = Setting(mapName: string, leadInMs: UInt16, mode: GameMode, subgridSize: UInt8)

  datatype MediaInfo = MediaInfo(
    filename: string, artist: string, title: string, author: string,
    previewStartMs: nat, averageRateBpm: real)

  datatype BeatSet = BeatSet(
    game: GameType, media: MediaInfo, setting: Setting, stageLevel: UInt8,
    events: seq<Event>, targets: seq<Entity>, objects: seq<Entity>)

  const DEFAULT_SETTING: Setting := Setting("", 0, Undefined, 8)

  /* ---------- line ranges ---------- */

  /**
   * A range of lines of a file: `begin` and `end` are positions in the line vector
   * (end is one past the last line) and `distance` is the number of lines.
   */
  datatype StringSequence = StringSequence(begin: int, end: int, distance: nat)
  {
    predicate IsEmpty()
    {
      distance == 0 || begin == end
    }
  }

  datatype SequenceError = LengthError | RangeError

  function MinNat(a: nat, b: nat): nat { if a < b then a else b }
  function MaxNat(a: nat, b: nat): nat { if a < b then b else a }

  /**
   * The inclusive sub-range [fromIndex, toIndex] of a non-empty, consistent range;
   * the two indices may come in either order and are clamped to the last index.
   */
  function MakeSubsequence(ss: StringSequence, fromIndex: nat, toIndex: nat): (r: Result<StringSequence, SequenceError>)
    ensures ss.IsEmpty() <==> r == Err(LengthError)
    ensures !ss.IsEmpty() && ss.end != ss.begin + ss.distance <==> r == Err(RangeError)
    ensures r.Ok? ==>
      var lo := MinNat(MinNat(fromIndex, toIndex), ss.distance - 1);
      var hi := MinNat(MaxNat(fromIndex, toIndex), ss.distance - 1);
      && r.value.begin == ss.begin + lo
      && r.value.distance == hi - lo + 1
      && r.value.end == r.value.begin + r.value.distance
      && ss.begin <= r.value.begin < r.value.end <= ss.end
      && !r.value.IsEmpty()
  {
    if ss.IsEmpty() then Err(LengthError)
    else if ss.end != ss.begin + ss.distance then Err(RangeError)
    else
      var (f, t) := if toIndex < fromIndex then (toIndex, fromIndex) else (fromIndex, toIndex);
      var maxIndex := ss.distance - 1;
      var f' := if f > maxIndex then maxIndex else f;
      var t' := if t > maxIndex then maxIndex else t;
      var dist := t' - f' + 1;
      Ok(StringSequence(ss.begin + f', ss.begin + f' + dist, dist))
  }

  /** The order of the two indices does not matter. */
  lemma {:induction false} MakeSubsequenceSymmetric(ss: StringSequence, a: nat, b: nat)
    ensures MakeSubsequence(ss, a, b) == MakeSubsequence(ss, b, a)
  {
  }
}
