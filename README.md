# NaiSeBeat beatmap translator — a verified model

NaiSeBeat converts osu! beatmaps into Beat Saber maps. Its core has several parts:

- **Parser.** It reads an osu! `.osu` file (already split into lines) into a `BeatSetT`. This covers:
  - the `[General]` and `[Metadata]` attributes;
  - the `[TimingPoints]` section, turned into an event list (beat-length shifts and kiai switches) plus an average rate;
  - the `[HitObjects]` section, turned into a list of entities (circles, sliders, spinners and holds).
- **Sequencer.** It turns an osu! mania or taiko beat set into a Beat Saber one:
  - events are quantised to a sub-grid of the beat;
  - an opening light show is emitted, followed by a light burst per source event;
  - notes are mapped onto the 4×3 cube grid with placement downtimes and walls;
  - in mania, each run of simultaneous cubes gets hands assigned;
  - events are sorted stably by time;
  - the mode and map name are set.
- **Translator.** It queues loaded beat sets, one per difficulty, and builds the output folder name. It then transforms the queue in order and stops at the first map it cannot transform.

The model follows the source file by file. Value records (`EventT`, `EntityT`, `BeatSetT`, …) are Dafny datatypes. Reference parameters that the C++ updates become an input value and an output value. The stateful objects are classes:

- `CBsSequencer`, with its mode flags;
- the translator, with its difficulty flags as an `array<bool>` and its map queue as a `seq` field.

The algorithms that work in place become methods with loops. Each such method is proved against a recursive specification function, and the promised properties are proved as lemmas about that function:

- the mania transform compacts an `array<Entity>` in place and writes a 4×3 time-slot grid held in an `array2<real>`;
- the hand pass rewrites runs of that array in place;
- the event pass pushes to the front of a list;
- the timing and hit-object section scans.

Modules:

| module | file | models |
|---|---|---|
| `Common` | common.dfy | enumerations, type byte, records, `make_subsequence` (src/common.hpp) |
| `XString` | xstring.dfy | `contains`, `isEmptyOrWhitespace`, `trySplit`, `trim`, `filter`, `erase_any` |
| `Lists` | lists.dfy | the reversal that relates a push-front list to emission order |
| `BsConstants` | bsconst.dfy | light, cube, direction and wall codes; downtimes; stage names |
| `Quantizer` | quantizer.dfy | `quantizeTimestamp`, `setSpeedByPeriod` |
| `EventSequencer` | events.dfy | `processEvents` |
| `SweepDetector` | sweep.dfy | `isSweepPattern` |
| `ManiaTransformer` | mania.dfy | the note loop of `transform_mania` |
| `HandAssignment` | hands.dfy | the hand pass of `transform_mania` |
| `ManiaPass` | maniapass.dfy | `transform_mania` as a whole |
| `TaikoTransformer` | taiko.dfy | `transform_taiko` |
| `BeatSaberSequencer` | sequencer.dfy | `transformBeatset`, the sort and move of events, the stage list of `createMapInfo` |
| `OsuSections` | sections.dfy | `getMappedPair`, `getNextMappedLine`, `getStrAttribute`, `getAttribute_` |
| `OsuTiming` | timing.dfy | `commonUnit`, `evaluateTiming`, `assignFromSequence` for timing points |
| `OsuHitObjects` | hitobjects.dfy | `assignFromSequence` for hit objects |
| `OsuParser` | parser.dfy | `tryParse` |
| `NaiveSequencer` | translator.dfy | `tryMakeFoldername`, `appendFile`, `clear`, `translate` |

Modelling choices that a reader of the C++ should know:

- **Numbers**
  - `float` and `double` are `real`. `FLT_EPSILON` is the constant 2^-23, and `std::string::npos` is `SIZE_MAX`.
  - Casts to `uint16_t` and `uint8_t` are written out, as `% 0x1_0000` or a clamp where the source clamps.
- **Unseen code** becomes parameters:
  - `std::stoi` and `std::stof` become `parseInt` and `parseFloat`, which give `None` where the C++ throws;
  - the quantiser closure of `transformBeatset` becomes a `sample` function;
  - `HitTypeT`, the taiko hit-area classifier, becomes an `area` function;
  - the regex tag scan `mapTags` becomes a tag dictionary given as input, with distinct line numbers as that scan builds them.
- **Unseen container helper.** An out-of-range index into the parser's split vector is treated like a throwing conversion: the surrounding `try` skips the line.
- **Containers.** `std::set<float>` in `evaluateTiming` is a strictly increasing `seq<real>`. `std::forward_list::sort` is a stable insertion sort by time.
- **Game modes.** `GameMode_t` in src/common.hpp:22 has no taiko member, yet the parser and the sequencer use one; the model adds `OsTaiko`.
- **Spinner.** A spinner emits six cubes per beat period: four bombs on the outer columns (src/BsSequencer.cpp:795-810), then a right cube in column 2 and a left cube in column 1. The model follows the code here; a bomb count of two would not match it.
- **Three-cube runs.** The hand pass sorts a run of three cubes by column. `std::sort` on equal columns may give any order, so the model fixes one order: a stable sort of three elements.
- **Hand pass on runs of five or more.** When such a run is not the last, the hand pass never ends; see Findings. Elsewhere the model leaves such a run unchanged and goes on, which is what the code does when the run is the last one.
- **Mania work copy.** `transform_mania` keeps a work copy `obj` whose type byte is never reset. Kept cube k therefore carries the type byte of source note k-1 (0 for the first). `KeptFromSource` states this as written.
- **Kiai state.** In `assignFromSequence`, a non-zero kiai flag while the state is off records a kiai event and turns the state on. A recorded shift sets the state to whether the flag equals 14, the kiai event code (src/OsuParser.cpp:266), rather than whether it is non-zero. The model keeps this comparison as written.
- **`transformBeatset`** is declared `const` in src/BsSequencer.h:39, but it sets the two-hand flag on a taiko map. The model's method `modifies this`.

## Model

| member | source | states |
|---|---|---|
| Common.Abs | src/BsSequencer.cpp:56 | the magnitude is non-negative and equals x or -x |
| Common.EventCodesDistinct | src/common.hpp:23-38 | the numeric event-type codes written into a map are pairwise distinct |
| Common.ClearFlag | src/common.hpp:40-56 | writing false to one bit-field flag clears exactly that flag and leaves every other flag as it was |
| Common.FlagView | src/common.hpp:44-52 | circle, slider, combo-start, spin and hold flags are the bits of osu! type codes 1, 2, 4, 8 and 128 |
| Common.MakeSubsequence | src/common.hpp:71-96 | an empty range throws a length error; an inconsistent one throws a range error; otherwise the result is the non-empty inclusive range between the two indices clamped to the last line, inside the original |
| Common.MakeSubsequenceSymmetric | src/common.hpp:81-82 | the two indices may be given in either order |
| XString.Find | NaiSeBeat/src/util/xstring.hpp:33 | npos, or the first position at or after pos holding the character |
| XString.FindFirstNotOf | NaiSeBeat/src/util/xstring.hpp:32 | npos, or the first position at or after pos holding a character outside the set |
| XString.FindLastNotOfBelow | NaiSeBeat/src/util/xstring.hpp:48 | npos, or the last position holding a character outside the set |
| XString.FindSub | NaiSeBeat/src/util/xstring.hpp:13 | npos exactly when the pattern occurs nowhere from pos; otherwise an occurrence |
| XString.Substr | NaiSeBeat/src/util/xstring.hpp:36 | the result has min(count, length − pos) characters, and its k-th character is the string's character pos + k |
| XString.ContainsMeansOccurs | NaiSeBeat/src/util/xstring.hpp:11-14 | contains holds exactly when the pattern occurs somewhere |
| XString.IsEmptyOrWhitespace | NaiSeBeat/src/util/xstring.hpp:16-19 | true exactly for a null pointer or a string made only of the four whitespace characters |
| XString.Trim | NaiSeBeat/src/util/xstring.hpp:44-52 | empty exactly when every character is a trim character; otherwise a slice of the input that starts and ends with a non-trim character |
| XString.PiecesWellFormed | NaiSeBeat/src/util/xstring.hpp:34-37 | no split piece is empty or holds the delimiter |
| XString.PiecesJoinToNonDelimiters | NaiSeBeat/src/util/xstring.hpp:21-42 | the pieces joined again give the input with every delimiter removed |
| XString.PiecesSkipDelimiters | NaiSeBeat/src/util/xstring.hpp:32 | a run of delimiters before a position produces no piece |
| XString.SplitRound | NaiSeBeat/src/util/xstring.hpp:30-39 | one round of the do-while loop emits the next piece and moves past it, or ends when no piece is left |
| XString.TrySplit | NaiSeBeat/src/util/xstring.hpp:21-42 | an empty input fails and leaves the output as it was; otherwise the output is the list of pieces, and the call succeeds exactly when there are at least two |
| XString.Filter | NaiSeBeat/src/util/xstring.hpp:54-63 | same length; each filter character becomes a space and every other character stays |
| XString.RemoveAllAppend | NaiSeBeat/src/util/xstring.hpp:65-71 | erasing distributes over concatenation |
| XString.RemoveAllTwice | NaiSeBeat/src/util/xstring.hpp:67-70 | erasing one character set after another equals erasing their union, so the per-character loop erases the whole set |
| XString.RemoveAllRemoves | NaiSeBeat/src/util/xstring.hpp:69 | no erased character is left |
| XString.RemoveAllNone | NaiSeBeat/src/util/xstring.hpp:69 | a string with none of the characters is unchanged |
| XString.RemoveAllKeepsOrder | NaiSeBeat/src/util/xstring.hpp:69 | the result is a subsequence of the input and keeps the count of every other character |
| XString.EraseAny | NaiSeBeat/src/util/xstring.hpp:65-71 | the loop's result is the input with every listed character removed |
| Quantizer.Denominator | src/BsSequencer.cpp:60-70 | the finest sub-beat the loop can reach is 1, 2, 4 or 8 and no more than the allowed maximum |
| Quantizer.SnapDouble | src/BsSequencer.cpp:62-67 | one loop round halves the grid and adds the half step exactly when the fraction left is at least that step |
| Quantizer.SnapSettled | src/BsSequencer.cpp:68-69 | once the remainder is below 1/8, finer rounds change nothing, so the early break is sound |
| Quantizer.QuantizeTimestamp | src/BsSequencer.cpp:51-72 | the loop computes the beat position snapped down to the 1/d grid; a zero time or period gives 0 |
| Quantizer.QuantizedBounds | src/BsSequencer.cpp:56-70 | the quantised beat lies between the whole beat and the exact beat, and less than one grid step below the exact beat |
| Quantizer.QuantizedMonotone | src/BsSequencer.cpp:51-72 | a later time never quantises to an earlier beat |
| Quantizer.QuantizedNonNegative | src/BsSequencer.cpp:56 | the quantised beat is never negative |
| Quantizer.SnapBounds | src/BsSequencer.cpp:57-70 | the snapped value lies within one grid step below the exact value |
| Quantizer.SnapDownMonotone | src/BsSequencer.cpp:57-70 | snapping keeps order |
| Quantizer.SpeedByPeriod | src/BsSequencer.cpp:74-77 | the laser speed is floor(1400/abs(delta)) clamped to 1..7, and 7 for a zero delta |
| Quantizer.SpeedByPeriodAntitone | src/BsSequencer.cpp:74-77 | a longer period never gives a faster laser |
| EventSequencer.OffEvents | src/BsSequencer.cpp:209-220 | five switch-off events at time 0 |
| EventSequencer.BurstShape | src/BsSequencer.cpp:241-300 | per event: two speed events when the beat length changed, five lights on a shift or kiai, otherwise one ring rotation; all at the event's time, with speeds in 1..7 |
| EventSequencer.BurstsShape | src/BsSequencer.cpp:241-301 | k events give between k and 5k outputs, each a target-game event at one of their sampled times |
| EventSequencer.EmissionShape | src/BsSequencer.cpp:191-302 | the whole emission is the five off events, background and side light on at the earlier and later of lead-in and first note (never before 3), then the bursts |
| EventSequencer.TValSeen | src/BsSequencer.cpp:246-274 | the remembered beat length is 0 or the value of an earlier shift |
| EventSequencer.ProcessEvents | src/BsSequencer.cpp:191-302 | the list after the loop is the emission reversed, in front of the events already there |
| EventSequencer.PushPrologue | src/BsSequencer.cpp:201-238 | the opening lights pushed to the front of the list |
| EventSequencer.PrologueOrder | src/BsSequencer.cpp:201-202 | the swap puts the earlier of lead-in and first note first |
| EventSequencer.PushBurst | src/BsSequencer.cpp:243-300 | one event's burst pushed to the front and the remembered beat length updated |
| SweepDetector.ScanFromFrame | src/BsSequencer.cpp:103-144 | the scan reads only the notes from its cursor on |
| SweepDetector.SweepEndFrame | src/BsSequencer.cpp:103-144 | the sweep end depends only on the notes from the seed on |
| SweepDetector.ScanSound | src/BsSequencer.cpp:115-143 | from any state meeting the loop invariant, the scan ends at the end or after a complete three-note chain |
| SweepDetector.SweepEndSound | src/BsSequencer.cpp:103-144 | the result is the end of the notes, or one past the third note of a chain of three later notes: in neighbouring columns moving away from the seed's edge, on time-sorted notes, each gap within tolerance and within 100 ms of the previous gap |
| SweepDetector.ScanNote | src/BsSequencer.cpp:119-141 | one round over a note stops exactly when the scan specification stops, leaving the cursors untouched; otherwise the timeline array and cursors hold the specification's next state |
| SweepDetector.IsSweepPattern | src/BsSequencer.cpp:103-144 | the loop computes the sweep end; with no notes left it returns the end |
| ManiaTransformer.FirstAfterLeadIn | src/BsSequencer.cpp:421-425 | the first note after the 3000 ms lead-in; all before it are within it |
| ManiaTransformer.HoldWall | src/BsSequencer.cpp:469-479 | a hold only adds a wall and changes time slots; kept cubes, toggles and hand are untouched |
| ManiaTransformer.SweepWall | src/BsSequencer.cpp:480-511 | a sweep only adds a wall and blocks slots; kept cubes, toggles and hand are untouched |
| ManiaTransformer.Place | src/BsSequencer.cpp:514-533 | a note keeps at most one cube and leaves walls, toggles and hand alone |
| ManiaTransformer.ManiaAfterNext | src/BsSequencer.cpp:444-529 | each loop round is one step of the note loop |
| ManiaTransformer.StepKeeps | src/BsSequencer.cpp:444-533 | one note keeps nothing or appends its own cube, typed with the work copy's byte |
| ManiaTransformer.KeptFromSource | src/BsSequencer.cpp:444-533 | kept cubes come from distinct notes after the lead-in, in order; each is in the note's column, bottom row, at its sampled time, cut forward; cube k has note k-1's type byte |
| ManiaTransformer.StepTimeline | src/BsSequencer.cpp:514-519 | a kept cube is no earlier than the previous one and far enough from it |
| ManiaTransformer.KeptSpaced | src/BsSequencer.cpp:514-519 | kept cubes are in time order and consecutive ones keep the 125 ms neighbour spacing at the base time |
| ManiaTransformer.StepCell | src/BsSequencer.cpp:469-527 | a step keeps the per-cell slot invariant |
| ManiaTransformer.CellStepAt | src/BsSequencer.cpp:444-529 | each loop round keeps that invariant |
| ManiaTransformer.KeptCellsSpaced | src/BsSequencer.cpp:522-527 | two kept cubes in one cell come from notes more than 200 ms apart |
| ManiaTransformer.StepWalls | src/BsSequencer.cpp:469-511 | a step adds at most one wall: a horizontal hold wall of at least one beat, or a vertical sweep wall after the last sweep |
| ManiaTransformer.WallsWellFormed | src/BsSequencer.cpp:469-511 | all walls have these shapes and vertical walls never overlap |
| ManiaTransformer.ComboCount | src/BsSequencer.cpp:454-463 | the number of combo starts is at most the number of notes |
| ManiaTransformer.TogglesAlternate | src/BsSequencer.cpp:454-463 | one side-light event per combo start, alternating second and first colour, with the hand flag tracking parity |
| ManiaTransformer.BlockColumns | src/BsSequencer.cpp:498-508 | three neighbouring columns of the slot grid are set to the sweep end and the rest unchanged |
| ManiaTransformer.PushHoldWall | src/BsSequencer.cpp:469-479 | grid and walls after a hold match the specification |
| ManiaTransformer.PushSweepWall | src/BsSequencer.cpp:480-511 | grid, walls and sweep end after a sweep match the specification |
| ManiaTransformer.PlaceNote | src/BsSequencer.cpp:514-533 | the in-place write of the kept cube matches the specification |
| ManiaTransformer.PushToggle | src/BsSequencer.cpp:454-463 | the toggle is pushed to the front of the event list and the hand flips |
| ManiaTransformer.ProcessNote | src/BsSequencer.cpp:446-533 | one note's body matches the specification step |
| ManiaTransformer.VisitNote | src/BsSequencer.cpp:444-533 | one loop round, toggle included, matches the specification step |
| ManiaTransformer.CompactTargets | src/BsSequencer.cpp:421-533 | the in-place loop leaves the kept cubes in the array prefix, the walls and the toggle events exactly as the specification fold gives them |
| HandAssignment.UpperBound | src/BsSequencer.cpp:562-565 | a position at or after lo |
| HandAssignment.UpperBoundSplits | src/BsSequencer.cpp:562-565 | notes before the result are no later than t and the note at the result is later |
| HandAssignment.SplitsUnique | src/BsSequencer.cpp:562-565 | that split point is unique |
| HandAssignment.RunShared | src/BsSequencer.cpp:562-565 | on sorted cubes a run shares one time and the next run is later |
| HandAssignment.SideKind | src/BsSequencer.cpp:573-581 | left cube exactly for columns 0 and 1, right otherwise |
| HandAssignment.SortByColumn | src/BsSequencer.cpp:586-587 | three cubes in column order |
| HandAssignment.SortByColumnPermutes | src/BsSequencer.cpp:586-587 | the sort is a permutation |
| HandAssignment.Contiguous | src/BsSequencer.cpp:588-596 | the count of cubes sitting in columns 0, 1, 2, … from the left |
| HandAssignment.NextIsLeft | src/BsSequencer.cpp:632-639 | the hand flag flips exactly after a run of four |
| HandAssignment.AssignRunKinds | src/BsSequencer.cpp:573-643 | runs of 1–2 typed by side; runs of 3 sorted and typed left,left,left / left,bomb,bomb / bomb,bomb,right / right,right,right by the contiguous count; runs of 4 all on the flag's hand; longer runs unchanged |
| HandAssignment.Hands | src/BsSequencer.cpp:549-647 | the pass keeps the number of cubes |
| HandAssignment.FlagAtFours | src/BsSequencer.cpp:632-639 | the hand flag at a run is left exactly when an even number of four-runs came before |
| HandAssignment.HandsAtRun | src/BsSequencer.cpp:549-647 | each run of the result is that run typed with the flag at its start |
| HandAssignment.HandsKeepTimes | src/BsSequencer.cpp:549-647 | the pass changes no cube's time |
| HandAssignment.UpperBoundSearch | src/BsSequencer.cpp:562-565 | the search returns the first cube later than t |
| HandAssignment.SortThree | src/BsSequencer.cpp:586-587 | three array cells sorted in place; the rest unchanged |
| HandAssignment.AssignSide | src/BsSequencer.cpp:573-581 | the run is typed by side in place |
| HandAssignment.AssignTwist | src/BsSequencer.cpp:584-629 | a run of three is typed in place by its contiguous count |
| HandAssignment.AssignPaint | src/BsSequencer.cpp:632-639 | a run of four is typed in place by the hand flag |
| HandAssignment.AssignRunAt | src/BsSequencer.cpp:568-646 | one run typed in place, the hand flag advanced |
| HandAssignment.HandsStep | src/BsSequencer.cpp:560-647 | one round of the outer loop keeps the pass invariant |
| HandAssignment.AssignNextRun | src/BsSequencer.cpp:560-646 | one round of the outer loop finds the run at dst, types it in place and moves past it, keeping the pass invariant |
| HandAssignment.AssignHands | src/BsSequencer.cpp:549-647 | the in-place pass leaves exactly the specified typing in the cube prefix and the rest of the array unchanged |
| HandAssignment.HandStepAsWritten | src/BsSequencer.cpp:560-646 | a round as written moves dst to the run end only for runs of at most four |
| HandAssignment.HandLoopStuck | src/BsSequencer.cpp:641-646 | a run of five or more that is not last makes the as-written loop repeat the same state for ever |
| HandAssignment.FiveThenOne | src/BsSequencer.cpp:641-646 | a time-sorted list of six cubes exists |
| HandAssignment.FiveThenOneStuck | src/BsSequencer.cpp:641-646 | on five simultaneous cubes and one later cube the as-written loop never ends |
| ManiaPass.ManiaTargets | src/BsSequencer.cpp:305-648 | no more targets than notes after the lead-in, at the kept times, time-sorted and neighbour-spaced |
| ManiaPass.TransformMania | src/BsSequencer.cpp:305-648 | the compacted targets after the hand pass, the walls as the only objects (the old ones are cleared) and the toggles pushed, as specified |
| TaikoTransformer.CircleShape | src/BsSequencer.cpp:699-764 | a circle gives one cube on the current hand, or a left and a right cube for a double area, in the grid at its time, cut forward |
| TaikoTransformer.StepsDecrease | src/BsSequencer.cpp:766-790 | the slider and spinner loops end |
| TaikoTransformer.SliderAlternates | src/BsSequencer.cpp:765-791 | slider cubes alternate hands in one column, one step apart, and the flag records the parity |
| TaikoTransformer.SpinRoundShape | src/BsSequencer.cpp:795-820 | a spinner round is four bombs, then a right cube in column 2 and a left cube in column 1 |
| TaikoTransformer.SpinShape | src/BsSequencer.cpp:792-824 | the spinner emits whole rounds of six and the flag flips per round |
| TaikoTransformer.CircleStepShape | src/BsSequencer.cpp:699-764 | within 200 ms of the hand's slot the circle is dropped and nothing changes; otherwise its cubes are appended, a single flips the hand, a double keeps it, and the hand's slot moves to the circle's time |
| TaikoTransformer.TaikoInGrid | src/BsSequencer.cpp:678-827 | every emitted cube lies in the 4×3 grid |
| TaikoTransformer.TwoHandDirectionShape | src/BsSequencer.cpp:829-873 | only the cut direction changes; bombs are untouched; grid cubes get a table direction; the corner cells give the diagonal cuts |
| TaikoTransformer.TwoHandPass | src/BsSequencer.cpp:829-873 | every cell of the array is rewritten by the table |
| TaikoTransformer.TwoHanded | src/BsSequencer.cpp:829-873 | same length, each cube rewritten by the table |
| TaikoTransformer.EmitSlider | src/BsSequencer.cpp:765-791 | the slider loop appends the specified cubes and flag |
| TaikoTransformer.EmitSpin | src/BsSequencer.cpp:792-824 | the spinner loop appends the specified rounds and flag |
| TaikoTransformer.VisitHitObject | src/BsSequencer.cpp:699-824 | one hit object's body matches the specification step |
| TaikoTransformer.TaikoWalk | src/BsSequencer.cpp:678-827 | the loop yields the cubes, objects and toggles of the specification fold |
| TaikoTransformer.TransformTaiko | src/BsSequencer.cpp:651-875 | no targets leaves everything as it was; otherwise the fold from the first note after the lead-in, with the two-hand rewrite when enabled |
| BeatSaberSequencer.BaseTime | src/BsSequencer.cpp:885 | the beat period 60000/bpm, clamped to bpm 1..300, so 200..60000 ms |
| BeatSaberSequencer.BaseTimeAntitone | src/BsSequencer.cpp:885 | a faster map never gets a longer period |
| BeatSaberSequencer.StartMs | src/BsSequencer.cpp:897-902 | the first note's time truncated to 16 bits, saturating at 65535 |
| BeatSaberSequencer.FindFirstTarget | src/BsSequencer.cpp:897-902 | the search finds the first note after the lead-in |
| BeatSaberSequencer.FirstAfterLeadInUnique | src/BsSequencer.cpp:897-902 | that note is the only position with this property |
| BeatSaberSequencer.InsertByTime | src/BsSequencer.cpp:946-949 | insertion adds exactly one event |
| BeatSaberSequencer.InsertOrdered | src/BsSequencer.cpp:946-949 | insertion keeps time order |
| BeatSaberSequencer.SortOrdered | src/BsSequencer.cpp:946-949 | the sort gives time order |
| BeatSaberSequencer.SortPermutes | src/BsSequencer.cpp:946-949 | the sort is a permutation |
| BeatSaberSequencer.SortStable | src/BsSequencer.cpp:946-949 | events with equal times keep their order |
| BeatSaberSequencer.InsertAtTime | src/BsSequencer.cpp:946-949 | insertion puts the new event first among equal times |
| BeatSaberSequencer.Overwritten | src/BsSequencer.cpp:950-960 | the length is the larger of the two; each position holds the sorted event where there is one and the old event otherwise; as a multiset, the sorted events plus the untouched tail of the old list |
| BeatSaberSequencer.MoveEvents | src/BsSequencer.cpp:950-960 | the move loop computes that |
| BeatSaberSequencer.BsSequencer.constructor | src/Sequencer.h:21 | all supported modes enabled |
| BeatSaberSequencer.BsSequencer.SetMode | src/Sequencer.h:28 | the mode flags are replaced |
| BeatSaberSequencer.BsSequencer.TransformBeatset | src/BsSequencer.cpp:878-965 | the result is the specified transform; a taiko map also enables the two-hand flag |
| BeatSaberSequencer.OpeningEventsLength | src/BsSequencer.cpp:903-912 | the opening adds at least seven events |
| BeatSaberSequencer.SortedInto | src/BsSequencer.cpp:946-960 | writing the sorted list over the shorter original gives a time-ordered, stable permutation |
| BeatSaberSequencer.TransformedEvents | src/BsSequencer.cpp:903-960 | the result's events are the collected events sorted: ordered, a permutation, stable, and more than the input had |
| BeatSaberSequencer.TransformedMeta | src/BsSequencer.cpp:917-964 | success exactly for mania or taiko; the result is a Beat Saber map in free two-hand mode (mania) or two-hand mode (taiko) and gets a map name |
| BeatSaberSequencer.TransformIdempotent | src/BsSequencer.cpp:880-881 | a Beat Saber map is returned unchanged, so transforming twice changes nothing |
| BeatSaberSequencer.StageEntries | src/BsSequencer.cpp:1027-1052 | at most one entry per remaining stage |
| BeatSaberSequencer.StageEntriesFlagged | src/BsSequencer.cpp:1027-1052 | each entry is a flagged stage with its name, odd rank 2i+1 and note-jump offset 1 only for the top stage |
| BeatSaberSequencer.StageEntriesAscending | src/BsSequencer.cpp:1027-1052 | entries are in strictly ascending rank |
| BeatSaberSequencer.StageEntriesComplete | src/BsSequencer.cpp:1027-1052 | every flagged stage has its entry |
| BeatSaberSequencer.StageEntriesEmpty | src/BsSequencer.cpp:1027-1052 | the list is empty exactly when no stage is flagged |
| BeatSaberSequencer.SeparatorsBetween | src/BsSequencer.cpp:1027-1052 | one separator between consecutive entries and none otherwise |
| OsuSections.GetMappedPair | src/OsuParser.cpp:99-107 | the dictionary entry for a present tag; a negative index for a missing one |
| OsuSections.MappedPairFound | src/OsuParser.cpp:99-107 | the index is non-negative exactly when the tag was found |
| OsuSections.GetNextMappedLine | src/OsuParser.cpp:109-126 | the line of the tag numbered one after n, or SIZE_MAX when there is none |
| OsuSections.NextMappedLineUnique | src/OsuParser.cpp:109-126 | with distinct numbers, that line is the tag's own line |
| OsuSections.FirstLineWith | src/OsuParser.cpp:130-132 | the first line of the range holding the property name, or the range end |
| OsuSections.StrTrim | src/OsuParser.cpp:72-76 | the result neither starts nor ends with white space |
| OsuSections.ValueOffset | src/OsuParser.cpp:135 | the position after the first colon, or 0 when there is none |
| OsuSections.GetStrAttribute | src/OsuParser.cpp:128-143 | a trimmed value |
| OsuSections.StrAttributeSource | src/OsuParser.cpp:128-143 | empty when no line names the property; otherwise the trimmed text after the first colon of the first such line, or the whole line when it has none |
| OsuSections.IntAttributeSource | src/OsuParser.cpp:155-164 | the value is read from the first line naming the property: the parse of the trimmed text after its first colon (or of the whole line without one), the null value when that text does not parse, and the parse of the empty text when no line names the property |
| OsuTiming.GcdSymmetric | src/OsuParser.cpp:177-186 | the Euclidean common unit does not depend on argument order |
| OsuTiming.GcdDivides | src/OsuParser.cpp:177-186 | it divides both inputs |
| OsuTiming.GcdGreatest | src/OsuParser.cpp:177-186 | every common divisor of both inputs divides it, and none is larger when an input is non-zero: it is the greatest common divisor |
| OsuTiming.CommonUnit | src/OsuParser.cpp:177-186 | the subtraction loop returns a non-negative value; with a zero argument, the other's magnitude; for whole numbers, their gcd |
| OsuTiming.FirstShift | src/OsuParser.cpp:204-209 | the position of the first shift event, or the end |
| OsuTiming.SetInsert | src/OsuParser.cpp:190-195 | the set stays strictly increasing and gains exactly the value |
| OsuTiming.EvaluateTiming | src/OsuParser.cpp:188-211 | None exactly when there is no shift; otherwise the common unit, at least 200, or the first shift's value |
| OsuTiming.BeatLength | src/OsuParser.cpp:246-251 | a non-negative value is used as is; a negative one is a percentage of the base and stays non-negative |
| OsuTiming.Record | src/OsuParser.cpp:272-280 | the list grows by one exactly when the event's time differs from the last event's; everything before the last event is kept; the last event is the new one, or an ignore at that time is dropped; no two neighbours share a time if none did before |
| OsuTiming.ReadTimingPoint | src/OsuParser.cpp:238-281 | one line's body matches the specification step |
| OsuTiming.AssignEvents | src/OsuParser.cpp:217-287 | an empty section fails and leaves the list; otherwise the list is the fold over the lines after the header, and success means a first event with value above 1 |
| OsuTiming.TimingPointTrace | src/OsuParser.cpp:238-281 | one point keeps the fold invariant |
| OsuTiming.TimingAfterTrace | src/OsuParser.cpp:235-285 | the fold keeps the given events before the last, adds only kiai, shift or ignore events with non-negative values, never two neighbours at one time, and a non-negative base |
| OsuTiming.TimingPointEvent | src/OsuParser.cpp:243-281 | a kiai rising edge records kiai; a changed state or value records a shift and remembers it; otherwise an ignored event is recorded |
| OsuTiming.KiaiOnlyTiming | src/OsuParser.cpp:253-286 | a single kiai point passes the section check yet has no shift |
| OsuHitObjects.ReadHitObject | src/OsuParser.cpp:304-373 | one line's body matches the specification step |
| OsuHitObjects.AssignTargets | src/OsuParser.cpp:291-376 | an empty section fails and leaves the list; otherwise the fold over the lines after the header, succeeding exactly when the list is non-empty |
| OsuHitObjects.HitObjectAdds | src/OsuParser.cpp:304-373 | a line adds at most one entity: none if a field holds a dash; otherwise on the playfield, at the parsed time, with the type's low byte up to one cleared flag, a combo start or odd kind, a hold carrying its parsed end |
| OsuHitObjects.HitAfterTrace | src/OsuParser.cpp:291-376 | the given entities come first and every added one is on the playfield with a kept kind |
| OsuParser.WholeFile | src/OsuParser.cpp:386-398 | the whole-file range is empty exactly for an empty file |
| OsuParser.ModeOf | src/OsuParser.cpp:408-421 | mode 3 is mania, 1 taiko, anything else undefined |
| OsuParser.Rate | src/OsuParser.cpp:448 | the rate in beats per minute times the period is 60000, positive for a positive period |
| OsuParser.Section | src/OsuParser.cpp:99-126 | a section exists exactly when its tag was found |
| OsuParser.SectionShape | src/OsuParser.cpp:398-455 | a section starts at its tag line and fits in the file |
| OsuParser.FindSection | src/OsuParser.cpp:398-455 | the lookup computes that section |
| OsuParser.HeaderRead | src/OsuParser.cpp:399-439 | the header read keeps names within string limits |
| OsuParser.ReadHeader | src/OsuParser.cpp:399-427 | the header values, and success exactly when mode, audio file and file name are usable |
| OsuParser.ReadTiming | src/OsuParser.cpp:442-452 | only events and rate change; a missing section passes; a rate is set from a period of at least 200 or the first shift's value |
| OsuParser.ReadTargets | src/OsuParser.cpp:455-461 | only targets change; success when the section is missing or non-empty |
| OsuParser.TryParse | src/OsuParser.cpp:379-463 | an invalid or non-osu! map fails unchanged; otherwise header, events, targets and rate as specified, passing exactly when every present section passes |
| OsuParser.CompleteGeneral | src/OsuParser.cpp:408-423 | a passing header has mode 1 or 3 and non-blank audio and file names |
| NaiveSequencer.Insert | src/NaiveSequencer.cpp:24-27 | insertion adds the inserted length |
| NaiveSequencer.TryMakeFoldername | src/NaiveSequencer.cpp:18-33 | the name "artist - title (author)" with path characters blanked, always accepted |
| NaiveSequencer.StageIndex | include/NaiveSequencer.h:9 | each difficulty has a stage slot below 5 |
| NaiveSequencer.StageLevelOf | src/NaiveSequencer.cpp:100-130 | the stage level is 2·slot+1 |
| NaiveSequencer.StageLevelsDistinct | src/NaiveSequencer.cpp:100-130 | distinct difficulties have distinct slots and levels |
| NaiveSequencer.FirstRejected | src/NaiveSequencer.cpp:161-166 | the first map the sequencer rejects; all earlier ones transform |
| NaiveSequencer.TransformedPrefix | src/NaiveSequencer.cpp:161-166 | the transformed maps before the first rejection |
| NaiveSequencer.PrefixExtends | src/NaiveSequencer.cpp:161-166 | transforming one more map extends the prefix |
| NaiveSequencer.TransformQueue | src/NaiveSequencer.cpp:161-166 | the loop transforms the queue in place up to the first rejection and leaves the rest |
| NaiveSequencer.BeatTranslator.constructor | src/NaiveSequencer.cpp:16 | an empty queue and no stage flagged |
| NaiveSequencer.BeatTranslator.AppendFile | src/NaiveSequencer.cpp:93-132 | a loaded map is queued with its stage level and its stage flagged; a failed load changes nothing |
| NaiveSequencer.BeatTranslator.Clear | src/NaiveSequencer.cpp:135-139 | queue emptied, all flags cleared |
| NaiveSequencer.BeatTranslator.Translate | src/NaiveSequencer.cpp:142-180 | an empty queue does nothing; otherwise the folder name of the first map; on full success everything is cleared; on a rejection the queue holds the transformed prefix and the rest |

## Left out

- File and folder I/O: `loadFile` becomes a loaded-or-not input of `AppendFile`. `convertFile`, folder creation and writing files are not modelled; they only move text between disk and the modelled functions.
- JSON output: `ss_appendSet` and the other `ss_append*` writers, `serializeBeatset`, and `createMapInfo` apart from the content of its difficulty list. They are text formatting.
- The command-line front end in src/main.cpp; it is not part of the core.
- `mapTags`: the regex scan for section tags is replaced by its result, a tag dictionary given as input. `str_trim`'s regex is modelled as trimming its white-space class.
- `std::stoi` and `std::stof` become parameters. Their exceptions are `None`, which the surrounding `try` turns into a skipped line or the default value.
- `HitTypeT`, the taiko colour classifier, becomes a parameter, because its code is not part of this model.
- Floating-point rounding and the exact value of the float-to-`uint8_t`/`uint16_t` conversions of out-of-range values. Reals stand for floats.
- Debug `assert`s in the source are not all modelled. The model covers these:
  - src/BsSequencer.cpp:109, the sweep seed in an outer column: a precondition of `SweepDetector.IsSweepPattern`, met by the mania loop.
  - src/OsuParser.cpp:196, at least one period: `OsuTiming.EvaluateTiming` returns `None` instead (see Findings).
  - src/BsSequencer.cpp:452, the row below 3: the row is always 0.
  - src/BsSequencer.cpp:317 and :883, the mode and the game: the transforms are only reached for them.
- These asserts are not modelled:
  - src/OsuParser.cpp:240, at least eight fields in a timing line: a shorter line is read field by field, and a missing field is handled like a failed conversion inside the surrounding `try`.
  - src/OsuParser.cpp:281, ascending timing timestamps: unsorted lines are folded as they come, as a release build does.
  - src/OsuParser.cpp:314 and :364, a type or sound id of at most 255: the model keeps the low byte, as the `0xFF &` mask of a release build does.
  - src/BsSequencer.cpp:200, :312 and :661, a non-null sampling function: a function value is never null.
- ManiaPass.TransformMania and ManiaPass.ManiaTargets require every note after the lead-in to have x below 512 (`ManiaTransformer.ColumnsInRange`, part of `BeatSaberSequencer.Transformable`). The source only asserts this at src/BsSequencer.cpp:451. The parser's inclusive clamp `min(Os_Map_Width, x)` at src/OsuParser.cpp:317 can produce x = 512. That gives column 4, and a release build then indexes the 4 × 3 table `timeSlots` out of bounds. The model does not cover such maps.
- The commented-out legacy code in src/BsSequencer.cpp.
- An unknown `Difficulty_t` value in `appendFile` (src/NaiveSequencer.cpp:127-129) cannot occur with the model's enumeration.
- OsuParser.TryParse: the average rate is stated through some period that is at least 200 ms or equals the first shift's value. It is not stated as the exact common unit of all shift values.
- OsuTiming.EvaluateTiming: the result is stated as at least 200 or the first shift's value. It is not stated as the common unit of the whole set.
- OsuTiming.CommonUnit: the exact result is stated only for whole numbers. For fractional inputs, with the `FLT_EPSILON` stop, only non-negativity and the zero cases are stated.
- HandAssignment.AssignHands: a run of five or more simultaneous cubes that is not the last is skipped, instead of looping for ever as the source does (see Findings).
- Sampling is an abstract function `sample` in the mania and taiko passes. Its link to `quantizeTimestamp` is `BeatSaberSequencer.Sampler`; the passes' lemmas hold for any sampler, non-negative where stated.

## Findings

| source | as written | input that shows it | evidently intended | confidence | as-written member | corrected member |
|---|---|---|---|---|---|---|
| src/OsuParser.cpp:204-209 | `assignFromSequence` accepts a timing section whose front event has a value above 1 (src/OsuParser.cpp:286), even when the section holds no shift. `evaluateTiming` then walks `++periods.cbegin()` of an empty set and dereferences the end iterator of `find_if`. | a `[TimingPoints]` section holding only the line `0,500,4,2,0,100,1,1` (one kiai point): it records a kiai event of value 500 and no shift | a map without any beat-length shift is rejected | not executed | OsuTiming.KiaiOnlyTiming | OsuTiming.EvaluateTiming |
| src/BsSequencer.cpp:641-646 | the default case for runs of five or more simultaneous cubes sets `src = lneEnd` but leaves `dst` in place. The next round's `upper_bound` from `dst` finds the same run end, so the loop never advances unless that run is the last. | five cubes at time 1 followed by one cube at time 2 | the run is left as it is and the pass moves on to the next run | not executed | HandAssignment.FiveThenOneStuck | HandAssignment.AssignHands |
