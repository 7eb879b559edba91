/**
 * The translator front end: a queue of parsed beat sets, one per difficulty,
 * with a flag per difficulty slot; translating transforms every queued set,
 * names the output folder after the first one and empties the queue.
 */
module NaiveSequencer {
  import opened Common
  import opened XString
  import opened TaikoTransformer
  import opened BeatSaberSequencer

  /** The characters a folder name may not hold. */
  const PATH_CHARS: string := "\\/:*?\"<>|"

  /** The folder name before filtering: "artist - title (author)". */
  function FolderName(artist: string, title: string, author: string): string
  {
    artist + " - " + title + " (" + author + ")"
  }

  /** std::string::insert at a position within the string. */
  function Insert(s: string, pos: nat, t: string): (r: string)
    requires pos <= |s|
    ensures |r| == |s| + |t|
  {
    s[..pos] + t + s[pos..]
  }

  /**
   * tryMakeFoldername: the names are inserted into " -  ()" from the back, the
   * path characters are replaced by spaces, and the result is never blank
   * since the '-' survives.
   */
  method TryMakeFoldername(artist: string, title: string, author: string) returns (ok: bool, out: string)
    requires |artist| + |title| + |author| + 6 < NPOS
    ensures |out| == |FolderName(artist, title, author)|
    ensures forall k :: 0 <= k < |out| ==>
      out[k] == (if FolderName(artist, title, author)[k] in PATH_CHARS then ' ' else FolderName(artist, title, author)[k])
    ensures ok
  {
    out := " -  ()";
    out := Insert(out, 5, author);
    out := Insert(out, 3, title);
    out := Insert(out, 0, artist);
    assert out == FolderName(artist, title, author);
    out := Filter(out, PATH_CHARS);
    assert out[|artist| + 1] == '-';
    ok := !IsEmptyOrWhitespace(Some(out));
  }

  /** The difficulty slots, easiest first. */
  datatype Difficulty = Easy | Normal | Hard | Extra | Special

  /** The slot of a difficulty in the stage flags. */
  function StageIndex(d: Difficulty): (i: nat)
    ensures i < 5
  {
    match d
    case Easy => 0
    case Normal => 1
    case Hard => 2
    case Extra => 3
    case Special => 4
  }

  /** The stage level a difficulty gives its beat set. */
  function StageLevelOf(d: Difficulty): (l: UInt8)
    ensures l == 2 * StageIndex(d) + 1
  {
    match d
    case Easy => 1
    case Normal => 3
    case Hard => 5
    case Extra => 7
    case Special => 9
  }

  /** Distinct difficulties go to distinct slots and levels, and each level names its slot's stage. */
  lemma StageLevelsDistinct(a: Difficulty, b: Difficulty)
    ensures StageIndex(a) == StageIndex(b) <==> a == b
    ensures StageLevelOf(a) == StageLevelOf(b) <==> a == b
    ensures StageLevelOf(a) / 2 == StageIndex(a)
  {
  }

  /** Every queued beat set is one the transform accepts. */
  predicate QueueTranslatable(maps: seq<BeatSet>)
  {
    forall i :: 0 <= i < |maps| ==> maps[i].game == BeatSaber || (maps[i].game == Osu && Transformable(maps[i]))
  }

  /** The names of a beat set fit a folder name. */
  predicate MediaFits(m: MediaInfo)
  {
    |m.artist| + |m.title| + |m.author| + 6 < NPOS
  }

  /** The position of the first beat set the transform rejects, or |maps|. */
  ghost function FirstRejected(maps: seq<BeatSet>, area: real -> HitArea): (n: nat)
    requires QueueTranslatable(maps)
    ensures n <= |maps|
    ensures n < |maps| ==> Transformed(maps[n], area).Err?
    ensures forall i :: 0 <= i < n ==> Transformed(maps[i], area).Ok?
  {
    if |maps| == 0 then 0
    else if Transformed(maps[0], area).Err? then 0
    else
      assert QueueTranslatable(maps[1..]) by {
        forall i | 0 <= i < |maps[1..]|
          ensures maps[1..][i] == maps[i + 1]
        {
        }
      }
      1 + FirstRejected(maps[1..], area)
  }

  /** The transforms of the first n beat sets, all accepted. */
  ghost function TransformedPrefix(maps: seq<BeatSet>, area: real -> HitArea, n: nat): (r: seq<BeatSet>)
    requires QueueTranslatable(maps)
    requires n <= FirstRejected(maps, area)
    ensures |r| == n
  {
    seq(n, i requires 0 <= i < n => Transformed(maps[i], area).value)
  }

  /** Replacing the next accepted beat set by its transform extends the transformed prefix. */
  lemma PrefixExtends(maps: seq<BeatSet>, area: real -> HitArea, n: nat)
    requires QueueTranslatable(maps) && n < FirstRejected(maps, area)
    ensures (TransformedPrefix(maps, area, n) + maps[n..])[n := Transformed(maps[n], area).value]
         == TransformedPrefix(maps, area, n + 1) + maps[n + 1..]
  {
  }

  /**
   * Transforms the queued beat sets in order with one sequencer, stopping at
   * the first one the transform rejects; `out` is the queue with the accepted
   * ones replaced by their transforms.
   */
  method TransformQueue(maps: seq<BeatSet>, area: real -> HitArea) returns (out: seq<BeatSet>, n: nat)
    requires QueueTranslatable(maps)
    ensures n == FirstRejected(maps, area)
    ensures out == TransformedPrefix(maps, area, n) + maps[n..]
  {
    var bsSeq := new BsSequencer();
    ghost var stop := FirstRejected(maps, area);
    out := maps;
    n := 0;
    assert out == TransformedPrefix(maps, area, 0) + maps[0..];
    while n < |maps|
      invariant n <= stop
      invariant out == TransformedPrefix(maps, area, n) + maps[n..]
    {
      assert out[n] == maps[n];
      var r := bsSeq.TransformBeatset(out[n], area);
      if r.Err? {
        return;
      }
      PrefixExtends(maps, area, n);
      out := out[n := r.value];
      n := n + 1;
    }
  }

  /**
   * The translator: the queued beat sets and the five difficulty flags. The
   * queue is shared by the whole program in the original; here it is a field.
   */
  class BeatTranslator {
    const stages: array<bool>
    var maps: seq<BeatSet>

    ghost predicate Valid()
      reads this
    {
      stages.Length == 5
    }

    constructor()
      ensures Valid() && fresh(stages) && maps == []
      ensures forall i :: 0 <= i < stages.Length ==> !stages[i]
    {
      stages := new bool[5](_ => false);
      maps := [];
    }

    /**
     * appendFile: a file that fails to load changes nothing; a loaded beat set
     * is queued with the level of its difficulty, whose flag is set.
     */
    method AppendFile(loaded: Option<BeatSet>, stage: Difficulty) returns (ok: bool)
      requires Valid()
      modifies this, stages
      ensures Valid()
      ensures ok <==> loaded.Some?
      ensures loaded.None? ==> maps == old(maps) && stages[..] == old(stages[..])
      ensures loaded.Some? ==>
        && maps == old(maps) + [loaded.value.(stageLevel := StageLevelOf(stage))]
        && stages[..] == old(stages[..])[StageIndex(stage) := true]
    {
      if loaded.None? {
        return false;
      }
      maps := maps + [loaded.value];
      var last := |maps| - 1;
      match stage {
      case Easy =>
        stages[0] := true;
        maps := maps[last := maps[last].(stageLevel := 1)];
      case Normal =>
        stages[1] := true;
        maps := maps[last := maps[last].(stageLevel := 3)];
      case Hard =>
        stages[2] := true;
        maps := maps[last := maps[last].(stageLevel := 5)];
      case Extra =>
        stages[3] := true;
        maps := maps[last := maps[last].(stageLevel := 7)];
      case Special =>
        stages[4] := true;
        maps := maps[last := maps[last].(stageLevel := 9)];
      }
      return true;
    }

    /** clear: the queue is emptied and every difficulty flag reset. */
    method Clear()
      requires Valid()
      modifies this, stages
      ensures Valid()
      ensures maps == []
      ensures forall i :: 0 <= i < stages.Length ==> !stages[i]
    {
      for i := 0 to stages.Length
        invariant forall j :: 0 <= j < i ==> !stages[j]
      {
        stages[i] := false;
      }
      maps := [];
    }

    /**
     * translate: an empty queue changes nothing. Otherwise the folder is named
     * after the first beat set, and each queued set is transformed in place
     * and written; when all are accepted the queue is cleared. A rejected set
     * stops the run with the sets before it transformed and nothing cleared.
     */
    method Translate(area: real -> HitArea) returns (folder: string, written: seq<BeatSet>)
      requires Valid()
      requires QueueTranslatable(maps)
      requires |maps| > 0 ==> MediaFits(maps[0].media)
      modifies this, stages
      ensures Valid()
      ensures old(maps) == [] ==> maps == [] && stages[..] == old(stages[..]) && folder == [] && written == []
      ensures old(maps) != [] ==>
        var m := old(maps)[0].media;
        && |folder| == |FolderName(m.artist, m.title, m.author)|
        && (forall k :: 0 <= k < |folder| ==>
              folder[k] == (if FolderName(m.artist, m.title, m.author)[k] in PATH_CHARS then ' ' else FolderName(m.artist, m.title, m.author)[k]))
      ensures var n := FirstRejected(old(maps), area);
        && written == TransformedPrefix(old(maps), area, n)
        && (old(maps) != [] && n == |old(maps)| ==> maps == [] && forall i :: 0 <= i < stages.Length ==> !stages[i])
        && (n < |old(maps)| ==> maps == written + old(maps)[n..] && stages[..] == old(stages[..]))
    {
      folder, written := [], [];
      if |maps| == 0 {
        return;
      }
      var named;
      named, folder := TryMakeFoldername(maps[0].media.artist, maps[0].media.title, maps[0].media.author);
      var n;
      maps, n := TransformQueue(maps, area);
      written := maps[..n];
      if n == |maps| {
        Clear();
      }
    }
  }
}
