/**
 * Locating the sections and attributes of an osu! file. The file is a vector of
 * lines; a line range is a `StringSequence` of positions into it. The sections
 * are found through a dictionary from a section tag ("[General]") to the pair
 * (element index, line index): the element index counts the tags in order of
 * appearance, the line index is the tag's line.
 */
module OsuSections {
  import opened Common
  import opened XString

  type TagDict = map<string, (int, nat)>

  const TAG_GENERAL: string := "[General]"
  const TAG_METADATA: string := "[Metadata]"
  const TAG_DIFFICULTY: string := "[Difficulty]"
  const TAG_EVENTS: string := "[Events]"
  const TAG_TIMING: string := "[TimingPoints]"
  const TAG_HIT_OBJECTS: string := "[HitObjects]"

  const PROP_LEAD_IN: string := "AudioLeadIn"
  const PROP_MODE: string := "Mode"
  const PROP_SUBGRID: string := "GridSize"
  const PROP_MEDIA_NAME: string := "AudioFilename"
  const PROP_ARTIST: string := "Artist"
  const PROP_TITLE: string := "Title"
  const PROP_AUTHOR: string := "Creator"
  const PROP_PREVIEW: string := "PreviewTime"

  /** The characters a regular-expression `\s` matches at the ends of a value. */
  const REGEX_SPACE: string := " \t\n\r\U{C}\U{B}"

  /** The dictionary as the tag scan builds it: element indices are not negative. */
  predicate TagsNumbered(dict: TagDict)
  {
    forall k :: k in dict ==> dict[k].0 >= 0
  }

  /** The (element, line) pair of a tag, or (-1, 0) for a missing tag. */
  function GetMappedPair(dict: TagDict, key: string): (r: (int, nat))
    ensures key in dict ==> r == dict[key]
    ensures key !in dict ==> r.0 < 0
  {
    if key in dict then dict[key] else (-1, 0)
  }

  /** In a numbered dictionary, a tag is present exactly when its element index is not negative. */
  lemma MappedPairFound(dict: TagDict, key: string)
    requires TagsNumbered(dict)
    ensures GetMappedPair(dict, key).0 >= 0 <==> key in dict
  {
  }

  /**
   * The line of the tag following element n (a negative n counts as 0): the line
   * of a tag whose element index is n + 1, or SIZE_MAX when n + 1 is not below
   * the number of tags or no tag has that index. The dictionary is scanned in an
   * unspecified order.
   */
  method GetNextMappedLine(dict: TagDict, n: int) returns (r: nat)
    requires |dict| > 0
    ensures var m := (if n < 0 then 0 else n) + 1;
      && (m < |dict| && (exists k :: k in dict && dict[k].0 == m) ==> exists k :: k in dict && dict[k] == (m, r))
      && (!(m < |dict| && exists k :: k in dict && dict[k].0 == m) ==> r == SIZE_MAX)
  {
    var m := if n < 0 then 1 else n + 1;
    if m < |dict| {
      var keys := dict.Keys;
      while keys != {}
        invariant keys <= dict.Keys
        invariant forall k :: k in dict && k !in keys ==> dict[k].0 != m
        decreases |keys|
      {
        var k :| k in keys;
        if dict[k].0 == m {
          return dict[k].1;
        }
        keys := keys - {k};
      }
    }
    return SIZE_MAX;
  }

  /** When element indices are distinct, the line found is the one of the unique next tag. */
  lemma NextMappedLineUnique(dict: TagDict, m: int, r: nat, k: string)
    requires forall a, b :: a in dict && b in dict && dict[a].0 == dict[b].0 ==> a == b
    requires k in dict && dict[k].0 == m
    requires exists j :: j in dict && dict[j] == (m, r)
    ensures r == dict[k].1
  {
    var j :| j in dict && dict[j] == (m, r);
    assert dict[j].0 == dict[k].0;
  }

  /* ---------- attributes ---------- */

  /** Every line fits a std::string position. */
  predicate LinesFit(lines: seq<string>)
  {
    forall i :: 0 <= i < |lines| ==> |lines[i]| < NPOS
  }

  /** The range lies within the lines. */
  predicate InLines(ss: StringSequence, lines: seq<string>)
  {
    0 <= ss.begin <= ss.end <= |lines|
  }

  /** Position of the first line in [lo, hi) containing `property`, or `hi`. */
  function FirstLineWith(lines: seq<string>, lo: nat, hi: nat, property: string): (r: nat)
    requires lo <= hi <= |lines|
    requires LinesFit(lines)
    ensures lo <= r <= hi
    ensures r < hi ==> Contains(lines[r], property)
    ensures forall k :: lo <= k < r ==> !Contains(lines[k], property)
    decreases hi - lo
  {
    if lo == hi then hi
    else if Contains(lines[lo], property) then lo
    else FirstLineWith(lines, lo + 1, hi, property)
  }

  /** The whitespace trim of the value text. */
  function StrTrim(s: string): (r: string)
    requires |s| < NPOS
    ensures r != [] ==> r[0] !in REGEX_SPACE && r[|r| - 1] !in REGEX_SPACE
  {
    Trim(s, REGEX_SPACE)
  }

  /** Position after the first ':' in a size_t: "not found" plus one wraps to 0. */
  function ValueOffset(line: string): (r: nat)
    requires |line| < NPOS
    ensures Find(line, ':', 0) == NPOS ==> r == 0
    ensures Find(line, ':', 0) != NPOS ==> r == Find(line, ':', 0) + 1 && line[r - 1] == ':'
    ensures forall k :: 0 <= k < r - 1 ==> line[k] != ':'
  {
    (Find(line, ':', 0) + 1) % (SIZE_MAX + 1)
  }

  /**
   * The trimmed text after the first ':' of the first line in the range that
   * contains `property`; the whole trimmed line when it has no ':'; empty when
   * no line contains it or nothing follows the ':'.
   */
  function GetStrAttribute(lines: seq<string>, ss: StringSequence, property: string): (r: string)
    requires InLines(ss, lines) && LinesFit(lines)
    ensures r != [] ==> r[0] !in REGEX_SPACE && r[|r| - 1] !in REGEX_SPACE
  {
    var i := FirstLineWith(lines, ss.begin, ss.end, property);
    if i == ss.end then ""
    else
      var offs := ValueOffset(lines[i]);
      if offs < |lines[i]| then StrTrim(lines[i][offs..]) else ""
  }

  /** The offset of the value is one past the first ':', or 0 without one. */
  lemma ValueOffsetAt(line: string, c: nat)
    requires |line| < NPOS && c < |line| && line[c] == ':' && ':' !in line[..c]
    ensures ValueOffset(line) == c + 1
  {
  }

  lemma ValueOffsetNone(line: string)
    requires |line| < NPOS && ':' !in line
    ensures ValueOffset(line) == 0
  {
  }

  /** The attribute value comes from the first line holding the property, after its first ':' or, without one, the whole line. */
  lemma StrAttributeSource(lines: seq<string>, ss: StringSequence, property: string, c: nat)
    requires InLines(ss, lines) && LinesFit(lines)
    ensures (forall k :: ss.begin <= k < ss.end ==> !Contains(lines[k], property)) ==> GetStrAttribute(lines, ss, property) == ""
    ensures var i := FirstLineWith(lines, ss.begin, ss.end, property);
      i < ss.end ==>
        var line := lines[i];
        && (':' !in line ==> GetStrAttribute(lines, ss, property) == StrTrim(line))
        && (c < |line| - 1 && line[c] == ':' && ':' !in line[..c] ==> GetStrAttribute(lines, ss, property) == StrTrim(line[c + 1..]))
  {
    var i := FirstLineWith(lines, ss.begin, ss.end, property);
    if i < ss.end {
      var line := lines[i];
      if ':' !in line {
        ValueOffsetNone(line);
        assert line[0..] == line;
      } else if c < |line| - 1 && line[c] == ':' && ':' !in line[..c] {
        ValueOffsetAt(line, c);
      }
    }
  }

  /** Field i of a split line, parsed; missing or unparsable fields give None. */
  function ArgAt<T>(args: seq<string>, i: nat, parse: string -> Option<T>): Option<T>
  {
    if i < |args| then parse(args[i]) else None
  }

  /** An integer attribute: the parsed value text, or the fallback when it does not parse. */
  function IntAttribute(lines: seq<string>, ss: StringSequence, property: string, nullValue: int,
                        parseInt: string -> Option<int>): (r: int)
    requires InLines(ss, lines) && LinesFit(lines)
    ensures r == nullValue || parseInt(GetStrAttribute(lines, ss, property)) == Some(r)
  {
    match parseInt(GetStrAttribute(lines, ss, property))
    case None => nullValue
    case Some(v) => v
  }

  /** The parsed value of a text, or the fallback when it does not parse. */
  function ParsedOr(text: string, nullValue: int, parseInt: string -> Option<int>): int
  {
    if parseInt(text).Some? then parseInt(text).value else nullValue
  }

  /**
   * An integer attribute is read from the first line naming the property: the
   * parsed trimmed text after its first ':' (or of the whole line without one),
   * the fallback when that text does not parse, and the parse of "" when no
   * line names the property.
   */
  lemma IntAttributeSource(lines: seq<string>, ss: StringSequence, property: string, nullValue: int,
                           parseInt: string -> Option<int>, c: nat)
    requires InLines(ss, lines) && LinesFit(lines)
    ensures (forall k :: ss.begin <= k < ss.end ==> !Contains(lines[k], property)) ==>
      IntAttribute(lines, ss, property, nullValue, parseInt) == ParsedOr("", nullValue, parseInt)
    ensures var i := FirstLineWith(lines, ss.begin, ss.end, property);
      i < ss.end ==>
        var line := lines[i];
        && (':' !in line ==> IntAttribute(lines, ss, property, nullValue, parseInt) == ParsedOr(StrTrim(line), nullValue, parseInt))
        && (c < |line| - 1 && line[c] == ':' && ':' !in line[..c] ==>
              IntAttribute(lines, ss, property, nullValue, parseInt) == ParsedOr(StrTrim(line[c + 1..]), nullValue, parseInt))
  {
    StrAttributeSource(lines, ss, property, c);
  }
}
