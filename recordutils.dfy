/** The track-position segmenter of recordutils.go: it classifies the catalogue's
    position strings, walks the flattened tracklist into one TrackSet per audio track,
    merges adjacent sets to a fixpoint and renumbers the sets disk by disk. */
module RecordUtils {
  import opened Wrappers
  import opened Text

  /** The catalogue's track kinds; `KindUnspecified` is the zero value a track gets when
      it is built without a kind (as the synthetic tape sides are). */
  datatype TrackType = KindUnspecified | KindTrack | KindHeading | KindIndex

  /** A catalogue tracklist node. */
  datatype Track = Track(position: string, title: string, kind: TrackType, subTracks: seq<Track>)

  /** The release fields this core reads. */
  datatype Release = Release(
    id: int,
    instanceId: int,
    title: string,
    artists: seq<string>,
    formats: seq<string>,
    formatQuantity: int,
    tracklist: seq<Track>)

  /** One output audio file. The source keeps `Position` and `Disk` as the decimal
      renderings (`fmt.Sprintf("%v", n)`) of positive counters; the model keeps the
      counters and renders them where a path is built (rendering is injective, see
      Text.NatToStringInjective, so comparing them is comparing the strings). */
  datatype TrackSet = TrackSet(tracks: seq<Track>, position: nat, disk: nat, format: string)

  // ---------------------------------------------------------------------------
  // Position classification

  /** The disk of a vinyl side letter: sides come in pairs A/B, C/D, ..., I/J. */
  function GetDisk(pos: string): (disk: int)
    requires pos != []
    ensures 'A' <= pos[0] <= 'J' ==> disk == (pos[0] as int - 'A' as int) / 2 + 1
    ensures !('A' <= pos[0] <= 'J') ==> disk == 1
  {
    var c := pos[0];
    if c == 'C' || c == 'D' then 2
    else if c == 'E' || c == 'F' then 3
    else if c == 'G' || c == 'H' then 4
    else if c == 'I' || c == 'J' then 5
    else 1
  }

  /** `^[A-Z]\d*$`: a side letter optionally followed by a track number. */
  predicate IsSideToken(pos: string)
  {
    |pos| > 0 && IsUpper(pos[0]) && AllDigits(pos[1..])
  }

  datatype Classified = Classified(format: string, disk: int)

  const KnownFormats: set<string> := {"Vinyl", "CD", "DVD", "BR", "Unknown"}

  /** The text between the first and the second dash (`strings.Split(pos, "-")[1]`). */
  function SecondSegment(pos: string): string
    requires '-' in pos
  {
    BeforeFirst(AfterFirst(pos, '-'), '-')
  }

  /** The first dash-separated segment starts with a digit and holds no inch mark. */
  predicate DigitLed(first: string)
  {
    |first| > 0 && IsDigit(first[0]) && '"' !in first
  }

  /** A 7" or 5" single. */
  predicate InchPrefix(first: string)
  {
    HasPrefix(first, "7\"") || HasPrefix(first, "5\"")
  }

  /** A segment naming a vinyl side list: "Vinyl", "LP..." or "4.72...". */
  predicate VinylWord(first: string)
  {
    first == "Vinyl" || HasPrefix(first, "LP") || HasPrefix(first, "4.72")
  }

  /** One of the four rules that look at the whole position applies. */
  predicate PrefixRuleApplies(pos: string)
  {
    IsSideToken(pos) || (HasPrefix(pos, "CD") && |pos| > 2) || (HasPrefix(pos, "DVD") && |pos| > 2) ||
    (HasPrefix(pos, "BR") && |pos| > 2)
  }

  /** One of the three rules that look at the first dash-separated segment applies. */
  predicate DashRuleApplies(pos: string)
  {
    '-' in pos && var first := BeforeFirst(pos, '-'); DigitLed(first) || InchPrefix(first) || VinylWord(first)
  }

  /** The ordered rule chain of getFormatAndDisk; the first rule that applies wins.
      `Err(Panic)` is the index out of range that getDisk hits when a "Vinyl"/"LP"/"4.72"
      token has nothing after its first dash. */
  function GetFormatAndDisk(pos: string): (r: Result<Classified>)
    ensures r.Ok? ==> r.value.format in KnownFormats
    ensures r.Ok? && r.value.format == "Unknown" ==> r.value.disk == -1
    ensures r.Err? ==> '-' in pos && SecondSegment(pos) == [] && r.error.Panic?
  {
    if IsSideToken(pos) then
      Ok(Classified("Vinyl", GetDisk(pos)))
    else if HasPrefix(pos, "CD") && |pos| > 2 then
      var part := BeforeFirst(pos, '-');
      Ok(Classified("CD", Atoi(part[2..]).value))
    else if HasPrefix(pos, "DVD") && |pos| > 2 then
      var part := BeforeFirst(pos, '-');
      Ok(Classified("DVD", Atoi(part[3..]).value))
    else if HasPrefix(pos, "BR") && |pos| > 2 then
      var part := BeforeFirst(pos, '-');
      Ok(Classified("BR", Atoi(part[2..]).value))
    else if '-' in pos then
      var first := BeforeFirst(pos, '-');
      if DigitLed(first) then
        Ok(Classified("CD", Atoi(first).value))
      else if InchPrefix(first) then
        if |first| > 2 then Ok(Classified("Vinyl", Atoi(first[2..]).value))
        else Ok(Classified("Vinyl", -1))
      else if VinylWord(first) then
        var second := SecondSegment(pos);
        if second == [] then Err(Panic("index out of range in getDisk"))
        else Ok(Classified("Vinyl", GetDisk(second)))
      else Ok(Classified("Unknown", -1))
    else Ok(Classified("Unknown", -1))
  }

  /** The first rule wins: a side token is always vinyl, with the disk of its letter. */
  lemma SideTokenIsVinyl(pos: string)
    requires IsSideToken(pos)
    ensures GetFormatAndDisk(pos) == Ok(Classified("Vinyl", GetDisk(pos)))
  {
  }

  /** A "CD" prefix with more after it is a CD whose disk is the number between "CD" and
      the first dash (0 when that is not a number); no side token starts with "CD". */
  lemma CdPrefixRule(pos: string)
    requires HasPrefix(pos, "CD") && |pos| > 2
    ensures var part := BeforeFirst(pos, '-');
      |part| >= 2 && GetFormatAndDisk(pos) == Ok(Classified("CD", Atoi(part[2..]).value))
  {
    assert !IsSideToken(pos) by {
      assert !IsDigit(pos[1..][0]);
    }
    PrefixBeforeDash(pos, 2);
  }

  /** A "DVD" prefix always classifies as DVD, with the number between "DVD" and the first
      dash as its disk (no side token and no "CD" token starts with it). */
  lemma DvdPrefixIsDvd(pos: string)
    requires HasPrefix(pos, "DVD")
    ensures var part := BeforeFirst(pos, '-');
      |part| >= 3 && GetFormatAndDisk(pos) == Ok(Classified("DVD", Atoi(part[3..]).value))
  {
    assert !IsDigit(pos[1..][0]);
    PrefixBeforeDash(pos, 3);
  }

  /** A "BR" prefix with more after it is a Blu-ray, with the number between "BR" and the
      first dash as its disk. */
  lemma BrPrefixRule(pos: string)
    requires HasPrefix(pos, "BR") && |pos| > 2
    ensures var part := BeforeFirst(pos, '-');
      |part| >= 2 && GetFormatAndDisk(pos) == Ok(Classified("BR", Atoi(part[2..]).value))
  {
    assert !IsSideToken(pos) by {
      assert !IsDigit(pos[1..][0]);
    }
    assert !HasPrefix(pos, "CD") && !HasPrefix(pos, "DVD") by {
      assert pos[0] == 'B';
    }
    PrefixBeforeDash(pos, 2);
  }

  /** The text before the first dash is at least as long as a dash-free prefix. */
  lemma PrefixBeforeDash(pos: string, n: nat)
    requires n <= |pos| && '-' !in pos[..n]
    ensures |BeforeFirst(pos, '-')| >= n
  {
  }

  /** A dashed position whose first segment is a number without an inch mark is a CD,
      with that number as its disk; no prefix rule applies to it. */
  lemma DigitDashRule(pos: string)
    requires '-' in pos && DigitLed(BeforeFirst(pos, '-'))
    ensures GetFormatAndDisk(pos) == Ok(Classified("CD", Atoi(BeforeFirst(pos, '-')).value))
  {
    assert IsDigit(pos[0]) by { assert pos[0] == BeforeFirst(pos, '-')[0]; }
    assert !PrefixRuleApplies(pos);
  }

  /** A 7" or 5" first segment is vinyl: the number after the inch mark is the disk, and
      -1 when nothing follows it. */
  lemma InchRule(pos: string)
    requires '-' in pos && InchPrefix(BeforeFirst(pos, '-'))
    ensures var first := BeforeFirst(pos, '-');
      GetFormatAndDisk(pos) ==
        Ok(Classified("Vinyl", if |first| > 2 then Atoi(first[2..]).value else -1))
  {
    var first := BeforeFirst(pos, '-');
    assert IsDigit(pos[0]) by { assert pos[0] == first[0]; }
    assert !PrefixRuleApplies(pos);
    assert !DigitLed(first) by { assert first[1] == '"'; }
  }

  /** A "Vinyl", "LP..." or (inch-marked) "4.72..." first segment reads the disk from the
      side letter of the second segment, and panics when that segment is empty. */
  lemma VinylWordRule(pos: string)
    requires '-' in pos && VinylWord(BeforeFirst(pos, '-')) && !DigitLed(BeforeFirst(pos, '-'))
    ensures SecondSegment(pos) == [] ==> GetFormatAndDisk(pos) == Err(Panic("index out of range in getDisk"))
    ensures SecondSegment(pos) != [] ==>
      GetFormatAndDisk(pos) == Ok(Classified("Vinyl", GetDisk(SecondSegment(pos))))
  {
    var first := BeforeFirst(pos, '-');
    assert |first| >= 2 && pos[0] == first[0] && pos[1] == first[1];
    assert !PrefixRuleApplies(pos) by {
      assert !IsDigit(pos[1..][0]);
    }
    assert !InchPrefix(first);
  }

  /** Precedence: a "4.72" first segment without an inch mark is caught by the digit rule
      first, so it is a CD, and as "4.72" is not a number its disk is 0. */
  lemma FourSevenTwoIsCd(pos: string)
    requires '-' in pos && HasPrefix(BeforeFirst(pos, '-'), "4.72") && '"' !in BeforeFirst(pos, '-')
    ensures GetFormatAndDisk(pos) == Ok(Classified("CD", 0))
  {
    DigitDashRule(pos);
    AtoiStopsAtDot(BeforeFirst(pos, '-'));
  }

  /** "4.72..." is not a number: Atoi stops at the dot and reports 0. */
  lemma AtoiStopsAtDot(first: string)
    requires HasPrefix(first, "4.72")
    ensures Atoi(first) == Parsed(0, false)
  {
    assert first[0] == '4' && first[1..][0] == '.';
    assert DigitPrefix(first[1..]) == [];
    assert DigitPrefix(first) == "4";
    assert StripSign(first) == first;
    assert DigitsValue("4") == 4;
  }

  /** The only failure is the getDisk panic, and it happens exactly when the vinyl-word
      rule is reached with an empty second segment. */
  lemma PanicsExactly(pos: string)
    ensures GetFormatAndDisk(pos).Err? <==>
      '-' in pos && VinylWord(BeforeFirst(pos, '-')) && !DigitLed(BeforeFirst(pos, '-')) &&
      SecondSegment(pos) == []
  {
    if '-' in pos && VinylWord(BeforeFirst(pos, '-')) && !DigitLed(BeforeFirst(pos, '-')) {
      VinylWordRule(pos);
    }
  }

  /** "Unknown" is returned exactly when no rule applies. */
  lemma UnknownExactly(pos: string)
    ensures (GetFormatAndDisk(pos).Ok? && GetFormatAndDisk(pos).value.format == "Unknown") <==>
      !PrefixRuleApplies(pos) && !DashRuleApplies(pos)
  {
  }

  /** A CD comes from a "CD" prefix or from a digit-led token with a dash. */
  lemma CdOrigin(pos: string)
    requires GetFormatAndDisk(pos).Ok? && GetFormatAndDisk(pos).value.format == "CD"
    ensures HasPrefix(pos, "CD") || ('-' in pos && IsDigit(pos[0]))
  {
  }

  /** Positions that never become a TrackSet (video and disc-image content). */
  predicate Excluded(pos: string)
  {
    HasPrefix(pos, "Video") || HasPrefix(pos, "DVD") || HasPrefix(pos, "BD") || HasPrefix(pos, "BR")
  }

  // ---------------------------------------------------------------------------
  // The merge predicate

  predicate AllNonEmpty(sets: seq<TrackSet>)
  {
    forall i :: 0 <= i < |sets| ==> sets[i].tracks != []
  }

  function FirstPosition(t: TrackSet): string
    requires t.tracks != []
  {
    t.tracks[0].position
  }

  function LastPosition(t: TrackSet): string
    requires t.tracks != []
  {
    t.tracks[|t.tracks| - 1].position
  }

  predicate StartsLower(p: string) { |p| > 0 && IsLower(p[0]) }

  predicate DigitThenUpper(p: string) { |p| > 1 && IsDigit(p[0]) && IsUpper(p[1]) }

  predicate EndsLower(p: string) { |p| > 0 && IsLower(p[|p| - 1]) }

  /** (a) both first positions start with a lower-case letter. */
  predicate RuleLower(p1: string, p2: string) { StartsLower(p1) && StartsLower(p2) }

  /** (b) both first positions are a digit and an upper-case letter, with the same digit. */
  predicate RuleDigitSide(p1: string, p2: string)
  {
    DigitThenUpper(p1) && DigitThenUpper(p2) && p1[0] == p2[0]
  }

  /** The guard of (c): first positions longer than one character, ending in a
      lower-case letter and sharing their first character. */
  predicate RuleLetterGuard(p1: string, p2: string)
  {
    |p1| > 1 && |p2| > 1 && EndsLower(p1) && EndsLower(p2) && p1[0] == p2[0]
  }

  /** The test of (c) on the last characters of the two last positions, with the byte
      subtraction of the source wrapping modulo 256. */
  predicate Successive(l1: string, l2: string)
    requires l1 != [] && l2 != []
  {
    l1[|l1| - 1] as int == (l2[|l2| - 1] as int + 255) % 256
  }

  /** (d) equal text before the first dot, and in p1 either no dash or a dash segment
      strictly shorter than the dot segment. */
  predicate RuleDot(p1: string, p2: string)
  {
    BeforeFirst(p1, '.') == BeforeFirst(p2, '.') &&
    ('-' !in p1 || |BeforeFirst(p1, '-')| < |BeforeFirst(p1, '.')|)
  }

  /** shouldMerge: `None` is the panic of rule (c) indexing an empty last position. */
  function ShouldMerge(t1: TrackSet, t2: TrackSet): (r: Option<bool>)
    requires t1.tracks != [] && t2.tracks != []
    ensures r.None? <==>
      !RuleLower(FirstPosition(t1), FirstPosition(t2)) &&
      !RuleDigitSide(FirstPosition(t1), FirstPosition(t2)) &&
      RuleLetterGuard(FirstPosition(t1), FirstPosition(t2)) &&
      (LastPosition(t1) == [] || LastPosition(t2) == [])
    ensures r.Some? ==> (r.value <==>
      RuleLower(FirstPosition(t1), FirstPosition(t2)) ||
      RuleDigitSide(FirstPosition(t1), FirstPosition(t2)) ||
      (RuleLetterGuard(FirstPosition(t1), FirstPosition(t2)) &&
       Successive(LastPosition(t1), LastPosition(t2))) ||
      RuleDot(FirstPosition(t1), FirstPosition(t2)))
  {
    var p1, p2 := t1.tracks[0].position, t2.tracks[0].position;
    if StartsLower(p1) && StartsLower(p2) then Some(true)
    else if DigitThenUpper(p1) && DigitThenUpper(p2) && p1[0] == p2[0] then Some(true)
    else if |p1| > 1 && |p2| > 1 && EndsLower(p1) && EndsLower(p2) && p1[0] == p2[0] then
      var l1, l2 := LastPosition(t1), LastPosition(t2);
      if l1 == [] || l2 == [] then None
      else if l1[|l1| - 1] as int == (l2[|l2| - 1] as int + 255) % 256 then Some(true)
      else Some(RuleDot(p1, p2))
    else Some(RuleDot(p1, p2))
  }

  // ---------------------------------------------------------------------------
  // Flattening

  /** Pre-order: each node is followed by its own flattened sub-tracks. */
  function Flatten(tracklist: seq<Track>): seq<Track>
    decreases tracklist
  {
    if tracklist == [] then []
    else [tracklist[0]] + Flatten(tracklist[0].subTracks) + Flatten(tracklist[1..])
  }

  /** The number of nodes in a forest of tracks. */
  function NodeCount(tracklist: seq<Track>): nat
    decreases tracklist
  {
    if tracklist == [] then 0
    else 1 + NodeCount(tracklist[0].subTracks) + NodeCount(tracklist[1..])
  }

  lemma {:induction false} FlattenLength(tracklist: seq<Track>)
    ensures |Flatten(tracklist)| == NodeCount(tracklist)
    decreases tracklist
  {
    if tracklist != [] {
      FlattenLength(tracklist[0].subTracks);
      FlattenLength(tracklist[1..]);
    }
  }

  lemma {:induction false} FlattenConcat(a: seq<Track>, b: seq<Track>)
    ensures Flatten(a + b) == Flatten(a) + Flatten(b)
    decreases |a|
  {
    if a != [] {
      assert (a + b)[0] == a[0];
      assert (a + b)[1..] == a[1..] + b;
      FlattenConcat(a[1..], b);
    } else {
      assert a + b == b;
    }
  }

  lemma FlattenCons(t: Track, rest: seq<Track>)
    ensures Flatten([t] + rest) == [t] + Flatten(t.subTracks) + Flatten(rest)
  {
    var l := [t] + rest;
    assert l[0] == t && l[1..] == rest;
  }

  lemma FlattenAround(before: seq<Track>, t: Track, after: seq<Track>)
    ensures Flatten(before + ([t] + after)) ==
      Flatten(before) + [t] + Flatten(t.subTracks) + Flatten(after)
  {
    FlattenConcat(before, [t] + after);
    FlattenCons(t, after);
  }

  lemma SplitAt<T>(s: seq<T>, k: nat)
    requires k < |s|
    ensures s == s[..k] + ([s[k]] + s[k + 1..])
  {
  }

  /** Every top-level node is immediately followed by its own flattened sub-tracks. */
  lemma FlattenAt(tracklist: seq<Track>, k: nat)
    requires k < |tracklist|
    ensures Flatten(tracklist) ==
      Flatten(tracklist[..k]) + [tracklist[k]] + Flatten(tracklist[k].subTracks) + Flatten(tracklist[k + 1..])
  {
    SplitAt(tracklist, k);
    FlattenAround(tracklist[..k], tracklist[k], tracklist[k + 1..]);
  }

  /** A tracklist without sub-tracks flattens to itself. */
  lemma {:induction false} FlattenOfLeaves(tracklist: seq<Track>)
    requires forall i :: 0 <= i < |tracklist| ==> tracklist[i].subTracks == []
    ensures Flatten(tracklist) == tracklist
    decreases |tracklist|
  {
    if tracklist != [] {
      FlattenOfLeaves(tracklist[1..]);
      assert tracklist == [tracklist[0]] + tracklist[1..];
    }
  }

  // ---------------------------------------------------------------------------
  // Base format

  predicate IsWrapper(name: string) { name == "Box Set" || name == "All Media" }

  function Normalize(name: string): string { if name == "CDr" then "CD" else name }

  /** The last format name that is not a wrapper, with "CDr" read as "CD"; "" if none. */
  function BaseFormatOf(formats: seq<string>): string
  {
    if formats == [] then ""
    else if IsWrapper(formats[|formats| - 1]) then BaseFormatOf(formats[..|formats| - 1])
    else Normalize(formats[|formats| - 1])
  }

  /** Format i is the last one that is not a wrapper. */
  predicate LastNonWrapper(formats: seq<string>, i: int)
  {
    0 <= i < |formats| && !IsWrapper(formats[i]) &&
    forall j :: i < j < |formats| ==> IsWrapper(formats[j])
  }

  /** The base format is the normalised last non-wrapper name, or "" when every name is
      a wrapper. */
  lemma {:induction false} BaseFormatIsLastNonWrapper(formats: seq<string>)
    ensures (forall i :: 0 <= i < |formats| ==> IsWrapper(formats[i])) ==> BaseFormatOf(formats) == ""
    ensures forall i :: LastNonWrapper(formats, i) ==> BaseFormatOf(formats) == Normalize(formats[i])
  {
    if formats != [] {
      var n := |formats| - 1;
      var prefix := formats[..n];
      BaseFormatIsLastNonWrapper(prefix);
      if IsWrapper(formats[n]) {
        assert BaseFormatOf(formats) == BaseFormatOf(prefix);
        forall i | LastNonWrapper(formats, i) ensures LastNonWrapper(prefix, i) {
          LastNonWrapperOfPrefix(formats, i);
        }
        if forall i :: 0 <= i < |formats| ==> IsWrapper(formats[i]) {
          forall i | 0 <= i < |prefix| ensures IsWrapper(prefix[i]) {
            assert prefix[i] == formats[i];
          }
        }
      } else {
        assert BaseFormatOf(formats) == Normalize(formats[n]);
        forall i | LastNonWrapper(formats, i) ensures i == n {
        }
      }
    }
  }

  lemma LastNonWrapperOfPrefix(formats: seq<string>, i: int)
    requires formats != [] && IsWrapper(formats[|formats| - 1]) && LastNonWrapper(formats, i)
    ensures LastNonWrapper(formats[..|formats| - 1], i)
  {
    var prefix := formats[..|formats| - 1];
    forall j | i < j < |prefix| ensures IsWrapper(prefix[j]) {
      assert prefix[j] == formats[j];
    }
  }

  method BaseFormat(formats: seq<string>) returns (base: string)
    ensures base == BaseFormatOf(formats)
  {
    base := "";
    var i := 0;
    while i < |formats|
      invariant 0 <= i <= |formats|
      invariant base == BaseFormatOf(formats[..i])
    {
      assert formats[..i + 1][..i] == formats[..i];
      if !IsWrapper(formats[i]) {
        base := Normalize(formats[i]);
      }
      i := i + 1;
    }
    assert formats[..i] == formats;
  }

  // ---------------------------------------------------------------------------
  // Emission

  /** The loop state of the emission walk: currDisk, readDisk, currFormat, currTrack and
      the sets emitted so far. */
  datatype Walk = Walk(currDisk: nat, readDisk: int, currFormat: string, currTrack: nat, sets: seq<TrackSet>)

  const InitialWalk := Walk(0, 0, "", 1, [])

  /** "Unknown" falls back to the release's base format. */
  function EffectiveFormat(c: Classified, base: string): string
  {
    if c.format == "Unknown" then base else c.format
  }

  predicate Emittable(t: Track)
  {
    t.kind == KindTrack && !Excluded(t.position)
  }

  /** The format/disk bookkeeping for one TRACK node: a new format, or a new disk
      label under the same format, starts a new disk. */
  function Advance(w: Walk, c: Classified, base: string): Walk
  {
    var format := EffectiveFormat(c, base);
    if format != w.currFormat then w.(currFormat := format, readDisk := c.disk, currDisk := w.currDisk + 1)
    else if w.readDisk != c.disk then w.(currDisk := w.currDisk + 1, readDisk := c.disk)
    else w
  }

  /** Appends the one-track set for `t` at the current disk, format and track counter. */
  function Emit(w: Walk, t: Track): Walk
  {
    w.(sets := w.sets + [TrackSet([t], w.currTrack, w.currDisk, w.currFormat)], currTrack := w.currTrack + 1)
  }

  function WalkStep(w: Walk, t: Track, base: string): Result<Walk>
  {
    if t.kind != KindTrack then Ok(w)
    else match GetFormatAndDisk(t.position)
      case Err(e) => Err(e)
      case Ok(c) =>
        var w1 := Advance(w, c, base);
        if Excluded(t.position) then Ok(w1) else Ok(Emit(w1, t))
  }

  /** The concatenation of the backing tracks of a list of sets. */
  function Backing(sets: seq<TrackSet>): seq<Track>
  {
    if sets == [] then [] else Backing(sets[..|sets| - 1]) + sets[|sets| - 1].tracks
  }

  /** The tracks of a flattened list that the walk emits, in order. */
  function EmittableTracks(flat: seq<Track>): seq<Track>
  {
    if flat == [] then []
    else EmittableTracks(flat[..|flat| - 1]) + (if Emittable(flat[|flat| - 1]) then [flat[|flat| - 1]] else [])
  }

  predicate DisksNonDecreasing(sets: seq<TrackSet>)
  {
    forall i, j :: 0 <= i < j < |sets| ==> sets[i].disk <= sets[j].disk
  }

  /** Set i holds a track whose position classifies, and its format is that
      classification with "Unknown" replaced by the base format. */
  predicate FormatFromPosition(t: TrackSet, base: string)
  {
    t.tracks != [] && GetFormatAndDisk(t.tracks[0].position).Ok? &&
    t.format == EffectiveFormat(GetFormatAndDisk(t.tracks[0].position).value, base)
  }

  /** Every set's format comes from its position. */
  predicate FormatsFromPositions(sets: seq<TrackSet>, base: string)
  {
    forall i :: 0 <= i < |sets| ==> FormatFromPosition(sets[i], base)
  }

  /** The shape the emission walk keeps after a prefix `flat` of the flattened
      tracklist: each emitted set holds one track; the backing tracks are exactly the
      emittable tracks in order; positions count 1, 2, ...; disk labels are positive, at
      most the current disk and never decrease. */
  predicate WalkShape(w: Walk, flat: seq<Track>)
  {
    Backing(w.sets) == EmittableTracks(flat) &&
    (forall i :: 0 <= i < |w.sets| ==> |w.sets[i].tracks| == 1) &&
    w.currTrack == |w.sets| + 1 &&
    (forall i :: 0 <= i < |w.sets| ==> w.sets[i].position == i + 1) &&
    DisksNonDecreasing(w.sets) &&
    (forall i :: 0 <= i < |w.sets| ==> 1 <= w.sets[i].disk <= w.currDisk) &&
    (w.currDisk == 0 ==> w.currFormat == "" && w.readDisk == 0)
  }

  /** What the emission walk guarantees: its shape, and formats that come from the
      positions. */
  predicate WellWalked(w: Walk, flat: seq<Track>, base: string)
  {
    WalkShape(w, flat) && FormatsFromPositions(w.sets, base)
  }

  /** The emission walk over the flattened tracklist, one WalkStep per node. */
  function WalkAll(flat: seq<Track>, base: string): Result<Walk>
  {
    if flat == [] then Ok(InitialWalk)
    else match WalkAll(flat[..|flat| - 1], base)
      case Err(e) => Err(e)
      case Ok(w) => WalkStep(w, flat[|flat| - 1], base)
  }

  lemma AdvanceKeeps(w: Walk, flat: seq<Track>, c: Classified, base: string)
    requires WellWalked(w, flat, base)
    requires c.format in KnownFormats && (c.format == "Unknown" ==> c.disk == -1)
    ensures WellWalked(Advance(w, c, base), flat, base)
    ensures Advance(w, c, base).currDisk >= 1
    ensures Advance(w, c, base).currFormat == EffectiveFormat(c, base)
  {
    var w1 := Advance(w, c, base);
    assert w1.sets == w.sets && w1.currTrack == w.currTrack && w1.currDisk >= w.currDisk;
    if w.currDisk == 0 {
      assert EffectiveFormat(c, base) != "" || c.disk != 0;
    }
  }

  lemma EmitKeepsShape(w: Walk, flat: seq<Track>, t: Track)
    requires WalkShape(w, flat) && w.currDisk >= 1 && Emittable(t)
    ensures WalkShape(Emit(w, t), flat + [t])
  {
    var w' := Emit(w, t);
    var last := TrackSet([t], w.currTrack, w.currDisk, w.currFormat);
    assert w'.sets == w.sets + [last];
    assert (flat + [t])[..|flat|] == flat;
    assert EmittableTracks(flat + [t]) == EmittableTracks(flat) + [t];
    assert w'.sets[..|w.sets|] == w.sets;
    assert Backing(w'.sets) == Backing(w.sets) + [t];
  }

  lemma EmitKeepsFormats(w: Walk, t: Track, base: string)
    requires FormatsFromPositions(w.sets, base)
    requires GetFormatAndDisk(t.position).Ok?
    requires w.currFormat == EffectiveFormat(GetFormatAndDisk(t.position).value, base)
    ensures FormatsFromPositions(Emit(w, t).sets, base)
  {
    var last := TrackSet([t], w.currTrack, w.currDisk, w.currFormat);
    assert Emit(w, t).sets == w.sets + [last];
    assert FormatFromPosition(last, base);
  }

  lemma EmitKeeps(w: Walk, flat: seq<Track>, t: Track, base: string)
    requires WellWalked(w, flat, base) && w.currDisk >= 1
    requires Emittable(t) && GetFormatAndDisk(t.position).Ok?
    requires w.currFormat == EffectiveFormat(GetFormatAndDisk(t.position).value, base)
    ensures WellWalked(Emit(w, t), flat + [t], base)
  {
    EmitKeepsShape(w, flat, t);
    EmitKeepsFormats(w, t, base);
  }

  /** One step of the walk keeps WellWalked. */
  lemma WalkStepKeeps(w: Walk, flat: seq<Track>, base: string)
    requires flat != []
    requires WellWalked(w, flat[..|flat| - 1], base)
    requires WalkStep(w, flat[|flat| - 1], base).Ok?
    ensures WellWalked(WalkStep(w, flat[|flat| - 1], base).value, flat, base)
  {
    var prefix, t := flat[..|flat| - 1], flat[|flat| - 1];
    assert flat == prefix + [t];
    if t.kind == KindTrack {
      var c := GetFormatAndDisk(t.position).value;
      AdvanceKeeps(w, prefix, c, base);
      if !Excluded(t.position) {
        EmitKeeps(Advance(w, c, base), prefix, t, base);
      } else {
        assert EmittableTracks(flat) == EmittableTracks(prefix);
      }
    } else {
      assert EmittableTracks(flat) == EmittableTracks(prefix);
    }
  }

  /** The walk fails only on a panic. */
  lemma {:induction false} WalkAllPanics(flat: seq<Track>, base: string)
    ensures WalkAll(flat, base).Err? ==> WalkAll(flat, base).error.Panic?
  {
    if flat != [] {
      WalkAllPanics(flat[..|flat| - 1], base);
    }
  }

  /** Every successful walk ends WellWalked; a failed one failed on a panic. */
  lemma {:induction false} WalkAllWell(flat: seq<Track>, base: string)
    ensures WalkAll(flat, base).Ok? ==> WellWalked(WalkAll(flat, base).value, flat, base)
    ensures WalkAll(flat, base).Err? ==> WalkAll(flat, base).error.Panic?
  {
    WalkAllPanics(flat, base);
    if flat != [] {
      var prefix := flat[..|flat| - 1];
      WalkAllWell(prefix, base);
      var p := WalkAll(prefix, base);
      if p.Ok? && WalkStep(p.value, flat[|flat| - 1], base).Ok? {
        WalkStepKeeps(p.value, flat, base);
      }
    }
  }

  method EmitSets(flat: seq<Track>, base: string) returns (r: Result<seq<TrackSet>>)
    ensures r.Ok? <==> WalkAll(flat, base).Ok?
    ensures r.Ok? ==> r.value == WalkAll(flat, base).value.sets
    ensures r.Err? ==> r == Err(WalkAll(flat, base).error)
  {
    var currDisk: nat, readDisk, currFormat, currTrack: nat := 0, 0, "", 1;
    var trackset: seq<TrackSet> := [];
    var i := 0;
    while i < |flat|
      invariant 0 <= i <= |flat|
      invariant WalkAll(flat[..i], base) == Ok(Walk(currDisk, readDisk, currFormat, currTrack, trackset))
    {
      assert flat[..i + 1][..i] == flat[..i];
      var track := flat[i];
      if track.kind == KindTrack {
        var classified := GetFormatAndDisk(track.position);
        if classified.Err? {
          assert flat[..i + 1][i] == track;
          assert WalkAll(flat[..i + 1], base).Err?;
          WalkErrStays(flat, base, i + 1);
          return Err(classified.error);
        }
        var format, disk := classified.value.format, classified.value.disk;
        if format == "Unknown" {
          format := base;
        }
        if format != currFormat {
          currFormat := format;
          readDisk := disk;
          currDisk := currDisk + 1;
        } else if readDisk != disk {
          currDisk := currDisk + 1;
          readDisk := disk;
        }
        if !Excluded(track.position) {
          trackset := trackset + [TrackSet([track], currTrack, currDisk, currFormat)];
          currTrack := currTrack + 1;
        }
      }
      i := i + 1;
    }
    assert flat[..i] == flat;
    return Ok(trackset);
  }

  /** Once the walk has failed on a prefix it fails, with the same error, on every longer one. */
  lemma {:induction false} WalkErrStays(flat: seq<Track>, base: string, k: nat)
    requires k <= |flat|
    requires WalkAll(flat[..k], base).Err?
    ensures WalkAll(flat, base) == WalkAll(flat[..k], base)
    decreases |flat| - k
  {
    if k < |flat| {
      assert flat[..k + 1][..k] == flat[..k];
      WalkErrStays(flat, base, k + 1);
    } else {
      assert flat[..k] == flat;
    }
  }

  // ---------------------------------------------------------------------------
  // Disk labels

  /** What a TRACK node is read as for disk counting: its effective format and the disk
      its position gives. A position that panics never reaches the count. */
  datatype DiskKey = DiskKey(format: string, disk: int)

  function KeyOf(t: Track, base: string): DiskKey
  {
    match GetFormatAndDisk(t.position)
    case Ok(c) => DiskKey(EffectiveFormat(c, base), c.disk)
    case Err(_) => DiskKey("", 0)
  }

  /** The key of the last TRACK node of `flat`, or ("", 0), the walk's starting state,
      when there is none. */
  function LastKey(flat: seq<Track>, base: string): DiskKey
  {
    if flat == [] then DiskKey("", 0)
    else if flat[|flat| - 1].kind == KindTrack then KeyOf(flat[|flat| - 1], base)
    else LastKey(flat[..|flat| - 1], base)
  }

  /** How many TRACK nodes of `flat` are read with a key other than the previous TRACK
      node's: a change of format, or of disk within a format. Excluded (video and
      disc-image) nodes take part, although they are not emitted. */
  function Transitions(flat: seq<Track>, base: string): nat
  {
    if flat == [] then 0
    else
      var init, last := flat[..|flat| - 1], flat[|flat| - 1];
      Transitions(init, base) + (if last.kind == KindTrack && KeyOf(last, base) != LastKey(init, base) then 1 else 0)
  }

  /** The disk label each emitted node gets: the number of transitions up to and
      including that node. */
  function EmittedDisks(flat: seq<Track>, base: string): seq<nat>
  {
    if flat == [] then []
    else EmittedDisks(flat[..|flat| - 1], base) + (if Emittable(flat[|flat| - 1]) then [Transitions(flat, base)] else [])
  }

  function Disks(sets: seq<TrackSet>): (disks: seq<nat>)
    ensures |disks| == |sets| && forall i :: 0 <= i < |sets| ==> disks[i] == sets[i].disk
  {
    seq(|sets|, i requires 0 <= i < |sets| => sets[i].disk)
  }

  /** The walk's disk bookkeeping against the reference count: the disk counter is the
      number of transitions, (currFormat, readDisk) is the last TRACK node's key, and the
      emitted labels are EmittedDisks. */
  predicate WalkDisks(w: Walk, flat: seq<Track>, base: string)
  {
    w.currDisk == Transitions(flat, base) &&
    DiskKey(w.currFormat, w.readDisk) == LastKey(flat, base) &&
    Disks(w.sets) == EmittedDisks(flat, base)
  }

  /** The disk counter rises by exactly one at each transition and labels every emitted
      set with the count so far. */
  lemma {:induction false} WalkAllDisks(flat: seq<Track>, base: string)
    ensures WalkAll(flat, base).Ok? ==> WalkDisks(WalkAll(flat, base).value, flat, base)
  {
    if flat != [] && WalkAll(flat, base).Ok? {
      var init, t := flat[..|flat| - 1], flat[|flat| - 1];
      WalkAllDisks(init, base);
      var w := WalkAll(init, base).value;
      if t.kind == KindTrack {
        var c := GetFormatAndDisk(t.position).value;
        var w1 := Advance(w, c, base);
        assert w1.currDisk == Transitions(flat, base);
        assert DiskKey(w1.currFormat, w1.readDisk) == LastKey(flat, base);
        if Emittable(t) {
          assert Disks(Emit(w1, t).sets) == Disks(w1.sets) + [w1.currDisk];
        }
      }
    }
  }

  /** Each set carries the label that `disks` gives its first backing track. */
  predicate DisksFrom(sets: seq<TrackSet>, disks: seq<nat>)
  {
    forall i :: 0 <= i < |sets| ==> |Backing(sets[..i])| < |disks| && sets[i].disk == disks[|Backing(sets[..i])|]
  }

  lemma {:induction false} BackingOfSingletons(sets: seq<TrackSet>)
    requires forall i :: 0 <= i < |sets| ==> |sets[i].tracks| == 1
    ensures |Backing(sets)| == |sets|
  {
    if sets != [] {
      BackingOfSingletons(sets[..|sets| - 1]);
    }
  }

  /** The emitted sets take their labels from EmittedDisks. */
  lemma WalkDisksFrom(w: Walk, flat: seq<Track>, base: string)
    requires WalkShape(w, flat) && WalkDisks(w, flat, base)
    ensures DisksFrom(w.sets, EmittedDisks(flat, base))
  {
    forall i | 0 <= i < |w.sets| ensures |Backing(w.sets[..i])| == i {
      BackingOfSingletons(w.sets[..i]);
    }
  }

  /** A Vinyl release with tracks "A1", "Video" and "B1": the video node is not emitted,
      yet it changes the key from (Vinyl, 1) to (Vinyl, -1) and back, so "B1" lands on
      disk 3 while "A1" stays on disk 1. */
  lemma ExcludedNodeCountsAsDisk()
    ensures var a1 := Track("A1", "Side", KindTrack, []);
      var video := Track("Video", "Clip", KindTrack, []);
      var b1 := Track("B1", "Other side", KindTrack, []);
      EmittedDisks([a1, video, b1], "Vinyl") == [1, 3]
  {
    var a1 := Track("A1", "Side", KindTrack, []);
    var video := Track("Video", "Clip", KindTrack, []);
    var b1 := Track("B1", "Other side", KindTrack, []);
    var flat := [a1, video, b1];
    SideTokenIsVinyl("A1");
    SideTokenIsVinyl("B1");
    VideoPosition();
    assert !Excluded("A1") && !Excluded("B1") by {
      assert "A1"[..2] == "A1" && "B1"[..2] == "B1";
    }
    assert flat[..2] == [a1, video] && [a1, video][..1] == [a1] && [a1][..0] == [];
    assert Transitions([a1], "Vinyl") == 1 && LastKey([a1], "Vinyl") == DiskKey("Vinyl", 1);
    assert EmittedDisks([a1], "Vinyl") == [1];
    assert Transitions([a1, video], "Vinyl") == 2 && LastKey([a1, video], "Vinyl") == DiskKey("Vinyl", -1);
    assert EmittedDisks([a1, video], "Vinyl") == [1];
    assert Transitions(flat, "Vinyl") == 3;
  }

  // ---------------------------------------------------------------------------
  // Merging

  predicate NoAdjacentMerge(sets: seq<TrackSet>)
    requires AllNonEmpty(sets)
  {
    forall i :: 0 <= i < |sets| - 1 ==> ShouldMerge(sets[i], sets[i + 1]) == Some(false)
  }

  /** One merge step: set i takes over the tracks of set i+1, which is removed. */
  function MergePair(sets: seq<TrackSet>, i: nat): seq<TrackSet>
    requires i + 1 < |sets|
  {
    var grown := sets[i := sets[i].(tracks := sets[i].tracks + sets[i + 1].tracks)];
    grown[..i + 1] + grown[i + 2..]
  }

  lemma {:induction false} BackingConcat(a: seq<TrackSet>, b: seq<TrackSet>)
    ensures Backing(a + b) == Backing(a) + Backing(b)
    decreases |b|
  {
    if b == [] {
      assert a + b == a;
    } else {
      assert (a + b)[..|a + b| - 1] == a + b[..|b| - 1];
      BackingConcat(a, b[..|b| - 1]);
    }
  }

  /** A merge step keeps the backing tracks, keeps every set non-empty, removes one
      set, and keeps disk labels ordered (the surviving labels are a subsequence). */
  lemma MergePairProperties(sets: seq<TrackSet>, i: nat)
    requires i + 1 < |sets| && AllNonEmpty(sets)
    ensures AllNonEmpty(MergePair(sets, i))
    ensures |MergePair(sets, i)| == |sets| - 1
    ensures Backing(MergePair(sets, i)) == Backing(sets)
    ensures DisksNonDecreasing(sets) ==> DisksNonDecreasing(MergePair(sets, i))
  {
    MergePairShape(sets, i);
    MergePairBacking(sets, i);
    if DisksNonDecreasing(sets) {
      MergePairDisks(sets, i);
    }
  }

  /** A merge step as a splice: set i grows, set i+1 goes. */
  lemma MergePairShape(sets: seq<TrackSet>, i: nat)
    requires i + 1 < |sets|
    ensures MergePair(sets, i) ==
      sets[..i] + [sets[i].(tracks := sets[i].tracks + sets[i + 1].tracks)] + sets[i + 2..]
    ensures |MergePair(sets, i)| == |sets| - 1
    ensures forall k :: 0 <= k < i ==> MergePair(sets, i)[k] == sets[k]
    ensures MergePair(sets, i)[i].disk == sets[i].disk
    ensures MergePair(sets, i)[i].tracks == sets[i].tracks + sets[i + 1].tracks
    ensures forall k :: i < k < |sets| - 1 ==> MergePair(sets, i)[k] == sets[k + 1]
  {
  }

  lemma BackingSnoc(sets: seq<TrackSet>, x: TrackSet)
    ensures Backing(sets + [x]) == Backing(sets) + x.tracks
  {
    assert (sets + [x])[..|sets|] == sets;
  }

  lemma MergePairSplice(sets: seq<TrackSet>, i: nat)
    requires i + 1 < |sets|
    ensures MergePair(sets, i) ==
      sets[..i] + [sets[i].(tracks := sets[i].tracks + sets[i + 1].tracks)] + sets[i + 2..]
    ensures sets == sets[..i] + [sets[i]] + [sets[i + 1]] + sets[i + 2..]
  {
  }

  /** Replacing two neighbouring sets by one holding both track lists keeps the backing. */
  lemma SpliceBacking(before: seq<TrackSet>, x: TrackSet, y: TrackSet, after: seq<TrackSet>)
    ensures Backing(before + [x.(tracks := x.tracks + y.tracks)] + after) ==
      Backing(before + [x] + [y] + after)
  {
    var merged := x.(tracks := x.tracks + y.tracks);
    BackingConcat(before + [merged], after);
    BackingSnoc(before, merged);
    BackingConcat(before + [x] + [y], after);
    BackingSnoc(before + [x], y);
    BackingSnoc(before, x);
  }

  lemma MergePairBacking(sets: seq<TrackSet>, i: nat)
    requires i + 1 < |sets|
    ensures Backing(MergePair(sets, i)) == Backing(sets)
  {
    MergePairSplice(sets, i);
    SpliceBacking(sets[..i], sets[i], sets[i + 1], sets[i + 2..]);
  }

  lemma MergePairDisks(sets: seq<TrackSet>, i: nat)
    requires i + 1 < |sets| && DisksNonDecreasing(sets)
    ensures DisksNonDecreasing(MergePair(sets, i))
  {
    var m := MergePair(sets, i);
    MergePairShape(sets, i);
    forall a, b | 0 <= a < b < |m| ensures m[a].disk <= m[b].disk {
      var a', b' := if a <= i then a else a + 1, if b <= i then b else b + 1;
      assert m[a].disk == sets[a'].disk && m[b].disk == sets[b'].disk;
    }
  }

  /** Where the first merge of a scan from index `from` happens, if anywhere. */
  datatype Scan = Found(index: nat) | Fixpoint | Crashed

  function FirstMerge(sets: seq<TrackSet>, from: nat): (s: Scan)
    requires AllNonEmpty(sets)
    decreases |sets| - from
    ensures s.Found? ==> (from <= s.index && s.index + 1 < |sets| &&
      ShouldMerge(sets[s.index], sets[s.index + 1]) == Some(true))
    ensures s.Fixpoint? ==> forall j :: from <= j < |sets| - 1 ==> ShouldMerge(sets[j], sets[j + 1]) == Some(false)
  {
    if from + 1 >= |sets| then Fixpoint
    else match ShouldMerge(sets[from], sets[from + 1])
      case None => Crashed
      case Some(m) => if m then Found(from) else FirstMerge(sets, from + 1)
  }

  /** Merge passes repeated until no adjacent pair merges. On success the result is a
      fixpoint of shouldMerge, backs exactly the same tracks, is no longer than the input,
      is empty only if the input is, and keeps disk labels ordered. */
  function MergeFix(sets: seq<TrackSet>): (r: Result<seq<TrackSet>>)
    requires AllNonEmpty(sets)
    decreases |sets|
    ensures r.Ok? ==> AllNonEmpty(r.value) && NoAdjacentMerge(r.value)
    ensures r.Ok? ==> Backing(r.value) == Backing(sets)
    ensures r.Ok? ==> |r.value| <= |sets| && (sets != [] ==> r.value != [])
    ensures r.Ok? && DisksNonDecreasing(sets) ==> DisksNonDecreasing(r.value)
    ensures r.Err? ==> r.error.Panic?
  {
    match FirstMerge(sets, 0)
    case Fixpoint => Ok(sets)
    case Crashed => Err(Panic("index out of range in shouldMerge"))
    case Found(i) =>
      MergePairProperties(sets, i);
      MergeFix(MergePair(sets, i))
  }

  /** A merge step keeps every surviving set's label tied to its first backing track:
      the grown set keeps its own first track, and the sets after it keep theirs. */
  lemma MergePairDisksFrom(sets: seq<TrackSet>, i: nat, disks: seq<nat>)
    requires i + 1 < |sets| && DisksFrom(sets, disks)
    ensures DisksFrom(MergePair(sets, i), disks)
  {
    var m := MergePair(sets, i);
    MergePairShape(sets, i);
    forall k | 0 <= k < |m| ensures |Backing(m[..k])| < |disks| && m[k].disk == disks[|Backing(m[..k])|] {
      MergePairPrefix(sets, i, k);
      if k > i {
        assert m[k] == sets[k + 1];
      }
    }
  }

  /** The sets before index k of a merge step back the same tracks as the sets before
      the matching index of the original. */
  lemma MergePairPrefix(sets: seq<TrackSet>, i: nat, k: nat)
    requires i + 1 < |sets| && k < |sets| - 1
    ensures k <= i ==> MergePair(sets, i)[..k] == sets[..k]
    ensures k > i ==> Backing(MergePair(sets, i)[..k]) == Backing(sets[..k + 1])
  {
    MergePairSplice(sets, i);
    if k > i {
      var merged := sets[i].(tracks := sets[i].tracks + sets[i + 1].tracks);
      assert MergePair(sets, i)[..k] == sets[..i] + [merged] + sets[i + 2..k + 1];
      assert sets[..k + 1] == sets[..i] + [sets[i]] + [sets[i + 1]] + sets[i + 2..k + 1];
      SpliceBacking(sets[..i], sets[i], sets[i + 1], sets[i + 2..k + 1]);
    }
  }

  /** The merge fixpoint keeps every set's label tied to its first backing track. */
  lemma {:induction false} MergeFixDisksFrom(sets: seq<TrackSet>, disks: seq<nat>)
    requires AllNonEmpty(sets) && DisksFrom(sets, disks)
    ensures MergeFix(sets).Ok? ==> DisksFrom(MergeFix(sets).value, disks)
    decreases |sets|
  {
    match FirstMerge(sets, 0)
    case Found(i) =>
      MergePairProperties(sets, i);
      MergePairDisksFrom(sets, i, disks);
      MergeFixDisksFrom(MergePair(sets, i), disks);
    case Fixpoint =>
    case Crashed =>
  }

  /** A merge step keeps every set's format tied to its first position: the grown set
      keeps its own format and first track. */
  lemma MergePairFormats(sets: seq<TrackSet>, i: nat, base: string)
    requires i + 1 < |sets| && FormatsFromPositions(sets, base)
    ensures FormatsFromPositions(MergePair(sets, i), base)
  {
    var m := MergePair(sets, i);
    MergePairShape(sets, i);
    assert m[i].tracks[0] == sets[i].tracks[0] && m[i].format == sets[i].format;
    forall k | 0 <= k < |m| ensures FormatFromPosition(m[k], base) {
      if k > i {
        assert m[k] == sets[k + 1];
      }
    }
  }

  /** The merge fixpoint keeps every set's format tied to its first position. */
  lemma {:induction false} MergeFixFormats(sets: seq<TrackSet>, base: string)
    requires AllNonEmpty(sets) && FormatsFromPositions(sets, base)
    ensures MergeFix(sets).Ok? ==> FormatsFromPositions(MergeFix(sets).value, base)
    decreases |sets|
  {
    match FirstMerge(sets, 0)
    case Found(i) =>
      MergePairProperties(sets, i);
      MergePairFormats(sets, i, base);
      MergeFixFormats(MergePair(sets, i), base);
    case Fixpoint =>
    case Crashed =>
  }

  method MergeSets(sets: seq<TrackSet>) returns (r: Result<seq<TrackSet>>)
    requires AllNonEmpty(sets)
    ensures r == MergeFix(sets)
  {
    var trackset := sets;
    var found := true;
    while found
      invariant AllNonEmpty(trackset)
      invariant found ==> MergeFix(trackset) == MergeFix(sets)
      invariant !found ==> MergeFix(sets) == Ok(trackset)
      decreases |trackset| + (if found then 1 else 0)
    {
      found := false;
      if |trackset| > 1 {
        var i := 0;
        while i < |trackset| - 1
          invariant 0 <= i <= |trackset| - 1
          invariant FirstMerge(trackset, 0) == FirstMerge(trackset, i)
        {
          var verdict := ShouldMerge(trackset[i], trackset[i + 1]);
          if verdict.None? {
            return Err(Panic("index out of range in shouldMerge"));
          }
          if verdict.value {
            MergePairProperties(trackset, i);
            var grown := trackset[i := trackset[i].(tracks := trackset[i].tracks + trackset[i + 1].tracks)];
            trackset := grown[..i + 1] + grown[i + 2..];
            found := true;
            break;
          }
          i := i + 1;
        }
      }
    }
    return Ok(trackset);
  }

  // ---------------------------------------------------------------------------
  // Renumbering

  /** The position the renumber pass gives set i: 1 at the start of a run of equal disk
      labels, one more than the previous set's inside a run. */
  function RunNumber(sets: seq<TrackSet>, i: nat): (n: nat)
    requires i < |sets|
    ensures n >= 1
  {
    if i == 0 || sets[i].disk != sets[i - 1].disk then 1 else RunNumber(sets, i - 1) + 1
  }

  function Renumbered(sets: seq<TrackSet>): (r: seq<TrackSet>)
  {
    seq(|sets|, i requires 0 <= i < |sets| => sets[i].(position := RunNumber(sets, i)))
  }

  method Renumber(sets: seq<TrackSet>) returns (r: seq<TrackSet>)
    requires sets != []
    ensures r == Renumbered(sets)
  {
    r := sets;
    var currTrack: nat := 1;
    var currDisk := sets[0].disk;
    var i := 0;
    while i < |r|
      invariant 0 <= i <= |r| && |r| == |sets|
      invariant forall k :: 0 <= k < i ==> r[k] == sets[k].(position := RunNumber(sets, k))
      invariant forall k :: i <= k < |r| ==> r[k] == sets[k]
      invariant i == 0 ==> currTrack == 1 && currDisk == sets[0].disk
      invariant i > 0 ==> currTrack == RunNumber(sets, i - 1) + 1 && currDisk == sets[i - 1].disk
    {
      if r[i].disk != currDisk {
        currTrack := 1;
        currDisk := r[i].disk;
      }
      r := r[i := r[i].(position := currTrack)];
      currTrack := currTrack + 1;
      i := i + 1;
    }
  }

  /** How many of the first i sets carry disk label d. */
  function CountDisk(sets: seq<TrackSet>, i: nat, d: nat): nat
    requires i <= |sets|
  {
    if i == 0 then 0 else CountDisk(sets, i - 1, d) + (if sets[i - 1].disk == d then 1 else 0)
  }

  /** Within a run of equal disk labels starting at s, set i is numbered i - s + 1. */
  lemma {:induction false} RunNumberInRun(sets: seq<TrackSet>, s: nat, i: nat)
    requires s <= i < |sets|
    requires s == 0 || sets[s - 1].disk != sets[s].disk
    requires forall k :: s <= k <= i ==> sets[k].disk == sets[s].disk
    ensures RunNumber(sets, i) == i - s + 1
    decreases i
  {
    if i > s {
      RunNumberInRun(sets, s, i - 1);
    }
  }

  /** When disk labels never decrease, the renumbered position of set i is one more than
      the number of earlier sets on the same disk, so each disk's sets are numbered
      exactly 1..N. */
  lemma {:induction false} RunNumberCountsDisk(sets: seq<TrackSet>, i: nat)
    requires i < |sets| && DisksNonDecreasing(sets)
    ensures RunNumber(sets, i) == CountDisk(sets, i, sets[i].disk) + 1
    decreases i
  {
    if i > 0 {
      if sets[i].disk == sets[i - 1].disk {
        RunNumberCountsDisk(sets, i - 1);
      } else {
        CountDiskBelow(sets, i, sets[i].disk);
      }
    }
  }

  lemma {:induction false} CountDiskBelow(sets: seq<TrackSet>, i: nat, d: nat)
    requires i <= |sets|
    requires forall k :: 0 <= k < i ==> sets[k].disk < d
    ensures CountDisk(sets, i, d) == 0
    decreases i
  {
    if i > 0 {
      CountDiskBelow(sets, i - 1, d);
    }
  }

  // ---------------------------------------------------------------------------
  // TrackExtract

  /** The two synthetic sides returned for a tape. */
  function TapeSides(): seq<TrackSet>
  {
    [TrackSet([Track("", "Side A", KindUnspecified, [])], 1, 1, "Tape"),
     TrackSet([Track("", "Side B", KindUnspecified, [])], 2, 1, "Tape")]
  }

  /** What TrackExtract returns. `Err(Panic)` covers the panics of the source: a bad
      position in getDisk, rule (c) of shouldMerge, and `trackset[0]` on an empty list. */
  function Extract(r: Release, tape: bool): Result<seq<TrackSet>>
  {
    if tape then Ok(TapeSides())
    else match WalkAll(Flatten(r.tracklist), BaseFormatOf(r.formats))
      case Err(e) => Err(e)
      case Ok(w) =>
        WalkAllWell(Flatten(r.tracklist), BaseFormatOf(r.formats));
        match MergeFix(w.sets)
        case Err(e) => Err(e)
        case Ok(m) => if m == [] then Err(Panic("index out of range: trackset[0]")) else Ok(Renumbered(m))
  }

  /** The properties of an extracted tracklist: it is non-empty; its backing tracks are
      exactly the TRACK-kind, non-video nodes of the flattened tracklist in order; no
      adjacent pair would merge; disk labels never decrease; and each set's position is
      one more than the number of earlier sets on its disk. Each set's disk label is the
      one the walk gave its first backing track: the count of format or disk transitions
      up to that node (EmittedDisks). Each set's format is its first position's format,
      with "Unknown" read as the base format. */
  predicate ExtractedWell(r: Release, sets: seq<TrackSet>)
  {
    sets != [] && AllNonEmpty(sets) &&
    Backing(sets) == EmittableTracks(Flatten(r.tracklist)) &&
    NoAdjacentMerge(sets) &&
    DisksNonDecreasing(sets) &&
    DisksFrom(sets, EmittedDisks(Flatten(r.tracklist), BaseFormatOf(r.formats))) &&
    FormatsFromPositions(sets, BaseFormatOf(r.formats)) &&
    forall i :: 0 <= i < |sets| ==> sets[i].position == CountDisk(sets, i, sets[i].disk) + 1
  }

  /** Renumbering keeps every set's format tied to its first position. */
  lemma RenumberedFormats(sets: seq<TrackSet>, base: string)
    requires FormatsFromPositions(sets, base)
    ensures FormatsFromPositions(Renumbered(sets), base)
  {
    var out := Renumbered(sets);
    forall i | 0 <= i < |out| ensures FormatFromPosition(out[i], base) {
      assert out[i].tracks == sets[i].tracks && out[i].format == sets[i].format;
    }
  }

  /** Renumbering keeps every set's label tied to its first backing track. */
  lemma RenumberedDisksFrom(sets: seq<TrackSet>, disks: seq<nat>)
    requires DisksFrom(sets, disks)
    ensures DisksFrom(Renumbered(sets), disks)
  {
    var out := Renumbered(sets);
    RenumberedKeepsTracks(sets);
    forall i | 0 <= i < |out| ensures |Backing(out[..i])| < |disks| && out[i].disk == disks[|Backing(out[..i])|] {
      BackingOfSameTracks(out[..i], sets[..i]);
    }
  }

  lemma RenumberedKeepsTracks(sets: seq<TrackSet>)
    ensures |Renumbered(sets)| == |sets|
    ensures forall i :: 0 <= i < |sets| ==>
      Renumbered(sets)[i].tracks == sets[i].tracks && Renumbered(sets)[i].disk == sets[i].disk
    ensures Backing(Renumbered(sets)) == Backing(sets)
    ensures AllNonEmpty(sets) && NoAdjacentMerge(sets) ==>
      AllNonEmpty(Renumbered(sets)) && NoAdjacentMerge(Renumbered(sets))
  {
    var out := Renumbered(sets);
    assert |out| == |sets|;
    assert forall i :: 0 <= i < |sets| ==> out[i].tracks == sets[i].tracks && out[i].disk == sets[i].disk;
    BackingOfSameTracks(out, sets);
    if AllNonEmpty(sets) && NoAdjacentMerge(sets) {
      SameTracksNoMerge(out, sets);
    }
  }

  /** shouldMerge reads only the backing tracks. */
  lemma ShouldMergeReadsTracks(t1: TrackSet, t2: TrackSet, u1: TrackSet, u2: TrackSet)
    requires t1.tracks == u1.tracks != [] && t2.tracks == u2.tracks != []
    ensures ShouldMerge(t1, t2) == ShouldMerge(u1, u2)
  {
  }

  lemma SameTracksNoMerge(a: seq<TrackSet>, b: seq<TrackSet>)
    requires |a| == |b| && forall i :: 0 <= i < |a| ==> a[i].tracks == b[i].tracks
    requires AllNonEmpty(b) && NoAdjacentMerge(b)
    ensures AllNonEmpty(a) && NoAdjacentMerge(a)
  {
    forall i | 0 <= i < |a| - 1 ensures ShouldMerge(a[i], a[i + 1]) == Some(false) {
      ShouldMergeReadsTracks(a[i], a[i + 1], b[i], b[i + 1]);
    }
  }

  lemma {:induction false} BackingOfSameTracks(a: seq<TrackSet>, b: seq<TrackSet>)
    requires |a| == |b| && forall i :: 0 <= i < |a| ==> a[i].tracks == b[i].tracks
    ensures Backing(a) == Backing(b)
    decreases |a|
  {
    if a != [] {
      BackingOfSameTracks(a[..|a| - 1], b[..|b| - 1]);
    }
  }

  lemma ExtractProperties(r: Release)
    ensures Extract(r, false).Ok? ==> ExtractedWell(r, Extract(r, false).value)
    ensures Extract(r, false).Err? ==> Extract(r, false).error.Panic?
  {
    var flat, base := Flatten(r.tracklist), BaseFormatOf(r.formats);
    var w := WalkAll(flat, base);
    WalkAllWell(flat, base);
    if w.Ok? {
      var sets := w.value.sets;
      assert AllNonEmpty(sets);
      WalkAllDisks(flat, base);
      WalkDisksFrom(w.value, flat, base);
      MergeFixDisksFrom(sets, EmittedDisks(flat, base));
      MergeFixFormats(sets, base);
      var m := MergeFix(sets);
      if m.Ok? && m.value != [] {
        var out := Renumbered(m.value);
        RenumberedKeepsTracks(m.value);
        RenumberedDisksFrom(m.value, EmittedDisks(flat, base));
        RenumberedFormats(m.value, base);
        forall i | 0 <= i < |out| ensures out[i].position == CountDisk(out, i, out[i].disk) + 1 {
          RunNumberCountsDisk(m.value, i);
          CountDiskSameDisks(out, m.value, i, out[i].disk);
        }
      }
    }
  }

  lemma {:induction false} CountDiskSameDisks(a: seq<TrackSet>, b: seq<TrackSet>, i: nat, d: nat)
    requires i <= |a| == |b|
    requires forall k :: 0 <= k < |a| ==> a[k].disk == b[k].disk
    ensures CountDisk(a, i, d) == CountDisk(b, i, d)
    decreases i
  {
    if i > 0 {
      CountDiskSameDisks(a, b, i - 1, d);
    }
  }

  /** TrackExtract: the tape override, then base format, emission, merge fixpoint and
      renumbering. Callers in this model pass `tape = false` where the source calls the
      one-argument form. */
  method TrackExtract(r: Release, tape: bool) returns (res: Result<seq<TrackSet>>)
    ensures res == Extract(r, tape)
    ensures tape ==> res == Ok(TapeSides())
    ensures !tape && res.Ok? ==> ExtractedWell(r, res.value)
    ensures res.Err? ==> res.error.Panic?
  {
    if tape {
      return Ok(TapeSides());
    }
    ExtractProperties(r);
    var base := BaseFormat(r.formats);
    var emitted := EmitSets(Flatten(r.tracklist), base);
    if emitted.Err? {
      return Err(emitted.error);
    }
    WalkAllWell(Flatten(r.tracklist), base);
    var merged := MergeSets(emitted.value);
    if merged.Err? {
      return Err(merged.error);
    }
    if merged.value == [] {
      return Err(Panic("index out of range: trackset[0]"));
    }
    var numbered := Renumber(merged.value);
    return Ok(numbered);
  }

  /** The titles of a set's backing tracks. */
  function Titles(tracks: seq<Track>): (titles: seq<string>)
    ensures |titles| == |tracks| && forall i :: 0 <= i < |tracks| ==> titles[i] == tracks[i].title
  {
    seq(|tracks|, i requires 0 <= i < |tracks| => tracks[i].title)
  }

  /** GetTitle: the backing titles joined with " / ". */
  method GetTitle(t: TrackSet) returns (title: string)
    requires t.tracks != []
    ensures title == Join(Titles(t.tracks), " / ")
  {
    title := t.tracks[0].title;
    var i := 1;
    while i < |t.tracks|
      invariant 1 <= i <= |t.tracks|
      invariant title == Join(Titles(t.tracks[..i]), " / ")
    {
      assert Titles(t.tracks[..i + 1])[..i] == Titles(t.tracks[..i]);
      title := title + " / " + t.tracks[i].title;
      i := i + 1;
    }
    assert t.tracks[..i] == t.tracks;
  }

  /** The title of a merged set is the two titles joined by " / ". */
  lemma MergedTitle(a: TrackSet, b: TrackSet)
    requires a.tracks != [] && b.tracks != []
    ensures Join(Titles(a.tracks + b.tracks), " / ") ==
      Join(Titles(a.tracks), " / ") + " / " + Join(Titles(b.tracks), " / ")
  {
    assert Titles(a.tracks + b.tracks) == Titles(a.tracks) + Titles(b.tracks);
    JoinConcat(Titles(a.tracks), Titles(b.tracks), " / ");
  }

  // ---------------------------------------------------------------------------
  // Scenarios

  /** Positions of the scenarios below: none classifies, and only "Video" is excluded. */
  lemma DigitSidePosition(pos: string)
    requires pos == "1A" || pos == "1B" || pos == "1"
    ensures GetFormatAndDisk(pos) == Ok(Classified("Unknown", -1)) && !Excluded(pos)
  {
  }

  lemma VideoPosition()
    ensures GetFormatAndDisk("Video") == Ok(Classified("Unknown", -1)) && Excluded("Video")
  {
    assert !IsSideToken("Video") by {
      assert !IsDigit("Video"[1..][0]);
    }
    assert !HasPrefix("Video", "CD") && !HasPrefix("Video", "DVD") && !HasPrefix("Video", "BR");
    assert '-' !in "Video";
    assert "Video"[..5] == "Video";
  }

  /** The walk over one unclassified track of a 7" release opens disk 1 with it. */
  lemma WalkFirstTrack(t: Track)
    requires t.kind == KindTrack && !Excluded(t.position)
    requires GetFormatAndDisk(t.position) == Ok(Classified("Unknown", -1))
    ensures WalkAll([t], "7\"") == Ok(Walk(1, -1, "7\"", 2, [TrackSet([t], 1, 1, "7\"")]))
  {
    assert [t][..0] == [];
    assert Advance(InitialWalk, Classified("Unknown", -1), "7\"") == Walk(1, -1, "7\"", 1, []);
    assert [] + [TrackSet([t], 1, 1, "7\"")] == [TrackSet([t], 1, 1, "7\"")];
  }

  lemma SevenInchWalk(hello: Track, there: Track)
    requires hello == Track("1A", "Hello", KindTrack, []) && there == Track("1B", "There", KindTrack, [])
    ensures WalkAll([hello, there], "7\"") ==
      Ok(Walk(1, -1, "7\"", 3, [TrackSet([hello], 1, 1, "7\""), TrackSet([there], 2, 1, "7\"")]))
  {
    DigitSidePosition(hello.position);
    DigitSidePosition(there.position);
    WalkFirstTrack(hello);
    var first, second := TrackSet([hello], 1, 1, "7\""), TrackSet([there], 2, 1, "7\"");
    assert [hello, there][..1] == [hello];
    assert Advance(Walk(1, -1, "7\"", 2, [first]), Classified("Unknown", -1), "7\"") == Walk(1, -1, "7\"", 2, [first]);
    assert [first] + [second] == [first, second];
  }

  /** A 7" single whose sides are "1A" and "1B" becomes one file titled "Hello / There". */
  lemma SevenInchSidesMerge()
    ensures var hello := Track("1A", "Hello", KindTrack, []);
      var there := Track("1B", "There", KindTrack, []);
      Extract(Release(0, 0, "Testing", [], ["7\""], 0, [hello, there]), false) ==
        Ok([TrackSet([hello, there], 1, 1, "7\"")])
    ensures Join(Titles([Track("1A", "Hello", KindTrack, []), Track("1B", "There", KindTrack, [])]), " / ") ==
      "Hello / There"
  {
    var hello := Track("1A", "Hello", KindTrack, []);
    var there := Track("1B", "There", KindTrack, []);
    var r := Release(0, 0, "Testing", [], ["7\""], 0, [hello, there]);
    FlattenOfLeaves(r.tracklist);
    assert BaseFormatOf(r.formats) == "7\"";
    SevenInchWalk(hello, there);
    SevenInchMerge(hello, there);
    var merged := TrackSet([hello, there], 1, 1, "7\"");
    assert RunNumber([merged], 0) == 1;
    assert Renumbered([merged]) == [merged];
    assert Extract(r, false) == Ok(Renumbered([merged]));
    SevenInchTitle(hello, there);
  }

  lemma SevenInchMerge(hello: Track, there: Track)
    requires hello == Track("1A", "Hello", KindTrack, []) && there == Track("1B", "There", KindTrack, [])
    ensures MergeFix([TrackSet([hello], 1, 1, "7\""), TrackSet([there], 2, 1, "7\"")]) ==
      Ok([TrackSet([hello, there], 1, 1, "7\"")])
  {
    var first := TrackSet([hello], 1, 1, "7\"");
    var second := TrackSet([there], 2, 1, "7\"");
    var merged := TrackSet([hello, there], 1, 1, "7\"");
    assert RuleDigitSide(FirstPosition(first), FirstPosition(second));
    assert [hello] + [there] == [hello, there];
    MergePairSplice([first, second], 0);
    assert MergePair([first, second], 0) == [merged];
  }

  lemma SevenInchTitle(hello: Track, there: Track)
    requires hello == Track("1A", "Hello", KindTrack, []) && there == Track("1B", "There", KindTrack, [])
    ensures Join(Titles([hello, there]), " / ") == "Hello / There"
  {
    assert Titles([hello, there]) == ["Hello", "There"];
    assert ["Hello", "There"][..1] == ["Hello"];
  }

  lemma VideoWalk(hello: Track, video: Track)
    requires hello == Track("1", "Hello", KindTrack, []) && video == Track("Video", "There", KindTrack, [])
    ensures WalkAll([hello, video], "7\"") == Ok(Walk(1, -1, "7\"", 2, [TrackSet([hello], 1, 1, "7\"")]))
  {
    DigitSidePosition(hello.position);
    VideoPosition();
    WalkFirstTrack(hello);
    var first := TrackSet([hello], 1, 1, "7\"");
    assert [hello, video][..1] == [hello];
    assert Advance(Walk(1, -1, "7\"", 2, [first]), Classified("Unknown", -1), "7\"") == Walk(1, -1, "7\"", 2, [first]);
  }

  /** A video position is dropped, leaving one file titled "Hello". */
  lemma VideoPositionDropped()
    ensures var hello := Track("1", "Hello", KindTrack, []);
      var video := Track("Video", "There", KindTrack, []);
      Extract(Release(0, 0, "Testing", [], ["7\""], 0, [hello, video]), false) ==
        Ok([TrackSet([hello], 1, 1, "7\"")])
  {
    var hello := Track("1", "Hello", KindTrack, []);
    var video := Track("Video", "There", KindTrack, []);
    var r := Release(0, 0, "Testing", [], ["7\""], 0, [hello, video]);
    FlattenOfLeaves(r.tracklist);
    assert BaseFormatOf(r.formats) == "7\"";
    VideoWalk(hello, video);
    var first := TrackSet([hello], 1, 1, "7\"");
    assert MergeFix([first]) == Ok([first]);
    assert RunNumber([first], 0) == 1;
    assert Renumbered([first]) == [first];
    assert Extract(r, false) == Ok(Renumbered([first]));
  }

  lemma VinylVideoWalk(a1: Track, video: Track, b1: Track)
    requires a1 == Track("A1", "Side", KindTrack, []) && video == Track("Video", "Clip", KindTrack, [])
    requires b1 == Track("B1", "Other side", KindTrack, [])
    ensures WalkAll([a1, video, b1], "Vinyl") ==
      Ok(Walk(3, 1, "Vinyl", 3, [TrackSet([a1], 1, 1, "Vinyl"), TrackSet([b1], 2, 3, "Vinyl")]))
  {
    SideTokenIsVinyl("B1");
    assert !Excluded("B1") by {
      assert "B1"[..2] == "B1";
    }
    VinylVideoWalkPrefix(a1, video);
    var first := TrackSet([a1], 1, 1, "Vinyl");
    assert [a1, video, b1][..2] == [a1, video];
    assert [first] + [TrackSet([b1], 2, 3, "Vinyl")] == [first, TrackSet([b1], 2, 3, "Vinyl")];
  }

  lemma VinylVideoWalkPrefix(a1: Track, video: Track)
    requires a1 == Track("A1", "Side", KindTrack, []) && video == Track("Video", "Clip", KindTrack, [])
    ensures WalkAll([a1, video], "Vinyl") == Ok(Walk(2, -1, "Vinyl", 2, [TrackSet([a1], 1, 1, "Vinyl")]))
  {
    SideTokenIsVinyl("A1");
    VideoPosition();
    assert !Excluded("A1") by {
      assert "A1"[..2] == "A1";
    }
    var first := TrackSet([a1], 1, 1, "Vinyl");
    assert [a1, video][..1] == [a1] && [a1][..0] == [];
    assert WalkAll([a1], "Vinyl") == Ok(Walk(1, 1, "Vinyl", 2, [first])) by {
      assert [] + [first] == [first];
    }
  }

  /** The same release end to end: "A1" is the only set on disk 1 and "B1" the only set
      on disk 3, so the output has no disk 2. */
  lemma VinylVideoExtract()
    ensures var a1 := Track("A1", "Side", KindTrack, []);
      var video := Track("Video", "Clip", KindTrack, []);
      var b1 := Track("B1", "Other side", KindTrack, []);
      Extract(Release(0, 0, "Testing", [], ["Vinyl"], 0, [a1, video, b1]), false) ==
        Ok([TrackSet([a1], 1, 1, "Vinyl"), TrackSet([b1], 1, 3, "Vinyl")])
  {
    var a1 := Track("A1", "Side", KindTrack, []);
    var video := Track("Video", "Clip", KindTrack, []);
    var b1 := Track("B1", "Other side", KindTrack, []);
    var r := Release(0, 0, "Testing", [], ["Vinyl"], 0, [a1, video, b1]);
    FlattenOfLeaves(r.tracklist);
    assert BaseFormatOf(r.formats) == "Vinyl";
    VinylVideoWalk(a1, video, b1);
    VinylVideoNoMerge(a1, b1);
    VinylVideoRenumber(a1, b1);
  }

  lemma VinylVideoNoMerge(a1: Track, b1: Track)
    requires a1 == Track("A1", "Side", KindTrack, []) && b1 == Track("B1", "Other side", KindTrack, [])
    ensures MergeFix([TrackSet([a1], 1, 1, "Vinyl"), TrackSet([b1], 2, 3, "Vinyl")]) ==
      Ok([TrackSet([a1], 1, 1, "Vinyl"), TrackSet([b1], 2, 3, "Vinyl")])
  {
    var sets := [TrackSet([a1], 1, 1, "Vinyl"), TrackSet([b1], 2, 3, "Vinyl")];
    assert ShouldMerge(sets[0], sets[1]) == Some(false) by {
      assert BeforeFirst("A1", '.') == "A1" && BeforeFirst("B1", '.') == "B1";
    }
    assert FirstMerge(sets, 0) == Fixpoint;
  }

  lemma VinylVideoRenumber(a1: Track, b1: Track)
    ensures Renumbered([TrackSet([a1], 1, 1, "Vinyl"), TrackSet([b1], 2, 3, "Vinyl")]) ==
      [TrackSet([a1], 1, 1, "Vinyl"), TrackSet([b1], 1, 3, "Vinyl")]
  {
    var sets := [TrackSet([a1], 1, 1, "Vinyl"), TrackSet([b1], 2, 3, "Vinyl")];
    assert RunNumber(sets, 0) == 1 && RunNumber(sets, 1) == 1;
  }
}
