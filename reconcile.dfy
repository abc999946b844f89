/** The reconciliation logic of cdprocessorutils.go as functions of an explicit state:
    scanning the rip directories, converting wav rips, linking ripped tracks into the
    mp3 and flac trees, and checking a record's rip. The server methods in server.dfy
    are proved to compute exactly these functions. */
module Reconcile {
  import opened Wrappers
  import opened Text
  import opened RecordUtils
  import opened Records

  // ---------------------------------------------------------------------------
  // Small helpers: expand and the artist line

  /** `expand`: a one-character track number gets a leading zero. */
  function Expand(v: string): (r: string)
    ensures HasSuffix(r, v)
    ensures |r| == if |v| == 1 then 2 else |v|
  {
    if |v| == 1 then "0" + v else v
  }

  /** Every track number from 0 to 99 expands to exactly two digits with the same value. */
  lemma ExpandTwoDigits(n: nat)
    requires n <= 99
    ensures |Expand(NatToString(n))| == 2 && AllDigits(Expand(NatToString(n)))
    ensures DigitsValue(Expand(NatToString(n))) == n
  {
    var s := NatToString(n);
    if n < 10 {
      assert s == [DigitChar(n)];
      var e := "0" + s;
      assert e[..1] == "0";
      assert DigitsValue("0") == 0;
    } else {
      assert NatToString(n / 10) == [DigitChar(n / 10)];
      DigitsValueOfNatToString(n);
    }
  }

  /** Each name followed by ", ", as computeArtist accumulates it. */
  function Trailing(names: seq<string>): string
  {
    if names == [] then "" else Trailing(names[..|names| - 1]) + names[|names| - 1] + ", "
  }

  /** The accumulated text is the joined names plus one trailing separator, so dropping
      the last two characters leaves exactly the names joined with ", ". */
  lemma {:induction false} TrailingIsJoin(names: seq<string>)
    requires names != []
    ensures Trailing(names) == Join(names, ", ") + ", "
    decreases |names|
  {
    if |names| > 1 {
      TrailingIsJoin(names[..|names| - 1]);
    }
  }

  /** What computeArtist returns: the artist names joined with ", "; with no artists the
      slice `str[:len(str)-2]` is out of range. */
  function ArtistLine(artists: seq<string>): (r: Result<string>)
    ensures r.Err? <==> artists == []
    ensures r.Err? ==> r.error.Panic?
    ensures r.Ok? ==> |r.value| + 2 == |Trailing(artists)| && HasPrefix(Trailing(artists), r.value)
  {
    if artists == [] then Err(Panic("slice bounds out of range in computeArtist"))
    else
      TrailingIsJoin(artists);
      Ok(Join(artists, ", "))
  }

  /** computeArtist: each name followed by ", ", then the last two characters cut off,
      which panics when there are no artists. */
  method ComputeArtist(artists: seq<string>) returns (r: Result<string>)
    ensures r == ArtistLine(artists)
  {
    var str := "";
    var i := 0;
    while i < |artists|
      invariant 0 <= i <= |artists|
      invariant str == Trailing(artists[..i])
    {
      assert artists[..i + 1][..i] == artists[..i];
      str := str + artists[i] + ", ";
      i := i + 1;
    }
    assert artists[..i] == artists;
    if |str| < 2 {
      return Err(Panic("slice bounds out of range in computeArtist"));
    }
    TrailingIsJoin(artists);
    assert str[..|str| - 2] == Join(artists, ", ");
    return Ok(str[..|str| - 2]);
  }

  /** Whether some rip carries the given id. */
  predicate HasId(rips: seq<Rip>, id: int)
  {
    exists k :: 0 <= k < |rips| && rips[k].id == id
  }

  // ---------------------------------------------------------------------------
  // buildConfig: surveying the rip directories

  /** The file's path sits inside the rip directory (or is absent). */
  predicate InDir(path: string, dirName: string)
  {
    path == "" || HasPrefix(path, dirName + "/")
  }

  /** A track's files: each present path lies in the rip directory and ends with its
      extension. */
  predicate ValidTrack(t: RipTrack, dirName: string)
  {
    InDir(t.wavPath, dirName) && InDir(t.mp3Path, dirName) && InDir(t.flacPath, dirName) &&
    (t.wavPath != "" ==> HasSuffix(t.wavPath, "wav")) &&
    (t.mp3Path != "" ==> HasSuffix(t.mp3Path, "mp3")) &&
    (t.flacPath != "" ==> HasSuffix(t.flacPath, "flac"))
  }

  /** No track number appears twice in one rip. */
  predicate DistinctNumbers(tracks: seq<RipTrack>)
  {
    forall i, j :: 0 <= i < j < |tracks| ==> tracks[i].trackNumber != tracks[j].trackNumber
  }

  predicate ValidTracks(tracks: seq<RipTrack>, dirName: string)
  {
    DistinctNumbers(tracks) && forall i :: 0 <= i < |tracks| ==> ValidTrack(tracks[i], dirName)
  }

  /** The invariant of the rip list: every rip's tracks are valid for its directory. */
  predicate ValidRips(rips: seq<Rip>)
  {
    forall i :: 0 <= i < |rips| ==> ValidTracks(rips[i].tracks, rips[i].path)
  }

  /** The index of the last track with the given number, or -1. */
  function LastWithNumber(tracks: seq<RipTrack>, n: int): (k: int)
    ensures -1 <= k < |tracks|
    ensures k >= 0 ==> (tracks[k].trackNumber == n &&
      forall j :: k < j < |tracks| ==> tracks[j].trackNumber != n)
    ensures k < 0 ==> forall j :: 0 <= j < |tracks| ==> tracks[j].trackNumber != n
  {
    if tracks == [] then -1
    else if tracks[|tracks| - 1].trackNumber == n then |tracks| - 1
    else LastWithNumber(tracks[..|tracks| - 1], n)
  }

  /** Records the file in the slot its extension selects; other files change nothing. */
  function FilePlaced(t: RipTrack, dirName: string, file: string): RipTrack
  {
    var path := dirName + "/" + file;
    if HasSuffix(file, "wav") then t.(wavPath := path)
    else if HasSuffix(file, "mp3") then t.(mp3Path := path)
    else if HasSuffix(file, "flac") then t.(flacPath := path)
    else t
  }

  /** One file of a rip directory: its track number is the Atoi value of bytes 5 and 6
      of its name (0 when they are not a number); names shorter than seven bytes make
      the slice panic. The file goes to the existing track with that number, or to a new
      track appended at the end. */
  function AddFile(tracks: seq<RipTrack>, dirName: string, file: string, disk: int): Result<seq<RipTrack>>
  {
    if |file| < 7 then Err(Panic("slice bounds out of range: track file name"))
    else
      var n := Atoi(file[5..7]).value;
      var k := LastWithNumber(tracks, n);
      if k < 0 then Ok(tracks + [FilePlaced(RipTrack(n, disk, "", "", ""), dirName, file)])
      else Ok(tracks[k := FilePlaced(tracks[k], dirName, file)])
  }

  /** The tracks of one rip directory, from its listing; sub-directories are skipped. */
  function TracksOf(dirName: string, files: seq<DirEntry>, disk: int): Result<seq<RipTrack>>
    decreases |files|
  {
    if files == [] then Ok([])
    else match TracksOf(dirName, files[..|files| - 1], disk)
      case Err(e) => Err(e)
      case Ok(ts) =>
        var f := files[|files| - 1];
        if f.isDir then Ok(ts) else AddFile(ts, dirName, f.name, disk)
  }

  /** The result of surveying the top-level listing: the rips found, the issues raised on
      the way, and the error that stopped the survey. */
  datatype Survey = Survey(rips: seq<Rip>, issues: seq<Effect>, outcome: Outcome)

  predicate IsRipDir(f: DirEntry) { f.isDir && f.name != "lost+found" }

  function MissingTracksIssue(c: Conversion): Effect
  {
    RaiseIssue("Missing Tracks", IntToString(c.id) + " disk " + IntToString(c.disk) + " has missing tracks")
  }

  /** The survey of a listing: every directory except lost+found becomes a rip, in
      listing order; a name the converter rejects, or a panic while reading a rip's
      files, stops the survey. */
  function SurveyOf(entries: seq<DirEntry>, env: Env): Survey
    decreases |entries|
  {
    if entries == [] then Survey([], [], Pass)
    else
      var prev := SurveyOf(entries[..|entries| - 1], env);
      var f := entries[|entries| - 1];
      if prev.outcome.Fail? || !IsRipDir(f) then prev
      else
        var c := env.convert(f.name);
        if !c.ok then prev.(outcome := Fail(c.error))
        else match TracksOf(f.name, env.subdir(f.name), c.disk)
          case Err(e) => prev.(outcome := Fail(e))
          case Ok(ts) =>
            Survey(prev.rips + [Rip(c.id, f.name, ts)],
                   prev.issues + (if ts == [] then [MissingTracksIssue(c)] else []), Pass)
  }

  /** The names of the rip directories of a listing, in order. */
  function RipDirNames(entries: seq<DirEntry>): seq<string>
  {
    if entries == [] then []
    else
      var last := entries[|entries| - 1];
      RipDirNames(entries[..|entries| - 1]) + (if IsRipDir(last) then [last.name] else [])
  }

  function Paths(rips: seq<Rip>): (r: seq<string>)
    ensures |r| == |rips| && forall i :: 0 <= i < |rips| ==> r[i] == rips[i].path
  {
    seq(|rips|, i requires 0 <= i < |rips| => rips[i].path)
  }

  /** The number of rips with no tracks. */
  function EmptyRips(rips: seq<Rip>): nat
  {
    if rips == [] then 0 else EmptyRips(rips[..|rips| - 1]) + (if rips[|rips| - 1].tracks == [] then 1 else 0)
  }

  /** buildConfig: a failed top-level listing changes nothing; otherwise the issues of the
      survey are raised, and the rip list is replaced only when the survey completes. */
  function BuildConfigStep(st: State, env: Env): (r: Step)
    requires ValidRips(st.rips)
    ensures ValidRips(r.state.rips) && st.effects <= r.state.effects
    ensures r.state.ripCount == st.ripCount && r.state.flacCount == st.flacCount
    ensures r.outcome.Fail? ==> r.state.rips == st.rips
  {
    match env.rootListing
    case Err(e) => Step(st, Fail(e))
    case Ok(entries) =>
      var s := SurveyOf(entries, env);
      SurveyProperties(entries, env);
      Step(st.(rips := if s.outcome.Pass? then s.rips else st.rips, effects := st.effects + s.issues), s.outcome)
  }

  // ---------------------------------------------------------------------------
  // Properties of the survey

  lemma SuffixOfConcat(a: string, b: string, x: string)
    requires HasSuffix(b, x)
    ensures HasSuffix(a + b, x)
  {
    assert (a + b)[|a + b| - |x|..] == b[|b| - |x|..];
  }

  lemma PlacedInDir(dirName: string, file: string)
    ensures HasPrefix(dirName + "/" + file, dirName + "/")
  {
    assert (dirName + "/" + file)[..|dirName + "/"|] == dirName + "/";
  }

  /** Placing a file keeps a track valid and keeps its number. */
  lemma FilePlacedValid(t: RipTrack, dirName: string, file: string)
    requires ValidTrack(t, dirName)
    ensures ValidTrack(FilePlaced(t, dirName, file), dirName)
    ensures FilePlaced(t, dirName, file).trackNumber == t.trackNumber
  {
    PlacedInDir(dirName, file);
    if HasSuffix(file, "wav") {
      SuffixOfConcat(dirName + "/", file, "wav");
    } else if HasSuffix(file, "mp3") {
      SuffixOfConcat(dirName + "/", file, "mp3");
    } else if HasSuffix(file, "flac") {
      SuffixOfConcat(dirName + "/", file, "flac");
    }
  }

  /** Adding a file keeps the tracks valid: the number is looked up first, so no number
      is added twice. */
  lemma AddFileValid(tracks: seq<RipTrack>, dirName: string, file: string, disk: int)
    requires ValidTracks(tracks, dirName)
    ensures AddFile(tracks, dirName, file, disk).Ok? ==> ValidTracks(AddFile(tracks, dirName, file, disk).value, dirName)
    ensures AddFile(tracks, dirName, file, disk).Err? <==> |file| < 7
    ensures AddFile(tracks, dirName, file, disk).Err? ==> AddFile(tracks, dirName, file, disk).error.Panic?
  {
    if |file| >= 7 {
      var n := Atoi(file[5..7]).value;
      var k := LastWithNumber(tracks, n);
      if k < 0 {
        FilePlacedValid(RipTrack(n, disk, "", "", ""), dirName, file);
      } else {
        FilePlacedValid(tracks[k], dirName, file);
      }
    }
  }

  /** The tracks of a directory are valid for it; only a panic can stop the reading. */
  lemma {:induction false} TracksOfValid(dirName: string, files: seq<DirEntry>, disk: int)
    ensures TracksOf(dirName, files, disk).Ok? ==> ValidTracks(TracksOf(dirName, files, disk).value, dirName)
    ensures TracksOf(dirName, files, disk).Err? ==> TracksOf(dirName, files, disk).error.Panic?
    decreases |files|
  {
    if files != [] {
      TracksOfValid(dirName, files[..|files| - 1], disk);
      var prev := TracksOf(dirName, files[..|files| - 1], disk);
      if prev.Ok? {
        AddFileValid(prev.value, dirName, files[|files| - 1].name, disk);
      }
    }
  }

  /** The survey: its rips are valid and are exactly the rip directories in listing order
      (when it completes), each with the id the converter gives its name and the tracks
      of its listing; one "Missing Tracks" issue is raised per rip with no tracks. */
  lemma SurveyProperties(entries: seq<DirEntry>, env: Env)
    ensures ValidRips(SurveyOf(entries, env).rips)
    ensures SurveyOf(entries, env).outcome.Pass? ==> Paths(SurveyOf(entries, env).rips) == RipDirNames(entries)
    ensures forall i :: 0 <= i < |SurveyOf(entries, env).rips| ==>
      var r := SurveyOf(entries, env).rips[i];
      var c := env.convert(r.path);
      c.ok && r.id == c.id && TracksOf(r.path, env.subdir(r.path), c.disk) == Ok(r.tracks)
    ensures |SurveyOf(entries, env).issues| == EmptyRips(SurveyOf(entries, env).rips)
  {
    SurveyRips(entries, env);
    SurveyPaths(entries, env);
    SurveyIssues(entries, env);
  }

  lemma {:induction false} SurveyRips(entries: seq<DirEntry>, env: Env)
    ensures ValidRips(SurveyOf(entries, env).rips)
    ensures forall i :: 0 <= i < |SurveyOf(entries, env).rips| ==>
      var r := SurveyOf(entries, env).rips[i];
      var c := env.convert(r.path);
      c.ok && r.id == c.id && TracksOf(r.path, env.subdir(r.path), c.disk) == Ok(r.tracks)
    decreases |entries|
  {
    if entries != [] {
      var init := entries[..|entries| - 1];
      SurveyRips(init, env);
      var prev := SurveyOf(init, env);
      var f := entries[|entries| - 1];
      if prev.outcome.Pass? && IsRipDir(f) {
        var c := env.convert(f.name);
        if c.ok {
          TracksOfValid(f.name, env.subdir(f.name), c.disk);
        }
      }
    }
  }

  lemma {:induction false} SurveyPaths(entries: seq<DirEntry>, env: Env)
    ensures SurveyOf(entries, env).outcome.Pass? ==> Paths(SurveyOf(entries, env).rips) == RipDirNames(entries)
    decreases |entries|
  {
    if entries != [] {
      var init := entries[..|entries| - 1];
      SurveyPaths(init, env);
      var prev := SurveyOf(init, env);
      var f := entries[|entries| - 1];
      if prev.outcome.Pass? && IsRipDir(f) {
        var c := env.convert(f.name);
        if c.ok {
          var t := TracksOf(f.name, env.subdir(f.name), c.disk);
          if t.Ok? {
            var s := SurveyOf(entries, env);
            assert Paths(s.rips) == Paths(prev.rips) + [f.name];
          }
        }
      }
    }
  }

  lemma {:induction false} SurveyIssues(entries: seq<DirEntry>, env: Env)
    ensures |SurveyOf(entries, env).issues| == EmptyRips(SurveyOf(entries, env).rips)
    decreases |entries|
  {
    if entries != [] {
      var init := entries[..|entries| - 1];
      SurveyIssues(init, env);
      var prev := SurveyOf(init, env);
      var f := entries[|entries| - 1];
      if prev.outcome.Pass? && IsRipDir(f) {
        var c := env.convert(f.name);
        if c.ok {
          var t := TracksOf(f.name, env.subdir(f.name), c.disk);
          if t.Ok? {
            var s := SurveyOf(entries, env);
            assert s.rips[..|s.rips| - 1] == prev.rips;
          }
        }
      }
    }
  }

  /** Once the survey stops, later entries change nothing. */
  lemma {:induction false} SurveyStops(entries: seq<DirEntry>, env: Env, k: nat)
    requires k <= |entries|
    requires SurveyOf(entries[..k], env).outcome.Fail?
    ensures SurveyOf(entries, env) == SurveyOf(entries[..k], env)
    decreases |entries| - k
  {
    if k < |entries| {
      assert entries[..k + 1][..k] == entries[..k];
      SurveyStops(entries, env, k + 1);
    } else {
      assert entries[..k] == entries;
    }
  }

  /** Once reading a directory's files panics, later files change nothing. */
  lemma {:induction false} TracksOfStops(dirName: string, files: seq<DirEntry>, disk: int, k: nat)
    requires k <= |files|
    requires TracksOf(dirName, files[..k], disk).Err?
    ensures TracksOf(dirName, files, disk) == TracksOf(dirName, files[..k], disk)
    decreases |files| - k
  {
    if k < |files| {
      assert files[..k + 1][..k] == files[..k];
      TracksOfStops(dirName, files, disk, k + 1);
    } else {
      assert files[..k] == files;
    }
  }

  // ---------------------------------------------------------------------------
  // convertToMP3 and convertToFlac

  /** A track that has a wav file but no mp3 (or no flac) yet. */
  predicate Lacks(t: RipTrack, flac: bool)
  {
    t.wavPath != "" && (if flac then t.flacPath == "" else t.mp3Path == "")
  }

  /** The index of the first track that lacks the output, or -1. */
  function FirstLacking(tracks: seq<RipTrack>, flac: bool): (k: int)
    ensures -1 <= k < |tracks|
    ensures k >= 0 ==> (Lacks(tracks[k], flac) && forall j :: 0 <= j < k ==> !Lacks(tracks[j], flac))
    ensures k < 0 ==> forall j :: 0 <= j < |tracks| ==> !Lacks(tracks[j], flac)
  {
    if tracks == [] then -1
    else if Lacks(tracks[0], flac) then 0
    else
      var k := FirstLacking(tracks[1..], flac);
      if k < 0 then -1 else k + 1
  }

  datatype Loc = Loc(rip: nat, track: nat)

  /** The track a conversion picks: in rip order, the first rip with the id that has a
      track lacking the output, and its first such track. */
  function Candidate(rips: seq<Rip>, id: int, flac: bool): (l: Option<Loc>)
    ensures l.Some? ==> (l.value.rip < |rips| && rips[l.value.rip].id == id &&
      l.value.track == FirstLacking(rips[l.value.rip].tracks, flac) &&
      forall i :: 0 <= i < l.value.rip && rips[i].id == id ==> FirstLacking(rips[i].tracks, flac) < 0)
    ensures l.None? ==> forall i :: 0 <= i < |rips| && rips[i].id == id ==> FirstLacking(rips[i].tracks, flac) < 0
  {
    if rips == [] then None
    else if rips[0].id == id && FirstLacking(rips[0].tracks, flac) >= 0 then
      Some(Loc(0, FirstLacking(rips[0].tracks, flac)))
    else match Candidate(rips[1..], id, flac)
      case None => None
      case Some(l) => Some(Loc(l.rip + 1, l.track))
  }

  /** Whether some rip with the id has at least one track. */
  predicate HasTrackedRip(rips: seq<Rip>, id: int)
  {
    exists i :: 0 <= i < |rips| && rips[i].id == id && rips[i].tracks != []
  }

  /** The output file: the wav path with its last three characters replaced. */
  function Converted(wav: string, ext: string): (r: string)
    requires |wav| >= 3
    ensures HasSuffix(r, ext) && r[..|r| - |ext|] == wav[..|wav| - 3]
  {
    var r := wav[..|wav| - 3] + ext;
    assert r[..|r| - |ext|] == wav[..|wav| - 3];
    r
  }

  function ConversionEffect(wav: string, flac: bool, dirs: Dirs): Effect
    requires |wav| >= 3
  {
    if flac then RipToFlac(dirs.dir + wav, dirs.dir + Converted(wav, "flac"))
    else RipToMp3(dirs.dir + wav, dirs.dir + Converted(wav, "mp3"))
  }

  /** The state after one conversion was requested: its counter is bumped and the
      ripper's call is logged. */
  function Counted(st: State, wav: string, flac: bool, dirs: Dirs): (r: State)
    requires |wav| >= 3
    ensures r.rips == st.rips && r.effects == st.effects + [ConversionEffect(wav, flac, dirs)]
    ensures r.ripCount + r.flacCount == st.ripCount + st.flacCount + 1
  {
    if flac then st.(flacCount := st.flacCount + 1, effects := st.effects + [ConversionEffect(wav, true, dirs)])
    else st.(ripCount := st.ripCount + 1, effects := st.effects + [ConversionEffect(wav, false, dirs)])
  }

  /** convertToMP3 (flac = false) and convertToFlac (flac = true): convert the candidate
      track, count it, and rebuild the rip list, whose error is ignored (a panic is not).
      With no candidate nothing changes; convertToMP3 then fails exactly when no rip
      with the id has a track, and convertToFlac never fails. */
  function ConvertStep(st: State, id: int, flac: bool, dirs: Dirs, env: Env): (r: Step)
    requires ValidRips(st.rips)
    ensures ValidRips(r.state.rips) && st.effects <= r.state.effects
  {
    match Candidate(st.rips, id, flac)
    case Some(l) =>
      var wav := st.rips[l.rip].tracks[l.track].wavPath;
      assert ValidTrack(st.rips[l.rip].tracks[l.track], st.rips[l.rip].path);
      var b := BuildConfigStep(Counted(st, wav, flac, dirs), env);
      Step(b.state, if IsPanic(b.outcome) then b.outcome else Pass)
    case None =>
      Step(st, if flac || HasTrackedRip(st.rips, id) then Pass else Fail(Failure("Unable to locate rip for " + IntToString(id))))
  }

  /** A conversion converts at most one track and counts exactly that one in its own
      counter; it returns an ordinary error only for an mp3 conversion of an id with no
      tracked rip. */
  lemma ConvertProperties(st: State, id: int, flac: bool, dirs: Dirs, env: Env)
    requires ValidRips(st.rips)
    ensures var r := ConvertStep(st, id, flac, dirs, env);
      (if flac then r.state.ripCount == st.ripCount && r.state.flacCount == st.flacCount + (if Candidate(st.rips, id, true).Some? then 1 else 0)
       else r.state.flacCount == st.flacCount && r.state.ripCount == st.ripCount + (if Candidate(st.rips, id, false).Some? then 1 else 0)) &&
      (r.outcome.Fail? && !r.outcome.error.Panic? <==> !flac && !HasTrackedRip(st.rips, id)) &&
      (IsPanic(r.outcome) ==> Candidate(st.rips, id, flac).Some?)
  {
    var c := Candidate(st.rips, id, flac);
    if c.Some? {
      var l := c.value;
      assert st.rips[l.rip].tracks != [];
      assert HasTrackedRip(st.rips, id);
    } else if HasTrackedRip(st.rips, id) {
      var i :| 0 <= i < |st.rips| && st.rips[i].id == id && st.rips[i].tracks != [];
    }
  }

  // ---------------------------------------------------------------------------
  // makeLinks and buildLink

  /** Goal folders of digital releases, which are never processed. */
  const DigitalFolders: set<int> := {268147, 1433217}

  /** Goal folders whose records are always treated as CDs. */
  const CdFolders: set<int> := {242018, 1782105, 288751}

  /** The format names that make a record in another folder a CD. */
  predicate IsCdFormatName(name: string) { name == "File" || name == "CD" || name == "Cdr" }

  predicate HasCdFormatName(formats: seq<string>)
  {
    exists i :: 0 <= i < |formats| && IsCdFormatName(formats[i])
  }

  /** The gate of makeLinks: not a digital folder, and either a CD folder or a CD format. */
  predicate Processable(record: Record)
  {
    var gf := record.metadata.goalFolder;
    gf !in DigitalFolders && (gf in CdFolders || HasCdFormatName(record.release.formats))
  }

  /** A track set whose format is ripped from a disc or file. */
  predicate IsCdSet(t: TrackSet) { t.format == "CD" || t.format == "CDr" || t.format == "File" }

  predicate AnyCdSet(sets: seq<TrackSet>) { exists i :: 0 <= i < |sets| && IsCdSet(sets[i]) }

  /** The sets makeLinks links: the CD sets when there are any, otherwise all of them. */
  function LinkedSets(sets: seq<TrackSet>, anyCd: bool): (r: seq<TrackSet>)
    ensures |r| <= |sets|
  {
    if sets == [] then []
    else
      var last := sets[|sets| - 1];
      LinkedSets(sets[..|sets| - 1], anyCd) + (if IsCdSet(last) || !anyCd then [last] else [])
  }

  /** The number of CD sets. */
  function CdSetCount(sets: seq<TrackSet>): nat
  {
    if sets == [] then 0 else CdSetCount(sets[..|sets| - 1]) + (if IsCdSet(sets[|sets| - 1]) then 1 else 0)
  }

  /** The number of files verifyRecord expects: the CD sets, or all sets when none is. */
  function ExpectedCount(sets: seq<TrackSet>): nat
  {
    var n := CdSetCount(sets);
    if n == 0 then |sets| else n
  }

  lemma {:induction false} CdSetCountPositive(sets: seq<TrackSet>)
    ensures CdSetCount(sets) > 0 <==> AnyCdSet(sets)
    decreases |sets|
  {
    if sets != [] {
      var init := sets[..|sets| - 1];
      CdSetCountPositive(init);
      if AnyCdSet(init) {
        var i :| 0 <= i < |init| && IsCdSet(init[i]);
        assert IsCdSet(sets[i]);
      }
      if AnyCdSet(sets) && !IsCdSet(sets[|sets| - 1]) {
        var i :| 0 <= i < |sets| && IsCdSet(sets[i]);
        assert IsCdSet(init[i]);
      }
    }
  }

  lemma {:induction false} LinkedSetsCount(sets: seq<TrackSet>, anyCd: bool)
    ensures |LinkedSets(sets, anyCd)| == if anyCd then CdSetCount(sets) else |sets|
    decreases |sets|
  {
    if sets != [] {
      LinkedSetsCount(sets[..|sets| - 1], anyCd);
    }
  }

  /** verifyRecord expects exactly as many files as makeLinks links. */
  lemma ExpectedCountIsLinked(sets: seq<TrackSet>)
    ensures ExpectedCount(sets) == |LinkedSets(sets, AnyCdSet(sets))|
  {
    CdSetCountPositive(sets);
    LinkedSetsCount(sets, AnyCdSet(sets));
  }

  /** `_<disk>` when the release has more than one disc. */
  function DiskAdder(release: Release, t: TrackSet): string
  {
    if release.formatQuantity > 1 then "_" + NatToString(t.disk) else ""
  }

  /** The ripped file a set is linked from, without its extension. */
  function RipStem(dirs: Dirs, release: Release, t: TrackSet): string
  {
    dirs.dir + IntToString(release.id) + DiskAdder(release, t) + "/track" + Expand(NatToString(t.position))
  }

  function SourcePath(dirs: Dirs, release: Release, t: TrackSet): string
  {
    RipStem(dirs, release, t) + ".cdda.mp3"
  }

  function Mp3Link(dirs: Dirs, release: Release, t: TrackSet): string
  {
    dirs.mp3dir + IntToString(release.id) + "/track" + NatToString(t.disk) + "-" + Expand(NatToString(t.position)) + ".cdda.mp3"
  }

  function FlacLink(dirs: Dirs, release: Release, t: TrackSet): string
  {
    dirs.flacdir + IntToString(release.id) + "/" + NatToString(t.disk) + "-" + Expand(NatToString(t.position)) + ".cdda.flac"
  }

  /** The commands buildLink runs before it needs the artist line. */
  function TagCommands(dirs: Dirs, release: Release, t: TrackSet, title: string): (r: seq<Effect>)
    ensures |r| == 4
  {
    var mp3 := Mp3Link(dirs, release, t);
    [Run(Symlink(SourcePath(dirs, release, t), mp3)),
     Run(Mp3Info(Mp3Track, NatToString(t.position), mp3)),
     Run(Mp3Info(Mp3Title, title, mp3)),
     Run(Mp3Info(Mp3Album, release.title, mp3))]
  }

  /** The commands buildLink runs once the artist line is known. */
  function ArtistCommands(dirs: Dirs, release: Release, t: TrackSet, title: string, artist: string): (r: seq<Effect>)
    ensures |r| == 8
  {
    var mp3 := Mp3Link(dirs, release, t);
    var flac := FlacLink(dirs, release, t);
    [Run(Mp3Info(Mp3Artist, artist, mp3)),
     Run(DiscFrame(NatToString(t.disk) + "/" + IntToString(release.formatQuantity), mp3)),
     Run(Symlink(RipStem(dirs, release, t) + ".cdda.flac", flac)),
     Run(FlacTag(FlacArtist, artist, flac)),
     Run(FlacTag(FlacTrackNumber, NatToString(t.position), flac)),
     Run(FlacTag(FlacDiscNumber, NatToString(t.disk), flac)),
     Run(FlacTag(FlacTitle, title, flac)),
     Run(FlacTag(FlacAlbum, release.title, flac))]
  }

  /** buildLink: fail before running anything when the ripped file is missing; otherwise
      run the twelve commands, except that a release with no artists panics in
      computeArtist after the first four. */
  function LinkSpec(dirs: Dirs, release: Release, t: TrackSet, env: Env): (r: Emitted)
    ensures r.outcome.Pass? ==> |r.effects| == 12
    ensures r.outcome.Fail? ==> |r.effects| < 12
  {
    var src := SourcePath(dirs, release, t);
    if !env.fileExists(src) then Emitted([], Fail(Failure("Missing Track: " + src)))
    else
      var title := Join(Titles(t.tracks), " / ");
      match ArtistLine(release.artists)
      case Err(e) => Emitted(TagCommands(dirs, release, t, title), Fail(e))
      case Ok(artist) => Emitted(TagCommands(dirs, release, t, title) + ArtistCommands(dirs, release, t, title, artist), Pass)
  }

  /** Running calls one after another, stopping at the first failure: the effects of
      every call made, and the error of the last one. */
  function Sequenced(steps: seq<Emitted>): Emitted
    decreases |steps|
  {
    if steps == [] then Emitted([], Pass)
    else
      var prev := Sequenced(steps[..|steps| - 1]);
      if prev.outcome.Fail? then prev
      else Emitted(prev.effects + steps[|steps| - 1].effects, steps[|steps| - 1].outcome)
  }

  predicate AllPass(steps: seq<Emitted>)
  {
    forall i :: 0 <= i < |steps| ==> steps[i].outcome.Pass?
  }

  /** The sequence succeeds exactly when every call does. */
  lemma {:induction false} SequencedPasses(steps: seq<Emitted>)
    ensures Sequenced(steps).outcome.Pass? <==> AllPass(steps)
    decreases |steps|
  {
    if steps != [] {
      SequencedPasses(steps[..|steps| - 1]);
      assert forall i :: 0 <= i < |steps| - 1 ==> steps[..|steps| - 1][i] == steps[i];
    }
  }

  /** When every successful call performs n effects, a successful sequence performs n
      per call. */
  lemma {:induction false} SequencedLength(steps: seq<Emitted>, n: nat)
    requires forall i :: 0 <= i < |steps| && steps[i].outcome.Pass? ==> |steps[i].effects| == n
    ensures Sequenced(steps).outcome.Pass? ==> |Sequenced(steps).effects| == n * |steps|
    decreases |steps|
  {
    if steps != [] {
      SequencedLength(steps[..|steps| - 1], n);
    }
  }

  /** A failed sequence stops at the first failing call k: it returns that call's error
      after the effects of all calls up to and including k. */
  lemma {:induction false} SequencedStops(steps: seq<Emitted>, n: nat)
    requires forall i :: 0 <= i < |steps| && steps[i].outcome.Pass? ==> |steps[i].effects| == n
    ensures Sequenced(steps).outcome.Fail? ==>
      exists k :: 0 <= k < |steps| && AllPass(steps[..k]) &&
        Sequenced(steps).outcome == steps[k].outcome &&
        |Sequenced(steps).effects| == n * k + |steps[k].effects|
    decreases |steps|
  {
    if steps != [] {
      var init := steps[..|steps| - 1];
      var prev := Sequenced(init);
      if prev.outcome.Fail? {
        SequencedStops(init, n);
        var k :| 0 <= k < |init| && AllPass(init[..k]) && prev.outcome == init[k].outcome &&
          |prev.effects| == n * k + |init[k].effects|;
        assert steps[..k] == init[..k];
      } else {
        SequencedPasses(init);
        SequencedLength(init, n);
        assert steps[..|init|] == init;
      }
    }
  }

  /** f applied to each element of s, in order. */
  function Each<A, B>(f: A -> B, s: seq<A>): (r: seq<B>)
    ensures |r| == |s|
  {
    if s == [] then [] else Each(f, s[..|s| - 1]) + [f(s[|s| - 1])]
  }

  lemma {:induction false} EachAt<A, B>(f: A -> B, s: seq<A>, i: nat)
    requires i < |s|
    ensures Each(f, s)[i] == f(s[i])
    decreases |s|
  {
    var init := s[..|s| - 1];
    if i < |init| {
      EachAt(f, init, i);
      assert init[i] == s[i];
    }
  }

  lemma {:induction false} EachConcat<A, B>(f: A -> B, a: seq<A>, b: seq<A>)
    ensures Each(f, a + b) == Each(f, a) + Each(f, b)
    decreases |b|
  {
    if b == [] {
      assert a + b == a;
    } else {
      var b' := b[..|b| - 1];
      assert (a + b)[..|a + b| - 1] == a + b';
      EachConcat(f, a, b');
    }
  }

  /** What buildLink does for each set of the list. */
  function LinkResults(dirs: Dirs, release: Release, linked: seq<TrackSet>, env: Env): (r: seq<Emitted>)
    ensures |r| == |linked|
  {
    Each(t => LinkSpec(dirs, release, t, env), linked)
  }

  /** The i-th result is what buildLink does for the i-th set. */
  lemma LinkResultsAt(dirs: Dirs, release: Release, linked: seq<TrackSet>, env: Env)
    ensures forall i :: 0 <= i < |linked| ==> LinkResults(dirs, release, linked, env)[i] == LinkSpec(dirs, release, linked[i], env)
  {
    forall i | 0 <= i < |linked|
      ensures LinkResults(dirs, release, linked, env)[i] == LinkSpec(dirs, release, linked[i], env)
    {
      EachAt(t => LinkSpec(dirs, release, t, env), linked, i);
    }
  }

  lemma LinkResultsConcat(dirs: Dirs, release: Release, a: seq<TrackSet>, b: seq<TrackSet>, env: Env)
    ensures LinkResults(dirs, release, a + b, env) == LinkResults(dirs, release, a, env) + LinkResults(dirs, release, b, env)
  {
    EachConcat(t => LinkSpec(dirs, release, t, env), a, b);
  }

  /** Linking a list of sets in order; the first failure stops it. */
  function LinkEach(dirs: Dirs, release: Release, linked: seq<TrackSet>, env: Env): Emitted
  {
    Sequenced(LinkResults(dirs, release, linked, env))
  }

  /** One set links exactly when its ripped file exists and the release has artists. */
  lemma LinkSpecPasses(dirs: Dirs, release: Release, t: TrackSet, env: Env)
    ensures LinkSpec(dirs, release, t, env).outcome.Pass? <==>
      env.fileExists(SourcePath(dirs, release, t)) && release.artists != []
    ensures IsPanic(LinkSpec(dirs, release, t, env).outcome) <==>
      env.fileExists(SourcePath(dirs, release, t)) && release.artists == []
    ensures LinkSpec(dirs, release, t, env).outcome.Pass? ==> |LinkSpec(dirs, release, t, env).effects| == 12
  {
  }

  /** Linking a list succeeds exactly when every ripped file exists and (when anything is
      linked) the release has artists; it then runs twelve commands per set. */
  lemma LinkEachProperties(dirs: Dirs, release: Release, linked: seq<TrackSet>, env: Env)
    ensures LinkEach(dirs, release, linked, env).outcome.Pass? <==>
      (forall i :: 0 <= i < |linked| ==> env.fileExists(SourcePath(dirs, release, linked[i]))) &&
      (linked != [] ==> release.artists != [])
    ensures LinkEach(dirs, release, linked, env).outcome.Pass? ==>
      |LinkEach(dirs, release, linked, env).effects| == 12 * |linked|
  {
    var steps := LinkResults(dirs, release, linked, env);
    LinkResultsAt(dirs, release, linked, env);
    forall i | 0 <= i < |linked|
      ensures steps[i].outcome.Pass? <==> env.fileExists(SourcePath(dirs, release, linked[i])) && release.artists != []
      ensures steps[i].outcome.Pass? ==> |steps[i].effects| == 12
    {
      LinkSpecPasses(dirs, release, linked[i], env);
    }
    SequencedPasses(steps);
    SequencedLength(steps, 12);
  }

  // ---------------------------------------------------------------------------
  // verifyRecord and makeLinks

  function MissingMp3Issue(release: Release): Effect
  {
    RaiseIssue("Missing MP3", release.title + " [" + IntToString(release.id) + "] is missing the CD Path")
  }

  function RipNeededIssue(release: Release): Effect
  {
    RaiseIssue("CD Rip Needd for " + release.title, "https://www.discogs.com/madeup/release/" + IntToString(release.id))
  }

  /** The number of files a listing saw; a failed listing saw none. */
  function ListedCount(listing: Option<nat>): nat
  {
    match listing
    case None => 0
    case Some(n) => n
  }

  /** The repair attempt of verifyRecord: rebuild the rip list, then try one mp3 and one
      flac conversion; their errors are ignored, a panic is not. */
  function Reconvert(st: State, release: Release, dirs: Dirs, env: Env): (r: Step)
    requires ValidRips(st.rips)
    ensures ValidRips(r.state.rips) && st.effects <= r.state.effects
    ensures r.outcome.Pass? || IsPanic(r.outcome)
  {
    var b := BuildConfigStep(st, env);
    if IsPanic(b.outcome) then b
    else
      var m := ConvertStep(b.state, release.id, false, dirs, env);
      if IsPanic(m.outcome) then m
      else
        var f := ConvertStep(m.state, release.id, true, dirs, env);
        if IsPanic(f.outcome) then f else Step(f.state, Pass)
  }

  function DataLossError(listed: nat, count: nat): Outcome
  {
    Fail(DataLoss("Error reading " + NatToString(listed) + "/" + NatToString(count) + " files"))
  }

  /** verifyRecord. An empty CD path raises an issue. The rip is fine when the first
      listing of the CD path succeeds with the expected number of files. Otherwise the
      repair is attempted; if the second listing still has the wrong count, an issue
      asks for a rip, the links are forced, and the call reports data loss. A panic
      anywhere propagates. */
  function VerifySpec(st: State, record: Record, dirs: Dirs, env: Env): (r: Step)
    requires ValidRips(st.rips)
    ensures ValidRips(r.state.rips) && st.effects <= r.state.effects
    decreases 2
  {
    var release := record.release;
    var cdPath := record.metadata.cdPath;
    var st0 := if cdPath == "" then st.(effects := st.effects + [MissingMp3Issue(release)]) else st;
    match Extract(release, false)
    case Err(e) => Step(st0, Fail(e))
    case Ok(sets) =>
      var count := ExpectedCount(sets);
      if env.firstRead(cdPath) == Some(count) then Step(st0, Pass)
      else RecheckSpec(st0, release, cdPath, count, dirs, env)
  }

  /** The mismatch branch of verifyRecord: the repair is attempted; if the second listing
      still has the wrong count, an issue asks for a rip, the links are forced, and data
      loss is reported. A panic propagates. */
  function RecheckSpec(st: State, release: Release, cdPath: string, count: nat, dirs: Dirs, env: Env): (r: Step)
    requires ValidRips(st.rips)
    ensures ValidRips(r.state.rips) && st.effects <= r.state.effects
    decreases 1
  {
    var f := Reconvert(st, release, dirs, env);
    var listed := ListedCount(env.secondRead(cdPath));
    if IsPanic(f.outcome) || listed == count then f
    else
      var st1 := f.state.(effects := f.state.effects + [RipNeededIssue(release)]);
      var l := MakeLinksSpec(st1, release.instanceId, true, dirs, env);
      Step(l.state, if IsPanic(l.outcome) then l.outcome else DataLossError(listed, count))
  }

  /** The effects that precede linking: the CD path is recorded when it was missing, and
      the two link directories are created. */
  function LinkPreamble(record: Record, dirs: Dirs): seq<Effect>
  {
    var release := record.release;
    (if record.metadata.cdPath == "" then [UpdateRecord(release.instanceId, dirs.mp3dir + IntToString(release.id))] else []) +
    [MakeDir(dirs.mp3dir + IntToString(release.id)), MakeDir(dirs.flacdir + IntToString(release.id))]
  }

  /** The linking branch of makeLinks, for a record that passed the gate: the preamble,
      then the chosen sets are linked (the CD sets when there are any, otherwise all), and
      when all of them linked the record is updated and that update's result returned.
      The rips and the counters are untouched and effects are only appended. */
  function LinkRecordSpec(st: State, record: Record, dirs: Dirs, env: Env): (r: Step)
    ensures r.state.rips == st.rips && r.state.ripCount == st.ripCount && r.state.flacCount == st.flacCount
    ensures st.effects <= r.state.effects
  {
    var release := record.release;
    var preamble := LinkPreamble(record, dirs);
    match Extract(release, false)
    case Err(e) => Step(st.(effects := st.effects + preamble), Fail(e))
    case Ok(sets) =>
      var links := LinkEach(dirs, release, LinkedSets(sets, AnyCdSet(sets)), env);
      if links.outcome.Fail? then Step(st.(effects := st.effects + (preamble + links.effects)), links.outcome)
      else
        var update := UpdateRecord(release.instanceId, dirs.mp3dir + IntToString(release.id));
        Step(st.(effects := st.effects + (preamble + links.effects + [update])), env.updateRecord(release.instanceId))
  }

  /** makeLinks. A lookup error is returned; records outside the gate are left alone.
      When forced, or when the record has no CD path, the sets are linked (the CD sets
      when there are any, otherwise all) and the record update's result is returned;
      otherwise the record is verified. */
  function MakeLinksSpec(st: State, id: int, force: bool, dirs: Dirs, env: Env): (r: Step)
    requires ValidRips(st.rips)
    ensures ValidRips(r.state.rips) && st.effects <= r.state.effects
    decreases if force then 0 else 3
  {
    match env.getRecord(id)
    case Err(e) => Step(st, Fail(e))
    case Ok(record) =>
      if !Processable(record) then Step(st, Pass)
      else if force || record.metadata.cdPath == "" then LinkRecordSpec(st, record, dirs, env)
      else VerifySpec(st, record, dirs, env)
  }

  /** verifyRecord returns nothing but success, a panic, or data loss; data loss means the
      tracklist extracted and neither listing of the CD path had the expected count, and
      when nothing panics that is also enough for data loss. */
  lemma VerifyOutcomes(st: State, record: Record, dirs: Dirs, env: Env)
    requires ValidRips(st.rips)
    ensures var r := VerifySpec(st, record, dirs, env);
      r.outcome.Pass? || IsPanic(r.outcome) || (r.outcome.Fail? && r.outcome.error.DataLoss?)
    ensures var r := VerifySpec(st, record, dirs, env);
      var e := Extract(record.release, false);
      (r.outcome.Fail? && r.outcome.error.DataLoss?) <==>
        (e.Ok? && !IsPanic(r.outcome) &&
         env.firstRead(record.metadata.cdPath) != Some(ExpectedCount(e.value)) &&
         ListedCount(env.secondRead(record.metadata.cdPath)) != ExpectedCount(e.value))
  {
    ExtractProperties(record.release);
    var release := record.release;
    var cdPath := record.metadata.cdPath;
    var st0 := if cdPath == "" then st.(effects := st.effects + [MissingMp3Issue(release)]) else st;
    var r := VerifySpec(st, record, dirs, env);
    match Extract(release, false)
    case Err(e) =>
      assert r.outcome == Fail(e);
    case Ok(sets) =>
      var count := ExpectedCount(sets);
      if env.firstRead(cdPath) != Some(count) {
        var f := Reconvert(st0, release, dirs, env);
        var listed := ListedCount(env.secondRead(cdPath));
        assert r == RecheckSpec(st0, release, cdPath, count, dirs, env);
        if !IsPanic(f.outcome) && listed != count {
          var st1 := f.state.(effects := f.state.effects + [RipNeededIssue(release)]);
          var l := MakeLinksSpec(st1, release.instanceId, true, dirs, env);
          assert r.outcome == if IsPanic(l.outcome) then l.outcome else DataLossError(listed, count);
        }
      }
  }

  /** When the first listing matches, the check succeeds without touching the rips or
      the counters; only the missing-path issue may be raised. */
  lemma VerifyCountMatches(st: State, record: Record, dirs: Dirs, env: Env)
    requires ValidRips(st.rips)
    requires Extract(record.release, false).Ok?
    requires env.firstRead(record.metadata.cdPath) == Some(ExpectedCount(Extract(record.release, false).value))
    ensures var r := VerifySpec(st, record, dirs, env);
      r.outcome == Pass && r.state.rips == st.rips &&
      r.state.ripCount == st.ripCount && r.state.flacCount == st.flacCount &&
      r.state.effects == st.effects + (if record.metadata.cdPath == "" then [MissingMp3Issue(record.release)] else [])
  {
  }

  /** The gate: a lookup error is returned unchanged, and a record outside the gate is
      left alone with success. */
  lemma MakeLinksGate(st: State, id: int, force: bool, dirs: Dirs, env: Env)
    requires ValidRips(st.rips)
    ensures env.getRecord(id).Err? ==> MakeLinksSpec(st, id, force, dirs, env) == Step(st, Fail(env.getRecord(id).error))
    ensures env.getRecord(id).Ok? && !Processable(env.getRecord(id).value) ==>
      MakeLinksSpec(st, id, force, dirs, env) == Step(st, Pass)
  {
  }

  /** Linking never touches the rips or the counters. When it succeeds every linked
      ripped file exists, the record update succeeded, and exactly twelve commands ran
      for each of the files verifyRecord expects, between the preamble and the final
      record update. */
  lemma MakeLinksLinked(st: State, id: int, force: bool, dirs: Dirs, env: Env)
    requires ValidRips(st.rips)
    requires env.getRecord(id).Ok? && Processable(env.getRecord(id).value)
    requires force || env.getRecord(id).value.metadata.cdPath == ""
    ensures var r := MakeLinksSpec(st, id, force, dirs, env);
      r.state.rips == st.rips && r.state.ripCount == st.ripCount && r.state.flacCount == st.flacCount
    ensures var r := MakeLinksSpec(st, id, force, dirs, env);
      var record := env.getRecord(id).value;
      var e := Extract(record.release, false);
      r.outcome.Pass? ==>
        e.Ok? && env.updateRecord(record.release.instanceId) == Pass &&
        |r.state.effects| == |st.effects| + |LinkPreamble(record, dirs)| + 12 * ExpectedCount(e.value) + 1 &&
        forall t :: t in LinkedSets(e.value, AnyCdSet(e.value)) ==> env.fileExists(SourcePath(dirs, record.release, t))
  {
    var record := env.getRecord(id).value;
    var e := Extract(record.release, false);
    if e.Ok? {
      var linked := LinkedSets(e.value, AnyCdSet(e.value));
      LinkEachProperties(dirs, record.release, linked, env);
      ExpectedCountIsLinked(e.value);
    }
  }

  // ---------------------------------------------------------------------------
  // Facts the server's loops step through

  /** The first lacking track of the first rip that has one is the candidate. */
  lemma CandidateAt(rips: seq<Rip>, id: int, flac: bool, i: nat, j: nat)
    requires i < |rips| && rips[i].id == id && j < |rips[i].tracks| && Lacks(rips[i].tracks[j], flac)
    requires forall k :: 0 <= k < j ==> !Lacks(rips[i].tracks[k], flac)
    requires forall k :: 0 <= k < i && rips[k].id == id ==> FirstLacking(rips[k].tracks, flac) < 0
    ensures Candidate(rips, id, flac) == Some(Loc(i, j))
  {
    assert FirstLacking(rips[i].tracks, flac) == j;
  }

  lemma LinkedSetsSnoc(sets: seq<TrackSet>, i: nat, anyCd: bool)
    requires i < |sets|
    ensures LinkedSets(sets[..i + 1], anyCd) ==
      LinkedSets(sets[..i], anyCd) + (if IsCdSet(sets[i]) || !anyCd then [sets[i]] else [])
  {
    assert sets[..i + 1][..i] == sets[..i];
  }

  lemma {:induction false} LinkedSetsConcat(a: seq<TrackSet>, b: seq<TrackSet>, anyCd: bool)
    ensures LinkedSets(a + b, anyCd) == LinkedSets(a, anyCd) + LinkedSets(b, anyCd)
    decreases |b|
  {
    if b != [] {
      var b' := b[..|b| - 1];
      assert (a + b)[..|a + b| - 1] == a + b';
      LinkedSetsConcat(a, b', anyCd);
    } else {
      assert a + b == a;
    }
  }

  lemma LinkEachSnoc(dirs: Dirs, release: Release, linked: seq<TrackSet>, t: TrackSet, env: Env)
    ensures var prev := LinkEach(dirs, release, linked, env);
      LinkEach(dirs, release, linked + [t], env) ==
        if prev.outcome.Fail? then prev
        else Emitted(prev.effects + LinkSpec(dirs, release, t, env).effects, LinkSpec(dirs, release, t, env).outcome)
  {
    assert (linked + [t])[..|linked|] == linked;
  }

  /** After a failure, further calls change nothing. */
  lemma {:induction false} SequencedStays(steps: seq<Emitted>, more: seq<Emitted>)
    requires Sequenced(steps).outcome.Fail?
    ensures Sequenced(steps + more) == Sequenced(steps)
    decreases |more|
  {
    if more != [] {
      var m := more[..|more| - 1];
      SequencedStays(steps, m);
      assert (steps + more)[..|steps + more| - 1] == steps + m;
    } else {
      assert steps + more == steps;
    }
  }

  /** After a failure, linking more sets changes nothing. */
  lemma LinkEachStays(dirs: Dirs, release: Release, linked: seq<TrackSet>, more: seq<TrackSet>, env: Env)
    requires LinkEach(dirs, release, linked, env).outcome.Fail?
    ensures LinkEach(dirs, release, linked + more, env) == LinkEach(dirs, release, linked, env)
  {
    var a := LinkResults(dirs, release, linked, env);
    var b := LinkResults(dirs, release, more, env);
    LinkResultsConcat(dirs, release, linked, more, env);
    SequencedStays(a, b);
  }

  /** Linking the first i + 1 sets: the i-th set is linked after the earlier ones when
      it is chosen and nothing failed yet. */
  lemma LinkPrefixStep(dirs: Dirs, release: Release, sets: seq<TrackSet>, i: nat, anyCd: bool, env: Env)
    requires i < |sets|
    ensures var prev := LinkEach(dirs, release, LinkedSets(sets[..i], anyCd), env);
      var step := LinkSpec(dirs, release, sets[i], env);
      LinkEach(dirs, release, LinkedSets(sets[..i + 1], anyCd), env) ==
        if !(IsCdSet(sets[i]) || !anyCd) || prev.outcome.Fail? then prev
        else Emitted(prev.effects + step.effects, step.outcome)
  {
    LinkedSetsSnoc(sets, i, anyCd);
    if IsCdSet(sets[i]) || !anyCd {
      LinkEachSnoc(dirs, release, LinkedSets(sets[..i], anyCd), sets[i], env);
    } else {
      assert LinkedSets(sets[..i + 1], anyCd) == LinkedSets(sets[..i], anyCd);
    }
  }

  /** Once linking a prefix failed, linking all the sets gives the same result. */
  lemma LinkPrefixStops(dirs: Dirs, release: Release, sets: seq<TrackSet>, i: nat, anyCd: bool, env: Env)
    requires i <= |sets|
    requires LinkEach(dirs, release, LinkedSets(sets[..i], anyCd), env).outcome.Fail?
    ensures LinkEach(dirs, release, LinkedSets(sets, anyCd), env) == LinkEach(dirs, release, LinkedSets(sets[..i], anyCd), env)
  {
    TakeDrop(sets, i);
    LinkedSetsConcat(sets[..i], sets[i..], anyCd);
    LinkEachStays(dirs, release, LinkedSets(sets[..i], anyCd), LinkedSets(sets[i..], anyCd), env);
  }

  lemma LinkPrefixAll(dirs: Dirs, release: Release, sets: seq<TrackSet>, anyCd: bool, env: Env)
    ensures LinkEach(dirs, release, LinkedSets(sets[..|sets|], anyCd), env) == LinkEach(dirs, release, LinkedSets(sets, anyCd), env)
  {
    assert sets[..|sets|] == sets;
  }

  lemma TakeDrop<T>(s: seq<T>, i: nat)
    requires i <= |s|
    ensures s[..i] + s[i..] == s
  {
  }

  lemma AppendAssoc<T>(a: seq<T>, b: seq<T>, c: seq<T>)
    ensures (a + b) + c == a + (b + c)
  {
  }
}
