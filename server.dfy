/** The server of cdprocessorutils.go: it keeps the rips found on disk, the two
    conversion counters and the log of outward effects, and each method is proved to
    leave exactly the state its specification in `Reconcile` describes. */
module Service {
  import opened Wrappers
  import opened Text
  import opened RecordUtils
  import opened Records
  import opened Reconcile

  class Server {
    var rips: seq<Rip>
    var ripCount: nat
    var flacCount: nat
    var effects: seq<Effect>
    /** The persisted configuration, as the key-value store holds it. */
    var config: Config
    const dirs: Dirs

    /** The part of the state that the reconciliation code changes. */
    function Snapshot(): State
      reads this
    {
      State(rips, ripCount, flacCount, effects)
    }

    predicate Valid()
      reads this
    {
      ValidRips(rips)
    }

    constructor(dirs: Dirs, config: Config)
      ensures Valid() && this.dirs == dirs && this.config == config
      ensures Snapshot() == State([], 0, 0, [])
    {
      this.dirs := dirs;
      this.config := config;
      rips := [];
      ripCount := 0;
      flacCount := 0;
      effects := [];
    }

    /** findMissing: the local rips are this server's own list; a master error is
        returned; otherwise the first master rip whose id has no local rip, if any. */
    method FindMissing(master: Result<seq<Rip>>) returns (r: Result<Option<Rip>>)
      ensures master.Err? ==> r == Err(master.error)
      ensures master.Ok? ==> r.Ok?
      ensures r.Ok? && r.value.Some? ==>
        exists i :: 0 <= i < |master.value| && master.value[i] == r.value.value &&
          !HasId(rips, master.value[i].id) &&
          forall k :: 0 <= k < i ==> HasId(rips, master.value[k].id)
      ensures r.Ok? && r.value.None? ==>
        forall k :: 0 <= k < |master.value| ==> HasId(rips, master.value[k].id)
    {
      if master.Err? {
        return Err(master.error);
      }
      var ripped := master.value;
      var local := rips;
      var i := 0;
      while i < |ripped|
        invariant 0 <= i <= |ripped|
        invariant forall k :: 0 <= k < i ==> HasId(local, ripped[k].id)
      {
        var found := false;
        var j := 0;
        while j < |local|
          invariant 0 <= j <= |local|
          invariant found <==> exists m :: 0 <= m < j && local[m].id == ripped[i].id
        {
          if local[j].id == ripped[i].id {
            found := true;
          }
          j := j + 1;
        }
        if !found {
          return Ok(Some(ripped[i]));
        }
        i := i + 1;
      }
      return Ok(None);
    }

    /** The tracks of one rip directory, read file by file. */
    static method ReadTracks(dirName: string, files: seq<DirEntry>, disk: int) returns (r: Result<seq<RipTrack>>)
      ensures r == TracksOf(dirName, files, disk)
    {
      var tracks: seq<RipTrack> := [];
      var j := 0;
      while j < |files|
        invariant 0 <= j <= |files|
        invariant TracksOf(dirName, files[..j], disk) == Ok(tracks)
      {
        assert files[..j + 1][..j] == files[..j];
        var tf := files[j];
        if !tf.isDir {
          if |tf.name| < 7 {
            TracksOfStops(dirName, files, disk, j + 1);
            return Err(Panic("slice bounds out of range: track file name"));
          }
          var n := Atoi(tf.name[5..7]).value;
          var k := FindNumber(tracks, n);
          if k < 0 {
            tracks := tracks + [FilePlaced(RipTrack(n, disk, "", "", ""), dirName, tf.name)];
          } else {
            tracks := tracks[k := FilePlaced(tracks[k], dirName, tf.name)];
          }
        }
        j := j + 1;
      }
      assert files[..j] == files;
      return Ok(tracks);
    }

    /** The scan for an existing track with the number: the last one, or -1. */
    static method FindNumber(tracks: seq<RipTrack>, n: int) returns (k: int)
      ensures k == LastWithNumber(tracks, n)
    {
      k := -1;
      var m := 0;
      while m < |tracks|
        invariant 0 <= m <= |tracks|
        invariant k == LastWithNumber(tracks[..m], n)
      {
        assert tracks[..m + 1][..m] == tracks[..m];
        if tracks[m].trackNumber == n {
          k := m;
        }
        m := m + 1;
      }
      assert tracks[..m] == tracks;
    }

    /** buildConfig: survey the rip directories, raising an issue for each rip without
        tracks, and replace the rip list only when the survey completes. */
    method BuildConfig(env: Env) returns (o: Outcome)
      requires Valid()
      modifies this
      ensures Valid() && config == old(config)
      ensures Step(Snapshot(), o) == BuildConfigStep(old(Snapshot()), env)
    {
      if env.rootListing.Err? {
        return Fail(env.rootListing.error);
      }
      var files := env.rootListing.value;
      var found: seq<Rip> := [];
      ghost var issues: seq<Effect> := [];
      var i := 0;
      while i < |files|
        invariant 0 <= i <= |files|
        invariant SurveyOf(files[..i], env) == Survey(found, issues, Pass)
        invariant effects == old(effects) + issues
        invariant rips == old(rips) && ripCount == old(ripCount) && flacCount == old(flacCount)
        invariant config == old(config)
      {
        assert files[..i + 1][..i] == files[..i];
        var f := files[i];
        if f.isDir && f.name != "lost+found" {
          var c := env.convert(f.name);
          if !c.ok {
            SurveyStops(files, env, i + 1);
            return Fail(c.error);
          }
          var tracks := ReadTracks(f.name, env.subdir(f.name), c.disk);
          if tracks.Err? {
            SurveyStops(files, env, i + 1);
            return Fail(tracks.error);
          }
          if tracks.value == [] {
            effects := effects + [MissingTracksIssue(c)];
            issues := issues + [MissingTracksIssue(c)];
          }
          found := found + [Rip(c.id, f.name, tracks.value)];
        }
        i := i + 1;
      }
      assert files[..i] == files;
      SurveyProperties(files, env);
      rips := found;
      return Pass;
    }

    /** convertToMP3: convert the first wav without an mp3 among the rips with the id,
        then rebuild the rip list; fail when no rip with the id has any track. */
    method ConvertToMP3(id: int, env: Env) returns (o: Outcome)
      requires Valid()
      modifies this
      ensures Valid() && config == old(config)
      ensures Step(Snapshot(), o) == ConvertStep(old(Snapshot()), id, false, dirs, env)
    {
      var found := false;
      var i := 0;
      while i < |rips|
        invariant 0 <= i <= |rips|
        invariant Snapshot() == old(Snapshot()) && config == old(config)
        invariant found <==> exists k :: 0 <= k < i && rips[k].id == id && rips[k].tracks != []
        invariant forall k :: 0 <= k < i && rips[k].id == id ==> FirstLacking(rips[k].tracks, false) < 0
      {
        var rip := rips[i];
        if rip.id == id {
          if rip.tracks != [] {
            found := true;
          }
          var j := FindLacking(rip.tracks, false);
          if j >= 0 {
            CandidateAt(rips, id, false, i, j);
            o := ConvertAt(id, false, i, j, env);
            return;
          }
        }
        i := i + 1;
      }
      assert Candidate(rips, id, false).None?;
      if !found {
        return Fail(Failure("Unable to locate rip for " + IntToString(id)));
      }
      return Pass;
    }

    /** convertToFlac: the same for flac files; it never fails. */
    method ConvertToFlac(id: int, env: Env) returns (o: Outcome)
      requires Valid()
      modifies this
      ensures Valid() && config == old(config)
      ensures Step(Snapshot(), o) == ConvertStep(old(Snapshot()), id, true, dirs, env)
    {
      var i := 0;
      while i < |rips|
        invariant 0 <= i <= |rips|
        invariant Snapshot() == old(Snapshot()) && config == old(config)
        invariant forall k :: 0 <= k < i && rips[k].id == id ==> FirstLacking(rips[k].tracks, true) < 0
      {
        var rip := rips[i];
        if rip.id == id {
          var j := FindLacking(rip.tracks, true);
          if j >= 0 {
            CandidateAt(rips, id, true, i, j);
            o := ConvertAt(id, true, i, j, env);
            return;
          }
        }
        i := i + 1;
      }
      assert Candidate(rips, id, true).None?;
      return Pass;
    }

    /** The scan over one rip's tracks: the first track with a wav file but no mp3 (or
        flac) file, or -1. */
    static method FindLacking(tracks: seq<RipTrack>, flac: bool) returns (j: int)
      ensures j == FirstLacking(tracks, flac)
    {
      j := 0;
      while j < |tracks|
        invariant 0 <= j <= |tracks|
        invariant forall k :: 0 <= k < j ==> !Lacks(tracks[k], flac)
      {
        var t := tracks[j];
        if |t.wavPath| > 0 && (if flac then |t.flacPath| == 0 else |t.mp3Path| == 0) {
          return;
        }
        j := j + 1;
      }
      return -1;
    }

    /** Count one conversion and ask the ripper for it. */
    method Count(wav: string, flac: bool)
      requires |wav| >= 3
      modifies this
      ensures rips == old(rips) && config == old(config)
      ensures Snapshot() == Counted(old(Snapshot()), wav, flac, dirs)
    {
      if flac {
        flacCount := flacCount + 1;
      } else {
        ripCount := ripCount + 1;
      }
      effects := effects + [ConversionEffect(wav, flac, dirs)];
    }

    /** The common tail of the two conversions: count the conversion, ask the ripper to
        convert the wav, and rebuild the rip list, ignoring its error but not a panic. */
    method ConvertAt(id: int, flac: bool, i: nat, j: nat, env: Env) returns (o: Outcome)
      requires Valid() && Candidate(rips, id, flac) == Some(Loc(i, j))
      modifies this
      ensures Valid() && config == old(config)
      ensures Step(Snapshot(), o) == ConvertStep(old(Snapshot()), id, flac, dirs, env)
    {
      var wav := rips[i].tracks[j].wavPath;
      assert Lacks(rips[i].tracks[j], flac);
      assert ValidTrack(rips[i].tracks[j], rips[i].path);
      assert |wav| >= 3;
      Count(wav, flac);
      var rebuilt := BuildConfig(env);
      if IsPanic(rebuilt) {
        return rebuilt;
      }
      return Pass;
    }

    /** buildLink: check the ripped file, then run the link and tagging commands. */
    method BuildLink(t: TrackSet, release: Release, env: Env) returns (o: Outcome)
      requires t.tracks != []
      modifies this`effects
      ensures effects == old(effects) + LinkSpec(dirs, release, t, env).effects
      ensures o == LinkSpec(dirs, release, t, env).outcome
    {
      var trackPath := RippedPath(release, t);
      if !env.fileExists(trackPath) {
        return Fail(Failure("Missing Track: " + trackPath));
      }
      var title := GetTitle(t);
      o := RunLinkCommands(t, release, title);
    }

    /** The ripped file buildLink checks and links from. */
    method RippedPath(release: Release, t: TrackSet) returns (path: string)
      ensures path == SourcePath(dirs, release, t)
    {
      var adder := if release.formatQuantity > 1 then "_" + NatToString(t.disk) else "";
      path := dirs.dir + IntToString(release.id) + adder + "/track" + Expand(NatToString(t.position)) + ".cdda.mp3";
    }

    /** The commands of buildLink once the ripped file is known to exist. */
    method RunLinkCommands(t: TrackSet, release: Release, title: string) returns (o: Outcome)
      modifies this`effects
      ensures ArtistLine(release.artists).Err? ==>
        effects == old(effects) + TagCommands(dirs, release, t, title) && o == Fail(ArtistLine(release.artists).error)
      ensures ArtistLine(release.artists).Ok? ==>
        effects == old(effects) + (TagCommands(dirs, release, t, title) + ArtistCommands(dirs, release, t, title, ArtistLine(release.artists).value)) &&
        o == Pass
    {
      var tagged := TagCommands(dirs, release, t, title);
      // The artist line is computed after the first four commands ran; computing it
      // first changes nothing, since it has no effect.
      var artist := ComputeArtist(release.artists);
      if artist.Err? {
        effects := effects + tagged;
        return Fail(artist.error);
      }
      effects := effects + (tagged + ArtistCommands(dirs, release, t, title, artist.value));
      return Pass;
    }

    /** makeLinks: the gate, then either linking the chosen sets or verifying the rip. */
    method MakeLinks(id: int, force: bool, env: Env) returns (o: Outcome)
      requires Valid()
      modifies this
      ensures Valid() && config == old(config)
      ensures Step(Snapshot(), o) == MakeLinksSpec(old(Snapshot()), id, force, dirs, env)
      decreases if force then 0 else 3
    {
      var got := env.getRecord(id);
      if got.Err? {
        return Fail(got.error);
      }
      var record := got.value;
      var release := record.release;
      var goal := record.metadata.goalFolder;
      if goal == 268147 || goal == 1433217 {
        return Pass;
      }
      var matched := false;
      if goal != 242018 && goal != 1782105 && goal != 288751 {
        var i := 0;
        while i < |release.formats|
          invariant 0 <= i <= |release.formats|
          invariant matched <==> exists k :: 0 <= k < i && IsCdFormatName(release.formats[k])
        {
          var name := release.formats[i];
          if name == "File" || name == "CD" || name == "Cdr" {
            matched := true;
          }
          i := i + 1;
        }
      } else {
        matched := true;
      }
      if !matched {
        return Pass;
      }
      if force || record.metadata.cdPath == "" {
        o := LinkRecord(record, env);
        return;
      }
      o := VerifyRecord(record, env);
    }

    /** The linking branch of makeLinks, for a record that passed the gate. */
    method LinkRecord(record: Record, env: Env) returns (o: Outcome)
      requires Valid() && Processable(record)
      modifies this`effects
      ensures Step(Snapshot(), o) == LinkRecordSpec(old(Snapshot()), record, dirs, env)
    {
      var release := record.release;
      ghost var preamble := LinkPreamble(record, dirs);
      if record.metadata.cdPath == "" {
        effects := effects + [UpdateRecord(release.instanceId, dirs.mp3dir + IntToString(release.id))];
      }
      effects := effects + [MakeDir(dirs.mp3dir + IntToString(release.id)), MakeDir(dirs.flacdir + IntToString(release.id))];
      assert effects == old(effects) + preamble;
      var extracted := TrackExtract(release, false);
      if extracted.Err? {
        return Fail(extracted.error);
      }
      var sets := extracted.value;
      var noTracks := HasCdSets(sets);
      var err := LinkSets(sets, noTracks, release, env);
      ghost var links := LinkEach(dirs, release, LinkedSets(sets, noTracks), env).effects;
      AppendAssoc(old(effects), preamble, links);
      if err.Fail? {
        return err;
      }
      var update := UpdateRecord(release.instanceId, dirs.mp3dir + IntToString(release.id));
      effects := effects + [update];
      AppendAssoc(old(effects), preamble + links, [update]);
      return env.updateRecord(release.instanceId);
    }

    /** Whether any set is a CD set (the `noTracks` flag of makeLinks). */
    static method HasCdSets(sets: seq<TrackSet>) returns (any: bool)
      ensures any == AnyCdSet(sets)
    {
      any := false;
      var i := 0;
      while i < |sets|
        invariant 0 <= i <= |sets|
        invariant any <==> AnyCdSet(sets[..i])
      {
        assert sets[..i + 1][..i] == sets[..i];
        if sets[i].format == "CD" || sets[i].format == "CDr" || sets[i].format == "File" {
          any := true;
        }
        i := i + 1;
      }
      assert sets[..i] == sets;
    }

    /** The number of CD sets (the count verifyRecord starts from). */
    static method CountCdSets(sets: seq<TrackSet>) returns (count: nat)
      ensures count == CdSetCount(sets)
    {
      count := 0;
      var i := 0;
      while i < |sets|
        invariant 0 <= i <= |sets|
        invariant count == CdSetCount(sets[..i])
      {
        assert sets[..i + 1][..i] == sets[..i];
        if sets[i].format == "CD" || sets[i].format == "CDr" || sets[i].format == "File" {
          count := count + 1;
        }
        i := i + 1;
      }
      assert sets[..i] == sets;
    }

    /** Link the chosen sets in order, stopping at the first error. */
    method LinkSets(sets: seq<TrackSet>, anyCd: bool, release: Release, env: Env) returns (o: Outcome)
      requires AllNonEmpty(sets)
      modifies this`effects
      ensures effects == old(effects) + LinkEach(dirs, release, LinkedSets(sets, anyCd), env).effects
      ensures o == LinkEach(dirs, release, LinkedSets(sets, anyCd), env).outcome
    {
      var i := 0;
      ghost var done: seq<Effect> := [];
      while i < |sets|
        invariant 0 <= i <= |sets|
        invariant effects == old(effects) + done
        invariant LinkEach(dirs, release, LinkedSets(sets[..i], anyCd), env) == Emitted(done, Pass)
      {
        var err;
        err, done := LinkOne(sets, i, anyCd, release, env, old(effects), done);
        if err.Fail? {
          return err;
        }
        i := i + 1;
      }
      LinkPrefixAll(dirs, release, sets, anyCd, env);
      return Pass;
    }

    /** One turn of makeLinks' loop over the sets: link the i-th set when it is chosen.
        A failure is the result of linking all the sets. */
    method LinkOne(sets: seq<TrackSet>, i: nat, anyCd: bool, release: Release, env: Env,
                   ghost start: seq<Effect>, ghost done: seq<Effect>)
      returns (o: Outcome, ghost done': seq<Effect>)
      requires i < |sets| && sets[i].tracks != []
      requires effects == start + done
      requires LinkEach(dirs, release, LinkedSets(sets[..i], anyCd), env) == Emitted(done, Pass)
      modifies this`effects
      ensures effects == start + done'
      ensures LinkEach(dirs, release, LinkedSets(sets[..i + 1], anyCd), env) == Emitted(done', o)
      ensures o.Fail? ==> LinkEach(dirs, release, LinkedSets(sets, anyCd), env) == Emitted(done', o)
    {
      var t := sets[i];
      LinkPrefixStep(dirs, release, sets, i, anyCd, env);
      if t.format == "CD" || t.format == "CDr" || t.format == "File" || !anyCd {
        o := BuildLink(t, release, env);
        ghost var added := LinkSpec(dirs, release, t, env).effects;
        AppendAssoc(start, done, added);
        done' := done + added;
        if o.Fail? {
          LinkPrefixStops(dirs, release, sets, i + 1, anyCd, env);
        }
      } else {
        o := Pass;
        done' := done;
      }
    }

    /** The repair verifyRecord attempts: rebuild the rip list, then convert one missing
        mp3 and one missing flac of the release; ordinary errors are only logged, and a
        panic propagates. */
    method Repair(release: Release, env: Env) returns (o: Outcome)
      requires Valid()
      modifies this
      ensures Valid() && config == old(config)
      ensures Step(Snapshot(), o) == Reconvert(old(Snapshot()), release, dirs, env)
    {
      o := BuildConfig(env);
      if IsPanic(o) {
        return;
      }
      o := ConvertToMP3(release.id, env);
      if IsPanic(o) {
        return;
      }
      ghost var st := Snapshot();
      o := ConvertToFlac(release.id, env);
      ConvertProperties(st, release.id, true, dirs, env);
    }

    /** The number of files verifyRecord expects on the CD path: the CD sets, or all the
        sets when there are none. */
    static method ExpectedFiles(release: Release) returns (r: Result<nat>)
      ensures Extract(release, false).Err? ==> r == Err(Extract(release, false).error)
      ensures Extract(release, false).Ok? ==> r == Ok(ExpectedCount(Extract(release, false).value))
    {
      var extracted := TrackExtract(release, false);
      if extracted.Err? {
        return Err(extracted.error);
      }
      var sets := extracted.value;
      var count := CountCdSets(sets);
      if count == 0 {
        count := |sets|;
      }
      return Ok(count);
    }

    /** verifyRecord: compare the CD path's listing with the expected count, try to repair
        a mismatch, and report data loss when it persists. */
    method VerifyRecord(record: Record, env: Env) returns (o: Outcome)
      requires Valid()
      modifies this
      ensures Valid() && config == old(config)
      ensures Step(Snapshot(), o) == VerifySpec(old(Snapshot()), record, dirs, env)
      decreases 2
    {
      var release := record.release;
      var cdPath := record.metadata.cdPath;
      if cdPath == "" {
        effects := effects + [MissingMp3Issue(release)];
      }
      var files := env.firstRead(cdPath);
      var expected := ExpectedFiles(release);
      if expected.Err? {
        return Fail(expected.error);
      }
      var count := expected.value;
      if ListedCount(files) != count || files.None? {
        o := Recheck(release, cdPath, count, env);
        return;
      }
      return Pass;
    }

    /** The mismatch branch of verifyRecord: repair, list again, and on a persisting
        mismatch ask for a rip, force the links and report data loss. */
    method Recheck(release: Release, cdPath: string, count: nat, env: Env) returns (o: Outcome)
      requires Valid()
      modifies this
      ensures Valid() && config == old(config)
      ensures Step(Snapshot(), o) == RecheckSpec(old(Snapshot()), release, cdPath, count, dirs, env)
      decreases 1
    {
      var second := env.secondRead(cdPath);
      var err := Repair(release, env);
      if IsPanic(err) {
        return err;
      }
      if ListedCount(second) != count || err.Fail? {
        effects := effects + [RipNeededIssue(release)];
        var linked := MakeLinks(release.instanceId, true, env);
        if IsPanic(linked) {
          return linked;
        }
        return DataLossError(ListedCount(second), count);
      }
      return Pass;
    }

    /** verify: look the record up, then verify it. */
    method Verify(id: int, env: Env) returns (o: Outcome)
      requires Valid()
      modifies this
      ensures Valid() && config == old(config)
      ensures env.getRecord(id).Err? ==> o == Fail(env.getRecord(id).error) && Snapshot() == old(Snapshot())
      ensures env.getRecord(id).Ok? ==>
        Step(Snapshot(), o) == VerifySpec(old(Snapshot()), env.getRecord(id).value, dirs, env)
    {
      var got := env.getRecord(id);
      if got.Err? {
        return Fail(got.error);
      }
      o := VerifyRecord(got.value, env);
    }
  }
}
