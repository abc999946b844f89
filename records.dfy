/** The records the server keeps and exchanges: rips found on disk, catalogue records,
    the persisted configuration, the outward effects it performs, and the collaborators
    it consults, given as an environment of functions. */
module Records {
  import opened Wrappers
  import opened RecordUtils

  /** One track of a rip: the wav, mp3 and flac files found for it ("" when absent). */
  datatype RipTrack = RipTrack(trackNumber: int, disk: int, wavPath: string, mp3Path: string, flacPath: string)

  /** One rip directory: the release id parsed from its name, the name, and its tracks. */
  datatype Rip = Rip(id: int, path: string, tracks: seq<RipTrack>)

  /** A directory entry as the listing reports it. */
  datatype DirEntry = DirEntry(name: string, isDir: bool)

  /** What the directory-name converter returns: an id, a disk, whether it succeeded, and
      the error it reports when it did not. */
  datatype Conversion = Conversion(id: int, disk: int, ok: bool, error: Error)

  datatype Metadata = Metadata(cdPath: string, goalFolder: int)

  /** A collection record: the release and the metadata this core reads. */
  datatype Record = Record(release: Release, metadata: Metadata)

  /** The persisted configuration. */
  datatype Config = Config(
    toGo: seq<int>,
    issueMapping: map<int, int>,
    lastRipTime: map<int, int>,
    goalFolder: map<int, int>)

  /** The three base directories: the rips, the mp3 links and the flac links. */
  datatype Dirs = Dirs(dir: string, mp3dir: string, flacdir: string)

  /** The collaborators. Reads of the file system see one fixed state: files the ripper
      writes do not show up in later listings. A listing that fails is `None`. Loading
      and saving the configuration either succeed or fail with the given error. */
  datatype Env = Env(
    getRecord: int -> Result<Record>,
    updateRecord: int -> Outcome,
    fileExists: string -> bool,
    firstRead: string -> Option<nat>,
    secondRead: string -> Option<nat>,
    rootListing: Result<seq<DirEntry>>,
    subdir: string -> seq<DirEntry>,
    convert: string -> Conversion,
    load: Outcome,
    save: Outcome)

  /** The tag fields buildLink sets with mp3info: `-n`, `-t`, `-l` and `-a`. */
  datatype Mp3Field = Mp3Track | Mp3Title | Mp3Album | Mp3Artist

  /** The tags buildLink sets with metaflac. */
  datatype FlacField = FlacArtist | FlacTrackNumber | FlacDiscNumber | FlacTitle | FlacAlbum

  /** The external commands buildLink runs. */
  datatype Command =
    | Symlink(source: string, link: string)
    | Mp3Info(field: Mp3Field, value: string, file: string)
    | DiscFrame(value: string, file: string)
    | FlacTag(tag: FlacField, value: string, file: string)

  /** The argument vector each command is run with. */
  function Argv(c: Command): (r: seq<string>)
    ensures |r| == (if c.Symlink? || c.Mp3Info? then 4 else 3)
  {
    match c
    case Symlink(source, link) => ["ln", "-s", source, link]
    case Mp3Info(field, value, file) =>
      var flag := match field
        case Mp3Track => "-n"
        case Mp3Title => "-t"
        case Mp3Album => "-l"
        case Mp3Artist => "-a";
      ["mp3info", flag, value, file]
    case DiscFrame(value, file) => ["eyeD3", "--set-text-frame=TPOS:\"" + value + "\"", file]
    case FlacTag(tag, value, file) =>
      var name := match tag
        case FlacArtist => "artist"
        case FlacTrackNumber => "tracknumber"
        case FlacDiscNumber => "discnumber"
        case FlacTitle => "title"
        case FlacAlbum => "album";
      ["metaflac", "--set-tag=" + name + "=" + value, file]
  }

  /** The outward actions, in the order they are performed. */
  datatype Effect =
    | RaiseIssue(title: string, body: string)
    | UpdateRecord(instanceId: int, cdPath: string)
    | MakeDir(path: string)
    | RipToMp3(source: string, target: string)
    | RipToFlac(source: string, target: string)
    | Run(command: Command)

  /** The part of the server state that the reconciliation code changes. */
  datatype State = State(rips: seq<Rip>, ripCount: nat, flacCount: nat, effects: seq<Effect>)

  /** A new state and the error a call returns. */
  datatype Step = Step(state: State, outcome: Outcome)

  /** The effects a call performs and the error it returns. */
  datatype Emitted = Emitted(effects: seq<Effect>, outcome: Outcome)

  predicate IsPanic(o: Outcome) { o.Fail? && o.error.Panic? }
}
