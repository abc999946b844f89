# cdprocessor, modelled in Dafny

cdprocessor is a Go service that looks after a music collection's ripped CDs. It:

- scans the rip directories on disk and records which tracks have wav, mp3 and flac files;
- converts wav rips to mp3 and flac through a ripper;
- links ripped tracks into the mp3 and flac trees and tags them;
- checks that a record's rip holds as many files as the record's tracklist needs;
- keeps a persisted list of instance ids whose links still have to be made.

At its centre is a segmenter that turns a catalogue release's nested, free-form tracklist into one `TrackSet` per audio file. This project models four parts of the service:

- the segmenter;
- the reconciliation logic around it;
- the request handlers that keep the pending list;
- the parser that recovers a release id from a rip directory's name.

The properties each part promises are proved about the model.

Modules (one concept per module, following the Go files):

| module | file | models |
|---|---|---|
| `Wrappers` | wrappers.dfy | `Option`, `Result`, `Outcome`. A Go `error` is an `Outcome`, and a Go runtime panic is the error `Panic`. |
| `Text` | text.dfy | Byte-level string helpers: the character classes that replace the regular expressions, `strings.HasPrefix`/`Index`/`Join`, `strconv.Atoi` and `fmt.Sprintf("%v")` on integers. |
| `RecordUtils` | recordutils.dfy | recordutils.go: position classification, `shouldMerge`, `flatten`, `TrackExtract` (emission walk, merge fixpoint, renumbering) and `GetTitle`. |
| `DirNames` | dirnames.dfy | `prodIo.convert` of cdprocessor.go. |
| `Records` | records.dfy | The data the server handles: rips, records, the persisted configuration, the outward effects, and the collaborators (`Env`). |
| `Reconcile` | reconcile.dfy | cdprocessorutils.go as pure specification functions over an explicit `State`, with the lemmas about them. |
| `Service` | server.dfy | `class Server`. Its fields are the rips, the two conversion counters, the effect log and the configuration. Each method is a loop-and-field version of the Go method, proved to leave exactly the state its `Reconcile` function describes. |
| `Api` | api.dfy | cdprocessorapi.go: `ClientUpdate`, `GetMissing`, `GetRipped`, `Force`, `GetOutstanding` and `updateMetrics`. |

Collaborators are modelled as follows:

- The record store, the file-existence test, the directory listings, the name converter, and loading and saving the configuration are the function fields of `Records.Env`.
- Everything the service does to the outside world is appended, in order, to the server's `effects` log. That covers raising an issue, updating a record, creating a directory, asking the ripper for a conversion, and running `ln`, `mp3info`, `eyeD3` and `metaflac` with their exact arguments.

The source revisions disagree in three places; the model follows the function definitions:

- `TrackExtract` is defined with a `tape` flag, but callers pass only the release. Those callers are modelled with `tape = false`.
- `buildConfig` expects a converter returning `(id, disk, err)`, while `prodIo.convert` returns `(id, err)`. `buildConfig` therefore takes the converter as `Env.convert`, and `prodIo.convert` is modelled on its own in `DirNames`.
- `makeLinks` is defined with three parameters but called with four. The fourth argument is ignored.

## Model

| member | source | states |
|---|---|---|
| RecordUtils.GetDisk | recordutils.go:21-34 | Sides come in letter pairs: first byte A–J gives disk (letter − 'A') / 2 + 1, i.e. 1 for A/B up to 5 for I/J; every other first byte gives 1. |
| RecordUtils.GetFormatAndDisk | recordutils.go:36-91 | The format is always one of the known format names; "Unknown" always comes with disk −1; the only failure is a panic, and it happens only for a dashed position whose second segment is empty, which getDisk cannot index. The value each rule gives is stated by the rule lemmas below. |
| RecordUtils.SideTokenIsVinyl | recordutils.go:37-40 | A position that is one capital letter followed by digits is Vinyl, with getDisk's disk (the first rule wins). |
| RecordUtils.CdPrefixRule | recordutils.go:42-48 | A position starting with "CD" and longer than two characters is a CD. Its disk is Atoi of the text between "CD" and the first dash, or 0 when that is not a number. No side token starts with "CD", so no earlier rule applies. |
| RecordUtils.DvdPrefixIsDvd | recordutils.go:50-57 | Every position starting with "DVD" is a DVD. Its disk is Atoi of the text between "DVD" and the first dash. |
| RecordUtils.BrPrefixRule | recordutils.go:59-66 | A position starting with "BR" and longer than two characters is a Blu-ray. Its disk is Atoi of the text between "BR" and the first dash. The side-token, CD and DVD rules never apply to it. |
| RecordUtils.DigitDashRule | recordutils.go:68-74 | A dashed position whose first segment starts with a digit and has no inch mark is a CD, with Atoi of that segment as its disk. |
| RecordUtils.InchRule | recordutils.go:76-82 | A dashed position whose first segment starts with 7" or 5" is Vinyl. Its disk is Atoi of the rest of the segment, or −1 when nothing follows the inch mark. |
| RecordUtils.VinylWordRule | recordutils.go:84-87 | A dashed position whose first segment is "Vinyl", or starts with "LP" or "4.72" without being caught by the digit rule, is Vinyl with getDisk of the second segment. When the second segment is empty, getDisk panics. |
| RecordUtils.FourSevenTwoIsCd | recordutils.go:68-87 | Precedence: a "4.72" first segment without an inch mark meets the digit rule first. It is therefore a CD with disk 0, because "4.72" does not parse as an integer. |
| RecordUtils.PanicsExactly | recordutils.go:84-87 | Classification fails exactly when the vinyl-word rule is reached and the second segment is empty. This is the converse of the failure clause of GetFormatAndDisk. |
| RecordUtils.UnknownExactly | recordutils.go:36-91 | "Unknown" is returned exactly when none of the seven rules applies. |
| RecordUtils.CdOrigin | recordutils.go:42-74 | A position classified as CD either starts with "CD" or contains a dash and starts with a digit. |
| RecordUtils.ShouldMerge | recordutils.go:93-124 | Merge exactly when rule (a) both start lower-case, (b) both are digit+capital with the same digit, (c) the letter guard holds and the last positions end in successive letters, or (d) the pre-dot segments agree under the dash condition. Returns None (a panic) exactly when rules (a) and (b) fail, rule (c)'s guard holds, and a last position is empty, so its last-character index is out of range. |
| RecordUtils.FlattenLength | recordutils.go:126-133 | The flattened tracklist has exactly one entry per node of the tree. |
| RecordUtils.FlattenConcat | recordutils.go:126-133 | Flattening distributes over concatenation of tracklists. |
| RecordUtils.FlattenAt | recordutils.go:126-133 | Pre-order: each node is immediately followed by its own flattened sub-tracks, between the flattening of the nodes before and after it. |
| RecordUtils.FlattenOfLeaves | recordutils.go:126-133 | A tracklist with no sub-tracks flattens to itself. |
| RecordUtils.BaseFormatIsLastNonWrapper | recordutils.go:158-166 | The base format is the last format name that is not "Box Set"/"All Media", with "CDr" read as "CD", and "" when every name is a wrapper. |
| RecordUtils.BaseFormat | recordutils.go:158-166 | The loop computes exactly that base format. |
| RecordUtils.WalkAllWell | recordutils.go:168-192 | After the emission walk the sets are backed exactly by the TRACK-kind, non-Video/DVD/BD/BR nodes in order, one per set; positions are 1, 2, …; disk labels are positive and never decrease; each set's format is its position's format with "Unknown" replaced by the base format; the walk fails only by a panic. How the labels are assigned is stated by WalkAllDisks. |
| RecordUtils.WalkAllDisks | recordutils.go:172-192 | The walk's disk counter equals Transitions, an independent count. Transitions counts the TRACK nodes, excluded Video/DVD/BD/BR nodes included, whose effective format or classified disk differs from the previous TRACK node's. The walk's (currFormat, readDisk) is the last TRACK node's pair. The emitted labels are EmittedDisks: each emitted node gets the count up to and including itself. |
| RecordUtils.WalkDisksFrom | recordutils.go:186-190 | Each emitted set carries the EmittedDisks label of its track. |
| RecordUtils.ExcludedNodeCountsAsDisk | recordutils.go:173-190 | For a Vinyl tracklist "A1", "Video", "B1", the emitted labels are 1 and 3: the unemitted video node still counts as two transitions. |
| RecordUtils.WalkErrStays | recordutils.go:172-192 | Once the walk panics, later tracks change nothing. |
| RecordUtils.EmitSets | recordutils.go:168-192 | The emission loop, with its running format/disk/track counters, returns exactly the walk's sets or its panic. |
| RecordUtils.MergePairProperties | recordutils.go:199-205 | One merge step keeps every set non-empty, shortens the list by one, keeps the concatenation of backing tracks, and keeps disk labels non-decreasing. |
| RecordUtils.FirstMerge | recordutils.go:198-206 | The scan finds the first adjacent pair that should merge, and when it finds none, every adjacent pair was checked and answered "no". |
| RecordUtils.MergeFix | recordutils.go:194-208 | The merge loop ends in a fixpoint where no adjacent pair merges, with the same backing tracks, no more sets, a non-empty result for non-empty input, and disk labels still non-decreasing; it fails only by a panic. |
| RecordUtils.MergeSets | recordutils.go:194-208 | The in-loop splicing computes exactly that fixpoint. |
| RecordUtils.MergePairDisksFrom | recordutils.go:199-205 | A merge step keeps each surviving set's label equal to the label of its first backing track. |
| RecordUtils.MergeFixDisksFrom | recordutils.go:194-208 | So does the whole merge fixpoint. The surviving labels are therefore the labels of the surviving first tracks. |
| RecordUtils.MergePairFormats | recordutils.go:199-205 | A merge step keeps each set's format equal to its first position's format, with "Unknown" read as the base format: the grown set keeps its own format and first track. |
| RecordUtils.MergeFixFormats | recordutils.go:194-208 | So does the whole merge fixpoint. |
| RecordUtils.RunNumberInRun | recordutils.go:210-220 | Within a run of equal disks starting at s, the i-th set is numbered i − s + 1. |
| RecordUtils.RunNumberCountsDisk | recordutils.go:210-220 | With non-decreasing disks, a set's number is one more than the number of earlier sets on its disk. |
| RecordUtils.Renumber | recordutils.go:210-220 | The renumbering loop computes the run numbering. |
| RecordUtils.RenumberedKeepsTracks | recordutils.go:210-220 | Renumbering changes only positions: tracks, disks, backing and the merge fixpoint are kept. |
| RecordUtils.RenumberedDisksFrom | recordutils.go:210-220 | Renumbering keeps each set's label equal to the label of its first backing track. |
| RecordUtils.RenumberedFormats | recordutils.go:210-220 | Renumbering keeps each set's format equal to its first position's format. |
| RecordUtils.ExtractProperties | recordutils.go:136-222 | A successful extraction is non-empty, backed exactly by the emittable tracks of the flattened tracklist in order, and a merge fixpoint. Its disks never decrease. Each set's disk is the EmittedDisks label of its first backing track: the number of format or disk transitions among TRACK nodes, excluded ones included, up to that track. Each set's format is the format of its first position, with "Unknown" replaced by the release's base format. Each position is one more than the number of earlier sets on its disk. Failures are panics. |
| RecordUtils.TrackExtract | recordutils.go:136-222 | The method equals the specification. With `tape` it returns the two fixed "Side A"/"Side B" tape sets. Otherwise its result has every property of ExtractProperties, including disk labels counted from format and disk transitions and formats taken from each set's first position. It fails only by a panic. |
| RecordUtils.Titles | recordutils.go:225-231 | The titles of the backing tracks, one per track, in order. |
| RecordUtils.GetTitle | recordutils.go:225-231 | The loop returns the backing titles joined with " / ". |
| RecordUtils.MergedTitle | recordutils.go:199-201 | Merging two sets makes the title of the merged set the two titles joined with " / ". |
| RecordUtils.SevenInchSidesMerge | recordutils_test.go:13-33 | A 7" release with sides "1A" and "1B" extracts to one set whose title is "Hello / There". |
| RecordUtils.VideoPositionDropped | recordutils_test.go:35-55 | A "Video" position is not emitted, leaving one set backed by the "Hello" track. |
| RecordUtils.VinylVideoExtract | recordutils.go:136-222 | A Vinyl release with tracks "A1", "Video", "B1" extracts to "A1" on disk 1 and "B1" on disk 3, each at position 1. The output has no disk 2. |
| DirNames.ToInt32 | cdprocessor.go:94 | Go's int32 conversion: the result is in the int32 range, congruent to the input modulo 2^32, and equal to it when it already fits. |
| DirNames.IdPart | cdprocessor.go:89-90 | The id text is the longest prefix without '_', the whole name when it has no '_'. |
| DirNames.Convert | cdprocessor.go:88-102 | It succeeds exactly when the id text parses; a failure gives −1; a success gives the parsed value truncated to 32 bits. |
| DirNames.ConvertIgnoresSuffix | cdprocessor.go:89-95 | Everything after the first '_' is ignored. |
| DirNames.ConvertRoundTrip | cdprocessor.go:88-102 | The decimal rendering of any id in the int32 range converts back to it, bare or followed by '_' and any suffix. |
| Text.AtoiOfNatToString | cdprocessor.go:97-101 | strconv.Atoi of the decimal rendering of any int64-range number gives that number without error. |
| Reconcile.Expand | cdprocessorutils.go:117-122 | The result ends with the input and is two characters long for one-character input, otherwise unchanged in length. |
| Reconcile.ExpandTwoDigits | cdprocessorutils.go:117-122 | Every track number 0–99 expands to exactly two digits with the same value. |
| Reconcile.TrailingIsJoin | cdprocessorutils.go:124-131 | The accumulated text is the names joined with ", " plus one trailing ", ". |
| Reconcile.ArtistLine | cdprocessorutils.go:124-131 | With no artists computeArtist panics; otherwise it is the accumulated text minus the last two characters. |
| Reconcile.ComputeArtist | cdprocessorutils.go:124-131 | The loop returns the names joined with ", " with no trailing separator, or the panic for no artists. |
| Reconcile.LastWithNumber | cdprocessorutils.go:301-306 | The index of the last track with the number, or −1 when no track has it. |
| Reconcile.AddFileValid | cdprocessorutils.go:297-318 | Adding a file keeps each track number unique in the rip and each path inside the rip directory with its extension; it fails (a panic) exactly for names shorter than seven bytes. |
| Reconcile.TracksOfValid | cdprocessorutils.go:295-320 | A directory's tracks are valid for it; only a panic stops the reading. |
| Reconcile.SurveyProperties | cdprocessorutils.go:285-327 | A completed survey's rips are exactly the directories other than lost+found, in listing order, each with the converter's id and the tracks of its listing; one "Missing Tracks" issue per rip with no tracks. |
| Reconcile.BuildConfigStep | cdprocessorutils.go:279-331 | buildConfig keeps the rip invariant, only appends effects, never touches the counters, and on any error leaves the rip list unchanged. |
| Reconcile.FirstLacking | cdprocessorutils.go:239 | The index of the first track with a wav and no mp3 (or flac), or −1 when there is none. |
| Reconcile.Candidate | cdprocessorutils.go:234-239 | The converted track is, in rip order, the first rip with the id that has a lacking track, and its first lacking track; None when no rip with the id has one. |
| Reconcile.Converted | cdprocessorutils.go:241 | The output path is the wav path with its last three characters replaced by the extension. |
| Reconcile.Counted | cdprocessorutils.go:240-241 | Requesting a conversion bumps exactly one counter by one and logs the ripper call. |
| Reconcile.ConvertStep | cdprocessorutils.go:232-277 | A conversion keeps the rip invariant and only appends effects. |
| Reconcile.ConvertProperties | cdprocessorutils.go:232-277 | A conversion converts at most one track, counts it in its own counter only, and returns an ordinary error only for an mp3 conversion of an id with no tracked rip; convertToFlac never does. |
| Reconcile.CdSetCountPositive | cdprocessorutils.go:179-184 | The CD-set count is positive exactly when some set is CD, CDr or File. |
| Reconcile.LinkedSetsCount | cdprocessorutils.go:185-192 | makeLinks links the CD sets when there are any, otherwise all sets. |
| Reconcile.ExpectedCountIsLinked | cdprocessorutils.go:70-81 | verifyRecord expects exactly as many files as makeLinks links. |
| Reconcile.LinkSpec | cdprocessorutils.go:200-230 | A successful link runs twelve commands; a failed one runs fewer. |
| Reconcile.LinkSpecPasses | cdprocessorutils.go:200-230 | A set links exactly when its ripped source file exists and the release has artists; it panics exactly when the file exists and there are no artists. |
| Reconcile.LinkEachProperties | cdprocessorutils.go:185-192 | Linking a list succeeds exactly when every source file exists and the release has artists (if anything is linked); it then runs twelve commands per set. |
| Reconcile.Reconvert | cdprocessorutils.go:86-104 | The repair keeps the rip invariant, only appends effects, and returns success or a panic: the errors of buildConfig and the conversions are ignored. |
| Reconcile.VerifySpec | cdprocessorutils.go:62-115 | verifyRecord keeps the rip invariant and only appends effects. |
| Reconcile.RecheckSpec | cdprocessorutils.go:85-112 | The mismatch branch keeps the rip invariant and only appends effects. |
| Reconcile.VerifyOutcomes | cdprocessorutils.go:62-115 | verifyRecord returns only success, a panic or data loss; data loss exactly when the tracklist extracted, nothing panicked, and neither listing of the CD path had the expected count. |
| Reconcile.VerifyCountMatches | cdprocessorutils.go:79-85 | A matching first listing succeeds without converting anything: rips and counters untouched, at most the missing-CD-path issue raised. |
| Reconcile.LinkRecordSpec | cdprocessorutils.go:166-195 | Linking never touches the rips or counters and only appends effects. |
| Reconcile.MakeLinksSpec | cdprocessorutils.go:133-198 | makeLinks keeps the rip invariant and only appends effects. |
| Reconcile.MakeLinksGate | cdprocessorutils.go:133-164 | A lookup error is returned unchanged; a digital goal folder, or a record that is neither in a CD folder nor has a File/CD/Cdr format, is left alone with success. |
| Reconcile.MakeLinksLinked | cdprocessorutils.go:166-195 | On the linking path the rips and counters are untouched; success means the tracklist extracted, every linked source exists, the record update succeeded, and exactly twelve commands per expected file ran between the preamble and the final update. |
| Service.Server.FindMissing | cdprocessorutils.go:29-50 | A master error is returned; otherwise the first master rip whose id has no local rip, with every earlier master id present locally, or none when every master id is present. |
| Service.Server.ReadTracks | cdprocessorutils.go:295-320 | The file loop of buildConfig computes exactly the tracks of the listing. |
| Service.Server.FindNumber | cdprocessorutils.go:301-306 | The search loop finds the last track with the number. |
| Service.Server.BuildConfig | cdprocessorutils.go:279-331 | The method leaves exactly the state and error of the specification, and keeps the rip invariant. |
| Service.Server.ConvertToMP3 | cdprocessorutils.go:232-253 | As the specification of convertToMP3, keeping the rip invariant. |
| Service.Server.ConvertToFlac | cdprocessorutils.go:255-277 | As the specification of convertToFlac, keeping the rip invariant. |
| Service.Server.FindLacking | cdprocessorutils.go:235-239 | The track loop finds the first lacking track. |
| Service.Server.ConvertAt | cdprocessorutils.go:239-243 | Converting the candidate is the conversion's specification. |
| Service.Server.BuildLink | cdprocessorutils.go:200-230 | The commands run and the error returned are exactly buildLink's specification. |
| Service.Server.RippedPath | cdprocessorutils.go:202-207 | The source path: dir, id, "_disk" for multi-disc releases, "/track", the expanded position, ".cdda.mp3". |
| Service.Server.RunLinkCommands | cdprocessorutils.go:213-229 | The four tag commands, then either the panic for no artists or the eight artist commands. |
| Service.Server.HasCdSets | cdprocessorutils.go:179-184 | The flag loop decides whether any set is CD, CDr or File. |
| Service.Server.CountCdSets | cdprocessorutils.go:70-76 | The counter loop counts the CD sets. |
| Service.Server.LinkSets | cdprocessorutils.go:185-192 | The link loop, stopping at the first error, performs exactly the specification of linking the chosen sets. |
| Service.Server.LinkRecord | cdprocessorutils.go:166-195 | The linking branch leaves exactly the specification's effects and result. |
| Service.Server.MakeLinks | cdprocessorutils.go:133-198 | As the specification of makeLinks, keeping the rip invariant. |
| Service.Server.Repair | cdprocessorutils.go:86-104 | The repair calls leave exactly the specification's state. |
| Service.Server.ExpectedFiles | cdprocessorutils.go:70-81 | The expected file count: the CD sets, or all sets when there are none; the extraction's panic otherwise. |
| Service.Server.VerifyRecord | cdprocessorutils.go:62-115 | As the specification of verifyRecord, keeping the rip invariant. |
| Service.Server.Recheck | cdprocessorutils.go:85-112 | As the specification of the mismatch branch. |
| Service.Server.Verify | cdprocessorutils.go:53-60 | A lookup error is returned with nothing changed; otherwise the record is verified. |
| Api.WithoutCounts | cdprocessorapi.go:84-90 | Removing an id drops every occurrence and keeps every other id as often as before. |
| Api.WithoutConcat | cdprocessorapi.go:84-90 | Removal commutes with concatenation, so the remaining ids keep their order. |
| Api.PendingAfterCounts | cdprocessorapi.go:82-109 | After a successful link the id is gone; after a failed one it is there as often as before, or once; every other id keeps its count. |
| Api.ClientUpdateSpec | cdprocessorapi.go:73-112 | A client update keeps the rip invariant and only appends effects. |
| Api.ClientUpdateProperties | cdprocessorapi.go:73-112 | Only the pending list may change, to the PendingAfter list or not at all, and it does change whenever loading, a panic-free link and saving succeed; the call succeeds exactly when loading, linking and saving succeed. |
| Api.ClientUpdate | cdprocessorapi.go:73-112 | The handler leaves exactly the specification's state, configuration and result. |
| Api.MinIsLeast | cdprocessorapi.go:42-48 | The minimum of the pending list is in it and no larger than any element. |
| Api.GetMissing | cdprocessorapi.go:36-55 | A load error is returned; an empty pending list gives none; otherwise the record of the smallest pending id, or the lookup error. |
| Api.GetRipped | cdprocessorapi.go:31-33 | The current rip list. |
| Api.Force | cdprocessorapi.go:58-70 | A load error is returned with nothing changed; RECREATE_LINKS is makeLinks with force; any other kind is the "Unknow force request" error with nothing changed. |
| Api.ValuesCount | cdprocessorapi.go:120-123 | The multiset of issue values holds each value once per key mapped to it. |
| Api.ValuesSize | cdprocessorapi.go:120-123 | It holds one value per key. |
| Api.GetOutstanding | cdprocessorapi.go:114-126 | A load error is returned; otherwise exactly the multiset of issue-mapping values. |
| Api.RecentAmongAdd | cdprocessorapi.go:18-25 | Visiting one more key adds one to the count exactly when that key counts. |
| Api.UpdateMetrics | cdprocessorapi.go:15-28 | The count is the number of keys with a rip time less than 18 hours before `now` and a goal folder that is present and not 1782105. |

## Left out

- Logging, `time.Sleep`, the timing measurements, the prometheus gauges and the `hack` mutex are left out. They carry no logic; the handlers are modelled as sequential calls.
- The directory reads, the record store, issue raising, the ripper, `os.MkdirAll` and the command runner are collaborators.
  - Reads and lookups are functions in `Env`.
  - Actions are entries of the effect log; their own effects on the world are not modelled.
- The file system is seen in one fixed state. Files the ripper writes do not appear in later listings.
  - The first and second listings of verifyRecord are separate `Env` functions.
  - The root listing used by buildConfig is one `Env` value.
- Loading and saving the configuration is the server's `config` field. Either call can fail as `Env.load`/`Env.save` say, and a successful save replaces the field.
- `adjustExisting`, `logMissing`, `Mote`, `GetState`, `main`, `Init`, `prodGh.recordMissing`, `prodRc.get` and `prodIo.readDir` are not modelled: they only dial services or read the disk.
- The protobuf stubs and the command-line clients are not part of this model.
- The regular-expression engine is not modelled. Each pattern is a predicate on ASCII characters, as Go's byte-indexed matching reads them.
- Error messages keep their fixed text but not the `%v`/`%+v` dumps of records and tracks.
- Pointer aliasing between TrackSets is not modelled. TrackExtract creates its sets itself and never shares them, so `TrackSet` is a value.
- Positions and disks are kept as counters and rendered with `fmt.Sprintf("%v")` where a path or tag is built. Rendering is injective, so comparing counters is comparing the strings.
- Service.Server.MakeLinks: the configuration argument the API passes as a fourth parameter is ignored, as the three-parameter definition has no use for it.
- Api.GetMissing: the in-place sort of the loaded pending list is modelled by its only observable effect, the choice of the smallest id. The sorted copy is never saved.
- Api.UpdateMetrics: `now` is a parameter in nanoseconds. Saturation of `time.Since` at the limits of a 64-bit duration is not modelled. The gauge is not set; the method returns the count.
- Text.Atoi: only base-10 `strconv.Atoi` on a 64-bit platform is modelled, and its error is a flag.
