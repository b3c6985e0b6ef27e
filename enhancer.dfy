/**
 * audio_enhancer.py: input discovery that exits on bad input, the four-stage
 * pipeline (convert, normalize loudness, DeepFilterNet enhance, encode MP3) with
 * its artifact names, the batch loop, working-directory handling and the session loop.
 * Every library call is an abstract stage outcome (`StageResults`); a stage also
 * fails when the working directory it writes into does not exist.
 */
module Enhancer {
  import opened Wrappers
  import opened Paths
  import opened Discovery
  import opened WorkingDirs
  import opened Sessions

  const OutputDir := "Mastered_Audio_Output"
  const TempDir := "Temp_Conversion_Cache"
  const IntermediateDir := "Intermediate_Loudness_Norm"

  // ---------------------------------------------------------------- discovery

  /** `get_input_files`: EOF and a freshly created default folder exit with 0, a bad path with 1. */
  function Discover(line: Option<string>, cwd: string, fs: FileSystem): Discovered {
    match line
    case None => Discovered(Exit(0), false)
    case Some(raw) =>
      var path := CleanInput(raw);
      if path == [] then ScanDefault(cwd, fs) else ScanTyped(path, fs)
  }

  /** An empty answer: `./Source_Audio` is listed, or created and the script exits. */
  function ScanDefault(cwd: string, fs: FileSystem): Discovered {
    var target := Join(cwd, DefaultInputFolder);
    match fs(target)
    case Missing => Discovered(Exit(0), true)
    case Directory(entries) => Discovered(Found(SupportedIn(target, entries)), false)
    case _ => Discovered(Raised, false)
  }

  /** A typed path: a folder is listed, a supported file queued, anything else exits with 1. */
  function ScanTyped(path: string, fs: FileSystem): Discovered {
    match fs(path)
    case Directory(entries) => Discovered(Found(SupportedIn(path, entries)), false)
    case RegularFile =>
      if HasSupportedExtension(path) then Discovered(Found([path]), false)
      else Discovered(Exit(1), false)
    case _ => Discovered(Exit(1), false)
  }

  method ScanDefaultFolder(cwd: string, fs: FileSystem) returns (d: Discovered)
    ensures d == ScanDefault(cwd, fs)
  {
    var targetDir := Join(cwd, DefaultInputFolder);
    var kind := fs(targetDir);
    if kind == Missing {
      return Discovered(Exit(0), true);
    } else if !kind.Directory? {
      return Discovered(Raised, false);
    }
    var fileList := CollectSupported(targetDir, kind.entries);
    return Discovered(Found(fileList), false);
  }

  method ScanTypedPath(userInput: string, fs: FileSystem) returns (d: Discovered)
    ensures d == ScanTyped(userInput, fs)
  {
    var kind := fs(userInput);
    if kind.Directory? {
      var fileList := CollectSupported(userInput, kind.entries);
      return Discovered(Found(fileList), false);
    } else if kind == RegularFile && HasSupportedExtension(userInput) {
      return Discovered(Found([userInput]), false);
    }
    return Discovered(Exit(1), false);
  }

  /** The imperative `get_input_files`. */
  method GetInputFiles(line: Option<string>, cwd: string, fs: FileSystem) returns (d: Discovered)
    ensures d == Discover(line, cwd, fs)
  {
    if line.None? {
      return Discovered(Exit(0), false);
    }
    var userInput := CleanInput(line.value);
    if userInput == [] {
      d := ScanDefaultFolder(cwd, fs);
    } else {
      d := ScanTypedPath(userInput, fs);
    }
  }

  /**
   * The exits of `get_input_files`: status 0 on end of input or when the default
   * folder had to be created (and only then is it created); status 1 for a typed
   * path that is neither a folder nor a supported file.
   */
  lemma DiscoveryExits(line: Option<string>, cwd: string, fs: FileSystem)
    ensures var d := Discover(line, cwd, fs);
            var defaultMissing := fs(Join(cwd, DefaultInputFolder)) == Missing;
            && (d.outcome == Exit(0) <==> line.None? || (CleanInput(line.value) == [] && defaultMissing))
            && (d.createdDefault <==> line.Some? && CleanInput(line.value) == [] && defaultMissing)
            && (d.outcome == Exit(1) <==>
                  line.Some? && var p := CleanInput(line.value);
                  p != [] && !fs(p).Directory? && !(fs(p) == RegularFile && HasSupportedExtension(p)))
  {
  }

  /** Whatever is queued passes the supported-extension test itself. */
  lemma QueuedFilesSupported(line: Option<string>, cwd: string, fs: FileSystem)
    ensures var d := Discover(line, cwd, fs);
            d.outcome.Found? ==> forall f :: f in d.outcome.files ==> HasSupportedExtension(f)
  {
  }

  // ---------------------------------------------------------------- artifact naming

  /** `convert_to_wav`: `temp/<stem>.wav`. */
  function ConvertedPath(file: string): string {
    Join(TempDir, Stem(BaseName(file)) + ".wav")
  }

  /** `normalize_loudness`: the input's basename under the intermediate folder. */
  function NormalizedPath(input: string): string {
    Join(IntermediateDir, BaseName(input))
  }

  /** `run_deepfilter`: the input's basename under the output folder. */
  function EnhancedPath(input: string): string {
    Join(OutputDir, BaseName(input))
  }

  /** `convert_to_final_mp3`: `output/<stem>.mp3`, the stem taken from the original basename. */
  function DeliverablePath(originalName: string): string {
    Join(OutputDir, Stem(originalName) + ".mp3")
  }

  /**
   * The chain of artifacts one file produces: every stage after conversion keeps
   * the name `<stem>.wav`, so the normalized copy is `intermediate/<stem>.wav` and
   * the enhanced copy `output/<stem>.wav`.
   */
  lemma {:induction false} ArtifactChain(file: string)
    ensures var stem := Stem(BaseName(file));
            && ConvertedPath(file) == Join(TempDir, stem + ".wav")
            && NormalizedPath(ConvertedPath(file)) == Join(IntermediateDir, stem + ".wav")
            && EnhancedPath(NormalizedPath(ConvertedPath(file))) == Join(OutputDir, stem + ".wav")
  {
    var name := Stem(BaseName(file)) + ".wav";
    NoSeparators();
    RenamedHasNoSeparator(BaseName(file), ".wav");
    BaseNameOfJoin(TempDir, name);
    BaseNameOfJoin(IntermediateDir, name);
  }

  /**
   * The deliverable depends only on the stem: `a.flac` and `a.ogg`, from any two
   * folders, are both delivered as `output/a.mp3`.
   */
  lemma {:induction false} DeliverableCollision(dir1: string, dir2: string, base: string, ext1: string, ext2: string)
    requires '/' !in base && exists i :: 0 <= i < |base| && base[i] != '.'
    requires ext1 in SupportedExtensions && ext2 in SupportedExtensions
    ensures DeliverablePath(BaseName(Join(dir1, base + ext1))) == Join(OutputDir, base + ".mp3")
    ensures DeliverablePath(BaseName(Join(dir2, base + ext2))) == Join(OutputDir, base + ".mp3")
  {
    SupportedExtensionShape(ext1);
    SupportedExtensionShape(ext2);
    assert base + ext1 != [] && '/' !in base + ext1;
    assert base + ext2 != [] && '/' !in base + ext2;
    BaseNameOfJoin(dir1, base + ext1);
    BaseNameOfJoin(dir2, base + ext2);
    StemOfAppend(base, ext1);
    StemOfAppend(base, ext2);
  }

  // ---------------------------------------------------------------- one file

  datatype Stage = Convert | Normalize | Enhance | Finalize

  const AllStages: seq<Stage> := [Convert, Normalize, Enhance, Finalize]

  /** Whether each library call would succeed on this file, given a place to write. */
  datatype StageResults = StageResults(converts: bool, normalizes: bool, enhances: bool, finalizes: bool)

  /** The line `main` prints for a file: "Success: name", "Failed: name", or neither. */
  datatype Notice = Success | Failed | Silent

  /** The files a stage writes: the converted WAV, the normalized WAV, the enhanced WAV, the MP3. */
  datatype Artifact = ConvertedWav | NormalizedWav | EnhancedWav | DeliveredMp3

  /** Where each artifact of `file` is written, each stage naming its output after its input. */
  function ArtifactPath(file: string, a: Artifact): string {
    match a
    case ConvertedWav => ConvertedPath(file)
    case NormalizedWav => NormalizedPath(ConvertedPath(file))
    case EnhancedWav => EnhancedPath(NormalizedPath(ConvertedPath(file)))
    case DeliveredMp3 => DeliverablePath(BaseName(file))
  }

  /** The stages run for one file, the artifacts left on disk afterwards, and the notice. */
  datatype FileOutcome = FileOutcome(file: string, attempted: seq<Stage>, artifacts: seq<Artifact>, notice: Notice)

  /** Whether a stage succeeds: the library call works and the folder it writes into exists. */
  predicate Succeeds(stage: Stage, r: StageResults, dirs: set<Role>) {
    match stage
    case Convert => r.converts && Temp in dirs
    case Normalize => r.normalizes && Intermediate in dirs
    case Enhance => r.enhances && Output in dirs
    case Finalize => r.finalizes && Output in dirs
  }

  /**
   * The body of `main`'s `for` loop for one file: a failed conversion or normalization
   * skips the rest; a failed enhancement prints "Failed"; only a full run prints
   * "Success". A successful encode deletes the enhanced WAV it read.
   */
  function ProcessFile(file: string, r: StageResults, dirs: set<Role>): FileOutcome {
    if !Succeeds(Convert, r, dirs) then FileOutcome(file, [Convert], [], Silent)
    else if !Succeeds(Normalize, r, dirs) then FileOutcome(file, [Convert, Normalize], [ConvertedWav], Silent)
    else if !Succeeds(Enhance, r, dirs) then
      FileOutcome(file, [Convert, Normalize, Enhance], [ConvertedWav, NormalizedWav], Failed)
    else if !Succeeds(Finalize, r, dirs) then
      FileOutcome(file, AllStages, [ConvertedWav, NormalizedWav, EnhancedWav], Silent)
    else FileOutcome(file, AllStages, [ConvertedWav, NormalizedWav, DeliveredMp3], Success)
  }

  /**
   * Stages run in pipeline order and stop at the first failure: what ran is a
   * non-empty prefix of the pipeline, every stage but the last that ran succeeded,
   * and a run that stopped early stopped at a stage that failed.
   */
  lemma StagesStopAtFirstFailure(file: string, r: StageResults, dirs: set<Role>)
    ensures var ran := ProcessFile(file, r, dirs).attempted;
            && 1 <= |ran| <= |AllStages| && ran == AllStages[..|ran|]
            && (forall k :: 0 <= k < |ran| - 1 ==> Succeeds(ran[k], r, dirs))
            && (|ran| < |AllStages| ==> !Succeeds(ran[|ran| - 1], r, dirs))
  {
    var ran := ProcessFile(file, r, dirs).attempted;
    if |ran| == 1 {
      assert ran == AllStages[..1];
    } else if |ran| == 2 {
      assert ran == AllStages[..2];
    } else if |ran| == 3 {
      assert ran == AllStages[..3];
    } else {
      assert ran == AllStages[..4];
    }
  }

  /** "Success" is printed iff all four stages succeed; "Failed" iff only the enhancement failed. */
  lemma NoticeReflectsStages(file: string, r: StageResults, dirs: set<Role>)
    ensures var o := ProcessFile(file, r, dirs);
            && (o.notice == Success <==> forall s :: Succeeds(s, r, dirs))
            && (o.notice == Failed <==>
                  Succeeds(Convert, r, dirs) && Succeeds(Normalize, r, dirs) && !Succeeds(Enhance, r, dirs))
  {
    if forall s :: Succeeds(s, r, dirs) {
    } else {
      var s :| !Succeeds(s, r, dirs);
      assert s == Convert || s == Normalize || s == Enhance || s == Finalize;
    }
  }

  /**
   * A delivered file leaves `temp/<stem>.wav`, `intermediate/<stem>.wav` and
   * `output/<stem>.mp3` behind (the first two until cleanup), and no enhanced WAV.
   */
  lemma DeliveredArtifacts(file: string, r: StageResults, dirs: set<Role>)
    requires ProcessFile(file, r, dirs).notice == Success
    ensures var stem := Stem(BaseName(file));
            var arts := ProcessFile(file, r, dirs).artifacts;
            && arts == [ConvertedWav, NormalizedWav, DeliveredMp3]
            && ArtifactPath(file, arts[0]) == Join(TempDir, stem + ".wav")
            && ArtifactPath(file, arts[1]) == Join(IntermediateDir, stem + ".wav")
            && ArtifactPath(file, arts[2]) == Join(OutputDir, stem + ".mp3")
  {
    var arts := ProcessFile(file, r, dirs).artifacts;
    assert arts == [ConvertedWav, NormalizedWav, DeliveredMp3];
    KeptArtifactPaths(file);
  }

  /** Where the three artifacts a delivered file keeps are written. */
  lemma KeptArtifactPaths(file: string)
    ensures var stem := Stem(BaseName(file));
            && ArtifactPath(file, ConvertedWav) == Join(TempDir, stem + ".wav")
            && ArtifactPath(file, NormalizedWav) == Join(IntermediateDir, stem + ".wav")
            && ArtifactPath(file, DeliveredMp3) == Join(OutputDir, stem + ".mp3")
  {
    ArtifactChain(file);
  }

  /** With every working directory present the outcome no longer depends on what ran before. */
  lemma PreparedOutcome(file: string, r: StageResults, dirs: set<Role>)
    requires EnhancerRoles <= dirs
    ensures ProcessFile(file, r, dirs) == ProcessFile(file, r, EnhancerRoles)
    ensures ProcessFile(file, r, dirs).notice == Success <==> r.converts && r.normalizes && r.enhances && r.finalizes
  {
  }

  /** Without the temp folder no file gets past conversion. */
  lemma NoTempNoConversion(file: string, r: StageResults, dirs: set<Role>)
    requires Temp !in dirs
    ensures ProcessFile(file, r, dirs) == FileOutcome(file, [Convert], [], Silent)
  {
  }

  // ---------------------------------------------------------------- the batch

  /** The outcome of each queued file, file by file. */
  function BatchOutcomes(files: seq<string>, results: string -> StageResults, dirs: set<Role>): seq<FileOutcome> {
    seq(|files|, i requires 0 <= i < |files| => ProcessFile(files[i], results(files[i]), dirs))
  }

  /**
   * `main`'s `for` loop: every queued file is attempted in queue order, and a file's
   * outcome depends only on that file, never on how earlier files fared.
   */
  method RunBatch(files: seq<string>, results: string -> StageResults, dirs: set<Role>) returns (outcomes: seq<FileOutcome>)
    ensures |outcomes| == |files|
    ensures forall i :: 0 <= i < |files| ==> outcomes[i] == ProcessFile(files[i], results(files[i]), dirs)
  {
    outcomes := [];
    for i := 0 to |files|
      invariant |outcomes| == i
      invariant forall j :: 0 <= j < i ==> outcomes[j] == ProcessFile(files[j], results(files[j]), dirs)
    {
      var file := files[i];
      var r := results(file);
      if !Succeeds(Convert, r, dirs) {
        outcomes := outcomes + [FileOutcome(file, [Convert], [], Silent)];
        continue;
      }
      if !Succeeds(Normalize, r, dirs) {
        outcomes := outcomes + [FileOutcome(file, [Convert, Normalize], [ConvertedWav], Silent)];
        continue;
      }
      var outcome: FileOutcome;
      if Succeeds(Enhance, r, dirs) {
        if Succeeds(Finalize, r, dirs) {
          outcome := FileOutcome(file, AllStages, [ConvertedWav, NormalizedWav, DeliveredMp3], Success);
        } else {
          outcome := FileOutcome(file, AllStages, [ConvertedWav, NormalizedWav, EnhancedWav], Silent);
        }
      } else {
        outcome := FileOutcome(file, [Convert, Normalize, Enhance], [ConvertedWav, NormalizedWav], Failed);
      }
      outcomes := outcomes + [outcome];
    }
  }

  /** Three queued files, the second failing to convert: the first and third are still delivered. */
  lemma FailureIsolation(a: string, b: string, c: string, results: string -> StageResults, dirs: set<Role>)
    requires EnhancerRoles <= dirs
    requires results(a) == StageResults(true, true, true, true) && results(c) == StageResults(true, true, true, true)
    requires !results(b).converts
    ensures var o := BatchOutcomes([a, b, c], results, dirs);
            o[0].notice == Success && o[1].attempted == [Convert] && o[1].notice == Silent && o[2].notice == Success
  {
  }

  // ---------------------------------------------------------------- the session

  /** "No files selected. Exit? (y/n)": only a "y" ends the session. */
  predicate ExitsWhenEmpty(reply: string) {
    Answer(reply) == "y"
  }

  /** "Save normalized intermediate files? (y/N)": only a "y" keeps them. */
  predicate KeepsNormalized(reply: string) {
    Answer(reply) == "y"
  }

  /** "Process another batch? (y/n) [Enter = Yes]": only an "n" ends the session. */
  predicate StopsAfterBatch(reply: string) {
    Answer(reply) == "n"
  }

  /**
   * One pass of `main`'s `while True` loop, as the user and the filesystem drive it:
   * the typed path (`None` at end of input) with the filesystem seen then, the replies
   * to the prompts the pass reaches, what each library call would do with each file,
   * and which working-directory removals raise.
   */
  datatype Round = Round(
    pathLine: Option<string>, fs: FileSystem,
    emptyReply: Option<string>, keepReply: Option<string>,
    results: string -> StageResults, removalFailures: set<Role>,
    againReply: Option<string>)

  /** One batch: the folders that existed while it ran, the retention answer and the outcomes. */
  datatype BatchRun = BatchRun(dirs: set<Role>, keepNormalized: bool, outcomes: seq<FileOutcome>)

  /** How a pass ends: the loop stops with `end` or goes round again; `run` is its batch, if any. */
  datatype Pass = Stop(end: End, run: Option<BatchRun>, after: set<Role>) | Again(run: Option<BatchRun>, after: set<Role>)

  /** The batches a pass ran: none or one. */
  function Runs(run: Option<BatchRun>): seq<BatchRun> {
    if run.Some? then [run.value] else []
  }

  /**
   * One pass of the loop from the folders `dirs`. `prepareEachBatch` false is the loop
   * as written (folders prepared once, at start-up); true prepares them before the batch.
   * The folders change only through the cleanup after a batch.
   */
  function LoopPass(r: Round, cwd: string, dirs: set<Role>, prepareEachBatch: bool): (p: Pass)
    ensures p.run.None? ==> p.after == dirs
    ensures p.run.Some? ==> r.keepReply.Some? && (p.run.value.keepNormalized <==> Answer(r.keepReply.value) == "y")
    ensures p.Stop? && p.end == Quit <==> UserStops(r, cwd)
    ensures p.run.Some? ==>
              && p.run.value.dirs == (if prepareEachBatch then dirs + EnhancerRoles else dirs)
              && p.after == AfterCleanup(p.run.value.dirs, p.run.value.keepNormalized, r.removalFailures)
  {
    match Discover(r.pathLine, cwd, r.fs).outcome
    case Exit(code) => Stop(Exited(code), None, dirs)
    case Raised => Stop(Crashed, None, dirs)
    case Found(files) =>
      if files == [] then
        match r.emptyReply
        case None => Stop(Crashed, None, dirs)
        case Some(a) => if ExitsWhenEmpty(a) then Stop(Quit, None, dirs) else Again(None, dirs)
      else
        match r.keepReply
        case None => Stop(Quit, None, dirs)
        case Some(k) =>
          var ready := if prepareEachBatch then dirs + EnhancerRoles else dirs;
          var keep := KeepsNormalized(k);
          var run := BatchRun(ready, keep, BatchOutcomes(files, r.results, ready));
          var after := AfterCleanup(ready, keep, r.removalFailures);
          match r.againReply
          case None => Stop(Crashed, Some(run), after)
          case Some(a) => if StopsAfterBatch(a) then Stop(Quit, Some(run), after) else Again(Some(run), after)
  }

  /** The whole session: how it ends, the batches it ran in order, and the folders left. */
  datatype Trace = Trace(end: End, batches: seq<BatchRun>, dirs: set<Role>)

  function Prepend(runs: seq<BatchRun>, t: Trace): Trace {
    Trace(t.end, runs + t.batches, t.dirs)
  }

  /** The session loop over `rounds[i..]`, starting from the folders `dirs`. */
  function Session(rounds: seq<Round>, i: nat, cwd: string, dirs: set<Role>, prepareEachBatch: bool): (t: Trace)
    requires i <= |rounds|
    ensures |t.batches| <= |rounds| - i
    decreases |rounds| - i
  {
    if i == |rounds| then Trace(AwaitingInput, [], dirs)
    else
      var p := LoopPass(rounds[i], cwd, dirs, prepareEachBatch);
      if p.Stop? then Trace(p.end, Runs(p.run), p.after)
      else Prepend(Runs(p.run), Session(rounds, i + 1, cwd, p.after, prepareEachBatch))
  }

  /** One iteration of `main`'s `while True` loop, on the real working folders. */
  method RunPass(ws: Workspace, cwd: string, r: Round, prepareEachBatch: bool) returns (p: Pass)
    modifies ws
    ensures p == LoopPass(r, cwd, old(ws.existing), prepareEachBatch) && ws.existing == p.after
  {
    var found := GetInputFiles(r.pathLine, cwd, r.fs);
    if found.outcome.Exit? {
      return Stop(Exited(found.outcome.code), None, ws.existing);
    } else if found.outcome.Raised? {
      return Stop(Crashed, None, ws.existing);
    }
    var files := found.outcome.files;
    if files == [] {
      if r.emptyReply.None? {
        return Stop(Crashed, None, ws.existing);
      } else if ExitsWhenEmpty(r.emptyReply.value) {
        return Stop(Quit, None, ws.existing);
      }
      return Again(None, ws.existing);
    }
    if r.keepReply.None? {
      return Stop(Quit, None, ws.existing);
    }
    var keep := KeepsNormalized(r.keepReply.value);
    if prepareEachBatch {
      var made := ws.PrepareEnhancer();
    }
    var ready := ws.existing;
    var outcomes := RunBatch(files, r.results, ready);
    assert outcomes == BatchOutcomes(files, r.results, ready);
    ws.CleanupFolders(keep, r.removalFailures);
    var run := BatchRun(ready, keep, outcomes);
    if r.againReply.None? {
      return Stop(Crashed, Some(run), ws.existing);
    } else if StopsAfterBatch(r.againReply.value) {
      return Stop(Quit, Some(run), ws.existing);
    }
    return Again(Some(run), ws.existing);
  }

  /**
   * `main`: prepare the working directories, then loop over the rounds. The
   * `prepareEachBatch` switch selects the corrected loop.
   */
  method RunSession(ws: Workspace, cwd: string, rounds: seq<Round>, prepareEachBatch: bool)
    returns (end: End, batches: seq<BatchRun>)
    modifies ws
    ensures var t := Session(rounds, 0, cwd, old(ws.existing) + EnhancerRoles, prepareEachBatch);
            end == t.end && batches == t.batches && ws.existing == t.dirs
  {
    var made := ws.PrepareEnhancer();
    ghost var whole := Session(rounds, 0, cwd, ws.existing, prepareEachBatch);
    batches := [];
    var i := 0;
    while i < |rounds|
      invariant 0 <= i <= |rounds|
      invariant whole == Prepend(batches, Session(rounds, i, cwd, ws.existing, prepareEachBatch))
    {
      LoopStep(rounds, i, cwd, ws.existing, prepareEachBatch, batches, whole);
      var p := RunPass(ws, cwd, rounds[i], prepareEachBatch);
      batches := batches + Runs(p.run);
      if p.Stop? {
        return p.end, batches;
      }
      i := i + 1;
    }
    return AwaitingInput, batches;
  }

  /** A session is its first pass followed, if the loop goes on, by the session over the later rounds. */
  lemma SessionStep(rounds: seq<Round>, i: nat, cwd: string, dirs: set<Role>, prepareEachBatch: bool)
    requires i < |rounds|
    ensures var p := LoopPass(rounds[i], cwd, dirs, prepareEachBatch);
            Session(rounds, i, cwd, dirs, prepareEachBatch)
              == if p.Stop? then Trace(p.end, Runs(p.run), p.after)
                 else Prepend(Runs(p.run), Session(rounds, i + 1, cwd, p.after, prepareEachBatch))
  {
  }

  lemma PrependTwice(batches: seq<BatchRun>, runs: seq<BatchRun>, t: Trace)
    ensures Prepend(batches, Prepend(runs, t)) == Prepend(batches + runs, t)
  {
    assert batches + (runs + t.batches) == (batches + runs) + t.batches;
  }

  /** What one pass of the loop does to the invariant of `RunSession`. */
  lemma LoopStep(rounds: seq<Round>, i: nat, cwd: string, dirs: set<Role>, prepareEachBatch: bool,
                 batches: seq<BatchRun>, whole: Trace)
    requires i < |rounds|
    requires whole == Prepend(batches, Session(rounds, i, cwd, dirs, prepareEachBatch))
    ensures var p := LoopPass(rounds[i], cwd, dirs, prepareEachBatch);
            if p.Stop? then whole == Trace(p.end, batches + Runs(p.run), p.after)
            else whole == Prepend(batches + Runs(p.run), Session(rounds, i + 1, cwd, p.after, prepareEachBatch))
  {
    var p := LoopPass(rounds[i], cwd, dirs, prepareEachBatch);
    SessionStep(rounds, i, cwd, dirs, prepareEachBatch);
    if p.Again? {
      PrependTwice(batches, Runs(p.run), Session(rounds, i + 1, cwd, p.after, prepareEachBatch));
    }
  }

  /**
   * A session the user ends was ended by a "y" at the empty-queue prompt, by end of
   * input at the retention prompt, or by an "n" after a batch; unlike the normalizer's
   * loop, a "q" never ends it.
   */
  lemma {:induction false} QuitNeedsStopReply(rounds: seq<Round>, i: nat, cwd: string, dirs: set<Role>,
                                              prepareEachBatch: bool)
    requires i <= |rounds|
    ensures Session(rounds, i, cwd, dirs, prepareEachBatch).end == Quit ==>
              exists j :: i <= j < |rounds| && UserStops(rounds[j], cwd)
    decreases |rounds| - i
  {
    if i < |rounds| {
      var p := LoopPass(rounds[i], cwd, dirs, prepareEachBatch);
      SessionStep(rounds, i, cwd, dirs, prepareEachBatch);
      if p.Again? {
        QuitNeedsStopReply(rounds, i + 1, cwd, p.after, prepareEachBatch);
      }
    }
  }

  /**
   * The user ends the loop at the prompt the pass reaches: a "y" at the empty-queue
   * prompt, or, after a non-empty queue, end of input at the retention prompt or an
   * "n" after the batch.
   */
  predicate UserStops(r: Round, cwd: string) {
    var o := Discover(r.pathLine, cwd, r.fs).outcome;
    && o.Found?
    && if o.files == [] then r.emptyReply.Some? && ExitsWhenEmpty(r.emptyReply.value)
       else r.keepReply.None? || (r.againReply.Some? && StopsAfterBatch(r.againReply.value))
  }

  /** At the empty-queue prompt any reply but "y" goes round again, with no batch and the folders as they were. */
  lemma EmptyQueueContinues(r: Round, cwd: string, dirs: set<Role>, prepareEachBatch: bool)
    requires Discover(r.pathLine, cwd, r.fs).outcome == Found([])
    requires r.emptyReply.Some? && !ExitsWhenEmpty(r.emptyReply.value)
    ensures LoopPass(r, cwd, dirs, prepareEachBatch) == Again(None, dirs)
  {
  }

  /** A queue answered with a retention reply and then anything but "n" sends the loop round again. */
  lemma PassContinues(r: Round, cwd: string, dirs: set<Role>, prepareEachBatch: bool)
    requires Discover(r.pathLine, cwd, r.fs).outcome.Found? && Discover(r.pathLine, cwd, r.fs).outcome.files != []
    requires r.keepReply.Some?
    requires r.againReply.Some? && !StopsAfterBatch(r.againReply.value)
    ensures LoopPass(r, cwd, dirs, prepareEachBatch).Again?
    ensures LoopPass(r, cwd, dirs, prepareEachBatch).run.Some?
  {
  }

  /** Concrete replies: "Y " exits at an empty queue, "q" does not stop after a batch, " N" does. */
  lemma ReplyExamples()
    ensures ExitsWhenEmpty("Y ") && !ExitsWhenEmpty("n")
    ensures KeepsNormalized(" y") && !KeepsNormalized("")
    ensures !StopsAfterBatch("q") && !StopsAfterBatch("") && StopsAfterBatch(" N")
  {
    assert Strip("Y ", Whitespace) == "Y" by {
      assert "Y "[..1] == "Y";
    }
    assert Lower("Y") == "y";
    assert Strip("n", Whitespace) == "n";
    assert Lower("n") == "n";
    assert Strip(" y", Whitespace) == "y" by {
      assert " y"[1..] == "y";
    }
    assert Lower("y") == "y";
    assert Strip("", Whitespace) == "";
    assert Lower("") == "";
    assert Strip("q", Whitespace) == "q";
    assert Lower("q") == "q";
    assert Strip(" N", Whitespace) == "N" by {
      assert " N"[1..] == "N";
    }
    assert Lower("N") == "n";
  }

  // ---------------------------------------------------------------- the working folders across batches

  /** A batch run without the temp folder: no file got past conversion. */
  predicate Starved(b: BatchRun) {
    Temp !in b.dirs && forall j :: 0 <= j < |b.outcomes| ==> b.outcomes[j].attempted == [Convert]
  }

  /** Every batch of `bs` ran with all three working folders present. */
  predicate AllPrepared(bs: seq<BatchRun>) {
    forall k :: 0 <= k < |bs| ==> EnhancerRoles <= bs[k].dirs
  }

  /** Every batch of `bs` ran without the temp folder and failed every conversion. */
  predicate AllStarved(bs: seq<BatchRun>) {
    forall k :: 0 <= k < |bs| ==> Starved(bs[k])
  }

  lemma AllPreparedConcat(a: seq<BatchRun>, b: seq<BatchRun>)
    requires AllPrepared(a) && AllPrepared(b)
    ensures AllPrepared(a + b)
  {
    forall k | 0 <= k < |a + b| ensures EnhancerRoles <= (a + b)[k].dirs {
      if k >= |a| { assert (a + b)[k] == b[k - |a|]; }
    }
  }

  lemma AllStarvedConcat(a: seq<BatchRun>, b: seq<BatchRun>)
    requires AllStarved(a) && AllStarved(b)
    ensures AllStarved(a + b)
  {
    forall k | 0 <= k < |a + b| ensures Starved((a + b)[k]) {
      if k >= |a| { assert (a + b)[k] == b[k - |a|]; }
    }
  }

  /** A pass that starts without the temp folder starves its batch and leaves the folder missing. */
  lemma PassWithoutTemp(r: Round, cwd: string, dirs: set<Role>)
    requires Temp !in dirs
    ensures var p := LoopPass(r, cwd, dirs, false);
            Temp !in p.after && (p.run.Some? ==> Starved(p.run.value))
  {
    var p := LoopPass(r, cwd, dirs, false);
    if p.run.Some? {
      var b := p.run.value;
      forall j | 0 <= j < |b.outcomes|
        ensures b.outcomes[j].attempted == [Convert]
      {
        var f := b.outcomes[j].file;
        NoTempNoConversion(f, r.results(f), dirs);
      }
    }
  }

  /** As written, a session that has lost its temp folder fails every later conversion. */
  lemma {:induction false} WithoutTempEveryConversionFails(rounds: seq<Round>, i: nat, cwd: string, dirs: set<Role>)
    requires i <= |rounds| && Temp !in dirs
    ensures AllStarved(Session(rounds, i, cwd, dirs, false).batches)
    decreases |rounds| - i
  {
    if i < |rounds| {
      var p := LoopPass(rounds[i], cwd, dirs, false);
      PassWithoutTemp(rounds[i], cwd, dirs);
      SessionStep(rounds, i, cwd, dirs, false);
      var rest: seq<BatchRun> := [];
      if p.Again? {
        WithoutTempEveryConversionFails(rounds, i + 1, cwd, p.after);
        rest := Session(rounds, i + 1, cwd, p.after, false).batches;
      }
      AllStarvedConcat(Runs(p.run), rest);
    }
  }

  /**
   * The session as written: once the first batch's cleanup has removed the temp
   * folder, every file of every later batch fails at conversion, whatever its
   * stages would have done.
   */
  lemma {:induction false} LaterBatchesFailAsWritten(rounds: seq<Round>, i: nat, cwd: string, dirs: set<Role>)
    requires i <= |rounds|
    requires forall j :: i <= j < |rounds| ==> Temp !in rounds[j].removalFailures
    ensures var bs := Session(rounds, i, cwd, dirs, false).batches;
            |bs| > 0 ==> AllStarved(bs[1..])
    decreases |rounds| - i
  {
    if i < |rounds| {
      var p := LoopPass(rounds[i], cwd, dirs, false);
      SessionStep(rounds, i, cwd, dirs, false);
      if p.Again? {
        var rest := Session(rounds, i + 1, cwd, p.after, false).batches;
        if p.run.Some? {
          assert Temp !in rounds[i].removalFailures;
          WithoutTempEveryConversionFails(rounds, i + 1, cwd, p.after);
          assert Session(rounds, i, cwd, dirs, false).batches[1..] == rest;
        } else {
          LaterBatchesFailAsWritten(rounds, i + 1, cwd, p.after);
        }
      }
    }
  }

  /** The corrected session: every batch runs with all three working folders present. */
  lemma {:induction false} PreparedBatchesSeeAllDirs(rounds: seq<Round>, i: nat, cwd: string, dirs: set<Role>)
    requires i <= |rounds|
    ensures AllPrepared(Session(rounds, i, cwd, dirs, true).batches)
    decreases |rounds| - i
  {
    if i < |rounds| {
      var p := LoopPass(rounds[i], cwd, dirs, true);
      SessionStep(rounds, i, cwd, dirs, true);
      var rest: seq<BatchRun> := [];
      if p.Again? {
        PreparedBatchesSeeAllDirs(rounds, i + 1, cwd, p.after);
        rest := Session(rounds, i + 1, cwd, p.after, true).batches;
      }
      AllPreparedConcat(Runs(p.run), rest);
    }
  }
}
