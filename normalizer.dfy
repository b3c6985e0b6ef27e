/**
 * audio_normalizer.py: input discovery that answers bad input with an empty
 * queue, the `.wav` pass-through and output naming, the two-stage pipeline
 * (convert, normalize loudness) with its success counter, the per-batch
 * working-directory handling and the session loop. Every library call is an
 * abstract stage outcome (`StageResults`); a stage also fails when the working
 * directory it writes into does not exist.
 */
module Normalizer {
  import opened Wrappers
  import opened Paths
  import opened Discovery
  import opened WorkingDirs
  import opened Loudness
  import opened Sessions

  const OutputDir := "Normalized_Audio_Output"
  const TempDir := "Temp_Conversion_Cache"

  // ---------------------------------------------------------------- discovery

  /** `get_input_files`: only end of input exits (status 0); every other dead end is an empty queue. */
  function Discover(line: Option<string>, cwd: string, fs: FileSystem): Discovered {
    match line
    case None => Discovered(Exit(0), false)
    case Some(raw) =>
      var path := CleanInput(raw);
      if path == [] then ScanDefault(cwd, fs) else ScanTyped(path, fs)
  }

  /** An empty answer: `./Source_Audio` is listed, or created and nothing is queued. */
  function ScanDefault(cwd: string, fs: FileSystem): Discovered {
    var target := Join(cwd, DefaultInputFolder);
    match fs(target)
    case Missing => Discovered(Found([]), true)
    case Directory(entries) => Discovered(Found(SupportedIn(target, entries)), false)
    case _ => Discovered(Raised, false)
  }

  /** A typed path: a folder is listed, a supported file queued, anything else queues nothing. */
  function ScanTyped(path: string, fs: FileSystem): Discovered {
    match fs(path)
    case Directory(entries) => Discovered(Found(SupportedIn(path, entries)), false)
    case RegularFile =>
      if HasSupportedExtension(path) then Discovered(Found([path]), false)
      else Discovered(Found([]), false)
    case _ => Discovered(Found([]), false)
  }

  method ScanDefaultFolder(cwd: string, fs: FileSystem) returns (d: Discovered)
    ensures d == ScanDefault(cwd, fs)
  {
    var targetDir := Join(cwd, DefaultInputFolder);
    var kind := fs(targetDir);
    if kind == Missing {
      return Discovered(Found([]), true);
    } else if !kind.Directory? {
      return Discovered(Raised, false);
    }
    var fileList := CollectSupported(targetDir, kind.entries);
    return Discovered(Found(fileList), false);
  }

  method ScanTypedPath(userInput: string, fs: FileSystem) returns (d: Discovered)
    ensures d == ScanTyped(userInput, fs)
  {
    var kind := fs(userInput);
    var fileList: seq<string> := [];
    if kind.Directory? {
      fileList := CollectSupported(userInput, kind.entries);
    } else if kind == RegularFile && HasSupportedExtension(userInput) {
      fileList := [userInput];
    }
    return Discovered(Found(fileList), false);
  }

  /** The imperative `get_input_files`. */
  method GetInputFiles(line: Option<string>, cwd: string, fs: FileSystem) returns (d: Discovered)
    ensures d == Discover(line, cwd, fs)
  {
    if line.None? {
      return Discovered(Exit(0), false);
    }
    var userInput := CleanInput(line.value);
    if userInput == [] {
      d := ScanDefaultFolder(cwd, fs);
    } else {
      d := ScanTypedPath(userInput, fs);
    }
  }

  /**
   * Where the enhancer exits, the normalizer queues nothing: discovery exits only at
   * end of input; a missing default folder is created (and only then) and yields an
   * empty queue, as do an unsupported file and a path that is neither file nor folder.
   */
  lemma DiscoveryEmptyQueues(line: Option<string>, cwd: string, fs: FileSystem)
    ensures var d := Discover(line, cwd, fs);
            var defaultMissing := fs(Join(cwd, DefaultInputFolder)) == Missing;
            && (d.outcome.Exit? <==> line.None?)
            && (d.outcome.Exit? ==> d.outcome.code == 0)
            && (d.createdDefault <==> line.Some? && CleanInput(line.value) == [] && defaultMissing)
            && (d.createdDefault ==> d.outcome == Found([]))
            && (line.Some? && CleanInput(line.value) != [] ==>
                  var p := CleanInput(line.value);
                  !fs(p).Directory? && !(fs(p) == RegularFile && HasSupportedExtension(p)) ==> d.outcome == Found([]))
  {
  }

  /** Only the default folder's listing can raise: a typed path never does. */
  lemma OnlyDefaultFolderRaises(line: Option<string>, cwd: string, fs: FileSystem)
    ensures var d := Discover(line, cwd, fs);
            d.outcome.Raised? <==>
              line.Some? && CleanInput(line.value) == [] &&
              var k := fs(Join(cwd, DefaultInputFolder)); !k.Directory? && k != Missing
  {
  }

  /** Whatever is queued passes the supported-extension test itself. */
  lemma QueuedFilesSupported(line: Option<string>, cwd: string, fs: FileSystem)
    ensures var d := Discover(line, cwd, fs);
            d.outcome.Found? ==> forall f :: f in d.outcome.files ==> HasSupportedExtension(f)
  {
  }

  // ---------------------------------------------------------------- naming

  /** Where `convert_to_wav` would write a non-WAV input: `temp/<stem>.wav`. */
  function TempWavPath(file: string): string {
    Join(TempDir, Stem(BaseName(file)) + ".wav")
  }

  /** `normalize_loudness`: `output/<stem>_Normalized.wav`, the stem taken from the original basename. */
  function NormalizedPath(originalName: string): string {
    Join(OutputDir, Stem(originalName) + "_Normalized.wav")
  }

  /**
   * A converted copy is a `.wav` file in the temp folder named after the input's stem,
   * so it passes the `.wav` test itself.
   */
  lemma TempWavNaming(file: string)
    ensures var stem := Stem(BaseName(file));
            BaseName(TempWavPath(file)) == stem + ".wav" && IsWav(TempWavPath(file))
  {
    var name := Stem(BaseName(file)) + ".wav";
    NoSeparators();
    RenamedHasNoSeparator(BaseName(file), ".wav");
    BaseNameOfJoin(TempDir, name);
    JoinEndsWithWav(TempDir, name);
  }

  lemma JoinEndsWithWav(dir: string, name: string)
    requires EndsWith(name, ".wav")
    ensures IsWav(Join(dir, name))
  {
    var joined := Join(dir, name);
    assert joined[|joined| - |name|..] == name;
    EndsWithExtends(joined[..|joined| - |name|], name, ".wav");
    assert joined == joined[..|joined| - |name|] + name;
    LowerWav(joined);
  }

  /** Every path the `.wav` skip lets through is one discovery accepts. */
  lemma WavIsSupported(file: string)
    requires IsWav(file)
    ensures HasSupportedExtension(file)
  {
    assert SupportedExtensions[1] == ".wav";
  }

  /** A path ending in ".wav" passes the case-insensitive ".wav" test. */
  lemma LowerWav(p: string)
    requires EndsWith(p, ".wav")
    ensures IsWav(p)
  {
    var tail := p[|p| - 4..];
    assert tail == ".wav";
    assert ".wav" == ['.', 'w', 'a', 'v'];
    assert Lower(p)[|p| - 4..] == Lower(tail);
  }

  /** The normalized file is named `<stem>_Normalized.wav` and lies in the output folder. */
  lemma NormalizedNaming(file: string)
    ensures BaseName(NormalizedPath(BaseName(file))) == Stem(BaseName(file)) + "_Normalized.wav"
  {
    var name := Stem(BaseName(file)) + "_Normalized.wav";
    NoSeparators();
    RenamedHasNoSeparator(BaseName(file), "_Normalized.wav");
    BaseNameOfJoin(OutputDir, name);
  }

  /**
   * The output depends only on the stem: `a.flac` and `a.ogg`, from any two folders,
   * are both normalized into `output/a_Normalized.wav`.
   */
  lemma {:induction false} NormalizedCollision(dir1: string, dir2: string, base: string, ext1: string, ext2: string)
    requires '/' !in base && exists i :: 0 <= i < |base| && base[i] != '.'
    requires ext1 in SupportedExtensions && ext2 in SupportedExtensions
    ensures NormalizedPath(BaseName(Join(dir1, base + ext1))) == Join(OutputDir, base + "_Normalized.wav")
    ensures NormalizedPath(BaseName(Join(dir2, base + ext2))) == Join(OutputDir, base + "_Normalized.wav")
  {
    SupportedExtensionShape(ext1);
    SupportedExtensionShape(ext2);
    assert base + ext1 != [] && '/' !in base + ext1;
    assert base + ext2 != [] && '/' !in base + ext2;
    BaseNameOfJoin(dir1, base + ext1);
    BaseNameOfJoin(dir2, base + ext2);
    StemOfAppend(base, ext1);
    StemOfAppend(base, ext2);
  }

  // ---------------------------------------------------------------- one file

  /** Whether each library call would succeed on this file, given a place to write. */
  datatype StageResults = StageResults(converts: bool, normalizes: bool)

  /** The line `main` prints for a file: "Status: Success", "Status: Failed", or neither. */
  datatype Notice = Success | Failed | Silent

  /**
   * One file's run: the WAV `convert_to_wav` returned (`None` when it failed), the
   * file `normalize_loudness` wrote (`None` when it failed or never ran), and the notice.
   */
  datatype FileOutcome = FileOutcome(file: string, wav: Option<string>, written: Option<string>, notice: Notice)

  /** `convert_to_wav`: a `.wav` input is returned as is; any other is converted into temp. */
  function ConvertToWav(file: string, r: StageResults, dirs: set<Role>): (wav: Option<string>)
    ensures IsWav(file) ==> wav == Some(file)
    ensures !IsWav(file) ==> (wav.Some? <==> r.converts && Temp in dirs)
    ensures !IsWav(file) && wav.Some? ==> wav.value == TempWavPath(file)
  {
    if IsWav(file) then Some(file)
    else if r.converts && Temp in dirs then Some(TempWavPath(file))
    else None
  }

  /**
   * The body of `main`'s `for` loop for one file: a failed conversion prints no status
   * and skips normalization; otherwise the normalization decides "Success" or "Failed".
   */
  function ProcessFile(file: string, r: StageResults, dirs: set<Role>): FileOutcome {
    var wav := ConvertToWav(file, r, dirs);
    if wav.None? then FileOutcome(file, None, None, Silent)
    else if r.normalizes && Output in dirs then
      FileOutcome(file, wav, Some(NormalizedPath(BaseName(file))), Success)
    else FileOutcome(file, wav, None, Failed)
  }

  /**
   * "Status: Success" iff the conversion returned a path and the normalization
   * returned True; "Status: Failed" iff only the normalization failed; and exactly
   * a successful file has written its normalized copy.
   */
  lemma NoticeReflectsStages(file: string, r: StageResults, dirs: set<Role>)
    ensures var o := ProcessFile(file, r, dirs);
            var converted := IsWav(file) || (r.converts && Temp in dirs);
            && (o.notice == Success <==> converted && r.normalizes && Output in dirs)
            && (o.notice == Failed <==> converted && !(r.normalizes && Output in dirs))
            && (o.notice == Silent <==> o.wav.None?)
            && (o.written.Some? <==> o.notice == Success)
            && (o.written.Some? ==> o.written.value == NormalizedPath(BaseName(file)))
  {
  }

  /** A `.wav` input is normalized from its own path, so neither the converter nor the temp folder matters. */
  lemma WavNeedsNoTemp(file: string, r: StageResults, dirs: set<Role>)
    requires IsWav(file)
    ensures ProcessFile(file, r, dirs).wav == Some(file)
    ensures ProcessFile(file, r, dirs) == ProcessFile(file, StageResults(false, r.normalizes), dirs - {Temp})
  {
  }

  // ---------------------------------------------------------------- the batch

  /** The number of outcomes that printed "Status: Success". */
  function CountSuccess(outcomes: seq<FileOutcome>): (n: nat)
    ensures n <= |outcomes|
  {
    if outcomes == [] then 0
    else CountSuccess(outcomes[..|outcomes| - 1]) + (if outcomes[|outcomes| - 1].notice == Success then 1 else 0)
  }

  /** The counter adds up over consecutive parts of a batch. */
  lemma {:induction false} CountConcat(a: seq<FileOutcome>, b: seq<FileOutcome>)
    ensures CountSuccess(a + b) == CountSuccess(a) + CountSuccess(b)
    decreases |b|
  {
    if b != [] {
      var init, last := b[..|b| - 1], b[|b| - 1];
      assert b == init + [last];
      assert a + b == (a + init) + [last];
      CountConcat(a, init);
      CountAppend(a + init, last);
      CountAppend(init, last);
    } else {
      assert a + b == a;
    }
  }

  /** Appending one outcome raises the counter by one exactly when that file succeeded. */
  lemma CountAppend(outcomes: seq<FileOutcome>, o: FileOutcome)
    ensures CountSuccess(outcomes + [o]) == CountSuccess(outcomes) + (if o.notice == Success then 1 else 0)
  {
    assert (outcomes + [o])[..|outcomes|] == outcomes;
  }

  /** The counter reaches the queue length exactly when every file succeeded. */
  lemma {:induction false} CountAll(outcomes: seq<FileOutcome>)
    ensures CountSuccess(outcomes) == |outcomes| <==> forall i :: 0 <= i < |outcomes| ==> outcomes[i].notice == Success
    decreases |outcomes|
  {
    if outcomes != [] {
      var n := |outcomes| - 1;
      var init := outcomes[..n];
      CountAll(init);
      assert forall i :: 0 <= i < n ==> init[i] == outcomes[i];
      if CountSuccess(outcomes) == |outcomes| {
        assert CountSuccess(init) == n && outcomes[n].notice == Success;
      }
    }
  }

  /** The counter stays 0 exactly when no file succeeded. */
  lemma {:induction false} CountNone(outcomes: seq<FileOutcome>)
    ensures CountSuccess(outcomes) == 0 <==> forall i :: 0 <= i < |outcomes| ==> outcomes[i].notice != Success
    decreases |outcomes|
  {
    if outcomes != [] {
      var n := |outcomes| - 1;
      var init := outcomes[..n];
      CountNone(init);
      assert forall i :: 0 <= i < n ==> init[i] == outcomes[i];
    }
  }

  /** The outcome of each queued file, file by file. */
  function BatchOutcomes(files: seq<string>, results: string -> StageResults, dirs: set<Role>): seq<FileOutcome> {
    seq(|files|, i requires 0 <= i < |files| => ProcessFile(files[i], results(files[i]), dirs))
  }

  /** `outcomes` are the outcomes of the first `|outcomes|` queued files, in queue order. */
  predicate Processed(outcomes: seq<FileOutcome>, files: seq<string>, results: string -> StageResults, dirs: set<Role>) {
    |outcomes| <= |files| &&
    forall j :: 0 <= j < |outcomes| ==> outcomes[j] == ProcessFile(files[j], results(files[j]), dirs)
  }

  /** Processing the next queued file extends the processed prefix and the counter. */
  lemma ProcessNext(outcomes: seq<FileOutcome>, files: seq<string>, results: string -> StageResults, dirs: set<Role>,
                    outcome: FileOutcome)
    requires Processed(outcomes, files, results, dirs) && |outcomes| < |files|
    requires outcome == ProcessFile(files[|outcomes|], results(files[|outcomes|]), dirs)
    ensures Processed(outcomes + [outcome], files, results, dirs)
    ensures CountSuccess(outcomes + [outcome]) == CountSuccess(outcomes) + (if outcome.notice == Success then 1 else 0)
  {
    CountAppend(outcomes, outcome);
    forall j | 0 <= j < |outcomes| + 1
      ensures (outcomes + [outcome])[j] == ProcessFile(files[j], results(files[j]), dirs)
    {
      if j < |outcomes| {
        assert (outcomes + [outcome])[j] == outcomes[j];
      }
    }
  }

  /**
   * `main`'s `for` loop: every queued file is attempted in queue order, whatever
   * happened to earlier files, and `success_count` counts exactly the successes.
   */
  method RunBatch(files: seq<string>, results: string -> StageResults, dirs: set<Role>)
    returns (outcomes: seq<FileOutcome>, successCount: nat)
    ensures |outcomes| == |files|
    ensures forall i :: 0 <= i < |files| ==> outcomes[i] == ProcessFile(files[i], results(files[i]), dirs)
    ensures successCount == CountSuccess(outcomes) && successCount <= |files|
  {
    outcomes := [];
    successCount := 0;
    for i := 0 to |files|
      invariant |outcomes| == i
      invariant Processed(outcomes, files, results, dirs)
      invariant successCount == CountSuccess(outcomes)
    {
      var file := files[i];
      var r := results(file);
      var wav := ConvertToWav(file, r, dirs);
      var outcome := FileOutcome(file, None, None, Silent);
      if wav.Some? {
        if r.normalizes && Output in dirs {
          successCount := successCount + 1;
          outcome := FileOutcome(file, wav, Some(NormalizedPath(BaseName(file))), Success);
        } else {
          outcome := FileOutcome(file, wav, None, Failed);
        }
      }
      ProcessNext(outcomes, files, results, dirs, outcome);
      outcomes := outcomes + [outcome];
    }
  }

  /** Three queued files, the second failing to convert: the first and third still succeed, and the count is 2. */
  lemma FailureIsolation(a: string, b: string, c: string, results: string -> StageResults, dirs: set<Role>)
    requires NormalizerRoles <= dirs && !IsWav(b)
    requires results(a) == StageResults(true, true) && results(c) == StageResults(true, true)
    requires !results(b).converts
    ensures var o := BatchOutcomes([a, b, c], results, dirs);
            o[0].notice == Success && o[1].notice == Silent && o[2].notice == Success && CountSuccess(o) == 2
  {
    var x, y, z := ProcessFile(a, results(a), dirs), ProcessFile(b, results(b), dirs), ProcessFile(c, results(c), dirs);
    NoticeReflectsStages(a, results(a), dirs);
    NoticeReflectsStages(b, results(b), dirs);
    NoticeReflectsStages(c, results(c), dirs);
    var o := BatchOutcomes([a, b, c], results, dirs);
    assert [a, b, c][0] == a && [a, b, c][1] == b && [a, b, c][2] == c;
    assert o[0] == x && o[1] == y && o[2] == z;
    CountThree(o);
  }

  lemma CountThree(o: seq<FileOutcome>)
    requires |o| == 3
    ensures CountSuccess(o)
              == (if o[0].notice == Success then 1 else 0) + (if o[1].notice == Success then 1 else 0)
                 + (if o[2].notice == Success then 1 else 0)
  {
    var x, y, z := o[0], o[1], o[2];
    assert o == [x, y, z];
    assert [x] == [] + [x] && [x, y] == [x] + [y] && [x, y, z] == [x, y] + [z];
    CountAppend([], x);
    CountAppend([x], y);
    CountAppend([x, y], z);
  }

  // ---------------------------------------------------------------- the session

  /** "Try again? (Y/n)" and "Start a new process? (Y/n/q)": only "n" or "q" ends the session. */
  predicate Stops(reply: string) {
    Answer(reply) == "n" || Answer(reply) == "q"
  }

  /** A reply that was given and ends the session. */
  predicate StopsOn(reply: Option<string>) {
    reply.Some? && Stops(reply.value)
  }

  /** An empty reply, "y" and "yes" all restart; "N" and " q" stop. */
  lemma ReplyExamples()
    ensures !Stops("") && !Stops("y") && !Stops("yes")
    ensures Stops("N") && Stops(" q")
  {
    assert Strip("", Whitespace) == "";
    assert Lower("") == "";
    assert |Answer("yes")| == 3;
    assert Strip("y", Whitespace) == "y";
    assert Lower("y") == "y";
    assert Strip("N", Whitespace) == "N";
    assert Lower("N") == "n";
    assert Strip(" q", Whitespace) == "q" by {
      assert " q"[1..] == "q";
    }
    assert Lower("q") == "q";
  }

  /**
   * One pass of `main`'s `while True` loop, as the user and the filesystem drive it:
   * the menu attempts, the typed path (`None` at end of input) with the filesystem
   * seen then, the replies to the prompts the pass reaches, what each library call
   * would do with each file, and whether removing the temp folder raises.
   */
  datatype Round = Round(
    menu: seq<Attempt>, pathLine: Option<string>, fs: FileSystem,
    retryReply: Option<string>, results: string -> StageResults,
    tempRemovalFails: bool, restartReply: Option<string>)

  /** One batch: the target loudness, the folders that existed while it ran, and the outcomes. */
  datatype BatchRun = BatchRun(target: real, dirs: set<Role>, outcomes: seq<FileOutcome>)

  /** How a pass ends: the loop stops with `end` or goes round again; `run` is its batch, if any. */
  datatype Pass = Stop(end: End, run: Option<BatchRun>, after: set<Role>) | Again(run: Option<BatchRun>, after: set<Role>)

  /** The batches a pass ran: none or one. */
  function Runs(run: Option<BatchRun>): seq<BatchRun> {
    if run.Some? then [run.value] else []
  }

  /**
   * One pass of the loop from the folders `dirs`. End of input at the menu or at a
   * yes/no prompt raises EOFError, which nothing catches. The working folders are
   * prepared before each batch, and only the temp folder is cleaned up after it.
   */
  function LoopPass(r: Round, cwd: string, dirs: set<Role>): (p: Pass)
    ensures p.run.None? ==> p.after == dirs
    ensures p.run.Some? ==>
              && InRange(p.run.value.target)
              && p.run.value.dirs == dirs + NormalizerRoles
              && p.after == AfterTempCleanup(dirs + NormalizerRoles, r.tempRemovalFails)
  {
    match Select(r.menu)
    case None => Stop(Crashed, None, dirs)
    case Some(target) =>
      match Discover(r.pathLine, cwd, r.fs).outcome
      case Exit(code) => Stop(Exited(code), None, dirs)
      case Raised => Stop(Crashed, None, dirs)
      case Found(files) =>
        if files == [] then
          match r.retryReply
          case None => Stop(Crashed, None, dirs)
          case Some(a) => if Stops(a) then Stop(Quit, None, dirs) else Again(None, dirs)
        else
          var ready := dirs + NormalizerRoles;
          var run := BatchRun(target, ready, BatchOutcomes(files, r.results, ready));
          var after := AfterTempCleanup(ready, r.tempRemovalFails);
          match r.restartReply
          case None => Stop(Crashed, Some(run), after)
          case Some(a) => if Stops(a) then Stop(Quit, Some(run), after) else Again(Some(run), after)
  }

  /** The whole session: how it ends, the batches it ran in order, and the folders left. */
  datatype Trace = Trace(end: End, batches: seq<BatchRun>, dirs: set<Role>)

  function Prepend(runs: seq<BatchRun>, t: Trace): Trace {
    Trace(t.end, runs + t.batches, t.dirs)
  }

  /** The session loop over `rounds[i..]`, starting from the folders `dirs`. */
  function Session(rounds: seq<Round>, i: nat, cwd: string, dirs: set<Role>): (t: Trace)
    requires i <= |rounds|
    ensures |t.batches| <= |rounds| - i
    decreases |rounds| - i
  {
    if i == |rounds| then Trace(AwaitingInput, [], dirs)
    else
      var p := LoopPass(rounds[i], cwd, dirs);
      if p.Stop? then Trace(p.end, Runs(p.run), p.after)
      else Prepend(Runs(p.run), Session(rounds, i + 1, cwd, p.after))
  }

  /** One iteration of `main`'s `while True` loop, on the real working folders. */
  method RunPass(ws: Workspace, cwd: string, r: Round) returns (p: Pass, successCount: nat)
    modifies ws
    ensures p == LoopPass(r, cwd, old(ws.existing)) && ws.existing == p.after
    ensures p.run.Some? ==> successCount == CountSuccess(p.run.value.outcomes)
  {
    successCount := 0;
    var target := GetTargetLoudness(r.menu);
    if target.None? {
      return Stop(Crashed, None, ws.existing), 0;
    }
    var found := GetInputFiles(r.pathLine, cwd, r.fs);
    if found.outcome.Exit? {
      return Stop(Exited(found.outcome.code), None, ws.existing), 0;
    } else if found.outcome.Raised? {
      return Stop(Crashed, None, ws.existing), 0;
    }
    var files := found.outcome.files;
    if files == [] {
      if r.retryReply.None? {
        return Stop(Crashed, None, ws.existing), 0;
      } else if Stops(r.retryReply.value) {
        return Stop(Quit, None, ws.existing), 0;
      }
      return Again(None, ws.existing), 0;
    }
    var made := ws.PrepareNormalizer();
    var ready := ws.existing;
    var outcomes;
    outcomes, successCount := RunBatch(files, r.results, ready);
    assert outcomes == BatchOutcomes(files, r.results, ready);
    ws.CleanupTemp(r.tempRemovalFails);
    var run := BatchRun(target.value, ready, outcomes);
    if r.restartReply.None? {
      return Stop(Crashed, Some(run), ws.existing), successCount;
    } else if Stops(r.restartReply.value) {
      return Stop(Quit, Some(run), ws.existing), successCount;
    }
    return Again(Some(run), ws.existing), successCount;
  }

  /** `main`: loop over the rounds until an answer, an exit or a crash ends it. */
  method RunSession(ws: Workspace, cwd: string, rounds: seq<Round>) returns (end: End, batches: seq<BatchRun>)
    modifies ws
    ensures var t := Session(rounds, 0, cwd, old(ws.existing));
            end == t.end && batches == t.batches && ws.existing == t.dirs
  {
    ghost var whole := Session(rounds, 0, cwd, ws.existing);
    batches := [];
    var i := 0;
    while i < |rounds|
      invariant 0 <= i <= |rounds|
      invariant whole == Prepend(batches, Session(rounds, i, cwd, ws.existing))
    {
      LoopStep(rounds, i, cwd, ws.existing, batches, whole);
      var p, successCount := RunPass(ws, cwd, rounds[i]);
      batches := batches + Runs(p.run);
      if p.Stop? {
        return p.end, batches;
      }
      i := i + 1;
    }
    return AwaitingInput, batches;
  }

  /** A session is its first pass followed, if the loop goes on, by the session over the later rounds. */
  lemma SessionStep(rounds: seq<Round>, i: nat, cwd: string, dirs: set<Role>)
    requires i < |rounds|
    ensures var p := LoopPass(rounds[i], cwd, dirs);
            Session(rounds, i, cwd, dirs)
              == if p.Stop? then Trace(p.end, Runs(p.run), p.after)
                 else Prepend(Runs(p.run), Session(rounds, i + 1, cwd, p.after))
  {
  }

  lemma PrependTwice(batches: seq<BatchRun>, runs: seq<BatchRun>, t: Trace)
    ensures Prepend(batches, Prepend(runs, t)) == Prepend(batches + runs, t)
  {
    assert batches + (runs + t.batches) == (batches + runs) + t.batches;
  }

  /** What one pass of the loop does to the invariant of `RunSession`. */
  lemma LoopStep(rounds: seq<Round>, i: nat, cwd: string, dirs: set<Role>, batches: seq<BatchRun>, whole: Trace)
    requires i < |rounds|
    requires whole == Prepend(batches, Session(rounds, i, cwd, dirs))
    ensures var p := LoopPass(rounds[i], cwd, dirs);
            if p.Stop? then whole == Trace(p.end, batches + Runs(p.run), p.after)
            else whole == Prepend(batches + Runs(p.run), Session(rounds, i + 1, cwd, p.after))
  {
    var p := LoopPass(rounds[i], cwd, dirs);
    SessionStep(rounds, i, cwd, dirs);
    if p.Again? {
      PrependTwice(batches, Runs(p.run), Session(rounds, i + 1, cwd, p.after));
    }
  }

  // ---------------------------------------------------------------- properties of the session

  /** Every batch of `bs` aimed at a target strictly between -70 and 0 LUFS and ran with output and temp present. */
  predicate AllSound(bs: seq<BatchRun>) {
    forall k :: 0 <= k < |bs| ==> InRange(bs[k].target) && NormalizerRoles <= bs[k].dirs
  }

  lemma AllSoundConcat(a: seq<BatchRun>, b: seq<BatchRun>)
    requires AllSound(a) && AllSound(b)
    ensures AllSound(a + b)
  {
    forall k | 0 <= k < |a + b| ensures InRange((a + b)[k].target) && NormalizerRoles <= (a + b)[k].dirs {
      if k >= |a| { assert (a + b)[k] == b[k - |a|]; }
    }
  }

  /**
   * Every batch of a session targets a loudness strictly between -70 and 0 LUFS and,
   * because the folders are prepared before each batch, never lacks output or temp.
   */
  lemma {:induction false} BatchesSound(rounds: seq<Round>, i: nat, cwd: string, dirs: set<Role>)
    requires i <= |rounds|
    ensures AllSound(Session(rounds, i, cwd, dirs).batches)
    decreases |rounds| - i
  {
    if i < |rounds| {
      var p := LoopPass(rounds[i], cwd, dirs);
      SessionStep(rounds, i, cwd, dirs);
      var rest: seq<BatchRun> := [];
      if p.Again? {
        BatchesSound(rounds, i + 1, cwd, p.after);
        rest := Session(rounds, i + 1, cwd, p.after).batches;
      }
      AllSoundConcat(Runs(p.run), rest);
    }
  }

  /** A pass ends the loop by the user's choice only on a "n" or "q" reply. */
  lemma PassQuitsOnStopReply(r: Round, cwd: string, dirs: set<Role>)
    ensures var p := LoopPass(r, cwd, dirs);
            p.Stop? && p.end == Quit <==> UserStops(r, cwd)
    ensures var p := LoopPass(r, cwd, dirs);
            p.Stop? && p.end == Quit ==> if p.run.None? then StopsOn(r.retryReply) else StopsOn(r.restartReply)
  {
  }

  /** A session the user ends was ended by a "n" or "q" answer at one of its prompts. */
  lemma {:induction false} QuitNeedsStopReply(rounds: seq<Round>, i: nat, cwd: string, dirs: set<Role>)
    requires i <= |rounds|
    ensures Session(rounds, i, cwd, dirs).end == Quit ==>
              exists j :: i <= j < |rounds| && UserStops(rounds[j], cwd)
    decreases |rounds| - i
  {
    if i < |rounds| {
      var p := LoopPass(rounds[i], cwd, dirs);
      SessionStep(rounds, i, cwd, dirs);
      PassQuitsOnStopReply(rounds[i], cwd, dirs);
      if p.Again? {
        QuitNeedsStopReply(rounds, i + 1, cwd, p.after);
      }
    }
  }

  /**
   * The user ends the loop at the prompt the pass reaches: with a target chosen and
   * a queue found, "n" or "q" at the retry prompt when the queue is empty, or at
   * the restart prompt after a batch.
   */
  predicate UserStops(r: Round, cwd: string) {
    var o := Discover(r.pathLine, cwd, r.fs).outcome;
    && Select(r.menu).Some?
    && o.Found?
    && if o.files == [] then StopsOn(r.retryReply) else StopsOn(r.restartReply)
  }

  /** At the "Try again?" prompt any reply but "n" or "q" goes round again, with no batch and the folders as they were. */
  lemma EmptyQueueContinues(r: Round, cwd: string, dirs: set<Role>)
    requires Select(r.menu).Some?
    requires Discover(r.pathLine, cwd, r.fs).outcome == Found([])
    requires r.retryReply.Some? && !Stops(r.retryReply.value)
    ensures LoopPass(r, cwd, dirs) == Again(None, dirs)
  {
  }

  /** After a batch, any reply but "n" or "q" to "Start a new process?" goes round again with that batch. */
  lemma AfterBatchContinues(r: Round, cwd: string, dirs: set<Role>)
    requires Select(r.menu).Some?
    requires Discover(r.pathLine, cwd, r.fs).outcome.Found? && Discover(r.pathLine, cwd, r.fs).outcome.files != []
    requires r.restartReply.Some? && !Stops(r.restartReply.value)
    ensures LoopPass(r, cwd, dirs).Again? && LoopPass(r, cwd, dirs).run.Some?
  {
  }

  /** A pass whose replies never stop the loop, whose menu and path are answered, goes round again. */
  lemma PassContinues(r: Round, cwd: string, dirs: set<Role>)
    requires Select(r.menu).Some?
    requires Discover(r.pathLine, cwd, r.fs).outcome.Found?
    requires r.retryReply.Some? && !Stops(r.retryReply.value)
    requires r.restartReply.Some? && !Stops(r.restartReply.value)
    ensures LoopPass(r, cwd, dirs).Again?
  {
  }
}
