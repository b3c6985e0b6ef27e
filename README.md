# Audio mastering and loudness normalization: a Dafny model of the batch drivers

The repository has two interactive batch scripts.

- `audio_enhancer.py` masters audio files. Each file is converted to 48 kHz WAV, loudness-normalized to -23 LUFS, cleaned with DeepFilterNet and encoded as a 320 kbit/s MP3.
- `audio_normalizer.py` normalizes audio files to a loudness target the user picks from a menu.

Both scripts ask for a file or folder, queue the supported audio files in it, and run every queued file through their stages. They isolate failures per file, manage scratch folders, and ask whether to run another batch.

This project models the decision logic of both scripts:

- input discovery;
- artifact naming;
- target-loudness selection;
- per-file stage sequencing;
- batch counting;
- the working-directory lifecycle;
- the session loop.

It proves what that logic promises.

Every library call (pydub, PyAV, soundfile, pyloudnorm, DeepFilterNet) is an abstract per-file stage outcome (`StageResults`). A stage also fails when the folder it writes into does not exist. The filesystem the scripts query is a function from a path to its kind, `Directory(entries)`, `RegularFile`, `OtherNode` or `Missing`, with the directory listing in `os.listdir` order. The user's answers are inputs; `None` stands for end of input.

Modules:

- `Wrappers`: `Option`.
- `Paths`: Python's `str.strip`/`lower`/`endswith` and POSIX `os.path.basename`/`splitext`/`join`, the path cleaning of the input prompt, and the yes/no answer normalization.
- `Discovery`: the folder scan that both `get_input_files` share.
- `WorkingDirs`: the working folders as a set of roles, and the `Workspace` class whose methods create and remove them.
- `Loudness`: `get_target_loudness`.
- `Sessions`: how a session ends.
- `Enhancer`: discovery, naming, pipeline, batch and session of `audio_enhancer.py`.
- `Normalizer`: the same for `audio_normalizer.py`.

The imperative parts are methods proved against the functions that specify them:

- `CollectSupported`, `GetInputFiles`, `GetTargetLoudness`;
- both `RunBatch`, `RunPass` and `RunSession`;
- the `Workspace` methods.

The properties are lemmas about those functions.

`audio_normalizer.py:140-141` returns every path whose lower-cased form ends in `.wav` unchanged, whatever its sample rate; `Normalizer.ConvertToWav` does the same.

## Model

| member | source | states |
|---|---|---|
| Paths.Strip | audio_enhancer.py:108 | what `str.strip(cs)` leaves neither starts nor ends with a character of `cs` |
| Paths.StripSlice | audio_enhancer.py:108 | the stripped text is the slice `s[i..j]`, and everything cut off before `i` and from `j` on belongs to `cs` |
| Paths.CleanInput | audio_enhancer.py:108 | the path after `.strip().strip('"').strip("'")` is a contiguous substring of the raw line and neither starts nor ends with `'` |
| Paths.Answer | audio_enhancer.py:300 | `input().strip().lower()`; `AnswerIsLetter` states which replies equal a letter |
| Paths.AnswerIsLetter | audio_enhancer.py:300 | a reply normalized by `.strip().lower()` equals a letter exactly when, stripped, it is that letter in either case |
| Paths.HasSupportedExtension | audio_enhancer.py:126 | `f.lower().endswith(SUPPORTED_EXTENSIONS)`; `SupportedSuffix` and `SupportedExtensionShape` state its properties |
| Paths.IsWav | audio_normalizer.py:140 | `file_path.lower().endswith(".wav")`; `Normalizer.WavIsSupported` ties it to the supported-extension test |
| Paths.SupportedSuffix | audio_enhancer.py:23 | the case-insensitive supported-extension test only looks at the end of the path: any prefix keeps a supported name supported |
| Paths.BaseName | audio_enhancer.py:161 | `os.path.basename` is the separator-free tail of the path, preceded by a '/' when shorter than it |
| Paths.Join | audio_enhancer.py:127 | POSIX `os.path.join`: the joined path ends with the joined name; `BaseNameOfJoin` gives its basename |
| Paths.BaseNameOfJoin | audio_enhancer.py:162 | the basename of `os.path.join(dir, name)` for a plain name is that name |
| Paths.Stem | audio_enhancer.py:244 | `splitext(name)[0]` is a prefix of the name, non-empty for a non-empty name; anything it removes is a '.' followed by a dot-free tail |
| Paths.StemOfAppend | audio_enhancer.py:244 | the stem of `base + ext` for a one-dot extension is `base` whenever `base` is not all dots |
| Paths.SupportedExtensionShape | audio_enhancer.py:23 | each of the nine extensions is a '.' followed by a dot-free, separator-free tail |
| Discovery.SupportedIn | audio_enhancer.py:125-127 | the scan queues at most one path per listed name, and every queued path passes the extension test |
| Discovery.SupportedPositions | audio_enhancer.py:126 | the supported names' positions, strictly increasing, each supported, and every supported position included |
| Discovery.ScanFollowsListing | audio_enhancer.py:125-127 | the k-th queued path is the k-th supported listed name joined to the folder: exactly the supported names, in listing order |
| Discovery.CollectSupported | audio_enhancer.py:132-134 | the `for f in os.listdir(...)` append loop builds exactly the scan's queue |
| WorkingDirs.AfterCleanup | audio_enhancer.py:264-280 | cleanup removes temp, removes intermediate unless kept, never touches output, and a removal that raises leaves that folder in place |
| WorkingDirs.AfterTempCleanup | audio_normalizer.py:205-208 | `cleanup_temp` removes only temp unless its removal raises; every other folder is unchanged |
| WorkingDirs.Workspace.Ensure | audio_enhancer.py:152-153 | `makedirs` runs exactly when the folder is absent, and the folder exists afterwards |
| WorkingDirs.Workspace.PrepareEnhancer | audio_enhancer.py:151-157 | output, temp and intermediate exist afterwards; exactly the absent ones were created |
| WorkingDirs.Workspace.PrepareNormalizer | audio_normalizer.py:127-132 | output and temp exist afterwards; exactly the absent ones were created |
| WorkingDirs.Workspace.PrepareEnhancerTwice | audio_enhancer.py:151-157 | a second `prepare_working_dirs` on the workspace creates nothing and leaves the folders the first one made |
| WorkingDirs.Workspace.PrepareNormalizerTwice | audio_normalizer.py:127-132 | a second `prepare_working_dirs` on the workspace creates nothing and leaves the folders the first one made |
| WorkingDirs.Workspace.CleanupFolders | audio_enhancer.py:264-280 | the folders left are those `AfterCleanup` describes |
| WorkingDirs.Workspace.CleanupTemp | audio_normalizer.py:205-208 | the folders left are those `AfterTempCleanup` describes |
| Loudness.Choose | audio_normalizer.py:66-82 | any target a choice accepts lies strictly between -70 and 0 LUFS |
| Loudness.MenuStep | audio_normalizer.py:64-82 | one menu attempt, `input(...).strip()` then the dispatch; any target it accepts lies strictly between -70 and 0 |
| Loudness.PresetChoices | audio_normalizer.py:21-25 | an empty choice and choice "1" give -23.0, "2" gives -16.0, "3" gives -14.0 |
| Loudness.CustomChoice | audio_normalizer.py:72-80 | choice "4" accepts a custom value v iff -70 < v < 0 and re-prompts on an unparseable number |
| Loudness.UnknownChoiceRetries | audio_normalizer.py:81-82 | every other choice re-prompts |
| Loudness.Select | audio_normalizer.py:63-82 | the value the retry loop returns is always strictly between -70 and 0 |
| Loudness.SelectFirstAccept | audio_normalizer.py:63-82 | the loop returns the value of the first attempt that is accepted |
| Loudness.SelectNone | audio_normalizer.py:63-64 | the loop never returns exactly when every attempt re-prompts, so input runs out |
| Loudness.GetTargetLoudness | audio_normalizer.py:56-82 | the `while True` prompt loop returns what `Select` specifies, a target strictly inside the range |
| Enhancer.Discover | audio_enhancer.py:101-149 | the four-case dispatch of `get_input_files`; its exits are characterized by `DiscoveryExits`, its queue by `QueuedFilesSupported` and `Discovery.ScanFollowsListing` |
| Enhancer.ScanDefault | audio_enhancer.py:115-127 | an empty answer: a missing default folder is created and the script exits with 0, a folder is scanned, anything else makes `os.listdir` raise; see `DiscoveryExits` |
| Enhancer.ScanTyped | audio_enhancer.py:128-147 | a typed folder is scanned, a supported file queued alone, anything else exits with 1; see `DiscoveryExits` and `QueuedFilesSupported` |
| Enhancer.GetInputFiles | audio_enhancer.py:101-149 | the imperative discovery returns the outcome of the four-case dispatch |
| Enhancer.ScanDefaultFolder | audio_enhancer.py:115-127 | the default folder is created and the script exits with 0 when it is missing; otherwise it is scanned |
| Enhancer.ScanTypedPath | audio_enhancer.py:130-147 | a typed folder is scanned, a supported file queued alone, and anything else exits with status 1 |
| Enhancer.DiscoveryExits | audio_enhancer.py:107-147 | exit 0 iff end of input or a missing default folder, and only then is the folder created; exit 1 iff the typed path is neither a folder nor a supported file |
| Enhancer.QueuedFilesSupported | audio_enhancer.py:125-140 | every queued path passes the supported-extension test |
| Enhancer.ConvertedPath | audio_enhancer.py:160-162 | `temp/<stem>.wav`; its shape is stated by `ArtifactChain` |
| Enhancer.NormalizedPath | audio_enhancer.py:183-185 | the input's basename under the intermediate folder, `intermediate/<stem>.wav` by `ArtifactChain` |
| Enhancer.EnhancedPath | audio_enhancer.py:209-211 | the input's basename under the output folder, `output/<stem>.wav` by `ArtifactChain` |
| Enhancer.DeliverablePath | audio_enhancer.py:244-245 | `output/<stem>.mp3` from the original basename; `DeliverableCollision` shows two inputs sharing it |
| Enhancer.ArtifactChain | audio_enhancer.py:159-211 | conversion writes `temp/<stem>.wav`, normalization `intermediate/<stem>.wav`, enhancement `output/<stem>.wav` |
| Enhancer.DeliverableCollision | audio_enhancer.py:244-245 | `a.flac` and `a.ogg`, from any folders, are both delivered as `output/a.mp3` |
| Enhancer.ProcessFile | audio_enhancer.py:315-333 | one file through the four stages; its properties are `StagesStopAtFirstFailure`, `NoticeReflectsStages`, `DeliveredArtifacts`, `PreparedOutcome` and `NoTempNoConversion` |
| Enhancer.StagesStopAtFirstFailure | audio_enhancer.py:319-331 | the stages run are a non-empty prefix of convert, normalize, enhance, finalize; all but the last succeeded, and an early stop is at a failed stage |
| Enhancer.NoticeReflectsStages | audio_enhancer.py:319-331 | "Success" is printed iff all four stages succeed; "Failed" iff conversion and normalization succeeded and enhancement failed |
| Enhancer.DeliveredArtifacts | audio_enhancer.py:237-253 | a delivered file leaves the temp WAV, the intermediate WAV and `output/<stem>.mp3`, and its enhanced WAV is removed |
| Enhancer.PreparedOutcome | audio_enhancer.py:319-331 | with all three folders present a file's outcome depends only on its stages, and it is delivered iff all four succeed |
| Enhancer.NoTempNoConversion | audio_enhancer.py:162 | without the temp folder a file stops at a failed conversion |
| Enhancer.RunBatch | audio_enhancer.py:315-333 | every queued file is processed, in queue order, each exactly as it would be alone |
| Enhancer.FailureIsolation | audio_enhancer.py:315-333 | a file that fails to convert does not stop the files before or after it from being delivered |
| Enhancer.ExitsWhenEmpty | audio_enhancer.py:300 | the empty-queue answer read as `.strip().lower() == 'y'`; `Paths.AnswerIsLetter` and `ReplyExamples` say which replies match |
| Enhancer.KeepsNormalized | audio_enhancer.py:308-309 | the retention answer read as `.strip().lower() == 'y'`; `LoopPass` ties it to `keepNormalized` |
| Enhancer.StopsAfterBatch | audio_enhancer.py:341-342 | the after-batch answer read as `.strip().lower() == 'n'`; `PassContinues` and `ReplyExamples` show that other replies, "q" included, go on |
| Enhancer.LoopPass | audio_enhancer.py:296-343 | a pass without a batch leaves the folders as they were; a batch runs in the folders present, keeps the normalized files iff the stripped, lower-cased retention reply is "y", and cleanup with that answer decides the folders left; the pass ends the loop by the user's choice exactly when `UserStops` holds of the prompt it reaches |
| Enhancer.Session | audio_enhancer.py:296-343 | a session runs at most one batch per pass of the loop |
| Enhancer.RunPass | audio_enhancer.py:297-343 | one iteration of the `while True` body on the real folders does what `LoopPass` specifies |
| Enhancer.RunSession | audio_enhancer.py:282-343 | `main` prepares the folders once and then its loop produces the trace `Session` specifies |
| Enhancer.QuitNeedsStopReply | audio_enhancer.py:299-343 | by induction over the session, a session the user ends has a round where `UserStops` holds: a "y" at an empty-queue prompt, or, after a non-empty queue, end of input at the retention prompt or an "n" after the batch; a "q" never ends it |
| Enhancer.UserStops | audio_enhancer.py:299-343 | the stop answer read at the prompt the pass reaches: a "y" at the empty-queue prompt, or after a non-empty queue end of input at the retention prompt or an "n" after the batch; stated by `LoopPass` as an if-and-only-if |
| Enhancer.EmptyQueueContinues | audio_enhancer.py:299-303 | at the empty-queue prompt any reply but "y" goes round again with no batch and the folders unchanged |
| Enhancer.PassContinues | audio_enhancer.py:305-343 | a non-empty queue with a retention reply and any after-batch reply but "n" runs its batch and goes round again |
| Enhancer.ReplyExamples | audio_enhancer.py:300-343 | "Y " exits at an empty queue and "n" does not; " y" keeps the normalized files and an empty reply does not; " N" stops after a batch, while "q" and an empty reply do not |
| Enhancer.WithoutTempEveryConversionFails | audio_enhancer.py:290 | once temp is gone and nothing recreates it, every file of every later batch fails at conversion |
| Enhancer.LaterBatchesFailAsWritten | audio_enhancer.py:290 | as written, when temp's removal succeeds, every batch after the first fails every conversion |
| Enhancer.PreparedBatchesSeeAllDirs | audio_enhancer.py:290 | preparing before each batch gives every batch all three working folders |
| Normalizer.Discover | audio_normalizer.py:84-125 | the dispatch of `get_input_files`; `DiscoveryEmptyQueues`, `OnlyDefaultFolderRaises` and `QueuedFilesSupported` state its outcomes |
| Normalizer.ScanDefault | audio_normalizer.py:99-108 | an empty answer: a missing default folder is created and nothing queued, a folder is scanned, anything else raises; see `DiscoveryEmptyQueues` and `OnlyDefaultFolderRaises` |
| Normalizer.ScanTyped | audio_normalizer.py:111-123 | a typed folder is scanned, a supported file queued, anything else queues nothing; see `DiscoveryEmptyQueues` |
| Normalizer.GetInputFiles | audio_normalizer.py:84-125 | the imperative discovery returns the outcome of the four-case dispatch |
| Normalizer.ScanDefaultFolder | audio_normalizer.py:99-108 | a missing default folder is created and nothing is queued; otherwise the folder is scanned |
| Normalizer.ScanTypedPath | audio_normalizer.py:111-123 | a typed folder is scanned, a supported file queued alone, anything else queues nothing |
| Normalizer.DiscoveryEmptyQueues | audio_normalizer.py:91-123 | discovery exits (status 0) only at end of input; a missing default folder, an unsupported file or an invalid path give an empty queue |
| Normalizer.OnlyDefaultFolderRaises | audio_normalizer.py:106 | discovery raises only when the default path exists but is not a folder |
| Normalizer.QueuedFilesSupported | audio_normalizer.py:106-119 | every queued path passes the supported-extension test |
| Normalizer.TempWavPath | audio_normalizer.py:137-138 | `temp/<stem>.wav`; `TempWavNaming` states its basename and that it passes the `.wav` test |
| Normalizer.NormalizedPath | audio_normalizer.py:179-180 | `output/<stem>_Normalized.wav`; `NormalizedNaming` and `NormalizedCollision` state its properties |
| Normalizer.TempWavNaming | audio_normalizer.py:137-138 | a converted copy is named `<stem>.wav` and passes the `.wav` test itself |
| Normalizer.WavIsSupported | audio_normalizer.py:140-141 | every path the `.wav` skip lets through is a supported input |
| Normalizer.NormalizedNaming | audio_normalizer.py:179-180 | the normalized file's name is `<stem>_Normalized.wav`, the stem taken from the original basename |
| Normalizer.NormalizedCollision | audio_normalizer.py:179-180 | `a.flac` and `a.ogg`, from any folders, both go to `output/a_Normalized.wav` |
| Normalizer.ConvertToWav | audio_normalizer.py:134-173 | a `.wav` path is returned unchanged; any other file yields a WAV iff the conversion and the temp folder work, and that WAV is `temp/<stem>.wav` |
| Normalizer.ProcessFile | audio_normalizer.py:238-250 | one file through conversion and normalization; `NoticeReflectsStages` and `WavNeedsNoTemp` state its properties |
| Normalizer.NoticeReflectsStages | audio_normalizer.py:241-248 | "Status: Success" iff conversion returned a path and normalization succeeded; "Status: Failed" iff only normalization failed; no status iff conversion failed; only a success writes `output/<stem>_Normalized.wav` |
| Normalizer.WavNeedsNoTemp | audio_normalizer.py:140-141 | a `.wav` input is read in place, so its outcome depends on neither the converter nor the temp folder |
| Normalizer.CountSuccess | audio_normalizer.py:236-246 | the success count never exceeds the queue length |
| Normalizer.CountConcat | audio_normalizer.py:236-246 | the count over a queue is the sum of the counts over its parts |
| Normalizer.CountAll | audio_normalizer.py:236-255 | "Completed n/n" iff every file succeeded |
| Normalizer.CountNone | audio_normalizer.py:236-255 | "Completed 0/n" iff no file succeeded |
| Normalizer.RunBatch | audio_normalizer.py:236-250 | every queued file is processed in queue order, each as it would be alone, and `success_count` is exactly the number of successes, at most the queue length |
| Normalizer.FailureIsolation | audio_normalizer.py:236-250 | a file that fails to convert does not stop the others: they succeed and the count is 2 of 3 |
| Normalizer.Stops | audio_normalizer.py:225-226 | a reply read as `.strip().lower()` in `('n', 'q')`, as at the restart prompt too (lines 260-261); `ReplyExamples` shows which replies stop |
| Normalizer.ReplyExamples | audio_normalizer.py:260-261 | an empty reply, "y" and "yes" restart; "N" and " q" stop |
| Normalizer.LoopPass | audio_normalizer.py:216-263 | a pass without a batch leaves the folders; a batch aims at an in-range target, runs with output and temp prepared, and only temp is cleaned up |
| Normalizer.Session | audio_normalizer.py:216-263 | a session runs at most one batch per pass of the loop |
| Normalizer.RunPass | audio_normalizer.py:216-263 | one iteration of the `while True` body on the real folders does what `LoopPass` specifies and reports the batch's success count |
| Normalizer.RunSession | audio_normalizer.py:210-263 | `main`'s loop produces the trace `Session` specifies |
| Normalizer.BatchesSound | audio_normalizer.py:218-252 | every batch of a session aims at a target strictly between -70 and 0 LUFS and runs with output and temp present |
| Normalizer.PassQuitsOnStopReply | audio_normalizer.py:223-263 | a pass ends the loop by the user's choice exactly when `UserStops` holds; a pass that ran no batch read "n" or "q" at the retry prompt, one that ran a batch read it at the restart prompt |
| Normalizer.QuitNeedsStopReply | audio_normalizer.py:216-263 | by induction over the session, a session the user ends has a round where `UserStops` holds: "n" or "q" at the prompt that round reached |
| Normalizer.UserStops | audio_normalizer.py:223-263 | with a target chosen and a queue found, "n" or "q" at the retry prompt for an empty queue, or at the restart prompt after a batch; stated by `PassQuitsOnStopReply` as an if-and-only-if |
| Normalizer.EmptyQueueContinues | audio_normalizer.py:223-229 | at the "Try again?" prompt any reply but "n" or "q" goes round again with no batch and the folders unchanged |
| Normalizer.AfterBatchContinues | audio_normalizer.py:259-263 | after a batch, any reply but "n" or "q" to the restart prompt goes round again with that batch recorded |
| Normalizer.PassContinues | audio_normalizer.py:223-263 | a pass whose replies are neither "n" nor "q" goes round again |

## Left out

- Spinner threads and the shared `is_loading` flag: cosmetic concurrency that does not affect any decision.
- The SIGINT handler, `KeyboardInterrupt` and the process exit: an exit is only the terminal value `Exited(code)`; an uncaught exception is `Crashed`.
- The audio work itself is an abstract success or failure per stage and file. This covers:
  - decoding, resampling and encoding with pydub and PyAV;
  - reading and writing with soundfile;
  - the pyloudnorm measurement and gain;
  - DeepFilterNet inference.

  These are foreign libraries and floating-point numerics. The enhancer's fixed -23 LUFS target is only passed to those libraries, so it does not appear.
- `check_dependencies` and `init_deepfilter_model`, which may exit with status 1 before the loop starts: foreign calls outside the decision logic.
- Printing, `suppress_output` and message formatting.
- `float()` parsing of the custom LUFS value: an input, with `None` standing for ValueError. End of input at the custom-value prompt crashes like end of input at the menu, and both are modelled as the attempts running out.
- The real filesystem. The model does not capture:
  - Windows separators;
  - `os.path.join`'s handling of `..`;
  - non-ASCII `lower()`/`strip()`, since only ASCII letters and ASCII whitespace are modelled.
- A failing `os.makedirs` and a typed folder whose `os.listdir` raises. In the scripts these raise uncaught exceptions and crash them (audio_enhancer.py:118, :132, :153-157; audio_normalizer.py:102, :112, :130-132). The model assumes `makedirs` succeeds and that a typed folder can be listed. It models only the `rmtree` failures that `cleanup_folders` and `cleanup_temp` swallow, and the listing of an existing non-folder default path.
- The filesystem is one snapshot per pass of the loop. A default folder created by discovery is reported by a flag, not written back into later snapshots.
- Stage outcomes are looked up by path, so two queued entries with the same path fare alike.
- Files written by the stages are named by the naming lemmas but not tracked as filesystem state; only the working folders are state.
- Enhancer.DeliveredArtifacts: assumes the `os.remove` of the enhanced WAV at audio_enhancer.py:250-253 succeeds. A failed removal is swallowed and would leave that WAV in the output folder as well.
- Enhancer.NoticeReflectsStages: run_deepfilter's check that its output exists (audio_enhancer.py:227-229) is folded into the enhancement outcome.
- Paths.Stem: models `os.path.splitext` only for names without separators, which is how both scripts call it (on a basename).

## Findings

| source | as written | input that shows it | evidently intended | confidence | as-written member | corrected member |
|---|---|---|---|---|---|---|
| audio_enhancer.py:290 | `prepare_working_dirs()` runs once before the `while True` loop, but `cleanup_folders` at line 335 removes the temp folder after every batch, so every later batch converts into a missing folder | a session of two batches, each of one supported file whose stages all succeed: the second file fails at conversion, prints its conversion error but neither "Success" nor "Failed", and is never delivered | the working folders are ensured before each batch, as the normalizer does at audio_normalizer.py:231, so every batch runs with output, temp and intermediate present | not executed; high | Enhancer.LaterBatchesFailAsWritten | Enhancer.PreparedBatchesSeeAllDirs |
