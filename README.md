# video_processor, modelled in Dafny

The system watches a download directory for video files. When a video arrives it waits for the
file to stop growing, copies it to a scratch directory ("temp"), and runs a transcription pipeline
on the copy. The pipeline converts the video to MP3, runs speech recognition, and can refine the
text into an optimized version and a summary. It records the result in a workbook with one row per
video and writes the texts to files.

The model has six modules:

- `Wrappers` (wrappers.dfy): `Option`, `Result`, and Python truthiness of an optional string.
- `PathNames` (path_names.dfy): the path operations the code relies on:
  - `str.rfind`;
  - pathlib's `name`, `suffix` and `stem`;
  - `os.path.join`;
  - `str.lower` on suffixes;
  - the glob `*.[mM][pP]4`.
- `Monitor` (monitor.dfy): the watch handler `VideoHandler` of monitor.py.
  - It is a class whose three set fields are updated in place, one method per handler.
  - The coordinator `_process_video` is split into its `try` body (`RunSteps`) and its `finally`
    block (`Cleanup`).
  - The start-up re-scan of `main` is a loop over the listing (`ProcessExisting`).
  - What the coordinator learns from the outside world during one run is an `Attempt` value:
    - the two size samples (`None` when `stat` raises);
    - whether the directories could be created;
    - the copy outcome;
    - the pipeline outcome;
    - whether the unlink succeeds.
  - The watched directory is a map from file name to size. The scratch directory is a set of names.
  - Two ghost traces record the names handed to the coordinator (`runs`) and the scratch paths
    handed to the pipeline (`pipelineCalls`), so "exactly once" and "never called" can be stated.
- `Settings` (settings.dfy): `Config.load_config` and its defaults, and whether a refiner is set up.
- `Transcripts` (transcripts.dfy): the workbook table and the row upsert of `_save_to_excel`.
  - The upsert runs on an array-backed frame.
  - The masked assignment updates the array in place.
  - The concatenation builds a new, longer array.
- `VideoProcessing` (video_processor.dfy): `VideoProcessor`.
  - The artifact paths (`AudioPath`, `RawPath`, `OptimizedPath`, `SummaryPath`) are functions of
    the `Config`.
  - `convert_video_to_mp3`, `_save_to_excel`, the transcript-file writes of `process_video`
    (`WriteTranscriptFiles`) and `process_video` itself are methods over a `Store` of files
    (videos, MP3s, text files, the workbook).
  - Each method is proved against a specification function: `ConvertedAudio`, `SavedWorkbook`,
    `WriteArtifacts` and `Run`.
  - The properties are lemmas about those functions.
  - Conversion, recognition, refinement, the clock and every write are oracle values in a `Steps`
    record.

A file that vanishes during the stability probe makes `stat()` raise (monitor.py:107, 109), and
the outer handler logs the fault (monitor.py:147-149). In the model this is an `Attempt` whose size sample is `None`. It leaves the
same state as an unstable file: the in-flight mark is released and there is no copy and no
pipeline call. It is still a different path of the code.

## Model

| member | source | states |
|---|---|---|
| PathNames.LastIndexOf | monitor.py:28 | `str.rfind`, on which pathlib's suffix and stem rest: -1 or the index of the character, with no occurrence after it |
| PathNames.Name | monitor.py:35 | pathlib's `name`: a final component without '/' that ends the path |
| PathNames.Suffix | monitor.py:28 | pathlib's suffix: empty, or a dot followed by at least one character and no further dot, and it ends the name |
| PathNames.Stem | video_processor.py:128 | the stem followed by the suffix gives back the name, and a non-empty name has a non-empty stem |
| PathNames.SplitDotted | monitor.py:87-91 | a non-empty stem, dotted or not, plus a dotted extension splits back into that stem and extension |
| PathNames.NameOfJoin | monitor.py:119-123 | joining a plain file name onto a directory gives a path whose final component is that name |
| PathNames.JoinInjective | video_processor.py:263-279 | joining relative names onto one directory gives equal paths exactly when the names are equal |
| PathNames.GlobMatchesMp4Suffix | monitor.py:20 | the seeding glob and the lower-cased ".mp4" suffix test agree, except on the hidden file ".mp4" itself |
| Monitor.ScratchPath | monitor.py:119-123 | the scratch copy of a plain name keeps that name and its stem |
| Monitor.NonVideoNeverAccepted | monitor.py:28-32 | a name without a ".mp4", ".mov" or ".avi" suffix is rejected whatever the handler's state |
| Monitor.PendingIsNotVideo | monitor.py:28-30 | a ".temp" file is never a candidate itself |
| Monitor.SeededAreNotReaccepted | monitor.py:19-21 | a seeded name with a real ".mp4" suffix is never accepted again; seeding covers exactly the names whose lower-cased suffix is ".mp4", so ".mov" and ".avi" files present at start-up are not seeded |
| Monitor.SuccessNeedsStableSizesAndTranscript | monitor.py:107-112 | unfolds `AttemptSucceeds`: both size samples exist and are equal, the directories are ready, the copy succeeds and the pipeline returns a non-empty text; that the processed set grows exactly on such an attempt is the contract of `Monitor.VideoHandler.ProcessVideo` |
| Monitor.UnstableTouchesNothing | monitor.py:109-112 | with unequal or missing size samples there is no pipeline call, no success and no change to the scratch directory |
| Monitor.ScratchCleanedUp | monitor.py:150-157 | after a run the scratch file is present exactly when its unlink failed, or the run never armed the cleanup and the file was there before; other scratch files are untouched |
| Monitor.VideoHandler.constructor | monitor.py:12-21 | the processed set is exactly the glob matches of the watched directory; the other sets and both traces are empty |
| Monitor.VideoHandler.ShouldProcess | monitor.py:24-52 | the verdict is: video suffix, not processed, not in flight, and present; the stem is recorded only for a ".temp" name; the processed and in-flight sets are not changed |
| Monitor.VideoHandler.ProcessVideo | monitor.py:95-161 | on every path of the `try` body, with the `finally` block's `exists()` probe returning, the name leaves the in-flight set, the processed set gains the name exactly on success, the scratch directory follows `ScratchAfter`, the run is recorded once, and the pipeline sees the scratch path only when the copy succeeded |
| Monitor.VideoHandler.RunSteps | monitor.py:98-146 | the `try` body: the cleanup is armed exactly when the sizes are stable and the directories are ready; unequal samples release the in-flight mark early; a full or partial copy adds the scratch file; success adds the name |
| Monitor.VideoHandler.Cleanup | monitor.py:150-161 | the `finally` block, with its `exists()` probe returning: the in-flight mark is gone afterwards, and the scratch file is removed only when armed and the unlink succeeds |
| Monitor.VideoHandler.OnCreated | monitor.py:54-64 | a directory event changes nothing; otherwise the filter's stem bookkeeping happens, and one coordinator run follows exactly when the filter accepts |
| Monitor.VideoHandler.OnModified | monitor.py:66-76 | same as the create handler |
| Monitor.VideoHandler.OnMoved | monitor.py:78-93 | only a ".temp" to ".mp4" rename of a recorded stem removes that stem and runs the coordinator once on the destination, without the filter; anything else changes nothing |
| Monitor.UnprocessedMembers | monitor.py:208-214 | the re-scan's candidates are exactly the listed names not yet processed, and a listing without repeats gives candidates without repeats |
| Monitor.RescanProcessesSuccessful | monitor.py:208-214 | the re-scan adds to the processed set exactly the listed, previously unprocessed names whose run succeeds |
| Monitor.RescanRunsEachPendingOnce | monitor.py:208-214 | the re-scan hands each listed, previously unprocessed name to the coordinator once, in listing order, and no other name |
| Monitor.RescanPipelineCallsInOrder | monitor.py:208-214 | the pipeline sees the scratch paths of those runs that reach it, in listing order |
| Monitor.RescanReleasesAndCleans | monitor.py:208-214 | after the re-scan none of the names it ran is in flight, and the scratch directory changed only at their files |
| Monitor.RescanOfProcessedIsIdle | monitor.py:208-214 | a re-scan over names that are all processed changes nothing |
| Monitor.ProcessExisting | monitor.py:208-214 | the loop leaves the handler and scratch directory in the state `Rescan` gives for the listing, and keeps the recorded stems |
| Monitor.StartWatching | monitor.py:197-214 | constructing the handler and re-scanning the same glob listing runs nothing: the processed set is the seed, nothing is in flight, no stem is pending, and the scratch directory is unchanged |
| Settings.LoadConfig | video_processor.py:26-67 | loading succeeds exactly for a missing file or a mapping whose settings have the right shapes; a missing file gives the defaults; a YAML error raises |
| Settings.LoadedDirectoryIsEntryOrDefault | video_processor.py:33-36 | each directory setting is the document's value under its key, or its default when the key is absent |
| Settings.LoadedTableIsEntryOrDefault | video_processor.py:37-47 | each API table is the document's table under its key, replacing the default table whole, or the default table when the key is absent |
| Settings.EmptyMappingIsMissingFile | video_processor.py:29-67 | an empty mapping loads the same configuration as a missing file; a document that is not a mapping (an empty file included) raises |
| Settings.PartialAsrTableDropsProvider | video_processor.py:37-41 | an `asr_api` table without "provider" is not merged with the default: the loaded table has no provider |
| Settings.RefinerConfigured | video_processor.py:112-123 | a refiner exists only with a non-empty DeepSeek `api_key` |
| Settings.DefaultsDisableRefiner | video_processor.py:61-66 | under the default configuration there is no refiner |
| Transcripts.NewRow | video_processor.py:197-203 | the row carries the name, time and transcript; the optimized text and the summary are stored as "" exactly when they are absent or empty |
| Transcripts.UpsertFrame | video_processor.py:205-209 | the frame afterwards is `Upsert` of the frame before; a present name updates the frame in place, a new name gives a fresh frame one row longer |
| Transcripts.UpsertExisting | video_processor.py:206-207 | upserting a present name keeps the row count, puts the new row wherever the name was, and leaves other names' rows untouched |
| Transcripts.UpsertNew | video_processor.py:208-209 | upserting a new name appends exactly that row after the earlier rows, in order |
| Transcripts.UpsertRecords | video_processor.py:205-209 | after an upsert the table holds the name, and every row with that name is the new row |
| Transcripts.UpsertLastWins | video_processor.py:205-209 | two upserts of one name leave what the later alone would; upserting the same row twice equals once |
| Transcripts.UpsertKeepsNamesUnique | video_processor.py:205-209 | a table with unique names keeps unique names after an upsert |
| VideoProcessing.ArtifactPathsDistinct | video_processor.py:263-279 | the raw, optimized and summary files of one video are three different files |
| VideoProcessing.RawAndOptimizedNamesCollide | video_processor.py:267-273 | the raw transcript of stem "x_optimized" is the same file as the optimized transcript of stem "x" |
| VideoProcessing.AudioPathIgnoresExtension | video_processor.py:128-129 | two videos in one directory that differ only in extension share one MP3 path, whatever dots their common stem holds |
| VideoProcessing.SavedOverUnreadableHoldsOneRow | video_processor.py:187-213 | a missing or unreadable workbook is overwritten by a sheet holding only the new row, so its earlier contents are lost; a readable sheet keeps its length or grows by one |
| VideoProcessing.ConvertIdempotent | video_processor.py:128-152 | once conversion has succeeded, converting again returns the same path and changes nothing; no other MP3 is touched, and none disappears |
| VideoProcessing.WriteArtifactsComplete | video_processor.py:266-281 | when no write raises, the raw file holds the transcript, and the optimized and summary files hold their texts whenever those are non-empty |
| VideoProcessing.WriteArtifactsOwnFilesOnly | video_processor.py:266-281 | whatever raises, only the video's own three files are written, each with its own text, and the optional two only for non-empty texts |
| VideoProcessing.RunResult | video_processor.py:219-288 | `process_video` returns a value exactly when the video exists and no step raises, and that value is the recognised text unchanged; a missing video returns `None` and changes nothing |
| VideoProcessing.SuccessfulRunRecordsTranscript | video_processor.py:237-284 | after a successful run the MP3 exists, the raw file holds the transcript, the non-empty optional texts are in their files, and the workbook's rows for the stem are exactly the run's row |
| VideoProcessing.RunTouchesOnlyItsArtifacts | video_processor.py:219-288 | a run changes no video, only adds its own MP3, and writes only its own three text files with their own texts |
| VideoProcessing.RefinementFaultIsNoRefiner | video_processor.py:246-256 | a refinement fault, an empty transcript and a missing refiner all give the same run as no refiner |
| VideoProcessing.VideoProcessor.constructor | video_processor.py:112-123 | the processor keeps its configuration and has a refiner exactly as `RefinerConfigured` says |
| VideoProcessing.VideoProcessor.ConvertToMp3 | video_processor.py:125-155 | an existing MP3 is returned unconverted; otherwise a path is returned only when the export wrote the file, and the MP3 set follows `ConvertedAudio` (a partial file left by a failed export stays) |
| VideoProcessing.VideoProcessor.SaveToExcel | video_processor.py:182-217 | the result is whether `to_excel` succeeded, and the workbook becomes the upserted table only then |
| VideoProcessing.VideoProcessor.WriteTranscriptFiles | video_processor.py:262-281 | the text files and the result follow `WriteArtifacts`: the raw file, then the non-empty optional files, stopping at the first write that raises |
| VideoProcessing.VideoProcessor.ProcessVideo | video_processor.py:219-288 | the result and the files afterwards are exactly `Run` of the files before |

## Left out

- The watchdog `Observer`, the run loop, the shutdown `rmtree` and the logging setup
  (monitor.py:163-206, 216-235). They are event-subsystem and process-lifecycle I/O.
- The `time.sleep` calls (monitor.py:104, 108). The stability probe is two size samples supplied
  with the call.
- Real file system work: `stat`, `shutil.copy2`, `unlink`, `makedirs`, `mkdir`, `open`, `write`.
  Each is an oracle outcome.
  - A write that raises is modelled as writing nothing. A partially written text file is not
    modelled.
  - A failed `to_excel` is modelled as leaving the workbook unchanged.
- Event paths are represented by their file names. The handler's sets and the watched directory
  are keyed by name. Directory components of an event path, and a trailing '/' that pathlib would
  strip, are not modelled.
- `str.lower` is modelled on ASCII letters only. No non-ASCII character lowers to a single
  character of ".mp4", ".mov", ".avi" or ".temp" (one such as U+0130 lowers to two code points, so
  the lowered text grows and cannot equal a suffix), so the suffix tests are unaffected.
- Monitor.VideoHandler.Cleanup and Monitor.VideoHandler.ProcessVideo: the `temp_path.exists()`
  probe at monitor.py:152 is taken to return. It sits outside the inner `try`, and pathlib's
  `exists()` re-raises an OSError other than "not found", such as a permission error on an
  unsearchable "temp" directory. When it raises, lines 160-161 are skipped. The name then stays in
  `processing_files`, so the filter (monitor.py:40) rejects every later event for it. The exception
  also leaves `_process_video`: for a live event it reaches the event dispatch thread, and during
  the start-up re-scan it reaches `main`'s handler (monitor.py:221) and ends the program. The model's
  "released on every path" holds only for runs whose probe returns, and `AfterRun`, the three
  handlers and `Rescan` inherit that assumption.
- Monitor.Accepts: an `exists()` probe that raises is modelled as an absent file. Both make the
  filter return False.
- Loading the Whisper model, speech recognition, pydub conversion, pandas/openpyxl reading and
  writing (video_processor.py:101-110, 139-146, 157-180, 189, 213). These are foreign libraries.
  Their outcomes are oracle values, and only the row-sequence logic of the workbook is kept.
- Settings.LoadConfig: a setting of the wrong shape (a number for a directory, a string for an API
  table) is rejected at load time with `WrongType`. The Python code accepts any value there and
  fails later, if at all, where the value is used.
- Transcripts.TableOf: a workbook read back by pandas is taken to have the five fixed columns and
  string cells. Foreign columns, type inference, and empty cells read back as NaN are not modelled.
- `VideoProcessor.__init__`'s `_setup_logging`, `_setup_directories` and `_setup_asr_model`
  (video_processor.py:72-110). The ASR provider check is part of model loading.
- `call_asr_api` (video_processor.py:157-180): its text is the `recognition` oracle.
- text_processor.py, process_video.py and main.py are not part of this model. The first is a
  wrapper around a remote language-model client, and the refinement result is an oracle. The other
  two are script glue.
- Concurrency: events are handled one at a time on one dispatch thread, and the model is
  sequential. The in-flight check of the filter (monitor.py:40) still matters in the source, because
  `main` starts the observer (monitor.py:204) before its start-up re-scan (monitor.py:208-214), so an
  event can arrive while a re-scan run holds its in-flight mark. The model keeps the check but does
  not produce that interleaving.
- Monitor.ProcessExisting and Monitor.StartWatching: the re-scan runs with no event interleaved,
  and `StartWatching` takes the listing at line 208 to be the one the constructor saw at line 197.
  In the source, event dispatch overlaps the re-scan, and a file that arrived after construction
  can appear in that listing and be run by the re-scan.
- The handler and the processor are not linked in the model. The monitor's pipeline outcome
  (`PipelineOutcome`) stands for the `Option<string>` that `VideoProcessor.ProcessVideo` returns,
  or for an exception.
