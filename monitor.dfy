/** The watch-directory handler of monitor.py: the candidacy filter, the create/modify/rename
    handlers, the processing coordinator with its `finally` cleanup, and the start-up re-scan.
    Everything the coordinator learns from the outside world during one run (the two size samples,
    directory creation, the scratch copy, the transcription pipeline, the unlink) is an `Attempt`
    supplied by the caller. */
module Monitor {
  import opened Wrappers
  import opened PathNames

  /** Lower-cased suffixes that make a file a video candidate (monitor.py:28). */
  const VideoSuffixes: set<string> := {".mp4", ".mov", ".avi"}
  /** Suffix of a download still in progress (monitor.py:29, 87). */
  const PendingSuffix: string := ".temp"
  /** The only final suffix a completed download is recognised under (monitor.py:87). */
  const CompletedSuffix: string := ".mp4"
  /** The scratch directory, relative to the working directory (monitor.py:119). */
  const ScratchDir: string := "temp"

  /** The scratch copy of a watched file: `Path("temp") / name`. */
  function ScratchPath(name: string): (p: string)
    ensures '/' !in name ==> Name(p) == name && Stem(Name(p)) == Stem(name)
  {
    if '/' !in name then NameOfJoin(ScratchDir, name); Join(ScratchDir, name)
    else Join(ScratchDir, name)
  }

  predicate IsVideoName(name: string) {
    Lower(Suffix(name)) in VideoSuffixes
  }

  predicate IsPendingName(name: string) {
    Lower(Suffix(name)) == PendingSuffix
  }

  /** The verdict of `_should_process_file`: a video suffix, neither processed nor in flight, and
      present in the watched directory. A probe of existence that raises also yields False, so it is
      modelled as an absent file. */
  predicate Accepts(name: string, processed: set<string>, processing: set<string>, watch: map<string, nat>) {
    IsVideoName(name) && name !in processed && name !in processing && name in watch
  }

  /** A file that is not a video is rejected whatever the handler's state; ".txt" for one. */
  lemma NonVideoNeverAccepted(name: string, processed: set<string>, processing: set<string>, watch: map<string, nat>)
    requires !IsVideoName(name)
    ensures !Accepts(name, processed, processing, watch)
  {
  }

  /** A pending download is never a candidate itself; only its rename can start it. */
  lemma PendingIsNotVideo(name: string)
    requires IsPendingName(name)
    ensures !IsVideoName(name)
  {
  }

  /** The names the constructor seeds as already processed: the glob `*.[mM][pP]4`. */
  function SeedNames(watch: map<string, nat>): set<string> {
    set n | n in watch && MatchesMp4Glob(n)
  }

  /** Every seeded name with a real ".mp4" suffix is one the filter will never accept again; the
      hidden file ".mp4" is seeded too but has no suffix at all. ".mov" and ".avi" files are not
      seeded, so an event on one that was there before start-up still processes it. */
  lemma SeededAreNotReaccepted(watch: map<string, nat>, processing: set<string>, name: string)
    requires name in watch
    ensures name in SeedNames(watch) && |name| > 4 <==> Lower(Suffix(name)) == CompletedSuffix
    ensures name in SeedNames(watch) ==> !Accepts(name, SeedNames(watch), processing, watch)
  {
    GlobMatchesMp4Suffix(name);
  }

  /** Outcome of `shutil.copy2` into the scratch directory; a failed copy may leave a partial file. */
  datatype CopyOutcome = Copied | CopyFailed(leftPartial: bool)

  /** What `processor.process_video` did: returned a transcript or `None`, or raised. */
  datatype PipelineOutcome = Returned(transcript: Option<string>) | Raised

  /** The outside world during one coordinator run. */
  datatype Attempt = Attempt(
    firstSize: Option<nat>,   // st_size at the first stat; None: the stat raised (the file is gone)
    secondSize: Option<nat>,  // st_size one second later
    dirsReady: bool,          // makedirs of mp3_dir and output_dir and mkdir of "temp" succeeded
    copy: CopyOutcome,
    pipeline: PipelineOutcome,
    unlinkOk: bool)           // unlinking the scratch copy succeeds

  /** Both stats succeeded and returned the same size (monitor.py:107-109). */
  predicate SizeStable(a: Attempt) {
    a.firstSize.Some? && a.secondSize.Some? && a.firstSize.value == a.secondSize.value
  }

  /** The run got as far as choosing its scratch path, which arms the scratch cleanup. */
  predicate Staged(a: Attempt) {
    SizeStable(a) && a.dirsReady
  }

  /** The scratch copy exists and the pipeline is called on it. */
  predicate PipelineRuns(a: Attempt) {
    Staged(a) && a.copy.Copied?
  }

  /** The pipeline returned a non-empty transcript: the only way a name becomes processed. */
  predicate AttemptSucceeds(a: Attempt) {
    PipelineRuns(a) && a.pipeline.Returned? && IsTruthy(a.pipeline.transcript)
  }

  /** The copy step left a file at the scratch path, complete or partial. */
  predicate CopyLeavesFile(a: Attempt) {
    Staged(a) && (a.copy.Copied? || a.copy.leftPartial)
  }

  /** The scratch directory after a run on `name`: the copy step may add the scratch file, and the
      `finally` block removes it when the path was armed and the unlink succeeds. */
  function ScratchAfter(scratch: set<string>, name: string, a: Attempt): set<string> {
    var copied := if CopyLeavesFile(a) then scratch + {name} else scratch;
    if Staged(a) && name in copied && a.unlinkOk then copied - {name} else copied
  }

  /** `AttemptSucceeds` unfolded: success needs both size samples, equal, then ready directories,
      a full copy and a non-empty pipeline result. That the processed set gains the name exactly
      when the attempt succeeds is stated by `VideoHandler.ProcessVideo`. */
  lemma SuccessNeedsStableSizesAndTranscript(a: Attempt)
    ensures AttemptSucceeds(a) ==> a.firstSize == a.secondSize && a.firstSize.Some?
    ensures AttemptSucceeds(a) <==> SizeStable(a) && a.dirsReady && a.copy.Copied?
                                     && a.pipeline.Returned? && IsTruthy(a.pipeline.transcript)
  {
  }

  /** Differing samples, or a file that vanished under a stat: no pipeline call, no scratch copy. */
  lemma UnstableTouchesNothing(scratch: set<string>, name: string, a: Attempt)
    requires !SizeStable(a)
    ensures !PipelineRuns(a) && !AttemptSucceeds(a)
    ensures ScratchAfter(scratch, name, a) == scratch
  {
  }

  /** The scratch file of the run is gone afterwards unless its unlink failed or it was a stale
      leftover the run never armed the cleanup for; other scratch files are untouched. */
  lemma ScratchCleanedUp(scratch: set<string>, name: string, a: Attempt)
    ensures ScratchAfter(scratch, name, a) - {name} == scratch - {name}
    ensures name in ScratchAfter(scratch, name, a) <==>
              (Staged(a) && !a.unlinkOk && (name in scratch || CopyLeavesFile(a)))
              || (!Staged(a) && name in scratch)
    ensures name !in scratch ==>
              (name in ScratchAfter(scratch, name, a) <==> CopyLeavesFile(a) && !a.unlinkOk)
  {
  }

  /** The file system as the handler sees it. */
  class Disk {
    /** The watched directory (non-recursive): file name to size in bytes. */
    var watch: map<string, nat>
    /** Names of the files in the scratch directory "temp". */
    var scratch: set<string>

    constructor (watch: map<string, nat>, scratch: set<string>)
      ensures this.watch == watch && this.scratch == scratch
    {
      this.watch := watch;
      this.scratch := scratch;
    }
  }

  /** `VideoHandler`: the three bookkeeping sets and the event callbacks. */
  class VideoHandler {
    /** `processed_files`: full names of files transcribed successfully, or seeded at start-up. */
    var processed: set<string>
    /** `processing_files`: full names of files a coordinator run is working on. */
    var processing: set<string>
    /** `temp_files`: stems of ".temp" downloads the filter has seen. */
    var pendingStems: set<string>
    /** Names handed to the coordinator, in order. */
    ghost var runs: seq<string>
    /** Scratch paths handed to the transcription pipeline, in order. */
    ghost var pipelineCalls: seq<string>

    /** The fields a coordinator run changes, with the scratch directory of `disk`. */
    ghost function RunStateOf(disk: Disk): RunState
      reads this, disk
    {
      RunState(processed, processing, disk.scratch, runs, pipelineCalls)
    }

    /** `__init__`: every file in the watched directory that matches `*.[mM][pP]4` counts as
        processed already (monitor.py:19-21). */
    constructor (disk: Disk)
      ensures processed == SeedNames(disk.watch)
      ensures processing == {} && pendingStems == {}
      ensures runs == [] && pipelineCalls == []
    {
      var listing := SeedNames(disk.watch);
      var seeded: set<string> := {};
      var rest := listing;
      while rest != {}
        invariant seeded + rest == listing
        decreases |rest|
      {
        var file :| file in rest;
        seeded := seeded + {file};
        rest := rest - {file};
      }
      processed := seeded;
      processing := {};
      pendingStems := {};
      runs := [];
      pipelineCalls := [];
    }

    /** `_should_process_file` (monitor.py:24-52): the checks in the source's order; the only
        side effect is recording the stem of a ".temp" file, and only on the rejecting branch. */
    method ShouldProcess(disk: Disk, name: string) returns (ok: bool)
      modifies this`pendingStems
      ensures ok == Accepts(name, processed, processing, disk.watch)
      ensures pendingStems == old(pendingStems) + (if IsPendingName(name) then {Stem(name)} else {})
    {
      var ext := Lower(Suffix(name));
      if ext !in VideoSuffixes {
        if ext == PendingSuffix {
          pendingStems := pendingStems + {Stem(name)};
        }
        return false;
      }
      if name in processed {
        return false;
      }
      if name in processing {
        return false;
      }
      if name !in disk.watch {
        return false;
      }
      return true;
    }

    /** `_process_video` (monitor.py:95-161). The in-flight mark is set first and released on
        every path of the `try` body, taking the `exists()` probe of the `finally` block to
        return; the name becomes processed exactly when the run succeeds. */
    method ProcessVideo(disk: Disk, name: string, a: Attempt)
      modifies this`processed, this`processing, this`runs, this`pipelineCalls, disk`scratch
      ensures processing == old(processing) - {name}
      ensures processed == old(processed) + (if AttemptSucceeds(a) then {name} else {})
      ensures disk.scratch == ScratchAfter(old(disk.scratch), name, a)
      ensures runs == old(runs) + [name]
      ensures pipelineCalls == old(pipelineCalls) + (if PipelineRuns(a) then [ScratchPath(name)] else [])
    {
      runs := runs + [name];
      processing := processing + {name};
      var armed := RunSteps(disk, name, a);
      Cleanup(disk, name, armed, a.unlinkOk);
    }

    /** The `try` block of `_process_video` (monitor.py:103-146), after the in-flight mark is set;
        `armed` says whether it got as far as binding the scratch path. */
    method RunSteps(disk: Disk, name: string, a: Attempt) returns (armed: bool)
      modifies this`processed, this`processing, this`pipelineCalls, disk`scratch
      ensures armed == Staged(a)
      ensures processing == if a.firstSize.Some? && a.secondSize.Some? && !SizeStable(a)
                            then old(processing) - {name} else old(processing)
      ensures processed == old(processed) + (if AttemptSucceeds(a) then {name} else {})
      ensures disk.scratch == if CopyLeavesFile(a) then old(disk.scratch) + {name} else old(disk.scratch)
      ensures pipelineCalls == old(pipelineCalls) + (if PipelineRuns(a) then [ScratchPath(name)] else [])
    {
      armed := false;
      var inFlight, copies, calls, done := processing, disk.scratch, pipelineCalls, processed;
      if a.firstSize.None? || a.secondSize.None? {
        // a stat raised; the outer handler logs it
      } else if a.firstSize.value != a.secondSize.value {
        // still being written: release the mark and return
        inFlight := inFlight - {name};
      } else if a.dirsReady {
        armed := true;
        match a.copy {
          case CopyFailed(partial) =>
            if partial {
              copies := copies + {name};
            }
          case Copied =>
            copies := copies + {name};
            calls := calls + [ScratchPath(name)];
            if a.pipeline.Returned? && IsTruthy(a.pipeline.transcript) {
              done := done + {name};
            }
        }
      }
      processing, disk.scratch, pipelineCalls, processed := inFlight, copies, calls, done;
    }

    /** The `finally` block of `_process_video` (monitor.py:150-161): delete the scratch copy if the
        run got as far as naming it and it exists (a failed unlink is only logged), then release the
        in-flight mark if it is still held. The `exists()` probe is taken to return normally. */
    method Cleanup(disk: Disk, name: string, armed: bool, unlinkOk: bool)
      modifies this`processing, disk`scratch
      ensures processing == old(processing) - {name}
      ensures disk.scratch == if armed && unlinkOk then old(disk.scratch) - {name} else old(disk.scratch)
    {
      if armed && name in disk.scratch {
        if unlinkOk {
          disk.scratch := disk.scratch - {name};
        }
      }
      if name in processing {
        processing := processing - {name};
      }
    }

    /** `on_created` (monitor.py:54-64). */
    method OnCreated(disk: Disk, isDirectory: bool, name: string, a: Attempt)
      modifies this, disk`scratch
      ensures pendingStems == old(pendingStems) + (if !isDirectory && IsPendingName(name) then {Stem(name)} else {})
      ensures RunStateOf(disk) == if !isDirectory && Accepts(name, old(processed), old(processing), disk.watch)
                                  then AfterRun(old(RunStateOf(disk)), name, a) else old(RunStateOf(disk))
    {
      if isDirectory {
        return;
      }
      var ok := ShouldProcess(disk, name);
      if !ok {
        return;
      }
      ProcessVideo(disk, name, a);
    }

    /** `on_modified` (monitor.py:66-76): the same routing as `on_created`. */
    method OnModified(disk: Disk, isDirectory: bool, name: string, a: Attempt)
      modifies this, disk`scratch
      ensures pendingStems == old(pendingStems) + (if !isDirectory && IsPendingName(name) then {Stem(name)} else {})
      ensures RunStateOf(disk) == if !isDirectory && Accepts(name, old(processed), old(processing), disk.watch)
                                  then AfterRun(old(RunStateOf(disk)), name, a) else old(RunStateOf(disk))
    {
      if isDirectory {
        return;
      }
      var ok := ShouldProcess(disk, name);
      if !ok {
        return;
      }
      ProcessVideo(disk, name, a);
    }

    /** `on_moved` (monitor.py:78-93): only a ".temp" to ".mp4" rename of a recorded stem counts,
        and it goes to the coordinator without the filter, so even a processed name runs again. */
    method OnMoved(disk: Disk, isDirectory: bool, src: string, dest: string, a: Attempt)
      modifies this, disk`scratch
      ensures var claimed := !isDirectory && IsPendingName(src) && Lower(Suffix(dest)) == CompletedSuffix
                             && Stem(src) in old(pendingStems);
              && pendingStems == old(pendingStems) - (if claimed then {Stem(src)} else {})
              && RunStateOf(disk) == if claimed then AfterRun(old(RunStateOf(disk)), dest, a) else old(RunStateOf(disk))
    {
      if isDirectory {
        return;
      }
      if Lower(Suffix(src)) == PendingSuffix && Lower(Suffix(dest)) == CompletedSuffix {
        if Stem(src) in pendingStems {
          pendingStems := pendingStems - {Stem(src)};
          ProcessVideo(disk, dest, a);
        }
      }
    }
  }

  /** The part of the handler's state, with the scratch directory, that one coordinator run changes. */
  datatype RunState = RunState(
    processed: set<string>,
    processing: set<string>,
    scratch: set<string>,
    runs: seq<string>,
    pipelineCalls: seq<string>)

  /** The state after one coordinator run on `name`, as `VideoHandler.ProcessVideo` promises it. */
  function AfterRun(s: RunState, name: string, a: Attempt): RunState {
    RunState(
      s.processed + (if AttemptSucceeds(a) then {name} else {}),
      s.processing - {name},
      ScratchAfter(s.scratch, name, a),
      s.runs + [name],
      s.pipelineCalls + (if PipelineRuns(a) then [ScratchPath(name)] else []))
  }

  /** The start-up re-scan as the source runs it: each listed name, in order, that is not processed
      at that moment goes through the coordinator. */
  function Rescan(s: RunState, listing: seq<string>, attemptFor: string -> Attempt): RunState {
    if listing == [] then s
    else
      var last := listing[|listing| - 1];
      var t := Rescan(s, listing[..|listing| - 1], attemptFor);
      if last in t.processed then t else AfterRun(t, last, attemptFor(last))
  }

  /** A directory listing names each file once. */
  predicate Distinct(listing: seq<string>) {
    forall i, j :: 0 <= i < j < |listing| ==> listing[i] != listing[j]
  }

  /** The names of `listing` not in `done`, in listing order. */
  function Unprocessed(listing: seq<string>, done: set<string>): seq<string> {
    if listing == [] then []
    else
      var last := listing[|listing| - 1];
      Unprocessed(listing[..|listing| - 1], done) + (if last !in done then [last] else [])
  }

  /** `Unprocessed` keeps exactly the names of the listing that are not done, and a listing free of
      repeats yields one free of repeats, so each such name is run exactly once. */
  lemma {:induction false} UnprocessedMembers(listing: seq<string>, done: set<string>, n: string)
    ensures n in Unprocessed(listing, done) <==> n in listing && n !in done
    ensures Distinct(listing) ==> Distinct(Unprocessed(listing, done))
  {
    if listing != [] {
      var init := listing[..|listing| - 1];
      var last := listing[|listing| - 1];
      UnprocessedMembers(init, done, n);
      assert listing == init + [last];
      if Distinct(listing) {
        DistinctInit(listing);
        var u := Unprocessed(init, done);
        if last !in done {
          forall m | m in u ensures m != last {
            UnprocessedMembers(init, done, m);
          }
          DistinctSnoc(u, last);
        }
      }
    }
  }

  /** Appending a new name to a listing free of repeats keeps it free of repeats. */
  lemma DistinctSnoc(listing: seq<string>, name: string)
    requires Distinct(listing) && name !in listing
    ensures Distinct(listing + [name])
  {
    var l := listing + [name];
    forall i, j | 0 <= i < j < |l| ensures l[i] != l[j] {
      if j == |listing| {
        assert l[i] == listing[i];
      } else {
        assert l[i] == listing[i] && l[j] == listing[j];
      }
    }
  }

  /** The names of `listing` not in `done`. */
  function Pending(listing: seq<string>, done: set<string>): set<string> {
    set n | n in listing && n !in done
  }

  /** Those of them whose run succeeds. */
  function Successful(listing: seq<string>, done: set<string>, attemptFor: string -> Attempt): set<string> {
    set n | n in listing && n !in done && AttemptSucceeds(attemptFor(n))
  }

  /** The scratch paths handed to the pipeline when `names` run in order. */
  function PipelineCallsOf(names: seq<string>, attemptFor: string -> Attempt): seq<string> {
    if names == [] then []
    else
      var last := names[|names| - 1];
      PipelineCallsOf(names[..|names| - 1], attemptFor)
      + (if PipelineRuns(attemptFor(last)) then [ScratchPath(last)] else [])
  }

  /** The scratch directory after one run for each name of `ran`, each with its own attempt; runs on
      different names touch different scratch files, so their order does not matter. */
  function ScratchAfterRuns(scratch: set<string>, ran: set<string>, attemptFor: string -> Attempt): set<string> {
    set n | n in scratch + ran && if n in ran then n in ScratchAfter(scratch, n, attemptFor(n)) else n in scratch
  }

  /** One more run, on a name not run before, is one more `ScratchAfter` step. */
  lemma ScratchAfterOneMore(scratch: set<string>, ran: set<string>, name: string, attemptFor: string -> Attempt)
    requires name !in ran
    ensures ScratchAfterRuns(scratch, ran + {name}, attemptFor)
            == ScratchAfter(ScratchAfterRuns(scratch, ran, attemptFor), name, attemptFor(name))
  {
    var before := ScratchAfterRuns(scratch, ran, attemptFor);
    ScratchCleanedUp(before, name, attemptFor(name));
    ScratchCleanedUp(scratch, name, attemptFor(name));
    assert name in before <==> name in scratch;
  }

  /** Dropping the last name of a listing free of repeats leaves one free of repeats without it. */
  lemma DistinctInit(listing: seq<string>)
    requires listing != [] && Distinct(listing)
    ensures Distinct(listing[..|listing| - 1]) && listing[|listing| - 1] !in listing[..|listing| - 1]
  {
    var init := listing[..|listing| - 1];
    forall i, j | 0 <= i < j < |init| ensures init[i] != init[j] {
      assert init[i] == listing[i] && init[j] == listing[j];
    }
  }

  /** With a listing free of repeats, the re-scan processes exactly the listed names that were not
      processed when it started and whose run succeeds. */
  lemma {:induction false} RescanProcessesSuccessful(s: RunState, listing: seq<string>, attemptFor: string -> Attempt)
    requires Distinct(listing)
    ensures Rescan(s, listing, attemptFor).processed == s.processed + Successful(listing, s.processed, attemptFor)
  {
    if listing == [] {
      assert Successful(listing, s.processed, attemptFor) == {};
    } else {
      var init := listing[..|listing| - 1];
      var last := listing[|listing| - 1];
      DistinctInit(listing);
      RescanProcessesSuccessful(s, init, attemptFor);
      assert listing == init + [last];
      assert Successful(listing, s.processed, attemptFor)
          == Successful(init, s.processed, attemptFor)
             + (if last !in s.processed && AttemptSucceeds(attemptFor(last)) then {last} else {});
    }
  }

  /** Whether the re-scan runs the last listed name is decided by the processed set it started from. */
  lemma RescanRunsLastIff(s: RunState, listing: seq<string>, attemptFor: string -> Attempt)
    requires listing != [] && Distinct(listing)
    ensures var last := listing[|listing| - 1];
            last in Rescan(s, listing[..|listing| - 1], attemptFor).processed <==> last in s.processed
  {
    DistinctInit(listing);
    RescanProcessesSuccessful(s, listing[..|listing| - 1], attemptFor);
  }

  /** With a listing free of repeats, the re-scan hands every listed name that was not processed when
      it started to the coordinator exactly once, in listing order. */
  lemma {:induction false} RescanRunsEachPendingOnce(s: RunState, listing: seq<string>, attemptFor: string -> Attempt)
    requires Distinct(listing)
    ensures Rescan(s, listing, attemptFor).runs == s.runs + Unprocessed(listing, s.processed)
  {
    if listing != [] {
      var init := listing[..|listing| - 1];
      var last := listing[|listing| - 1];
      DistinctInit(listing);
      RescanRunsEachPendingOnce(s, init, attemptFor);
      RescanRunsLastIff(s, listing, attemptFor);
      var u := Unprocessed(init, s.processed);
      var t := Rescan(s, init, attemptFor);
      if last !in s.processed {
        assert Rescan(s, listing, attemptFor).runs == t.runs + [last];
        assert Unprocessed(listing, s.processed) == u + [last];
      }
    }
  }

  /** One more name run after `names` adds at most its own scratch path to the pipeline calls. */
  lemma PipelineCallsOfSnoc(names: seq<string>, name: string, attemptFor: string -> Attempt)
    ensures PipelineCallsOf(names + [name], attemptFor)
            == PipelineCallsOf(names, attemptFor) + (if PipelineRuns(attemptFor(name)) then [ScratchPath(name)] else [])
  {
    assert (names + [name])[..|names|] == names;
  }

  /** The unprocessed names of a listing are those of all but its last name, then the last one if
      it is unprocessed. */
  lemma UnprocessedStep(listing: seq<string>, done: set<string>)
    requires listing != []
    ensures var last := listing[|listing| - 1];
            Unprocessed(listing, done)
            == Unprocessed(listing[..|listing| - 1], done) + (if last !in done then [last] else [])
  {
  }

  /** The pipeline calls of one more re-scan step. */
  lemma RescanStepCalls(s: RunState, listing: seq<string>, attemptFor: string -> Attempt)
    requires listing != []
    ensures var last := listing[|listing| - 1];
            var t := Rescan(s, listing[..|listing| - 1], attemptFor);
            Rescan(s, listing, attemptFor).pipelineCalls
            == t.pipelineCalls + (if last in t.processed || !PipelineRuns(attemptFor(last)) then [] else [ScratchPath(last)])
  {
  }

  /** With a listing free of repeats, the pipeline sees the scratch copies of the names the re-scan
      runs, in listing order, for exactly those runs that get that far. */
  lemma {:induction false} RescanPipelineCallsInOrder(s: RunState, listing: seq<string>, attemptFor: string -> Attempt)
    requires Distinct(listing)
    ensures Rescan(s, listing, attemptFor).pipelineCalls
            == s.pipelineCalls + PipelineCallsOf(Unprocessed(listing, s.processed), attemptFor)
  {
    if listing != [] {
      var init := listing[..|listing| - 1];
      var last := listing[|listing| - 1];
      DistinctInit(listing);
      RescanPipelineCallsInOrder(s, init, attemptFor);
      RescanRunsLastIff(s, listing, attemptFor);
      RescanStepCalls(s, listing, attemptFor);
      UnprocessedStep(listing, s.processed);
      var t := Rescan(s, init, attemptFor);
      assert last in t.processed <==> last in s.processed;
      if last !in s.processed {
        var u := Unprocessed(init, s.processed);
        var step := if PipelineRuns(attemptFor(last)) then [ScratchPath(last)] else [];
        PipelineCallsOfSnoc(u, last, attemptFor);
        assert Unprocessed(listing, s.processed) == u + [last];
        assert Rescan(s, listing, attemptFor).pipelineCalls == t.pipelineCalls + step;
        assert t.pipelineCalls == s.pipelineCalls + PipelineCallsOf(u, attemptFor);
        assert s.pipelineCalls + PipelineCallsOf(u, attemptFor) + step
            == s.pipelineCalls + (PipelineCallsOf(u, attemptFor) + step);
      } else {
        assert Unprocessed(listing, s.processed) == Unprocessed(init, s.processed);
        assert Rescan(s, listing, attemptFor).pipelineCalls == t.pipelineCalls;
      }
    }
  }

  /** With a listing free of repeats, the re-scan leaves none of the names it ran in flight, and
      changes the scratch directory only at their scratch files. */
  lemma {:induction false} RescanReleasesAndCleans(s: RunState, listing: seq<string>, attemptFor: string -> Attempt)
    requires Distinct(listing)
    ensures Rescan(s, listing, attemptFor).processing == s.processing - Pending(listing, s.processed)
    ensures Rescan(s, listing, attemptFor).scratch
            == ScratchAfterRuns(s.scratch, Pending(listing, s.processed), attemptFor)
  {
    if listing == [] {
      assert Pending(listing, s.processed) == {};
      assert ScratchAfterRuns(s.scratch, {}, attemptFor) == s.scratch;
    } else {
      var init := listing[..|listing| - 1];
      var last := listing[|listing| - 1];
      DistinctInit(listing);
      RescanReleasesAndCleans(s, init, attemptFor);
      RescanRunsLastIff(s, listing, attemptFor);
      assert listing == init + [last];
      var pendingInit := Pending(init, s.processed);
      assert last !in pendingInit;
      assert Pending(listing, s.processed) == pendingInit + (if last !in s.processed then {last} else {});
      if last !in s.processed {
        ScratchAfterOneMore(s.scratch, pendingInit, last, attemptFor);
      }
    }
  }

  /** A re-scan over names that are all processed already runs nothing and changes nothing. */
  lemma {:induction false} RescanOfProcessedIsIdle(s: RunState, listing: seq<string>, attemptFor: string -> Attempt)
    requires forall n :: n in listing ==> n in s.processed
    ensures Rescan(s, listing, attemptFor) == s
  {
    if listing != [] {
      RescanOfProcessedIsIdle(s, listing[..|listing| - 1], attemptFor);
    }
  }

  /** The start-up re-scan (monitor.py:208-214), run against the handler's own sets. */
  method ProcessExisting(h: VideoHandler, disk: Disk, existing: seq<string>, attemptFor: string -> Attempt)
    modifies h, disk`scratch
    ensures h.RunStateOf(disk) == Rescan(old(h.RunStateOf(disk)), existing, attemptFor)
    ensures h.pendingStems == old(h.pendingStems)
  {
    ghost var start := h.RunStateOf(disk);
    for i := 0 to |existing|
      invariant h.RunStateOf(disk) == Rescan(start, existing[..i], attemptFor)
      invariant h.pendingStems == old(h.pendingStems)
    {
      var name := existing[i];
      assert existing[..i + 1][..i] == existing[..i];
      if name !in h.processed {
        h.ProcessVideo(disk, name, attemptFor(name));
      }
    }
    assert existing[..|existing|] == existing;
  }

  /** Lines 197 and 208-214 of `main`: construct the handler, then re-scan the same listing. The
      constructor has already seeded every listed name, so the re-scan runs nothing. No file is
      taken to arrive, and no event to be dispatched, between construction and the re-scan. */
  method StartWatching(disk: Disk, existing: seq<string>, attemptFor: string -> Attempt) returns (h: VideoHandler)
    requires forall n :: n in existing <==> n in disk.watch && MatchesMp4Glob(n)
    modifies disk`scratch
    ensures fresh(h)
    ensures h.processed == SeedNames(disk.watch) && h.processing == {}
    ensures h.runs == [] && h.pipelineCalls == []
    ensures h.pendingStems == {}
    ensures disk.scratch == old(disk.scratch)
  {
    h := new VideoHandler(disk);
    RescanOfProcessedIsIdle(h.RunStateOf(disk), existing, attemptFor);
    ProcessExisting(h, disk, existing, attemptFor);
  }
}
