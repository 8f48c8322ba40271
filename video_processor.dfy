/** `VideoProcessor` (video_processor.py:69-288): derive the artifact paths of a video, convert it
    to MP3 once, record the transcript in the workbook and write the transcript files. Conversion,
    recognition, refinement and every write are oracles supplied with the call; the files they touch
    are a `Store`. */
module VideoProcessing {
  import opened Wrappers
  import opened PathNames
  import opened Settings
  import opened Transcripts

  /** `Path(video_path).stem`: the name every artifact of a video is derived from. */
  function VideoStem(video: string): string {
    Stem(Name(video))
  }

  /** `mp3_dir/<stem>.mp3` (video_processor.py:128-129). */
  function AudioPath(c: Config, video: string): string {
    Join(c.mp3Dir, VideoStem(video) + ".mp3")
  }

  /** `output_dir/transcripts` (video_processor.py:263). */
  function TranscriptDir(c: Config): string {
    Join(c.outputDir, "transcripts")
  }

  /** The raw, optimized and summary transcript files of a stem (video_processor.py:267, 273, 279). */
  function RawPath(c: Config, stem: string): string {
    Join(TranscriptDir(c), stem + ".txt")
  }

  function OptimizedPath(c: Config, stem: string): string {
    Join(TranscriptDir(c), stem + "_optimized.txt")
  }

  function SummaryPath(c: Config, stem: string): string {
    Join(TranscriptDir(c), stem + "_summary.txt")
  }

  /** The three transcript files of one video are three different files. */
  lemma ArtifactPathsDistinct(c: Config, video: string)
    ensures var stem := VideoStem(video);
            RawPath(c, stem) != OptimizedPath(c, stem) && RawPath(c, stem) != SummaryPath(c, stem)
            && OptimizedPath(c, stem) != SummaryPath(c, stem)
  {
    var stem := VideoStem(video);
    var raw, opt, sum := stem + ".txt", stem + "_optimized.txt", stem + "_summary.txt";
    StemIsRelative(video);
    JoinInjective(TranscriptDir(c), raw, opt);
    JoinInjective(TranscriptDir(c), raw, sum);
    JoinInjective(TranscriptDir(c), opt, sum);
    assert |raw| != |opt| && |raw| != |sum| && |opt| != |sum|;
  }

  /** The stem of a video never starts with '/'. */
  lemma StemIsRelative(video: string)
    ensures VideoStem(video) == "" || VideoStem(video)[0] != '/'
  {
    var n := Name(video);
    assert VideoStem(video) + Suffix(n) == n;
    if VideoStem(video) != "" {
      assert VideoStem(video)[0] == n[0];
    }
  }

  /** Artifact names are derived by plain concatenation, so the raw transcript of a video whose stem
      ends in "_optimized" is the same file as the optimized transcript of the shorter stem. */
  lemma RawAndOptimizedNamesCollide(c: Config, stem: string)
    ensures RawPath(c, stem + "_optimized") == OptimizedPath(c, stem)
  {
    assert stem + "_optimized" + ".txt" == stem + "_optimized.txt";
  }

  /** Videos that differ only in their extension share one MP3 path, so whichever is converted
      first provides the audio for both. */
  lemma AudioPathIgnoresExtension(c: Config, dir: string, stem: string, ext1: string, ext2: string)
    requires stem != "" && '/' !in stem
    requires |ext1| >= 2 && ext1[0] == '.' && '.' !in ext1[1..] && '/' !in ext1
    requires |ext2| >= 2 && ext2[0] == '.' && '.' !in ext2[1..] && '/' !in ext2
    ensures AudioPath(c, Join(dir, stem + ext1)) == AudioPath(c, Join(dir, stem + ext2))
  {
    NameOfJoin(dir, stem + ext1);
    NameOfJoin(dir, stem + ext2);
    SplitDotted(stem, ext1);
    SplitDotted(stem, ext2);
  }

  /** The files the processor reads and writes. */
  datatype Files = Files(
    videos: set<string>,          // existing video files
    audio: set<string>,           // existing MP3 files
    texts: map<string, string>,   // transcript text files and their contents
    workbook: Workbook)           // output_dir/transcripts.xlsx

  class Store {
    var files: Files

    constructor (files: Files)
      ensures this.files == files
    {
      this.files := files;
    }
  }

  /** What the pydub export did: wrote the MP3, returned without writing it, or raised (perhaps
      after leaving a partial file). */
  datatype Export = Exported | ExportedNothing | ExportRaised(leftPartial: bool)

  /** The optimized text and summary `process_transcript` returned (`result.get` gives `None` for a
      missing key). */
  datatype Extras = Extras(optimized: Option<string>, summary: Option<string>)

  /** The refinement call: returned, or raised. */
  datatype Refinement = Refined(extras: Extras) | RefineRaised

  /** The outside world during one `process_video` call. */
  datatype Steps = Steps(
    conversion: Export,
    recognition: Option<string>,  // the Whisper text; None: recognition raised
    refinement: Refinement,
    now: string,                  // datetime.now() formatted "%Y-%m-%d %H:%M:%S"
    workbookWritable: bool,       // to_excel succeeds
    transcriptDirOk: bool,        // makedirs of output_dir/transcripts succeeds
    unwritable: set<string>)      // paths whose open(..., "w") raises

  /** `convert_video_to_mp3` returns the path (rather than raising) when the MP3 already exists or
      the export wrote it (video_processor.py:131-152). */
  predicate Converts(audio: set<string>, mp3: string, e: Export) {
    mp3 in audio || e.Exported?
  }

  /** The MP3 files after the conversion attempt. */
  function ConvertedAudio(audio: set<string>, mp3: string, e: Export): set<string> {
    if mp3 in audio then audio
    else if e.Exported? || (e.ExportRaised? && e.leftPartial) then audio + {mp3}
    else audio
  }

  /** Conversion is idempotent: once it has succeeded, converting again returns the same path
      whatever the exporter would do, and changes nothing. It never touches another MP3 file. */
  lemma ConvertIdempotent(audio: set<string>, mp3: string, e: Export, again: Export)
    ensures ConvertedAudio(audio, mp3, e) - {mp3} == audio - {mp3} && audio <= ConvertedAudio(audio, mp3, e)
    ensures Converts(audio, mp3, e) ==>
              Converts(ConvertedAudio(audio, mp3, e), mp3, again)
              && ConvertedAudio(ConvertedAudio(audio, mp3, e), mp3, again) == ConvertedAudio(audio, mp3, e)
  {
  }

  /** The optimized text and summary a run records (video_processor.py:246-256): refinement runs
      only with a configured refiner and a non-empty transcript, and a refinement fault leaves both
      `None`. */
  function RefinedExtras(refiner: bool, transcript: string, rf: Refinement): Extras {
    if refiner && transcript != "" && rf.Refined? then rf.extras else Extras(None, None)
  }

  /** The workbook after `_save_to_excel`: the upserted table when `to_excel` succeeds. */
  function SavedWorkbook(wb: Workbook, row: Row, writable: bool): Workbook {
    if writable then Sheet(Upsert(TableOf(wb), row)) else wb
  }

  /** A missing or unreadable workbook is replaced by the empty five-column table, so the file
      written back holds the new row alone and whatever the unreadable file held is lost; a
      readable sheet keeps its rows and gains at most one. */
  lemma SavedOverUnreadableHoldsOneRow(wb: Workbook, row: Row)
    ensures !wb.Sheet? ==> SavedWorkbook(wb, row, true) == Sheet([row])
    ensures wb.Sheet? ==> |wb.rows| <= |SavedWorkbook(wb, row, true).rows| <= |wb.rows| + 1
  {
    assert !HasName([], row.videoName);
  }

  /** `open(path, "w").write(content)`, or nothing when `open` raises. */
  function Written(texts: map<string, string>, path: string, content: string, unwritable: set<string>): map<string, string> {
    if path in unwritable then texts else texts[path := content]
  }

  /** The transcript files written in order (video_processor.py:266-281); false when a write
      raised, with the earlier writes kept. */
  function WriteArtifacts(c: Config, texts: map<string, string>, stem: string, transcript: string, x: Extras,
                          unwritable: set<string>): (bool, map<string, string>)
  {
    var raw := RawPath(c, stem);
    var opt := OptimizedPath(c, stem);
    var sum := SummaryPath(c, stem);
    var t1 := Written(texts, raw, transcript, unwritable);
    var t2 := if IsTruthy(x.optimized) then Written(t1, opt, x.optimized.value, unwritable) else t1;
    var t3 := if IsTruthy(x.summary) then Written(t2, sum, x.summary.value, unwritable) else t2;
    if raw in unwritable then (false, t1)
    else if IsTruthy(x.optimized) && opt in unwritable then (false, t2)
    else if IsTruthy(x.summary) && sum in unwritable then (false, t3)
    else (true, t3)
  }

  /** `process_video` as a function of the files before the call and the step outcomes: the result
      and the files afterwards (video_processor.py:219-288). */
  function Run(c: Config, refiner: bool, f: Files, video: string, s: Steps): (Option<string>, Files) {
    if video !in f.videos then (None, f)
    else
      var mp3 := AudioPath(c, video);
      var f1 := f.(audio := ConvertedAudio(f.audio, mp3, s.conversion));
      if !Converts(f.audio, mp3, s.conversion) || s.recognition.None? then (None, f1)
      else
        var transcript := s.recognition.value;
        var x := RefinedExtras(refiner, transcript, s.refinement);
        var stem := VideoStem(video);
        var f2 := f1.(workbook := SavedWorkbook(f1.workbook, NewRow(stem, s.now, transcript, x.optimized, x.summary), s.workbookWritable));
        if !s.workbookWritable || !s.transcriptDirOk then (None, f2)
        else
          var w := WriteArtifacts(c, f2.texts, stem, transcript, x, s.unwritable);
          (if w.0 then Some(transcript) else None, f2.(texts := w.1))
  }

  /** Every step of the run gets through: the video exists, conversion returns, recognition
      returns, the workbook and the transcript directory can be written, and so can each transcript
      file the run writes. */
  predicate Succeeds(c: Config, refiner: bool, f: Files, video: string, s: Steps) {
    video in f.videos && Converts(f.audio, AudioPath(c, video), s.conversion) && s.recognition.Some?
    && s.workbookWritable && s.transcriptDirOk
    && var x := RefinedExtras(refiner, s.recognition.value, s.refinement);
       var stem := VideoStem(video);
       RawPath(c, stem) !in s.unwritable
       && (IsTruthy(x.optimized) ==> OptimizedPath(c, stem) !in s.unwritable)
       && (IsTruthy(x.summary) ==> SummaryPath(c, stem) !in s.unwritable)
  }

  /** A run returns a value exactly when the video exists and no step raises, and that value is the
      recognised text itself, unchanged (even when it is empty). */
  lemma RunResult(c: Config, refiner: bool, f: Files, video: string, s: Steps)
    ensures Run(c, refiner, f, video, s).0.Some? <==> Succeeds(c, refiner, f, video, s)
    ensures Run(c, refiner, f, video, s).0.Some? ==> Run(c, refiner, f, video, s).0 == s.recognition
    ensures video !in f.videos ==> Run(c, refiner, f, video, s) == (None, f)
  {
  }

  /** When every write gets through, each written file holds its text. */
  lemma WriteArtifactsComplete(c: Config, texts: map<string, string>, stem: string, transcript: string, x: Extras,
                               unwritable: set<string>)
    requires RawPath(c, stem) != OptimizedPath(c, stem) && RawPath(c, stem) != SummaryPath(c, stem)
    requires OptimizedPath(c, stem) != SummaryPath(c, stem)
    requires WriteArtifacts(c, texts, stem, transcript, x, unwritable).0
    ensures var out := WriteArtifacts(c, texts, stem, transcript, x, unwritable).1;
            && RawPath(c, stem) in out && out[RawPath(c, stem)] == transcript
            && (IsTruthy(x.optimized) ==> OptimizedPath(c, stem) in out && out[OptimizedPath(c, stem)] == x.optimized.value)
            && (IsTruthy(x.summary) ==> SummaryPath(c, stem) in out && out[SummaryPath(c, stem)] == x.summary.value)
  {
  }

  /** Whatever raises, the writes add or overwrite only the three files of the stem, each with its
      own text, and the optional two only for non-empty texts. */
  lemma WriteArtifactsOwnFilesOnly(c: Config, texts: map<string, string>, stem: string, transcript: string, x: Extras,
                                   unwritable: set<string>, p: string)
    requires RawPath(c, stem) != OptimizedPath(c, stem) && RawPath(c, stem) != SummaryPath(c, stem)
    requires OptimizedPath(c, stem) != SummaryPath(c, stem)
    ensures var out := WriteArtifacts(c, texts, stem, transcript, x, unwritable).1;
            (p in texts ==> p in out)
            && (p in out && (p !in texts || out[p] != texts[p]) ==>
                  (p == RawPath(c, stem) && out[p] == transcript)
                  || (p == OptimizedPath(c, stem) && IsTruthy(x.optimized) && out[p] == x.optimized.value)
                  || (p == SummaryPath(c, stem) && IsTruthy(x.summary) && out[p] == x.summary.value))
  {
  }

  /** A successful run leaves the MP3 in place, the raw transcript in its file, the optimized text
      and summary in theirs when they are non-empty, and its row (and no other row with that name)
      in the workbook. */
  lemma SuccessfulRunRecordsTranscript(c: Config, refiner: bool, f: Files, video: string, s: Steps)
    requires Run(c, refiner, f, video, s).0.Some?
    ensures var g := Run(c, refiner, f, video, s).1;
            var t := s.recognition.value;
            var x := RefinedExtras(refiner, t, s.refinement);
            var stem := VideoStem(video);
            && AudioPath(c, video) in g.audio
            && RawPath(c, stem) in g.texts && g.texts[RawPath(c, stem)] == t
            && (IsTruthy(x.optimized) ==> OptimizedPath(c, stem) in g.texts
                                           && g.texts[OptimizedPath(c, stem)] == x.optimized.value)
            && (IsTruthy(x.summary) ==> SummaryPath(c, stem) in g.texts
                                         && g.texts[SummaryPath(c, stem)] == x.summary.value)
            && g.workbook.Sheet? && HasName(g.workbook.rows, stem)
            && forall i :: 0 <= i < |g.workbook.rows| && g.workbook.rows[i].videoName == stem ==>
                             g.workbook.rows[i] == NewRow(stem, s.now, t, x.optimized, x.summary)
  {
    var t := s.recognition.value;
    var x := RefinedExtras(refiner, t, s.refinement);
    var stem := VideoStem(video);
    var row := NewRow(stem, s.now, t, x.optimized, x.summary);
    var f1 := f.(audio := ConvertedAudio(f.audio, AudioPath(c, video), s.conversion));
    var f2 := f1.(workbook := SavedWorkbook(f1.workbook, row, s.workbookWritable));
    var w := WriteArtifacts(c, f2.texts, stem, t, x, s.unwritable);
    assert Run(c, refiner, f, video, s) == (Some(t), f2.(texts := w.1));
    ArtifactPathsDistinct(c, video);
    WriteArtifactsComplete(c, f2.texts, stem, t, x, s.unwritable);
    UpsertRecords(TableOf(f1.workbook), row);
  }

  /** A run changes no video, only adds MP3s (at most its own), and writes no text file other than
      its own three; the optimized and summary files only with non-empty refinement results. */
  lemma RunTouchesOnlyItsArtifacts(c: Config, refiner: bool, f: Files, video: string, s: Steps, p: string)
    ensures var g := Run(c, refiner, f, video, s).1;
            g.videos == f.videos && f.audio <= g.audio && g.audio - {AudioPath(c, video)} == f.audio - {AudioPath(c, video)}
    ensures var g := Run(c, refiner, f, video, s).1;
            var stem := VideoStem(video);
            (p in f.texts ==> p in g.texts)
            && (p in g.texts && (p !in f.texts || g.texts[p] != f.texts[p]) ==>
                  s.recognition.Some?
                  && var x := RefinedExtras(refiner, s.recognition.value, s.refinement);
                     (p == RawPath(c, stem) && g.texts[p] == s.recognition.value)
                     || (p == OptimizedPath(c, stem) && IsTruthy(x.optimized) && g.texts[p] == x.optimized.value)
                     || (p == SummaryPath(c, stem) && IsTruthy(x.summary) && g.texts[p] == x.summary.value))
  {
    var mp3 := AudioPath(c, video);
    var f1 := f.(audio := ConvertedAudio(f.audio, mp3, s.conversion));
    ConvertIdempotent(f.audio, mp3, s.conversion, s.conversion);
    if video in f.videos && Converts(f.audio, mp3, s.conversion) && s.recognition.Some? {
      var t := s.recognition.value;
      var x := RefinedExtras(refiner, t, s.refinement);
      var stem := VideoStem(video);
      var f2 := f1.(workbook := SavedWorkbook(f1.workbook, NewRow(stem, s.now, t, x.optimized, x.summary), s.workbookWritable));
      if s.workbookWritable && s.transcriptDirOk {
        var w := WriteArtifacts(c, f2.texts, stem, t, x, s.unwritable);
        assert Run(c, refiner, f, video, s).1 == f2.(texts := w.1);
        ArtifactPathsDistinct(c, video);
        WriteArtifactsOwnFilesOnly(c, f2.texts, stem, t, x, s.unwritable, p);
      } else {
        assert Run(c, refiner, f, video, s).1 == f2;
      }
    } else if video in f.videos {
      assert Run(c, refiner, f, video, s).1 == f1;
    }
  }

  /** A refinement fault, an empty transcript and a missing refiner all lead to the same run. */
  lemma RefinementFaultIsNoRefiner(c: Config, refiner: bool, f: Files, video: string, s: Steps)
    requires !refiner || s.refinement.RefineRaised? || s.recognition == Some("")
    ensures Run(c, refiner, f, video, s) == Run(c, false, f, video, s)
  {
  }

  /** `VideoProcessor` with its configuration and whether `_setup_text_processor` created a refiner.
      Loading the Whisper model, logging and `_setup_directories` are not part of this model. */
  class VideoProcessor {
    const config: Config
    const refinerConfigured: bool

    constructor (config: Config, clientOk: bool)
      ensures this.config == config
      ensures refinerConfigured == RefinerConfigured(config, clientOk)
    {
      this.config := config;
      refinerConfigured := RefinerConfigured(config, clientOk);
    }

    /** `convert_video_to_mp3` (video_processor.py:125-155): an existing MP3 is returned as it is;
        otherwise the export must both return and leave the file. `None` stands for raising. */
    method ConvertToMp3(store: Store, video: string, e: Export) returns (mp3: Option<string>)
      modifies store
      ensures mp3 == if Converts(old(store.files.audio), AudioPath(config, video), e) then Some(AudioPath(config, video)) else None
      ensures store.files == old(store.files).(audio := ConvertedAudio(old(store.files.audio), AudioPath(config, video), e))
    {
      var path := Join(config.mp3Dir, VideoStem(video) + ".mp3");
      if path in store.files.audio {
        return Some(path);
      }
      match e {
        case Exported =>
          store.files := store.files.(audio := store.files.audio + {path});
          mp3 := Some(path);
        case ExportedNothing =>
          mp3 := None;
        case ExportRaised(leftPartial) =>
          if leftPartial {
            store.files := store.files.(audio := store.files.audio + {path});
          }
          mp3 := None;
      }
    }

    /** `_save_to_excel` (video_processor.py:182-217): load the table (or start an empty one), upsert
        the run's row on the frame, and write the frame back; `false` stands for `to_excel` raising. */
    method SaveToExcel(store: Store, videoName: string, transcript: string, optimized: Option<string>,
                       summary: Option<string>, now: string, writable: bool) returns (saved: bool)
      modifies store
      ensures saved == writable
      ensures store.files == old(store.files).(workbook := SavedWorkbook(old(store.files.workbook),
                                                NewRow(videoName, now, transcript, optimized, summary), writable))
    {
      var rows := TableOf(store.files.workbook);
      var df := new Row[|rows|](i requires 0 <= i < |rows| => rows[i]);
      assert df[..] == rows;
      var row := NewRow(videoName, now, transcript, optimized, summary);
      df := UpsertFrame(df, row);
      if writable {
        store.files := store.files.(workbook := Sheet(df[..]));
        saved := true;
      } else {
        saved := false;
      }
    }

    /** Lines 262-281 of `process_video`: the raw transcript file always, then the optimized text
        and the summary when they are non-empty; `false` stands for a write raising. */
    method WriteTranscriptFiles(store: Store, stem: string, transcript: string, x: Extras, unwritable: set<string>)
      returns (ok: bool)
      modifies store
      ensures var w := WriteArtifacts(config, old(store.files.texts), stem, transcript, x, unwritable);
              ok == w.0 && store.files == old(store.files).(texts := w.1)
    {
      var dir := Join(config.outputDir, "transcripts");
      var rawPath := Join(dir, stem + ".txt");
      if rawPath in unwritable {
        return false;
      }
      store.files := store.files.(texts := store.files.texts[rawPath := transcript]);
      if IsTruthy(x.optimized) {
        var optimizedPath := Join(dir, stem + "_optimized.txt");
        if optimizedPath in unwritable {
          return false;
        }
        store.files := store.files.(texts := store.files.texts[optimizedPath := x.optimized.value]);
      }
      if IsTruthy(x.summary) {
        var summaryPath := Join(dir, stem + "_summary.txt");
        if summaryPath in unwritable {
          return false;
        }
        store.files := store.files.(texts := store.files.texts[summaryPath := x.summary.value]);
      }
      return true;
    }

    /** `process_video` (video_processor.py:219-288): `None` for a missing video or any fault,
        otherwise the recognised text. */
    method ProcessVideo(store: Store, video: string, s: Steps) returns (r: Option<string>)
      modifies store
      ensures (r, store.files) == Run(config, refinerConfigured, old(store.files), video, s)
    {
      if video !in store.files.videos {
        return None;
      }
      var mp3 := ConvertToMp3(store, video, s.conversion);
      if mp3.None? {
        return None;
      }
      if s.recognition.None? {
        return None;
      }
      var transcript := s.recognition.value;
      var optimized: Option<string> := None;
      var summary: Option<string> := None;
      if refinerConfigured && transcript != "" {
        match s.refinement {
          case Refined(x) =>
            optimized := x.optimized;
            summary := x.summary;
          case RefineRaised =>
        }
      }
      var stem := VideoStem(video);
      var saved := SaveToExcel(store, stem, transcript, optimized, summary, s.now, s.workbookWritable);
      if !saved {
        return None;
      }
      if !s.transcriptDirOk {
        return None;
      }
      var ok := WriteTranscriptFiles(store, stem, transcript, Extras(optimized, summary), s.unwritable);
      if !ok {
        return None;
      }
      return Some(transcript);
    }
  }
}
