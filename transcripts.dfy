/** The transcript table that `_save_to_excel` maintains (video_processor.py:182-217): one row per
    video, keyed by the video name, with the five fixed columns. */
module Transcripts {
  import opened Wrappers

  /** One row: video name, transcription time, raw transcript, optimized text, summary. */
  datatype Row = Row(videoName: string, transcribedAt: string, transcript: string, optimized: string, summary: string)

  /** The workbook file "transcripts.xlsx" in the output directory. */
  datatype Workbook = Absent | Unreadable | Sheet(rows: seq<Row>)

  /** The table the upsert starts from: the sheet's rows, or the empty table with the five columns
      when the file is missing or `read_excel` raises (video_processor.py:187-194). */
  function TableOf(wb: Workbook): seq<Row> {
    if wb.Sheet? then wb.rows else []
  }

  /** The record for a run (video_processor.py:197-203): an absent or empty optimized text or
      summary is stored as the empty string. */
  function NewRow(videoName: string, now: string, transcript: string, optimized: Option<string>, summary: Option<string>): (r: Row)
    ensures r.videoName == videoName && r.transcribedAt == now && r.transcript == transcript
    ensures r.optimized == "" <==> !IsTruthy(optimized)
    ensures r.summary == "" <==> !IsTruthy(summary)
    ensures IsTruthy(optimized) ==> r.optimized == optimized.value
    ensures IsTruthy(summary) ==> r.summary == summary.value
  {
    Row(videoName, now, transcript,
        if IsTruthy(optimized) then optimized.value else "",
        if IsTruthy(summary) then summary.value else "")
  }

  /** `video_name in df['视频名称'].values`. */
  predicate HasName(rows: seq<Row>, name: string) {
    exists i :: 0 <= i < |rows| && rows[i].videoName == name
  }

  /** `df.loc[df['视频名称'] == video_name] = new_row`: every row with the new row's name becomes
      the new row. */
  function ReplaceNamed(rows: seq<Row>, row: Row): seq<Row> {
    seq(|rows|, i requires 0 <= i < |rows| => if rows[i].videoName == row.videoName then row else rows[i])
  }

  /** The table after recording `row`: replace the rows with its name if there are any, otherwise
      append it (video_processor.py:206-209). */
  function Upsert(rows: seq<Row>, row: Row): seq<Row> {
    if HasName(rows, row.videoName) then ReplaceNamed(rows, row) else rows + [row]
  }

  /** The upsert in place, as `_save_to_excel` does it on its data frame: the masked assignment
      updates `df` itself, the concatenation builds a new frame one row longer. */
  method UpsertFrame(df: array<Row>, row: Row) returns (out: array<Row>)
    modifies df
    ensures out[..] == Upsert(old(df[..]), row)
    ensures HasName(old(df[..]), row.videoName) ==> out == df
    ensures !HasName(old(df[..]), row.videoName) ==> fresh(out) && df[..] == old(df[..])
  {
    if exists i :: 0 <= i < df.Length && df[i].videoName == row.videoName {
      forall i | 0 <= i < df.Length && df[i].videoName == row.videoName {
        df[i] := row;
      }
      out := df;
    } else {
      out := new Row[df.Length + 1](_ => row);
      forall i | 0 <= i < df.Length {
        out[i] := df[i];
      }
      assert out[..] == df[..] + [row];
    }
  }

  /** Upserting a name already present keeps the row count, puts the new row wherever that name
      was, and leaves rows with other names untouched. */
  lemma UpsertExisting(rows: seq<Row>, row: Row)
    requires HasName(rows, row.videoName)
    ensures var r := Upsert(rows, row);
            |r| == |rows|
            && (forall i :: 0 <= i < |rows| && rows[i].videoName == row.videoName ==> r[i] == row)
            && (forall i :: 0 <= i < |rows| && rows[i].videoName != row.videoName ==> r[i] == rows[i])
  {
  }

  /** Upserting a new name appends exactly that row after the earlier rows, in their order. */
  lemma UpsertNew(rows: seq<Row>, row: Row)
    requires !HasName(rows, row.videoName)
    ensures Upsert(rows, row) == rows + [row]
  {
  }

  /** After an upsert the table holds the name, and every row with that name is the new row. */
  lemma UpsertRecords(rows: seq<Row>, row: Row)
    ensures HasName(Upsert(rows, row), row.videoName)
    ensures var r := Upsert(rows, row);
            forall i :: 0 <= i < |r| && r[i].videoName == row.videoName ==> r[i] == row
  {
    var r := Upsert(rows, row);
    if HasName(rows, row.videoName) {
      var k :| 0 <= k < |rows| && rows[k].videoName == row.videoName;
      assert r[k] == row;
    } else {
      assert r[|rows|] == row;
    }
  }

  /** Two upserts of the same name leave what the later one alone would: the later run wins, and
      recording the same row twice is the same as recording it once. */
  lemma {:induction false} UpsertLastWins(rows: seq<Row>, first: Row, second: Row)
    requires first.videoName == second.videoName
    ensures Upsert(Upsert(rows, first), second) == Upsert(rows, second)
  {
    var name := first.videoName;
    var mid := Upsert(rows, first);
    UpsertRecords(rows, first);
    if HasName(rows, name) {
      assert Upsert(mid, second) == ReplaceNamed(rows, second);
    } else {
      var r := Upsert(mid, second);
      assert mid == rows + [first];
      assert |r| == |rows| + 1;
      forall i | 0 <= i < |rows| ensures r[i] == rows[i] {
        assert mid[i] == rows[i];
        assert rows[i].videoName != name;
      }
      assert r == rows + [second];
    }
  }

  /** Names that are unique in the table stay unique after an upsert. */
  lemma UpsertKeepsNamesUnique(rows: seq<Row>, row: Row)
    requires forall i, j :: 0 <= i < j < |rows| ==> rows[i].videoName != rows[j].videoName
    ensures var r := Upsert(rows, row);
            forall i, j :: 0 <= i < j < |r| ==> r[i].videoName != r[j].videoName
  {
    var r := Upsert(rows, row);
    if !HasName(rows, row.videoName) {
      forall i, j | 0 <= i < j < |r| ensures r[i].videoName != r[j].videoName {
        if j == |rows| {
          assert r[i] == rows[i];
        } else {
          assert r[i] == rows[i] && r[j] == rows[j];
        }
      }
    }
  }
}
