/** gui.py: the batched load/filter passes of `LogViewer`. Unlike the
    single-file version, every pass starts from zeroed counters, so after a
    finished pass each counter holds the number of records with its level. */
module Gui {
  import opened Wrappers
  import opened PyBuiltins
  import opened Utils
  import opened Passes

  class LogViewer {
    var currentFilter: Option<string>
    /** `self.thread.logs`: the records of the last finished ingestion. */
    var threadLogs: seq<Entry>
    var fullLogs: seq<Entry>
    var levelCounts: map<string, int>
    /** `current_log_index`, the cursor of the pass in flight. */
    var cursor: int
    /** `total_logs`. */
    var total: int
    /** The records appended to `text_edit` since it was last cleared. */
    var display: seq<seq<Segment>>
    /** The indices the pass in flight has visited. */
    ghost var visited: seq<int>

    ghost predicate Valid()
      reads this
    {
      && 0 <= cursor <= total && total == |fullLogs| && threadLogs == fullLogs
      && levelCounts.Keys == KnownLevels
      && visited == Range(0, cursor)
    }

    /** `__init__`. The cursor and total are first set by a pass; they start at 0 here. */
    constructor ()
      ensures Valid()
      ensures currentFilter == None && fullLogs == [] && levelCounts == Zeros() && display == []
    {
      currentFilter := None;
      threadLogs := [];
      fullLogs := [];
      levelCounts := Zeros();
      cursor := 0;
      total := 0;
      display := [];
      visited := [];
    }

    /** `reset_statistics`: a fresh dictionary of the five known names, all at 0. */
    method ResetStatistics()
      modifies this`levelCounts
      ensures levelCounts == Zeros()
    {
      levelCounts := map n | n in KnownLevels :: 0;
    }

    /** `process_logs`: clears the display, zeroes the counters, takes a copy
        of the ingested records, and renders the first batch at once. */
    method ProcessLogs(logs: seq<Entry>) returns (progress: Option<int>)
      requires Valid()
      modifies this
      ensures Valid()
      ensures threadLogs == logs && fullLogs == logs && total == |logs|
      ensures currentFilter == old(currentFilter)
      ensures cursor == if logs == [] then 0 else BatchEnd(0, |logs|)
      ensures display == Shown(logs[..cursor], FalsyOrEqual(currentFilter))
      ensures levelCounts == Tally(Zeros(), logs[..cursor])
      ensures progress == if logs == [] then None else Some(Progress(cursor, total))
    {
      display := [];
      ResetStatistics();
      cursor := 0;
      total := |logs|;
      threadLogs := logs;
      fullLogs := logs;
      visited := [];
      progress := ProcessNextBatch();
    }

    /** `process_next_batch`: one step of the load pass, over the thread's records. */
    method ProcessNextBatch() returns (progress: Option<int>)
      requires Valid()
      modifies this
      ensures Valid()
      ensures currentFilter == old(currentFilter) && threadLogs == old(threadLogs)
      ensures fullLogs == old(fullLogs) && total == old(total)
      ensures progress.None? <==> old(cursor) == total
      ensures progress.None? ==> unchanged(this)
      ensures progress.Some? ==>
        && cursor == BatchEnd(old(cursor), total)
        && progress.value == Progress(cursor, total)
        && display == old(display) + Shown(threadLogs[old(cursor)..cursor], FalsyOrEqual(currentFilter))
        && levelCounts == Tally(old(levelCounts), threadLogs[old(cursor)..cursor])
        && visited == old(visited) + Range(old(cursor), cursor)
    {
      if cursor >= total {
        return None;
      }
      var start := cursor;
      var endIndex := if cursor + BatchSize < total then cursor + BatchSize else total;
      VisitBatch(threadLogs, start, endIndex, FalsyOrEqual(currentFilter));
      progress := Some(Progress(endIndex, total));
      cursor := endIndex;
      RangeConcat(0, start, endIndex);
      TallyCounts(old(levelCounts), threadLogs[start..endIndex]);
    }

    /** `filter_logs`: with records loaded, starts a filter pass for `level`
        with the counters zeroed; otherwise changes nothing. */
    method FilterLogs(level: string) returns (started: bool)
      requires Valid()
      modifies this
      ensures Valid()
      ensures started <==> old(fullLogs) != []
      ensures !started ==> unchanged(this)
      ensures started ==>
        && currentFilter == Some(level) && display == [] && cursor == 0
        && total == |fullLogs| && levelCounts == Zeros()
      ensures fullLogs == old(fullLogs) && threadLogs == old(threadLogs)
    {
      if fullLogs == [] {
        return false;
      }
      currentFilter := Some(level);
      ResetStatistics();
      display := [];
      cursor := 0;
      total := |fullLogs|;
      visited := [];
      started := true;
    }

    /** `reset_filter`: as `filter_logs`, with no filter. */
    method ResetFilter() returns (started: bool)
      requires Valid()
      modifies this
      ensures Valid()
      ensures started <==> old(fullLogs) != []
      ensures !started ==> unchanged(this)
      ensures started ==>
        && currentFilter == None && display == [] && cursor == 0
        && total == |fullLogs| && levelCounts == Zeros()
      ensures fullLogs == old(fullLogs) && threadLogs == old(threadLogs)
    {
      if fullLogs == [] {
        return false;
      }
      currentFilter := None;
      ResetStatistics();
      display := [];
      cursor := 0;
      total := |fullLogs|;
      visited := [];
      started := true;
    }

    /** `process_filtered_logs`: one step of a filter or reset pass. */
    method ProcessFilteredLogs() returns (progress: Option<int>)
      requires Valid()
      modifies this
      ensures Valid()
      ensures currentFilter == old(currentFilter) && threadLogs == old(threadLogs)
      ensures fullLogs == old(fullLogs) && total == old(total)
      ensures progress.None? <==> old(cursor) == total
      ensures progress.None? ==> unchanged(this)
      ensures progress.Some? ==>
        && cursor == BatchEnd(old(cursor), total)
        && progress.value == Progress(cursor, total)
        && display == old(display) + Shown(fullLogs[old(cursor)..cursor], NoneOrEqual(currentFilter))
        && levelCounts == Tally(old(levelCounts), fullLogs[old(cursor)..cursor])
        && visited == old(visited) + Range(old(cursor), cursor)
    {
      if cursor >= total {
        return None;
      }
      var start := cursor;
      var endIndex := if cursor + BatchSize < total then cursor + BatchSize else total;
      VisitBatch(fullLogs, start, endIndex, NoneOrEqual(currentFilter));
      progress := Some(Progress(endIndex, total));
      cursor := endIndex;
      RangeConcat(0, start, endIndex);
      TallyCounts(old(levelCounts), fullLogs[start..endIndex]);
    }

    /** The chain of `process_next_batch` calls the timer runs until the
        closing step: renders the rest of the thread's records and returns
        the progress value of every productive step. */
    method RunLoadPass() returns (reports: seq<int>)
      requires Valid()
      modifies this
      ensures Valid() && cursor == total
      ensures currentFilter == old(currentFilter) && threadLogs == old(threadLogs)
      ensures fullLogs == old(fullLogs) && total == old(total)
      ensures display == old(display) + Shown(threadLogs[old(cursor)..], FalsyOrEqual(currentFilter))
      ensures levelCounts == Tally(old(levelCounts), threadLogs[old(cursor)..])
      ensures |reports| == Steps(old(cursor), total)
      ensures forall k :: 0 <= k < |reports| ==> 0 <= reports[k] <= 100
      ensures forall j, k :: 0 <= j <= k < |reports| ==> reports[j] <= reports[k]
      ensures reports != [] ==> reports[|reports| - 1] == 100
      ensures 0 < old(cursor) && reports != [] ==> Progress(old(cursor), total) <= reports[0]
    {
      reports := [];
      while cursor < total
        invariant Valid() && old(cursor) <= cursor
        invariant currentFilter == old(currentFilter) && threadLogs == old(threadLogs)
        invariant fullLogs == old(fullLogs) && total == old(total)
        invariant display == old(display) + Shown(threadLogs[old(cursor)..cursor], FalsyOrEqual(currentFilter))
        invariant levelCounts == Tally(old(levelCounts), threadLogs[old(cursor)..cursor])
        invariant |reports| + Steps(cursor, total) == Steps(old(cursor), total)
        invariant Reported(reports, old(cursor), cursor, total)
        decreases total - cursor
      {
        ghost var c := cursor;
        var progress := ProcessNextBatch();
        BatchAdvance(threadLogs, old(cursor), c, cursor, FalsyOrEqual(currentFilter), old(display), old(levelCounts));
        ReportedStep(reports, old(cursor), c, cursor, total);
        reports := reports + [progress.value];
      }
      // The closing step finds the cursor at the end and changes nothing.
      var closing := ProcessNextBatch();
      assert threadLogs[old(cursor)..cursor] == threadLogs[old(cursor)..];
      if reports != [] {
        ReportedDone(reports, old(cursor), total);
      }
    }

    /** The chain of `process_filtered_logs` calls the timer runs until the
        closing step. */
    method RunFilterPass() returns (reports: seq<int>)
      requires Valid()
      modifies this
      ensures Valid() && cursor == total
      ensures currentFilter == old(currentFilter) && threadLogs == old(threadLogs)
      ensures fullLogs == old(fullLogs) && total == old(total)
      ensures display == old(display) + Shown(fullLogs[old(cursor)..], NoneOrEqual(currentFilter))
      ensures levelCounts == Tally(old(levelCounts), fullLogs[old(cursor)..])
      ensures |reports| == Steps(old(cursor), total)
      ensures forall k :: 0 <= k < |reports| ==> 0 <= reports[k] <= 100
      ensures forall j, k :: 0 <= j <= k < |reports| ==> reports[j] <= reports[k]
      ensures reports != [] ==> reports[|reports| - 1] == 100
    {
      reports := [];
      while cursor < total
        invariant Valid() && old(cursor) <= cursor
        invariant currentFilter == old(currentFilter) && threadLogs == old(threadLogs)
        invariant fullLogs == old(fullLogs) && total == old(total)
        invariant display == old(display) + Shown(fullLogs[old(cursor)..cursor], NoneOrEqual(currentFilter))
        invariant levelCounts == Tally(old(levelCounts), fullLogs[old(cursor)..cursor])
        invariant |reports| + Steps(cursor, total) == Steps(old(cursor), total)
        invariant Reported(reports, old(cursor), cursor, total)
        decreases total - cursor
      {
        ghost var c := cursor;
        var progress := ProcessFilteredLogs();
        BatchAdvance(fullLogs, old(cursor), c, cursor, NoneOrEqual(currentFilter), old(display), old(levelCounts));
        ReportedStep(reports, old(cursor), c, cursor, total);
        reports := reports + [progress.value];
      }
      // The closing step finds the cursor at the end and changes nothing.
      var closing := ProcessFilteredLogs();
      assert fullLogs[old(cursor)..cursor] == fullLogs[old(cursor)..];
      if reports != [] {
        ReportedDone(reports, old(cursor), total);
      }
    }

    /** `finish_processing` after an ingestion of `logs`, run to the end: the
        display holds every record the current filter admits, and each
        counter holds the number of records with that level. */
    method OpenAndRender(logs: seq<Entry>) returns (reports: seq<int>)
      requires Valid()
      modifies this
      ensures Valid() && cursor == total && fullLogs == logs
      ensures currentFilter == old(currentFilter)
      ensures display == Shown(logs, FalsyOrEqual(currentFilter))
      ensures forall n :: n in KnownLevels ==> levelCounts[n] == Count(logs, n)
      ensures |reports| == Steps(0, |logs|)
      ensures forall k :: 0 <= k < |reports| ==> 0 <= reports[k] <= 100
      ensures forall j, k :: 0 <= j <= k < |reports| ==> reports[j] <= reports[k]
      ensures reports != [] ==> reports[|reports| - 1] == 100
    {
      var first := ProcessLogs(logs);
      ghost var c := cursor;
      var rest := RunLoadPass();
      WholePass(logs, c, FalsyOrEqual(currentFilter), Zeros());
      TallyCounts(Zeros(), logs);
      if first.Some? {
        ProgressBounds(c, total);
        ReportedPrepend(first.value, rest);
        reports := [first.value] + rest;
      } else {
        reports := rest;
      }
    }

    /** `filter_logs(level)` run to the end: with records loaded, the display
        holds exactly the records of that level, in order, while each counter
        holds the number of records with its level, whatever the filter; the
        counters add up to the records with a known level. */
    method FilterToCompletion(level: string) returns (started: bool)
      requires Valid()
      modifies this
      ensures Valid() && fullLogs == old(fullLogs)
      ensures started <==> old(fullLogs) != []
      ensures !started ==> unchanged(this)
      ensures started ==>
        && currentFilter == Some(level) && cursor == total
        && display == Shown(fullLogs, NoneOrEqual(Some(level)))
        && |display| == Count(fullLogs, level)
        && (forall n :: n in KnownLevels ==> levelCounts[n] == Count(fullLogs, n))
        && CountsTotal(levelCounts) == KnownCount(fullLogs) <= |fullLogs|
    {
      started := FilterLogs(level);
      if started {
        var reports := RunFilterPass();
        assert fullLogs[0..] == fullLogs;
        TallyCounts(Zeros(), fullLogs);
        ShownCountsLevel(fullLogs, level);
        CountsSum(fullLogs);
      }
    }

    /** `reset_filter` run to the end: with records loaded, the display holds
        every record, in order, and each counter holds the number of records
        with its level. */
    method ResetToCompletion() returns (started: bool)
      requires Valid()
      modifies this
      ensures Valid() && fullLogs == old(fullLogs)
      ensures started <==> old(fullLogs) != []
      ensures !started ==> unchanged(this)
      ensures started ==>
        && currentFilter == None && cursor == total
        && display == AllParts(fullLogs)
        && (forall n :: n in KnownLevels ==> levelCounts[n] == Count(fullLogs, n))
        && CountsTotal(levelCounts) == KnownCount(fullLogs) <= |fullLogs|
    {
      started := ResetFilter();
      if started {
        var reports := RunFilterPass();
        assert fullLogs[0..] == fullLogs;
        TallyCounts(Zeros(), fullLogs);
        ShownUnfiltered(fullLogs);
        CountsSum(fullLogs);
      }
    }

    /** The batch loop of a step, over indices `start` to `endIndex`: appends the
        records that pass `t` to the display and counts every visited record
        whose level is a known name. */
    method VisitBatch(logs: seq<Entry>, start: int, endIndex: int, t: Test)
      requires 0 <= start <= endIndex <= |logs|
      modifies this`display, this`levelCounts, this`visited
      ensures display == old(display) + Shown(logs[start..endIndex], t)
      ensures levelCounts == Tally(old(levelCounts), logs[start..endIndex])
      ensures visited == old(visited) + Range(start, endIndex)
    {
      ghost var display0, counts0, visited0 := display, levelCounts, visited;
      for idx := start to endIndex
        invariant display == display0 + Shown(logs[start..idx], t)
        invariant levelCounts == Tally(counts0, logs[start..idx])
        invariant visited == visited0 + Range(start, idx)
      {
        PassSnoc(logs, start, idx, t, counts0);
        VisitRecord(logs[idx], t);
        assert Range(start, idx + 1) == Range(start, idx) + [idx];
        visited := visited + [idx];
      }
    }

    /** The body of the batch loop for one record: appended to the display
        if it passes `t`, counted if its level is a known name. */
    method VisitRecord(entry: Entry, t: Test)
      modifies this`display, this`levelCounts
      ensures display == old(display) + (if Admits(t, entry.level) then [entry.parts] else [])
      ensures levelCounts == Bump(old(levelCounts), entry.level)
    {
      if Admits(t, entry.level) {
        display := display + [entry.parts];
      }
      if entry.level.JString? && entry.level.s in levelCounts {
        levelCounts := levelCounts[entry.level.s := levelCounts[entry.level.s] + 1];
      }
    }
  }

  /** One INFO record is loaded, then shown again with RESET: one record is
      on display and the INFO counter reads 1. */
  method CountsAfterLoadAndReset(e: Entry) returns (info: int, shown: int)
    requires e.level == JString("INFO")
    ensures info == 1 && shown == 1
  {
    assert [e][..0] == [];
    var viewer := new LogViewer();
    var reports := viewer.OpenAndRender([e]);
    var started := viewer.ResetToCompletion();
    assert started;
    info := viewer.levelCounts["INFO"];
    shown := |viewer.display|;
  }
}
