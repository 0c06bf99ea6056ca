/** filters.py: `LogFilter`, a helper that runs filter passes over a list of
    records and a text widget it shares with its owner. It never counts:
    starting a pass rebinds its counters to a fresh dictionary of zeros and
    the batch loop leaves them alone. */
module Filters {
  import opened Wrappers
  import opened PyBuiltins
  import opened Utils
  import opened Passes

  /** The text widget (`text_edit`): the records appended since it was last
      cleared. */
  class TextView {
    var records: seq<seq<Segment>>

    constructor ()
      ensures records == []
    {
      records := [];
    }

    /** `clear()`. */
    method Clear()
      modifies this
      ensures records == []
    {
      records := [];
    }

    /** `append_log_parts`: one more record at the end. */
    method Append(parts: seq<Segment>)
      modifies this
      ensures records == old(records) + [parts]
    {
      records := records + [parts];
    }
  }

  /** A `level_counts` dictionary, shared by reference. */
  class LevelCounter {
    var counts: map<string, int>

    constructor (counts: map<string, int>)
      ensures this.counts == counts
    {
      this.counts := counts;
    }
  }

  /** The owner's `full_logs` list, shared by reference. */
  class LogList {
    var items: seq<Entry>

    constructor (items: seq<Entry>)
      ensures this.items == items
    {
      this.items := items;
    }
  }

  class LogFilter {
    const textEdit: TextView
    /** The dictionary `self.level_counts` is bound to; rebound, never updated. */
    var levelCounts: LevelCounter
    const fullLogs: LogList
    var currentFilter: Option<string>
    /** `current_log_index`, the cursor of the pass in flight. */
    var cursor: int
    /** `total_logs`. */
    var total: int
    /** The indices the pass in flight has visited. */
    ghost var visited: seq<int>

    ghost predicate Valid()
      reads this, fullLogs
    {
      && 0 <= cursor <= total <= |fullLogs.items|
      && visited == Range(0, cursor)
    }

    /** `__init__`: keeps references to the widget, the counters and the
        list; no pass is in flight. */
    constructor (textEdit: TextView, levelCounts: LevelCounter, fullLogs: LogList)
      ensures Valid()
      ensures this.textEdit == textEdit && this.levelCounts == levelCounts && this.fullLogs == fullLogs
      ensures currentFilter == None && cursor == 0 && total == 0
    {
      this.textEdit := textEdit;
      this.levelCounts := levelCounts;
      this.fullLogs := fullLogs;
      currentFilter := None;
      cursor := 0;
      total := 0;
      visited := [];
    }

    /** `reset_statistics`: binds the counters to a fresh dictionary of the
        five known names at 0; the dictionary bound before is left as it was. */
    method ResetStatistics()
      modifies this`levelCounts
      ensures fresh(levelCounts) && levelCounts.counts == Zeros()
      ensures old(levelCounts).counts == old(levelCounts.counts)
    {
      levelCounts := new LevelCounter(map n | n in KnownLevels :: 0);
    }

    /** `filter_logs`: with records in the list, starts a filter pass for
        `level` over all of them; otherwise changes nothing. */
    method FilterLogs(level: string) returns (started: bool)
      requires Valid()
      modifies this, textEdit
      ensures Valid()
      ensures started <==> fullLogs.items != []
      ensures !started ==> unchanged(this) && unchanged(textEdit)
      ensures started ==>
        && currentFilter == Some(level) && fresh(levelCounts) && levelCounts.counts == Zeros()
        && textEdit.records == [] && cursor == 0 && total == |fullLogs.items|
      ensures old(levelCounts).counts == old(levelCounts.counts)
    {
      if fullLogs.items == [] {
        return false;
      }
      currentFilter := Some(level);
      ResetStatistics();
      textEdit.Clear();
      cursor := 0;
      total := |fullLogs.items|;
      visited := [];
      started := true;
    }

    /** `reset_filter`: as `filter_logs`, with no filter. */
    method ResetFilter() returns (started: bool)
      requires Valid()
      modifies this, textEdit
      ensures Valid()
      ensures started <==> fullLogs.items != []
      ensures !started ==> unchanged(this) && unchanged(textEdit)
      ensures started ==>
        && currentFilter == None && fresh(levelCounts) && levelCounts.counts == Zeros()
        && textEdit.records == [] && cursor == 0 && total == |fullLogs.items|
      ensures old(levelCounts).counts == old(levelCounts.counts)
    {
      if fullLogs.items == [] {
        return false;
      }
      currentFilter := None;
      ResetStatistics();
      textEdit.Clear();
      cursor := 0;
      total := |fullLogs.items|;
      visited := [];
      started := true;
    }

    /** `process_filtered_logs`: one step of a pass. The counters are not
        touched. */
    method ProcessFilteredLogs() returns (progress: Option<int>)
      requires Valid()
      modifies this`cursor, this`visited, textEdit
      ensures Valid()
      ensures progress.None? <==> old(cursor) == total
      ensures progress.None? ==> unchanged(this) && unchanged(textEdit)
      ensures progress.Some? ==>
        && cursor == BatchEnd(old(cursor), total)
        && progress.value == Progress(cursor, total)
        && textEdit.records
           == old(textEdit.records) + Shown(fullLogs.items[old(cursor)..cursor], NoneOrEqual(currentFilter))
        && visited == old(visited) + Range(old(cursor), cursor)
    {
      if cursor >= total {
        return None;
      }
      var start := cursor;
      var endIndex := if cursor + BatchSize < total then cursor + BatchSize else total;
      VisitBatch(start, endIndex);
      progress := Some(Progress(endIndex, total));
      cursor := endIndex;
      RangeConcat(0, start, endIndex);
    }

    /** The batch loop of a step, over indices `start` to `endIndex`: appends the
        records that pass the filter to the widget. */
    method VisitBatch(start: int, endIndex: int)
      requires 0 <= start <= endIndex <= |fullLogs.items|
      modifies this`visited, textEdit
      ensures textEdit.records
              == old(textEdit.records) + Shown(fullLogs.items[start..endIndex], NoneOrEqual(currentFilter))
      ensures visited == old(visited) + Range(start, endIndex)
    {
      ghost var records0, visited0 := textEdit.records, visited;
      var t := NoneOrEqual(currentFilter);
      for idx := start to endIndex
        invariant textEdit.records == records0 + Shown(fullLogs.items[start..idx], t)
        invariant visited == visited0 + Range(start, idx)
      {
        PassSnoc(fullLogs.items, start, idx, t, map[]);
        VisitRecord(fullLogs.items[idx]);
        assert Range(start, idx + 1) == Range(start, idx) + [idx];
        visited := visited + [idx];
      }
    }

    /** The body of the batch loop for one record: appended to the widget if
        it passes the filter. */
    method VisitRecord(entry: Entry)
      modifies textEdit
      ensures textEdit.records
              == old(textEdit.records)
                 + (if Admits(NoneOrEqual(currentFilter), entry.level) then [entry.parts] else [])
    {
      if currentFilter.None? || entry.level == JString(currentFilter.value) {
        textEdit.Append(entry.parts);
      }
    }

    /** The chain of `process_filtered_logs` calls the timer runs until the
        closing step: renders the rest of the list and returns the progress
        value of every productive step. */
    method RunFilterPass() returns (reports: seq<int>)
      requires Valid()
      modifies this`cursor, this`visited, textEdit
      ensures Valid() && cursor == total
      ensures textEdit.records
              == old(textEdit.records) + Shown(fullLogs.items[old(cursor)..total], NoneOrEqual(currentFilter))
      ensures |reports| == Steps(old(cursor), total)
      ensures forall k :: 0 <= k < |reports| ==> 0 <= reports[k] <= 100
      ensures forall j, k :: 0 <= j <= k < |reports| ==> reports[j] <= reports[k]
      ensures reports != [] ==> reports[|reports| - 1] == 100
    {
      reports := [];
      while cursor < total
        invariant Valid() && old(cursor) <= cursor
        invariant textEdit.records
                  == old(textEdit.records) + Shown(fullLogs.items[old(cursor)..cursor], NoneOrEqual(currentFilter))
        invariant |reports| + Steps(cursor, total) == Steps(old(cursor), total)
        invariant Reported(reports, old(cursor), cursor, total)
        decreases total - cursor
      {
        ghost var c := cursor;
        var progress := ProcessFilteredLogs();
        BatchAdvance(fullLogs.items, old(cursor), c, cursor, NoneOrEqual(currentFilter), old(textEdit.records), map[]);
        ReportedStep(reports, old(cursor), c, cursor, total);
        reports := reports + [progress.value];
      }
      // The closing step finds the cursor at the end and changes nothing.
      var closing := ProcessFilteredLogs();
      if reports != [] {
        ReportedDone(reports, old(cursor), total);
      }
    }

    /** `filter_logs(level)` run to the end: with records in the list, the
        widget holds exactly the records of that level, in order, and the
        counters are a fresh dictionary of zeros. */
    method FilterToCompletion(level: string) returns (started: bool)
      requires Valid()
      modifies this, textEdit
      ensures Valid()
      ensures started <==> fullLogs.items != []
      ensures !started ==> unchanged(this) && unchanged(textEdit)
      ensures started ==>
        && currentFilter == Some(level) && cursor == total == |fullLogs.items|
        && textEdit.records == Shown(fullLogs.items, NoneOrEqual(Some(level)))
        && |textEdit.records| == Count(fullLogs.items, level)
        && fresh(levelCounts) && levelCounts.counts == Zeros()
    {
      started := FilterLogs(level);
      if started {
        var reports := RunFilterPass();
        assert fullLogs.items[0..total] == fullLogs.items;
        ShownCountsLevel(fullLogs.items, level);
      }
    }

    /** `reset_filter` run to the end: with records in the list, the widget
        holds every record, in order, and the counters are a fresh dictionary
        of zeros. */
    method ResetToCompletion() returns (started: bool)
      requires Valid()
      modifies this, textEdit
      ensures Valid()
      ensures started <==> fullLogs.items != []
      ensures !started ==> unchanged(this) && unchanged(textEdit)
      ensures started ==>
        && currentFilter == None && cursor == total == |fullLogs.items|
        && textEdit.records == AllParts(fullLogs.items)
        && fresh(levelCounts) && levelCounts.counts == Zeros()
    {
      started := ResetFilter();
      if started {
        var reports := RunFilterPass();
        assert fullLogs.items[0..total] == fullLogs.items;
        ShownUnfiltered(fullLogs.items);
      }
    }
  }

  /** Two INFO records and one ERROR record, filtered for ERROR: one record is
      shown, the caller's counters keep their values, and the filter's own
      counters stay at zero. */
  method FilterLeavesCountsAlone(info: Entry, error: Entry) returns (shown: int, callerInfo: int, ownInfo: int)
    requires info.level == JString("INFO") && error.level == JString("ERROR")
    ensures shown == 1 && callerInfo == 7 && ownInfo == 0
  {
    var view := new TextView();
    var counts := new LevelCounter(Zeros()["INFO" := 7]);
    var logs := new LogList([info, info, error]);
    var filter := new LogFilter(view, counts, logs);
    var started := filter.FilterToCompletion("ERROR");
    assert [info, info, error][..2] == [info, info] && [info, info][..1] == [info] && [info][..0] == [];
    assert Count([info], "ERROR") == 0;
    assert Count([info, info], "ERROR") == 0;
    assert Count([info, info, error], "ERROR") == 1;
    shown := |view.records|;
    callerInfo := counts.counts["INFO"];
    ownInfo := filter.levelCounts.counts["INFO"];
  }
}
