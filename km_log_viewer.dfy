/** KM_Log_Viewer_v0.0.3.py: its own copies of `format_timestamp` and
    `parse_log`, the ingestion loop of `LogProcessingThread.run`, and the
    batched load/filter passes of `LogViewer`, whose counters accumulate
    across passes. */
module KmLogViewer {
  import opened Wrappers
  import opened PyBuiltins
  import opened PyDateTime
  import opened Utils
  import opened Passes

  // ---------------------------------------------------------------------
  // The copies of the parser.

  /** This file's `format_timestamp`. */
  function FormatTimestamp(fromIso: string -> Option<DateTime>, timestamp: string): (r: string)
    ensures r == Utils.FormatTimestamp(fromIso, timestamp)
  {
    var t := if |timestamp| > 0 && timestamp[|timestamp| - 1] == 'Z'
             then timestamp[..|timestamp| - 1] + "+00:00" else timestamp;
    match fromIso(t)
    case Some(dt) => Strftime(dt)[..|Strftime(dt)| - 3]
    case None => t
  }

  /** This file's `level_formats` table. */
  function LevelFormat(level: Json): (Color, Color)
  {
    if level == JString("INFO") then (Green, LightGray)
    else if level == JString("WARNING") then (White, Orange)
    else if level == JString("ERROR") then (White, Red)
    else if level == JString("CRITICAL") then (White, Magenta)
    else if level == JString("DEBUG") then (SkyBlue, LightGray)
    else (Black, LightGray)
  }

  function Decode(env: Env, log: Json): (r: Result<Entry, string>)
    ensures r.Success? ==> |r.value.parts| >= 6
  {
    if !log.JObject? then Failure(NoAttribute(log, "get"))
    else
      var record := GetOr(log.fields, "record", JObject([]));
      if !record.JObject? then Failure(NoAttribute(record, "get"))
      else
        var time := GetOr(record.fields, "time", JObject([]));
        if !time.JObject? then Failure(NoAttribute(time, "get"))
        else
          var repr := GetOr(time.fields, "repr", JString("Unknown time"));
          if !repr.JString? then Failure(NoAttribute(repr, "endswith"))
          else
            var timestamp := FormatTimestamp(env.fromIso, repr.s);
            var levelObj := GetOr(record.fields, "level", JObject([]));
            if !levelObj.JObject? then Failure(NoAttribute(levelObj, "get"))
            else
              var level := GetOr(levelObj.fields, "name", JString("UNKNOWN"));
              var message := GetOr(record.fields, "message", JString("No message"));
              if !Hashable(level) then Failure(Unhashable(level))
              else
                var head := HeadParts(timestamp, Str(env, level), LevelFormat(level), Str(env, message));
                var extra := GetOr(record.fields, "extra", JObject([]));
                if !Truthy(extra) then Success(Entry(head, level))
                else if !extra.JObject? then Failure(NoAttribute(extra, "items"))
                else Success(Entry(head + ExtraParts(env.dumps, extra.fields), level))
  }

  /** This file's `parse_log`. */
  function ParseLog(env: Env, logStr: string): (r: Entry)
    ensures |r.parts| == 1 || |r.parts| >= 6
    ensures |r.parts| == 1 ==> r.level == JString("ERROR") && r.parts[0].fg == Red
  {
    match env.loads(logStr)
    case Failure(e) =>
      Entry([Segment("Error parsing log string: " + e, Red, LightGray)], JString("ERROR"))
    case Success(log) =>
      match Decode(env, log)
      case Success(entry) => entry
      case Failure(e) =>
        Entry([Segment("An unexpected error occurred: " + e, Red, LightGray)], JString("ERROR"))
  }

  /** This file's `parse_log` is the one in utils.py. */
  lemma ParseLogAgrees(env: Env, logStr: string)
    ensures ParseLog(env, logStr) == Utils.ParseLog(env, logStr)
  {
    match env.loads(logStr)
    case Failure(_) =>
    case Success(log) =>
      assert forall l :: LevelFormat(l) == Utils.LevelFormat(l);
      DecodeAgrees(env, log);
  }

  lemma DecodeAgrees(env: Env, log: Json)
    ensures Decode(env, log) == Utils.Decode(env, log)
  {
    assert forall l :: LevelFormat(l) == Utils.LevelFormat(l);
    assert forall h: seq<Segment> :: h + ExtraParts(env.dumps, []) == h;
  }

  // ---------------------------------------------------------------------
  // Ingestion: lines 90-94 of `LogProcessingThread.run`.

  /** The lines whose `strip()` is non-empty, in file order: every kept line
      is a non-blank line of the file (and, by `NonBlankKeeps`, every
      non-blank line is kept). */
  function NonBlank(lines: seq<string>): (r: seq<string>)
    ensures |r| <= |lines|
    ensures forall k :: 0 <= k < |r| ==> Strip(r[k]) != [] && r[k] in lines
  {
    if lines == [] then []
    else
      var init, last := lines[..|lines| - 1], lines[|lines| - 1];
      var kept := NonBlank(init);
      assert forall l :: l in init ==> l in lines;
      assert forall i :: 0 <= i < |init| ==> init[i] == lines[i];
      if Strip(last) != [] then
        assert forall l :: l in kept ==> l in kept + [last];
        kept + [last]
      else kept
  }

  /** Every line that is not all whitespace is kept. */
  lemma {:induction false} NonBlankKeeps(lines: seq<string>, i: int)
    requires 0 <= i < |lines| && exists k :: 0 <= k < |lines[i]| && !IsSpace(lines[i][k])
    ensures lines[i] in NonBlank(lines)
  {
    StripEmptyIffBlank(lines[i]);
    if i < |lines| - 1 {
      NonBlankKeeps(lines[..|lines| - 1], i);
    }
  }

  /** The records the ingestion loop collects, in file order. */
  function Ingest(env: Env, lines: seq<string>): (r: seq<Entry>)
    ensures |r| <= |lines|
    ensures forall k :: 0 <= k < |r| ==> r[k].parts != []
  {
    if lines == [] then []
    else
      var last := lines[|lines| - 1];
      Ingest(env, lines[..|lines| - 1]) + (if Strip(last) != [] then [ParseLog(env, Strip(last))] else [])
  }

  /** Ingestion parses each non-blank line, stripped, in file order: one record
      per non-blank line. */
  lemma {:induction false} IngestParsesNonBlank(env: Env, lines: seq<string>)
    ensures |Ingest(env, lines)| == |NonBlank(lines)|
    ensures forall k :: 0 <= k < |NonBlank(lines)| ==>
              Ingest(env, lines)[k] == ParseLog(env, Strip(NonBlank(lines)[k]))
  {
    if lines != [] {
      var init, last := lines[..|lines| - 1], lines[|lines| - 1];
      IngestParsesNonBlank(env, init);
      var parsed, kept := Ingest(env, init), NonBlank(init);
      if Strip(last) != [] {
        var entry := ParseLog(env, Strip(last));
        assert Ingest(env, lines) == parsed + [entry] && NonBlank(lines) == kept + [last];
        forall k | 0 <= k < |kept| + 1
          ensures Ingest(env, lines)[k] == ParseLog(env, Strip(NonBlank(lines)[k]))
        {
          if k == |kept| {
            assert NonBlank(lines)[k] == last;
          } else {
            assert NonBlank(lines)[k] == kept[k] && Ingest(env, lines)[k] == parsed[k];
          }
        }
      }
    }
  }

  /** The ingestion loop of `LogProcessingThread.run`: skips blank lines and
      parses each other line stripped, giving one record per non-blank line,
      each with at least one part. */
  method IngestLines(env: Env, lines: seq<string>) returns (logs: seq<Entry>)
    ensures |logs| == |NonBlank(lines)| <= |lines|
    ensures forall k :: 0 <= k < |logs| ==> logs[k] == ParseLog(env, Strip(NonBlank(lines)[k]))
    ensures forall k :: 0 <= k < |logs| ==> logs[k].parts != []
  {
    logs := [];
    for idx := 0 to |lines|
      invariant logs == Ingest(env, lines[..idx])
    {
      var line := lines[idx];
      assert lines[..idx + 1][..idx] == lines[..idx];
      if Strip(line) != [] {
        var entry := ParseLog(env, Strip(line));
        logs := logs + [entry];
      }
    }
    assert lines[..|lines|] == lines;
    IngestParsesNonBlank(env, lines);
  }

  // ---------------------------------------------------------------------
  // The viewer.

  class LogViewer {
    var currentFilter: Option<string>
    /** `self.thread.logs`: the records of the last finished ingestion. */
    var threadLogs: seq<Entry>
    var fullLogs: seq<Entry>
    var levelCounts: map<string, int>
    /** `current_log_index`, the cursor of the pass in flight. */
    var cursor: int
    /** `total_logs`. */
    var total: int
    /** The records appended to `text_edit` since it was last cleared. */
    var display: seq<seq<Segment>>
    /** The indices the pass in flight has visited. */
    ghost var visited: seq<int>

    ghost predicate Valid()
      reads this
    {
      && 0 <= cursor <= total && total == |fullLogs| && threadLogs == fullLogs
      && levelCounts.Keys == KnownLevels
      && visited == Range(0, cursor)
    }

    /** `__init__`. The cursor and total are first set by a pass; they start at 0 here. */
    constructor ()
      ensures Valid()
      ensures currentFilter == None && fullLogs == [] && levelCounts == Zeros() && display == []
    {
      currentFilter := None;
      threadLogs := [];
      fullLogs := [];
      levelCounts := Zeros();
      cursor := 0;
      total := 0;
      display := [];
      visited := [];
    }

    /** `process_logs`: clears the display, zeroes the counters, takes a copy
        of the ingested records, and renders the first batch at once. */
    method ProcessLogs(logs: seq<Entry>) returns (progress: Option<int>)
      requires Valid()
      modifies this
      ensures Valid()
      ensures threadLogs == logs && fullLogs == logs && total == |logs|
      ensures currentFilter == old(currentFilter)
      ensures cursor == if logs == [] then 0 else BatchEnd(0, |logs|)
      ensures display == Shown(logs[..cursor], FalsyOrEqual(currentFilter))
      ensures levelCounts == Tally(Zeros(), logs[..cursor])
      ensures progress == if logs == [] then None else Some(Progress(cursor, total))
    {
      display := [];
      levelCounts := map n | n in levelCounts :: 0;
      assert levelCounts == Zeros();
      cursor := 0;
      total := |logs|;
      threadLogs := logs;
      fullLogs := logs;
      visited := [];
      progress := ProcessNextBatch();
    }

    /** `process_next_batch`: one step of the load pass, over the thread's records. */
    method ProcessNextBatch() returns (progress: Option<int>)
      requires Valid()
      modifies this
      ensures Valid()
      ensures currentFilter == old(currentFilter) && threadLogs == old(threadLogs)
      ensures fullLogs == old(fullLogs) && total == old(total)
      ensures progress.None? <==> old(cursor) == total
      ensures progress.None? ==> unchanged(this)
      ensures progress.Some? ==>
        && cursor == BatchEnd(old(cursor), total)
        && progress.value == Progress(cursor, total)
        && display == old(display) + Shown(threadLogs[old(cursor)..cursor], FalsyOrEqual(currentFilter))
        && levelCounts == Tally(old(levelCounts), threadLogs[old(cursor)..cursor])
        && visited == old(visited) + Range(old(cursor), cursor)
    {
      if cursor >= total {
        return None;
      }
      var start := cursor;
      var endIndex := if cursor + BatchSize < total then cursor + BatchSize else total;
      VisitBatch(threadLogs, start, endIndex, FalsyOrEqual(currentFilter));
      progress := Some(Progress(endIndex, total));
      cursor := endIndex;
      RangeConcat(0, start, endIndex);
      TallyCounts(old(levelCounts), threadLogs[start..endIndex]);
    }

    /** `filter_logs`: with records loaded, starts a filter pass for `level`
        without touching the counters; otherwise changes nothing. */
    method FilterLogs(level: string) returns (started: bool)
      requires Valid()
      modifies this
      ensures Valid()
      ensures started <==> old(fullLogs) != []
      ensures !started ==> unchanged(this)
      ensures started ==>
        && currentFilter == Some(level) && display == [] && cursor == 0
        && total == |fullLogs| && levelCounts == old(levelCounts)
      ensures fullLogs == old(fullLogs) && threadLogs == old(threadLogs)
    {
      if fullLogs == [] {
        return false;
      }
      currentFilter := Some(level);
      display := [];
      cursor := 0;
      total := |fullLogs|;
      visited := [];
      started := true;
    }

    /** `reset_filter`: as `filter_logs`, with no filter. */
    method ResetFilter() returns (started: bool)
      requires Valid()
      modifies this
      ensures Valid()
      ensures started <==> old(fullLogs) != []
      ensures !started ==> unchanged(this)
      ensures started ==>
        && currentFilter == None && display == [] && cursor == 0
        && total == |fullLogs| && levelCounts == old(levelCounts)
      ensures fullLogs == old(fullLogs) && threadLogs == old(threadLogs)
    {
      if fullLogs == [] {
        return false;
      }
      currentFilter := None;
      display := [];
      cursor := 0;
      total := |fullLogs|;
      visited := [];
      started := true;
    }

    /** `process_filtered_logs`: one step of a filter or reset pass. */
    method ProcessFilteredLogs() returns (progress: Option<int>)
      requires Valid()
      modifies this
      ensures Valid()
      ensures currentFilter == old(currentFilter) && threadLogs == old(threadLogs)
      ensures fullLogs == old(fullLogs) && total == old(total)
      ensures progress.None? <==> old(cursor) == total
      ensures progress.None? ==> unchanged(this)
      ensures progress.Some? ==>
        && cursor == BatchEnd(old(cursor), total)
        && progress.value == Progress(cursor, total)
        && display == old(display) + Shown(fullLogs[old(cursor)..cursor], NoneOrEqual(currentFilter))
        && levelCounts == Tally(old(levelCounts), fullLogs[old(cursor)..cursor])
        && visited == old(visited) + Range(old(cursor), cursor)
    {
      if cursor >= total {
        return None;
      }
      var start := cursor;
      var endIndex := if cursor + BatchSize < total then cursor + BatchSize else total;
      VisitBatch(fullLogs, start, endIndex, NoneOrEqual(currentFilter));
      progress := Some(Progress(endIndex, total));
      cursor := endIndex;
      RangeConcat(0, start, endIndex);
      TallyCounts(old(levelCounts), fullLogs[start..endIndex]);
    }

    /** The chain of `process_next_batch` calls the timer runs until the
        closing step: renders the rest of the thread's records and returns
        the progress value of every productive step. */
    method RunLoadPass() returns (reports: seq<int>)
      requires Valid()
      modifies this
      ensures Valid() && cursor == total
      ensures currentFilter == old(currentFilter) && threadLogs == old(threadLogs)
      ensures fullLogs == old(fullLogs) && total == old(total)
      ensures display == old(display) + Shown(threadLogs[old(cursor)..], FalsyOrEqual(currentFilter))
      ensures levelCounts == Tally(old(levelCounts), threadLogs[old(cursor)..])
      ensures |reports| == Steps(old(cursor), total)
      ensures forall k :: 0 <= k < |reports| ==> 0 <= reports[k] <= 100
      ensures forall j, k :: 0 <= j <= k < |reports| ==> reports[j] <= reports[k]
      ensures reports != [] ==> reports[|reports| - 1] == 100
      ensures 0 < old(cursor) && reports != [] ==> Progress(old(cursor), total) <= reports[0]
    {
      reports := [];
      while cursor < total
        invariant Valid() && old(cursor) <= cursor
        invariant currentFilter == old(currentFilter) && threadLogs == old(threadLogs)
        invariant fullLogs == old(fullLogs) && total == old(total)
        invariant display == old(display) + Shown(threadLogs[old(cursor)..cursor], FalsyOrEqual(currentFilter))
        invariant levelCounts == Tally(old(levelCounts), threadLogs[old(cursor)..cursor])
        invariant |reports| + Steps(cursor, total) == Steps(old(cursor), total)
        invariant Reported(reports, old(cursor), cursor, total)
        decreases total - cursor
      {
        ghost var c := cursor;
        var progress := ProcessNextBatch();
        BatchAdvance(threadLogs, old(cursor), c, cursor, FalsyOrEqual(currentFilter), old(display), old(levelCounts));
        ReportedStep(reports, old(cursor), c, cursor, total);
        reports := reports + [progress.value];
      }
      // The closing step finds the cursor at the end and changes nothing.
      var closing := ProcessNextBatch();
      assert threadLogs[old(cursor)..cursor] == threadLogs[old(cursor)..];
      if reports != [] {
        ReportedDone(reports, old(cursor), total);
      }
    }

    /** The chain of `process_filtered_logs` calls the timer runs until the
        closing step. */
    method RunFilterPass() returns (reports: seq<int>)
      requires Valid()
      modifies this
      ensures Valid() && cursor == total
      ensures currentFilter == old(currentFilter) && threadLogs == old(threadLogs)
      ensures fullLogs == old(fullLogs) && total == old(total)
      ensures display == old(display) + Shown(fullLogs[old(cursor)..], NoneOrEqual(currentFilter))
      ensures levelCounts == Tally(old(levelCounts), fullLogs[old(cursor)..])
      ensures |reports| == Steps(old(cursor), total)
      ensures forall k :: 0 <= k < |reports| ==> 0 <= reports[k] <= 100
      ensures forall j, k :: 0 <= j <= k < |reports| ==> reports[j] <= reports[k]
      ensures reports != [] ==> reports[|reports| - 1] == 100
    {
      reports := [];
      while cursor < total
        invariant Valid() && old(cursor) <= cursor
        invariant currentFilter == old(currentFilter) && threadLogs == old(threadLogs)
        invariant fullLogs == old(fullLogs) && total == old(total)
        invariant display == old(display) + Shown(fullLogs[old(cursor)..cursor], NoneOrEqual(currentFilter))
        invariant levelCounts == Tally(old(levelCounts), fullLogs[old(cursor)..cursor])
        invariant |reports| + Steps(cursor, total) == Steps(old(cursor), total)
        invariant Reported(reports, old(cursor), cursor, total)
        decreases total - cursor
      {
        ghost var c := cursor;
        var progress := ProcessFilteredLogs();
        BatchAdvance(fullLogs, old(cursor), c, cursor, NoneOrEqual(currentFilter), old(display), old(levelCounts));
        ReportedStep(reports, old(cursor), c, cursor, total);
        reports := reports + [progress.value];
      }
      // The closing step finds the cursor at the end and changes nothing.
      var closing := ProcessFilteredLogs();
      assert fullLogs[old(cursor)..cursor] == fullLogs[old(cursor)..];
      if reports != [] {
        ReportedDone(reports, old(cursor), total);
      }
    }

    /** `finish_processing` after an ingestion of `logs`, run to the end: the
        display holds every record the current filter admits, and each
        counter holds the number of records with that level. */
    method OpenAndRender(logs: seq<Entry>) returns (reports: seq<int>)
      requires Valid()
      modifies this
      ensures Valid() && cursor == total && fullLogs == logs
      ensures currentFilter == old(currentFilter)
      ensures display == Shown(logs, FalsyOrEqual(currentFilter))
      ensures forall n :: n in KnownLevels ==> levelCounts[n] == Count(logs, n)
      ensures |reports| == Steps(0, |logs|)
      ensures forall k :: 0 <= k < |reports| ==> 0 <= reports[k] <= 100
      ensures forall j, k :: 0 <= j <= k < |reports| ==> reports[j] <= reports[k]
      ensures reports != [] ==> reports[|reports| - 1] == 100
    {
      var first := ProcessLogs(logs);
      ghost var c := cursor;
      var rest := RunLoadPass();
      WholePass(logs, c, FalsyOrEqual(currentFilter), Zeros());
      TallyCounts(Zeros(), logs);
      if first.Some? {
        ProgressBounds(c, total);
        ReportedPrepend(first.value, rest);
        reports := [first.value] + rest;
      } else {
        reports := rest;
      }
    }

    /** `filter_logs(level)` run to the end: with records loaded, the display
        holds exactly the records of that level, in order, and each counter
        grows by the number of records with its level. */
    method FilterToCompletion(level: string) returns (started: bool)
      requires Valid()
      modifies this
      ensures Valid() && fullLogs == old(fullLogs)
      ensures started <==> old(fullLogs) != []
      ensures !started ==> unchanged(this)
      ensures started ==>
        && currentFilter == Some(level) && cursor == total
        && display == Shown(fullLogs, NoneOrEqual(Some(level)))
        && |display| == Count(fullLogs, level)
        && forall n :: n in KnownLevels ==> levelCounts[n] == old(levelCounts)[n] + Count(fullLogs, n)
    {
      started := FilterLogs(level);
      if started {
        ghost var counts := levelCounts;
        var reports := RunFilterPass();
        assert fullLogs[0..] == fullLogs;
        TallyCounts(counts, fullLogs);
        ShownCountsLevel(fullLogs, level);
      }
    }

    /** `reset_filter` run to the end: with records loaded, the display holds
        every record, in order, and each counter grows by the number of
        records with its level. */
    method ResetToCompletion() returns (started: bool)
      requires Valid()
      modifies this
      ensures Valid() && fullLogs == old(fullLogs)
      ensures started <==> old(fullLogs) != []
      ensures !started ==> unchanged(this)
      ensures started ==>
        && currentFilter == None && cursor == total
        && display == AllParts(fullLogs)
        && forall n :: n in KnownLevels ==> levelCounts[n] == old(levelCounts)[n] + Count(fullLogs, n)
    {
      started := ResetFilter();
      if started {
        ghost var counts := levelCounts;
        var reports := RunFilterPass();
        assert fullLogs[0..] == fullLogs;
        TallyCounts(counts, fullLogs);
        ShownUnfiltered(fullLogs);
      }
    }

    /** The batch loop of a step, over indices `start` to `endIndex`: appends the
        records that pass `t` to the display and counts every visited record
        whose level is a known name. */
    method VisitBatch(logs: seq<Entry>, start: int, endIndex: int, t: Test)
      requires 0 <= start <= endIndex <= |logs|
      modifies this`display, this`levelCounts, this`visited
      ensures display == old(display) + Shown(logs[start..endIndex], t)
      ensures levelCounts == Tally(old(levelCounts), logs[start..endIndex])
      ensures visited == old(visited) + Range(start, endIndex)
    {
      ghost var display0, counts0, visited0 := display, levelCounts, visited;
      for idx := start to endIndex
        invariant display == display0 + Shown(logs[start..idx], t)
        invariant levelCounts == Tally(counts0, logs[start..idx])
        invariant visited == visited0 + Range(start, idx)
      {
        PassSnoc(logs, start, idx, t, counts0);
        VisitRecord(logs[idx], t);
        assert Range(start, idx + 1) == Range(start, idx) + [idx];
        visited := visited + [idx];
      }
    }

    /** The body of the batch loop for one record: appended to the display
        if it passes `t`, counted if its level is a known name. */
    method VisitRecord(entry: Entry, t: Test)
      modifies this`display, this`levelCounts
      ensures display == old(display) + (if Admits(t, entry.level) then [entry.parts] else [])
      ensures levelCounts == Bump(old(levelCounts), entry.level)
    {
      if Admits(t, entry.level) {
        display := display + [entry.parts];
      }
      if entry.level.JString? && entry.level.s in levelCounts {
        levelCounts := levelCounts[entry.level.s := levelCounts[entry.level.s] + 1];
      }
    }
  }

  /** One INFO record is loaded, then shown again with RESET: one record is
      on display, yet the INFO counter reads 2, because neither
      `filter_logs` nor `reset_filter` zeroes the counters before the pass
      counts every record again. */
  method CountsAfterLoadAndReset(e: Entry) returns (info: int, shown: int)
    requires e.level == JString("INFO")
    ensures info == 2 && shown == 1
  {
    assert [e][..0] == [];
    var viewer := new LogViewer();
    var reports := viewer.OpenAndRender([e]);
    assert Count([e], "INFO") == 1;
    assert viewer.levelCounts["INFO"] == 1;
    var started := viewer.ResetToCompletion();
    assert started;
    assert viewer.levelCounts["INFO"] == 2;
    assert |viewer.display| == 1;
    info := viewer.levelCounts["INFO"];
    shown := |viewer.display|;
  }
}
