/** What one batched render pass computes, shared by the three viewer
    versions: which records a pass displays, how the per-level counters
    move, which indices it visits and the progress it reports. The batch
    methods of each viewer are proved against these functions. */
module Passes {
  import opened Wrappers
  import opened PyBuiltins
  import opened Utils

  /** Records visited per step (`batch_size`). */
  const BatchSize: nat := 10

  /** The keys of `level_counts`. */
  const KnownLevels: set<string> := {"INFO", "WARNING", "ERROR", "CRITICAL", "DEBUG"}

  /** The test a pass applies to each record's level. */
  datatype Test =
    | NoneOrEqual(filter: Option<string>)   // `current_filter is None or level == current_filter`
    | FalsyOrEqual(filter: Option<string>)  // `not current_filter or level == current_filter`

  predicate Admits(t: Test, level: Json)
  {
    match t
    case NoneOrEqual(f) => f.None? || level == JString(f.value)
    case FalsyOrEqual(f) => f.None? || f.value == "" || level == JString(f.value)
  }

  /** The load pass treats an empty filter as no filter; the filter pass
      treats only `None` that way. */
  lemma FilterTests(level: Json)
    ensures Admits(FalsyOrEqual(Some("")), level)
    ensures Admits(NoneOrEqual(Some("")), level) <==> level == JString("")
    ensures Admits(FalsyOrEqual(None), level) && Admits(NoneOrEqual(None), level)
  {
  }

  /** The records a pass over `logs` displays, in order. */
  function Shown(logs: seq<Entry>, t: Test): seq<seq<Segment>>
  {
    if logs == [] then []
    else
      var last := logs[|logs| - 1];
      Shown(logs[..|logs| - 1], t) + (if Admits(t, last.level) then [last.parts] else [])
  }

  /** The parts of every record, in order. */
  function AllParts(logs: seq<Entry>): seq<seq<Segment>>
  {
    seq(|logs|, i requires 0 <= i < |logs| => logs[i].parts)
  }

  /** Displaying in batches displays the same as displaying in one go. */
  lemma {:induction false} ShownConcat(a: seq<Entry>, b: seq<Entry>, t: Test)
    ensures Shown(a + b, t) == Shown(a, t) + Shown(b, t)
  {
    if b != [] {
      assert (a + b)[..|a + b| - 1] == a + b[..|b| - 1];
      ShownConcat(a, b[..|b| - 1], t);
    } else {
      assert a + b == a;
    }
  }

  /** A record is displayed exactly when some record passing the test carries it. */
  lemma {:induction false} ShownMembers(logs: seq<Entry>, t: Test, p: seq<Segment>)
    ensures p in Shown(logs, t)
            <==> exists i :: 0 <= i < |logs| && Admits(t, logs[i].level) && logs[i].parts == p
  {
    if logs != [] {
      var init := logs[..|logs| - 1];
      ShownMembers(init, t, p);
      if p in Shown(init, t) {
        var i :| 0 <= i < |init| && Admits(t, init[i].level) && init[i].parts == p;
        assert logs[i] == init[i];
      }
      if exists i :: 0 <= i < |logs| && Admits(t, logs[i].level) && logs[i].parts == p {
        var i :| 0 <= i < |logs| && Admits(t, logs[i].level) && logs[i].parts == p;
        if i < |init| { assert init[i] == logs[i]; }
      }
    }
  }

  /** With no filter every record is displayed, in order. */
  lemma {:induction false} ShownUnfiltered(logs: seq<Entry>)
    ensures Shown(logs, NoneOrEqual(None)) == AllParts(logs)
    ensures Shown(logs, FalsyOrEqual(None)) == AllParts(logs)
  {
    if logs != [] {
      ShownUnfiltered(logs[..|logs| - 1]);
    }
  }

  /** Number of records whose level is the string `name`. */
  function Count(logs: seq<Entry>, name: string): (r: nat)
    ensures r <= |logs|
  {
    if logs == [] then 0
    else Count(logs[..|logs| - 1], name) + (if logs[|logs| - 1].level == JString(name) then 1 else 0)
  }

  /** A level filter displays as many records as carry that level. */
  lemma {:induction false} ShownCountsLevel(logs: seq<Entry>, name: string)
    ensures |Shown(logs, NoneOrEqual(Some(name)))| == Count(logs, name)
  {
    if logs != [] {
      ShownCountsLevel(logs[..|logs| - 1], name);
    }
  }

  /** Number of records whose level is one of the known names. */
  function KnownCount(logs: seq<Entry>): nat
  {
    if logs == [] then 0
    else KnownCount(logs[..|logs| - 1])
         + (if logs[|logs| - 1].level.JString? && logs[|logs| - 1].level.s in KnownLevels then 1 else 0)
  }

  /** The five counters add up to the number of records with a known level,
      which is at most the number of records. */
  lemma {:induction false} CountsSum(logs: seq<Entry>)
    ensures Count(logs, "INFO") + Count(logs, "WARNING") + Count(logs, "ERROR")
            + Count(logs, "CRITICAL") + Count(logs, "DEBUG") == KnownCount(logs)
    ensures KnownCount(logs) <= |logs|
  {
    if logs != [] {
      CountsSum(logs[..|logs| - 1]);
    }
  }

  /** The sum of the five counters. */
  function CountsTotal(counts: map<string, int>): int
    requires KnownLevels <= counts.Keys
  {
    counts["INFO"] + counts["WARNING"] + counts["ERROR"] + counts["CRITICAL"] + counts["DEBUG"]
  }

  /** `level_counts` as `reset_statistics` builds it. */
  function Zeros(): map<string, int>
  {
    map n | n in KnownLevels :: 0
  }

  /** One record counted: the counter of its level goes up by one when that
      level is one of the counter keys; other levels are ignored. */
  function Bump(counts: map<string, int>, level: Json): (r: map<string, int>)
    ensures r.Keys == counts.Keys
  {
    if level.JString? && level.s in counts then counts[level.s := counts[level.s] + 1] else counts
  }

  /** The counters after visiting `logs` in order. */
  function Tally(counts: map<string, int>, logs: seq<Entry>): map<string, int>
  {
    if logs == [] then counts else Bump(Tally(counts, logs[..|logs| - 1]), logs[|logs| - 1].level)
  }

  /** Visiting adds, per existing key, the number of records with that level;
      no key is added. */
  lemma {:induction false} TallyCounts(counts: map<string, int>, logs: seq<Entry>)
    ensures Tally(counts, logs).Keys == counts.Keys
    ensures forall n :: n in counts ==> Tally(counts, logs)[n] == counts[n] + Count(logs, n)
  {
    if logs != [] {
      TallyCounts(counts, logs[..|logs| - 1]);
    }
  }

  /** Visiting one more record: it is displayed if it passes the test, and
      its level is counted. */
  lemma PassSnoc(logs: seq<Entry>, start: int, idx: int, t: Test, counts: map<string, int>)
    requires 0 <= start <= idx < |logs|
    ensures Shown(logs[start..idx + 1], t)
            == Shown(logs[start..idx], t) + (if Admits(t, logs[idx].level) then [logs[idx].parts] else [])
    ensures Tally(counts, logs[start..idx + 1]) == Bump(Tally(counts, logs[start..idx]), logs[idx].level)
  {
    var batch := logs[start..idx + 1];
    assert batch[..|batch| - 1] == logs[start..idx] && batch[|batch| - 1] == logs[idx];
  }

  /** Counting in batches counts the same as counting in one go. */
  lemma {:induction false} TallyConcat(counts: map<string, int>, a: seq<Entry>, b: seq<Entry>)
    ensures Tally(counts, a + b) == Tally(Tally(counts, a), b)
  {
    if b != [] {
      assert (a + b)[..|a + b| - 1] == a + b[..|b| - 1];
      TallyConcat(counts, a, b[..|b| - 1]);
    } else {
      assert a + b == a;
    }
  }

  /** Extending a pass by one step: the display and the counters after the
      step are those of one pass over the longer prefix. */
  lemma BatchAdvance(logs: seq<Entry>, c0: int, c: int, c1: int, t: Test,
                     display0: seq<seq<Segment>>, counts0: map<string, int>)
    requires 0 <= c0 <= c <= c1 <= |logs|
    ensures display0 + Shown(logs[c0..c], t) + Shown(logs[c..c1], t) == display0 + Shown(logs[c0..c1], t)
    ensures Tally(Tally(counts0, logs[c0..c]), logs[c..c1]) == Tally(counts0, logs[c0..c1])
  {
    assert logs[c0..c] + logs[c..c1] == logs[c0..c1];
    ShownConcat(logs[c0..c], logs[c..c1], t);
    TallyConcat(counts0, logs[c0..c], logs[c..c1]);
  }

  /** A first step over `logs[..c]` followed by a run over the rest is one
      pass over `logs`. */
  lemma WholePass(logs: seq<Entry>, c: int, t: Test, counts: map<string, int>)
    requires 0 <= c <= |logs|
    ensures Shown(logs[..c], t) + Shown(logs[c..], t) == Shown(logs, t)
    ensures Tally(Tally(counts, logs[..c]), logs[c..]) == Tally(counts, logs)
  {
    assert logs[..c] + logs[c..] == logs;
    ShownConcat(logs[..c], logs[c..], t);
    TallyConcat(counts, logs[..c], logs[c..]);
  }

  /** The indices `lo, lo+1, ..., hi-1`. */
  function Range(lo: int, hi: int): (r: seq<int>)
    ensures |r| == if lo <= hi then hi - lo else 0
    decreases hi - lo
  {
    if hi <= lo then [] else Range(lo, hi - 1) + [hi - 1]
  }

  /** Each index of `[lo, hi)` appears exactly once, in increasing order. */
  lemma {:induction false} RangeAt(lo: int, hi: int, k: int)
    requires 0 <= k < hi - lo
    ensures Range(lo, hi)[k] == lo + k
    decreases hi - lo
  {
    if k < hi - 1 - lo {
      RangeAt(lo, hi - 1, k);
    }
  }

  lemma {:induction false} RangeConcat(lo: int, mid: int, hi: int)
    requires lo <= mid <= hi
    ensures Range(lo, mid) + Range(mid, hi) == Range(lo, hi)
    decreases hi - mid
  {
    if mid < hi {
      RangeConcat(lo, mid, hi - 1);
    }
  }

  /** Where a step started at `cursor` stops. */
  function BatchEnd(cursor: int, total: int): (e: int)
    requires cursor < total
    ensures cursor < e <= total && e - cursor <= BatchSize
    ensures e == total || e == cursor + BatchSize
  {
    if cursor + BatchSize < total then cursor + BatchSize else total
  }

  /** Productive steps a pass makes from `cursor` before the closing step. */
  function Steps(cursor: int, total: int): (r: nat)
    ensures r == 0 <==> cursor >= total
    decreases total - cursor
  {
    if cursor >= total then 0 else 1 + Steps(BatchEnd(cursor, total), total)
  }

  /** A pass over `remaining` records makes the ceiling of `remaining / 10`
      productive steps. */
  lemma {:induction false} StepsCeiling(cursor: int, total: int)
    requires cursor <= total
    ensures Steps(cursor, total) == (total - cursor + BatchSize - 1) / BatchSize
    decreases total - cursor
  {
    if cursor < total {
      StepsCeiling(BatchEnd(cursor, total), total);
    }
  }

  /** `int(end / total * 100)`, in exact arithmetic. */
  function Progress(end: nat, total: nat): int
    requires total > 0
  {
    end * 100 / total
  }

  /** Progress lies in 0..100 and reaches 100 exactly at the end. */
  lemma ProgressBounds(end: nat, total: nat)
    requires 0 < total && end <= total
    ensures 0 <= Progress(end, total) <= 100
    ensures Progress(end, total) == 100 <==> end == total
  {
    assert end * 100 <= total * 100;
    if end < total {
      assert end * 100 < total * 100;
    }
  }

  /** Progress never decreases as the cursor moves forward. */
  lemma ProgressMonotone(e1: nat, e2: nat, total: nat)
    requires 0 < total && e1 <= e2
    ensures Progress(e1, total) <= Progress(e2, total)
  {
    DivMonotone(e1 * 100, e2 * 100, total);
  }

  /** The progress values a chain started at `start` has reported, with its
      cursor at `cursor`: each in 0..100, never decreasing, none below the
      progress already reached at `start`, the last one for the current
      cursor. */
  predicate Reported(reports: seq<int>, start: nat, cursor: nat, total: nat)
  {
    && (forall k :: 0 <= k < |reports| ==> 0 <= reports[k] <= 100)
    && (forall j, k :: 0 <= j <= k < |reports| ==> reports[j] <= reports[k])
    && (reports != [] ==> 0 < total && reports[|reports| - 1] == Progress(cursor, total))
    && (reports != [] && 0 < start ==> Progress(start, total) <= reports[0])
  }

  /** A step that moves the cursor forward keeps the reports in order. */
  lemma ReportedStep(reports: seq<int>, start: nat, cursor: nat, next: nat, total: nat)
    requires Reported(reports, start, cursor, total) && start <= cursor <= next <= total && 0 < total
    ensures Reported(reports + [Progress(next, total)], start, next, total)
  {
    ProgressBounds(next, total);
    if reports != [] {
      ProgressMonotone(cursor, next, total);
    } else if 0 < start {
      ProgressMonotone(start, next, total);
    }
  }

  /** A finished pass ends on 100. */
  lemma ReportedDone(reports: seq<int>, start: nat, total: nat)
    requires Reported(reports, start, total, total) && reports != []
    ensures reports[|reports| - 1] == 100
  {
    ProgressBounds(total, total);
  }

  /** The load pass's first report, made before the timer chain starts,
      followed by the chain's reports: still in 0..100 and non-decreasing. */
  lemma ReportedPrepend(first: int, rest: seq<int>)
    requires 0 <= first <= 100
    requires forall k :: 0 <= k < |rest| ==> 0 <= rest[k] <= 100
    requires forall j, k :: 0 <= j <= k < |rest| ==> rest[j] <= rest[k]
    requires rest != [] ==> first <= rest[0]
    ensures forall k :: 0 <= k < |[first] + rest| ==> 0 <= ([first] + rest)[k] <= 100
    ensures forall j, k :: 0 <= j <= k < |[first] + rest| ==> ([first] + rest)[j] <= ([first] + rest)[k]
  {
  }

  lemma DivMonotone(a: nat, b: nat, d: nat)
    requires 0 < d && a <= b
    ensures a / d <= b / d
  {
    var qa, qb := a / d, b / d;
    assert a == d * qa + a % d && b == d * qb + b % d;
    if qa > qb {
      assert d * qa >= d * (qb + 1) by {
        MulMonotone(d, qb + 1, qa);
      }
      assert false;
    }
  }

  lemma MulMonotone(d: nat, x: nat, y: nat)
    requires x <= y
    ensures d * x <= d * y
  {
  }
}
