/**
 * How a finished session reaches the other two screens: the record that
 * `endSession` appends under "@sessions" is what the report screen adds
 * up and what the history screen lists.
 */
module SessionFlow {
  import opened SessionLog
  import opened Timer
  import Reports
  import History

  /** The log before and after a session ends, as a screen reads it. */
  function LogBefore(s: TimerState): seq<Record>
    requires !s.store.Malformed?
  {
    ReadOrEmpty(s.store).value
  }

  function LogAfter(s: TimerState, reason: string, elapsed: int, now: int): seq<Record>
    requires !s.store.Malformed?
  {
    ReadOrEmpty(Ended(s, reason, elapsed, now).store).value
  }

  /** After a session of `elapsed` seconds ends, the report counts one more
      session, `elapsed` more seconds of focus and the session's
      distractions, and the selected category's total grows by `elapsed`. */
  lemma {:induction false} EndedSessionCounts(s: TimerState, reason: string, elapsed: int, now: int)
    requires Invariant(s) && elapsed > 0 && !s.store.Malformed?
    ensures var log, log' := LogBefore(s), LogAfter(s, reason, elapsed, now);
      && |log'| == |log| + 1
      && Reports.TotalSeconds(log') == Reports.TotalSeconds(log) + elapsed
      && Reports.TotalDistractions(log') == Reports.TotalDistractions(log) + s.distractions
      && s.selectedCategory in Reports.CategoryTotals(log')
      && Reports.CategoryTotals(log')[s.selectedCategory]
         == (if s.selectedCategory in Reports.CategoryTotals(log)
             then Reports.CategoryTotals(log)[s.selectedCategory] else 0) + elapsed
  {
    EndedLogsSession(s, reason, elapsed, now);
    var log, log' := LogBefore(s), LogAfter(s, reason, elapsed, now);
    assert log'[..|log'| - 1] == log;
  }

  /** A session that ends later than every logged one heads the history
      list, followed by the earlier list in its own sorted order. */
  lemma {:induction false} NewestSessionListedFirst(s: TimerState, reason: string, elapsed: int, now: int)
    requires Invariant(s) && elapsed > 0 && !s.store.Malformed?
    requires forall r :: r in LogBefore(s) ==> r.date < now
    ensures var log, log' := LogBefore(s), LogAfter(s, reason, elapsed, now);
      var shown := History.SortByDateDesc(log');
      && |shown| == |log| + 1
      && shown[0] == log'[|log|] && shown[0].date == now
      && shown[1..] == History.SortByDateDesc(log)
  {
    EndedLogsSession(s, reason, elapsed, now);
    var log, log' := LogBefore(s), LogAfter(s, reason, elapsed, now);
    var x := log'[|log|];
    assert log'[..|log'| - 1] == log;
    var sorted := History.SortByDateDesc(log);
    History.SortPermutes(log);
    forall k | 0 <= k < |sorted| ensures sorted[k].date < x.date {
      assert sorted[k] in multiset(sorted);
    }
    History.InsertSplit(sorted, 0, x);
    assert History.SortByDateDesc(log') == [x] + sorted;
  }
}
