/**
 * The history screen: it loads the saved log, sorts it in place newest
 * first, and shows one card per session with display defaults for
 * missing fields.
 */
module History {
  import opened Optional
  import opened SessionLog
  import TimeFormat

  /** Ordered by `date`, newest first (non-increasing). */
  predicate NewestFirst(s: seq<Record>) {
    forall i, j :: 0 <= i < j < |s| ==> s[i].date >= s[j].date
  }

  /** The records of `s` with date `d`, in order. Two lists with the same
      such subsequence for every `d` agree on the relative order of
      records that tie on date. */
  function SameDate(s: seq<Record>, d: int): seq<Record> {
    if s == [] then []
    else SameDate(s[..|s| - 1], d) + (if s[|s| - 1].date == d then [s[|s| - 1]] else [])
  }

  /** Places `x` behind every record of `s`, taken from the end, that is at
      least as new as `x`: one step of a stable insertion sort. */
  function Insert(s: seq<Record>, x: Record): (r: seq<Record>)
    ensures |r| == |s| + 1 && x in r
  {
    if s == [] || s[|s| - 1].date >= x.date then s + [x]
    else Insert(s[..|s| - 1], x) + [s[|s| - 1]]
  }

  /** The list `parsed.sort((a, b) => new Date(b.date) - new Date(a.date))`
      produces: a stable sort on `date`, descending. */
  function SortByDateDesc(s: seq<Record>): (r: seq<Record>)
    ensures |r| == |s|
  {
    if s == [] then [] else Insert(SortByDateDesc(s[..|s| - 1]), s[|s| - 1])
  }

  lemma {:induction false} InsertPermutes(s: seq<Record>, x: Record)
    ensures multiset(Insert(s, x)) == multiset(s) + multiset{x}
  {
    if !(s == [] || s[|s| - 1].date >= x.date) {
      var p := s[..|s| - 1];
      assert s == p + [s[|s| - 1]];
      InsertPermutes(p, x);
    }
  }

  lemma {:induction false} InsertKeepsNewestFirst(s: seq<Record>, x: Record)
    requires NewestFirst(s)
    ensures NewestFirst(Insert(s, x))
  {
    if !(s == [] || s[|s| - 1].date >= x.date) {
      var p, l := s[..|s| - 1], s[|s| - 1];
      InsertKeepsNewestFirst(p, x);
      InsertPermutes(p, x);
      var q := Insert(p, x);
      forall k | 0 <= k < |q| ensures q[k].date >= l.date {
        assert q[k] in multiset(q);
        if q[k] != x {
          assert q[k] in multiset(p);
          var j :| 0 <= j < |p| && p[j] == q[k];
          assert s[j] == p[j];
        }
      }
    }
  }

  /** Insert keeps records of equal date in their original order, `x`
      coming after those already placed. */
  lemma {:induction false} InsertStable(s: seq<Record>, x: Record, d: int)
    ensures SameDate(Insert(s, x), d) == SameDate(s, d) + (if x.date == d then [x] else [])
  {
    if s == [] || s[|s| - 1].date >= x.date {
      assert (s + [x])[..|s|] == s;
    } else {
      var p, l := s[..|s| - 1], s[|s| - 1];
      InsertStable(p, x, d);
      var q := Insert(p, x);
      assert (q + [l])[..|q|] == q;
    }
  }

  /** The sorted list is a permutation of the loaded one. */
  lemma {:induction false} SortPermutes(s: seq<Record>)
    ensures multiset(SortByDateDesc(s)) == multiset(s)
  {
    if s != [] {
      var p := s[..|s| - 1];
      assert s == p + [s[|s| - 1]];
      SortPermutes(p);
      InsertPermutes(SortByDateDesc(p), s[|s| - 1]);
    }
  }

  /** The sorted list is newest first. */
  lemma {:induction false} SortIsNewestFirst(s: seq<Record>)
    ensures NewestFirst(SortByDateDesc(s))
  {
    if s != [] {
      SortIsNewestFirst(s[..|s| - 1]);
      InsertKeepsNewestFirst(SortByDateDesc(s[..|s| - 1]), s[|s| - 1]);
    }
  }

  /** The sort is stable: records with the same date keep their order. */
  lemma {:induction false} SortIsStable(s: seq<Record>, d: int)
    ensures SameDate(SortByDateDesc(s), d) == SameDate(s, d)
  {
    if s != [] {
      var p := s[..|s| - 1];
      SortIsStable(p, d);
      InsertStable(SortByDateDesc(p), s[|s| - 1], d);
    }
  }

  /** Where Insert puts `x`: behind the first `j` records, when every
      record from `j` on is older than `x` and the one before `j` is not. */
  lemma {:induction false} InsertSplit(sorted: seq<Record>, j: nat, x: Record)
    requires j <= |sorted|
    requires forall k :: j <= k < |sorted| ==> sorted[k].date < x.date
    requires j == 0 || sorted[j - 1].date >= x.date
    ensures Insert(sorted, x) == sorted[..j] + [x] + sorted[j..]
  {
    if j < |sorted| {
      var n := |sorted|;
      var p := sorted[..n - 1];
      assert forall k :: j <= k < |p| ==> p[k] == sorted[k];
      InsertSplit(p, j, x);
      assert p[..j] == sorted[..j];
      assert sorted[j..] == p[j..] + [sorted[n - 1]];
    }
  }

  /** Places `a[i]` into the sorted prefix `a[..i]`, shifting the records
      older than it one place right. */
  method InsertAt(a: array<Record>, i: nat)
    requires i < a.Length
    modifies a
    ensures a[..i + 1] == Insert(old(a[..i]), old(a[i]))
    ensures a[i + 1..] == old(a[i + 1..])
  {
    ghost var sorted := a[..i];
    var x := a[i];
    var j := i;
    while j > 0 && a[j - 1].date < x.date
      invariant 0 <= j <= i
      invariant forall k :: 0 <= k < j ==> a[k] == sorted[k]
      invariant forall k :: j < k <= i ==> a[k] == sorted[k - 1]
      invariant forall k :: i < k < a.Length ==> a[k] == old(a[k])
      invariant forall k :: j <= k < i ==> sorted[k].date < x.date
    {
      a[j] := a[j - 1];
      j := j - 1;
    }
    assert j == 0 || a[j - 1] == sorted[j - 1];
    InsertSplit(sorted, j, x);
    a[j] := x;
    assert a[..i + 1] == sorted[..j] + [x] + sorted[j..] by {
      forall k | 0 <= k <= i ensures a[k] == (sorted[..j] + [x] + sorted[j..])[k] {
        if k > j {
          assert (sorted[..j] + [x] + sorted[j..])[k] == sorted[k - 1];
        }
      }
    }
  }

  /** `parsed.sort(...)` on the parsed array: an insertion sort, each
      record placed behind every earlier record at least as new. */
  method SortInPlace(a: array<Record>)
    modifies a
    ensures a[..] == SortByDateDesc(old(a[..]))
  {
    ghost var s := a[..];
    var i := 0;
    while i < a.Length
      invariant 0 <= i <= a.Length
      invariant a[..i] == SortByDateDesc(s[..i])
      invariant a[i..] == s[i..]
    {
      assert a[i] == s[i];
      InsertAt(a, i);
      assert s[..i + 1][..i] == s[..i];
      i := i + 1;
    }
    assert s[..a.Length] == s;
  }

  /** `setSessions` after `loadSessions`: an absent value gives the empty
      list; a parsed list comes back sorted newest first, a permutation of
      what was stored, with ties kept in stored order; a parse failure is
      caught and leaves the current list. */
  method LoadSessions(current: seq<Record>, stored: StoredValue) returns (sessions: seq<Record>)
    ensures stored.Missing? ==> sessions == []
    ensures stored.Malformed? ==> sessions == current
    ensures stored.Stored? ==> sessions == SortByDateDesc(stored.records)
    ensures stored.Stored? ==> NewestFirst(sessions) && multiset(sessions) == multiset(stored.records)
    ensures stored.Stored? ==> forall d :: SameDate(sessions, d) == SameDate(stored.records, d)
  {
    var parsed := ReadOrEmpty(stored);
    if parsed.None? {
      sessions := current;
    } else {
      var rs := parsed.value;
      var a := new Record[|rs|](k requires 0 <= k < |rs| => rs[k]);
      assert a[..] == rs;
      SortInPlace(a);
      sessions := a[..];
      SortIsNewestFirst(rs);
      SortPermutes(rs);
      forall d ensures SameDate(sessions, d) == SameDate(rs, d) {
        SortIsStable(rs, d);
      }
    }
  }

  /** One history card as displayed. */
  datatype Card = Card(
    category: string,
    durationText: string,
    distractions: nat,
    goal: Option<string>,
    reason: Option<string>)

  /** The card for record `r`: `formatTime(s.duration || 0)`,
      `s.distractions || 0`, and the goal and reason lines only when the
      field holds a non-empty string. A missing category renders as
      nothing. */
  function CardOf(r: Record): (c: Card)
    ensures TimeFormat.ParseTime(c.durationText) == Some((DurationOrZero(r) / 60, DurationOrZero(r) % 60))
    ensures r.duration.None? ==> c.durationText == "00:00"
    ensures r.distractions.None? ==> c.distractions == 0
    ensures r.distractions.Some? ==> c.distractions == r.distractions.value
    ensures c.goal.Some? <==> r.goal.Some? && r.goal.value != ""
    ensures c.goal.Some? ==> c.goal == r.goal
    ensures c.reason.Some? <==> r.reason.Some? && r.reason.value != ""
    ensures c.reason.Some? ==> c.reason == r.reason
  {
    var seconds := DurationOrZero(r);
    TimeFormat.ParseFormatTime(seconds);
    TimeFormat.FormatZero();
    Card(
      r.category.GetOr(""),
      TimeFormat.FormatTime(seconds),
      DistractionsOrZero(r),
      if r.goal.Some? && r.goal.value != "" then r.goal else None,
      if r.reason.Some? && r.reason.value != "" then r.reason else None)
  }
}
