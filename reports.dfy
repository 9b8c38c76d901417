/**
 * The report screen: it loads the saved log, then derives the session
 * count, the total focus time, the total distraction count and a
 * per-category breakdown of focus time (category labels in first-seen
 * order with their rounded minutes). An empty breakdown selects the
 * "no data yet" message.
 */
module Reports {
  import opened Optional
  import opened SessionLog

  /** `setSessions` after `loadSessions`: an absent value gives the empty
      list, a parse failure is caught and leaves the current list. */
  method LoadSessions(current: seq<Record>, stored: StoredValue) returns (sessions: seq<Record>)
    ensures stored.Missing? ==> sessions == []
    ensures stored.Malformed? ==> sessions == current
    ensures stored.Stored? ==> sessions == stored.records
  {
    var parsed := ReadOrEmpty(stored);
    if parsed.None? {
      sessions := current;
    } else {
      sessions := parsed.value;
    }
  }

  /** `Math.round(seconds / 60)` for a non-negative number of seconds: the
      nearest whole minute, a half minute rounding up. */
  function RoundMinutes(seconds: nat): (m: nat)
    ensures m * 60 <= seconds + 30 < m * 60 + 60
  {
    (seconds + 30) / 60
  }

  /** `sessions.reduce((sum, s) => sum + f(s), 0)` */
  function SumBy(rs: seq<Record>, f: Record -> nat): (t: nat)
    ensures forall k :: 0 <= k < |rs| ==> f(rs[k]) <= t
  {
    if rs == [] then 0
    else
      var p := rs[..|rs| - 1];
      assert forall k :: 0 <= k < |p| ==> rs[k] == p[k];
      SumBy(p, f) + f(rs[|rs| - 1])
  }

  /** totalSeconds: a missing duration counts as 0. */
  function TotalSeconds(rs: seq<Record>): (t: nat)
    ensures forall k :: 0 <= k < |rs| ==> DurationOrZero(rs[k]) <= t
  {
    SumBy(rs, DurationOrZero)
  }

  /** totalDistractions: a missing count counts as 0. */
  function TotalDistractions(rs: seq<Record>): (t: nat)
    ensures forall k :: 0 <= k < |rs| ==> DistractionsOrZero(rs[k]) <= t
  {
    SumBy(rs, DistractionsOrZero)
  }

  /** The fold is 0 when every term is 0 (the bound on SumBy gives the converse). */
  lemma {:induction false} SumByZero(rs: seq<Record>, f: Record -> nat)
    requires forall k :: 0 <= k < |rs| ==> f(rs[k]) == 0
    ensures SumBy(rs, f) == 0
  {
    if rs != [] {
      var p := rs[..|rs| - 1];
      assert forall k :: 0 <= k < |p| ==> p[k] == rs[k];
      SumByZero(p, f);
    }
  }

  /** The fold over a concatenation is the sum of the folds. */
  lemma {:induction false} SumByAppend(a: seq<Record>, b: seq<Record>, f: Record -> nat)
    ensures SumBy(a + b, f) == SumBy(a, f) + SumBy(b, f)
  {
    if b != [] {
      var b' := b[..|b| - 1];
      assert (a + b)[..|a + b| - 1] == a + b';
      assert (a + b)[|a + b| - 1] == b[|b| - 1];
      SumByAppend(a, b', f);
    } else {
      assert a + b == a;
    }
  }

  /** The records whose category (after the "Diğer" fallback) is `c`, in log order. */
  function InCategory(rs: seq<Record>, c: string): (r: seq<Record>)
    ensures |r| <= |rs|
    ensures forall k :: 0 <= k < |r| ==> CategoryKey(r[k]) == c
  {
    if rs == [] then []
    else InCategory(rs[..|rs| - 1], c) + (if CategoryKey(rs[|rs| - 1]) == c then [rs[|rs| - 1]] else [])
  }

  /** Some record of `rs` falls in category `c`. */
  predicate Occurs(rs: seq<Record>, c: string) {
    exists k :: 0 <= k < |rs| && CategoryKey(rs[k]) == c
  }

  predicate Distinct(s: seq<string>) {
    forall i, j :: 0 <= i < j < |s| ==> s[i] != s[j]
  }

  /** The dictionary `categoryMap` after the `forEach` has visited `rs`. */
  function CategoryTotals(rs: seq<Record>): (totals: map<string, nat>)
    ensures rs != [] ==> CategoryKey(rs[|rs| - 1]) in totals
  {
    if rs == [] then map[]
    else
      var p := rs[..|rs| - 1];
      assert forall k :: 0 <= k < |p| ==> rs[k] == p[k];
      var m := CategoryTotals(p);
      var k := CategoryKey(rs[|rs| - 1]);
      m[k := (if k in m then m[k] else 0) + DurationOrZero(rs[|rs| - 1])]
  }

  /** The insertion order of `categoryMap`'s keys after the `forEach` has
      visited `rs`: a key joins the end when it is first assigned. */
  function CategoryOrder(rs: seq<Record>): (labels: seq<string>)
    ensures |labels| <= |rs|
    ensures labels == [] <==> rs == []
  {
    if rs == [] then []
    else
      var p := rs[..|rs| - 1];
      assert forall k :: 0 <= k < |p| ==> rs[k] == p[k];
      var o := CategoryOrder(p);
      var k := CategoryKey(rs[|rs| - 1]);
      if k in o then o else o + [k]
  }

  /** The index of the first record of category `c`. */
  function FirstIndex(rs: seq<Record>, c: string): (i: nat)
    requires Occurs(rs, c)
    ensures i < |rs| && CategoryKey(rs[i]) == c
    ensures forall j :: 0 <= j < i ==> CategoryKey(rs[j]) != c
  {
    var p := rs[..|rs| - 1];
    if Occurs(p, c) then
      var i := FirstIndex(p, c);
      assert rs[i] == p[i];
      assert forall j :: 0 <= j < i ==> rs[j] == p[j];
      i
    else
      assert forall j :: 0 <= j < |p| ==> rs[j] == p[j];
      |rs| - 1
  }

  /** The category labels are distinct and are exactly the categories that
      occur in the log; the dictionary has exactly those keys. */
  lemma {:induction false} CategoryKeysExact(rs: seq<Record>)
    ensures Distinct(CategoryOrder(rs))
    ensures forall c :: c in CategoryOrder(rs) <==> Occurs(rs, c)
    ensures forall c :: c in CategoryTotals(rs) <==> c in CategoryOrder(rs)
  {
    if rs != [] {
      var p := rs[..|rs| - 1];
      CategoryKeysExact(p);
      forall c ensures Occurs(rs, c) <==> Occurs(p, c) || CategoryKey(rs[|rs| - 1]) == c {
        if Occurs(p, c) {
          var k :| 0 <= k < |p| && CategoryKey(p[k]) == c;
          assert rs[k] == p[k];
        }
        if Occurs(rs, c) {
          var k :| 0 <= k < |rs| && CategoryKey(rs[k]) == c;
          if k < |p| { assert rs[k] == p[k]; }
        }
      }
    }
  }

  /** `categoryMap[c]` is the total duration of the records of category `c`. */
  lemma {:induction false} CategoryTotalIsFilteredSum(rs: seq<Record>, c: string)
    ensures c in CategoryTotals(rs) ==> CategoryTotals(rs)[c] == TotalSeconds(InCategory(rs, c))
    ensures c !in CategoryTotals(rs) ==> InCategory(rs, c) == []
  {
    if rs != [] {
      var p, x := rs[..|rs| - 1], rs[|rs| - 1];
      CategoryTotalIsFilteredSum(p, c);
      var tail := if CategoryKey(x) == c then [x] else [];
      SumByAppend(InCategory(p, c), tail, DurationOrZero);
      assert SumBy(tail, DurationOrZero) == if CategoryKey(x) == c then DurationOrZero(x) else 0 by {
        if CategoryKey(x) == c {
          assert tail[..0] == [];
        }
      }
    }
  }

  /** The sum of `m[l]` over the labels `ls`. */
  function SumOver(ls: seq<string>, m: map<string, nat>): nat
    requires forall l :: l in ls ==> l in m
  {
    if ls == [] then 0 else SumOver(ls[..|ls| - 1], m) + m[ls[|ls| - 1]]
  }

  lemma {:induction false} SumOverOther(ls: seq<string>, m: map<string, nat>, k: string, v: nat)
    requires forall l :: l in ls ==> l in m
    requires k !in ls
    ensures SumOver(ls, m[k := v]) == SumOver(ls, m)
  {
    if ls != [] {
      SumOverOther(ls[..|ls| - 1], m, k, v);
    }
  }

  lemma {:induction false} SumOverBump(ls: seq<string>, m: map<string, nat>, k: string, d: nat)
    requires forall l :: l in ls ==> l in m
    requires Distinct(ls) && k in ls
    ensures SumOver(ls, m[k := m[k] + d]) == SumOver(ls, m) + d
  {
    var q := ls[..|ls| - 1];
    assert forall l :: l in q ==> l in ls;
    if ls[|ls| - 1] == k {
      assert forall j :: 0 <= j < |q| ==> q[j] == ls[j];
      SumOverOther(q, m, k, m[k] + d);
    } else {
      assert k in q by {
        var j :| 0 <= j < |ls| && ls[j] == k;
        assert q[j] == k;
      }
      SumOverBump(q, m, k, d);
    }
  }

  /** The per-category totals add up to the overall total. */
  lemma {:induction false} CategoryTotalsSumToTotal(rs: seq<Record>)
    ensures forall l :: l in CategoryOrder(rs) ==> l in CategoryTotals(rs)
    ensures SumOver(CategoryOrder(rs), CategoryTotals(rs)) == TotalSeconds(rs)
  {
    if rs != [] {
      var p, x := rs[..|rs| - 1], rs[|rs| - 1];
      assert rs == p + [x];
      CategoryTotalsSumToTotal(p);
      CategoryKeysExact(p);
      CategoryTotalsStep(p, x);
      assert TotalSeconds(rs) == TotalSeconds(p) + DurationOrZero(x);
    }
  }

  /** One step of the `forEach`: how visiting record `x` changes the sum
      of the per-category totals. */
  lemma CategoryTotalsStep(p: seq<Record>, x: Record)
    requires Distinct(CategoryOrder(p))
    requires forall c :: c in CategoryTotals(p) <==> c in CategoryOrder(p)
    ensures forall l :: l in CategoryOrder(p + [x]) ==> l in CategoryTotals(p + [x])
    ensures SumOver(CategoryOrder(p + [x]), CategoryTotals(p + [x]))
      == SumOver(CategoryOrder(p), CategoryTotals(p)) + DurationOrZero(x)
  {
    var rs := p + [x];
    assert rs[..|rs| - 1] == p;
    var m, o, k, d := CategoryTotals(p), CategoryOrder(p), CategoryKey(x), DurationOrZero(x);
    if k in o {
      assert CategoryOrder(rs) == o;
      assert CategoryTotals(rs) == m[k := m[k] + d];
      SumOverBump(o, m, k, d);
    } else {
      assert CategoryOrder(rs) == o + [k];
      assert CategoryTotals(rs) == m[k := d];
      SumOverOther(o, m, k, d);
      assert (o + [k])[..|o|] == o;
    }
  }

  /** `Object.keys(categoryMap)` lists each category where it first occurs
      in the log: earlier labels first appear earlier. */
  lemma {:induction false} CategoryOrderIsFirstOccurrence(rs: seq<Record>)
    ensures forall c :: c in CategoryOrder(rs) ==> Occurs(rs, c)
    ensures forall i, j :: 0 <= i < j < |CategoryOrder(rs)| ==>
      FirstIndex(rs, CategoryOrder(rs)[i]) < FirstIndex(rs, CategoryOrder(rs)[j])
  {
    CategoryKeysExact(rs);
    if rs != [] {
      var p, k := rs[..|rs| - 1], CategoryKey(rs[|rs| - 1]);
      var o := CategoryOrder(p);
      CategoryOrderIsFirstOccurrence(p);
      CategoryKeysExact(p);
      assert forall c :: c in o ==> FirstIndex(rs, c) == FirstIndex(p, c);
      if k in o {
        assert CategoryOrder(rs) == o;
      } else {
        assert CategoryOrder(rs) == o + [k];
        assert FirstIndex(rs, k) == |p|;
      }
    }
  }

  /** `Object.values(categoryMap).map((sec) => Math.round(sec / 60))`,
      listed in key order. */
  function CategoryDurations(labels: seq<string>, m: map<string, nat>): (ds: seq<nat>)
    requires forall l :: l in labels ==> l in m
    ensures |ds| == |labels|
    ensures forall i :: 0 <= i < |labels| ==> ds[i] == RoundMinutes(m[labels[i]])
  {
    if labels == [] then []
    else CategoryDurations(labels[..|labels| - 1], m) + [RoundMinutes(m[labels[|labels| - 1]])]
  }

  /** The `forEach` over the sessions that fills `categoryMap` (with the
      order in which its keys were first assigned, which is what
      `Object.keys` returns). */
  method BuildCategoryMap(sessions: seq<Record>) returns (categoryMap: map<string, nat>, labels: seq<string>)
    ensures categoryMap == CategoryTotals(sessions) && labels == CategoryOrder(sessions)
    ensures forall c :: c in categoryMap <==> Occurs(sessions, c)
    ensures forall c :: c in categoryMap ==> categoryMap[c] == TotalSeconds(InCategory(sessions, c))
    ensures Distinct(labels) && forall c :: c in labels <==> c in categoryMap
  {
    categoryMap, labels := map[], [];
    var i := 0;
    while i < |sessions|
      invariant 0 <= i <= |sessions|
      invariant categoryMap == CategoryTotals(sessions[..i])
      invariant labels == CategoryOrder(sessions[..i])
    {
      assert sessions[..i + 1][..i] == sessions[..i];
      var s := sessions[i];
      var cat := CategoryKey(s);
      if cat !in labels {
        labels := labels + [cat];
      }
      categoryMap := categoryMap[cat := (if cat in categoryMap then categoryMap[cat] else 0) + DurationOrZero(s)];
      i := i + 1;
    }
    assert sessions[..i] == sessions;
    CategoryKeysExact(sessions);
    forall c | c in categoryMap
      ensures categoryMap[c] == TotalSeconds(InCategory(sessions, c))
    {
      CategoryTotalIsFilteredSum(sessions, c);
    }
  }

  /** What the report screen shows. */
  datatype Report = Report(
    totalSessions: nat,
    totalSeconds: nat,
    totalMinutes: nat,
    totalDistractions: nat,
    categoryLabels: seq<string>,
    categoryDurations: seq<nat>)

  /** The statistics derived from the loaded sessions. The "no data yet"
      branch (`categoryLabels.length === 0`) is taken exactly when there are
      no sessions, and then every total is 0. */
  method ComputeReport(sessions: seq<Record>) returns (report: Report)
    ensures report.totalSessions == |sessions|
    ensures report.totalSeconds == TotalSeconds(sessions)
    ensures report.totalMinutes == RoundMinutes(report.totalSeconds)
    ensures report.totalDistractions == TotalDistractions(sessions)
    ensures report.categoryLabels == CategoryOrder(sessions)
    ensures forall l :: l in report.categoryLabels ==> l in CategoryTotals(sessions)
    ensures report.categoryDurations == CategoryDurations(report.categoryLabels, CategoryTotals(sessions))
    ensures |report.categoryDurations| == |report.categoryLabels|
    ensures forall i :: 0 <= i < |report.categoryLabels| ==>
      report.categoryDurations[i] == RoundMinutes(TotalSeconds(InCategory(sessions, report.categoryLabels[i])))
    ensures SumOver(report.categoryLabels, CategoryTotals(sessions)) == report.totalSeconds
    ensures |report.categoryLabels| == 0 <==> |sessions| == 0
    ensures |sessions| == 0 ==>
      report.totalSeconds == 0 && report.totalMinutes == 0 && report.totalDistractions == 0
  {
    var categoryMap, labels := BuildCategoryMap(sessions);
    var totalSeconds := TotalSeconds(sessions);
    report := Report(|sessions|, totalSeconds, RoundMinutes(totalSeconds), TotalDistractions(sessions),
                     labels, CategoryDurations(labels, categoryMap));
    CategoryTotalsSumToTotal(sessions);
    if |sessions| > 0 {
      assert Occurs(sessions, CategoryKey(sessions[0]));
    }
  }

  /** The names every plain object inherits from `Object.prototype`. */
  const INHERITED_KEYS: set<string> := {
    "__proto__", "constructor", "hasOwnProperty", "isPrototypeOf", "propertyIsEnumerable",
    "toLocaleString", "toString", "valueOf", "__defineGetter__", "__defineSetter__",
    "__lookupGetter__", "__lookupSetter__"}

  /** A value held by the plain object `categoryMap`: a number of seconds,
      or text, which is what `+` makes of an inherited function and a number;
      `Math.round(text / 60)` is NaN. */
  datatype Slot = Seconds(n: nat) | Text

  /** `categoryMap` as the `forEach` fills a plain `{}`. An inherited name
      reads as a function, so `(categoryMap[cat] || 0) + d` makes text, and
      an assignment to `__proto__` with a non-object sets nothing. */
  function ObjectMapAsWritten(rs: seq<Record>): (m: map<string, Slot>)
    ensures "__proto__" !in m
  {
    if rs == [] then map[]
    else
      var m := ObjectMapAsWritten(rs[..|rs| - 1]);
      var k, d := CategoryKey(rs[|rs| - 1]), DurationOrZero(rs[|rs| - 1]);
      if k == "__proto__" then m
      else if k in INHERITED_KEYS then m[k := Text]
      else m[k := Seconds((if k in m && m[k].Seconds? then m[k].n else 0) + d)]
  }

  /** Away from the inherited names the plain object agrees with
      CategoryTotals; an inherited name other than `__proto__` holds text. */
  lemma {:induction false} ObjectMapAgrees(rs: seq<Record>, c: string)
    ensures c in INHERITED_KEYS && c in ObjectMapAsWritten(rs) ==> ObjectMapAsWritten(rs)[c] == Text
    ensures c !in INHERITED_KEYS ==> (c in ObjectMapAsWritten(rs) <==> c in CategoryTotals(rs))
    ensures c !in INHERITED_KEYS && c in ObjectMapAsWritten(rs) ==>
      ObjectMapAsWritten(rs)[c] == Seconds(CategoryTotals(rs)[c])
  {
    if rs != [] {
      ObjectMapAgrees(rs[..|rs| - 1], c);
    }
  }

  /** `Object.keys(categoryMap)` as written: the own keys, in insertion
      order; `__proto__` never becomes one. */
  function LabelsAsWritten(rs: seq<Record>): (ls: seq<string>)
    ensures "__proto__" !in ls
  {
    if rs == [] then []
    else
      var o := LabelsAsWritten(rs[..|rs| - 1]);
      var k := CategoryKey(rs[|rs| - 1]);
      if k == "__proto__" || k in o then o else o + [k]
  }

  /** A log whose only session is in a category named "__proto__" gets no
      label, so the screen shows its "no sessions yet" message beside a
      session count of 1; the model gives that category its label. */
  lemma ProtoCategoryShowsNoData()
    ensures var rs := [Record(1, Some("__proto__"), Some(600), Some(0), None, None, 1)];
      && |rs| == 1 && TotalSeconds(rs) == 600
      && LabelsAsWritten(rs) == [] && ObjectMapAsWritten(rs) == map[]
      && CategoryOrder(rs) == ["__proto__"]
  {
    var rs := [Record(1, Some("__proto__"), Some(600), Some(0), None, None, 1)];
    assert rs[..0] == [];
  }

  /** Ten minutes in a category named "toString" come out as NaN minutes as
      written, and as 10 in the model. */
  lemma InheritedCategoryShowsNaN()
    ensures var rs := [Record(1, Some("toString"), Some(600), Some(0), None, None, 1)];
      && LabelsAsWritten(rs) == ["toString"] && ObjectMapAsWritten(rs)["toString"] == Text
      && CategoryOrder(rs) == ["toString"]
      && CategoryDurations(CategoryOrder(rs), CategoryTotals(rs)) == [10]
  {
    var rs := [Record(1, Some("toString"), Some(600), Some(0), None, None, 1)];
    assert rs[..0] == [];
  }
}
