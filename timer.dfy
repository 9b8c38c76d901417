/**
 * The focus timer of the home screen: a countdown with an adjustable
 * target, a distraction counter, a category list, an optional goal, the
 * summary of the last finished session, and the automatic pause when the
 * app leaves the foreground. Each method is one event handler of the
 * screen; the saved log under "@sessions" is held in `store`.
 */
module Timer {
  import opened Optional
  import opened JsText
  import opened SessionLog

  const DEFAULT_MINUTES: int := 25
  const MIN_MINUTES: int := 5
  const MAX_MINUTES: int := 120
  const INITIAL_CATEGORIES: seq<string> := ["Ders Çalışma", "Kodlama", "Proje", "Kitap Okuma"]
  const INITIAL_CATEGORY: string := "Ders Çalışma"
  /** End reason of a countdown that ran out. */
  const REASON_COMPLETED: string := "Süre tamamlandı"
  /** End reason of a session stopped with the start/pause button. */
  const REASON_STOPPED: string := "Kullanıcı tarafından durduruldu"

  /** The host application's state as `AppState` reports it. */
  datatype AppStatus = Active | Background | Inactive

  /** `lastSessionSummary` */
  datatype Summary = Summary(
    category: string,
    durationSeconds: nat,
    distractions: nat,
    reason: string,
    goal: Option<string>)

  /** What adding a category did: nothing (blank name), refused with the
      "already exists" alert, or added and selected. */
  datatype AddOutcome = Blank | Duplicate | Added

  /** `Math.min(120, Math.max(5, minutes))` */
  function ClampMinutes(minutes: int): (r: int)
    ensures MIN_MINUTES <= r <= MAX_MINUTES
    ensures MIN_MINUTES <= minutes <= MAX_MINUTES ==> r == minutes
    ensures minutes < MIN_MINUTES ==> r == MIN_MINUTES
    ensures minutes > MAX_MINUTES ==> r == MAX_MINUTES
  {
    if minutes < MIN_MINUTES then MIN_MINUTES
    else if minutes > MAX_MINUTES then MAX_MINUTES
    else minutes
  }

  /** `sessionGoal.trim() || null`: absent when the trimmed text is empty,
      otherwise the trimmed text. */
  function GoalOf(text: string): (g: Option<string>)
    ensures g.None? <==> Trim(text) == ""
    ensures g.Some? ==> g.value == Trim(text)
  {
    var t := Trim(text);
    if t == "" then None else Some(t)
  }

  /** No goal is recorded exactly when the goal text is blank; a recorded
      goal is non-empty and has no surrounding whitespace. */
  lemma GoalOfBlank(text: string)
    ensures GoalOf(text).None? <==> AllWhitespace(text)
    ensures GoalOf(text).Some? ==> GoalOf(text).value != "" && IsTrimmed(GoalOf(text).value)
  {
    TrimEmptyIffAllWhitespace(text);
  }

  /** The record `saveSessionToStorage` builds from a summary; `now`
      stands for both `Date.now()` (the id) and `new Date()` (the date).
      Every field is present, so the screens' `|| 0` fallbacks read back
      exactly the summary's numbers. */
  function RecordOf(summary: Summary, now: int): (r: Record)
    ensures DurationOrZero(r) == summary.durationSeconds
    ensures DistractionsOrZero(r) == summary.distractions
    ensures summary.category != "" ==> CategoryKey(r) == summary.category
    ensures r.reason == Some(summary.reason) && r.id == now && r.date == now
    ensures r.goal.Some? <==> summary.goal.Some? && summary.goal.value != ""
    ensures r.goal.Some? ==> r.goal == summary.goal
  {
    Record(
      now,
      Some(summary.category),
      Some(summary.durationSeconds),
      Some(summary.distractions),
      Some(summary.reason),
      if summary.goal.Some? && summary.goal.value != "" then summary.goal else None,
      now)
  }

  /** The whole state of the screen's timer, as a value. */
  datatype TimerState = TimerState(
    categories: seq<string>,
    selectedCategory: string,
    targetMinutes: int,
    remainingSeconds: int,
    isRunning: bool,
    distractions: nat,
    lastSessionSummary: Option<Summary>,
    newCategoryName: string,
    sessionGoal: string,
    appState: AppStatus,
    pausedByBackground: bool,
    store: StoredValue)

  /** A category as the list keeps it: non-empty and already trimmed. */
  predicate WellFormedCategory(c: string) {
    c != "" && IsTrimmed(c)
  }

  /** What every handler preserves. */
  predicate Invariant(s: TimerState) {
    && MIN_MINUTES <= s.targetMinutes <= MAX_MINUTES
    && 0 <= s.remainingSeconds <= s.targetMinutes * 60
    && DistinctIgnoringCase(s.categories)
    && (forall k :: 0 <= k < |s.categories| ==> WellFormedCategory(s.categories[k]))
    && s.selectedCategory in s.categories
    && (s.lastSessionSummary.Some? ==> s.lastSessionSummary.value.durationSeconds > 0)
  }

  /** The invariant survives any change that keeps the category list,
      selects one of its entries, keeps the countdown within its target
      and shows only a summary of positive length. */
  lemma SameCategoriesKeepInvariant(s: TimerState, t: TimerState)
    requires Invariant(s)
    requires t.categories == s.categories && t.selectedCategory in t.categories
    requires MIN_MINUTES <= t.targetMinutes <= MAX_MINUTES
    requires 0 <= t.remainingSeconds <= t.targetMinutes * 60
    requires t.lastSessionSummary.Some? ==> t.lastSessionSummary.value.durationSeconds > 0
    ensures Invariant(t)
  {
  }

  /** The summary `endSession` shows for a session of `elapsed` seconds. */
  function SummaryOf(s: TimerState, reason: string, elapsed: nat): Summary {
    Summary(s.selectedCategory, elapsed, s.distractions, reason, GoalOf(s.sessionGoal))
  }

  /** The state after `endSession(reason, elapsed)`. */
  function Ended(s: TimerState, reason: string, elapsed: int, now: int): (t: TimerState)
    ensures !t.isRunning && t.categories == s.categories && t.selectedCategory == s.selectedCategory
    ensures t.targetMinutes == s.targetMinutes && t.remainingSeconds == s.remainingSeconds
    ensures t.distractions == s.distractions && t.sessionGoal == s.sessionGoal
    ensures elapsed <= 0 ==> t.store == s.store && t.lastSessionSummary == s.lastSessionSummary
    ensures elapsed > 0 ==> t.lastSessionSummary.Some? && !t.pausedByBackground
    ensures elapsed > 0 ==> var summary := t.lastSessionSummary.value;
      && summary.category == s.selectedCategory && summary.durationSeconds == elapsed
      && summary.distractions == s.distractions && summary.reason == reason
  {
    if elapsed <= 0 then s.(isRunning := false)
    else
      var summary := SummaryOf(s, reason, elapsed);
      s.(isRunning := false, lastSessionSummary := Some(summary),
         store := Appended(s.store, RecordOf(summary, now)), pausedByBackground := false)
  }

  /** What ending a session does to the log and the settings: it stops the
      timer and leaves the categories, the target and the countdown alone;
      with no elapsed time nothing is shown or logged; otherwise a readable
      log gains exactly one record at its end, holding the selected
      category, the elapsed time, the distraction count, the reason, the
      time of the end and the goal exactly when one was typed. An
      unreadable log stays unreadable. */
  lemma {:induction false} EndedLogsSession(s: TimerState, reason: string, elapsed: int, now: int)
    requires Invariant(s)
    ensures var t := Ended(s, reason, elapsed, now);
      && !t.isRunning && t.categories == s.categories && t.selectedCategory == s.selectedCategory
      && t.targetMinutes == s.targetMinutes && t.remainingSeconds == s.remainingSeconds
      && t.distractions == s.distractions
    ensures elapsed <= 0 ==>
      var t := Ended(s, reason, elapsed, now);
      t.store == s.store && t.lastSessionSummary == s.lastSessionSummary
    ensures s.store.Malformed? ==> Ended(s, reason, elapsed, now).store.Malformed?
    ensures elapsed > 0 && !s.store.Malformed? ==>
      var log := ReadOrEmpty(s.store).value;
      var log' := ReadOrEmpty(Ended(s, reason, elapsed, now).store).value;
      && |log'| == |log| + 1 && log'[..|log|] == log
      && DurationOrZero(log'[|log|]) == elapsed
      && CategoryKey(log'[|log|]) == s.selectedCategory
      && DistractionsOrZero(log'[|log|]) == s.distractions
      && log'[|log|].reason == Some(reason) && log'[|log|].date == now
      && (log'[|log|].goal.None? <==> AllWhitespace(s.sessionGoal))
      && (log'[|log|].goal.Some? ==> log'[|log|].goal.value == Trim(s.sessionGoal))
  {
    if elapsed > 0 && !s.store.Malformed? {
      var summary := SummaryOf(s, reason, elapsed);
      GoalOfBlank(s.sessionGoal);
      assert WellFormedCategory(s.selectedCategory);
      AppendThenRead(s.store, RecordOf(summary, now));
    }
  }

  /** The countdown's last tick as the source writes it: the interval
      callback calls the `endSession` of `installed`, the render whose
      effect started the interval, so the summary takes that render's
      category, distraction count and goal, while the state updates apply
      to the current state `s`. */
  function CompletedAsWritten(s: TimerState, installed: TimerState, now: int): (t: TimerState)
    requires Invariant(s)
    ensures !t.isRunning && t.remainingSeconds == 0 && t.lastSessionSummary.Some?
    ensures t.categories == s.categories && t.selectedCategory == s.selectedCategory
    ensures t.distractions == s.distractions
    ensures var summary := t.lastSessionSummary.value;
      && summary.category == installed.selectedCategory && summary.distractions == installed.distractions
      && summary.goal == GoalOf(installed.sessionGoal) && summary.durationSeconds == s.targetMinutes * 60
  {
    var stale := SummaryOf(installed, REASON_COMPLETED, s.targetMinutes * 60);
    s.(isRunning := false, remainingSeconds := 0, lastSessionSummary := Some(stale),
       store := Appended(s.store, RecordOf(stale, now)), pausedByBackground := false)
  }

  /** A distraction counted with the button during a run that then runs
      out is missing from the record the stale callback saves, and present
      in the one the current-value `endSession` saves. */
  lemma StaleTickDropsDistraction()
    ensures var installed := TimerState(INITIAL_CATEGORIES, INITIAL_CATEGORY, DEFAULT_MINUTES,
                                        DEFAULT_MINUTES * 60, true, 0, None, "", "", Active, false, Missing);
      var s := installed.(distractions := 1, remainingSeconds := 1);
      && Invariant(s)
      && ReadOrEmpty(CompletedAsWritten(s, installed, 0).store).value[0].distractions == Some(0)
      && ReadOrEmpty(Ended(s, REASON_COMPLETED, s.targetMinutes * 60, 0).store).value[0].distractions == Some(1)
  {
    InitialCategoriesDistinct();
    InitialCategoriesTrimmed();
  }

  /** The state after `handleStartPause` at time `now`: a running timer
      ends its session with the time elapsed so far, a stopped one starts
      from wherever its countdown stands. */
  function StartPaused(s: TimerState, now: int): (t: TimerState)
    ensures t.remainingSeconds == s.remainingSeconds && t.targetMinutes == s.targetMinutes
    ensures t.isRunning == !s.isRunning && !t.pausedByBackground
  {
    if s.isRunning then
      Ended(s, REASON_STOPPED, s.targetMinutes * 60 - s.remainingSeconds, now).(pausedByBackground := false)
    else
      s.(isRunning := true, lastSessionSummary := None, pausedByBackground := false)
  }

  /** The state after one firing of the interval at time `now`. */
  function Ticked(s: TimerState, now: int): (t: TimerState)
    ensures t.targetMinutes == s.targetMinutes && t.categories == s.categories
    ensures s.isRunning && s.remainingSeconds > 1 ==> t.isRunning && t.remainingSeconds == s.remainingSeconds - 1
    ensures s.isRunning && s.remainingSeconds <= 1 ==> !t.isRunning && t.remainingSeconds == 0
  {
    if !s.isRunning then s
    else if s.remainingSeconds <= 1 then
      Ended(s, REASON_COMPLETED, s.targetMinutes * 60, now).(remainingSeconds := 0)
    else
      s.(remainingSeconds := s.remainingSeconds - 1)
  }

  /** Starting again after a countdown has run out (nothing resets the
      countdown in between) runs from 0 seconds left, so the very next
      tick logs another session as long as the whole target. */
  lemma {:induction false} RestartAfterCompletionLogsFullTarget(s: TimerState, start: int, now: int)
    requires Invariant(s) && !s.isRunning && s.remainingSeconds == 0 && !s.store.Malformed?
    ensures var t := Ticked(StartPaused(s, start), now);
      var log := ReadOrEmpty(s.store).value;
      var log' := ReadOrEmpty(t.store).value;
      && !t.isRunning && |log'| == |log| + 1 && log'[..|log|] == log
      && DurationOrZero(log'[|log|]) == s.targetMinutes * 60
      && log'[|log|].reason == Some(REASON_COMPLETED)
  {
    var u := StartPaused(s, start);
    assert Invariant(u);
    EndedLogsSession(u, REASON_COMPLETED, u.targetMinutes * 60, now);
  }

  /** Stopping, starting again and stopping again with no tick in between
      logs two sessions, each as long as all the time elapsed before the
      first stop: the countdown is not reset when a stopped session is
      started again. */
  lemma {:induction false} StopRestartStopCountsTwice(s: TimerState, n1: int, n2: int, n3: int)
    requires Invariant(s) && s.isRunning && s.remainingSeconds < s.targetMinutes * 60
    requires !s.store.Malformed?
    ensures var e := s.targetMinutes * 60 - s.remainingSeconds;
      var t := StartPaused(StartPaused(StartPaused(s, n1), n2), n3);
      var log := ReadOrEmpty(s.store).value;
      var log' := ReadOrEmpty(t.store).value;
      && !t.isRunning && t.remainingSeconds == s.remainingSeconds
      && |log'| == |log| + 2 && log'[..|log|] == log
      && DurationOrZero(log'[|log|]) == e && DurationOrZero(log'[|log| + 1]) == e
  {
    var e := s.targetMinutes * 60 - s.remainingSeconds;
    var t1 := StartPaused(s, n1);
    EndedLogsSession(s, REASON_STOPPED, e, n1);
    assert Invariant(t1);
    var t2 := StartPaused(t1, n2);
    assert Invariant(t2) && t2.store == t1.store;
    EndedLogsSession(t2, REASON_STOPPED, e, n3);
    var log := ReadOrEmpty(s.store).value;
    var log1 := ReadOrEmpty(t1.store).value;
    var log' := ReadOrEmpty(StartPaused(t2, n3).store).value;
    assert log'[..|log1|] == log1;
    assert log'[..|log|] == log1[..|log|];
  }

  /** The initial category list is free of case-insensitive duplicates. */
  lemma InitialCategoriesDistinct()
    ensures DistinctIgnoringCase(INITIAL_CATEGORIES)
  {
    var c := INITIAL_CATEGORIES;
    forall i, j | 0 <= i < j < |c| ensures !EqualsIgnoringCase(c[i], c[j]) {
      if i == 1 && j == 3 {
        // "Kodlama" and "Kitap Okuma" part at their second letter
        assert c[i][1] == 'o' && c[j][1] == 'i';
        DifferentAt(c[i], c[j], 1);
      } else {
        assert c[i][0] != c[j][0];
        DifferentAt(c[i], c[j], 0);
      }
    }
  }

  /** The initial categories are trimmed, non-empty names. */
  lemma InitialCategoriesTrimmed()
    ensures forall k :: 0 <= k < |INITIAL_CATEGORIES| ==> WellFormedCategory(INITIAL_CATEGORIES[k])
  {
  }

  class FocusTimer {
    var categories: seq<string>
    var selectedCategory: string
    var targetMinutes: int
    var remainingSeconds: int
    var isRunning: bool
    var distractions: nat
    var lastSessionSummary: Option<Summary>
    /** The text of the "new category" input. */
    var newCategoryName: string
    /** The text of the goal input. */
    var sessionGoal: string
    /** `appState.current`: the last state the listener saw. */
    var appState: AppStatus
    /** `pausedByBackgroundRef.current` */
    var pausedByBackground: bool
    /** The value stored under "@sessions". */
    var store: StoredValue

    function State(): TimerState
      reads this
    {
      TimerState(categories, selectedCategory, targetMinutes, remainingSeconds, isRunning,
                 distractions, lastSessionSummary, newCategoryName, sessionGoal, appState,
                 pausedByBackground, store)
    }

    ghost predicate Valid()
      reads this
    {
      Invariant(State())
    }

    /** The screen as first rendered: default categories, the first one
        selected, a 25-minute countdown at its start, nothing counted. */
    constructor (initialAppState: AppStatus, initialStore: StoredValue)
      ensures Valid()
      ensures State() == TimerState(INITIAL_CATEGORIES, INITIAL_CATEGORY, DEFAULT_MINUTES,
                                    DEFAULT_MINUTES * 60, false, 0, None, "", "",
                                    initialAppState, false, initialStore)
    {
      categories := INITIAL_CATEGORIES;
      selectedCategory := INITIAL_CATEGORY;
      targetMinutes := DEFAULT_MINUTES;
      remainingSeconds := DEFAULT_MINUTES * 60;
      isRunning := false;
      distractions := 0;
      lastSessionSummary := None;
      newCategoryName := "";
      sessionGoal := "";
      appState := initialAppState;
      pausedByBackground := false;
      store := initialStore;
      InitialCategoriesDistinct();
      InitialCategoriesTrimmed();
    }

    /** `onChangeText` of the new-category input. */
    method EditNewCategoryName(text: string)
      requires Valid()
      modifies this
      ensures Valid() && State() == old(State()).(newCategoryName := text)
    {
      newCategoryName := text;
    }

    /** `onChangeText` of the goal input. */
    method EditSessionGoal(text: string)
      requires Valid()
      modifies this
      ensures Valid() && State() == old(State()).(sessionGoal := text)
    {
      sessionGoal := text;
    }

    /** `adjustTargetMinutes(delta)` (the -5 and +5 buttons): ignored while
        running; otherwise the clamped target, a full countdown, no
        distractions and no summary. */
    method AdjustTargetMinutes(delta: int)
      requires Valid()
      modifies this
      ensures Valid()
      ensures old(isRunning) ==> State() == old(State())
      ensures !old(isRunning) ==>
        var m := ClampMinutes(old(targetMinutes) + delta);
        State() == old(State()).(targetMinutes := m, remainingSeconds := m * 60,
                                 distractions := 0, lastSessionSummary := None)
    {
      if isRunning {
        return;
      }
      var newMinutes := ClampMinutes(targetMinutes + delta);
      targetMinutes := newMinutes;
      remainingSeconds := newMinutes * 60;
      distractions := 0;
      lastSessionSummary := None;
    }

    /** `saveSessionToStorage(summary)`: build the record, read the list
        (absent means empty), push the record, write the list back. A
        stored value that does not parse throws before the write and the
        error is only logged. */
    method SaveSessionToStorage(summary: Summary, now: int)
      modifies this
      ensures State() == old(State()).(store := Appended(old(store), RecordOf(summary, now)))
    {
      var newSession := RecordOf(summary, now);
      var existing := ReadOrEmpty(store);
      if existing.Some? {
        var sessions := existing.value;
        sessions := sessions + [newSession];
        store := Stored(sessions);
      }
    }

    /** `endSession(reason, elapsedSeconds)`: always stops the timer; a
        session with no elapsed time leaves no summary and no record;
        otherwise the summary is shown, appended to the log, and the
        background flag is cleared. */
    method EndSession(reason: string, elapsedSeconds: int, now: int)
      requires Valid()
      modifies this
      ensures State() == Ended(old(State()), reason, elapsedSeconds, now)
      ensures Valid()
    {
      isRunning := false;
      if elapsedSeconds <= 0 {
        return;
      }
      var summary := Summary(selectedCategory, elapsedSeconds, distractions, reason, GoalOf(sessionGoal));
      lastSessionSummary := Some(summary);
      SaveSessionToStorage(summary, now);
      pausedByBackground := false;
    }

    /** One firing of the one-second interval. The interval exists only
        while the timer runs. Above one second left it counts down by one;
        otherwise it stops at 0 and ends the session as completed with the
        full target as its length.
        The source's interval callback calls the `endSession` of the render
        that installed it (the effect depends on `isRunning` and
        `targetMinutes` only), so there it records the distraction count
        and goal as of the last start or resume (CompletedAsWritten); this
        method uses their current values. */
    method Tick(now: int)
      requires Valid()
      modifies this
      ensures Valid()
      ensures !old(isRunning) ==> State() == old(State())
      ensures old(isRunning) && old(remainingSeconds) > 1 ==>
        State() == old(State()).(remainingSeconds := old(remainingSeconds) - 1)
      ensures old(isRunning) && old(remainingSeconds) <= 1 ==>
        State() == Ended(old(State()), REASON_COMPLETED, old(targetMinutes) * 60, now).(remainingSeconds := 0)
      ensures State() == Ticked(old(State()), now)
    {
      if !isRunning {
        return;
      }
      if remainingSeconds <= 1 {
        var elapsed := targetMinutes * 60;
        EndSession(REASON_COMPLETED, elapsed, now);
        remainingSeconds := 0;
      } else {
        remainingSeconds := remainingSeconds - 1;
      }
    }

    /** `handleStartPause`: while running it ends the session with the time
        elapsed so far (the countdown stays where it is); while stopped it
        clears the summary and starts. Either way the background flag is
        cleared. */
    method StartPause(now: int)
      requires Valid()
      modifies this
      ensures Valid()
      ensures remainingSeconds == old(remainingSeconds) && !pausedByBackground
      ensures isRunning == !old(isRunning)
      ensures old(isRunning) ==>
        State() == Ended(old(State()), REASON_STOPPED, old(targetMinutes) * 60 - old(remainingSeconds), now)
                   .(pausedByBackground := false)
      ensures !old(isRunning) ==>
        State() == old(State()).(isRunning := true, lastSessionSummary := None,
                                 pausedByBackground := false)
      ensures State() == StartPaused(old(State()), now)
    {
      if isRunning {
        var elapsedSeconds := targetMinutes * 60 - remainingSeconds;
        EndSession(REASON_STOPPED, elapsedSeconds, now);
        pausedByBackground := false;
      } else {
        lastSessionSummary := None;
        isRunning := true;
        pausedByBackground := false;
      }
    }

    /** `handleReset`: stopped, a full countdown of the same target, no
        distractions, no summary, no background flag. */
    method Reset()
      requires Valid()
      modifies this
      ensures Valid()
      ensures State() == old(State()).(isRunning := false, remainingSeconds := old(targetMinutes) * 60,
                                       distractions := 0, lastSessionSummary := None,
                                       pausedByBackground := false)
    {
      isRunning := false;
      remainingSeconds := targetMinutes * 60;
      distractions := 0;
      lastSessionSummary := None;
      pausedByBackground := false;
    }

    /** `handleManualDistraction`: counts one distraction, only while running. */
    method ManualDistraction()
      requires Valid()
      modifies this
      ensures Valid()
      ensures !old(isRunning) ==> State() == old(State())
      ensures old(isRunning) ==> State() == old(State()).(distractions := old(distractions) + 1)
    {
      if !isRunning {
        return;
      }
      distractions := distractions + 1;
    }

    /** The `AppState` "change" listener. Leaving the foreground while
        running pauses, counts a distraction and sets the background flag.
        Returning to the foreground with the flag set shows the "continue?"
        alert; `resume` is the button pressed: yes resumes the countdown,
        no leaves it stopped, and both clear the flag. */
    method OnAppStateChange(next: AppStatus, resume: bool)
      requires Valid()
      modifies this
      ensures Valid()
      ensures old(appState) == Active && next != Active ==>
        if old(isRunning) then
          State() == old(State()).(isRunning := false, distractions := old(distractions) + 1,
                                   pausedByBackground := true, appState := next)
        else
          State() == old(State()).(appState := next)
      ensures old(appState) != Active && next == Active ==>
        if old(pausedByBackground) then
          State() == old(State()).(isRunning := old(isRunning) || resume,
                                   pausedByBackground := false, appState := next)
        else
          State() == old(State()).(appState := next)
      ensures (old(appState) == Active) == (next == Active) ==>
        State() == old(State()).(appState := next)
    {
      var prevState := appState;
      if prevState == Active && (next == Background || next == Inactive) {
        if isRunning {
          isRunning := false;
          distractions := distractions + 1;
          pausedByBackground := true;
        }
      }
      if (prevState == Background || prevState == Inactive) && next == Active {
        if pausedByBackground {
          if resume {
            isRunning := true;
          }
          pausedByBackground := false;
        }
      }
      appState := next;
    }

    /** `handleSelectCategory(cat)`, reached from a category chip: selects
        it and puts the timer back to a stopped 25-minute countdown with no
        distractions, summary, flag or goal. */
    method SelectCategory(cat: string)
      requires Valid()
      requires cat in categories
      modifies this
      ensures Valid()
      ensures State() == old(State()).(selectedCategory := cat, isRunning := false,
                                       targetMinutes := DEFAULT_MINUTES,
                                       remainingSeconds := DEFAULT_MINUTES * 60,
                                       distractions := 0, lastSessionSummary := None,
                                       pausedByBackground := false, sessionGoal := "")
    {
      ghost var before := State();
      selectedCategory := cat;
      isRunning := false;
      targetMinutes := DEFAULT_MINUTES;
      remainingSeconds := DEFAULT_MINUTES * 60;
      distractions := 0;
      lastSessionSummary := None;
      pausedByBackground := false;
      sessionGoal := "";
      SameCategoriesKeepInvariant(before, State());
    }

    /** `handleAddCategory`: a blank name does nothing; a name equal to an
        existing one ignoring case is refused with an alert; otherwise the
        trimmed name joins the end of the list, the input is cleared and
        the new category is selected. */
    method AddCategory() returns (outcome: AddOutcome)
      requires Valid()
      modifies this
      ensures Valid()
      ensures outcome == Blank <==> AllWhitespace(old(newCategoryName))
      ensures outcome == Duplicate <==>
        !AllWhitespace(old(newCategoryName)) && ContainsIgnoringCase(old(categories), Trim(old(newCategoryName)))
      ensures outcome != Added ==> State() == old(State())
      ensures outcome == Added ==>
        var name := Trim(old(newCategoryName));
        State() == old(State()).(categories := old(categories) + [name], newCategoryName := "",
                                 selectedCategory := name, isRunning := false,
                                 targetMinutes := DEFAULT_MINUTES,
                                 remainingSeconds := DEFAULT_MINUTES * 60,
                                 distractions := 0, lastSessionSummary := None,
                                 pausedByBackground := false, sessionGoal := "")
    {
      TrimEmptyIffAllWhitespace(newCategoryName);
      if Trim(newCategoryName) == "" {
        return Blank;
      }
      var name := Trim(newCategoryName);
      var alreadyThere := ContainsIgnoringCase(categories, name);
      if alreadyThere {
        return Duplicate;
      }
      AppendKeepsDistinct(categories, name);
      var updated := categories + [name];
      categories := updated;
      newCategoryName := "";
      SelectCategory(name);
      outcome := Added;
    }
  }
}
