/** The routine-scheduling core of `twitter_monitor/core.py`: a key-value
    store shared by reference, the `Notifier` that fans a message out to the
    followers, the `Routine` that decides between skipping and executing, and
    the `Executor` that runs a batch of routines.

    The pure functions first say what one routine run and one batch do to the
    store and to the outbox; the classes below are then proved to do exactly
    that, and the lemmas state what those functions promise. */
module Core {
  import opened Text
  import opened Timestamps
  import opened Transport

  // =====================================================================
  // Notifier messages

  /** What `Notifier.send(message)` puts on the wire: nothing for a blank
      message, otherwise one direct message per follower, in follower order,
      with the text unchanged. */
  function Deliveries(followers: seq<Follower>, message: string): (r: seq<DirectMessage>)
    ensures |r| == if IsBlank(message) then 0 else |followers|
    ensures forall i :: 0 <= i < |r| ==> r[i] == DirectMessage(followers[i].id, message)
  {
    if IsBlank(message) then [] else Broadcast(followers, message)
  }

  /** The text `Routine.notify(message)` hands to the notifier, if any: a blank
      message is dropped, any other is prefixed with the short name and ": ". */
  function NotifyText(shortName: string, message: string): (r: Option<string>)
    ensures r.None? <==> IsBlank(message)
    ensures r.Some? ==> r.value == shortName + ": " + message
    ensures r.Some? ==> !IsBlank(r.value)
  {
    if IsBlank(message) then None
    else
      var t := shortName + ": " + message;
      assert t[|shortName|] == ':';
      StripsToNothing(t, IsSpace);
      Some(t)
  }

  /** The direct messages one `notify(message)` call causes: none for a blank
      message, otherwise the prefixed text to every follower, in order. */
  function NotifyDeliveries(followers: seq<Follower>, shortName: string, message: string): (r: seq<DirectMessage>)
    ensures |r| == if IsBlank(message) then 0 else |followers|
    ensures forall i :: 0 <= i < |r| ==> r[i] == DirectMessage(followers[i].id, shortName + ": " + message)
  {
    match NotifyText(shortName, message)
    case None => []
    case Some(t) => Deliveries(followers, t)
  }

  /** The direct messages caused by notifying `notes` one after the other:
      for every non-blank one, in the order given, exactly `|followers|`
      direct messages; blank messages add nothing. */
  function Notifications(followers: seq<Follower>, shortName: string, notes: seq<string>): (r: seq<DirectMessage>)
    ensures |r| == |followers| * |NonBlank(notes)|
    decreases |notes|
  {
    if notes == [] then []
    else
      var init, m := notes[..|notes| - 1], notes[|notes| - 1];
      var k := if IsBlank(m) then 0 else 1;
      var before, last := Notifications(followers, shortName, init), NotifyDeliveries(followers, shortName, m);
      assert |NonBlank(notes)| == |NonBlank(init)| + k;
      assert |last| == |followers| * k;
      MulAdd(|followers|, |NonBlank(init)|, k);
      before + last
  }

  lemma NotificationsSnoc(followers: seq<Follower>, shortName: string, notes: seq<string>, i: nat)
    requires i < |notes|
    ensures Notifications(followers, shortName, notes[..i + 1])
            == Notifications(followers, shortName, notes[..i]) + NotifyDeliveries(followers, shortName, notes[i])
  {
    assert notes[..i + 1][..i] == notes[..i];
  }

  lemma AppendAssoc<T>(a: seq<T>, b: seq<T>, c: seq<T>)
    ensures a + (b + c) == (a + b) + c
  {
  }

  /** One more `notify` extends the record of a prefix of `notes` to the next prefix. */
  lemma NotifyStep(start: seq<DirectMessage>, pre: seq<DirectMessage>, post: seq<DirectMessage>,
                   followers: seq<Follower>, shortName: string, notes: seq<string>, i: nat)
    requires i < |notes|
    requires pre == start + Notifications(followers, shortName, notes[..i])
    requires post == pre + NotifyDeliveries(followers, shortName, notes[i])
    ensures post == start + Notifications(followers, shortName, notes[..i + 1])
  {
    NotificationsSnoc(followers, shortName, notes, i);
    AppendAssoc(start, Notifications(followers, shortName, notes[..i]), NotifyDeliveries(followers, shortName, notes[i]));
  }

  lemma MulAdd(a: nat, n: nat, k: nat)
    ensures a * (n + k) == a * n + a * k
  {
  }

  /** The messages of `notes` that are not blank, in order. */
  function NonBlank(notes: seq<string>): seq<string>
    decreases |notes|
  {
    if notes == [] then []
    else NonBlank(notes[..|notes| - 1])
         + (if IsBlank(notes[|notes| - 1]) then [] else [notes[|notes| - 1]])
  }

  // =====================================================================
  // Routine identity and last execution

  /** A `Routine` subclass, as far as the core sees it: its class name, the
      class attributes `name`, `short_name` and `interval_minutes` (`None`
      when left unset). */
  datatype RoutineClass = RoutineClass(className: string, name: Option<string>,
                                       shortName: Option<string>, intervalMinutes: Option<int>)

  /** The constructor's rule for `name` and `short_name`: the class name when unset. */
  function DefaultName(declared: Option<string>, className: string): (r: string)
    ensures declared.None? ==> r == className
    ensures declared.Some? ==> r == declared.value
  {
    match declared
    case None => className
    case Some(n) => n
  }

  /** The store key of a routine. The source keys the store by the MD5 hex
      digest of this string; the model keys it by the string itself. */
  function UidSource(className: string, name: string, shortName: string): (r: string)
    ensures forall i :: 0 <= i < |r| ==> IsAscii(r[i])
  {
    AsciiIgnore(className + " " + name + " " + shortName)
  }

  lemma {:induction false} AsciiIgnoreAppend(a: string, b: string)
    ensures AsciiIgnore(a + b) == AsciiIgnore(a) + AsciiIgnore(b)
    decreases |a|
  {
    if a != [] {
      assert (a + b)[0] == a[0];
      assert (a + b)[1..] == a[1..] + b;
      AsciiIgnoreAppend(a[1..], b);
      if IsAscii(a[0]) {
        assert AsciiIgnore(a + b) == [a[0]] + (AsciiIgnore(a[1..]) + AsciiIgnore(b));
      }
    } else {
      assert a + b == b;
    }
  }

  /** Names that differ only in non-ASCII characters give the same uid: the
      `encode("ascii", errors="ignore")` before hashing drops those characters,
      so such routines share one last-execution entry. */
  lemma UidIgnoresNonAscii(className: string, name1: string, name2: string, shortName: string)
    requires AsciiIgnore(name1) == AsciiIgnore(name2)
    ensures UidSource(className, name1, shortName) == UidSource(className, name2, shortName)
  {
    AsciiIgnoreAppend(className + " " + name1 + " ", shortName);
    AsciiIgnoreAppend(className + " " + name1, " ");
    AsciiIgnoreAppend(className + " ", name1);
    AsciiIgnoreAppend(className + " " + name2 + " ", shortName);
    AsciiIgnoreAppend(className + " " + name2, " ");
    AsciiIgnoreAppend(className + " ", name2);
  }

  /** What an instance of `c` uses at run time: its uid, its short name and its interval. */
  datatype RoutineView = RoutineView(uid: string, shortName: string, intervalMinutes: Option<int>)

  function ViewOf(c: RoutineClass): (r: RoutineView)
    ensures c.shortName.None? ==> r.shortName == c.className
    ensures c.shortName.Some? ==> r.shortName == c.shortName.value
    ensures forall i :: 0 <= i < |r.uid| ==> IsAscii(r.uid[i])
    ensures c.name.None? && c.shortName.None?
            ==> r.uid == AsciiIgnore(c.className + " " + c.className + " " + c.className)
    ensures r.intervalMinutes == c.intervalMinutes
  {
    var name := DefaultName(c.name, c.className);
    var shortName := DefaultName(c.shortName, c.className);
    RoutineView(UidSource(c.className, name, shortName), shortName, c.intervalMinutes)
  }

  /** The `last_execution` property: the stored value under `uid`, parsed;
      `None` when the key is absent or the value does not parse. */
  function LastExecutionIn(entries: map<string, string>, uid: string): (r: Option<DateTime>)
    ensures r.Some? ==> uid in entries && ValidDateTime(r.value)
    ensures r.Some? ==> ParseStamp(entries[uid]) == r
  {
    if uid in entries then ParseStamp(entries[uid]) else None
  }

  /** `_skip_execution`: skip when an interval is set, a last execution is
      known, and less than the interval has passed since it. */
  function SkipExecution(intervalMinutes: Option<int>, last: Option<DateTime>, now: DateTime): (r: bool)
    ensures r ==> intervalMinutes.Some? && last.Some?
    ensures (intervalMinutes.Some? && intervalMinutes.value >= 0 && last.Some?
             && Micros(now) < Micros(last.value)) ==> r
  {
    match (intervalMinutes, last)
    case (Some(minutes), Some(at)) => Micros(now) - Micros(at) < minutes * 60000000
    case _ => false
  }

  // =====================================================================
  // One routine run

  /** What one call of the `_execute` hook does: notify `notes` in order, then
      return a truth value or raise. */
  datatype ExecResult = Returned(ok: bool) | Raised
  datatype Execution = Execution(notes: seq<string>, result: ExecResult)

  datatype RoutineEffect = RoutineEffect(entries: map<string, string>, sent: seq<DirectMessage>, result: ExecResult)

  /** `Routine.run()` at `now`: the new store contents, the messages sent and
      the outcome (`Raised` for an exception that leaves `run`). */
  function RunRoutine(entries: map<string, string>, view: RoutineView, now: DateTime,
                      exec: Execution, followers: seq<Follower>): (e: RoutineEffect)
    requires ValidDateTime(now)
    ensures var skip := SkipExecution(view.intervalMinutes, LastExecutionIn(entries, view.uid), now);
            && (skip ==> e == RoutineEffect(entries, [], Returned(true)))
            && (!skip ==> e.result == exec.result
                          && e.sent == Notifications(followers, view.shortName, exec.notes))
    ensures forall k :: k != view.uid ==> (k in e.entries <==> k in entries)
    ensures forall k :: k != view.uid && k in entries ==> e.entries[k] == entries[k]
    ensures e.entries != entries ==> e.result == Returned(true) && e.entries == entries[view.uid := IsoFormat(now)]
    ensures (!SkipExecution(view.intervalMinutes, LastExecutionIn(entries, view.uid), now)
             && exec.result == Returned(true)) ==> e.entries == entries[view.uid := IsoFormat(now)]
  {
    if SkipExecution(view.intervalMinutes, LastExecutionIn(entries, view.uid), now) then
      RoutineEffect(entries, [], Returned(true))
    else
      var sent := Notifications(followers, view.shortName, exec.notes);
      if exec.result == Returned(true) then RoutineEffect(entries[view.uid := IsoFormat(now)], sent, Returned(true))
      else RoutineEffect(entries, sent, exec.result)
  }

  /** A run that executes and succeeds at an instant with a non-zero
      microsecond is read back as that instant by `last_execution`. */
  lemma SuccessRecordsNow(entries: map<string, string>, view: RoutineView, now: DateTime,
                          exec: Execution, followers: seq<Follower>)
    requires ValidDateTime(now) && now.microsecond != 0
    requires !SkipExecution(view.intervalMinutes, LastExecutionIn(entries, view.uid), now)
    requires exec.result == Returned(true)
    ensures LastExecutionIn(RunRoutine(entries, view, now, exec, followers).entries, view.uid) == Some(now)
  {
    StampRoundTrip(now);
  }

  /** A success at a whole second is recorded as a stamp without fraction,
      which `last_execution` cannot parse: the routine reads as never run. */
  lemma WholeSecondSuccessForgotten(entries: map<string, string>, view: RoutineView, now: DateTime,
                                    exec: Execution, followers: seq<Follower>)
    requires ValidDateTime(now) && now.microsecond == 0
    requires !SkipExecution(view.intervalMinutes, LastExecutionIn(entries, view.uid), now)
    requires exec.result == Returned(true)
    ensures LastExecutionIn(RunRoutine(entries, view, now, exec, followers).entries, view.uid) == None
  {
    WholeSecondStampFails(now);
  }

  /** After a success at `t1`, a run at `t2` less than the interval later is
      skipped: it reports success, sends nothing and leaves the store alone. */
  lemma RunThenSkip(entries: map<string, string>, view: RoutineView, t1: DateTime, t2: DateTime,
                    exec1: Execution, exec2: Execution, followers: seq<Follower>)
    requires ValidDateTime(t1) && ValidDateTime(t2) && t1.microsecond != 0
    requires view.intervalMinutes.Some?
    requires Micros(t2) - Micros(t1) < view.intervalMinutes.value * 60000000
    requires !SkipExecution(view.intervalMinutes, LastExecutionIn(entries, view.uid), t1)
    requires exec1.result == Returned(true)
    ensures var e1 := RunRoutine(entries, view, t1, exec1, followers);
            RunRoutine(e1.entries, view, t2, exec2, followers) == RoutineEffect(e1.entries, [], Returned(true))
  {
    SuccessRecordsNow(entries, view, t1, exec1, followers);
  }

  /** After a success at `t1`, a run at `t2` at least the interval later
      executes the hook again and reports what it reports. */
  lemma RunAfterIntervalExecutes(entries: map<string, string>, view: RoutineView, t1: DateTime, t2: DateTime,
                                 exec1: Execution, exec2: Execution, followers: seq<Follower>)
    requires ValidDateTime(t1) && ValidDateTime(t2) && t1.microsecond != 0
    requires view.intervalMinutes.Some?
    requires Micros(t2) - Micros(t1) >= view.intervalMinutes.value * 60000000
    requires !SkipExecution(view.intervalMinutes, LastExecutionIn(entries, view.uid), t1)
    requires exec1.result == Returned(true)
    ensures var e1 := RunRoutine(entries, view, t1, exec1, followers);
            !SkipExecution(view.intervalMinutes, LastExecutionIn(e1.entries, view.uid), t2)
    ensures var e1 := RunRoutine(entries, view, t1, exec1, followers);
            var e2 := RunRoutine(e1.entries, view, t2, exec2, followers);
            e2.result == exec2.result && e2.sent == Notifications(followers, view.shortName, exec2.notes)
  {
    SuccessRecordsNow(entries, view, t1, exec1, followers);
  }

  /** Once cleared, the last execution reads as `None` and the next run executes. */
  lemma ClearedRoutineRuns(entries: map<string, string>, view: RoutineView, now: DateTime,
                           exec: Execution, followers: seq<Follower>)
    requires ValidDateTime(now)
    ensures LastExecutionIn(entries[view.uid := ""], view.uid) == None
    ensures RunRoutine(entries[view.uid := ""], view, now, exec, followers).result == exec.result
  {
  }

  // =====================================================================
  // One batch

  /** The state of `Executor.run` after some of its routines: the store, the
      messages sent, each routine's outcome in order, the running `success`
      flag, whether a fault ended the batch, and whether the store is closed. */
  datatype Batch = Batch(entries: map<string, string>, sent: seq<DirectMessage>, results: seq<ExecResult>,
                         success: bool, faulted: bool, closed: bool)

  function StartBatch(entries: map<string, string>, closed: bool): Batch {
    Batch(entries, [], [], true, false, closed)
  }

  /** The loop body of `Executor.run` for one routine; after a fault nothing more happens. */
  function Step(b: Batch, c: RoutineClass, exec: Execution, now: DateTime,
                followers: seq<Follower>, closable: bool): (r: Batch)
    requires ValidDateTime(now)
    ensures b.sent <= r.sent
    ensures b.results <= r.results && |r.results| <= |b.results| + 1
    ensures b.entries.Keys <= r.entries.Keys
    ensures b.closed ==> r.closed
    ensures b.faulted ==> r.faulted
  {
    if b.faulted then b
    else
      var e := RunRoutine(b.entries, ViewOf(c), now, exec, followers);
      match e.result
      case Raised => Batch(e.entries, b.sent + e.sent, b.results + [Raised], false, true, b.closed || closable)
      case Returned(ok) => Batch(e.entries, b.sent + e.sent, b.results + [e.result], b.success && ok, false, b.closed)
  }

  /** `Executor.run` over `classes`, starting from `start`, the hooks behaving
      as `execs` says. */
  function RunBatch(start: Batch, classes: seq<RoutineClass>, execs: seq<Execution>, now: DateTime,
                    followers: seq<Follower>, closable: bool): (r: Batch)
    requires ValidDateTime(now) && |classes| == |execs|
    ensures start.sent <= r.sent
    ensures start.results <= r.results && |r.results| <= |start.results| + |classes|
    ensures start.entries.Keys <= r.entries.Keys
    ensures start.closed ==> r.closed
    decreases |classes|
  {
    if classes == [] then start
    else
      var n := |classes| - 1;
      var before := RunBatch(start, classes[..n], execs[..n], now, followers, closable);
      Step(before, classes[n], execs[n], now, followers, closable)
  }

  lemma RunBatchSnoc(start: Batch, classes: seq<RoutineClass>, execs: seq<Execution>, now: DateTime,
                     followers: seq<Follower>, closable: bool, i: nat)
    requires ValidDateTime(now) && |classes| == |execs| && i < |classes|
    ensures RunBatch(start, classes[..i + 1], execs[..i + 1], now, followers, closable)
            == Step(RunBatch(start, classes[..i], execs[..i], now, followers, closable), classes[i], execs[i],
                    now, followers, closable)
  {
    assert classes[..i + 1][..i] == classes[..i] && execs[..i + 1][..i] == execs[..i];
  }

  /** A step that is not after a fault records the routine's effect. */
  lemma StepUnfold(b: Batch, c: RoutineClass, exec: Execution, now: DateTime,
                   followers: seq<Follower>, closable: bool)
    requires ValidDateTime(now) && !b.faulted
    ensures var e := RunRoutine(b.entries, ViewOf(c), now, exec, followers);
            Step(b, c, exec, now, followers, closable)
            == Batch(e.entries, b.sent + e.sent, b.results + [e.result], b.success && e.result == Returned(true),
                     e.result == Raised, b.closed || (closable && e.result == Raised))
  {
  }

  /** What one step adds: nothing once faulted; otherwise one outcome, which
      is the hook's or a skip's, raising exactly when it faults, and keeping
      `success` only when it is `True`. */
  lemma StepOutcome(b: Batch, c: RoutineClass, exec: Execution, now: DateTime,
                    followers: seq<Follower>, closable: bool)
    requires ValidDateTime(now)
    ensures var s := Step(b, c, exec, now, followers, closable);
            && (b.faulted ==> s == b)
            && (!b.faulted ==>
                  && s.results == b.results + [s.results[|b.results|]]
                  && (s.results[|b.results|] == exec.result || s.results[|b.results|] == Returned(true))
                  && (s.faulted <==> s.results[|b.results|] == Raised)
                  && (s.success <==> b.success && s.results[|b.results|] == Returned(true)))
  {
  }

  /** Without a fault every routine has an outcome; with one, no routine after it has. */
  lemma {:induction false} BatchLength(entries: map<string, string>, closed: bool, classes: seq<RoutineClass>,
                                       execs: seq<Execution>, now: DateTime, followers: seq<Follower>,
                                       closable: bool)
    requires ValidDateTime(now) && |classes| == |execs|
    ensures var b := RunBatch(StartBatch(entries, closed), classes, execs, now, followers, closable);
            && |b.results| <= |classes|
            && (!b.faulted ==> |b.results| == |classes|)
    decreases |classes|
  {
    if classes != [] {
      var n := |classes| - 1;
      BatchLength(entries, closed, classes[..n], execs[..n], now, followers, closable);
      var before := RunBatch(StartBatch(entries, closed), classes[..n], execs[..n], now, followers, closable);
      StepOutcome(before, classes[n], execs[n], now, followers, closable);
      assert RunBatch(StartBatch(entries, closed), classes, execs, now, followers, closable)
             == Step(before, classes[n], execs[n], now, followers, closable);
    }
  }

  /** A fault, if any, is the last of `results` and no other outcome is a fault. */
  predicate FaultLast(results: seq<ExecResult>, faulted: bool) {
    && (faulted <==> |results| > 0 && results[|results| - 1] == Raised)
    && forall k :: 0 <= k < |results| - 1 ==> results[k] != Raised
  }

  lemma FaultLastExtend(before: seq<ExecResult>, x: ExecResult, faulted: bool)
    requires FaultLast(before, false)
    requires faulted <==> x == Raised
    ensures FaultLast(before + [x], faulted)
  {
    var after := before + [x];
    forall k | 0 <= k < |after| - 1
      ensures after[k] != Raised
    {
      assert after[k] == before[k];
    }
  }

  /** A fault is the last outcome recorded, and no other outcome is a fault. */
  lemma {:induction false} BatchFaultLast(entries: map<string, string>, closed: bool, classes: seq<RoutineClass>,
                                          execs: seq<Execution>, now: DateTime, followers: seq<Follower>,
                                          closable: bool)
    requires ValidDateTime(now) && |classes| == |execs|
    ensures var b := RunBatch(StartBatch(entries, closed), classes, execs, now, followers, closable);
            FaultLast(b.results, b.faulted)
    decreases |classes|
  {
    if classes != [] {
      var n := |classes| - 1;
      BatchFaultLast(entries, closed, classes[..n], execs[..n], now, followers, closable);
      var before := RunBatch(StartBatch(entries, closed), classes[..n], execs[..n], now, followers, closable);
      StepOutcome(before, classes[n], execs[n], now, followers, closable);
      var b := RunBatch(StartBatch(entries, closed), classes, execs, now, followers, closable);
      assert b == Step(before, classes[n], execs[n], now, followers, closable);
      if !before.faulted {
        FaultLastExtend(before.results, b.results[|before.results|], b.faulted);
      }
    }
  }

  /** The batch result is the conjunction of the routines' results: `True`
      exactly when no fault escaped and every routine that ran returned true
      (an empty batch included). */
  lemma {:induction false} BatchSuccess(entries: map<string, string>, closed: bool, classes: seq<RoutineClass>,
                                        execs: seq<Execution>, now: DateTime, followers: seq<Follower>,
                                        closable: bool)
    requires ValidDateTime(now) && |classes| == |execs|
    ensures var b := RunBatch(StartBatch(entries, closed), classes, execs, now, followers, closable);
            b.success <==> !b.faulted && forall k :: 0 <= k < |b.results| ==> b.results[k] == Returned(true)
    decreases |classes|
  {
    if classes != [] {
      var n := |classes| - 1;
      BatchSuccess(entries, closed, classes[..n], execs[..n], now, followers, closable);
      var before := RunBatch(StartBatch(entries, closed), classes[..n], execs[..n], now, followers, closable);
      var b := RunBatch(StartBatch(entries, closed), classes, execs, now, followers, closable);
      assert b == Step(before, classes[n], execs[n], now, followers, closable);
      StepOutcome(before, classes[n], execs[n], now, followers, closable);
      SuccessStep(before, b);
    }
  }

  /** One step keeps "success exactly when nothing faulted and every result
      is true". */
  lemma SuccessStep(b: Batch, s: Batch)
    requires b.success <==> !b.faulted && forall k :: 0 <= k < |b.results| ==> b.results[k] == Returned(true)
    requires b.faulted ==> s == b
    requires !b.faulted ==>
               && |s.results| == |b.results| + 1
               && s.results == b.results + [s.results[|b.results|]]
               && (s.faulted <==> s.results[|b.results|] == Raised)
               && (s.success <==> b.success && s.results[|b.results|] == Returned(true))
    ensures s.success <==> !s.faulted && forall k :: 0 <= k < |s.results| ==> s.results[k] == Returned(true)
  {
    if !b.faulted {
      assert forall k :: 0 <= k < |b.results| ==> s.results[k] == b.results[k];
    }
  }

  /** Each outcome in `results` is the matching hook's result or a skip's `True`. */
  predicate FromHooks(results: seq<ExecResult>, execs: seq<Execution>) {
    |results| <= |execs|
    && forall k :: 0 <= k < |results| ==> results[k] == execs[k].result || results[k] == Returned(true)
  }

  lemma FromHooksExtend(before: seq<ExecResult>, after: seq<ExecResult>, execs: seq<Execution>)
    requires execs != [] && FromHooks(before, execs[..|execs| - 1])
    requires after == before
             || (|before| == |execs| - 1 && |after| == |execs| && after[..|before|] == before
                 && (after[|before|] == execs[|before|].result || after[|before|] == Returned(true)))
    ensures FromHooks(after, execs)
  {
    var n := |execs| - 1;
    forall k | 0 <= k < |before|
      ensures before[k] == execs[k].result || before[k] == Returned(true)
    {
      assert execs[..n][k] == execs[k];
    }
    if after != before {
      forall k | 0 <= k < |before|
        ensures after[k] == before[k]
      {
        assert after[..|before|][k] == after[k];
      }
    }
  }

  /** Each recorded outcome is what that routine's hook gave, or a skip's `True`. */
  lemma {:induction false} BatchResultsFromHooks(entries: map<string, string>, closed: bool,
                                                 classes: seq<RoutineClass>, execs: seq<Execution>,
                                                 now: DateTime, followers: seq<Follower>, closable: bool)
    requires ValidDateTime(now) && |classes| == |execs|
    ensures FromHooks(RunBatch(StartBatch(entries, closed), classes, execs, now, followers, closable).results, execs)
    decreases |classes|
  {
    if classes != [] {
      var n := |classes| - 1;
      BatchResultsFromHooks(entries, closed, classes[..n], execs[..n], now, followers, closable);
      BatchLength(entries, closed, classes[..n], execs[..n], now, followers, closable);
      var before := RunBatch(StartBatch(entries, closed), classes[..n], execs[..n], now, followers, closable);
      StepOutcome(before, classes[n], execs[n], now, followers, closable);
      var b := RunBatch(StartBatch(entries, closed), classes, execs, now, followers, closable);
      assert b == Step(before, classes[n], execs[n], now, followers, closable);
      FromHooksExtend(before.results, b.results, execs);
    }
  }

  /** The store is closed at the end of a batch exactly when it was closed
      before, or a fault ended the batch and the store can be closed. */
  lemma {:induction false} BatchCloses(entries: map<string, string>, closed: bool, classes: seq<RoutineClass>,
                                       execs: seq<Execution>, now: DateTime, followers: seq<Follower>,
                                       closable: bool)
    requires ValidDateTime(now) && |classes| == |execs|
    ensures var b := RunBatch(StartBatch(entries, closed), classes, execs, now, followers, closable);
            b.closed <==> closed || (closable && b.faulted)
    decreases |classes|
  {
    if classes != [] {
      var n := |classes| - 1;
      BatchCloses(entries, closed, classes[..n], execs[..n], now, followers, closable);
    }
  }

  /** A batch that faulted before its last routine ends where it was. */
  lemma FaultPersists(start: Batch, classes: seq<RoutineClass>, execs: seq<Execution>,
                      now: DateTime, followers: seq<Follower>, closable: bool)
    requires ValidDateTime(now) && |classes| == |execs| && classes != []
    requires RunBatch(start, classes[..|classes| - 1], execs[..|classes| - 1], now, followers, closable).faulted
    ensures RunBatch(start, classes, execs, now, followers, closable)
            == RunBatch(start, classes[..|classes| - 1], execs[..|classes| - 1], now, followers, closable)
  {
  }

  /** Once the first `k` routines have faulted, the routines after them change nothing. */
  lemma {:induction false} FaultEndsBatch(start: Batch, classes: seq<RoutineClass>, execs: seq<Execution>,
                                          now: DateTime, followers: seq<Follower>, closable: bool, k: nat)
    requires ValidDateTime(now) && |classes| == |execs| && k <= |classes|
    requires RunBatch(start, classes[..k], execs[..k], now, followers, closable).faulted
    ensures RunBatch(start, classes, execs, now, followers, closable)
            == RunBatch(start, classes[..k], execs[..k], now, followers, closable)
    decreases |classes|
  {
    if k < |classes| {
      var n := |classes| - 1;
      assert classes[..n][..k] == classes[..k] && execs[..n][..k] == execs[..k];
      FaultEndsBatch(start, classes[..n], execs[..n], now, followers, closable, k);
      FaultPersists(start, classes, execs, now, followers, closable);
    } else {
      assert classes[..k] == classes && execs[..k] == execs;
    }
  }

  /** A routine whose hook returns false does not keep the next one from
      running: with `[A, B]`, neither having an interval, A's hook returning
      false and B's true, B runs and records its execution, and the batch
      fails. */
  lemma FailureDoesNotStopBatch(entries: map<string, string>, a: RoutineClass, b: RoutineClass,
                                notesA: seq<string>, notesB: seq<string>, now: DateTime, followers: seq<Follower>)
    requires ValidDateTime(now) && a.intervalMinutes.None? && b.intervalMinutes.None?
    ensures var r := RunBatch(StartBatch(entries, false), [a, b],
                              [Execution(notesA, Returned(false)), Execution(notesB, Returned(true))],
                              now, followers, true);
            && r.results == [Returned(false), Returned(true)]
            && !r.success && !r.faulted && !r.closed
            && ViewOf(b).uid in r.entries && r.entries[ViewOf(b).uid] == IsoFormat(now)
  {
    var execs := [Execution(notesA, Returned(false)), Execution(notesB, Returned(true))];
    var b0 := StartBatch(entries, false);
    assert [a, b][..1] == [a] && execs[..1] == [execs[0]];
    assert [a][..0] == [] && [execs[0]][..0] == [];
    var eA := RunRoutine(entries, ViewOf(a), now, execs[0], followers);
    assert eA.entries == entries && eA.result == Returned(false);
    var b1 := Step(b0, a, execs[0], now, followers, true);
    assert b1 == Batch(entries, eA.sent, [Returned(false)], false, false, false);
    assert RunBatch(b0, [a], [execs[0]], now, followers, true) == b1;
    var eB := RunRoutine(entries, ViewOf(b), now, execs[1], followers);
    assert eB.entries == entries[ViewOf(b).uid := IsoFormat(now)] && eB.result == Returned(true);
    var b2 := Step(b1, b, execs[1], now, followers, true);
    assert b2.results == [Returned(false), Returned(true)];
  }

  // =====================================================================
  // The store

  /** The key-value store: a `dict` or a `dbm` database. `closable` says
      whether it has a callable `close`. */
  class KeyValueStore {
    var entries: map<string, string>
    const closable: bool
    var closed: bool

    constructor (entries: map<string, string>, closable: bool)
      ensures this.entries == entries && this.closable == closable && !closed
    {
      this.entries := entries;
      this.closable := closable;
      closed := false;
    }

    method Close()
      requires closable
      modifies this`closed
      ensures closed
    {
      closed := true;
    }
  }

  // =====================================================================
  // Notifier (core.py:173-213)

  class Notifier {
    const api: Api
    /** `_followers`: the follower list, once fetched. */
    var followers: Option<seq<Follower>>
    /** `api.fetches` when this notifier was built. */
    ghost const fetchesBefore: nat

    /** The cache holds what the API answered, and the API was asked once
        if the cache is filled and never otherwise. */
    ghost predicate Valid()
      reads this, api
    {
      && api.fetches == fetchesBefore + (if followers.Some? then 1 else 0)
      && (followers.Some? ==> followers.value == api.followerList)
    }

    constructor (api: Api)
      ensures Valid() && this.api == api && followers == None && fetchesBefore == api.fetches
    {
      this.api := api;
      followers := None;
      fetchesBefore := api.fetches;
    }

    /** `_get_followers`: fetch the followers the first time, reuse them after. */
    method GetFollowers() returns (fs: seq<Follower>)
      requires Valid()
      modifies this`followers, api`fetches
      ensures Valid() && followers == Some(fs) && fs == api.followerList
      ensures api.fetches == fetchesBefore + 1
    {
      if followers.None? {
        var fetched := api.Followers();
        followers := Some(fetched);
      }
      fs := followers.value;
    }

    /** `send(message)`: nothing for a blank message; otherwise one direct
        message per follower, in follower order. */
    method Send(message: string)
      requires Valid()
      modifies this`followers, api
      ensures Valid()
      ensures api.outbox == old(api.outbox) + Deliveries(api.followerList, message)
      ensures IsBlank(message) ==> followers == old(followers) && api.fetches == old(api.fetches)
    {
      if IsBlank(message) {
        return;
      }
      var fs := GetFollowers();
      DirectToEach(fs, message);
    }

    /** The loop of `send`: one direct message per follower, in order. */
    method DirectToEach(fs: seq<Follower>, text: string)
      modifies api`outbox
      ensures api.outbox == old(api.outbox) + Broadcast(fs, text)
    {
      var i := 0;
      while i < |fs|
        invariant 0 <= i <= |fs|
        invariant api.outbox == old(api.outbox) + Broadcast(fs[..i], text)
      {
        api.SendDirectMessage(fs[i].id, text);
        assert fs[..i + 1][..i] == fs[..i];
        i := i + 1;
      }
      assert fs[..i] == fs;
    }
  }

  // =====================================================================
  // Routine (core.py:216-352)

  class Routine {
    const cls: RoutineClass
    const name: string
    const shortName: string
    const notifier: Notifier
    const store: KeyValueStore

    constructor (cls: RoutineClass, notifier: Notifier, store: KeyValueStore)
      ensures this.cls == cls && this.notifier == notifier && this.store == store
      ensures name == DefaultName(cls.name, cls.className)
      ensures shortName == DefaultName(cls.shortName, cls.className)
    {
      this.cls := cls;
      this.notifier := notifier;
      this.store := store;
      name := DefaultName(cls.name, cls.className);
      shortName := DefaultName(cls.shortName, cls.className);
    }

    /** The `uid` property. */
    function Uid(): string {
      UidSource(cls.className, name, shortName)
    }

    function View(): RoutineView {
      RoutineView(Uid(), shortName, cls.intervalMinutes)
    }

    /** The `last_execution` property. */
    function LastExecution(): Option<DateTime>
      reads store
    {
      LastExecutionIn(store.entries, Uid())
    }

    /** `run()`. */
    method Run(now: DateTime, exec: Execution) returns (r: ExecResult)
      requires ValidDateTime(now) && notifier.Valid()
      modifies store`entries, notifier`followers, notifier.api
      ensures notifier.Valid()
      ensures var e := RunRoutine(old(store.entries), View(), now, exec, notifier.api.followerList);
              && store.entries == e.entries
              && notifier.api.outbox == old(notifier.api.outbox) + e.sent
              && r == e.result
    {
      if SkipExecution(cls.intervalMinutes, LastExecution(), now) {
        return Returned(true);
      }
      r := Execute(exec);
      if r == Returned(true) {
        SetLastExecution(now, None);
      }
    }

    /** `_execute()`, the hook each subclass supplies, played back from
        `exec`: it notifies `exec.notes` in order, then returns or raises. */
    method Execute(exec: Execution) returns (r: ExecResult)
      requires notifier.Valid()
      modifies notifier`followers, notifier.api
      ensures notifier.Valid() && r == exec.result
      ensures notifier.api.outbox
              == old(notifier.api.outbox) + Notifications(notifier.api.followerList, shortName, exec.notes)
    {
      var api := notifier.api;
      ghost var fl := api.followerList;
      var i := 0;
      while i < |exec.notes|
        invariant 0 <= i <= |exec.notes|
        invariant notifier.Valid()
        invariant api.outbox == old(api.outbox) + Notifications(fl, shortName, exec.notes[..i])
      {
        ghost var pre := api.outbox;
        Notify(exec.notes[i]);
        NotifyStep(old(api.outbox), pre, api.outbox, fl, shortName, exec.notes, i);
        i := i + 1;
      }
      assert exec.notes[..i] == exec.notes;
      r := exec.result;
    }

    /** `clear_last_execution()`: store the empty string, which never parses. */
    method ClearLastExecution()
      modifies store`entries
      ensures store.entries == old(store.entries)[Uid() := ""]
      ensures LastExecution() == None
    {
      SetLastExecution(DateTime(1, 1, 1, 0, 0, 0, 0), Some(""));
    }

    /** `_set_last_execution(val)`: store `val`, or the current time when no
        value is given. */
    method SetLastExecution(now: DateTime, val: Option<string>)
      requires ValidDateTime(now)
      modifies store`entries
      ensures store.entries == old(store.entries)[Uid() := match val case Some(v) => v case None => IsoFormat(now)]
    {
      var stamp := match val case Some(v) => v case None => IsoFormat(now);
      store.entries := store.entries[Uid() := stamp];
    }

    /** `notify(message)`. */
    method Notify(message: string)
      requires notifier.Valid()
      modifies notifier`followers, notifier.api
      ensures notifier.Valid()
      ensures notifier.api.outbox
              == old(notifier.api.outbox) + NotifyDeliveries(notifier.api.followerList, shortName, message)
    {
      if IsBlank(message) {
        return;
      }
      notifier.Send(shortName + ": " + message);
    }
  }

  // =====================================================================
  // Executor (core.py:106-170)

  class Executor {
    const notifier: Notifier
    const routines: seq<RoutineClass>
    const store: KeyValueStore
    /** `_routines_instances`: built on first use, then reused. */
    var instances: Option<seq<Routine>>

    /** `rs` are instances of `routines`, in order, bound to this executor's
        notifier and store. */
    ghost predicate Built(rs: seq<Routine>) {
      && |rs| == |routines|
      && forall i :: 0 <= i < |rs| ==>
           && rs[i].cls == routines[i] && rs[i].notifier == notifier && rs[i].store == store
           && rs[i].View() == ViewOf(routines[i])
    }

    ghost predicate Valid()
      reads this, notifier, notifier.api
    {
      notifier.Valid() && (instances.Some? ==> Built(instances.value))
    }

    constructor (notifier: Notifier, routines: seq<RoutineClass>, store: KeyValueStore)
      requires notifier.Valid()
      ensures Valid() && instances == None
      ensures this.notifier == notifier && this.routines == routines && this.store == store
    {
      this.notifier := notifier;
      this.routines := routines;
      this.store := store;
      instances := None;
    }

    /** `routines_instances()`: one instance per routine class, in order,
        created on the first call and returned unchanged on every later one. */
    method RoutinesInstances() returns (rs: seq<Routine>)
      requires Valid()
      modifies this`instances
      ensures Valid() && instances == Some(rs)
      ensures old(instances).Some? ==> rs == old(instances).value
      ensures old(instances).None? ==> forall i :: 0 <= i < |rs| ==> fresh(rs[i])
    {
      if instances.Some? {
        return instances.value;
      }
      instances := Some([]);
      for i := 0 to |routines|
        invariant instances.Some? && |instances.value| == i
        invariant forall k :: 0 <= k < i ==>
                    && instances.value[k].cls == routines[k] && instances.value[k].notifier == notifier
                    && instances.value[k].store == store && instances.value[k].View() == ViewOf(routines[k])
                    && fresh(instances.value[k])
      {
        var rt := new Routine(routines[i], notifier, store);
        instances := Some(instances.value + [rt]);
      }
      rs := instances.value;
    }

    /** `run()`: every routine in order; a false result fails the batch but
        the next routine still runs; a fault leaves the loop, closes a
        closable store and fails the batch. */
    method Run(now: DateTime, execs: seq<Execution>) returns (success: bool)
      requires Valid() && ValidDateTime(now) && |execs| == |routines|
      modifies this`instances, store, notifier`followers, notifier.api
      ensures Valid() && instances.Some?
      ensures old(instances).Some? ==> instances == old(instances)
      ensures var b := RunBatch(StartBatch(old(store.entries), old(store.closed)), routines, execs, now,
                                notifier.api.followerList, store.closable);
              && store.entries == b.entries
              && notifier.api.outbox == old(notifier.api.outbox) + b.sent
              && store.closed == b.closed
              && success == b.success
    {
      var rs := RoutinesInstances();
      ghost var start := StartBatch(store.entries, store.closed);
      ghost var sent0 := notifier.api.outbox;
      var faulted, i;
      success, faulted, i := RunLoop(rs, now, execs, start, sent0);
      BatchDone(start, sent0, now, execs, i, faulted, success);
      if faulted && store.closable {
        store.Close();
      }
    }

    /** The loop of `run()`: routines in order until one faults or none is left. */
    method RunLoop(rs: seq<Routine>, now: DateTime, execs: seq<Execution>,
                   ghost start: Batch, ghost sent0: seq<DirectMessage>)
      returns (success: bool, faulted: bool, i: nat)
      requires Valid() && instances == Some(rs) && ValidDateTime(now) && |execs| == |routines|
      requires start == StartBatch(store.entries, store.closed) && sent0 == notifier.api.outbox
      modifies store`entries, notifier`followers, notifier.api
      ensures Valid() && instances == Some(rs)
      ensures BatchSoFar(start, sent0, now, execs, i, faulted, success) && (faulted || i == |routines|)
    {
      success := true;
      faulted := false;
      i := 0;
      assert routines[..0] == [] && execs[..0] == [] && sent0 + [] == sent0;
      while i < |rs| && !faulted
        invariant 0 <= i <= |rs| && instances == Some(rs) && Valid()
        invariant BatchSoFar(start, sent0, now, execs, i, faulted, success)
      {
        faulted, success := RunNext(rs, i, now, execs, start, sent0, success);
        i := i + 1;
      }
    }

    /** The state of the store and the outbox after the first `i` routines. */
    ghost predicate BatchSoFar(start: Batch, sent0: seq<DirectMessage>, now: DateTime, execs: seq<Execution>,
                               i: nat, faulted: bool, success: bool)
      reads store, notifier, notifier.api
    {
      && ValidDateTime(now) && |execs| == |routines| && i <= |routines|
      && var b := RunBatch(start, routines[..i], execs[..i], now, notifier.api.followerList, store.closable);
         && faulted == b.faulted && success == b.success
         && store.entries == b.entries && store.closed == start.closed
         && b.closed == (start.closed || (store.closable && faulted))
         && notifier.api.outbox == sent0 + b.sent
    }

    lemma BatchDone(start: Batch, sent0: seq<DirectMessage>, now: DateTime, execs: seq<Execution>,
                    i: nat, faulted: bool, success: bool)
      requires BatchSoFar(start, sent0, now, execs, i, faulted, success) && (faulted || i == |routines|)
      ensures var b := RunBatch(start, routines, execs, now, notifier.api.followerList, store.closable);
              && store.entries == b.entries && success == b.success
              && notifier.api.outbox == sent0 + b.sent
              && b.closed == (start.closed || (store.closable && faulted))
    {
      if faulted {
        FaultEndsBatch(start, routines, execs, now, notifier.api.followerList, store.closable, i);
      } else {
        assert routines[..i] == routines && execs[..i] == execs;
      }
    }

    /** One pass of `run()`'s loop: routine `i` runs after the first `i`. */
    method RunNext(rs: seq<Routine>, i: nat, now: DateTime, execs: seq<Execution>,
                   ghost start: Batch, ghost sent0: seq<DirectMessage>, success: bool)
      returns (faulted: bool, success': bool)
      requires Valid() && instances == Some(rs) && i < |rs|
      requires BatchSoFar(start, sent0, now, execs, i, false, success)
      modifies store`entries, notifier`followers, notifier.api
      ensures Valid()
      ensures BatchSoFar(start, sent0, now, execs, i + 1, faulted, success')
    {
      ghost var fl := notifier.api.followerList;
      ghost var b := RunBatch(start, routines[..i], execs[..i], now, fl, store.closable);
      var r := rs[i].Run(now, execs[i]);
      faulted, success' := r == Raised, success && r == Returned(true);
      ghost var e := RunRoutine(b.entries, ViewOf(routines[i]), now, execs[i], fl);
      StepUnfold(b, routines[i], execs[i], now, fl, store.closable);
      AppendAssoc(sent0, b.sent, e.sent);
      RunBatchSnoc(start, routines, execs, now, fl, store.closable, i);
    }
  }
}
