/** The behaviour of the schedule worker as functions of its inputs: which
  * packages a run selects, what one pass of `processSchedule` does to the
  * run registry and which platform requests it makes, what the repeated
  * passes of `doWork` add up to, and what `scheduleAll` requests. The
  * methods in module ScheduleWorker are proved against these. */
module ScheduleWorkSpec {
  import opened Values
  import opened ScheduleEntity
  import opened PackageSelection
  import opened WorkResults
  import opened RunRegistry
  import opened Platform
  import ScheduledActionTask

  /** Collaborators outside this model: `filterPackages`,
    * `WorkHandler.getBatchName`, `LogsHandler.handleErrorMessages` and
    * `calcRuntimeDiff` (which yields `(timeToRun, initialDelay)`). */
  datatype Collaborators = Collaborators(
    filterPackages: PackageFilter,
    getBatchName: (string, Int64) -> string,
    handleErrorMessages: string -> string,
    calcRuntimeDiff: Schedule -> (Int64, Int64))

  /** What one pass of `processSchedule` finds: the clock, the schedule row
    * under the worker's id, the database and device state, and the updates
    * the queued backup jobs deliver, in delivery order. */
  datatype RunInput = RunInput(
    now: Int64,
    schedule: Option<Schedule>,
    context: SelectionContext,
    updates: seq<WorkUpdate>)

  datatype WorkerResult = Success | Failure

  // ---------------------------------------------------------------------
  // Selection

  /** `schedule?.let { getFilteredPackages(it) } ?: emptyList()`: a missing
    * schedule and either storage exception select nothing. */
  function SelectedItems(run: RunInput, filterPackages: PackageFilter): (r: seq<string>)
    ensures r != [] ==> run.schedule.Some? && run.context.storage.Installed?
  {
    match run.schedule
    case None => []
    case Some(s) =>
      match run.context.storage
      case Installed(packages) => Names(filterPackages(FilterInputs(s, run.context, packages)))
      case BackupLocationInAccessible => []
      case StorageLocationNotConfigured => []
  }

  /** The worker and the background task select the same packages from the
    * same schedule, databases, device and filter. */
  lemma SameSelectionAsBackgroundTask(run: RunInput, f: PackageFilter)
    ensures SelectedItems(run, f)
         == ScheduledActionTask.DoInBackground(run.schedule, run.context, f).selectedItems
  {
  }

  // ---------------------------------------------------------------------
  // One pass of processSchedule

  /** The backup job requests for the selected packages. */
  function Works(selected: seq<string>, mode: Int32, notificationId: Int32, batchName: string)
    : (ws: seq<AppActionRequest>)
    ensures |ws| == |selected|
    ensures forall i :: 0 <= i < |ws| ==>
              && ws[i].packageName == selected[i]
              && ws[i].mode == mode
              && ws[i].backupBoolean
              && !ws[i].immediate
              && ws[i].notificationId == notificationId
              && ws[i].batchName == batchName
  {
    seq(|selected|, i requires 0 <= i < |selected| =>
      AppActionRequest(selected[i], mode, true, notificationId, batchName, false))
  }

  /** The result of a pass, the run registry after it, and the platform
    * requests it made. */
  datatype StepOutcome = StepOutcome(ok: bool, registry: Registry, events: seq<PlatformEvent>)

  /** Lines 219-234: claim the schedule in the registry and queue the jobs,
    * or report a late duplicate. When queued, the jobs' updates are folded
    * and every terminal update that brings `finished` to `queued` releases
    * the claim. */
  function QueueStep(m: Registry, id: Int64, works: seq<AppActionRequest>,
                     updates: seq<WorkUpdate>): StepOutcome
  {
    if works != [] then
      var (claimed, m1) := Claim(m, id);
      if claimed then
        StepOutcome(true, if EndTriggers(updates, |works|) > 0 then Release(m1, id) else m1,
                    [EnqueueChain(works)])
      else
        StepOutcome(false, Release(m1, id), [])
    else
      StepOutcome(false, Release(Claim(m, id).1, id), [])
  }

  /** `processSchedule(name, now)` for the worker's id and notification id. */
  function ProcessStep(m: Registry, id: Int64, notificationId: Int32, name: string,
                       run: RunInput, c: Collaborators): StepOutcome
  {
    var selected := SelectedItems(run, c.filterPackages);
    if selected == [] then
      StepOutcome(false, Release(Claim(m, id).1, id), [EmptySelectionNotification(notificationId)])
    else
      var batchName := c.getBatchName(name, run.now);
      var mode := if run.schedule.Some? then run.schedule.value.mode else MODE_UNSET;
      var q := QueueStep(m, id, Works(selected, mode, notificationId, batchName), run.updates);
      StepOutcome(q.ok, q.registry,
                  [CancelNotification(notificationId), BeginBatch(batchName)] + q.events)
  }

  /** An empty selection fails the pass, posts the empty-selection
    * notification, queues nothing and leaves no claim behind. */
  lemma EmptySelectionFails(m: Registry, id: Int64, nid: Int32, name: string,
                            run: RunInput, c: Collaborators)
    requires SelectedItems(run, c.filterPackages) == []
    ensures var o := ProcessStep(m, id, nid, name, run, c);
            !o.ok && o.registry == Release(m, id) && o.events == [EmptySelectionNotification(nid)]
  {
    ClaimThenReleaseLeavesNoMarker(m, id);
  }

  /** A pass succeeds exactly when something is selected and the schedule
    * was not already claimed; it then queues one backup request per selected
    * package, in order, with the schedule's mode. */
  lemma SuccessfulStepQueuesSelection(m: Registry, id: Int64, nid: Int32, name: string,
                                      run: RunInput, c: Collaborators)
    ensures var sel := SelectedItems(run, c.filterPackages);
            var o := ProcessStep(m, id, nid, name, run, c);
            && (o.ok <==> sel != [] && !IsRunning(m, id))
            && (o.ok ==> && run.schedule.Some?
                         && |o.events| == 3
                         && o.events[2].EnqueueChain?
                         && |o.events[2].works| == |sel|
                         && forall i :: 0 <= i < |sel| ==>
                              && o.events[2].works[i].packageName == sel[i]
                              && o.events[2].works[i].mode == run.schedule.value.mode
                              && o.events[2].works[i].backupBoolean)
  {
  }

  /** After a successful pass the schedule stays claimed exactly until its
    * finished count reaches the number of queued jobs. */
  lemma ClaimHeldUntilAllFinished(m: Registry, id: Int64, nid: Int32, name: string,
                                  run: RunInput, c: Collaborators)
    requires ProcessStep(m, id, nid, name, run, c).ok
    ensures IsRunning(ProcessStep(m, id, nid, name, run, c).registry, id)
        <==> Finished(run.updates) < |SelectedItems(run, c.filterPackages)|
  {
    EndTriggersIff(run.updates, |SelectedItems(run, c.filterPackages)|);
  }

  /** A pass that meets a claim it did not make (a late duplicate) fails and
    * removes that claim: the other run's marker is gone afterwards. */
  lemma LateDuplicateRemovesOtherClaim(m: Registry, id: Int64, nid: Int32, name: string,
                                       run: RunInput, c: Collaborators)
    requires IsRunning(m, id)
    ensures var o := ProcessStep(m, id, nid, name, run, c);
            !o.ok && id !in o.registry
  {
  }

  /** A pass touches no other schedule's registry entry. */
  lemma StepTouchesOnlyItsId(m: Registry, id: Int64, nid: Int32, name: string,
                             run: RunInput, c: Collaborators, other: int)
    requires other != id
    ensures var r := ProcessStep(m, id, nid, name, run, c).registry;
            (other in r <==> other in m) && (other in m ==> r[other] == m[other])
  {
  }

  // ---------------------------------------------------------------------
  // The repeat loop of doWork

  /** `repeat(n) { scheduleNext(...); if (!processSchedule(...)) fail }`
    * over the passes' inputs, stopping at the first failed pass. */
  function RepeatOutcome(m: Registry, id: Int64, nid: Int32, name: string,
                         runs: seq<RunInput>, c: Collaborators): StepOutcome
    decreases |runs|
  {
    if runs == [] then StepOutcome(true, m, [])
    else
      var step := ProcessStep(m, id, nid, name, runs[0], c);
      var evs := [ScheduleNext(id, true)] + step.events;
      if !step.ok then StepOutcome(false, step.registry, evs)
      else
        var rest := RepeatOutcome(step.registry, id, nid, name, runs[1..], c);
        StepOutcome(rest.ok, rest.registry, evs + rest.events)
  }

  /** The outcome `o` with the events `evs` made before it. */
  function Prefixed(evs: seq<PlatformEvent>, o: StepOutcome): (r: StepOutcome)
    ensures r.ok == o.ok && r.registry == o.registry
    ensures |r.events| == |evs| + |o.events|
  {
    StepOutcome(o.ok, o.registry, evs + o.events)
  }

  lemma PrefixedTwice(a: seq<PlatformEvent>, b: seq<PlatformEvent>, o: StepOutcome)
    ensures Prefixed(a, Prefixed(b, o)) == Prefixed(a + b, o)
  {
    assert a + (b + o.events) == (a + b) + o.events;
  }

  /** One pass of the repeat loop. */
  lemma RepeatUnfold(m: Registry, id: Int64, nid: Int32, name: string,
                     runs: seq<RunInput>, c: Collaborators)
    requires runs != []
    ensures var step := ProcessStep(m, id, nid, name, runs[0], c);
            var o := RepeatOutcome(m, id, nid, name, runs, c);
            && (!step.ok ==> o == StepOutcome(false, step.registry, [ScheduleNext(id, true)] + step.events))
            && (step.ok ==> o == Prefixed([ScheduleNext(id, true)] + step.events,
                                          RepeatOutcome(step.registry, id, nid, name, runs[1..], c)))
  {
    var step := ProcessStep(m, id, nid, name, runs[0], c);
    if step.ok {
      var rest := RepeatOutcome(step.registry, id, nid, name, runs[1..], c);
      assert ([ScheduleNext(id, true)] + step.events) + rest.events
          == [ScheduleNext(id, true)] + step.events + rest.events;
    }
  }

  /** The loop invariant of the repeat loop carried over pass `i`: the
    * outcome of the whole run is the events so far followed by the outcome
    * of the remaining passes. */
  lemma RepeatAdvance(m0: Registry, mi: Registry, id: Int64, nid: Int32, name: string,
                      runs: seq<RunInput>, i: nat, c: Collaborators, acc: seq<PlatformEvent>)
    requires i < |runs|
    requires RepeatOutcome(m0, id, nid, name, runs, c)
          == Prefixed(acc, RepeatOutcome(mi, id, nid, name, runs[i..], c))
    ensures var step := ProcessStep(mi, id, nid, name, runs[i], c);
            var o := RepeatOutcome(m0, id, nid, name, runs, c);
            && (!step.ok ==> o == StepOutcome(false, step.registry, acc + ([ScheduleNext(id, true)] + step.events)))
            && (step.ok ==> o == Prefixed(acc + ([ScheduleNext(id, true)] + step.events),
                                          RepeatOutcome(step.registry, id, nid, name, runs[i + 1..], c)))
  {
    var step := ProcessStep(mi, id, nid, name, runs[i], c);
    RepeatUnfold(mi, id, nid, name, runs[i..], c);
    assert runs[i..][0] == runs[i] && runs[i..][1..] == runs[i + 1..];
    if step.ok {
      PrefixedTwice(acc, [ScheduleNext(id, true)] + step.events,
                    RepeatOutcome(step.registry, id, nid, name, runs[i + 1..], c));
    }
  }

  /** A failed run never leaves its claim behind. */
  lemma {:induction false} FailedRunLeavesNoClaim(m: Registry, id: Int64, nid: Int32, name: string,
                                                  runs: seq<RunInput>, c: Collaborators)
    requires !RepeatOutcome(m, id, nid, name, runs, c).ok
    ensures id !in RepeatOutcome(m, id, nid, name, runs, c).registry
    decreases |runs|
  {
    var step := ProcessStep(m, id, nid, name, runs[0], c);
    if step.ok {
      FailedRunLeavesNoClaim(step.registry, id, nid, name, runs[1..], c);
    } else {
      StepFailureLeavesNoClaim(m, id, nid, name, runs[0], c);
    }
  }

  /** A failed pass never leaves a claim for its id. */
  lemma StepFailureLeavesNoClaim(m: Registry, id: Int64, nid: Int32, name: string,
                                 run: RunInput, c: Collaborators)
    requires !ProcessStep(m, id, nid, name, run, c).ok
    ensures id !in ProcessStep(m, id, nid, name, run, c).registry
  {
  }

  /** A successful run of at least one pass stays claimed exactly when the
    * last pass's jobs have not all finished. */
  lemma {:induction false} SuccessfulRunClaimedIffLastUnfinished(
    m: Registry, id: Int64, nid: Int32, name: string, runs: seq<RunInput>, c: Collaborators)
    requires runs != []
    requires RepeatOutcome(m, id, nid, name, runs, c).ok
    ensures IsRunning(RepeatOutcome(m, id, nid, name, runs, c).registry, id)
        <==> Finished(runs[|runs| - 1].updates) < |SelectedItems(runs[|runs| - 1], c.filterPackages)|
    decreases |runs|
  {
    var step := ProcessStep(m, id, nid, name, runs[0], c);
    var rest := RepeatOutcome(step.registry, id, nid, name, runs[1..], c);
    assert step.ok;
    assert RepeatOutcome(m, id, nid, name, runs, c).registry == rest.registry;
    if |runs| == 1 {
      assert rest.registry == step.registry;
      ClaimHeldUntilAllFinished(m, id, nid, name, runs[0], c);
    } else {
      assert runs[1..][|runs[1..]| - 1] == runs[|runs| - 1];
      SuccessfulRunClaimedIffLastUnfinished(step.registry, id, nid, name, runs[1..], c);
    }
  }

  /** Every pass of a successful run requests the next periodic run once:
    * the run asks for exactly one `scheduleNext` per pass. */
  lemma {:induction false} SuccessfulRunSchedulesNextPerPass(
    m: Registry, id: Int64, nid: Int32, name: string, runs: seq<RunInput>, c: Collaborators)
    requires RepeatOutcome(m, id, nid, name, runs, c).ok
    ensures CountScheduleNext(RepeatOutcome(m, id, nid, name, runs, c).events) == |runs|
    decreases |runs|
  {
    if runs != [] {
      var step := ProcessStep(m, id, nid, name, runs[0], c);
      var rest := RepeatOutcome(step.registry, id, nid, name, runs[1..], c);
      assert RepeatOutcome(m, id, nid, name, runs, c).events
          == [ScheduleNext(id, true)] + step.events + rest.events;
      SuccessfulRunSchedulesNextPerPass(step.registry, id, nid, name, runs[1..], c);
      StepHasNoScheduleNext(m, id, nid, name, runs[0], c);
      CountScheduleNextAppend([ScheduleNext(id, true)], step.events);
      CountScheduleNextAppend([ScheduleNext(id, true)] + step.events, rest.events);
      assert CountScheduleNext([ScheduleNext(id, true)]) == 1 by {
        assert [ScheduleNext(id, true)][..0] == [];
      }
    }
  }

  function CountScheduleNext(evs: seq<PlatformEvent>): nat
  {
    if evs == [] then 0
    else CountScheduleNext(evs[..|evs| - 1]) + (if evs[|evs| - 1].ScheduleNext? then 1 else 0)
  }

  lemma {:induction false} CountScheduleNextAppend(a: seq<PlatformEvent>, b: seq<PlatformEvent>)
    ensures CountScheduleNext(a + b) == CountScheduleNext(a) + CountScheduleNext(b)
  {
    if b == [] {
      assert a + b == a;
    } else {
      assert (a + b)[..|a + b| - 1] == a + b[..|b| - 1];
      CountScheduleNextAppend(a, b[..|b| - 1]);
    }
  }

  lemma {:induction false} CountScheduleNextNone(evs: seq<PlatformEvent>)
    requires forall e :: e in evs ==> !e.ScheduleNext?
    ensures CountScheduleNext(evs) == 0
  {
    if evs != [] {
      assert forall e :: e in evs[..|evs| - 1] ==> e in evs;
      CountScheduleNextNone(evs[..|evs| - 1]);
    }
  }

  /** A pass itself never requests `scheduleNext`. */
  lemma StepHasNoScheduleNext(m: Registry, id: Int64, nid: Int32, name: string,
                              run: RunInput, c: Collaborators)
    ensures CountScheduleNext(ProcessStep(m, id, nid, name, run, c).events) == 0
  {
    CountScheduleNextNone(ProcessStep(m, id, nid, name, run, c).events);
  }

  /** With the duplicate-testing preference at one, the second pass of a run
    * whose first pass left jobs unfinished is taken for a late duplicate:
    * the run fails and the claim is removed. */
  lemma FakeDuplicateDetectedLate(m: Registry, id: Int64, nid: Int32, name: string,
                                  first: RunInput, second: RunInput, c: Collaborators)
    requires ProcessStep(m, id, nid, name, first, c).ok
    requires Finished(first.updates) < |SelectedItems(first, c.filterPackages)|
    ensures var o := RepeatOutcome(m, id, nid, name, [first, second], c);
            !o.ok && id !in o.registry
  {
    ClaimHeldUntilAllFinished(m, id, nid, name, first, c);
    var step := ProcessStep(m, id, nid, name, first, c);
    assert [first, second][1..] == [second];
    assert [second][1..] == [];
    LateDuplicateRemovesOtherClaim(step.registry, id, nid, name, second, c);
  }

  /** The number of passes `repeat(1 + pref_fakeScheduleDups)` makes: the
    * addition is on 32-bit `Int`, and a non-positive count makes none. */
  function Iterations(fakeScheduleDups: Int32): (n: nat)
    ensures fakeScheduleDups >= 0 && fakeScheduleDups < 0x7fff_ffff ==> n == fakeScheduleDups + 1
    ensures fakeScheduleDups < 0 || fakeScheduleDups == 0x7fff_ffff ==> n == 0
  {
    var count := Wrap32(1 + fakeScheduleDups);
    if count > 0 then count else 0
  }

  // ---------------------------------------------------------------------
  // The companion: enqueuePeriodic, enqueueImmediate, cancel, scheduleAll

  /** The periodic request `enqueuePeriodic` makes for an enabled schedule. */
  function PeriodicRequest(s: Schedule, reschedule: bool, runtimeDiff: Schedule -> (Int64, Int64))
    : PlatformEvent
  {
    EnqueueUniquePeriodic(WorkKey(s.id, true),
                          if reschedule then CancelAndReenqueue else Update,
                          s.interval, runtimeDiff(s).1,
                          "schedule_periodic_" + LongToString(s.id),
                          WorkData(s.id, s.name, true))
  }

  /** `enqueuePeriodic`: nothing for a disabled schedule. */
  function PeriodicEvents(s: Schedule, reschedule: bool, runtimeDiff: Schedule -> (Int64, Int64))
    : (r: seq<PlatformEvent>)
    ensures r == [] <==> !s.enabled
    ensures forall e :: e in r ==> EventKey(e) == Some(WorkKey(s.id, true))
  {
    if s.enabled then [PeriodicRequest(s, reschedule, runtimeDiff)] else []
  }

  /** The one-time request `enqueueImmediate` makes. */
  function ImmediateRequest(s: Schedule): PlatformEvent
  {
    EnqueueUniqueOneTime(WorkKey(s.id, false), Replace,
                         "schedule_" + LongToString(s.id),
                         WorkData(s.id, s.name, false))
  }

  /** Imported and newly built schedules are disabled, so enqueueing them
    * periodically requests nothing. */
  lemma NewSchedulesAreNotEnqueued(current: Schedule, exported: Schedule, item: Schedule,
                                   now: Int64, reschedule: bool, runtimeDiff: Schedule -> (Int64, Int64))
    ensures PeriodicEvents(ImportedCopy(current, exported, now), reschedule, runtimeDiff) == []
    ensures PeriodicEvents(ExportFileCopy(item, now), reschedule, runtimeDiff) == []
    ensures PeriodicEvents(DefaultSchedule(now), reschedule, runtimeDiff) == []
  {
  }

  /** The periodic and the immediate request of one schedule use different
    * unique work names, and so do the requests of two schedules. */
  lemma RequestsKeyedBySchedule(s: Schedule, t: Schedule, runtimeDiff: Schedule -> (Int64, Int64))
    ensures EventKey(PeriodicRequest(s, false, runtimeDiff)) != EventKey(ImmediateRequest(t))
    ensures s.id != t.id ==> EventKey(PeriodicRequest(s, false, runtimeDiff)) != EventKey(PeriodicRequest(t, false, runtimeDiff))
    ensures s.id != t.id ==> EventKey(ImmediateRequest(s)) != EventKey(ImmediateRequest(t))
  {
    if WorkKey(s.id, true) == WorkKey(t.id, false) {
      WorkKeyInjective(s.id, true, t.id, false);
    }
    if WorkKey(s.id, true) == WorkKey(t.id, true) {
      WorkKeyInjective(s.id, true, t.id, true);
    }
    if WorkKey(s.id, false) == WorkKey(t.id, false) {
      WorkKeyInjective(s.id, false, t.id, false);
    }
  }

  datatype Decision = Ignore | Enable | Disable

  /** The `when` of `scheduleAll`, against the companion registry. */
  function Decide(companion: Registry, s: Schedule): (d: Decision)
    ensures d == Ignore <==> IsRunning(companion, s.id)
    ensures d == Enable <==> !IsRunning(companion, s.id) && s.enabled
    ensures d == Disable <==> !IsRunning(companion, s.id) && !s.enabled
  {
    if IsRunning(companion, s.id) then Ignore
    else if s.enabled then Enable
    else Disable
  }

  function DecisionEvents(d: Decision, s: Schedule, runtimeDiff: Schedule -> (Int64, Int64))
    : (r: seq<PlatformEvent>)
    ensures forall e :: e in r ==> EventKey(e) == Some(WorkKey(s.id, true))
  {
    match d
    case Ignore => []
    case Enable => PeriodicEvents(s, false, runtimeDiff)
    case Disable => [CancelUniqueWork(WorkKey(s.id, true))]
  }

  /** The requests `scheduleAll` makes for the stored schedules, in order. */
  function ScheduleAllEvents(companion: Registry, ss: seq<Schedule>,
                             runtimeDiff: Schedule -> (Int64, Int64)): seq<PlatformEvent>
  {
    if ss == [] then []
    else
      var s := ss[|ss| - 1];
      ScheduleAllEvents(companion, ss[..|ss| - 1], runtimeDiff) + DecisionEvents(Decide(companion, s), s, runtimeDiff)
  }

  /** One more schedule appends its own decision's requests. */
  lemma ScheduleAllEventsStep(companion: Registry, ss: seq<Schedule>,
                              runtimeDiff: Schedule -> (Int64, Int64), i: nat)
    requires i < |ss|
    ensures ScheduleAllEvents(companion, ss[..i + 1], runtimeDiff)
         == ScheduleAllEvents(companion, ss[..i], runtimeDiff)
            + DecisionEvents(Decide(companion, ss[i]), ss[i], runtimeDiff)
  {
    assert ss[..i + 1][..i] == ss[..i];
  }

  /** The ignore branch of `scheduleAll` cannot fire while the companion
    * registry holds no `true` entry. */
  lemma NoneRunningNeverIgnores(companion: Registry, s: Schedule)
    requires NoneRunning(companion)
    ensures Decide(companion, s) != Ignore
  {
  }

  /** A schedule's decision makes no request under another schedule's name. */
  lemma DecisionEventsOtherKey(d: Decision, s: Schedule, runtimeDiff: Schedule -> (Int64, Int64), id: int)
    requires s.id != id
    ensures EventsFor(DecisionEvents(d, s, runtimeDiff), WorkKey(id, true)) == []
  {
    var r := EventsFor(DecisionEvents(d, s, runtimeDiff), WorkKey(id, true));
    if r != [] {
      var e := r[0];
      assert e in r;
      assert e in DecisionEvents(d, s, runtimeDiff);
      WorkKeyInjective(s.id, true, id, true);
    }
  }

  lemma {:induction false} NoEventsForAbsentSchedule(companion: Registry, ss: seq<Schedule>,
                                                     runtimeDiff: Schedule -> (Int64, Int64), id: int)
    requires forall j :: 0 <= j < |ss| ==> ss[j].id != id
    ensures EventsFor(ScheduleAllEvents(companion, ss, runtimeDiff), WorkKey(id, true)) == []
  {
    if ss != [] {
      var s := ss[|ss| - 1];
      var init := ss[..|ss| - 1];
      NoEventsForAbsentSchedule(companion, init, runtimeDiff, id);
      var evs := DecisionEvents(Decide(companion, s), s, runtimeDiff);
      EventsForAppend(ScheduleAllEvents(companion, init, runtimeDiff), evs, WorkKey(id, true));
      DecisionEventsOtherKey(Decide(companion, s), s, runtimeDiff, id);
    }
  }

  /** The requests under `key` are those for all but the last schedule,
    * followed by the last schedule's. */
  lemma ScheduleAllEventsFor(companion: Registry, ss: seq<Schedule>,
                             runtimeDiff: Schedule -> (Int64, Int64), key: string)
    requires ss != []
    ensures EventsFor(ScheduleAllEvents(companion, ss, runtimeDiff), key)
         == EventsFor(ScheduleAllEvents(companion, ss[..|ss| - 1], runtimeDiff), key)
          + EventsFor(DecisionEvents(Decide(companion, ss[|ss| - 1]), ss[|ss| - 1], runtimeDiff), key)
  {
    var s := ss[|ss| - 1];
    EventsForAppend(ScheduleAllEvents(companion, ss[..|ss| - 1], runtimeDiff),
                    DecisionEvents(Decide(companion, s), s, runtimeDiff), key);
  }

  /** Distinct ids stay distinct without the last schedule. */
  lemma DistinctIdsInit(ss: seq<Schedule>, init: seq<Schedule>)
    requires ss != [] && init == ss[..|ss| - 1]
    requires forall j, k :: 0 <= j < k < |ss| ==> ss[j].id != ss[k].id
    ensures forall j, k :: 0 <= j < k < |init| ==> init[j].id != init[k].id
  {
    forall j, k | 0 <= j < k < |init|
      ensures init[j].id != init[k].id
    {
      assert init[j] == ss[j] && init[k] == ss[k];
    }
  }

  /** The last schedule's requests, when its id occurs nowhere before. */
  lemma LastScheduleEvents(companion: Registry, ss: seq<Schedule>, runtimeDiff: Schedule -> (Int64, Int64))
    requires ss != []
    requires forall j :: 0 <= j < |ss| - 1 ==> ss[j].id != ss[|ss| - 1].id
    ensures EventsFor(ScheduleAllEvents(companion, ss, runtimeDiff), WorkKey(ss[|ss| - 1].id, true))
         == DecisionEvents(Decide(companion, ss[|ss| - 1]), ss[|ss| - 1], runtimeDiff)
  {
    var s := ss[|ss| - 1];
    var init := ss[..|ss| - 1];
    var key := WorkKey(s.id, true);
    ScheduleAllEventsFor(companion, ss, runtimeDiff, key);
    assert forall j :: 0 <= j < |init| ==> init[j].id != s.id by {
      forall j | 0 <= j < |init|
        ensures init[j].id != s.id
      {
        assert init[j] == ss[j];
      }
    }
    NoEventsForAbsentSchedule(companion, init, runtimeDiff, s.id);
    EventsForAll(DecisionEvents(Decide(companion, s), s, runtimeDiff), key);
  }

  /** The last schedule makes no request under another schedule's name. */
  lemma EarlierScheduleEvents(companion: Registry, ss: seq<Schedule>,
                              runtimeDiff: Schedule -> (Int64, Int64), id: int)
    requires ss != [] && ss[|ss| - 1].id != id
    ensures EventsFor(ScheduleAllEvents(companion, ss, runtimeDiff), WorkKey(id, true))
         == EventsFor(ScheduleAllEvents(companion, ss[..|ss| - 1], runtimeDiff), WorkKey(id, true))
  {
    var s := ss[|ss| - 1];
    ScheduleAllEventsFor(companion, ss, runtimeDiff, WorkKey(id, true));
    DecisionEventsOtherKey(Decide(companion, s), s, runtimeDiff, id);
  }

  /** With distinct ids, the requests `scheduleAll` makes under one
    * schedule's periodic work name are exactly that schedule's own: nothing
    * when it is running, its periodic request when it is enabled (with the
    * UPDATE policy) and a cancellation otherwise. */
  lemma {:induction false} ScheduleAllPerSchedule(companion: Registry, ss: seq<Schedule>,
                                                  runtimeDiff: Schedule -> (Int64, Int64), i: nat)
    requires forall j, k :: 0 <= j < k < |ss| ==> ss[j].id != ss[k].id
    requires i < |ss|
    ensures EventsFor(ScheduleAllEvents(companion, ss, runtimeDiff), WorkKey(ss[i].id, true))
         == DecisionEvents(Decide(companion, ss[i]), ss[i], runtimeDiff)
  {
    if i == |ss| - 1 {
      LastScheduleEvents(companion, ss, runtimeDiff);
    } else {
      var init := ss[..|ss| - 1];
      assert init[i] == ss[i];
      DistinctIdsInit(ss, init);
      EarlierScheduleEvents(companion, ss, runtimeDiff, ss[i].id);
      ScheduleAllPerSchedule(companion, init, runtimeDiff, i);
    }
  }

  lemma {:induction false} EventsForAll(evs: seq<PlatformEvent>, key: string)
    requires forall e :: e in evs ==> EventKey(e) == Some(key)
    ensures EventsFor(evs, key) == evs
  {
    if evs != [] {
      var init := evs[..|evs| - 1];
      var last := evs[|evs| - 1];
      assert last in evs;
      assert forall e :: e in init ==> EventKey(e) == Some(key) by {
        forall e | e in init
          ensures EventKey(e) == Some(key)
        {
          assert e in evs;
        }
      }
      EventsForAll(init, key);
      assert evs == init + [last];
    }
  }
}
