/** The schedule worker and the process-wide state it works on: the
  * companion's private run registry, the application-wide run registry,
  * the wake lock and the requests made to the platform. Each method is
  * proved against the functions of module ScheduleWorkSpec. */
module ScheduleWorker {
  import opened Values
  import opened ScheduleEntity
  import opened WorkResults
  import opened RunRegistry
  import opened Platform
  import opened ScheduleWorkSpec

  /** Process-wide state: `companionRunning` is `ScheduleWork`'s private
    * `runningSchedules`, `oabxRunning` is `OABX.runningSchedules`; `log`
    * records every request made to the job scheduler and the notification
    * service. The companion object's functions are its methods. */
  class Runtime {
    var companionRunning: Registry
    var oabxRunning: Registry
    var wakelockHeld: bool
    var log: seq<PlatformEvent>

    constructor()
      ensures companionRunning == map[] && oabxRunning == map[]
      ensures !wakelockHeld && log == []
    {
      companionRunning := map[];
      oabxRunning := map[];
      wakelockHeld := false;
      log := [];
    }

    /** `enqueuePeriodic(context, schedule, reschedule)`. */
    method EnqueuePeriodic(s: Schedule, reschedule: bool, runtimeDiff: Schedule -> (Int64, Int64))
      modifies this`log
      ensures log == old(log) + PeriodicEvents(s, reschedule, runtimeDiff)
    {
      if !s.enabled {
        return;
      }
      log := log + [PeriodicRequest(s, reschedule, runtimeDiff)];
    }

    /** `enqueueImmediate(context, schedule)`. */
    method EnqueueImmediate(s: Schedule)
      modifies this`log
      ensures log == old(log) + [ImmediateRequest(s)]
    {
      log := log + [ImmediateRequest(s)];
    }

    /** `cancel(context, scheduleId, periodic)`. */
    method Cancel(scheduleId: Int64, periodic: bool)
      modifies this`log
      ensures log == old(log) + [CancelUniqueWork(WorkKey(scheduleId, periodic))]
    {
      log := log + [CancelUniqueWork(WorkKey(scheduleId, periodic))];
    }

    /** `scheduleAll(context)` over the stored schedules `ss`, run to
      * completion. */
    method ScheduleAll(ss: seq<Schedule>, runtimeDiff: Schedule -> (Int64, Int64))
      modifies this`log
      ensures log == old(log) + ScheduleAllEvents(companionRunning, ss, runtimeDiff)
    {
      var i := 0;
      while i < |ss|
        invariant 0 <= i <= |ss|
        invariant log == old(log) + ScheduleAllEvents(companionRunning, ss[..i], runtimeDiff)
      {
        var s := ss[i];
        ghost var done := ScheduleAllEvents(companionRunning, ss[..i], runtimeDiff);
        ghost var before := log;
        if IsRunning(companionRunning, s.id) {
          // ignored: already running
        } else if s.enabled {
          EnqueuePeriodic(s, false, runtimeDiff);
        } else {
          Cancel(s.id, true);
        }
        ghost var d := DecisionEvents(Decide(companionRunning, s), s, runtimeDiff);
        assert log == (old(log) + done) + d;
        AppendAssociates3(old(log), done, d);
        ScheduleAllEventsStep(companionRunning, ss, runtimeDiff, i);
        i := i + 1;
      }
      assert ss[..|ss|] == ss;
    }
  }

  /** Regrouping of the request log, stated apart so that the loops of
    * `ScheduleAll` and `RepeatPasses` do not prove it among their other facts. */
  lemma AppendAssociates3(a: seq<PlatformEvent>, b: seq<PlatformEvent>, c: seq<PlatformEvent>)
    ensures (a + b) + c == a + (b + c)
  {
  }

  lemma AppendAssociates(a: seq<PlatformEvent>, b: seq<PlatformEvent>,
                         c: seq<PlatformEvent>, d: seq<PlatformEvent>)
    ensures ((a + b) + c) + d == a + (b + (c + d))
  {
  }

  /** One execution of the schedule worker for the input data it was
    * enqueued with. */
  class ScheduleWork {
    const rt: Runtime
    const inputScheduleId: Option<Int64>   // EXTRA_SCHEDULE_ID, if present
    const inputName: Option<string>        // EXTRA_NAME, if present
    const notificationId: Int32
    var scheduleId: Int64

    /** The worker as constructed at clock value `now`. */
    constructor(rt: Runtime, inputScheduleId: Option<Int64>, inputName: Option<string>, now: Int64)
      ensures this.rt == rt && this.inputScheduleId == inputScheduleId && this.inputName == inputName
      ensures scheduleId == inputScheduleId.GetOr(-1)
      ensures notificationId == Wrap32(now)
    {
      this.rt := rt;
      this.inputScheduleId := inputScheduleId;
      this.inputName := inputName;
      notificationId := Wrap32(now);
      scheduleId := inputScheduleId.GetOr(-1);
    }

    /** `beginSchedule(name, details)`. */
    method BeginSchedule(name: string) returns (began: bool)
      modifies rt`oabxRunning
      ensures (began, rt.oabxRunning) == Claim(old(rt.oabxRunning), scheduleId)
    {
      if !IsRunning(rt.oabxRunning, scheduleId) {
        rt.oabxRunning := rt.oabxRunning[scheduleId := true];
        began := true;
      } else {
        began := false;
      }
    }

    /** `endSchedule(name, details)`. */
    method EndSchedule(name: string)
      modifies rt`oabxRunning
      ensures rt.oabxRunning == Release(old(rt.oabxRunning), scheduleId)
    {
      if scheduleId in rt.oabxRunning {
        rt.oabxRunning := rt.oabxRunning - {scheduleId};
      }
    }

    /** `handleEmptySelectedItems(name)`. */
    method HandleEmptySelectedItems(name: string)
      modifies rt`oabxRunning, rt`log
      ensures rt.oabxRunning == Release(Claim(old(rt.oabxRunning), scheduleId).1, scheduleId)
      ensures rt.log == old(rt.log) + [EmptySelectionNotification(notificationId)]
    {
      var _ := BeginSchedule(name);
      EndSchedule(name);
      rt.log := rt.log + [EmptySelectionNotification(notificationId)];
    }

    /** The requests built for the selected packages (`worksList`). */
    method BuildWorks(selected: seq<string>, mode: Int32, batchName: string)
      returns (works: seq<AppActionRequest>)
      ensures works == Works(selected, mode, notificationId, batchName)
    {
      works := [];
      var i := 0;
      while i < |selected|
        invariant 0 <= i <= |selected|
        invariant works == Works(selected[..i], mode, notificationId, batchName)
      {
        works := works + [AppActionRequest(selected[i], mode, true, notificationId, batchName, false)];
        i := i + 1;
      }
      assert selected[..|selected|] == selected;
    }

    /** The collectors of the queued jobs, over the updates they deliver in
      * order: count, report and combine the terminal ones, and end the
      * schedule whenever the count reaches `queued`. */
    method CollectResults(name: string, updates: seq<WorkUpdate>, queued: nat,
                          handle: string -> string)
      returns (finished: nat, errors: string, resultsSuccess: bool)
      modifies rt`oabxRunning
      ensures finished == Finished(updates)
      ensures errors == ErrorReport(updates, handle)
      ensures resultsSuccess == AllSucceeded(updates)
      ensures rt.oabxRunning
           == if EndTriggers(updates, queued) > 0 then Release(old(rt.oabxRunning), scheduleId)
              else old(rt.oabxRunning)
    {
      finished, errors, resultsSuccess := 0, "", true;
      var i := 0;
      while i < |updates|
        invariant 0 <= i <= |updates|
        invariant finished == Finished(updates[..i])
        invariant errors == ErrorReport(updates[..i], handle)
        invariant resultsSuccess == AllSucceeded(updates[..i])
        invariant rt.oabxRunning
               == if EndTriggers(updates[..i], queued) > 0 then Release(old(rt.oabxRunning), scheduleId)
                  else old(rt.oabxRunning)
      {
        var u := updates[i];
        assert updates[..i + 1][..i] == updates[..i];
        assert updates[..i + 1][i] == u;
        if IsTerminal(u) {
          finished := finished + 1;
          var succeeded := SucceededOf(u);
          var packageLabel := LabelOf(u);
          var error := ErrorOf(u);
          if error != "" {
            errors := errors + packageLabel + ": " + handle(error) + "\n";
          }
          resultsSuccess := resultsSuccess && succeeded;
          if finished >= queued {
            EndSchedule(name);
          }
        }
        i := i + 1;
      }
      assert updates[..|updates|] == updates;
    }

    /** Lines 219-234: queue the requests unless a run of this schedule is
      * already under way, then wait for their results. */
    method QueueAndAwait(name: string, works: seq<AppActionRequest>, updates: seq<WorkUpdate>,
                         handle: string -> string)
      returns (ok: bool)
      modifies rt`oabxRunning, rt`log
      ensures var q := QueueStep(old(rt.oabxRunning), scheduleId, works, updates);
              ok == q.ok && rt.oabxRunning == q.registry && rt.log == old(rt.log) + q.events
    {
      if works != [] {
        var began := BeginSchedule(name);
        if began {
          rt.log := rt.log + [EnqueueChain(works)];
          var _, _, _ := CollectResults(name, updates, |works|, handle);
          ok := true;
        } else {
          EndSchedule(name);
          ok := false;
        }
      } else {
        var _ := BeginSchedule(name);
        EndSchedule(name);
        ok := false;
      }
    }

    /** `processSchedule(name, now)`; the pass's schedule row, device state
      * and job updates arrive in `run`. */
    method ProcessSchedule(name: string, run: RunInput, c: Collaborators) returns (ok: bool)
      modifies rt`oabxRunning, rt`log
      ensures var o := ProcessStep(old(rt.oabxRunning), scheduleId, notificationId, name, run, c);
              ok == o.ok && rt.oabxRunning == o.registry && rt.log == old(rt.log) + o.events
    {
      var selectedItems := SelectedItems(run, c.filterPackages);
      if selectedItems == [] {
        HandleEmptySelectedItems(name);
        return false;
      }
      rt.log := rt.log + [CancelNotification(notificationId)];
      var batchName := c.getBatchName(name, run.now);
      rt.log := rt.log + [BeginBatch(batchName)];
      var mode := if run.schedule.Some? then run.schedule.value.mode else MODE_UNSET;
      var worksList := BuildWorks(selectedItems, mode, batchName);
      ghost var before := rt.log;
      ok := QueueAndAwait(name, worksList, run.updates, c.handleErrorMessages);
      assert rt.log == old(rt.log) + [CancelNotification(notificationId), BeginBatch(batchName)]
                       + (rt.log[|before|..]);
    }

    /** `doWork()`: `runs` holds the inputs of the passes the repeat loop
      * makes, `fakeScheduleDups` the preference that adds passes. */
    method DoWork(runs: seq<RunInput>, fakeScheduleDups: Int32, c: Collaborators)
      returns (r: WorkerResult)
      requires |runs| == Iterations(fakeScheduleDups)
      modifies this`scheduleId, rt`companionRunning, rt`oabxRunning, rt`wakelockHeld, rt`log
      ensures !rt.wakelockHeld
      ensures scheduleId == inputScheduleId.GetOr(-1)
      ensures scheduleId < 0 || IsRunning(old(rt.companionRunning), scheduleId) ==>
                && r == Failure
                && rt.companionRunning == old(rt.companionRunning)
                && rt.oabxRunning == old(rt.oabxRunning)
                && rt.log == old(rt.log)
      ensures scheduleId >= 0 && !IsRunning(old(rt.companionRunning), scheduleId) ==>
                var o := RepeatOutcome(old(rt.oabxRunning), scheduleId, notificationId,
                                       inputName.GetOr(""), runs, c);
                && r == (if o.ok then Success else Failure)
                && rt.companionRunning == old(rt.companionRunning)[scheduleId := false]
                && rt.oabxRunning == o.registry
                && rt.log == old(rt.log) + o.events
      ensures NoneRunning(old(rt.companionRunning)) ==> NoneRunning(rt.companionRunning)
    {
      scheduleId := inputScheduleId.GetOr(-1);
      var name := inputName.GetOr("");
      rt.wakelockHeld := true;
      if scheduleId < 0 {
        rt.wakelockHeld := false;
        return Failure;
      }
      if IsRunning(rt.companionRunning, scheduleId) {
        rt.wakelockHeld := false;
        return Failure;
      }
      if NoneRunning(rt.companionRunning) {
        MarkFalseKeepsNoneRunning(rt.companionRunning, scheduleId);
      }
      rt.companionRunning := rt.companionRunning[scheduleId := false];

      var ok := RepeatPasses(name, runs, c);
      rt.wakelockHeld := false;
      return if ok then Success else Failure;
    }

    /** The repeat loop of `doWork`: before each pass request the next
      * periodic run, and stop at the first pass that fails. */
    method RepeatPasses(name: string, runs: seq<RunInput>, c: Collaborators) returns (ok: bool)
      modifies rt`oabxRunning, rt`log
      ensures var o := RepeatOutcome(old(rt.oabxRunning), scheduleId, notificationId, name, runs, c);
              ok == o.ok && rt.oabxRunning == o.registry && rt.log == old(rt.log) + o.events
    {
      ghost var acc: seq<PlatformEvent> := [];
      var i := 0;
      while i < |runs|
        invariant 0 <= i <= |runs|
        invariant rt.log == old(rt.log) + acc
        invariant RepeatOutcome(old(rt.oabxRunning), scheduleId, notificationId, name, runs, c)
               == Prefixed(acc, RepeatOutcome(rt.oabxRunning, scheduleId, notificationId, name, runs[i..], c))
      {
        ghost var mi := rt.oabxRunning;
        rt.log := rt.log + [ScheduleNext(scheduleId, true)];
        ghost var beforePass := rt.log;
        var passed := ProcessSchedule(name, runs[i], c);
        ghost var step := ProcessStep(mi, scheduleId, notificationId, name, runs[i], c);
        assert rt.log == beforePass + step.events;
        AppendAssociates(old(rt.log), acc, [ScheduleNext(scheduleId, true)], step.events);
        RepeatAdvance(old(rt.oabxRunning), mi, scheduleId, notificationId, name, runs, i, c, acc);
        acc := acc + ([ScheduleNext(scheduleId, true)] + step.events);
        if !passed {
          return false;
        }
        i := i + 1;
      }
      assert runs[|runs|..] == [];
      assert acc + [] == acc;
      return true;
    }
  }
}
