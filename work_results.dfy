/** How a schedule run folds the terminal states of its per-package backup
  * jobs into a finished count, an overall success flag and an error report.
  * The updates of all jobs arrive as one sequence, in delivery order. */
module WorkResults {
  import opened Values

  datatype WorkState = Enqueued | Running | Succeeded | Failed | Blocked | Cancelled

  /** The output keys a backup job reports; each may be missing. */
  datatype OutputData = OutputData(
    succeeded: Option<bool>,
    packageLabel: Option<string>,
    error: Option<string>)

  datatype WorkInfo = WorkInfo(state: WorkState, outputData: OutputData)

  /** One value of a job's work-info flow; it may be null. */
  type WorkUpdate = Option<WorkInfo>

  /** SUCCEEDED, FAILED and CANCELLED end a job; every other state, and a
    * null update, is ignored. */
  predicate IsTerminal(u: WorkUpdate)
  {
    u.Some? && u.value.state in {Succeeded, Failed, Cancelled}
  }

  /** `getBoolean("succeeded", false)`. */
  function SucceededOf(u: WorkUpdate): bool
    requires u.Some?
  {
    u.value.outputData.succeeded.GetOr(false)
  }

  /** `getString("packageLabel") ?: ""`. */
  function LabelOf(u: WorkUpdate): string
    requires u.Some?
  {
    u.value.outputData.packageLabel.GetOr("")
  }

  /** `getString("error") ?: ""`. */
  function ErrorOf(u: WorkUpdate): string
    requires u.Some?
  {
    u.value.outputData.error.GetOr("")
  }

  /** The line a terminal update with a non-empty error adds: the label, a
    * colon and the translated error message (the translation,
    * `handleErrorMessages`, is a parameter). */
  function ErrorLine(u: WorkUpdate, handle: string -> string): string
    requires u.Some?
  {
    if ErrorOf(u) != "" then LabelOf(u) + ": " + handle(ErrorOf(u)) + "\n" else ""
  }

  /** The value of `finished` after the updates. */
  function Finished(us: seq<WorkUpdate>): nat
  {
    if us == [] then 0
    else Finished(us[..|us| - 1]) + (if IsTerminal(us[|us| - 1]) then 1 else 0)
  }

  /** The value of `resultsSuccess` after the updates. */
  function AllSucceeded(us: seq<WorkUpdate>): bool
  {
    if us == [] then true
    else AllSucceeded(us[..|us| - 1]) && (!IsTerminal(us[|us| - 1]) || SucceededOf(us[|us| - 1]))
  }

  /** The value of `errors` after the updates. */
  function ErrorReport(us: seq<WorkUpdate>, handle: string -> string): string
  {
    if us == [] then ""
    else
      var u := us[|us| - 1];
      ErrorReport(us[..|us| - 1], handle) + (if IsTerminal(u) then ErrorLine(u, handle) else "")
  }

  /** How many times the updates call `endSchedule`: once for every terminal
    * update after which `finished >= queued`. */
  function EndTriggers(us: seq<WorkUpdate>, queued: nat): nat
  {
    if us == [] then 0
    else EndTriggers(us[..|us| - 1], queued)
         + (if IsTerminal(us[|us| - 1]) && Finished(us) >= queued then 1 else 0)
  }

  /** Only terminal updates change anything; a terminal update adds one to
    * `finished`, ANDs its flag into the success and adds exactly one line to
    * the report when its error is non-empty and none otherwise. */
  lemma UpdateStep(us: seq<WorkUpdate>, u: WorkUpdate, handle: string -> string)
    ensures Finished(us + [u]) == Finished(us) + (if IsTerminal(u) then 1 else 0)
    ensures AllSucceeded(us + [u]) == (AllSucceeded(us) && (IsTerminal(u) ==> SucceededOf(u)))
    ensures ErrorReport(us + [u], handle)
         == ErrorReport(us, handle)
            + (if IsTerminal(u) && ErrorOf(u) != "" then LabelOf(u) + ": " + handle(ErrorOf(u)) + "\n" else "")
  {
    assert (us + [u])[..|us|] == us;
  }

  lemma {:induction false} FinishedAppend(a: seq<WorkUpdate>, b: seq<WorkUpdate>)
    ensures Finished(a + b) == Finished(a) + Finished(b)
  {
    if b == [] {
      assert a + b == a;
    } else {
      assert (a + b)[..|a + b| - 1] == a + b[..|b| - 1];
      FinishedAppend(a, b[..|b| - 1]);
    }
  }

  /** The finished count does not depend on the order in which the jobs
    * complete. */
  lemma FinishedOrderIndependent(a: seq<WorkUpdate>, b: seq<WorkUpdate>)
    ensures Finished(a + b) == Finished(b + a)
  {
    FinishedAppend(a, b);
    FinishedAppend(b, a);
  }

  /** `finished` never exceeds the number of updates delivered. */
  lemma {:induction false} FinishedAtMostUpdates(us: seq<WorkUpdate>)
    ensures Finished(us) <= |us|
  {
    if us != [] {
      FinishedAtMostUpdates(us[..|us| - 1]);
    }
  }

  /** A terminal update delivered twice is counted twice: the count is not
    * idempotent under repeated terminal notifications. */
  lemma RepeatedTerminalCountedTwice(us: seq<WorkUpdate>, u: WorkUpdate)
    requires IsTerminal(u)
    ensures Finished(us + [u, u]) == Finished(us) + 2
  {
    FinishedAppend(us, [u, u]);
    assert [u, u][..1] == [u];
    assert [u][..0] == [];
    assert Finished([u]) == 1;
  }

  /** The overall success is the conjunction of the `succeeded` flags of all
    * terminal updates. */
  lemma {:induction false} AllSucceededIff(us: seq<WorkUpdate>)
    ensures AllSucceeded(us)
        <==> forall i :: 0 <= i < |us| && IsTerminal(us[i]) ==> SucceededOf(us[i])
  {
    if us != [] {
      var init := us[..|us| - 1];
      AllSucceededIff(init);
      assert forall i :: 0 <= i < |init| ==> init[i] == us[i];
    }
  }

  /** The overall success does not depend on completion order either. */
  lemma AllSucceededOrderIndependent(a: seq<WorkUpdate>, b: seq<WorkUpdate>)
    ensures AllSucceeded(a + b) == AllSucceeded(b + a)
  {
    AllSucceededIff(a + b);
    AllSucceededIff(b + a);
    AllSucceededIff(a);
    AllSucceededIff(b);
    assert forall i :: 0 <= i < |a| ==> (a + b)[i] == a[i] && (b + a)[|b| + i] == a[i];
    assert forall i :: 0 <= i < |b| ==> (b + a)[i] == b[i] && (a + b)[|a| + i] == b[i];
  }

  /** The report is empty exactly when no terminal update carried an error. */
  lemma {:induction false} ErrorReportEmptyIff(us: seq<WorkUpdate>, handle: string -> string)
    ensures ErrorReport(us, handle) == ""
        <==> forall i :: 0 <= i < |us| && IsTerminal(us[i]) ==> ErrorOf(us[i]) == ""
  {
    if us != [] {
      var init := us[..|us| - 1];
      ErrorReportEmptyIff(init, handle);
      assert forall i :: 0 <= i < |init| ==> init[i] == us[i];
    }
  }

  /** `endSchedule` is called at least once exactly when the finished count
    * reaches the queued count (and some job finished at all). */
  lemma {:induction false} EndTriggersIff(us: seq<WorkUpdate>, queued: nat)
    ensures EndTriggers(us, queued) > 0 <==> Finished(us) >= queued && Finished(us) > 0
  {
    if us != [] {
      EndTriggersIff(us[..|us| - 1], queued);
    }
  }

  /** Three jobs, the second of which fails with an error: the run is not
    * successful and the report names the failing package exactly once. */
  lemma ThreeJobsOneFailure(l1: string, l2: string, l3: string, err: string,
                            handle: string -> string)
    requires err != ""
    ensures var us := [Some(WorkInfo(Succeeded, OutputData(Some(true), Some(l1), None))),
                       Some(WorkInfo(Failed, OutputData(Some(false), Some(l2), Some(err)))),
                       Some(WorkInfo(Succeeded, OutputData(Some(true), Some(l3), None)))];
            Finished(us) == 3 && !AllSucceeded(us)
            && ErrorReport(us, handle) == l2 + ": " + handle(err) + "\n"
  {
    var u1 := Some(WorkInfo(Succeeded, OutputData(Some(true), Some(l1), None)));
    var u2 := Some(WorkInfo(Failed, OutputData(Some(false), Some(l2), Some(err))));
    var u3 := Some(WorkInfo(Succeeded, OutputData(Some(true), Some(l3), None)));
    UpdateStep([], u1, handle);
    assert [] + [u1] == [u1];
    UpdateStep([u1], u2, handle);
    assert [u1] + [u2] == [u1, u2];
    UpdateStep([u1, u2], u3, handle);
    assert [u1, u2] + [u3] == [u1, u2, u3];
  }
}
