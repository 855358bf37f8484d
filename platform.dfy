/** What the schedule worker asks of the job scheduler and the notification
  * service, recorded as events; and the unique work names it uses. */
module Platform {
  import opened Values

  const SCHEDULE_WORK: string := "schedule_work_"
  const SCHEDULE_ONETIME: string := "schedule_one_time_"

  /** `"$SCHEDULE_WORK$id"` for the periodic work, `"$SCHEDULE_ONETIME$id"`
    * for the one-time work. */
  function WorkKey(scheduleId: int, periodic: bool): (k: string)
    ensures |k| > (if periodic then |SCHEDULE_WORK| else |SCHEDULE_ONETIME|)
    ensures periodic ==> k[..|SCHEDULE_WORK|] == SCHEDULE_WORK
    ensures !periodic ==> k[..|SCHEDULE_ONETIME|] == SCHEDULE_ONETIME
  {
    (if periodic then SCHEDULE_WORK else SCHEDULE_ONETIME) + LongToString(scheduleId)
  }

  /** The prefix a work name starts with. */
  function KeyPrefix(periodic: bool): string
  {
    if periodic then SCHEDULE_WORK else SCHEDULE_ONETIME
  }

  /** The tenth character tells the two prefixes apart, and the id's digits
    * follow the prefix. */
  lemma WorkKeyParts(id: int, periodic: bool)
    ensures WorkKey(id, periodic)[9] == (if periodic then 'w' else 'o')
    ensures WorkKey(id, periodic)[|KeyPrefix(periodic)|..] == LongToString(id)
  {
    var p := KeyPrefix(periodic);
    assert WorkKey(id, periodic) == p + LongToString(id);
    assert p[9] == (if periodic then 'w' else 'o');
  }

  /** Distinct schedules, and the periodic and one-time work of one schedule,
    * never share a unique work name. */
  lemma WorkKeyInjective(a: int, pa: bool, b: int, pb: bool)
    requires WorkKey(a, pa) == WorkKey(b, pb)
    ensures a == b && pa == pb
  {
    WorkKeyParts(a, pa);
    WorkKeyParts(b, pb);
    LongToStringInjective(a, b);
  }

  /** `ExistingPeriodicWorkPolicy` and `ExistingWorkPolicy` values in use. */
  datatype ExistingPolicy = CancelAndReenqueue | Update | Replace

  /** The input data of a schedule work request. */
  datatype WorkData = WorkData(scheduleId: Int64, name: string, periodic: bool)

  /** `AppActionWork.Request(...)`: one backup job for one package. */
  datatype AppActionRequest = AppActionRequest(
    packageName: string,
    mode: Int32,
    backupBoolean: bool,
    notificationId: Int32,
    batchName: string,
    immediate: bool)

  datatype PlatformEvent =
    | EnqueueUniquePeriodic(uniqueName: string, policy: ExistingPolicy, intervalDays: Int32,
                            initialDelayMillis: Int64, tag: string, input: WorkData)
    | EnqueueUniqueOneTime(uniqueName: string, policy: ExistingPolicy, tag: string, input: WorkData)
    | CancelUniqueWork(uniqueName: string)
    | ScheduleNext(scheduleId: Int64, rescheduleBoolean: bool)
    | CancelNotification(notificationId: Int32)
    | BeginBatch(batchName: string)
    | EnqueueChain(works: seq<AppActionRequest>)
    | EmptySelectionNotification(notificationId: Int32)

  /** The unique work name an event is about, if any. */
  function EventKey(e: PlatformEvent): Option<string>
  {
    match e
    case EnqueueUniquePeriodic(k, _, _, _, _, _) => Some(k)
    case EnqueueUniqueOneTime(k, _, _, _) => Some(k)
    case CancelUniqueWork(k) => Some(k)
    case _ => None
  }

  /** The events about unique work `key`, in order. */
  function EventsFor(evs: seq<PlatformEvent>, key: string): (r: seq<PlatformEvent>)
    ensures forall e :: e in r <==> e in evs && EventKey(e) == Some(key)
  {
    if evs == [] then []
    else
      var rest := EventsFor(evs[..|evs| - 1], key);
      var e := evs[|evs| - 1];
      assert forall x :: x in evs <==> x in evs[..|evs| - 1] || x == e;
      if EventKey(e) == Some(key) then rest + [e] else rest
  }

  lemma {:induction false} EventsForAppend(a: seq<PlatformEvent>, b: seq<PlatformEvent>, key: string)
    ensures EventsFor(a + b, key) == EventsFor(a, key) + EventsFor(b, key)
  {
    if b == [] {
      assert a + b == a;
    } else {
      assert (a + b)[..|a + b| - 1] == a + b[..|b| - 1];
      EventsForAppend(a, b[..|b| - 1], key);
    }
  }
}
