/** The background task that resolves a schedule id to the schedule's name,
  * the names of the packages it selects and its backup mode. */
module ScheduledActionTask {
  import opened Values
  import opened ScheduleEntity
  import opened PackageSelection

  /** The task's `Triple<String, List<String>, Int>`. */
  datatype TaskResult = TaskResult(name: string, selectedItems: seq<string>, mode: Int32)

  /** `doInBackground`: `schedule` is the row found under the task's id (or
    * `None`), `ctx` what the databases and the device report. */
  function DoInBackground(schedule: Option<Schedule>, ctx: SelectionContext,
                          filterPackages: PackageFilter): (r: TaskResult)
    ensures schedule.None? ==> r == TaskResult("DbFailed", [], MODE_UNSET)
    ensures schedule.Some? ==> r.name == schedule.value.name
    ensures schedule.Some? && !ctx.storage.Installed? ==> r.selectedItems == [] && r.mode == MODE_UNSET
    ensures schedule.Some? && ctx.storage.Installed? ==> r.mode == schedule.value.mode
  {
    match schedule
    case None => TaskResult("DbFailed", [], MODE_UNSET)
    case Some(s) =>
      match ctx.storage
      case Installed(packages) =>
        TaskResult(s.name, Names(filterPackages(FilterInputs(s, ctx, packages))), s.mode)
      case BackupLocationInAccessible => TaskResult(s.name, [], MODE_UNSET)
      case StorageLocationNotConfigured => TaskResult(s.name, [], MODE_UNSET)
  }

  /** Every selected name is the name of a package the filter kept, in the
    * filter's order, and the filter saw the schedule's allow list, the union
    * deny list and the tags still in use. */
  lemma SelectionComesFromFilter(s: Schedule, ctx: SelectionContext, f: PackageFilter)
    requires ctx.storage.Installed?
    ensures var args := FilterInputs(s, ctx, ctx.storage.packages);
            var r := DoInBackground(Some(s), ctx, f);
            && |r.selectedItems| == |f(args)|
            && (forall i :: 0 <= i < |r.selectedItems| ==> r.selectedItems[i] == f(args)[i].packageName)
            && args.whiteList == s.customList
            && args.blackList == ctx.globalBlocklist + s.blockList
            && (forall t :: t in args.tagsList <==> t in s.tagsList && exists e :: e in ctx.extras && t in e.customTags)
  {
    StaleTagsIgnoredForAll(s, ctx, ctx.storage.packages);
  }

  /** Quantified form of the stale-tag property for the arguments. */
  lemma StaleTagsIgnoredForAll(s: Schedule, ctx: SelectionContext, installed: seq<Package>)
    ensures forall t :: (t in FilterInputs(s, ctx, installed).tagsList
                         <==> t in s.tagsList && exists e :: e in ctx.extras && t in e.customTags)
  {
    forall t
      ensures t in FilterInputs(s, ctx, installed).tagsList
          <==> t in s.tagsList && exists e :: e in ctx.extras && t in e.customTags
    {
      StaleTagsIgnored(s, ctx, installed, t);
    }
  }

  /** On the failure paths the filter is never consulted: the result does not
    * depend on it, selects nothing and carries the unset mode. */
  lemma FailuresIgnoreFilter(schedule: Option<Schedule>, ctx: SelectionContext,
                             f: PackageFilter, g: PackageFilter)
    requires schedule.None? || !ctx.storage.Installed?
    ensures DoInBackground(schedule, ctx, f) == DoInBackground(schedule, ctx, g)
    ensures DoInBackground(schedule, ctx, f).selectedItems == []
    ensures DoInBackground(schedule, ctx, f).mode == MODE_UNSET
  {
  }

  /** A result whose mode is set came from a found schedule and readable
    * storage, and carries that schedule's mode. */
  lemma SetModeMeansSuccess(schedule: Option<Schedule>, ctx: SelectionContext, f: PackageFilter)
    requires DoInBackground(schedule, ctx, f).mode != MODE_UNSET
    ensures schedule.Some? && ctx.storage.Installed?
    ensures DoInBackground(schedule, ctx, f).mode == schedule.value.mode
  {
  }
}
