/** The persisted backup policy (`Schedule`): its field defaults, its
  * field-wise equality and hash, the derived special filter, and the
  * `Builder` that creates, imports and adjusts schedules. */
module ScheduleEntity {
  import opened Values

  // Category bits of `filter` and the backup-mode selector. They are defined
  // in the application's constants file, which is not part of this model.
  const MAIN_FILTER_SPECIAL: Int32 := 0x1   // 0b001
  const MAIN_FILTER_USER: Int32 := 0x2      // 0b010
  const MODE_UNSET: Int32 := 0x0
  const MODE_APK: Int32 := 0x10             // 0b0010000

  /** The sub-filter enums start with ALL; InstalledFilter is (ALL, INSTALLED, NOT). */
  const FILTER_ALL_ORDINAL: Int32 := 0
  const INSTALLED_FILTER_INSTALLED_ORDINAL: Int32 := 1

  /** Kotlin's `a or b` on two non-negative flag values. */
  function FlagOr(a: Int32, b: Int32): (r: Int32)
    requires 0 <= a < 0x100 && 0 <= b < 0x100
    ensures 0 <= r < 0x100
  {
    (a as bv8 | b as bv8) as int
  }

  /** The bit `flag` is set in `filter`. */
  predicate HasFlag(filter: Int32, flag: Int32)
    requires 0 <= filter < 0x100 && 0 <= flag < 0x100
  {
    filter as bv8 & flag as bv8 != 0
  }

  /** The Kotlin `Set<String>` fields keep their iteration order here. */
  datatype Schedule = Schedule(
    id: Int64,
    enabled: bool,
    name: string,
    timeHour: Int32,
    timeMinute: Int32,
    interval: Int32,
    timePlaced: Int64,
    filter: Int32,
    mode: Int32,
    launchableFilter: Int32,
    updatedFilter: Int32,
    latestFilter: Int32,
    enabledFilter: Int32,
    timeToRun: Int64,
    customList: seq<string>,
    blockList: seq<string>,
    tagsList: seq<string>)

  /** The entity invariant on timing: a repeat interval of at least one day
    * and a valid time of day. */
  predicate ValidTiming(s: Schedule)
  {
    s.interval >= 1 && 0 <= s.timeHour <= 23 && 0 <= s.timeMinute <= 59
  }

  /** `Schedule()` with every default argument; `timePlaced` defaults to the clock. */
  function DefaultSchedule(now: Int64): (s: Schedule)
    ensures s.id == 0 && !s.enabled && s.name == "New Schedule"
    ensures s.timeHour == 12 && s.timeMinute == 0 && s.interval == 1 && s.timePlaced == now
    ensures s.filter == MAIN_FILTER_USER && s.mode == MODE_APK
    ensures s.launchableFilter == s.updatedFilter == s.latestFilter == s.enabledFilter == FILTER_ALL_ORDINAL
    ensures s.timeToRun == 0 && s.customList == [] && s.blockList == [] && s.tagsList == []
    ensures ValidTiming(s)
  {
    Schedule(0, false, "New Schedule", 12, 0, 1, now, MAIN_FILTER_USER, MODE_APK,
             FILTER_ALL_ORDINAL, FILTER_ALL_ORDINAL, FILTER_ALL_ORDINAL, FILTER_ALL_ORDINAL,
             0, [], [], [])
  }

  // ---------------------------------------------------------------------
  // equals and hashCode

  /** The sixteen fields `equals` compares, the three lists taken as sets.
    * `timeToRun` is not among them. */
  datatype EqualityKey = EqualityKey(
    id: Int64, name: string, enabled: bool, timeHour: Int32, timeMinute: Int32,
    interval: Int32, timePlaced: Int64, filter: Int32, mode: Int32,
    launchableFilter: Int32, updatedFilter: Int32, latestFilter: Int32, enabledFilter: Int32,
    customList: set<string>, blockList: set<string>, tagsList: set<string>)

  function KeyOf(s: Schedule): EqualityKey
  {
    EqualityKey(s.id, s.name, s.enabled, s.timeHour, s.timeMinute, s.interval, s.timePlaced,
                s.filter, s.mode, s.launchableFilter, s.updatedFilter, s.latestFilter,
                s.enabledFilter, ElemSet(s.customList), ElemSet(s.blockList), ElemSet(s.tagsList))
  }

  /** `equals(other: Any?)`: `None` stands for null and for an object of
    * another class; both are unequal. */
  predicate Equals(s: Schedule, other: Option<Schedule>)
  {
    && other.Some?
    && var o := other.value;
    && s.id == o.id
    && s.name == o.name
    && s.enabled == o.enabled
    && s.timeHour == o.timeHour
    && s.timeMinute == o.timeMinute
    && s.interval == o.interval
    && s.timePlaced == o.timePlaced
    && s.filter == o.filter
    && s.mode == o.mode
    && s.launchableFilter == o.launchableFilter
    && s.updatedFilter == o.updatedFilter
    && s.latestFilter == o.latestFilter
    && s.enabledFilter == o.enabledFilter
    && ElemSet(s.customList) == ElemSet(o.customList)
    && ElemSet(s.blockList) == ElemSet(o.blockList)
    && ElemSet(s.tagsList) == ElemSet(o.tagsList)
  }

  /** Two schedules are equal exactly when their sixteen compared fields agree. */
  lemma EqualsIffSameKey(a: Schedule, b: Schedule)
    ensures Equals(a, Some(b)) <==> KeyOf(a) == KeyOf(b)
  {
  }

  /** `equals` is an equivalence relation (the `this === other` shortcut agrees with it). */
  lemma EqualsIsEquivalence(a: Schedule, b: Schedule, c: Schedule)
    ensures Equals(a, Some(a))
    ensures Equals(a, Some(b)) ==> Equals(b, Some(a))
    ensures Equals(a, Some(b)) && Equals(b, Some(c)) ==> Equals(a, Some(c))
  {
  }

  /** Two schedules that differ only in `timeToRun` are equal, although
    * they are different values. */
  lemma EqualsIgnoresTimeToRun(a: Schedule, t: Int64)
    ensures Equals(a, Some(a.(timeToRun := t)))
    ensures t != a.timeToRun ==> a != a.(timeToRun := t)
  {
  }

  /** Equality ignores the order, and repetition, of the set-valued lists. */
  lemma EqualsIgnoresListOrder(a: Schedule, custom: seq<string>, block: seq<string>, tags: seq<string>)
    requires ElemSet(custom) == ElemSet(a.customList)
    requires ElemSet(block) == ElemSet(a.blockList)
    requires ElemSet(tags) == ElemSet(a.tagsList)
    ensures Equals(a, Some(a.(customList := custom, blockList := block, tagsList := tags)))
  {
  }

  /** One step `hash = 31 * hash + x` in Int arithmetic. */
  function HashStep(hash: Int32, x: Int32): Int32
  {
    Wrap32(31 * hash + x)
  }

  function BoolHash(b: bool): Int32
  {
    if b then 1 else 0
  }

  /** The hash of the sixteen compared fields; `String.hashCode` and
    * `Set.hashCode` belong to the platform and are parameters. */
  function KeyHash(k: EqualityKey, stringHash: string -> Int32, setHash: set<string> -> Int32): Int32
  {
    var h1 := HashStep(7, Wrap32(k.id));
    var h2 := HashStep(h1, stringHash(k.name));
    var h3 := HashStep(h2, BoolHash(k.enabled));
    var h4 := HashStep(h3, k.timeHour);
    var h5 := HashStep(h4, k.timeMinute);
    var h6 := HashStep(h5, k.interval);
    var h7 := HashStep(h6, Wrap32(k.timePlaced));
    var h8 := HashStep(h7, k.filter);
    var h9 := HashStep(h8, k.mode);
    var h10 := HashStep(h9, k.launchableFilter);
    var h11 := HashStep(h10, k.updatedFilter);
    var h12 := HashStep(h11, k.latestFilter);
    var h13 := HashStep(h12, k.enabledFilter);
    var h14 := HashStep(h13, setHash(k.customList));
    var h15 := HashStep(h14, setHash(k.blockList));
    HashStep(h15, setHash(k.tagsList))
  }

  /** `hashCode()`: folds the fields into `hash` one by one. Its result is a
    * function of the fields `equals` compares and of nothing else. */
  method HashCode(s: Schedule, stringHash: string -> Int32, setHash: set<string> -> Int32)
    returns (hash: Int32)
    ensures hash == KeyHash(KeyOf(s), stringHash, setHash)
  {
    hash := 7;
    hash := HashStep(hash, Wrap32(s.id));
    hash := HashStep(hash, stringHash(s.name));
    hash := HashStep(hash, BoolHash(s.enabled));
    hash := HashStep(hash, s.timeHour);
    hash := HashStep(hash, s.timeMinute);
    hash := HashStep(hash, s.interval);
    hash := HashStep(hash, Wrap32(s.timePlaced));
    hash := HashStep(hash, s.filter);
    hash := HashStep(hash, s.mode);
    hash := HashStep(hash, s.launchableFilter);
    hash := HashStep(hash, s.updatedFilter);
    hash := HashStep(hash, s.latestFilter);
    hash := HashStep(hash, s.enabledFilter);
    hash := HashStep(hash, setHash(ElemSet(s.customList)));
    hash := HashStep(hash, setHash(ElemSet(s.blockList)));
    hash := HashStep(hash, setHash(ElemSet(s.tagsList)));
  }

  /** Equal schedules hash equally. */
  lemma EqualSchedulesHashEqually(a: Schedule, b: Schedule,
                                  stringHash: string -> Int32, setHash: set<string> -> Int32)
    requires Equals(a, Some(b))
    ensures KeyHash(KeyOf(a), stringHash, setHash) == KeyHash(KeyOf(b), stringHash, setHash)
  {
    EqualsIffSameKey(a, b);
  }

  // ---------------------------------------------------------------------
  // specialFilter

  /** `SpecialFilter(installed, launchable, updated, latest, enabled)`. */
  datatype SpecialFilter = SpecialFilter(
    installed: Int32, launchable: Int32, updated: Int32, latest: Int32, enabled: Int32)

  /** The derived `specialFilter`: always "installed", the other four
    * sub-filters copied from the schedule. */
  function SpecialFilterOf(s: Schedule): (f: SpecialFilter)
    ensures f.installed == INSTALLED_FILTER_INSTALLED_ORDINAL
    ensures f.launchable == s.launchableFilter && f.updated == s.updatedFilter
    ensures f.latest == s.latestFilter && f.enabled == s.enabledFilter
  {
    SpecialFilter(INSTALLED_FILTER_INSTALLED_ORDINAL, s.launchableFilter, s.updatedFilter,
                  s.latestFilter, s.enabledFilter)
  }

  /** Equal schedules have the same special filter. */
  lemma EqualSchedulesSameSpecialFilter(a: Schedule, b: Schedule)
    requires Equals(a, Some(b))
    ensures SpecialFilterOf(a) == SpecialFilterOf(b)
  {
  }

  // ---------------------------------------------------------------------
  // The copies the Builder makes

  /** `schedule.copy(id = id.toLong())`. */
  function CopyWithId(s: Schedule, id: Int32): (r: Schedule)
    ensures r.id == id
    ensures r.(id := s.id) == s
  {
    s.(id := id)
  }

  /** The filter `withSpecial(with)` stores. */
  function SpecialFilterValue(with: bool): (f: Int32)
    ensures 0 <= f < 0x100
    ensures HasFlag(f, MAIN_FILTER_USER)
    ensures HasFlag(f, MAIN_FILTER_SPECIAL) <==> with
    ensures with ==> f == FlagOr(MAIN_FILTER_USER, MAIN_FILTER_SPECIAL)
    ensures !with ==> f == MAIN_FILTER_USER
  {
    if with then FlagOr(MAIN_FILTER_USER, MAIN_FILTER_SPECIAL) else MAIN_FILTER_USER
  }

  /** `schedule.copy(filter = ...)`: only `filter` changes. */
  function CopyWithSpecial(s: Schedule, with: bool): (r: Schedule)
    ensures r.filter == SpecialFilterValue(with)
    ensures r.(filter := s.filter) == s
  {
    s.(filter := SpecialFilterValue(with))
  }

  /** `export.copy(id = current.id, enabled = false, timePlaced = now, timeToRun = 0)`. */
  function ImportedCopy(current: Schedule, exported: Schedule, now: Int64): (r: Schedule)
    ensures r.id == current.id && !r.enabled && r.timePlaced == now && r.timeToRun == 0
    ensures r.(id := exported.id, enabled := exported.enabled, timePlaced := exported.timePlaced,
               timeToRun := exported.timeToRun) == exported
  {
    exported.(id := current.id, enabled := false, timePlaced := now, timeToRun := 0)
  }

  /** The copy the export-file constructor stores: the parsed schedule,
    * disabled, placed now, with no legacy run timer. */
  function ExportFileCopy(item: Schedule, now: Int64): (r: Schedule)
    ensures r.id == item.id && !r.enabled && r.timePlaced == now && r.timeToRun == 0
    ensures r.(enabled := item.enabled, timePlaced := item.timePlaced,
               timeToRun := item.timeToRun) == item
  {
    item.(enabled := false, timePlaced := now, timeToRun := 0)
  }

  /** Importing is the export-file copy with the current id kept. */
  lemma ImportIsExportFileCopyWithId(current: Schedule, exported: Schedule, now: Int64)
    ensures ImportedCopy(current, exported, now) == ExportFileCopy(exported, now).(id := current.id)
  {
  }

  /** Importing the same export twice at the same time changes nothing more. */
  lemma ImportIdempotent(current: Schedule, exported: Schedule, now: Int64)
    ensures ImportedCopy(ImportedCopy(current, exported, now), exported, now)
         == ImportedCopy(current, exported, now)
  {
  }

  /** The imported schedule equals the export exactly when the export already
    * had the kept id, was disabled and was placed at `now`; the legacy timer
    * does not matter. */
  lemma ImportedEqualsExportIff(current: Schedule, exported: Schedule, now: Int64)
    ensures Equals(ImportedCopy(current, exported, now), Some(exported))
        <==> current.id == exported.id && !exported.enabled && exported.timePlaced == now
  {
  }

  /** Of two `withSpecial` calls only the last one matters. */
  lemma WithSpecialLastWins(s: Schedule, first: bool, second: bool)
    ensures CopyWithSpecial(CopyWithSpecial(s, first), second) == CopyWithSpecial(s, second)
  {
  }

  // ---------------------------------------------------------------------
  // Builder

  /** How reading an export file can fail. */
  datatype ExportRead =
    | Parsed(item: Schedule)
    | FileNotFound
    | ReadFailed         // any other IOException
    | Unprocessable      // any other Throwable, e.g. a malformed record

  /** `Backup.BrokenBackupException`, by the message it carries. */
  datatype BrokenBackup = CannotOpen | CannotRead | UnableToProcess

  datatype BuildResult = Built(builder: Builder) | Broken(error: BrokenBackup)

  class Builder {
    var schedule: Schedule

    /** `Builder()`: a default schedule. */
    constructor(now: Int64)
      ensures schedule == DefaultSchedule(now)
    {
      schedule := DefaultSchedule(now);
    }

    /** `Builder(exportFile)`: the file's content is read and parsed outside
      * this model and arrives as `read`. */
    static method FromExportFile(read: ExportRead, now: Int64) returns (r: BuildResult)
      ensures r.Built? <==> read.Parsed?
      ensures r.Built? ==> fresh(r.builder) && r.builder.schedule == ExportFileCopy(read.item, now)
      ensures read.FileNotFound? ==> r == Broken(CannotOpen)
      ensures read.ReadFailed? ==> r == Broken(CannotRead)
      ensures read.Unprocessable? ==> r == Broken(UnableToProcess)
    {
      match read
      case Parsed(item) =>
        var b := new Builder(now);
        b.schedule := ExportFileCopy(item, now);
        r := Built(b);
      case FileNotFound =>
        r := Broken(CannotOpen);
      case ReadFailed =>
        r := Broken(CannotRead);
      case Unprocessable =>
        r := Broken(UnableToProcess);
    }

    method WithId(id: Int32) returns (b: Builder)
      modifies this
      ensures b == this && schedule == CopyWithId(old(schedule), id)
    {
      schedule := CopyWithId(schedule, id);
      b := this;
    }

    method WithSpecial(with: bool) returns (b: Builder)
      modifies this
      ensures b == this && schedule == CopyWithSpecial(old(schedule), with)
    {
      schedule := CopyWithSpecial(schedule, with);
      b := this;
    }

    method Import(exported: Schedule, now: Int64) returns (b: Builder)
      modifies this
      ensures b == this && schedule == ImportedCopy(old(schedule), exported, now)
    {
      schedule := ImportedCopy(schedule, exported, now);
      b := this;
    }

    method Build() returns (s: Schedule)
      ensures s == schedule
    {
      s := schedule;
    }
  }
}
