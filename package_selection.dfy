/** The inputs a schedule run hands to the package filter: the deny list,
  * the extras lookup, the tags that still exist, the allow list and the
  * schedule's category and special filters. Both the background task and
  * the schedule worker assemble them the same way. The filter itself
  * (`filterPackages`) is not part of this model and is a parameter. */
module PackageSelection {
  import opened Values
  import opened ScheduleEntity

  /** An installed package as the filter sees it; only the name is read
    * outside the filter. */
  datatype Package = Package(
    packageName: string,
    isSystem: bool,
    isSpecial: bool,
    isLaunchable: bool,
    isUpdated: bool,
    isLatest: bool,
    isEnabled: bool)

  /** Per-package metadata: the package name (the key) and its user tags. */
  datatype AppExtras = AppExtras(packageName: string, customTags: seq<string>)

  /** The named arguments of `filterPackages`. */
  datatype FilterArgs = FilterArgs(
    packages: seq<Package>,
    extrasMap: map<string, AppExtras>,
    filter: Int32,
    specialFilter: SpecialFilter,
    whiteList: seq<string>,
    blackList: seq<string>,
    tagsList: seq<string>)

  /** `filterPackages(...)`: not part of this model, so no property of it is assumed. */
  type PackageFilter = FilterArgs -> seq<Package>

  /** What `ensureBackups()` followed by `getInstalledPackageList()` yields:
    * the installed packages, or one of the two storage exceptions. */
  datatype StorageOutcome =
    | Installed(packages: seq<Package>)
    | BackupLocationInAccessible
    | StorageLocationNotConfigured

  /** What a selection reads from the databases and the device. */
  datatype SelectionContext = SelectionContext(
    globalBlocklist: seq<string>,   // blocklist entries under the global id
    extras: seq<AppExtras>,         // every AppExtras row
    storage: StorageOutcome)

  /** The last position of name `k` in `extras`, or -1 when it does not occur. */
  function LastIndexOf(extras: seq<AppExtras>, k: string): (i: int)
    ensures -1 <= i < |extras|
    ensures i >= 0 ==> extras[i].packageName == k
    ensures forall j :: i < j < |extras| ==> extras[j].packageName != k
  {
    if extras == [] then -1
    else if extras[|extras| - 1].packageName == k then |extras| - 1
    else LastIndexOf(extras[..|extras| - 1], k)
  }

  /** `extras.associateBy(AppExtras::packageName)`: one entry per name in
    * use, and when a name occurs more than once its last occurrence wins. */
  function AssociateBy(extras: seq<AppExtras>): (m: map<string, AppExtras>)
    ensures forall k :: k in m <==> LastIndexOf(extras, k) >= 0
    ensures forall k :: k in m ==> m[k] == extras[LastIndexOf(extras, k)]
  {
    if extras == [] then map[]
    else
      var init := extras[..|extras| - 1];
      var last := extras[|extras| - 1];
      assert forall k :: k != last.packageName ==> LastIndexOf(extras, k) == LastIndexOf(init, k);
      AssociateBy(init)[last.packageName := last]
  }

  /** `extras.flatMap { it.customTags }`. */
  function FlatTags(extras: seq<AppExtras>): (r: seq<string>)
    ensures forall t :: t in r <==> exists e :: e in extras && t in e.customTags
  {
    if extras == [] then []
    else
      var r0 := FlatTags(extras[1..]);
      assert forall e :: e in extras <==> e == extras[0] || e in extras[1..];
      extras[0].customTags + r0
  }

  /** `extras.flatMap { it.customTags }.distinct()`: every tag in use. */
  function AllTags(extras: seq<AppExtras>): (r: seq<string>)
    ensures forall t :: t in r <==> exists e :: e in extras && t in e.customTags
  {
    Distinct(FlatTags(extras))
  }

  /** `schedule.tagsList.filter { it in allTags }`. */
  function KnownTags(tags: seq<string>, extras: seq<AppExtras>): (r: seq<string>)
    ensures IsSubsequence(r, tags)
    ensures forall t :: t in r <==> t in tags && exists e :: e in extras && t in e.customTags
  {
    FilterIn(tags, AllTags(extras))
  }

  /** The arguments both callers pass to `filterPackages`. */
  function FilterInputs(s: Schedule, ctx: SelectionContext, installed: seq<Package>): (a: FilterArgs)
    ensures a.packages == installed
    ensures a.filter == s.filter && a.specialFilter == SpecialFilterOf(s)
    ensures a.whiteList == s.customList
    ensures a.blackList == ctx.globalBlocklist + s.blockList
    ensures a.extrasMap == AssociateBy(ctx.extras)
    ensures a.tagsList == KnownTags(s.tagsList, ctx.extras)
  {
    FilterArgs(
      packages := installed,
      extrasMap := AssociateBy(ctx.extras),
      filter := s.filter,
      specialFilter := SpecialFilterOf(s),
      whiteList := s.customList,
      blackList := ctx.globalBlocklist + s.blockList,
      tagsList := KnownTags(s.tagsList, ctx.extras))
  }

  /** Nothing is dropped from the deny list: it names exactly the globally
    * blocked packages and the schedule's blocked packages, with every entry
    * of both kept. */
  lemma DenyListIsUnionOfBoth(s: Schedule, ctx: SelectionContext, installed: seq<Package>)
    ensures var deny := FilterInputs(s, ctx, installed).blackList;
            |deny| == |ctx.globalBlocklist| + |s.blockList|
            && forall p :: p in deny <==> p in ctx.globalBlocklist || p in s.blockList
  {
    var deny := FilterInputs(s, ctx, installed).blackList;
    assert deny == ctx.globalBlocklist + s.blockList;
  }

  /** A tag that no AppExtras carries any more is never passed to the filter,
    * and every schedule tag still carried by some package is. */
  lemma StaleTagsIgnored(s: Schedule, ctx: SelectionContext, installed: seq<Package>, t: string)
    ensures t in FilterInputs(s, ctx, installed).tagsList
        <==> t in s.tagsList && exists e :: e in ctx.extras && t in e.customTags
  {
  }

  /** `list.map { it.packageName }`. */
  function Names(ps: seq<Package>): (r: seq<string>)
    ensures |r| == |ps|
    ensures forall i :: 0 <= i < |ps| ==> r[i] == ps[i].packageName
  {
    seq(|ps|, i requires 0 <= i < |ps| => ps[i].packageName)
  }
}
