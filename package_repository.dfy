/** The in-memory backups map of the package repository: package name to
  * the backups stored for it, changed in place by put, clear-and-group,
  * remove and retain-keys. */
module Repository {

  /** A stored backup; only `packageName` is read by the repository, the
    * other fields stand for the rest of the record. */
  datatype Backup = Backup(packageName: string, packageLabel: string, backupDate: string)

  type BackupsMap = map<string, seq<Backup>>

  /** The backups of `bs` named `name`, in input order. */
  function WithName(bs: seq<Backup>, name: string): (r: seq<Backup>)
    ensures forall b :: b in r <==> b in bs && b.packageName == name
    ensures |r| <= |bs|
  {
    if bs == [] then []
    else
      var rest := WithName(bs[..|bs| - 1], name);
      var b := bs[|bs| - 1];
      assert forall x :: x in bs <==> x in bs[..|bs| - 1] || x == b;
      if b.packageName == name then rest + [b] else rest
  }

  lemma {:induction false} WithNameEmpty(bs: seq<Backup>, name: string)
    requires forall b :: b in bs ==> b.packageName != name
    ensures WithName(bs, name) == []
  {
    if bs != [] {
      assert forall x :: x in bs[..|bs| - 1] ==> x in bs;
      WithNameEmpty(bs[..|bs| - 1], name);
    }
  }

  /** Each backup of the named package occurs in the result exactly as often
    * as in the input, and no backup of another package occurs at all. */
  lemma {:induction false} WithNameCounts(bs: seq<Backup>, name: string)
    ensures forall b :: multiset(WithName(bs, name))[b]
                     == (if b.packageName == name then multiset(bs)[b] else 0)
  {
    if bs != [] {
      var init := bs[..|bs| - 1];
      var last := bs[|bs| - 1];
      assert bs == init + [last];
      WithNameCounts(init, name);
    }
  }

  /** `backups.groupBy { it.packageName }`: one key per package name that
    * occurs, mapping to that package's backups in input order. */
  function GroupBy(bs: seq<Backup>): (m: BackupsMap)
    ensures forall k :: k in m <==> exists b :: b in bs && b.packageName == k
    ensures forall k :: k in m ==> m[k] == WithName(bs, k) && m[k] != []
  {
    if bs == [] then map[]
    else
      var init := bs[..|bs| - 1];
      var b := bs[|bs| - 1];
      var m0 := GroupBy(init);
      assert forall x :: x in bs <==> x in init || x == b;
      assert b.packageName !in m0 ==> WithName(init, b.packageName) == [] by {
        if b.packageName !in m0 {
          WithNameEmpty(init, b.packageName);
        }
      }
      m0[b.packageName := (if b.packageName in m0 then m0[b.packageName] else []) + [b]]
  }

  /** `theBackupsMap.keys.removeAll { it !in packageNames }`. */
  function Retained(m: BackupsMap, names: seq<string>): (r: BackupsMap)
    ensures forall k :: k in r <==> k in m && k in names
    ensures forall k :: k in r ==> r[k] == m[k]
  {
    map k | k in m && k in names :: m[k]
  }

  /** `theBackupsMap[packageName] ?: emptyList()`. */
  function BackupsOf(m: BackupsMap, packageName: string): (r: seq<Backup>)
    ensures packageName in m ==> r == m[packageName]
    ensures packageName !in m ==> r == []
  {
    if packageName in m then m[packageName] else []
  }

  /** Every backup stored under any key, counted with multiplicity. */
  ghost function Flattened(m: BackupsMap): multiset<Backup>
    decreases |m.Keys|
  {
    if m == map[] then multiset{}
    else
      var k :| k in m;
      assert |(m - {k}).Keys| < |m.Keys| by {
        assert m.Keys == (m - {k}).Keys + {k};
      }
      multiset(m[k]) + Flattened(m - {k})
  }

  /** Removing any one key takes exactly its backups out of the flattening. */
  lemma {:induction false} FlattenedRemove(m: BackupsMap, k: string)
    requires k in m
    ensures Flattened(m) == multiset(m[k]) + Flattened(m - {k})
    decreases |m.Keys|
  {
    var j :| j in m && Flattened(m) == multiset(m[j]) + Flattened(m - {j});
    if j != k {
      var mj := m - {j};
      var mk := m - {k};
      assert |mj.Keys| < |m.Keys| by { assert m.Keys == mj.Keys + {j}; }
      assert |mk.Keys| < |m.Keys| by { assert m.Keys == mk.Keys + {k}; }
      FlattenedRemove(mj, k);
      FlattenedRemove(mk, j);
      assert mj - {k} == mk - {j};
    }
  }

  /** Putting a list under a key replaces that key's share of the flattening. */
  lemma FlattenedPut(m: BackupsMap, k: string, v: seq<Backup>)
    ensures Flattened(m[k := v]) == multiset(v) + Flattened(m - {k})
    ensures Flattened(m) == multiset(BackupsOf(m, k)) + Flattened(m - {k})
  {
    FlattenedRemove(m[k := v], k);
    assert m[k := v] - {k} == m - {k};
    if k in m {
      FlattenedRemove(m, k);
    } else {
      assert m - {k} == m;
    }
  }

  /** Grouping keeps every backup exactly once. */
  lemma {:induction false} GroupByKeepsEveryBackup(bs: seq<Backup>)
    ensures Flattened(GroupBy(bs)) == multiset(bs)
  {
    if bs != [] {
      var init := bs[..|bs| - 1];
      var b := bs[|bs| - 1];
      assert bs == init + [b];
      var m0 := GroupBy(init);
      assert GroupBy(bs) == m0[b.packageName := BackupsOf(m0, b.packageName) + [b]];
      GroupByKeepsEveryBackup(init);
      FlattenedPut(m0, b.packageName, BackupsOf(m0, b.packageName) + [b]);
    }
  }

  /** After grouping, looking a package up gives its backups in input order,
    * and nothing for a package with no backup. */
  lemma GroupedLookup(bs: seq<Backup>, name: string)
    ensures BackupsOf(GroupBy(bs), name) == WithName(bs, name)
  {
    if name !in GroupBy(bs) {
      WithNameEmpty(bs, name);
    }
  }

  /** A later backup goes to the end of its package's group, and the other
    * groups do not change. */
  lemma {:induction false} GroupByOrderWithinPackage(bs: seq<Backup>, b: Backup)
    ensures GroupBy(bs + [b])[b.packageName] == BackupsOf(GroupBy(bs), b.packageName) + [b]
    ensures GroupBy(bs + [b]) - {b.packageName} == GroupBy(bs) - {b.packageName}
  {
    assert (bs + [b])[..|bs + [b]| - 1] == bs;
  }

  /** Retaining the same names twice changes nothing more. */
  lemma RetainedIdempotent(m: BackupsMap, names: seq<string>)
    ensures Retained(Retained(m, names), names) == Retained(m, names)
  {
  }

  /** The in-memory part of `PackageRepository`. */
  class PackageRepository {
    var theBackupsMap: BackupsMap

    constructor()
      ensures theBackupsMap == map[]
    {
      theBackupsMap := map[];
    }

    /** `getBackups(packageName)`. */
    function GetBackups(packageName: string): (r: seq<Backup>)
      reads this
      ensures r == BackupsOf(theBackupsMap, packageName)
      ensures r != [] ==> packageName in theBackupsMap
    {
      if packageName in theBackupsMap then theBackupsMap[packageName] else []
    }

    /** `getBackups()`: the values flattened, keys taken in the map's own
      * (unspecified) order. */
    method GetAllBackups() returns (all: seq<Backup>)
      ensures multiset(all) == Flattened(theBackupsMap)
    {
      all := [];
      var rest := theBackupsMap;
      while rest != map[]
        invariant multiset(all) + Flattened(rest) == Flattened(theBackupsMap)
        decreases |rest.Keys|
      {
        var k :| k in rest;
        FlattenedRemove(rest, k);
        all := all + rest[k];
        assert rest.Keys == (rest - {k}).Keys + {k};
        rest := rest - {k};
      }
    }

    /** `updateBackups(packageName, backups)`. */
    method UpdateBackups(packageName: string, backups: seq<Backup>)
      modifies this
      ensures theBackupsMap == old(theBackupsMap)[packageName := backups]
    {
      theBackupsMap := theBackupsMap[packageName := backups];
    }

    /** `replaceBackups(*backups)`: clear, then put every group. */
    method ReplaceBackups(backups: seq<Backup>)
      modifies this
      ensures theBackupsMap == GroupBy(backups)
    {
      theBackupsMap := map[];
      theBackupsMap := theBackupsMap + GroupBy(backups);
      assert theBackupsMap == GroupBy(backups);
    }

    /** `emptyBackupsTable()`. */
    method EmptyBackupsTable()
      modifies this
      ensures theBackupsMap == map[]
    {
      theBackupsMap := map[];
    }

    /** `deleteBackupsOf(packageName)`. */
    method DeleteBackupsOf(packageName: string)
      modifies this
      ensures theBackupsMap == old(theBackupsMap) - {packageName}
    {
      theBackupsMap := theBackupsMap - {packageName};
    }

    /** `deleteBackupsNotIn(packageNames)`. */
    method DeleteBackupsNotIn(packageNames: seq<string>)
      modifies this
      ensures theBackupsMap == Retained(old(theBackupsMap), packageNames)
    {
      theBackupsMap := Retained(theBackupsMap, packageNames);
    }
  }
}
