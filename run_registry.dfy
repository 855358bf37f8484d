/** The run registries: maps from schedule id to a "running" flag. A
  * schedule counts as running only when its entry is `true`; an entry that
  * is `false` is present but does not block. */
module RunRegistry {

  type Registry = map<int, bool>

  /** `registry[id] == true`. */
  predicate IsRunning(m: Registry, id: int)
  {
    id in m && m[id]
  }

  /** Check-and-set: set the entry to `true` unless it already is; the flag
    * says whether this call set it. */
  function Claim(m: Registry, id: int): (r: (bool, Registry))
    ensures r.0 <==> !IsRunning(m, id)
    ensures IsRunning(r.1, id)
    ensures r.0 ==> r.1 == m[id := true]
    ensures !r.0 ==> r.1 == m
  {
    if IsRunning(m, id) then (false, m) else (true, m[id := true])
  }

  /** Unconditional removal of the entry. */
  function Release(m: Registry, id: int): (r: Registry)
    ensures id !in r
    ensures forall k :: k != id ==> (k in r <==> k in m)
    ensures forall k :: k in r ==> r[k] == m[k]
  {
    m - {id}
  }

  /** No entry of the registry is `true`. */
  predicate NoneRunning(m: Registry)
  {
    forall k :: k in m ==> !m[k]
  }

  /** Two claims of one id with no release between: exactly one succeeds,
    * and it is the first whenever the id was free. */
  lemma DuplicateClaimRejected(m: Registry, id: int)
    ensures var (first, m1) := Claim(m, id);
            var (second, m2) := Claim(m1, id);
            !second && m2 == m1 && (first <==> !IsRunning(m, id))
  {
  }

  /** After a release the id can be claimed again. */
  lemma ReleaseThenClaimSucceeds(m: Registry, id: int)
    ensures Claim(Release(m, id), id).0
  {
  }

  /** A second release changes nothing. */
  lemma ReleaseIdempotent(m: Registry, id: int)
    ensures Release(Release(m, id), id) == Release(m, id)
  {
  }

  /** Claiming and then releasing leaves no entry for the id, and the other
    * entries as they were, whether or not the claim succeeded. */
  lemma ClaimThenReleaseLeavesNoMarker(m: Registry, id: int)
    ensures Release(Claim(m, id).1, id) == Release(m, id)
  {
  }

  /** Claims and releases of one id do not touch another id's entry. */
  lemma OtherIdsUntouched(m: Registry, id: int, other: int)
    requires other != id
    ensures (other in Claim(m, id).1) == (other in m)
    ensures other in m ==> Claim(m, id).1[other] == m[other]
    ensures IsRunning(Release(m, id), other) == IsRunning(m, other)
  {
  }

  /** Writing `false` keeps a registry free of running entries. */
  lemma MarkFalseKeepsNoneRunning(m: Registry, id: int)
    requires NoneRunning(m)
    ensures NoneRunning(m[id := false])
    ensures !IsRunning(m, id)
  {
  }
}
