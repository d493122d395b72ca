/** Which pool position is asked for, which is offered and which stays out of
    the trade. The source spells this out as a six-branch ladder (three asks
    times two offers) with an `AssetMismatch` fallback; it is a refinement of
    "index of ask, index of offer, distinct, unswapped is the remaining one". */
module Roles {
  import opened Errors
  import opened Assets

  /** Positions, each in 0..2, of the ask, offer and unswapped pools. */
  datatype Roles = Roles(ask: nat, offer: nat, unswapped: nat)

  /** Three pairwise-distinct positions: together they cover all of 0, 1 and 2. */
  predicate Partition(r: Roles) {
    && r.ask < 3 && r.offer < 3 && r.unswapped < 3
    && r.ask != r.offer && r.ask != r.unswapped && r.offer != r.unswapped
  }

  /** The ladder of `swap`, `query_simulation` and `query_reverse_simulation`. */
  function ResolveRoles(pools: Trio, offer: AssetInfo, ask: AssetInfo): (r: Result<Roles>)
    ensures r.Success? ==> Partition(r.value)
    ensures r.Success? ==> pools[r.value.ask].info == ask && pools[r.value.offer].info == offer
    ensures r.Failure? ==> r.error == AssetMismatch
  {
    if ask == pools[0].info then
      if offer == pools[1].info then Success(Roles(0, 1, 2))
      else if offer == pools[2].info then Success(Roles(0, 2, 1))
      else Failure(AssetMismatch)
    else if ask == pools[1].info then
      if offer == pools[0].info then Success(Roles(1, 0, 2))
      else if offer == pools[2].info then Success(Roles(1, 2, 0))
      else Failure(AssetMismatch)
    else if ask == pools[2].info then
      if offer == pools[0].info then Success(Roles(2, 0, 1))
      else if offer == pools[1].info then Success(Roles(2, 1, 0))
      else Failure(AssetMismatch)
    else Failure(AssetMismatch)
  }

  /** The role resolution the ladder stands for, by index lookup. */
  function ResolveByIndex(pools: Trio, offer: AssetInfo, ask: AssetInfo): (r: Result<Roles>)
  {
    if offer == ask then Failure(AssetMismatch)
    else
      match (IndexOf(pools, ask), IndexOf(pools, offer))
      case (Some(a), Some(o)) => Success(Roles(a, o, 3 - a - o))
      case _ => Failure(AssetMismatch)
  }

  /** On a pool whose three assets differ, the six-branch ladder is the index lookup. */
  lemma {:induction false} LadderIsIndexLookup(pools: Trio, offer: AssetInfo, ask: AssetInfo)
    requires DistinctInfos(pools)
    ensures ResolveRoles(pools, offer, ask) == ResolveByIndex(pools, offer, ask)
  {
    var a := IndexOf(pools, ask);
    var o := IndexOf(pools, offer);
    if a.Some? {
      assert a.value == 0 || a.value == 1 || a.value == 2;
    }
    if o.Some? {
      assert o.value == 0 || o.value == 1 || o.value == 2;
    }
  }

  /** On a pool whose three assets differ, resolution fails exactly when the offer
      and ask are the same asset or either is not in the pool; when it succeeds the
      ask and offer positions are the ones holding those assets. */
  lemma ResolveRolesExactly(pools: Trio, offer: AssetInfo, ask: AssetInfo)
    requires DistinctInfos(pools)
    ensures ResolveRoles(pools, offer, ask).Failure? <==>
              offer == ask || !Holds(pools, offer) || !Holds(pools, ask)
    ensures forall a, o :: 0 <= a < 3 && 0 <= o < 3 && pools[a].info == ask && pools[o].info == offer && a != o ==>
              ResolveRoles(pools, offer, ask) == Success(Roles(a, o, 3 - a - o))
  {
    LadderIsIndexLookup(pools, offer, ask);
  }

  /** Without distinct assets the ladder can resolve an asset against itself:
      the guarantee above rests on pool creation refusing duplicates. */
  lemma DuplicateAssetsResolve(info: AssetInfo, other: AssetInfo)
    requires info != other
    ensures ResolveRoles([Asset(info, 0), Asset(info, 0), Asset(other, 0)], info, info) == Success(Roles(0, 1, 2))
  {
  }
}
