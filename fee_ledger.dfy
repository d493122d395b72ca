/** The fee ledgers are lists of `Asset`, one entry per pool asset, keyed by
    asset id: pending protocol fees, all-time protocol fees, all-time burned
    fees. These are the lookups and updates the handlers apply to them. */
module FeeLedger {
  import opened Errors
  import opened Numeric
  import opened Assets

  /** `get_protocol_fee_for_asset`: the amount of the first entry with id `id`, zero if none. */
  function ProtocolFeeFor(fees: seq<Asset>, id: string): Uint128 {
    if fees == [] then 0
    else if fees[0].info.Id() == id then fees[0].amount
    else ProtocolFeeFor(fees[1..], id)
  }

  /** The lookup is zero when no entry has the id, and otherwise the amount of
      the first entry that has it. */
  lemma {:induction false} ProtocolFeeForFirstMatch(fees: seq<Asset>, id: string)
    ensures (forall i :: 0 <= i < |fees| ==> fees[i].info.Id() != id) ==> ProtocolFeeFor(fees, id) == 0
    ensures forall i :: 0 <= i < |fees| && fees[i].info.Id() == id
              && (forall j :: 0 <= j < i ==> fees[j].info.Id() != id)
              ==> ProtocolFeeFor(fees, id) == fees[i].amount
  {
    if fees != [] && fees[0].info.Id() != id {
      ProtocolFeeForFirstMatch(fees[1..], id);
      forall i | 1 <= i < |fees| && fees[i].info.Id() == id && (forall j :: 0 <= j < i ==> fees[j].info.Id() != id)
        ensures ProtocolFeeFor(fees, id) == fees[i].amount
      {
        assert fees[1..][i - 1] == fees[i];
        assert forall j :: 0 <= j < i - 1 ==> fees[1..][j].info.Id() != id by {
          forall j | 0 <= j < i - 1 ensures fees[1..][j].info.Id() != id {
            assert fees[1..][j] == fees[j + 1];
          }
        }
      }
    }
  }

  /** `store_fee`: add `amount` to the entry of asset `id`; the `Uint128` addition
      aborts on overflow. */
  function StoreFee(fees: seq<Asset>, amount: Uint128, id: string): (r: Result<seq<Asset>>)
    ensures r.Success? <==>
      forall i :: 0 <= i < |fees| && fees[i].info.Id() == id ==> fees[i].amount + amount < U128_LIMIT
    ensures r.Failure? ==> r.error == Overflow
    ensures r.Success? ==> |r.value| == |fees|
    ensures r.Success? ==>
      forall i :: 0 <= i < |fees| ==>
        && r.value[i].info == fees[i].info
        && r.value[i].amount == fees[i].amount + (if fees[i].info.Id() == id then amount else 0)
  {
    if fees == [] then Success([])
    else
      var head :- if fees[0].info.Id() == id then CheckedAdd(fees[0].amount, amount)
                  else Success(fees[0].amount);
      var tail :- StoreFee(fees[1..], amount, id);
      Success([Asset(fees[0].info, head)] + tail)
  }

  /** `get_fees_for_asset`: the first entry of asset `id`, an error if there is none. */
  function FeesForAsset(fees: seq<Asset>, id: string): (r: Result<Asset>)
    ensures r.Failure? <==> forall i :: 0 <= i < |fees| ==> fees[i].info.Id() != id
    ensures r.Failure? ==> r.error == FeesNotFound(id)
    ensures r.Success? ==> r.value in fees && r.value.info.Id() == id &&
                           r.value.amount == ProtocolFeeFor(fees, id)
    ensures r.Success? ==> exists i :: 0 <= i < |fees| && r.value == fees[i] &&
                                       forall j :: 0 <= j < i ==> fees[j].info.Id() != id
  {
    if fees == [] then Failure(FeesNotFound(id))
    else if fees[0].info.Id() == id then Success(fees[0])
    else
      var found :- FeesForAsset(fees[1..], id);
      assert exists i :: 0 <= i < |fees| && found == fees[i] && forall j :: 0 <= j < i ==> fees[j].info.Id() != id by {
        var k :| 0 <= k < |fees[1..]| && found == fees[1..][k] && forall j :: 0 <= j < k ==> fees[1..][j].info.Id() != id;
        assert found == fees[k + 1];
        forall j | 0 <= j < k + 1 ensures fees[j].info.Id() != id {
          if j > 0 { assert fees[j] == fees[1..][j - 1]; }
        }
      }
      Success(found)
  }

  /** The ledger `collect_protocol_fees` saves: its first three asset infos, in order, at zero. */
  function ZeroedLedger(fees: seq<Asset>): (r: seq<Asset>)
    requires |fees| >= 3
    ensures |r| == 3
    ensures forall i :: 0 <= i < 3 ==> r[i].info == fees[i].info && r[i].amount == 0
  {
    [Asset(fees[0].info, 0), Asset(fees[1].info, 0), Asset(fees[2].info, 0)]
  }

  function Payout(fee: Asset, collector: string): seq<Msg> {
    if fee.amount != 0 then [Transfer(fee, collector)] else []
  }

  /** The payouts `collect_protocol_fees` emits: one transfer to the collector per
      non-zero entry, in ledger order. */
  function Payouts(fees: seq<Asset>, collector: string): (msgs: seq<Msg>)
    ensures |msgs| <= |fees|
  {
    if fees == [] then [] else Payouts(fees[..|fees| - 1], collector) + Payout(fees[|fees| - 1], collector)
  }

  /** Every payout is a transfer of a non-zero ledger entry to the collector, and
      every non-zero entry is paid out. */
  lemma {:induction false} PayoutsAreNonZeroEntries(fees: seq<Asset>, collector: string)
    ensures forall m :: m in Payouts(fees, collector) ==>
              m.Transfer? && m.recipient == collector && m.asset in fees && m.asset.amount != 0
    ensures forall f :: f in fees && f.amount != 0 ==> Transfer(f, collector) in Payouts(fees, collector)
  {
    if fees != [] {
      var init := fees[..|fees| - 1];
      PayoutsAreNonZeroEntries(init, collector);
      assert fees == init + [fees[|fees| - 1]];
    }
  }

  /** The non-zero entries of a ledger, in ledger order, each once per occurrence. */
  function NonZeroEntries(fees: seq<Asset>): (r: seq<Asset>)
    ensures |r| <= |fees|
    ensures forall f :: f in r <==> f in fees && f.amount != 0
  {
    if fees == [] then [] else (if fees[0].amount != 0 then [fees[0]] else []) + NonZeroEntries(fees[1..])
  }

  /** Filtering a ledger extended by one entry filters the prefix and then that entry. */
  lemma {:induction false} NonZeroEntriesSnoc(fees: seq<Asset>, f: Asset)
    ensures NonZeroEntries(fees + [f]) == NonZeroEntries(fees) + (if f.amount != 0 then [f] else [])
  {
    if fees != [] {
      assert (fees + [f])[1..] == fees[1..] + [f];
      NonZeroEntriesSnoc(fees[1..], f);
    } else {
      assert [f][1..] == [];
    }
  }

  /** The payouts are exactly one transfer to the collector per non-zero entry,
      in ledger order: no entry is paid twice and none is skipped. */
  lemma {:induction false} PayoutsPayEachOnce(fees: seq<Asset>, collector: string)
    ensures |Payouts(fees, collector)| == |NonZeroEntries(fees)|
    ensures forall i :: 0 <= i < |NonZeroEntries(fees)| ==>
              Payouts(fees, collector)[i] == Transfer(NonZeroEntries(fees)[i], collector)
  {
    if fees != [] {
      var init := fees[..|fees| - 1];
      var last := fees[|fees| - 1];
      PayoutsPayEachOnce(init, collector);
      assert fees == init + [last];
      NonZeroEntriesSnoc(init, last);
      var paid := Payouts(init, collector);
      var kept := NonZeroEntries(init);
      assert Payouts(fees, collector) == paid + Payout(last, collector);
      if last.amount != 0 {
        assert NonZeroEntries(fees) == kept + [last];
        assert Payouts(fees, collector) == paid + [Transfer(last, collector)];
      } else {
        assert NonZeroEntries(fees) == kept;
        assert Payouts(fees, collector) == paid;
      }
    }
  }

  /** After `store_fee`, the lookup of the booked asset grows by exactly the amount
      and every other lookup is unchanged. */
  lemma {:induction false} StoreFeeLookup(fees: seq<Asset>, amount: Uint128, id: string, other: string)
    requires StoreFee(fees, amount, id).Success?
    requires exists i :: 0 <= i < |fees| && fees[i].info.Id() == id
    ensures ProtocolFeeFor(StoreFee(fees, amount, id).value, other) ==
            ProtocolFeeFor(fees, other) + (if other == id then amount else 0)
  {
    var stored := StoreFee(fees, amount, id).value;
    assert stored[0].info == fees[0].info;
    if fees[0].info.Id() != other && fees[0].info.Id() != id {
      assert stored[1..] == StoreFee(fees[1..], amount, id).value;
      assert exists i :: 0 <= i < |fees[1..]| && fees[1..][i].info.Id() == id by {
        var i :| 0 <= i < |fees| && fees[i].info.Id() == id;
        assert fees[1..][i - 1].info.Id() == id;
      }
      StoreFeeLookup(fees[1..], amount, id, other);
    } else if fees[0].info.Id() != other {
      assert stored[1..] == StoreFee(fees[1..], amount, id).value;
      StoreFeeUntouched(fees[1..], amount, id, other);
    }
  }

  lemma {:induction false} StoreFeeUntouched(fees: seq<Asset>, amount: Uint128, id: string, other: string)
    requires StoreFee(fees, amount, id).Success?
    requires other != id
    ensures ProtocolFeeFor(StoreFee(fees, amount, id).value, other) == ProtocolFeeFor(fees, other)
  {
    if fees != [] {
      var stored := StoreFee(fees, amount, id).value;
      assert stored[1..] == StoreFee(fees[1..], amount, id).value;
      StoreFeeUntouched(fees[1..], amount, id, other);
    }
  }

  /** With distinct ids, the lookup of an entry's own id is that entry's amount. */
  lemma ProtocolFeeAt(fees: seq<Asset>, i: nat)
    requires DistinctIds(fees) && i < |fees|
    ensures ProtocolFeeFor(fees, fees[i].info.Id()) == fees[i].amount
  {
    ProtocolFeeForFirstMatch(fees, fees[i].info.Id());
  }

  /** A zeroed ledger charges nothing, whatever the id. */
  lemma ZeroedLedgerCharges(fees: seq<Asset>, id: string)
    requires |fees| >= 3
    ensures ProtocolFeeFor(ZeroedLedger(fees), id) == 0
  {
    var z := ZeroedLedger(fees);
    assert z[1..][1..][1..] == [];
    assert ProtocolFeeFor(z[1..][1..], id) == 0;
    assert ProtocolFeeFor(z[1..], id) == 0;
  }
}
