/** The `Account` aggregate: the decoded account, its dense and by-index
    views, the slot lookups, the in-place update of a market's spot
    open-orders address, and the construction of the valuation table. */
module MangoAccount {
  import opened Wrappers
  import opened Seqs
  import opened MangoTypes
  import opened AccountDecoder
  import opened Valuation

  function HasInstrument(instrument: Instrument): AccountSlot -> bool
  {
    (s: AccountSlot) => s.baseInstrument == instrument
  }

  function HasSpotOpenOrders(address: PublicKey): AccountSlot -> bool
  {
    (s: AccountSlot) => s.spotOpenOrders == Some(address)
  }

  class Account {
    const address: PublicKey
    const version: Version
    const metaData: Metadata
    const groupName: string
    const groupAddress: PublicKey
    const owner: PublicKey
    const info: string
    var sharedQuote: AccountSlot
    const inMarginBasket: seq<bool>
    /** One flag per group basket index: whether that index holds a base slot. */
    const slotIndices: seq<bool>
    /** The base slots, densely, in basket-index order. */
    var baseSlots: seq<AccountSlot>
    const msrmAmount: real
    const beingLiquidated: bool
    const isBankrupt: bool
    const advancedOrders: PublicKey
    const notUpgradable: bool
    const delegate: PublicKey

    /** One base slot per set flag, and a shared quote slot that has a
        token bank. */
    ghost predicate Valid()
      reads this
    {
      && CountTrue(slotIndices) == |baseSlots|
      && sharedQuote.baseTokenBank.Some?
    }

    constructor (address: PublicKey, version: Version, metaData: Metadata, groupName: string,
                 groupAddress: PublicKey, owner: PublicKey, info: string, sharedQuote: AccountSlot,
                 inMarginBasket: seq<bool>, slotIndices: seq<bool>, baseSlots: seq<AccountSlot>,
                 msrmAmount: real, beingLiquidated: bool, isBankrupt: bool, advancedOrders: PublicKey,
                 notUpgradable: bool, delegate: PublicKey)
      requires CountTrue(slotIndices) == |baseSlots|
      requires sharedQuote.baseTokenBank.Some?
      ensures Valid()
      ensures this.address == address && this.version == version && this.metaData == metaData
      ensures this.groupName == groupName && this.groupAddress == groupAddress
      ensures this.owner == owner && this.info == info && this.sharedQuote == sharedQuote
      ensures this.inMarginBasket == inMarginBasket && this.slotIndices == slotIndices
      ensures this.baseSlots == baseSlots && this.msrmAmount == msrmAmount
      ensures this.beingLiquidated == beingLiquidated && this.isBankrupt == isBankrupt
      ensures this.advancedOrders == advancedOrders && this.notUpgradable == notUpgradable
      ensures this.delegate == delegate
    {
      this.address := address;
      this.version := version;
      this.metaData := metaData;
      this.groupName := groupName;
      this.groupAddress := groupAddress;
      this.owner := owner;
      this.info := info;
      this.sharedQuote := sharedQuote;
      this.inMarginBasket := inMarginBasket;
      this.slotIndices := slotIndices;
      this.baseSlots := baseSlots;
      this.msrmAmount := msrmAmount;
      this.beingLiquidated := beingLiquidated;
      this.isBankrupt := isBankrupt;
      this.advancedOrders := advancedOrders;
      this.notUpgradable := notUpgradable;
      this.delegate := delegate;
    }

    /** The account holds exactly what `Decode` made of `layout`. */
    ghost predicate HoldsDecoded(layout: Layout, group: Group, d: Decoded)
      reads this
    {
      && metaData == layout.metaData && owner == layout.owner && info == layout.info
      && groupName == group.name && groupAddress == group.address
      && inMarginBasket == layout.inMarginBasket
      && slotIndices == d.activeInBasket && baseSlots == d.baseSlots && sharedQuote == d.sharedQuote
      && msrmAmount == layout.msrmAmount && beingLiquidated == layout.beingLiquidated
      && isBankrupt == layout.isBankrupt && advancedOrders == layout.advancedOrders
      && notUpgradable == layout.notUpgradable && delegate == layout.delegate
    }

    /** `Account.from_layout`: fails exactly as the decode does, and
        otherwise builds a fresh valid account holding the decode. */
    static method FromLayout(layout: Layout, address: PublicKey, version: Version, group: Group, env: DecodeEnv)
      returns (r: Result<Account, Error>)
      ensures r.Err? <==> Decode(layout, group, env).Err?
      ensures r.Err? ==> r.error == Decode(layout, group, env).error
      ensures r.Ok? ==> && fresh(r.value) && r.value.Valid()
                        && r.value.address == address && r.value.version == version
                        && r.value.HoldsDecoded(layout, group, Decode(layout, group, env).value)
    {
      var placed := GroupPlacedOrders(layout.orders, MarketCount(group));
      if placed.Err? {
        return Err(placed.error);
      }
      var base := DecodeBaseSlots(layout, group, env, placed.value);
      if base.Err? {
        return Err(base.error);
      }
      var quote := DecodeQuoteSlot(layout, group, env);
      if quote.Err? {
        return Err(quote.error);
      }
      DecodeShape(layout, group, env);
      var account := new Account(address, version, layout.metaData, group.name, group.address, layout.owner,
                                 layout.info, quote.value, layout.inMarginBasket, base.value.active,
                                 base.value.slots, layout.msrmAmount, layout.beingLiquidated, layout.isBankrupt,
                                 layout.advancedOrders, layout.notUpgradable, layout.delegate);
      r := Ok(account);
    }

    /** `Account.parse`: data of the wrong size is refused before anything is
        decoded; otherwise the parsed layout is decoded as a version 3
        account. The byte layout itself is the `parseLayout` parameter. */
    static method Parse(data: seq<bv8>, address: PublicKey, expectedSize: nat, parseLayout: seq<bv8> -> Layout,
                        group: Group, env: DecodeEnv)
      returns (r: Result<Account, Error>)
      ensures |data| != expectedSize ==> r == Err(SizeMismatch(|data|, expectedSize))
      ensures |data| == expectedSize ==> (r.Err? <==> Decode(parseLayout(data), group, env).Err?)
      ensures |data| == expectedSize && r.Err? ==> r.error == Decode(parseLayout(data), group, env).error
      ensures r.Ok? ==> && |data| == expectedSize && fresh(r.value) && r.value.Valid()
                        && r.value.address == address && r.value.version == V3
                        && r.value.HoldsDecoded(parseLayout(data), group, Decode(parseLayout(data), group, env).value)
    {
      if |data| != expectedSize {
        return Err(SizeMismatch(|data|, expectedSize));
      }
      r := FromLayout(parseLayout(data), address, V3, group, env);
    }

    /** `shared_quote_token`: the shared quote slot's token. */
    function QuoteToken(): (t: Instrument)
      reads this
      requires Valid()
      ensures sharedQuote.baseTokenBank.Some? && t == sharedQuote.baseTokenBank.value.token
    {
      sharedQuote.baseTokenBank.value.token
    }

    /** `slots`: every base slot in order, then the shared quote slot. */
    function Slots(): (r: seq<AccountSlot>)
      reads this
      ensures |r| == |baseSlots| + 1 && r[|baseSlots|] == sharedQuote
      ensures forall k :: 0 <= k < |baseSlots| ==> r[k] == baseSlots[k]
    {
      baseSlots + [sharedQuote]
    }

    /** `base_slots_by_index`: walks the flags with a counter into the dense
        slots, yielding the next slot at a set flag and nothing at a clear
        one. */
    method BaseSlotsByIndex() returns (r: seq<Option<AccountSlot>>)
      requires Valid()
      ensures r == SparseView(slotIndices, baseSlots)
      ensures |r| == |slotIndices|
      ensures forall i :: 0 <= i < |slotIndices| ==> (r[i].None? <==> !slotIndices[i])
      ensures forall i :: 0 <= i < |slotIndices| && slotIndices[i] ==>
                CountTrue(slotIndices[..i]) < |baseSlots| && r[i] == Some(baseSlots[CountTrue(slotIndices[..i])])
    {
      var bits, dense := slotIndices, baseSlots;
      r := [];
      var slotCounter := 0;
      var index := 0;
      while index < |bits|
        invariant 0 <= index <= |bits|
        invariant slotCounter == CountTrue(bits[..index]) <= |dense|
        invariant r == SparseView(bits[..index], dense[..slotCounter])
      {
        var front := bits[..index];
        assert bits[..index + 1] == front + [bits[index]];
        CountTrueAppend(front, bits[index]);
        CountTruePrefixLe(bits, index + 1);
        if bits[index] {
          SparseViewAppend(front, dense[..slotCounter], Some(dense[slotCounter]));
          assert dense[..slotCounter] + [dense[slotCounter]] == dense[..slotCounter + 1];
          r := r + [Some(dense[slotCounter])];
          slotCounter := slotCounter + 1;
        } else {
          SparseViewAppend(front, dense[..slotCounter], None);
          assert dense[..slotCounter] + [] == dense[..slotCounter];
          r := r + [None];
        }
        index := index + 1;
      }
      assert bits[..index] == bits;
      assert dense[..slotCounter] == dense;
      SparseViewEvery(bits, dense);
    }

    /** `slots_by_index`: the base slots by index, then the shared quote. */
    function SlotsByIndex(): (r: seq<Option<AccountSlot>>)
      reads this
      requires Valid()
      ensures |r| == |slotIndices| + 1 && r[|slotIndices|] == Some(sharedQuote)
      ensures forall i :: 0 <= i < |slotIndices| ==> (r[i].None? <==> !slotIndices[i])
      ensures forall i :: 0 <= i < |slotIndices| && slotIndices[i] ==>
                CountTrue(slotIndices[..i]) < |baseSlots| && r[i] == Some(baseSlots[CountTrue(slotIndices[..i])])
    {
      SparseViewEvery(slotIndices, baseSlots);
      SparseView(slotIndices, baseSlots) + [Some(sharedQuote)]
    }

    /** `deposits`: one per slot, the shared quote's last. */
    function Deposits(): (r: seq<InstrumentValue>)
      reads this
      ensures |r| == |baseSlots| + 1 && r[|baseSlots|] == sharedQuote.deposit
      ensures forall k :: 0 <= k < |baseSlots| ==> r[k] == baseSlots[k].deposit
    {
      var slots := Slots();
      seq(|slots|, k requires 0 <= k < |slots| => slots[k].deposit)
    }

    /** `deposits_by_index`: a deposit at every slot-holding index. */
    function DepositsByIndex(): (r: seq<Option<InstrumentValue>>)
      reads this
      requires Valid()
      ensures |r| == |slotIndices| + 1 && r[|slotIndices|] == Some(sharedQuote.deposit)
      ensures forall i :: 0 <= i < |slotIndices| ==> (r[i].None? <==> !slotIndices[i])
      ensures forall i :: 0 <= i < |slotIndices| && slotIndices[i] ==>
                CountTrue(slotIndices[..i]) < |baseSlots| && r[i] == Some(baseSlots[CountTrue(slotIndices[..i])].deposit)
    {
      MapPresent(SlotsByIndex(), (s: AccountSlot) => Some(s.deposit))
    }

    /** `borrows`: one per slot, the shared quote's last. */
    function Borrows(): (r: seq<InstrumentValue>)
      reads this
      ensures |r| == |baseSlots| + 1 && r[|baseSlots|] == sharedQuote.borrow
      ensures forall k :: 0 <= k < |baseSlots| ==> r[k] == baseSlots[k].borrow
    {
      var slots := Slots();
      seq(|slots|, k requires 0 <= k < |slots| => slots[k].borrow)
    }

    /** `borrows_by_index`: a borrow at every slot-holding index. */
    function BorrowsByIndex(): (r: seq<Option<InstrumentValue>>)
      reads this
      requires Valid()
      ensures |r| == |slotIndices| + 1 && r[|slotIndices|] == Some(sharedQuote.borrow)
      ensures forall i :: 0 <= i < |slotIndices| ==> (r[i].None? <==> !slotIndices[i])
      ensures forall i :: 0 <= i < |slotIndices| && slotIndices[i] ==>
                CountTrue(slotIndices[..i]) < |baseSlots| && r[i] == Some(baseSlots[CountTrue(slotIndices[..i])].borrow)
    {
      MapPresent(SlotsByIndex(), (s: AccountSlot) => Some(s.borrow))
    }

    /** `net_values`: each slot's deposit less its borrow. */
    function NetValues(): (r: seq<InstrumentValue>)
      reads this
      ensures |r| == |baseSlots| + 1
      ensures forall k :: 0 <= k < |r| ==>
                r[k].instrument == Deposits()[k].instrument && r[k].value == Deposits()[k].value - Borrows()[k].value
    {
      var slots := Slots();
      seq(|slots|, k requires 0 <= k < |slots| => NetValue(slots[k]))
    }

    /** `net_values_by_index`: a net value at every slot-holding index. */
    function NetValuesByIndex(): (r: seq<Option<InstrumentValue>>)
      reads this
      requires Valid()
      ensures |r| == |slotIndices| + 1
      ensures forall i :: 0 <= i < |r| ==> (r[i].None? <==> DepositsByIndex()[i].None?)
      ensures forall i :: 0 <= i < |r| && r[i].Some? ==>
                r[i].value.instrument == DepositsByIndex()[i].value.instrument &&
                r[i].value.value == DepositsByIndex()[i].value.value - BorrowsByIndex()[i].value.value
    {
      MapPresent(SlotsByIndex(), (s: AccountSlot) => Some(NetValue(s)))
    }

    /** `spot_open_orders`: the open-orders addresses the base slots have. */
    function SpotOpenOrders(): (r: seq<PublicKey>)
      reads this
      ensures forall k :: 0 <= k < |r| ==> exists j :: 0 <= j < |baseSlots| && baseSlots[j].spotOpenOrders == Some(r[k])
      ensures forall j :: 0 <= j < |baseSlots| && baseSlots[j].spotOpenOrders.Some? ==> baseSlots[j].spotOpenOrders.value in r
    {
      var addresses := seq(|baseSlots|, j requires 0 <= j < |baseSlots| reads this => baseSlots[j].spotOpenOrders);
      assert forall j :: 0 <= j < |baseSlots| ==> addresses[j] == baseSlots[j].spotOpenOrders;
      var r := Present(addresses);
      assert forall k :: 0 <= k < |r| ==> Some(r[k]) in addresses;
      r
    }

    /** `spot_open_orders_by_index`: over the base slots by index only, so
        with no entry for the shared quote. */
    function SpotOpenOrdersByIndex(): (r: seq<Option<PublicKey>>)
      reads this
      requires Valid()
      ensures |r| == |slotIndices|
      ensures forall i :: 0 <= i < |slotIndices| && !slotIndices[i] ==> r[i].None?
      ensures forall i :: 0 <= i < |slotIndices| && slotIndices[i] ==>
                CountTrue(slotIndices[..i]) < |baseSlots| && r[i] == baseSlots[CountTrue(slotIndices[..i])].spotOpenOrders
    {
      SparseViewEvery(slotIndices, baseSlots);
      MapPresent(SparseView(slotIndices, baseSlots), (s: AccountSlot) => s.spotOpenOrders)
    }

    /** `perp_accounts`: the perp accounts the base slots have. */
    function PerpAccounts(): (r: seq<PerpAccount>)
      reads this
      ensures forall k :: 0 <= k < |r| ==> exists j :: 0 <= j < |baseSlots| && baseSlots[j].perpAccount == Some(r[k])
      ensures forall j :: 0 <= j < |baseSlots| && baseSlots[j].perpAccount.Some? ==> baseSlots[j].perpAccount.value in r
    {
      var accounts := seq(|baseSlots|, j requires 0 <= j < |baseSlots| reads this => baseSlots[j].perpAccount);
      assert forall j :: 0 <= j < |baseSlots| ==> accounts[j] == baseSlots[j].perpAccount;
      var r := Present(accounts);
      assert forall k :: 0 <= k < |r| ==> Some(r[k]) in accounts;
      r
    }

    /** `perp_accounts_by_index`: over every slot by index, the shared quote
        included. */
    function PerpAccountsByIndex(): (r: seq<Option<PerpAccount>>)
      reads this
      requires Valid()
      ensures |r| == |slotIndices| + 1 && r[|slotIndices|] == sharedQuote.perpAccount
      ensures forall i :: 0 <= i < |slotIndices| && !slotIndices[i] ==> r[i].None?
      ensures forall i :: 0 <= i < |slotIndices| && slotIndices[i] ==>
                CountTrue(slotIndices[..i]) < |baseSlots| && r[i] == baseSlots[CountTrue(slotIndices[..i])].perpAccount
    {
      MapPresent(SlotsByIndex(), (s: AccountSlot) => s.perpAccount)
    }

    /** `slot_by_instrument_or_none`: the first slot, quote last, whose base
        instrument is `instrument`. */
    function SlotByInstrumentOrNone(instrument: Instrument): (r: Option<AccountSlot>)
      reads this
      ensures r.None? <==> forall k :: 0 <= k < |Slots()| ==> Slots()[k].baseInstrument != instrument
      ensures r.Some? ==> exists k :: 0 <= k < |Slots()| && Slots()[k] == r.value && r.value.baseInstrument == instrument &&
                            forall j :: 0 <= j < k ==> Slots()[j].baseInstrument != instrument
    {
      var slots := Slots();
      match FirstIndex(slots, HasInstrument(instrument))
      case None => None
      case Some(k) => Some(slots[k])
    }

    /** `slot_by_instrument`: as above, failing when no slot matches. */
    function SlotByInstrument(instrument: Instrument): (r: Result<AccountSlot, Error>)
      reads this
      ensures r.Err? <==> SlotByInstrumentOrNone(instrument).None?
      ensures r.Err? ==> r.error == InstrumentNotFound(instrument)
      ensures r.Ok? ==> Some(r.value) == SlotByInstrumentOrNone(instrument) && r.value.baseInstrument == instrument
    {
      match SlotByInstrumentOrNone(instrument)
      case None => Err(InstrumentNotFound(instrument))
      case Some(slot) => Ok(slot)
    }

    /** `slot_by_spot_open_orders_or_none`: the first slot, quote last, whose
        spot open-orders address is `address`. */
    function SlotBySpotOpenOrdersOrNone(address: PublicKey): (r: Option<AccountSlot>)
      reads this
      ensures r.None? <==> forall k :: 0 <= k < |Slots()| ==> Slots()[k].spotOpenOrders != Some(address)
      ensures r.Some? ==> exists k :: 0 <= k < |Slots()| && Slots()[k] == r.value && r.value.spotOpenOrders == Some(address) &&
                            forall j :: 0 <= j < k ==> Slots()[j].spotOpenOrders != Some(address)
    {
      var slots := Slots();
      match FirstIndex(slots, HasSpotOpenOrders(address))
      case None => None
      case Some(k) => Some(slots[k])
    }

    /** `slot_by_spot_open_orders`: as above, failing when no slot matches. */
    function SlotBySpotOpenOrders(address: PublicKey): (r: Result<AccountSlot, Error>)
      reads this
      ensures r.Err? <==> SlotBySpotOpenOrdersOrNone(address).None?
      ensures r.Err? ==> r.error == OpenOrdersNotFound(address)
      ensures r.Ok? ==> Some(r.value) == SlotBySpotOpenOrdersOrNone(address) && r.value.spotOpenOrders == Some(address)
    {
      match SlotBySpotOpenOrdersOrNone(address)
      case None => Err(OpenOrdersNotFound(address))
      case Some(slot) => Ok(slot)
    }

    /** `update_spot_open_orders_for_market`: the entry of the by-index view
        at `spotMarketIndex` (negative indices count from the end, so -1 and
        the basket length both reach the shared quote) gets the open-orders
        address; an index out of range or an index without a slot fails and
        changes nothing. The entry is the slot object itself, so the change
        lands in the base slots or in the shared quote. */
    method UpdateSpotOpenOrdersForMarket(spotMarketIndex: int, spotOpenOrders: PublicKey) returns (r: Outcome<Error>)
      requires Valid()
      modifies this
      ensures Valid()
      ensures var j := ListIndex(spotMarketIndex, |slotIndices| + 1);
              && (j.None? ==> r == Fail(IndexOutOfRange(Table.SlotsByIndex, spotMarketIndex)))
              && (j.Some? && old(SlotsByIndex())[j.value].None? ==> r == Fail(NoSlotAtIndex(spotMarketIndex)))
              && (j.Some? && old(SlotsByIndex())[j.value].Some? ==>
                    && r == Pass
                    && SlotsByIndex() == old(SlotsByIndex())[j.value :=
                         Some(old(SlotsByIndex())[j.value].value.(spotOpenOrders := Some(spotOpenOrders)))])
      ensures r.Fail? ==> baseSlots == old(baseSlots) && sharedQuote == old(sharedQuote)
      ensures r.Pass? ==> |baseSlots| == |old(baseSlots)|
      ensures r.Pass? && ListIndex(spotMarketIndex, |slotIndices| + 1) == Some(|slotIndices|) ==>
                baseSlots == old(baseSlots) && sharedQuote == old(sharedQuote).(spotOpenOrders := Some(spotOpenOrders))
      ensures r.Pass? && ListIndex(spotMarketIndex, |slotIndices| + 1) != Some(|slotIndices|) ==>
                var j := ListIndex(spotMarketIndex, |slotIndices| + 1).value;
                && j < |slotIndices| && CountTrue(slotIndices[..j]) < |old(baseSlots)|
                && sharedQuote == old(sharedQuote)
                && baseSlots == old(baseSlots)[CountTrue(slotIndices[..j]) :=
                                 old(baseSlots)[CountTrue(slotIndices[..j])].(spotOpenOrders := Some(spotOpenOrders))]
    {
      var j := ListIndex(spotMarketIndex, |slotIndices| + 1);
      if j.None? {
        return Fail(IndexOutOfRange(Table.SlotsByIndex, spotMarketIndex));
      }
      var i := j.value;
      if i == |slotIndices| {
        sharedQuote := sharedQuote.(spotOpenOrders := Some(spotOpenOrders));
        SparseViewEvery(slotIndices, baseSlots);
        return Pass;
      }
      if !slotIndices[i] {
        return Fail(NoSlotAtIndex(spotMarketIndex));
      }
      SparseViewAt(slotIndices, baseSlots, i);
      var k := CountTrue(slotIndices[..i]);
      SparseViewUpdate(slotIndices, baseSlots, i, baseSlots[k].(spotOpenOrders := Some(spotOpenOrders)));
      baseSlots := baseSlots[k := baseSlots[k].(spotOpenOrders := Some(spotOpenOrders))];
      r := Pass;
    }

    /** `to_dataframe`: one row per slot, in slot order, the first failing
        slot's error otherwise. */
    method ToDataframe(openOrders: map<PublicKey, OpenOrders>, env: ValuationEnv) returns (r: Result<seq<Row>, Error>)
      requires Valid()
      ensures r == Rows(Slots(), Context(QuoteToken(), inMarginBasket, openOrders, env))
    {
      var slots := Slots();
      var ctx := Context(QuoteToken(), inMarginBasket, openOrders, env);
      var rows: seq<Row> := [];
      var index := 0;
      while index < |slots|
        invariant 0 <= index <= |slots|
        invariant RowsPrefix(slots, ctx, index) == Ok(rows)
      {
        var row := RowFor(slots[index], ctx);
        if row.Err? {
          RowsErrorPersists(slots, ctx, index + 1, |slots|);
          return Err(row.error);
        }
        rows := rows + [row.value];
        index := index + 1;
      }
      r := Ok(rows);
    }
  }
}
