/** The account decoder (`Account.from_layout`): from the parsed fixed-layout
    record, the group configuration and the cache lookups to the resting perp
    orders by market, the per-index position slots with their activity flags,
    and the quote slot. The byte-level layout library is not modelled: the
    record arrives already parsed. */
module AccountDecoder {
  import opened Wrappers
  import opened Seqs
  import opened MangoTypes

  /** A one-byte market tag of the resting-order table. */
  type MarketTag = x: int | 0 <= x < 0x100

  /** The sentinel market tag of an unused resting-order entry. */
  const NoOrderMarket: MarketTag := 0xFF

  /** One entry of the layout's resting-order tables (`order_market`,
      `order_side`, `order_ids`, `client_order_ids` at the same position). */
  datatype OrderRecord = OrderRecord(market: MarketTag, side: Side, id: int, clientId: int)

  /** The parsed `MANGO_ACCOUNT` record, as a record of sequences. */
  datatype Layout = Layout(
    metaData: Metadata,
    owner: PublicKey,
    info: string,
    inMarginBasket: seq<bool>,
    orders: seq<OrderRecord>,
    deposits: seq<real>,
    borrows: seq<real>,
    perpAccounts: seq<PerpRecord>,
    spotOpenOrders: seq<Option<PublicKey>>,
    msrmAmount: real,
    beingLiquidated: bool,
    isBankrupt: bool,
    advancedOrders: PublicKey,
    notUpgradable: bool,
    delegate: PublicKey)

  /** The decoder's collaborators: `Instrument.shift_to_decimals` and
      `TokenBank.root_bank_cache_from_cache` (None when the cache has no
      entry). */
  datatype DecodeEnv = DecodeEnv(
    shiftToDecimals: (Instrument, real) -> real,
    rootBankCache: (TokenBank, nat) -> Option<RootBankCache>)

  // ---------------------------------------------------------------------
  // Resting perp orders grouped by market

  /** Number of per-market order lists: one less than the group's index
      bitmap (the quote position has no perp market). */
  function MarketCount(group: Group): nat
  {
    if |group.slotIndices| == 0 then 0 else |group.slotIndices| - 1
  }

  /** A live order whose market tag has no list to go to (an IndexError in
      the source). */
  predicate Misplaced(o: OrderRecord, marketCount: nat)
  {
    o.market != NoOrderMarket && o.market >= marketCount
  }

  function MisplacedIn(marketCount: nat): OrderRecord -> bool
  {
    o => Misplaced(o, marketCount)
  }

  function ToPlaced(o: OrderRecord): PlacedOrder
  {
    PlacedOrder(o.id, o.clientId, o.side)
  }

  /** The live orders of market `m`, in layout order. */
  function PlacedOrdersFor(orders: seq<OrderRecord>, m: int): (r: seq<PlacedOrder>)
    ensures |r| <= |orders|
  {
    if orders == [] then []
    else
      var o := orders[|orders| - 1];
      PlacedOrdersFor(orders[..|orders| - 1], m) +
        (if o.market != NoOrderMarket && o.market == m then [ToPlaced(o)] else [])
  }

  /** An order is in market `m`'s list exactly when a live layout entry
      tagged `m` carries it. */
  lemma {:induction false} PlacedOrdersForExactly(orders: seq<OrderRecord>, m: int, x: PlacedOrder)
    ensures x in PlacedOrdersFor(orders, m) <==>
              exists j :: 0 <= j < |orders| && orders[j].market != NoOrderMarket && orders[j].market == m &&
                          ToPlaced(orders[j]) == x
  {
    if orders != [] {
      var n := |orders| - 1;
      PlacedOrdersForExactly(orders[..n], m, x);
      if x in PlacedOrdersFor(orders, m) && x !in PlacedOrdersFor(orders[..n], m) {
        assert ToPlaced(orders[n]) == x;
      }
      if exists j :: 0 <= j < |orders| && orders[j].market != NoOrderMarket && orders[j].market == m &&
                     ToPlaced(orders[j]) == x {
        var j :| 0 <= j < |orders| && orders[j].market != NoOrderMarket && orders[j].market == m &&
                 ToPlaced(orders[j]) == x;
        if j < n {
          assert orders[..n][j] == orders[j];
        }
      }
    }
  }

  /** Extending the orders by one entry extends each market's list by that
      entry when it is live and tagged with the market. */
  lemma PlacedOrdersForSnoc(orders: seq<OrderRecord>, index: nat, m: int)
    requires index < |orders|
    ensures PlacedOrdersFor(orders[..index + 1], m) ==
              PlacedOrdersFor(orders[..index], m) +
              (if orders[index].market != NoOrderMarket && orders[index].market == m then [ToPlaced(orders[index])] else [])
  {
    assert orders[..index + 1][..index] == orders[..index];
  }

  function PlacedOrderLists(orders: seq<OrderRecord>, marketCount: nat): (r: seq<seq<PlacedOrder>>)
    ensures |r| == marketCount
  {
    seq(marketCount, m => PlacedOrdersFor(orders, m))
  }

  /** `placed_orders_all_markets`: fails on the first live order whose market
      has no list, otherwise holds every market's live orders. */
  function PlacedOrdersByMarket(orders: seq<OrderRecord>, marketCount: nat): (r: Result<seq<seq<PlacedOrder>>, Error>)
    ensures r.Err? <==> exists j :: 0 <= j < |orders| && Misplaced(orders[j], marketCount)
    ensures r.Err? ==> exists j :: 0 <= j < |orders| && Misplaced(orders[j], marketCount) &&
                                   (forall k :: 0 <= k < j ==> !Misplaced(orders[k], marketCount)) &&
                                   r.error == IndexOutOfRange(OrderLists, orders[j].market)
    ensures r.Ok? ==> r.value == PlacedOrderLists(orders, marketCount)
  {
    match FirstIndex(orders, MisplacedIn(marketCount))
    case Some(j) => Err(IndexOutOfRange(OrderLists, orders[j].market))
    case None => Ok(PlacedOrderLists(orders, marketCount))
  }

  /** The grouping loop of `from_layout`. */
  method GroupPlacedOrders(orders: seq<OrderRecord>, marketCount: nat)
    returns (r: Result<seq<seq<PlacedOrder>>, Error>)
    ensures r == PlacedOrdersByMarket(orders, marketCount)
  {
    var lists: seq<seq<PlacedOrder>> := seq(marketCount, _ => []);
    var index := 0;
    while index < |orders|
      invariant 0 <= index <= |orders|
      invariant forall j :: 0 <= j < index ==> !MisplacedIn(marketCount)(orders[j])
      invariant |lists| == marketCount
      invariant forall m :: 0 <= m < marketCount ==> lists[m] == PlacedOrdersFor(orders[..index], m)
    {
      var o := orders[index];
      forall m | 0 <= m < marketCount
        ensures PlacedOrdersFor(orders[..index + 1], m) ==
                  lists[m] + (if o.market != NoOrderMarket && o.market == m then [ToPlaced(o)] else [])
      {
        PlacedOrdersForSnoc(orders, index, m);
      }
      if o.market != NoOrderMarket {
        if o.market >= marketCount {
          assert MisplacedIn(marketCount)(orders[index]);
          assert FirstIndex(orders, MisplacedIn(marketCount)) == Some(index);
          r := Err(IndexOutOfRange(OrderLists, o.market));
          return;
        }
        lists := lists[o.market := lists[o.market] + [ToPlaced(o)]];
      }
      index := index + 1;
    }
    assert orders[..index] == orders;
    assert FirstIndex(orders, MisplacedIn(marketCount)).None?;
    assert lists == PlacedOrderLists(orders, marketCount);
    r := Ok(lists);
  }

  function TotalLength(lists: seq<seq<PlacedOrder>>): nat
  {
    if lists == [] then 0 else |lists[0]| + TotalLength(lists[1..])
  }

  lemma {:induction false} TotalLengthUpdate(lists: seq<seq<PlacedOrder>>, k: nat, x: PlacedOrder)
    requires k < |lists|
    ensures TotalLength(lists[k := lists[k] + [x]]) == TotalLength(lists) + 1
  {
    var l' := lists[k := lists[k] + [x]];
    if k == 0 {
      assert l'[1..] == lists[1..];
    } else {
      assert l'[1..] == lists[1..][k - 1 := lists[k] + [x]];
      TotalLengthUpdate(lists[1..], k - 1, x);
    }
  }

  /** Number of live (not sentinel-tagged) orders. */
  function LiveOrderCount(orders: seq<OrderRecord>): nat
  {
    if orders == [] then 0
    else LiveOrderCount(orders[..|orders| - 1]) + (if orders[|orders| - 1].market != NoOrderMarket then 1 else 0)
  }

  /** Grouping loses and duplicates nothing: when no order is misplaced, the
      lists together hold exactly the live orders. */
  lemma {:induction false} PlacedOrdersKeepEveryLiveOrder(orders: seq<OrderRecord>, marketCount: nat)
    requires forall j :: 0 <= j < |orders| ==> !Misplaced(orders[j], marketCount)
    ensures TotalLength(PlacedOrderLists(orders, marketCount)) == LiveOrderCount(orders)
  {
    if orders == [] {
      var lists := PlacedOrderLists(orders, marketCount);
      if marketCount > 0 {
        EmptyListsTotal(lists);
      }
    } else {
      var n := |orders| - 1;
      var pre := orders[..n];
      var o := orders[n];
      PlacedOrdersKeepEveryLiveOrder(pre, marketCount);
      var before := PlacedOrderLists(pre, marketCount);
      var after := PlacedOrderLists(orders, marketCount);
      assert orders[..|orders| - 1] == pre;
      if o.market == NoOrderMarket {
        forall m | 0 <= m < marketCount
          ensures after[m] == before[m]
        {
          assert after[m] == PlacedOrdersFor(orders, m);
        }
        assert after == before;
      } else {
        assert !Misplaced(orders[n], marketCount);
        var k := o.market;
        var updated := before[k := before[k] + [ToPlaced(o)]];
        forall m | 0 <= m < marketCount
          ensures after[m] == updated[m]
        {
          assert after[m] == PlacedOrdersFor(orders, m);
        }
        assert after == updated;
        TotalLengthUpdate(before, k, ToPlaced(o));
      }
    }
  }

  lemma {:induction false} EmptyListsTotal(lists: seq<seq<PlacedOrder>>)
    requires forall m :: 0 <= m < |lists| ==> lists[m] == []
    ensures TotalLength(lists) == 0
  {
    if lists != [] {
      EmptyListsTotal(lists[1..]);
    }
  }

  // ---------------------------------------------------------------------
  // Base slots

  /** A raw amount accrued by its interest index. */
  function Accrue(interestIndex: real, raw: real): real
  {
    interestIndex * raw
  }

  /** Raw and interest-accrued deposit and borrow of one position. */
  datatype Amounts = Amounts(rawDeposit: real, intrinsicDeposit: real, rawBorrow: real, intrinsicBorrow: real)

  /** Reads the raw amounts at `index` and applies the bank's cached interest
      indices; a position without a token bank has zero amounts. */
  function BankAmounts(layout: Layout, env: DecodeEnv, bank: Option<TokenBank>, index: nat): (r: Result<Amounts, Error>)
    ensures bank.None? ==> r == Ok(Amounts(0.0, 0.0, 0.0, 0.0))
    ensures bank.Some? && index >= |layout.deposits| ==> r == Err(IndexOutOfRange(Deposits, index))
    ensures bank.Some? && index < |layout.deposits| && env.rootBankCache(bank.value, index).None? ==>
              r == Err(MissingRootBankCache(index))
    ensures r.Ok? && bank.Some? ==>
              index < |layout.deposits| && index < |layout.borrows| && env.rootBankCache(bank.value, index).Some? &&
              var c := env.rootBankCache(bank.value, index).value;
              r.value == Amounts(layout.deposits[index], Accrue(c.depositIndex, layout.deposits[index]),
                                 layout.borrows[index], Accrue(c.borrowIndex, layout.borrows[index]))
  {
    match bank
    case None => Ok(Amounts(0.0, 0.0, 0.0, 0.0))
    case Some(b) =>
      if index >= |layout.deposits| then Err(IndexOutOfRange(Deposits, index))
      else
        var rawDeposit := layout.deposits[index];
        match env.rootBankCache(b, index)
        case None => Err(MissingRootBankCache(index))
        case Some(c) =>
          if index >= |layout.borrows| then Err(IndexOutOfRange(Borrows, index))
          else
            var rawBorrow := layout.borrows[index];
            Ok(Amounts(rawDeposit, Accrue(c.depositIndex, rawDeposit), rawBorrow, Accrue(c.borrowIndex, rawBorrow)))
  }

  /** The slot's deposit and borrow are the bank amounts at `index`, shifted
      to the slot instrument's decimals. */
  ghost predicate AmountsDecoded(slot: AccountSlot, layout: Layout, env: DecodeEnv, bank: Option<TokenBank>, index: nat)
  {
    && SlotWellFormed(slot)
    && slot.deposit.instrument == slot.baseInstrument
    && match bank
       case None =>
         && slot.rawDeposit == 0.0 && slot.rawBorrow == 0.0
         && slot.deposit.value == env.shiftToDecimals(slot.baseInstrument, 0.0)
         && slot.borrow.value == env.shiftToDecimals(slot.baseInstrument, 0.0)
       case Some(b) =>
         && index < |layout.deposits| && index < |layout.borrows|
         && env.rootBankCache(b, index).Some?
         && var c := env.rootBankCache(b, index).value;
         && slot.rawDeposit == layout.deposits[index]
         && slot.rawBorrow == layout.borrows[index]
         && slot.deposit.value == env.shiftToDecimals(slot.baseInstrument, Accrue(c.depositIndex, slot.rawDeposit))
         && slot.borrow.value == env.shiftToDecimals(slot.baseInstrument, Accrue(c.borrowIndex, slot.rawBorrow))
  }

  /** What a slot decoded at basket index `index` holds: the index, the group
      entry's instrument and bank, the group's quote bank, the accrued
      amounts, the layout's open-orders address, and the layout's perp
      sub-record with the resting orders of its market. */
  ghost predicate SlotDecodedFrom(slot: AccountSlot, layout: Layout, group: Group, env: DecodeEnv, placed: seq<seq<PlacedOrder>>, index: nat)
    requires index < |group.slotsByIndex| && group.slotsByIndex[index].Some?
  {
    var gs := group.slotsByIndex[index].value;
    && slot.index == index
    && slot.baseInstrument == gs.baseInstrument
    && slot.baseTokenBank == gs.baseTokenBank
    && slot.quoteTokenBank == group.sharedQuote
    && AmountsDecoded(slot, layout, env, gs.baseTokenBank, index)
    && index < |layout.spotOpenOrders| && slot.spotOpenOrders == layout.spotOpenOrders[index]
    && index < |layout.perpAccounts| && index < |placed|
    && slot.perpAccount == Some(PerpAccount(layout.perpAccounts[index], placed[index], gs.perpLotSizeConverter))
  }

  /** Decodes basket index `index`: nothing for an unconfigured index, and
      for a configured one either the slot described by `SlotDecodedFrom` or
      the error the source raises (a missing root-bank cache entry among
      them). */
  function DecodeSlotAt(layout: Layout, group: Group, env: DecodeEnv, placed: seq<seq<PlacedOrder>>, index: nat)
    : (r: Result<Option<AccountSlot>, Error>)
    requires index < |group.slotsByIndex|
    ensures group.slotsByIndex[index].None? ==> r == Ok(None)
    ensures r.Ok? ==> (r.value.Some? <==> group.slotsByIndex[index].Some?)
    ensures r.Ok? && r.value.Some? ==> SlotWellFormed(r.value.value)
  {
    match group.slotsByIndex[index]
    case None => Ok(None)
    case Some(gs) =>
      var amounts :- BankAmounts(layout, env, gs.baseTokenBank, index);
      var instrument := gs.baseInstrument;
      var deposit := InstrumentValue(instrument, env.shiftToDecimals(instrument, amounts.intrinsicDeposit));
      var borrow := InstrumentValue(instrument, env.shiftToDecimals(instrument, amounts.intrinsicBorrow));
      if index >= |placed| then Err(IndexOutOfRange(OrderLists, index))
      else if index >= |layout.perpAccounts| then Err(IndexOutOfRange(PerpAccounts, index))
      else if index >= |layout.spotOpenOrders| then Err(IndexOutOfRange(SpotOpenOrderAddresses, index))
      else
        var perp := PerpAccount(layout.perpAccounts[index], placed[index], gs.perpLotSizeConverter);
        Ok(Some(AccountSlot(index, instrument, gs.baseTokenBank, group.sharedQuote,
                            amounts.rawDeposit, deposit, amounts.rawBorrow, borrow,
                            layout.spotOpenOrders[index], Some(perp))))
  }

  /** A decoded slot is the one `SlotDecodedFrom` describes, and a
      configured index with a token bank but no root-bank cache entry fails. */
  lemma DecodeSlotAtFields(layout: Layout, group: Group, env: DecodeEnv, placed: seq<seq<PlacedOrder>>, index: nat)
    requires index < |group.slotsByIndex|
    ensures var r := DecodeSlotAt(layout, group, env, placed, index);
            r.Ok? && r.value.Some? ==> SlotDecodedFrom(r.value.value, layout, group, env, placed, index)
    ensures group.slotsByIndex[index].Some? ==>
              var bank := group.slotsByIndex[index].value.baseTokenBank;
              bank.Some? && index < |layout.deposits| && env.rootBankCache(bank.value, index).None? ==>
              DecodeSlotAt(layout, group, env, placed, index) == Err(MissingRootBankCache(index))
  {
  }

  /** The activity flags and slots of the first `count` basket indices. */
  datatype BaseDecode = BaseDecode(active: seq<bool>, slots: seq<AccountSlot>)

  function DecodeBasePrefix(layout: Layout, group: Group, env: DecodeEnv, placed: seq<seq<PlacedOrder>>, count: nat)
    : Result<BaseDecode, Error>
    requires count <= |group.slotsByIndex|
  {
    if count == 0 then Ok(BaseDecode([], []))
    else
      var d :- DecodeBasePrefix(layout, group, env, placed, count - 1);
      var decoded :- DecodeSlotAt(layout, group, env, placed, count - 1);
      match decoded
      case None => Ok(BaseDecode(d.active + [false], d.slots))
      case Some(slot) => Ok(BaseDecode(d.active + [true], d.slots + [slot]))
  }

  /** Once an index fails, decoding any longer prefix fails the same way. */
  lemma {:induction false} DecodeBaseErrorPersists(layout: Layout, group: Group, env: DecodeEnv, placed: seq<seq<PlacedOrder>>, k: nat, m: nat)
    requires k <= m <= |group.slotsByIndex|
    requires DecodeBasePrefix(layout, group, env, placed, k).Err?
    ensures DecodeBasePrefix(layout, group, env, placed, m) == DecodeBasePrefix(layout, group, env, placed, k)
  {
    if m > k {
      DecodeBaseErrorPersists(layout, group, env, placed, k, m - 1);
    }
  }

  /** A decoded prefix has one flag per index, set exactly at configured
      indices, one well-formed slot per set flag, and every index in it
      decodes without error. */
  lemma DecodeBasePrefixCounts(layout: Layout, group: Group, env: DecodeEnv, placed: seq<seq<PlacedOrder>>, count: nat)
    requires count <= |group.slotsByIndex|
    requires DecodeBasePrefix(layout, group, env, placed, count).Ok?
    ensures var d := DecodeBasePrefix(layout, group, env, placed, count).value;
            && |d.active| == count
            && CountTrue(d.active) == |d.slots|
            && (forall i :: 0 <= i < count ==> (d.active[i] <==> group.slotsByIndex[i].Some?))
            && (forall i :: 0 <= i < count ==> DecodeSlotAt(layout, group, env, placed, i).Ok?)
            && (forall k :: 0 <= k < |d.slots| ==> SlotWellFormed(d.slots[k]))
  {
    DecodeBasePrefixLength(layout, group, env, placed, count);
    var d := DecodeBasePrefix(layout, group, env, placed, count).value;
    forall i | 0 <= i < count
      ensures d.active[i] <==> group.slotsByIndex[i].Some?
      ensures DecodeSlotAt(layout, group, env, placed, i).Ok?
    {
      DecodeBasePrefixFlagAt(layout, group, env, placed, count, i);
    }
    forall k | 0 <= k < |d.slots|
      ensures SlotWellFormed(d.slots[k])
    {
      DecodeBasePrefixSlotAt(layout, group, env, placed, count, k);
    }
  }

  /** A decoded prefix has one flag per index and one slot per set flag. */
  lemma {:induction false} DecodeBasePrefixLength(layout: Layout, group: Group, env: DecodeEnv, placed: seq<seq<PlacedOrder>>,
                                                  count: nat)
    requires count <= |group.slotsByIndex|
    requires DecodeBasePrefix(layout, group, env, placed, count).Ok?
    ensures var d := DecodeBasePrefix(layout, group, env, placed, count).value;
            |d.active| == count && CountTrue(d.active) == |d.slots|
  {
    if count > 0 {
      DecodeBasePrefixStep(layout, group, env, placed, count);
      DecodeBasePrefixLength(layout, group, env, placed, count - 1);
      var d0 := DecodeBasePrefix(layout, group, env, placed, count - 1).value;
      var decoded := DecodeSlotAt(layout, group, env, placed, count - 1).value;
      CountTrueAppend(d0.active, decoded.Some?);
    }
  }

  /** In a decoded prefix, index `i` decodes without error and its flag is
      set exactly when the group configures it. */
  lemma {:induction false} DecodeBasePrefixFlagAt(layout: Layout, group: Group, env: DecodeEnv, placed: seq<seq<PlacedOrder>>,
                                                  count: nat, i: nat)
    requires i < count <= |group.slotsByIndex|
    requires DecodeBasePrefix(layout, group, env, placed, count).Ok?
    ensures DecodeSlotAt(layout, group, env, placed, i).Ok?
    ensures var d := DecodeBasePrefix(layout, group, env, placed, count).value;
            i < |d.active| && (d.active[i] <==> group.slotsByIndex[i].Some?)
  {
    DecodeBasePrefixStep(layout, group, env, placed, count);
    DecodeBasePrefixLength(layout, group, env, placed, count - 1);
    var d0 := DecodeBasePrefix(layout, group, env, placed, count - 1).value;
    var decoded := DecodeSlotAt(layout, group, env, placed, count - 1).value;
    if i < count - 1 {
      DecodeBasePrefixFlagAt(layout, group, env, placed, count - 1, i);
      assert (d0.active + [decoded.Some?])[i] == d0.active[i];
    }
  }

  /** Every slot of a decoded prefix is well formed. */
  lemma {:induction false} DecodeBasePrefixSlotAt(layout: Layout, group: Group, env: DecodeEnv, placed: seq<seq<PlacedOrder>>,
                                                  count: nat, k: nat)
    requires count <= |group.slotsByIndex|
    requires DecodeBasePrefix(layout, group, env, placed, count).Ok?
    requires k < |DecodeBasePrefix(layout, group, env, placed, count).value.slots|
    ensures SlotWellFormed(DecodeBasePrefix(layout, group, env, placed, count).value.slots[k])
  {
    if count > 0 {
      DecodeBasePrefixStep(layout, group, env, placed, count);
      var d0 := DecodeBasePrefix(layout, group, env, placed, count - 1).value;
      var decoded := DecodeSlotAt(layout, group, env, placed, count - 1).value;
      if k < |d0.slots| {
        DecodeBasePrefixSlotAt(layout, group, env, placed, count - 1, k);
        assert (d0.slots + (if decoded.Some? then [decoded.value] else []))[k] == d0.slots[k];
      }
    }
  }

  /** The sparse view of a decoded prefix holds at each index what that index
      decodes to. */
  lemma DecodeBasePrefixSparse(layout: Layout, group: Group, env: DecodeEnv, placed: seq<seq<PlacedOrder>>, count: nat)
    requires count <= |group.slotsByIndex|
    requires DecodeBasePrefix(layout, group, env, placed, count).Ok?
    ensures var d := DecodeBasePrefix(layout, group, env, placed, count).value;
            |d.active| == count && CountTrue(d.active) == |d.slots| &&
            forall i :: 0 <= i < count ==>
              DecodeSlotAt(layout, group, env, placed, i).Ok? &&
              SparseView(d.active, d.slots)[i] == DecodeSlotAt(layout, group, env, placed, i).value
  {
    DecodeBasePrefixLength(layout, group, env, placed, count);
    forall i | 0 <= i < count
      ensures DecodeSlotAt(layout, group, env, placed, i).Ok?
      ensures var d := DecodeBasePrefix(layout, group, env, placed, count).value;
              SparseView(d.active, d.slots)[i] == DecodeSlotAt(layout, group, env, placed, i).value
    {
      DecodeBasePrefixSparseAt(layout, group, env, placed, count, i);
    }
  }

  /** `DecodeBasePrefixSparse` at one index, by induction on the walk. */
  lemma {:induction false} DecodeBasePrefixSparseAt(layout: Layout, group: Group, env: DecodeEnv, placed: seq<seq<PlacedOrder>>,
                                                     count: nat, i: nat)
    requires i < count <= |group.slotsByIndex|
    requires DecodeBasePrefix(layout, group, env, placed, count).Ok?
    ensures var d := DecodeBasePrefix(layout, group, env, placed, count).value;
            && CountTrue(d.active) == |d.slots| && i < |d.active|
            && DecodeSlotAt(layout, group, env, placed, i).Ok?
            && SparseView(d.active, d.slots)[i] == DecodeSlotAt(layout, group, env, placed, i).value
  {
    DecodeBasePrefixStep(layout, group, env, placed, count);
    DecodeBasePrefixLength(layout, group, env, placed, count - 1);
    var d0 := DecodeBasePrefix(layout, group, env, placed, count - 1).value;
    var decoded := DecodeSlotAt(layout, group, env, placed, count - 1).value;
    SparseViewAppendAt(d0.active, d0.slots, decoded, i);
    if i < count - 1 {
      DecodeBasePrefixSparseAt(layout, group, env, placed, count - 1, i);
    }
  }

  /** One step of the basket walk: a successful walk over `count` indices
      extends the walk over `count - 1` by index `count - 1`'s flag and
      slot. */
  lemma DecodeBasePrefixStep(layout: Layout, group: Group, env: DecodeEnv, placed: seq<seq<PlacedOrder>>, count: nat)
    requires 0 < count <= |group.slotsByIndex|
    requires DecodeBasePrefix(layout, group, env, placed, count).Ok?
    ensures DecodeBasePrefix(layout, group, env, placed, count - 1).Ok?
    ensures DecodeSlotAt(layout, group, env, placed, count - 1).Ok?
    ensures var d0 := DecodeBasePrefix(layout, group, env, placed, count - 1).value;
            var decoded := DecodeSlotAt(layout, group, env, placed, count - 1).value;
            DecodeBasePrefix(layout, group, env, placed, count).value ==
              BaseDecode(d0.active + [decoded.Some?], d0.slots + (if decoded.Some? then [decoded.value] else []))
  {
  }

  /** The per-index loop of `from_layout`. */
  method DecodeBaseSlots(layout: Layout, group: Group, env: DecodeEnv, placed: seq<seq<PlacedOrder>>)
    returns (r: Result<BaseDecode, Error>)
    ensures r == DecodeBasePrefix(layout, group, env, placed, |group.slotsByIndex|)
  {
    var active: seq<bool> := [];
    var slots: seq<AccountSlot> := [];
    var index := 0;
    while index < |group.slotsByIndex|
      invariant 0 <= index <= |group.slotsByIndex|
      invariant DecodeBasePrefix(layout, group, env, placed, index) == Ok(BaseDecode(active, slots))
    {
      var decoded := DecodeSlotAt(layout, group, env, placed, index);
      if decoded.Err? {
        DecodeBaseErrorPersists(layout, group, env, placed, index + 1, |group.slotsByIndex|);
        r := Err(decoded.error);
        return;
      }
      match decoded.value {
        case Some(slot) =>
          slots := slots + [slot];
          active := active + [true];
        case None =>
          active := active + [false];
      }
      index := index + 1;
    }
    r := Ok(BaseDecode(active, slots));
  }

  // ---------------------------------------------------------------------
  // Quote slot and the whole record

  /** The quote slot: the last index of the deposit and borrow tables, the
      group's quote bank as both base and quote bank, and neither an
      open-orders address nor a perp sub-position. */
  function DecodeQuoteSlot(layout: Layout, group: Group, env: DecodeEnv): (r: Result<AccountSlot, Error>)
    ensures |layout.deposits| == 0 ==> r == Err(IndexOutOfRange(Deposits, -1))
    ensures |layout.deposits| > 0 && env.rootBankCache(group.sharedQuote, |layout.deposits| - 1).None? ==>
              r == Err(MissingQuoteRootBankCache)
    ensures r.Ok? ==>
              var q := r.value;
              && q.index == |layout.deposits| - 1
              && q.baseInstrument == group.sharedQuote.token
              && q.baseTokenBank == Some(group.sharedQuote)
              && q.quoteTokenBank == group.sharedQuote
              && q.spotOpenOrders.None? && q.perpAccount.None?
              && AmountsDecoded(q, layout, env, Some(group.sharedQuote), q.index)
  {
    if |layout.deposits| == 0 then Err(IndexOutOfRange(Deposits, -1))
    else
      var quoteIndex := |layout.deposits| - 1;
      var bank := group.sharedQuote;
      var quoteToken := bank.token;
      var rawDeposit := layout.deposits[quoteIndex];
      match env.rootBankCache(bank, quoteIndex)
      case None => Err(MissingQuoteRootBankCache)
      case Some(c) =>
        if quoteIndex >= |layout.borrows| then Err(IndexOutOfRange(Borrows, quoteIndex))
        else
          var rawBorrow := layout.borrows[quoteIndex];
          var deposit := InstrumentValue(quoteToken, env.shiftToDecimals(quoteToken, Accrue(c.depositIndex, rawDeposit)));
          var borrow := InstrumentValue(quoteToken, env.shiftToDecimals(quoteToken, Accrue(c.borrowIndex, rawBorrow)));
          Ok(AccountSlot(quoteIndex, quoteToken, Some(bank), bank, rawDeposit, deposit, rawBorrow, borrow, None, None))
  }

  /** The position data `from_layout` hands to the account. */
  datatype Decoded = Decoded(activeInBasket: seq<bool>, baseSlots: seq<AccountSlot>, sharedQuote: AccountSlot)

  /** `from_layout`, as a function: orders first, then the basket indices in
      order, then the quote slot; the first failure is the result, and a
      success carries what each stage produced. */
  function Decode(layout: Layout, group: Group, env: DecodeEnv): (r: Result<Decoded, Error>)
    ensures var placed := PlacedOrdersByMarket(layout.orders, MarketCount(group));
            placed.Err? ==> r == Err(placed.error)
    ensures var placed := PlacedOrdersByMarket(layout.orders, MarketCount(group));
            var quote := DecodeQuoteSlot(layout, group, env);
            placed.Ok? ==>
              var base := DecodeBasePrefix(layout, group, env, placed.value, |group.slotsByIndex|);
              && (base.Err? ==> r == Err(base.error))
              && (base.Ok? && quote.Err? ==> r == Err(quote.error))
              && (base.Ok? && quote.Ok? ==> r == Ok(Decoded(base.value.active, base.value.slots, quote.value)))
  {
    var placed :- PlacedOrdersByMarket(layout.orders, MarketCount(group));
    var base :- DecodeBasePrefix(layout, group, env, placed, |group.slotsByIndex|);
    var quote :- DecodeQuoteSlot(layout, group, env);
    Ok(Decoded(base.active, base.slots, quote))
  }

  /** Every successful decode has one flag per group basket index, set exactly
      at the configured ones, one slot per set flag (so the number of set
      flags is the number of base slots), well-formed slots, and at each
      configured index the slot that index decodes to with the live orders of
      its market. */
  lemma DecodeShape(layout: Layout, group: Group, env: DecodeEnv)
    requires Decode(layout, group, env).Ok?
    ensures var d := Decode(layout, group, env).value;
            var placed := PlacedOrderLists(layout.orders, MarketCount(group));
            && |d.activeInBasket| == |group.slotsByIndex|
            && CountTrue(d.activeInBasket) == |d.baseSlots|
            && (forall i :: 0 <= i < |group.slotsByIndex| ==> (d.activeInBasket[i] <==> group.slotsByIndex[i].Some?))
            && (forall i :: 0 <= i < |group.slotsByIndex| ==>
                  DecodeSlotAt(layout, group, env, placed, i).Ok? &&
                  SparseView(d.activeInBasket, d.baseSlots)[i] == DecodeSlotAt(layout, group, env, placed, i).value)
            && (forall k :: 0 <= k < |d.baseSlots| ==> SlotWellFormed(d.baseSlots[k]))
            && SlotWellFormed(d.sharedQuote)
            && d.sharedQuote.baseTokenBank.Some?
  {
    var placed := PlacedOrderLists(layout.orders, MarketCount(group));
    assert PlacedOrdersByMarket(layout.orders, MarketCount(group)) == Ok(placed);
    DecodeBasePrefixCounts(layout, group, env, placed, |group.slotsByIndex|);
    DecodeBasePrefixSparse(layout, group, env, placed, |group.slotsByIndex|);
  }

  /** A configured index whose token bank has no root-bank cache entry makes
      the whole decode fail: the decoder never defaults the interest index. */
  lemma MissingRootBankCacheIsFatal(layout: Layout, group: Group, env: DecodeEnv, index: nat)
    requires index < |group.slotsByIndex| && group.slotsByIndex[index].Some?
    requires group.slotsByIndex[index].value.baseTokenBank.Some?
    requires index < |layout.deposits|
    requires env.rootBankCache(group.slotsByIndex[index].value.baseTokenBank.value, index).None?
    ensures Decode(layout, group, env).Err?
  {
    var orders := PlacedOrdersByMarket(layout.orders, MarketCount(group));
    if orders.Ok? {
      var placed := orders.value;
      DecodeSlotAtFields(layout, group, env, placed, index);
      assert DecodeBasePrefix(layout, group, env, placed, index + 1).Err?;
      DecodeBaseErrorPersists(layout, group, env, placed, index + 1, |group.slotsByIndex|);
    }
  }

  /** A missing quote root-bank cache entry makes the decode fail too. */
  lemma MissingQuoteRootBankCacheIsFatal(layout: Layout, group: Group, env: DecodeEnv)
    requires |layout.deposits| > 0
    requires env.rootBankCache(group.sharedQuote, |layout.deposits| - 1).None?
    ensures Decode(layout, group, env).Err?
  {
  }
}
