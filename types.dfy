/** Value types of the account model: keys, instruments, token banks,
    instrument values, the per-position slot, the group configuration the
    decoder reads, and the errors the source raises. */
module MangoTypes {
  import opened Wrappers

  datatype PublicKey = PublicKey(bytes: seq<bv8>)

  datatype Version = V1 | V2 | V3

  /** The metadata header of an on-chain record. */
  datatype Metadata = Metadata(dataType: nat, version: nat, isInitialized: bool)

  /** A tradable asset; `decimals` is its native precision. */
  datatype Instrument = Instrument(symbol: string, name: string, decimals: nat)

  /** A group's binding of a token to its root bank. */
  datatype TokenBank = TokenBank(token: Instrument, rootBank: PublicKey)

  /** An amount of a given instrument. */
  datatype InstrumentValue = InstrumentValue(instrument: Instrument, value: real)

  /** The interest indices of one token, as read from the cache. */
  datatype RootBankCache = RootBankCache(depositIndex: real, borrowIndex: real)

  datatype Side = Buy | Sell

  /** A resting perp order of the account. */
  datatype PlacedOrder = PlacedOrder(id: int, clientId: int, side: Side)

  /** The lot sizes of a perp market, used by the lot-size converters. */
  datatype LotSizeConverter = LotSizeConverter(baseLotSize: int, quoteLotSize: int)

  /** The fields of a perp sub-record as the layout library returns them. */
  datatype PerpRecord = PerpRecord(
    basePosition: int,
    quotePosition: real,
    quotePositionRaw: real,
    longSettledFunding: real,
    shortSettledFunding: real,
    bidsQuantity: int,
    asksQuantity: int,
    takerBase: int,
    takerQuote: int,
    mngoAccrued: real)

  /** A perp sub-position: its record, its resting orders, its converter. */
  datatype PerpAccount = PerpAccount(
    record: PerpRecord,
    openOrders: seq<PlacedOrder>,
    converter: LotSizeConverter)

  /** One position of the account (`AccountSlot`). */
  datatype AccountSlot = AccountSlot(
    index: nat,
    baseInstrument: Instrument,
    baseTokenBank: Option<TokenBank>,
    quoteTokenBank: TokenBank,
    rawDeposit: real,
    deposit: InstrumentValue,
    rawBorrow: real,
    borrow: InstrumentValue,
    spotOpenOrders: Option<PublicKey>,
    perpAccount: Option<PerpAccount>)

  /** Deposit and borrow are amounts of the same instrument, as instrument
      value arithmetic needs. */
  predicate SlotWellFormed(slot: AccountSlot)
  {
    slot.deposit.instrument == slot.borrow.instrument
  }

  /** `AccountSlot.net_value`: the deposit less the borrow, in the deposit's
      instrument. */
  function NetValue(slot: AccountSlot): (r: InstrumentValue)
    ensures r.instrument == slot.deposit.instrument
    ensures r.value + slot.borrow.value == slot.deposit.value
  {
    InstrumentValue(slot.deposit.instrument, slot.deposit.value - slot.borrow.value)
  }

  /** `AccountSlot.raw_net_value`. */
  function RawNetValue(slot: AccountSlot): (r: real)
    ensures r + slot.rawBorrow == slot.rawDeposit
  {
    slot.rawDeposit - slot.rawBorrow
  }

  /** Init and maint asset and liability weights of one market. */
  datatype Weights = Weights(initAsset: real, maintAsset: real, initLiab: real, maintLiab: real)

  /** One configured basket entry of the group. */
  datatype GroupSlot = GroupSlot(
    baseInstrument: Instrument,
    baseTokenBank: Option<TokenBank>,
    perpLotSizeConverter: LotSizeConverter,
    spotMarket: Option<Weights>,
    perpMarket: Option<Weights>)

  /** The group configuration: its basket (with unconfigured entries), the
      basket's index bitmap and the shared quote bank. */
  datatype Group = Group(
    name: string,
    address: PublicKey,
    slotIndices: seq<bool>,
    slotsByIndex: seq<Option<GroupSlot>>,
    sharedQuote: TokenBank)

  /** The layout tables that an index can miss. */
  datatype Table = Deposits | Borrows | PerpAccounts | SpotOpenOrderAddresses | OrderLists | SlotsByIndex

  /** What the source raises. */
  datatype Error =
    | SizeMismatch(actual: nat, expected: nat)
    | IndexOutOfRange(table: Table, index: int)
    | MissingRootBankCache(index: int)
    | MissingQuoteRootBankCache
    | InstrumentNotFound(instrument: Instrument)
    | OpenOrdersNotFound(address: PublicKey)
    | NoSlotAtIndex(index: int)
    | OpenOrdersNotLoaded(address: PublicKey)
    | MissingPrice(instrument: Instrument)
    | DivisionByZero
    | MissingPerpMarket(index: int)
    | MissingCachedPerpMarket(index: int)
    | GroupSlotNotFound(instrument: Instrument)
}
