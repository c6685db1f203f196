# Mango account decoder and risk engine, in Dafny

This project models the core of `mango/account.py` from the Mango Markets
Python client:

- **the account decoder.** `Account.from_layout` and `Account.parse` take a parsed fixed-layout account record, the group configuration and the cache. From these they build three things:
  - the resting perp orders, grouped by market;
  - one `AccountSlot` per configured basket index, each with an activity flag;
  - the shared quote slot.
- **the `Account` aggregate.** This covers:
  - its dense and by-index views (`slots`, `base_slots_by_index`, `slots_by_index` and the derived lists);
  - the first-match lookups;
  - the in-place mutator `update_spot_open_orders_for_market`.
- **the valuation table and the risk engine.** `to_dataframe` builds one fixed-shape row per slot. The reductions over those rows are `weighted_assets`, `unweighted_assets`, initial and maintenance health and health ratios, `total_value`, `is_liquidatable` and `leverage`.

Modules, one per file:

| file | module | contents |
|---|---|---|
| `wrappers.dfy` | `Wrappers` | `Option`, `Result`, `Outcome` |
| `seqs.dfy` | `Seqs` | set-bit counts, first-match search, the sparse view of a dense sequence and its update lemma, filtering, sums, list subscripts with negative indices |
| `types.dfy` | `MangoTypes` | instruments, token banks, perp records, `AccountSlot`, group slots, market weights, the error type |
| `decoder.dfy` | `AccountDecoder` | the parsed layout record, order grouping, slot decoding (functions that specify it, loop methods that compute it), the quote slot, `Decode` |
| `account.dfy` | `MangoAccount` | class `Account`: a `seq<bool>` bitmap of basket indices, a dense `seq` of base slots, the shared quote slot, the views, the lookups, the update and the row loop. `Valid()` links the bitmap and the slots |
| `valuation.dfy` | `Valuation` | the `Row` record, spot and perp worst-case scenario selection, perp columns, weight defaults, open-order columns, rows |
| `risk.dfy` | `Risk` | the reductions over rows and their properties |

How the model represents the source:
- **Python exceptions** become `Err` values of one `Error` type. This holds for an explicit `raise`, an `IndexError`, a `KeyError` and a `Decimal` division by zero. Each is raised in the source's order, so the first failing check decides the error.
- **`Decimal` amounts** are exact `real`s.
- **Code this file only calls** is a parameter: a field of arrow type in `DecodeEnv` (decoder) or `ValuationEnv` (valuation). This covers shifting to decimals, root-bank-cache lookups, prices, market caches, group slot lookups, perp-account valuations and lot-size conversions.

Points of the code that the model keeps as written:
- **Weights of the quote row.** The quote row's weights come from a configured group spot or perp market, and are 1 only when that market is unconfigured (`Valuation.RowWeights`).
- **Quote total.** The perp health quote is summed over every row, the quote row included, and so is the basket-gated quote unsettled (`Risk.QuoteTotal`).
- **Prices.** A price is looked up for every slot, the quote slot included, and a missing one fails the row (`Valuation.RowErrorOrder`).
- **Signs of assets and liabilities.** `liabilities <= 0 <= assets` holds only when the weights are non-negative, so `Risk.WeightedAssetsSigns` assumes exactly that.

## Model

| member | source | states |
|---|---|---|
| MangoTypes.NetValue | mango/account.py:162-165 | a slot's net value is in the deposit's instrument and, added to the borrow, gives back the deposit |
| MangoTypes.RawNetValue | mango/account.py:166-168 | the raw net value added to the raw borrow gives back the raw deposit |
| AccountDecoder.PlacedOrdersForExactly | mango/account.py:344-353 | an order is in market `m`'s list exactly when some live layout entry (not tagged 0xFF) tagged `m` carries it |
| AccountDecoder.PlacedOrdersByMarket | mango/account.py:344-353 | the grouping fails exactly when some live order's market tag has no list, and then names the tag of the first such order. Otherwise it yields one list per market, each holding that market's live orders |
| AccountDecoder.GroupPlacedOrders | mango/account.py:344-353 | the grouping loop, with its exit at the first misplaced order, computes exactly that grouping |
| AccountDecoder.PlacedOrdersKeepEveryLiveOrder | mango/account.py:347-353 | when no order is misplaced, the lists together hold exactly as many orders as there are live (not 0xFF) entries: grouping loses and duplicates nothing |
| AccountDecoder.BankAmounts | mango/account.py:363-379 | a slot without a token bank has all-zero amounts. With a bank, an index beyond the deposits table and a missing root-bank cache both fail. Otherwise deposit and borrow are the raw amounts times the cached deposit and borrow index |
| AccountDecoder.DecodeSlotAt | mango/account.py:358-414 | an unconfigured index yields no slot and no error. When decoding succeeds, a slot exists exactly at configured indices, and its deposit and borrow share an instrument |
| AccountDecoder.DecodeSlotAtFields | mango/account.py:358-412 | a decoded slot carries: its index; the group slot's instrument, bank and lot-size converter; the shared quote bank; the accrued and shifted amounts; that index's spot open orders, perp record and live orders |
| AccountDecoder.DecodeBaseErrorPersists | mango/account.py:358-377 | once the basket walk fails at some index, every longer walk fails with the same error |
| AccountDecoder.DecodeBasePrefixCounts | mango/account.py:358-414 | the walk over the first `count` indices emits one flag per index, set exactly at the configured ones, and one well-formed slot per set flag |
| AccountDecoder.DecodeBasePrefixSparse | mango/account.py:358-414 | after the walk, the slot at the set bit of index `i` is the slot that `i` decodes to |
| AccountDecoder.DecodeBaseSlots | mango/account.py:358-414 | the basket loop, with its early exit on the first failure, computes exactly the walk over all group basket indices |
| AccountDecoder.DecodeQuoteSlot | mango/account.py:416-447 | empty deposit tables and a missing quote root-bank cache both fail. Otherwise the quote slot has index `len(deposits)-1`, the quote token as instrument, the quote bank as base and quote bank, no open orders and no perp account, and deposit and borrow accrued from the last table entries |
| AccountDecoder.Decode | mango/account.py:328-474 | the order grouping's error, if any, is the result. Otherwise the basket walk's first error is, and after that the quote slot's. A success holds the walk's flags and slots and the decoded quote slot |
| AccountDecoder.DecodeShape | mango/account.py:328-474 | a successful decode emits one flag per group basket index, set exactly at the configured ones, and `count(True) == len(base_slots)`. The slot at each set flag is the decoded slot of that index. The quote slot has a token bank |
| AccountDecoder.MissingRootBankCacheIsFatal | mango/account.py:367-377 | a configured bank index whose root-bank cache is missing makes the whole decode fail rather than default |
| AccountDecoder.MissingQuoteRootBankCacheIsFatal | mango/account.py:416-425 | a missing quote root-bank cache makes the whole decode fail |
| MangoAccount.Account.constructor | mango/account.py:200-237 | the new account holds exactly the given fields |
| MangoAccount.Account.FromLayout | mango/account.py:328-474 | fails exactly when the decode fails, with the decode's error. Otherwise it returns a fresh valid account holding the decoded flags, slots and quote slot and the layout's header fields |
| MangoAccount.Account.Parse | mango/account.py:476-485 | data whose length is not the layout size fails with a size mismatch before any decoding. Otherwise it behaves as `FromLayout` on the parsed layout with version 3 |
| MangoAccount.Account.QuoteToken | mango/account.py:239-244 | the shared quote token is the token of the shared quote slot's bank |
| MangoAccount.Account.Slots | mango/account.py:246-248 | all base slots in order, then the shared quote slot |
| MangoAccount.Account.BaseSlotsByIndex | mango/account.py:250-261 | the counter loop yields one entry per flag, `None` exactly at clear flags. At a set flag `i` it yields the base slot whose position is the number of set flags before `i` (the k-th set flag holds `base_slots[k]`) |
| MangoAccount.Account.SlotsByIndex | mango/account.py:263-265 | the base slots by index, then the shared quote slot as the entry at index `len(slot_indices)` |
| MangoAccount.Account.Deposits | mango/account.py:267-269 | one deposit per slot, the shared quote's last |
| MangoAccount.Account.DepositsByIndex | mango/account.py:271-275 | one entry per basket index plus the quote's, absent exactly at clear flags, otherwise that slot's deposit |
| MangoAccount.Account.Borrows | mango/account.py:277-279 | one borrow per slot, the shared quote's last |
| MangoAccount.Account.BorrowsByIndex | mango/account.py:281-285 | one entry per basket index plus the quote's, absent exactly at clear flags, otherwise that slot's borrow |
| MangoAccount.Account.NetValues | mango/account.py:287-289 | per slot, the deposit less the borrow in the deposit's instrument |
| MangoAccount.Account.NetValuesByIndex | mango/account.py:291-295 | present exactly where the deposits by index are, and there the deposit less the borrow |
| MangoAccount.Account.SpotOpenOrders | mango/account.py:297-303 | every listed address belongs to some base slot, and every base slot's address is listed |
| MangoAccount.Account.SpotOpenOrdersByIndex | mango/account.py:305-310 | one entry per basket index and none for the quote slot; absent at clear flags, else that base slot's address |
| MangoAccount.Account.PerpAccounts | mango/account.py:312-318 | every listed perp account belongs to some base slot, and every base slot's perp account is listed |
| MangoAccount.Account.PerpAccountsByIndex | mango/account.py:320-325 | one entry per basket index plus the quote slot's perp account; absent at clear flags, else that slot's perp account |
| MangoAccount.Account.SlotByInstrumentOrNone | mango/account.py:700-707 | `None` exactly when no slot has the instrument. Otherwise the result is the first slot, searching in `slots` order, with that base instrument |
| MangoAccount.Account.SlotByInstrument | mango/account.py:709-714 | fails with the instrument exactly when the `_or_none` lookup finds nothing, else returns its slot |
| MangoAccount.Account.SlotBySpotOpenOrdersOrNone | mango/account.py:716-723 | `None` exactly when no slot has the address. Otherwise the result is the first slot, searching in `slots` order, with that spot open-orders address |
| MangoAccount.Account.SlotBySpotOpenOrders | mango/account.py:725-734 | fails with the address exactly when the `_or_none` lookup finds nothing, else returns its slot |
| MangoAccount.Account.UpdateSpotOpenOrdersForMarket | mango/account.py:760-768 | resolves the index as a list subscript over `slots_by_index` (negative counts from the end). Out of range fails, and an entry without a slot fails; both change nothing. Otherwise only that entry's `spot_open_orders` changes, and the basket length itself (or -1) updates the shared quote slot |
| MangoAccount.Account.ToDataframe | mango/account.py:787-1074 | the loop over `slots` yields exactly the rows of the slots in order, or the first failing slot's error |
| Valuation.SpotHealth | mango/account.py:801-866 | without open orders, the spot health is the net value with quote 0. With open orders, a zero price fails with a division by zero |
| Valuation.WorseScenarioMagnitude | mango/account.py:855-866 | the scenario `WorseScenario` reports (for spot and perp health alike) moves the base amount at least as far from zero as either the bids or the asks scenario |
| Valuation.ScenarioTieGoesToAsks | mango/account.py:855-866 | when the two scenarios' base amounts have equal magnitude, the asks scenario is reported: the comparison is strict |
| Valuation.WorseScenarioIsWorst | mango/account.py:820-840 | for scenarios (a + b, c) and (a, c + b) with b >= 0, asset weight <= 1 and weights adding to 2, the selection rule reports a scenario whose weighted health is no more than either's |
| Valuation.ScaledScenarioIsWorst | mango/account.py:855-866 | the selection made on base amounts is the worst case at value scale, for any positive price |
| Valuation.SpotHealthIsWorstCase | mango/account.py:842-866 | with a positive price, totals equal to free plus locked and non-negative locked amounts, the reported spot scenario adds no more weighted health than all bids filling or all asks filling |
| Valuation.PerpScenarioIsWorstCase | mango/account.py:939-967 | with a positive price and non-negative order quantities, the reported perp scenario adds no more weighted health than all bids filling or all asks filling |
| Valuation.PerpScenarioKeepsValue | mango/account.py:939-967 | the perp scenario `PerpScenario` reports keeps the position's value at the price: its base value plus its quote is the position's value plus the settled quote, since filling orders trades base for quote at that price |
| Valuation.PerpColumns | mango/account.py:885-967 | every perp column is zero without a live perp account or a market cache. With both, it fails exactly when the group has no perp market at the slot index or the cache holds none |
| Valuation.Pow10 | mango/account.py:951-953 | the quote-position scale `10**decimals` is at least 1, so the division by it is defined |
| Valuation.ResolveOpenOrders | mango/account.py:807-812 | no address gives no snapshot. A loaded address gives its snapshot. An address that is not loaded fails with that address |
| Valuation.RowWithoutOpenOrders | mango/account.py:801-806 | without open orders the spot health base is the net value, the spot health quote 0, and every open-order column 0 |
| Valuation.RowOpenOrderColumns | mango/account.py:1004-1030 | with open orders, quote unsettled (free plus referrer rebate) and quote locked always count. Base free, locked and total count only when the slot is in the margin basket |
| Valuation.RowPerpInactive | mango/account.py:885-898 | without a live perp account or a market cache, every perp column is zero |
| Valuation.RowSpotHealth | mango/account.py:807-866 | with spot open orders, the row's spot health base and quote are what `SpotHealth` reports for the slot's net value, its loaded snapshot and the row's price |
| Valuation.RowSpotHealthIsWorstCase | mango/account.py:842-866 | with a positive price and a consistent snapshot, the row's spot health columns add no more weighted health than all bids filling or all asks filling |
| Valuation.RowPerpHealth | mango/account.py:885-968 | for a live perp account with a market cache, the group configures the perp market and the cache holds it. The row carries the position, raw quote position, funding, asset and liability values, and its perp health base and quote are what `PerpScenario` reports for the position, the bids and asks quantities and the settled quote (the quote position over 10 to the quote token's decimals, plus funding, plus taker quote). So `PerpScenarioIsWorstCase` applies to the row |
| Valuation.RowWeights | mango/account.py:969-1002 | without a market cache the weights are all 1 for the quote token and all 0 otherwise. With one, a configured group spot or perp market supplies its weights, and the same fallback applies when it is unconfigured |
| Valuation.RowFailsExactly | mango/account.py:794-1072 | a row fails exactly when: the price is missing; the open orders are not loaded; the price is zero under open orders; a live perp account lacks its group or cached perp market; or a cached instrument has no group slot |
| Valuation.RowErrorOrder | mango/account.py:795-812 | a missing price is reported before anything else, and unloaded open orders before any later failure |
| Valuation.RowFor | mango/account.py:794-1072 | a row carries the slot's price, name, symbol, deposit, borrow and basket flag. Its base total is deposit less borrow plus open base. Each value column is its amount at the row's price, with the borrow value negated. The priced columns are spot, deposit, borrow, open base, locked base, perp notional, spot health base and perp health base |
| Valuation.MakeRow | mango/account.py:1032-1071 | the assembled row carries the given price and basket flag and the slot's names and amounts, and every value column is its amount at that price |
| Valuation.RowsErrorPersists | mango/account.py:794-1072 | once a row fails, the whole table fails with that error |
| Valuation.RowsShape | mango/account.py:793-1074 | the table succeeds exactly when every slot's row does; it then has one row per slot, in slot order, each that slot's row |
| Risk.SplitQuote | mango/account.py:1088-1093 | a positive quote total is an asset and a non-positive one a liability; the two add back to the total |
| Risk.WeightedAssetsSigns | mango/account.py:1076-1121 | with non-negative weights on the non-quote rows, weighted assets are >= 0 and weighted liabilities <= 0 |
| Risk.WeightedAssets | mango/account.py:1076-1121 | weighted assets plus weighted liabilities are the quote total plus, per non-quote row, its spot and perp health base values weighted by the asset weight when positive and the liability weight when negative |
| Risk.InitHealth | mango/account.py:1152-1155 | initial health is denominated in the shared quote token. Its value is the quote total plus, per non-quote row, that row's spot and perp health base values under the initial weights |
| Risk.MaintHealth | mango/account.py:1157-1160 | maintenance health is denominated in the shared quote token. Its value is the quote total plus, per non-quote row, that row's spot and perp health base values under the maintenance weights |
| Risk.HealthRatioTracksHealth | mango/account.py:1162-1174 | the ratio is exactly 100 without liabilities. With negative liabilities it is health divided by the liabilities' magnitude, times 100, so it has health's sign |
| Risk.InitHealthRatio | mango/account.py:1162-1167 | 100 without initial liabilities. With negative ones, initial health divided by their magnitude, times 100 |
| Risk.MaintHealthRatio | mango/account.py:1169-1174 | 100 without maintenance liabilities. With negative ones, maintenance health divided by their magnitude, times 100 |
| Risk.InitHealthRatioSign | mango/account.py:1162-1167 | with non-negative initial weights, the initial health ratio is negative exactly when initial health is |
| Risk.MaintHealthRatioSign | mango/account.py:1169-1174 | with non-negative maintenance weights, the maintenance health ratio is negative exactly when maintenance health is |
| Risk.TotalValue | mango/account.py:1176-1180 | total value is denominated in the shared quote token. Its value is the quote rows' spot value plus each non-quote row's value columns |
| Risk.UnweightedAssets | mango/account.py:1123-1150 | unweighted assets plus liabilities, and so the total value, are the quote rows' spot value plus, per non-quote row, its deposit, borrow, locked base, perp asset, perp liability, quote unsettled and quote locked values |
| Risk.Leverage | mango/account.py:1189-1193 | leverage fails only by dividing by zero |
| Risk.LeverageMeaning | mango/account.py:1189-1193 | leverage is 0 without positive assets, and fails exactly when there are assets but the total value is 0. Otherwise leverage times total value is minus the liabilities |
| Risk.LeverageNonNegative | mango/account.py:1189-1193 | with non-positive borrow values and perp liabilities and a positive total value, leverage is defined and non-negative |
| Risk.InitHealthBoundsMaint | mango/account.py:1152-1187 | when maintenance weights are no stricter than initial ones, initial health is at most maintenance health, so non-negative initial health means the account is not liquidatable |
| Risk.IsLiquidatable | mango/account.py:1182-1187 | negative maintenance health always makes the account liquidatable. An account being liquidated is also liquidatable with negative initial health. Otherwise, whether or not it is being liquidated, maintenance health alone decides |

## Left out

- **Network loaders and other I/O.** These are `load`, `load_all`, `load_all_for_owner`, `load_all_for_delegate`, `load_for_owner_by_address`, `load_all_spot_open_orders`, `fetch_default_referrer`, `subscribe`, `deposit` and `withdraw`. They are I/O, transaction building and websocket plumbing. The open-orders snapshots that `load_all_spot_open_orders` would fetch are a parameter of `ToDataframe`.
- **Referrer memory.** `ReferrerMemory` is I/O apart from a size check, and `derive_referrer_memory_address` is a foreign program-address hash.
- **Byte layouts.** The layout of `MANGO_ACCOUNT` and `PerpAccount.from_layout` are not part of this model. `Parse` takes the expected size and the byte-to-record parser as parameters, and a perp record is stored as parsed together with its lot-size converter. `Metadata.from_layout` and `Side.from_value` are taken as already applied. The parallel order tables (`order_market`, `order_side`, `order_ids`, `client_order_ids`) are one table of records. The fixed layout makes them equal in length, so the `IndexError` a shorter side or id table would raise is not modelled.
- **Collaborator internals.** These are shifting to decimals, root-bank caches, prices, market caches, `group.slot_by_instrument`, `group.perp_markets_by_index`, perp funding, asset and liability values, emptiness and lot-size conversions. They are arrow-typed parameters.
  - A lookup that raises in the source returns `None` in the model.
  - `group.slot_by_instrument` is taken to raise when nothing matches.
  - An index outside `perp_markets_by_index` is treated like a missing perp market.
- **pandas.** The frame is a `seq<Row>`, and a column sum is `Seqs.Sum`, which is 0 over no rows. Only the `Init` and `Maint` weightings exist.
- **`Decimal` precision and rounding.** Amounts are exact reals. `Decimal`'s `InvalidOperation` for 0/0 and `DivisionByZero` both become `DivisionByZero`.
- **Open-orders lookup.** The open-orders snapshots are keyed by address rather than by the address's string. A `KeyError` and an explicitly `None` snapshot both become `OpenOrdersNotLoaded`.
- AccountDecoder.DecodeQuoteSlot: the group's `shared_quote_token` is taken to be the token of the group's shared quote bank. `group.py` is not part of this model. The quote deposit and borrow, their decimal shift and the slot's base instrument therefore all use that one token. `DecodeShape`'s well-formed quote slot and the `NetValue` line below rest on this.
- MangoTypes.NetValue: the instrument-mismatch failure of instrument-value subtraction is not modelled. Every decoded slot's deposit and borrow share an instrument (`AccountDecoder.DecodeShape`).
- MangoAccount.Account.constructor: requires one base slot per set flag and a shared quote slot with a bank, which the source does not check.
  - Without the first, the by-index views would raise an `IndexError` on a short slot list and ignore surplus slots.
  - Without the second, `shared_quote_token` would raise.
  - Every decoded account satisfies both (`AccountDecoder.DecodeShape`).
- MangoAccount.Account.QuoteToken: `Token.ensure`, a type check, is not modelled.
- MangoAccount.Account.UpdateSpotOpenOrdersForMarket: slots are values stored in the account, so the update replaces the stored slot. Aliases of a slot object held outside the account are not modelled.
- MangoAccount.Account.SpotOpenOrders: its contract states membership in both directions but not the order of the list, which follows the base slots.
- MangoAccount.Account.PerpAccounts: its contract states membership in both directions but not the order of the list, which follows the base slots.
- Risk.IsLiquidatable: `InstrumentValue` is compared with 0 by its value.
- **`__str__` and `__repr__` formatting.**
