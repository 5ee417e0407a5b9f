# xpub-scan default provider, modelled in Dafny

xpub-scan scans the addresses derived from an extended public key. For each address, the
default provider (`src/api/defaultProvider.ts`) asks a free block explorer for two things:
the address's stats (transaction count, funded sum, spent sum, balance) and its raw
transactions. It then normalises every raw transaction into one `Transaction` holding
directional `Operation`s: `Received` operations in `ins`, `Sent` operations in `outs`.

There are three explorer families. Each has its own response shape and its own normaliser:

- **General UTXO** (Bitcoin, Litecoin):
  - one address request gives the stats and the raw transactions;
  - the spent sum is derived as funded minus balance;
  - every input becomes a `Received` operation carrying the whole incoming value, and every
    output becomes a `Sent` operation carrying its own value.
- **Bitcoin Cash**:
  - a details request gives the stats;
  - a paginated transactions request fills the raw cache, and each page response refreshes
    the page count;
  - the normaliser infers each transaction's direction by substring matching of the queried
    address: some input's `addr` means spending, some output's address list means receiving;
  - the received amount is the value of the *last* output that pays the address;
  - zero-value outputs are skipped on the sent side.
- **Account-based** (Ethereum):
  - one summary request gives the stats and the transaction references;
  - every sent reference (`tx_output_n == -1`) gets one extra request, and its `total` is
    overwritten in place with the fee-inclusive total;
  - the normaliser reads each reference's direction from the two sentinels;
  - the amount is scaled down by the currency's precision;
  - each operation is also appended to the address's funded or sent list.

Two entry points dispatch on the configured currency symbol:

- `getStats` upper-cases the symbol before comparing it.
- `getTransactions` compares the symbol as configured.

The model keeps this difference. `Provider.StatsFamily` is proved to be the transaction
phase's choice made on the upper-cased symbol. `Provider.PhasesAgree` gives sufficient
conditions under which the two phases pick the same family, and
`Provider.PhasesDisagreeOnLowerCase` gives a symbol on which they disagree.

Module layout, one file each:

- `Text` (`text.dfy`):
  - `String.prototype.includes`, with a window-based reference definition;
  - ASCII `toUpperCase`;
  - `String(n)`.
- `Domain` (`domain.dfy`):
  - operations, transactions and the raw record shapes;
  - the `Address` class, whose fields the providers update in place.
- `UtxoProvider` (`utxo.dfy`), `BchProvider` (`bch.dfy`) and `EthProvider` (`eth.dfy`): the
  three families.
- `Provider` (`dispatch.dfy`): the two entry points.

The explorers are inputs, not I/O:

- The general explorer's answer is a function from the coin code to a `Result`.
- The Bitcoin Cash details response is a `Result`.
- The Bitcoin Cash pages are a sequence of `Result`s, indexed by page number. A request for a
  page beyond the sequence fails.
- The account summary is a `Result`, and its references are an array the stats phase updates
  in place.
- The fee lookup is a function from a hash to a `Result` of the fetched `total`.

A failed request (`TransportError`) ends the phase. A record missing a field the normaliser
dereferences (`MalformedResponse`) does the same. The date formatting of `date-fns` is passed
in as a function: `formatUnix` for the UTXO families and `formatIso` for the account-based one.

Every method that loops in the source loops here, with invariants, and is proved against a
specification function:

- `UtxoTransaction`, `BchTransaction`, `AccountTransaction`;
- `Collect` for the pagination;
- `WithFee` for the fee lookup;
- `FundedOps` and `SentOps` for the address's operation lists.

Lemmas state what those functions promise.

## Model

| member | source | states |
|---|---|---|
| Text.IncludesIsOccurs | src/api/defaultProvider.ts:228 | the left-to-right scan used for `includes` holds exactly when some window of the string equals the searched address, in both directions |
| Text.IntToDecimal | src/api/defaultProvider.ts:110 | `String(n)` of an integral time is a non-empty string whose first character is `-` exactly for a negative number and a digit otherwise, and whose other characters are all digits |
| Text.NatToDecimalValue | src/api/defaultProvider.ts:110 | the digits produced for a natural number denote that number, and only `0` is written with a leading zero |
| Text.IntToDecimalValue | src/api/defaultProvider.ts:110 | `String(n)` is the canonical decimal form of `n`: its digits denote the magnitude of `n`, a minus sign leads exactly for a negative `n`, and no leading zero occurs except in `"0"` |
| Text.ToUpperIdempotent | src/api/defaultProvider.ts:50 | upper-casing an already upper-cased symbol changes nothing |
| Text.ToUpperConcat | src/api/defaultProvider.ts:63 | upper-casing distributes over concatenation, as needed for the `TEST` suffix |
| Domain.Address.SetStats | src/api/defaultProvider.ts:77 | the count, funded sum and spent sum are replaced and nothing else changes |
| Domain.Address.SetBalance | src/api/defaultProvider.ts:78 | only the balance is replaced |
| Domain.Address.SetRawTransactions | src/api/defaultProvider.ts:80 | only the raw cache is replaced |
| Domain.Address.SetTransactions | src/api/defaultProvider.ts:141 | only the transaction list is replaced |
| Domain.Address.AddFundedOperation | src/api/defaultProvider.ts:391 | the funded list grows by exactly the given operation at its end |
| Domain.Address.AddSentOperation | src/api/defaultProvider.ts:395 | the sent list grows by exactly the given operation at its end |
| UtxoProvider.SpentSum | src/api/defaultProvider.ts:73-75 | funded minus spent is the balance, and spent stays within funded exactly when the balance is non-negative |
| UtxoProvider.GetStats | src/api/defaultProvider.ts:66-80 | on a successful response the count, funded sum and balance are the response's, funded − spent = balance, and the cache holds the response's transactions; a failed request changes nothing |
| UtxoProvider.UtxoTransaction | src/api/defaultProvider.ts:104-139 | the header is the raw transaction's; there is one `Received` operation per input, carrying the aggregate incoming value and that input's address, and one `Sent` operation per output, carrying that output's own value and address; every operation carries the txid, the time rendered as a decimal string and no block number; an omitted side gives no operations |
| UtxoProvider.NormalizeTransaction | src/api/defaultProvider.ts:104-139 | the two push loops build exactly `UtxoTransaction` |
| UtxoProvider.GetTransactions | src/api/defaultProvider.ts:97-141 | the transaction list has one entry per cached raw transaction, in order, each its `UtxoTransaction` |
| BchProvider.Collect | src/api/defaultProvider.ts:191-203 | a successful pagination starts with an answered first page and its transactions come first in the result |
| BchProvider.CollectFailsAtLastRequest | src/api/defaultProvider.ts:194-199 | pagination fails exactly when the last requested page is beyond the explorer's answers or failed, and the outcome is then that request's failure |
| BchProvider.Requests | src/api/defaultProvider.ts:191-200 | at least one page is requested, and the requested indices are consecutive from the first |
| BchProvider.RequestsStopRule | src/api/defaultProvider.ts:194-200 | every requested page but the last was answered and announced a further page, and the last request failed, lay beyond the answers or announced no further page, so nothing is requested after a failed request |
| BchProvider.PaginationStops | src/api/defaultProvider.ts:191-205 | when every page answers and the last answered page announces no further page, exactly those pages are requested and the cache is their transactions concatenated in page order |
| BchProvider.PaginationSucceeds | src/api/defaultProvider.ts:191-205 | pagination succeeds if and only if the explorer stops announcing pages before some request fails |
| BchProvider.ThreePages | src/api/defaultProvider.ts:191-205 | three pages that each announce three pages lead to requests 0, 1 and 2 only, and the cache is the three pages' transactions in order |
| BchProvider.CollectStep | src/api/defaultProvider.ts:194-200 | one successful page request moves its transactions into the collected prefix, and the loop goes on exactly when the next index is below the refreshed page count |
| BchProvider.FetchPages | src/api/defaultProvider.ts:191-203 | the pagination loop requests exactly the indices of `Requests` and yields exactly `Collect`: the pages' transactions flattened in order, or the first failure |
| BchProvider.GetBchStats | src/api/defaultProvider.ts:172-206 | a failed details request changes nothing; otherwise the stats are the details', the requested indices are `Requests`, and the cache holds `Collect` exactly when every page request succeeded |
| BchProvider.LastPaidValue | src/api/defaultProvider.ts:234-246 | no value exactly when no output pays the address; otherwise the value of an output that pays it with no later output paying it |
| BchProvider.NonZeroOutputsMembers | src/api/defaultProvider.ts:259-263 | the filtered outputs are exactly the outputs of nonzero value, and there are no more of them than outputs |
| BchProvider.NonZeroOutputsCounts | src/api/defaultProvider.ts:259-263 | the filter keeps each nonzero output exactly as often as it occurs and drops every zero-valued one |
| BchProvider.SentOps | src/api/defaultProvider.ts:259-270 | succeeds exactly when every given output lists its addresses, fails only with MalformedResponse, and gives one operation per output in order |
| BchProvider.BchTransaction | src/api/defaultProvider.ts:219-282 | normalisation fails exactly when the address spends and some nonzero output omits its address list; on success the header is the raw transaction's |
| BchProvider.ReceivedOperations | src/api/defaultProvider.ts:234-257 | one `Received` operation per input exactly when some output pays the address, each with that input's address, the txid, the decimal time, no block number and the value of the last paying output |
| BchProvider.SentOperations | src/api/defaultProvider.ts:259-271 | no `Sent` operation unless the address spends; then exactly one per nonzero output, the `k`-th operation being the `Sent` operation of the `k`-th nonzero output (its value and first address), and every one of nonzero amount, with the txid, the decimal time and no block number |
| BchProvider.SelfSpendHasBothDirections | src/api/defaultProvider.ts:227-271 | a transaction in which the address both funds the input and receives the output has one `Received` and one `Sent` operation, both of the output's value |
| BchProvider.DetectSpending | src/api/defaultProvider.ts:227-232 | the input loop with `break` decides exactly `Spends` |
| BchProvider.DetectReceiving | src/api/defaultProvider.ts:234-246 | the nested output loop decides whether some output pays the address, and its amount is the last paying output's value |
| BchProvider.ReceivedOperationsOf | src/api/defaultProvider.ts:248-257 | one `Received` operation per input, in order, all with the detected amount |
| BchProvider.SentOperationsOf | src/api/defaultProvider.ts:259-271 | the loop that skips zero-value outputs computes exactly `SentOps` of the nonzero outputs, including its failure |
| BchProvider.NormalizeTransaction | src/api/defaultProvider.ts:219-282 | the callback computes exactly `BchTransaction` |
| BchProvider.GetBitcoinCashTransactions | src/api/defaultProvider.ts:212-284 | succeeds exactly when every cached transaction normalises, and then holds one normalised transaction per cached one, in order; a failure leaves the list as it was |
| EthProvider.ToAccountUnit | src/api/defaultProvider.ts:319-329 | the account-unit amount times the precision is the smallest-unit amount |
| EthProvider.WithFee | src/api/defaultProvider.ts:335-347 | a reference that is not sent is kept; a sent one changes only its `total`, to the looked-up total; the lookup fails exactly for a sent reference whose fee request fails |
| EthProvider.GetAccountBasedStats | src/api/defaultProvider.ts:308-349 | a failed summary changes nothing; otherwise the stats are the summary's in account units; the references are filled in order up to the first failed fee request; the cache holds them exactly when every fee request succeeded |
| EthProvider.Amount | src/api/defaultProvider.ts:370-376 | the amount times the precision is the `total` of a sent reference and the `value` of any other |
| EthProvider.AccountTransaction | src/api/defaultProvider.ts:363-408 | the normalised form of one reference holds at most one operation; its full shape is `ReferenceShape` |
| EthProvider.ReferenceShape | src/api/defaultProvider.ts:363-408 | the header is the reference's, with the `0x`-prefixed hash; there is at most one operation; it is `Received` exactly when `tx_input_n == -1`, `Sent` exactly when only `tx_output_n == -1`; it carries the hash, address, height, date and scaled amount |
| EthProvider.AddressListsMatchTransactions | src/api/defaultProvider.ts:389-397 | the operations appended to the funded and sent lists are exactly the `ins` and `outs` of the normalised transactions, in order |
| EthProvider.OperationCount | src/api/defaultProvider.ts:389-397 | the references give at most one operation each, and exactly one each if and only if every reference carries a direction sentinel |
| EthProvider.SentAmountIsFetchedTotal | src/api/defaultProvider.ts:335-397 | a reference in which the address is only the sender, once its fee lookup succeeds, normalises to no inbound operation and one `Sent` operation whose amount times the precision is the looked-up total |
| EthProvider.FeeInclusiveAmount | src/api/defaultProvider.ts:335-397 | a sent reference of value 100 whose fee lookup returns 121 gives, at precision 100, a single `Sent` operation of 1.21 |
| EthProvider.AccountTransactionsPointwise | src/api/defaultProvider.ts:363-408 | the normalised list has one entry per reference, and entry `i` is the normalised form of reference `i` |
| EthProvider.NormalizeReference | src/api/defaultProvider.ts:363-408 | the callback returns `AccountTransaction` and appends its operation to the funded or sent list |
| EthProvider.GetAccountBasedTransactions | src/api/defaultProvider.ts:356-410 | one `AccountTransaction` per cached reference, in order; the funded and sent lists grow by `FundedOps` and `SentOps` |
| Provider.StatsFamily | src/api/defaultProvider.ts:48-57 | the stats phase's family is the transaction phase's choice applied to the upper-cased symbol |
| Provider.TransactionsFamily | src/api/defaultProvider.ts:87-96 | Bitcoin Cash exactly for the table's Bitcoin Cash symbol, account-based only for its Ethereum symbol, and the general UTXO family exactly for every other symbol |
| Provider.StatsFamilyIgnoresCase | src/api/defaultProvider.ts:50-57 | the stats phase picks the same family for a symbol and for its upper-cased form |
| Provider.PhasesAgree | src/api/defaultProvider.ts:87-96 | with an upper-case symbol both phases pick the same family; with an upper-case currency table they agree whenever the transaction phase picks Bitcoin Cash or account-based |
| Provider.PhasesDisagreeOnLowerCase | src/api/defaultProvider.ts:48-96 | for the symbol `bch` the stats phase queries the Bitcoin Cash explorer while the transaction phase runs the general normaliser |
| Provider.CoinCode | src/api/defaultProvider.ts:60-64 | the coin code starts with the upper-cased symbol and is four characters longer exactly for Bitcoin on testnet |
| Provider.CoinCodeIsUpper | src/api/defaultProvider.ts:49-64 | the coin code is always upper case |
| Provider.GetStats | src/api/defaultProvider.ts:48-81 | the family is chosen on the upper-cased symbol, and the address ends in that family's stats state; the general explorer is asked with the coin code, and only the account-based family touches the references |
| Provider.GetTransactions | src/api/defaultProvider.ts:87-141 | the family is chosen on the symbol as configured, and the address ends in that family's transaction state; a cache of another family is rejected without change |

## Left out

- Network I/O, URL templating and JSON parsing are left out. Every response is an input, as described above.
- The `asCashAddress` conversion of the Bitcoin Cash URL is left out, because it only shapes the URL.
- The `date-fns` formatting is left out. It is a parameter: `formatUnix` and `formatIso`.
- BigNumber, `parseFloat` and `toFixed(ETH_FIXED_PRECISION)` are not modelled: amounts are exact
  `real`s, so rounding and the fixed-point rendering are absent.
- `removeScientificNotation` is not modelled: account amounts are exact integers.
- EthProvider.ToAccountUnit: `toAccountUnit` lives in `src/helpers.ts`, which is not part of this model. It is modelled as division by the configured precision, and a positive precision is a precondition of the account-based members.
- The configuration (`configuration.currency`, `testnet`) and the currency table (`src/configuration/currencies.ts`) are not part of this model. They are parameters: `symbol`, `KnownSymbols`, `testnet` and `precision`.
- `toUpperCase` is ASCII only. Unicode case mapping is not modelled.
- BchProvider.GetBchStats: an explorer that keeps announcing more pages forever is not modelled.
  The pages are a finite sequence, and a request beyond it fails.
- EthProvider.GetAccountBasedStats: the references array is copied into the raw cache, so the cache does not alias the response the way the source's array does.
- A fee request that succeeds but returns no `total` is modelled as a success carrying a total. The source would store `undefined`.
- Missing fields are modelled only where the model names them: `incoming`, `outgoing` and `scriptPubKey.addresses`. An undefined `addr` on a Bitcoin Cash input, or a page without `txs`, is not represented.
- Provider.GetTransactions: a raw cache that is empty or holds another family's records is rejected without change. The source would instead run the normaliser over whatever the cache holds.
- The `Address` class of `src/models/address.ts` and the `Operation` and `Transaction` models are not part of this model. Only the fields and setters the provider uses are modelled.
- Concurrency (`async`/`await`) is not modelled. Each phase runs sequentially, as the source awaits every request.

