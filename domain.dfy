/** The currency-agnostic domain model (operations, transactions, the address being
    analysed) and the raw record shapes of the three provider families. */
module Domain {

  datatype Option<+T> = None | Some(value: T)

  /** Why a step of a query failed: the request itself failed, or the payload lacked a field
      that the normaliser dereferences (a JavaScript `TypeError`). */
  datatype Error = TransportError | MalformedResponse

  /** The outcome of one request to a provider, or of one normalisation step. */
  datatype Result<+T> = Ok(value: T) | Err(error: Error)

  datatype OpType = Received | Sent

  /** One directional movement of money. `address` is `None` where the source stores
      `undefined`; `blockNumber` is set by the account-based family only. */
  datatype Operation = Operation(
    date: string,
    amount: real,
    address: Option<string>,
    txid: string,
    opType: OpType,
    blockNumber: Option<int>)

  datatype Transaction = Transaction(
    blockNumber: int,
    date: string,
    txid: string,
    ins: seq<Operation>,
    outs: seq<Operation>)

  // General UTXO explorer: `txs[]` of the address response.

  datatype UtxoInput = UtxoInput(address: string)
  datatype UtxoIncoming = UtxoIncoming(value: real, inputs: seq<UtxoInput>)
  datatype UtxoOutput = UtxoOutput(address: string, value: real)
  datatype UtxoOutgoing = UtxoOutgoing(value: real, outputs: seq<UtxoOutput>)

  /** `incoming` and `outgoing` are `None` when the provider omits them. */
  datatype UtxoRawTransaction = UtxoRawTransaction(
    txid: string,
    blockNo: int,
    confirmations: int,
    time: int,
    incoming: Option<UtxoIncoming>,
    outgoing: Option<UtxoOutgoing>)

  // Bitcoin Cash explorer: `txs[]` of each transactions page.

  datatype BchInput = BchInput(value: real, addr: string)

  /** `addresses` is `scriptPubKey.addresses`, `None` when the provider omits it. */
  datatype BchOutput = BchOutput(value: real, addresses: Option<seq<string>>)

  datatype BchRawTransaction = BchRawTransaction(
    txid: string,
    blockheight: int,
    confirmations: int,
    time: int,
    vin: seq<BchInput>,
    vout: seq<BchOutput>)

  // Account-based explorer: `txrefs[]` of the address response, amounts in the smallest unit.

  /** `txInputN == -1` marks the address as recipient, `txOutputN == -1` as sender;
      `total` is overwritten by the fee lookup for sent references. */
  datatype EthRawTransaction = EthRawTransaction(
    txHash: string,
    blockHeight: int,
    value: int,
    txInputN: int,
    txOutputN: int,
    confirmed: string,
    total: int)

  /** The raw-transaction cache: empty until a stats phase fills it with its family's records. */
  datatype RawCache =
    | NoRaw
    | UtxoTxs(utxo: seq<UtxoRawTransaction>)
    | BchTxs(bch: seq<BchRawTransaction>)
    | AccountTxs(account: seq<EthRawTransaction>)

  /** The address being analysed, filled in place by a stats phase and then by a
      transaction phase. */
  class Address {
    /** `address.toString()`. */
    const name: string
    var txCount: int
    var fundedSum: real
    var spentSum: real
    var balance: real
    var fundedOperations: seq<Operation>
    var sentOperations: seq<Operation>
    var rawTransactions: RawCache
    var transactions: seq<Transaction>

    constructor (name: string)
      ensures this.name == name
      ensures txCount == 0 && fundedSum == 0.0 && spentSum == 0.0 && balance == 0.0
      ensures fundedOperations == [] && sentOperations == []
      ensures rawTransactions == NoRaw && transactions == []
    {
      this.name := name;
      txCount, fundedSum, spentSum, balance := 0, 0.0, 0.0, 0.0;
      fundedOperations, sentOperations := [], [];
      rawTransactions, transactions := NoRaw, [];
    }

    method SetStats(count: int, funded: real, spent: real)
      modifies this`txCount, this`fundedSum, this`spentSum
      ensures txCount == count && fundedSum == funded && spentSum == spent
    {
      txCount, fundedSum, spentSum := count, funded, spent;
    }

    method SetBalance(b: real)
      modifies this`balance
      ensures balance == b
    {
      balance := b;
    }

    method SetRawTransactions(raw: RawCache)
      modifies this`rawTransactions
      ensures rawTransactions == raw
    {
      rawTransactions := raw;
    }

    method SetTransactions(ts: seq<Transaction>)
      modifies this`transactions
      ensures transactions == ts
    {
      transactions := ts;
    }

    method AddFundedOperation(op: Operation)
      modifies this`fundedOperations
      ensures fundedOperations == old(fundedOperations) + [op]
    {
      fundedOperations := fundedOperations + [op];
    }

    method AddSentOperation(op: Operation)
      modifies this`sentOperations
      ensures sentOperations == old(sentOperations) + [op]
    {
      sentOperations := sentOperations + [op];
    }
  }
}
