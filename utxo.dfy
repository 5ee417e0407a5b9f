/** The general UTXO family (Bitcoin, Litecoin and their testnets): one address request
    gives the stats and the raw transactions; each raw transaction becomes one
    `Transaction` with a `Received` operation per input and a `Sent` operation per output. */
module UtxoProvider {
  import opened Domain
  import Text

  /** The `data` object of the address response. */
  datatype Summary = Summary(
    totalTxs: int,
    receivedValue: real,
    balance: real,
    txs: seq<UtxoRawTransaction>)

  /** The spent sum is not reported: it is what was funded and is no longer held. */
  function SpentSum(funded: real, balance: real): (spent: real)
    ensures funded - spent == balance
    ensures spent <= funded <==> 0.0 <= balance
  {
    funded - balance
  }

  /** What the stats phase leaves behind: on success the count, funded sum and balance are
      the response's own and the raw cache holds its transactions; a failed request changes
      nothing. */
  twostate predicate StatsApplied(address: Address, new response: Result<Summary>, ok: bool)
    reads address
  {
    && ok == response.Ok?
    && if ok then
         && address.txCount == response.value.totalTxs
         && address.fundedSum == response.value.receivedValue
         && address.balance == response.value.balance
         && address.fundedSum - address.spentSum == address.balance
         && address.rawTransactions == UtxoTxs(response.value.txs)
       else
         unchanged(address)
  }

  method GetStats(address: Address, response: Result<Summary>) returns (ok: bool)
    modifies address`txCount, address`fundedSum, address`spentSum, address`balance,
             address`rawTransactions
    ensures StatsApplied(address, response, ok)
  {
    if response.Err? {
      return false;
    }
    var data := response.value;
    var fundedSum := data.receivedValue;
    var balance := data.balance;
    var spentSum := SpentSum(fundedSum, balance);
    address.SetStats(data.totalTxs, fundedSum, spentSum);
    address.SetBalance(balance);
    address.SetRawTransactions(UtxoTxs(data.txs));
    ok := true;
  }

  /** The `Received` operation of one input: it carries the aggregate incoming `value`. */
  function ReceivedOp(tx: UtxoRawTransaction, value: real, input: UtxoInput): Operation
  {
    Operation(Text.IntToDecimal(tx.time), value, Some(input.address), tx.txid, Received, None)
  }

  /** The `Sent` operation of one output: it carries that output's own value. */
  function SentOp(tx: UtxoRawTransaction, output: UtxoOutput): Operation
  {
    Operation(Text.IntToDecimal(tx.time), output.value, Some(output.address), tx.txid, Sent, None)
  }

  /** The normalised form of one raw transaction. */
  function UtxoTransaction(tx: UtxoRawTransaction, formatUnix: int -> string): (t: Transaction)
    ensures t.txid == tx.txid && t.blockNumber == tx.blockNo && t.date == formatUnix(tx.time)
    ensures tx.incoming.None? ==> t.ins == []
    ensures tx.incoming.Some? ==>
      && |t.ins| == |tx.incoming.value.inputs|
      && forall k :: 0 <= k < |t.ins| ==>
           && t.ins[k].opType == Received
           && t.ins[k].amount == tx.incoming.value.value
           && t.ins[k].address == Some(tx.incoming.value.inputs[k].address)
           && t.ins[k].txid == tx.txid
           && t.ins[k].date == Text.IntToDecimal(tx.time)
           && t.ins[k].blockNumber == None
    ensures tx.outgoing.None? ==> t.outs == []
    ensures tx.outgoing.Some? ==>
      && |t.outs| == |tx.outgoing.value.outputs|
      && forall k :: 0 <= k < |t.outs| ==>
           && t.outs[k].opType == Sent
           && t.outs[k].amount == tx.outgoing.value.outputs[k].value
           && t.outs[k].address == Some(tx.outgoing.value.outputs[k].address)
           && t.outs[k].txid == tx.txid
           && t.outs[k].date == Text.IntToDecimal(tx.time)
           && t.outs[k].blockNumber == None
  {
    var ins := match tx.incoming
      case None => []
      case Some(incoming) =>
        seq(|incoming.inputs|, k requires 0 <= k < |incoming.inputs| =>
          ReceivedOp(tx, incoming.value, incoming.inputs[k]));
    var outs := match tx.outgoing
      case None => []
      case Some(outgoing) =>
        seq(|outgoing.outputs|, k requires 0 <= k < |outgoing.outputs| =>
          SentOp(tx, outgoing.outputs[k]));
    Transaction(tx.blockNo, formatUnix(tx.time), tx.txid, ins, outs)
  }

  /** The body of the per-transaction callback: two loops that push operations. */
  method NormalizeTransaction(tx: UtxoRawTransaction, formatUnix: int -> string)
    returns (t: Transaction)
    ensures t == UtxoTransaction(tx, formatUnix)
  {
    var ins: seq<Operation> := [];
    var outs: seq<Operation> := [];
    if tx.incoming.Some? {
      var incoming := tx.incoming.value;
      for k := 0 to |incoming.inputs|
        invariant |ins| == k
        invariant forall j :: 0 <= j < k ==> ins[j] == ReceivedOp(tx, incoming.value, incoming.inputs[j])
      {
        ins := ins + [ReceivedOp(tx, incoming.value, incoming.inputs[k])];
      }
    }
    if tx.outgoing.Some? {
      var outgoing := tx.outgoing.value;
      for k := 0 to |outgoing.outputs|
        invariant |outs| == k
        invariant forall j :: 0 <= j < k ==> outs[j] == SentOp(tx, outgoing.outputs[j])
      {
        outs := outs + [SentOp(tx, outgoing.outputs[k])];
      }
    }
    t := Transaction(tx.blockNo, formatUnix(tx.time), tx.txid, ins, outs);
  }

  /** The transaction phase: one `Transaction` per cached raw transaction, in order. */
  method GetTransactions(address: Address, formatUnix: int -> string)
    requires address.rawTransactions.UtxoTxs?
    modifies address`transactions
    ensures |address.transactions| == |address.rawTransactions.utxo|
    ensures forall i :: 0 <= i < |address.transactions| ==>
      address.transactions[i] == UtxoTransaction(address.rawTransactions.utxo[i], formatUnix)
  {
    var rawTransactions := address.rawTransactions.utxo;
    var transactions: seq<Transaction> := [];
    for i := 0 to |rawTransactions|
      invariant |transactions| == i
      invariant forall j :: 0 <= j < i ==>
        transactions[j] == UtxoTransaction(rawTransactions[j], formatUnix)
    {
      var t := NormalizeTransaction(rawTransactions[i], formatUnix);
      transactions := transactions + [t];
    }
    address.SetTransactions(transactions);
  }
}
