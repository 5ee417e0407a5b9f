/** The account-based family (Ethereum): one address summary with its transaction
    references, one fee lookup per sent reference, and a normaliser that reads the
    direction of each reference from its two sentinel index fields. */
module EthProvider {
  import opened Domain

  /** The address summary; amounts in the smallest unit. */
  datatype Summary = Summary(nTx: int, totalReceived: int, balance: int, totalSent: int)

  /** A smallest-unit amount in account units: the amount divided by the currency's precision. */
  function ToAccountUnit(raw: int, precision: nat): (r: real)
    requires precision > 0
    ensures r * precision as real == raw as real
  {
    raw as real / precision as real
  }

  // ---------------------------------------------------------------------------------------
  // Stats and fee lookup. `lookup(h)` is the provider's answer to the request for the
  // transaction with hash `h`: its `total`, or a failure.

  /** The reference after its fee lookup: only a sent reference (`txOutputN == -1`) is looked
      up, and only its `total` changes. */
  function WithFee(txref: EthRawTransaction, lookup: string -> Result<int>): (r: Result<EthRawTransaction>)
    ensures txref.txOutputN != -1 ==> r == Ok(txref)
    ensures r.Ok? ==> r.value.(total := txref.total) == txref
    ensures txref.txOutputN == -1 && r.Ok? ==> lookup(txref.txHash) == Ok(r.value.total)
    ensures r.Err? <==> txref.txOutputN == -1 && lookup(txref.txHash).Err?
  {
    if txref.txOutputN != -1 then Ok(txref)
    else match lookup(txref.txHash)
      case Ok(total) => Ok(txref.(total := total))
      case Err(e) => Err(e)
  }

  /** The references before index `k` went through their fee lookup successfully and the
      others are as they were. */
  twostate predicate FeesFilledBefore(txrefs: array<EthRawTransaction>,
                                      lookup: string -> Result<int>, k: int)
    reads txrefs
  {
    && 0 <= k <= txrefs.Length
    && (forall j :: 0 <= j < k ==>
          WithFee(old(txrefs[j]), lookup).Ok? && txrefs[j] == WithFee(old(txrefs[j]), lookup).value)
    && (forall j :: k <= j < txrefs.Length ==> txrefs[j] == old(txrefs[j]))
  }

  /** What the stats phase leaves behind: nothing when the summary request fails; otherwise
      the summary's stats in account units, the references filled in order up to the first
      failed lookup, and the raw cache replaced only when every lookup succeeded. */
  twostate predicate StatsApplied(address: Address, summary: Result<Summary>,
                                  txrefs: array<EthRawTransaction>,
                                  lookup: string -> Result<int>, precision: nat, ok: bool)
    requires precision > 0
    reads address, txrefs
  {
    match summary
    case Err(_) => !ok && unchanged(address) && unchanged(txrefs)
    case Ok(s) =>
      && address.txCount == s.nTx
      && address.fundedSum == ToAccountUnit(s.totalReceived, precision)
      && address.balance == ToAccountUnit(s.balance, precision)
      && address.spentSum == ToAccountUnit(s.totalSent, precision)
      && (ok <==> forall j :: 0 <= j < txrefs.Length ==> WithFee(old(txrefs[j]), lookup).Ok?)
      && if ok then
           && FeesFilledBefore(txrefs, lookup, txrefs.Length)
           && address.rawTransactions == AccountTxs(txrefs[..])
         else
           && address.rawTransactions == old(address.rawTransactions)
           && exists k :: && 0 <= k < txrefs.Length && WithFee(old(txrefs[k]), lookup).Err?
                          && FeesFilledBefore(txrefs, lookup, k)
  }

  method GetAccountBasedStats(address: Address, summary: Result<Summary>,
                              txrefs: array<EthRawTransaction>,
                              lookup: string -> Result<int>, precision: nat)
    returns (ok: bool)
    requires precision > 0
    modifies address`txCount, address`fundedSum, address`spentSum, address`balance,
             address`rawTransactions, txrefs
    ensures StatsApplied(address, summary, txrefs, lookup, precision, ok)
  {
    if summary.Err? {
      return false;
    }
    var res := summary.value;
    var fundedSum := ToAccountUnit(res.totalReceived, precision);
    var balance := ToAccountUnit(res.balance, precision);
    var spentSum := ToAccountUnit(res.totalSent, precision);
    address.SetStats(res.nTx, fundedSum, spentSum);
    address.SetBalance(balance);

    // one lookup per sent reference, stopping at the first failure
    for i := 0 to txrefs.Length
      invariant FeesFilledBefore(txrefs, lookup, i)
      invariant address.txCount == res.nTx && address.fundedSum == fundedSum
      invariant address.spentSum == spentSum && address.balance == balance
      invariant address.rawTransactions == old(address.rawTransactions)
    {
      var txref := txrefs[i];
      if txref.txOutputN != -1 {
        continue;
      }
      var resTxs := lookup(txref.txHash);
      if resTxs.Err? {
        return false;
      }
      txrefs[i] := txref.(total := resTxs.value);
    }
    address.SetRawTransactions(AccountTxs(txrefs[..]));
    ok := true;
  }

  // ---------------------------------------------------------------------------------------
  // Normalisation. `who` is the queried address string.

  /** The amount of a reference in account units: the fee-inclusive `total` of a sent
      reference, the `value` of any other, scaled down by the precision. */
  function Amount(tx: EthRawTransaction, precision: nat): (r: real)
    requires precision > 0
    ensures r * precision as real == (if tx.txOutputN == -1 then tx.total else tx.value) as real
  {
    (if tx.txOutputN == -1 then tx.total else tx.value) as real / precision as real
  }

  /** The hash as displayed: the explorer omits the `0x` prefix. */
  function Txid(hash: string): string
  {
    "0x" + hash
  }

  function AccountOp(tx: EthRawTransaction, who: string, precision: nat, opType: OpType): Operation
    requires precision > 0
  {
    Operation(tx.confirmed, Amount(tx, precision), Some(who), Txid(tx.txHash), opType, Some(tx.blockHeight))
  }

  /** The normalised form of one reference: exactly one transaction with at most one
      operation, `Received` when `txInputN == -1` (checked first), otherwise `Sent` when
      `txOutputN == -1`, otherwise none. */
  function AccountTransaction(tx: EthRawTransaction, who: string, precision: nat,
                              formatIso: string -> string): (t: Transaction)
    requires precision > 0
    ensures |t.ins| + |t.outs| <= 1
  {
    var ins := if tx.txInputN == -1 then [AccountOp(tx, who, precision, Received)] else [];
    var outs := if tx.txInputN != -1 && tx.txOutputN == -1 then [AccountOp(tx, who, precision, Sent)] else [];
    Transaction(tx.blockHeight, formatIso(tx.confirmed), Txid(tx.txHash), ins, outs)
  }

  /** What the normalised form of one reference looks like: its header is the reference's,
      it holds at most one operation, inbound exactly when the address is the recipient and
      outbound exactly when it is only the sender, and that operation carries the
      reference's hash, height, date and scaled amount. */
  lemma ReferenceShape(tx: EthRawTransaction, who: string, precision: nat, formatIso: string -> string)
    requires precision > 0
    ensures var t := AccountTransaction(tx, who, precision, formatIso);
      && t.txid == Txid(tx.txHash) && t.blockNumber == tx.blockHeight
      && t.date == formatIso(tx.confirmed)
      && |t.ins| + |t.outs| <= 1
      && (|t.ins| == 1 <==> tx.txInputN == -1)
      && (|t.outs| == 1 <==> tx.txInputN != -1 && tx.txOutputN == -1)
      && (forall op :: op in t.ins ==> op.opType == Received)
      && (forall op :: op in t.outs ==> op.opType == Sent)
      && (forall op :: op in t.ins + t.outs ==>
            && op.txid == Txid(tx.txHash) && op.address == Some(who)
            && op.blockNumber == Some(tx.blockHeight) && op.date == tx.confirmed
            && op.amount == Amount(tx, precision))
  {
  }

  /** The operations the normaliser appends to the address's funded list: one per
      recipient reference, in order. */
  function FundedOps(raws: seq<EthRawTransaction>, who: string, precision: nat): seq<Operation>
    requires precision > 0
  {
    if raws == [] then []
    else
      var last := raws[|raws| - 1];
      FundedOps(raws[..|raws| - 1], who, precision) +
        (if last.txInputN == -1 then [AccountOp(last, who, precision, Received)] else [])
  }

  /** The operations the normaliser appends to the address's sent list: one per sender
      reference that is not also a recipient, in order. */
  function SentOps(raws: seq<EthRawTransaction>, who: string, precision: nat): seq<Operation>
    requires precision > 0
  {
    if raws == [] then []
    else
      var last := raws[|raws| - 1];
      SentOps(raws[..|raws| - 1], who, precision) +
        (if last.txInputN != -1 && last.txOutputN == -1 then [AccountOp(last, who, precision, Sent)] else [])
  }

  /** The normalised forms of a list of references, in order. */
  function AccountTransactions(raws: seq<EthRawTransaction>, who: string, precision: nat,
                               formatIso: string -> string): seq<Transaction>
    requires precision > 0
  {
    if raws == [] then []
    else
      AccountTransactions(raws[..|raws| - 1], who, precision, formatIso) +
        [AccountTransaction(raws[|raws| - 1], who, precision, formatIso)]
  }

  /** The list of normalised forms is, reference by reference, the normalised form. */
  lemma {:induction false} AccountTransactionsPointwise(raws: seq<EthRawTransaction>, who: string,
      precision: nat, formatIso: string -> string)
    requires precision > 0
    ensures |AccountTransactions(raws, who, precision, formatIso)| == |raws|
    ensures forall i :: 0 <= i < |raws| ==>
      AccountTransactions(raws, who, precision, formatIso)[i] == AccountTransaction(raws[i], who, precision, formatIso)
  {
    if raws != [] {
      AccountTransactionsPointwise(raws[..|raws| - 1], who, precision, formatIso);
    }
  }

  lemma TransactionsSnoc(raws: seq<EthRawTransaction>, i: nat, who: string, precision: nat,
                         formatIso: string -> string)
    requires precision > 0
    requires i < |raws|
    ensures AccountTransactions(raws[..i + 1], who, precision, formatIso) ==
      AccountTransactions(raws[..i], who, precision, formatIso) + [AccountTransaction(raws[i], who, precision, formatIso)]
  {
    assert raws[..i + 1][..i] == raws[..i];
  }

  lemma OpsSnoc(raws: seq<EthRawTransaction>, i: nat, who: string, precision: nat)
    requires precision > 0
    requires i < |raws|
    ensures FundedOps(raws[..i + 1], who, precision) == FundedOps(raws[..i], who, precision) +
      (if raws[i].txInputN == -1 then [AccountOp(raws[i], who, precision, Received)] else [])
    ensures SentOps(raws[..i + 1], who, precision) == SentOps(raws[..i], who, precision) +
      (if raws[i].txInputN != -1 && raws[i].txOutputN == -1 then [AccountOp(raws[i], who, precision, Sent)] else [])
  {
    assert raws[..i + 1][..i] == raws[..i];
  }

  /** The inbound operations of a list of transactions, concatenated in order. */
  function Inbound(ts: seq<Transaction>): seq<Operation>
  {
    if ts == [] then [] else Inbound(ts[..|ts| - 1]) + ts[|ts| - 1].ins
  }

  /** The outbound operations of a list of transactions, concatenated in order. */
  function Outbound(ts: seq<Transaction>): seq<Operation>
  {
    if ts == [] then [] else Outbound(ts[..|ts| - 1]) + ts[|ts| - 1].outs
  }

  /** The operations appended to the address's funded and sent lists are exactly those
      placed in the inbound and outbound slots of the normalised transactions. */
  lemma {:induction false} AddressListsMatchTransactions(raws: seq<EthRawTransaction>,
      ts: seq<Transaction>, who: string, precision: nat, formatIso: string -> string)
    requires precision > 0
    requires |ts| == |raws|
    requires forall i :: 0 <= i < |raws| ==> ts[i] == AccountTransaction(raws[i], who, precision, formatIso)
    ensures FundedOps(raws, who, precision) == Inbound(ts)
    ensures SentOps(raws, who, precision) == Outbound(ts)
  {
    if raws != [] {
      var n := |raws| - 1;
      AddressListsMatchTransactions(raws[..n], ts[..n], who, precision, formatIso);
    }
  }

  /** The record carries a direction sentinel. */
  predicate HasSentinel(tx: EthRawTransaction)
  {
    tx.txInputN == -1 || tx.txOutputN == -1
  }

  /** Every reference contributes at most one operation to the two lists together, and
      exactly one precisely when every reference has a sentinel. */
  lemma {:induction false} OperationCount(raws: seq<EthRawTransaction>, who: string, precision: nat)
    requires precision > 0
    ensures |FundedOps(raws, who, precision)| + |SentOps(raws, who, precision)| <= |raws|
    ensures |FundedOps(raws, who, precision)| + |SentOps(raws, who, precision)| == |raws|
            <==> forall i :: 0 <= i < |raws| ==> HasSentinel(raws[i])
  {
    if raws != [] {
      var n := |raws| - 1;
      OperationCount(raws[..n], who, precision);
      if forall i :: 0 <= i < |raws| ==> HasSentinel(raws[i]) {
        assert forall i :: 0 <= i < n ==> HasSentinel(raws[..n][i]);
      }
      if forall i :: 0 <= i < n ==> HasSentinel(raws[..n][i]) {
        assert forall i :: 0 <= i < n ==> HasSentinel(raws[i]);
      }
    }
  }

  /** The fee lookup feeds the normaliser: a reference in which the address is only the
      sender, once its lookup succeeds, becomes a transaction with no inbound operation and
      one `Sent` operation whose amount is the looked-up total in account units. */
  lemma SentAmountIsFetchedTotal(txref: EthRawTransaction, lookup: string -> Result<int>,
                                 who: string, precision: nat, formatIso: string -> string)
    requires precision > 0
    requires txref.txInputN != -1 && txref.txOutputN == -1 && lookup(txref.txHash).Ok?
    ensures WithFee(txref, lookup).Ok?
    ensures var t := AccountTransaction(WithFee(txref, lookup).value, who, precision, formatIso);
      && t.ins == [] && |t.outs| == 1 && t.outs[0].opType == Sent
      && t.outs[0].amount * precision as real == lookup(txref.txHash).value as real
  {
  }

  /** A sent reference of `value` 100 whose fee lookup returns the total 121 gives, at
      precision 100, one `Sent` operation of 1.21: the fee is included. */
  lemma FeeInclusiveAmount(txref: EthRawTransaction, lookup: string -> Result<int>,
                           who: string, formatIso: string -> string)
    requires txref.txInputN == 0 && txref.txOutputN == -1 && txref.value == 100
    requires lookup(txref.txHash) == Ok(121)
    ensures var t := AccountTransaction(WithFee(txref, lookup).value, who, 100, formatIso);
      t.ins == [] && |t.outs| == 1 && t.outs[0].opType == Sent && t.outs[0].amount == 1.21
  {
    SentAmountIsFetchedTotal(txref, lookup, who, 100, formatIso);
  }

  /** Appending the same operations to a list and to its recorded suffix keeps the list
      equal to its base followed by the suffix. */
  lemma AppendStep(base: seq<Operation>, before: seq<Operation>, after: seq<Operation>,
                   prev: seq<Operation>, next: seq<Operation>)
    requires before == base + prev
    requires |prev| <= |next| && next[..|prev|] == prev
    requires after == before + next[|prev|..]
    ensures after == base + next
  {
    assert next == prev + next[|prev|..];
  }

  /** The per-reference callback: the amount is chosen and scaled, the operation is
      appended to the funded or the sent list of the address, and wrapped into one
      `Transaction`. */
  method NormalizeReference(address: Address, tx: EthRawTransaction, precision: nat,
                            formatIso: string -> string)
    returns (t: Transaction)
    requires precision > 0
    modifies address`fundedOperations, address`sentOperations
    ensures t == AccountTransaction(tx, address.name, precision, formatIso)
    ensures address.fundedOperations == old(address.fundedOperations) +
      (if tx.txInputN == -1 then [AccountOp(tx, address.name, precision, Received)] else [])
    ensures address.sentOperations == old(address.sentOperations) +
      (if tx.txInputN != -1 && tx.txOutputN == -1 then [AccountOp(tx, address.name, precision, Sent)] else [])
  {
    var isRecipient := tx.txInputN == -1;
    var isSender := tx.txOutputN == -1;

    var amount := tx.value as real;
    if isSender {
      amount := tx.total as real;
    }
    amount := amount / precision as real;

    var txHash := Txid(tx.txHash);
    var ins: seq<Operation> := [];
    var outs: seq<Operation> := [];
    var op := Operation(tx.confirmed, amount, Some(address.name), txHash, Received, Some(tx.blockHeight));
    if isRecipient {
      address.AddFundedOperation(op);
      ins := [op];
    } else if isSender {
      op := op.(opType := Sent);
      address.AddSentOperation(op);
      outs := [op];
    }
    t := Transaction(tx.blockHeight, formatIso(tx.confirmed), txHash, ins, outs);
  }

  /** The transaction phase: one `Transaction` per cached reference, in order, and each
      operation also appended to the funded or the sent list of the address. */
  method GetAccountBasedTransactions(address: Address, precision: nat, formatIso: string -> string)
    requires precision > 0
    requires address.rawTransactions.AccountTxs?
    modifies address`transactions, address`fundedOperations, address`sentOperations
    ensures |address.transactions| == |address.rawTransactions.account|
    ensures forall i :: 0 <= i < |address.transactions| ==>
      address.transactions[i] == AccountTransaction(address.rawTransactions.account[i], address.name, precision, formatIso)
    ensures address.fundedOperations ==
      old(address.fundedOperations) + FundedOps(address.rawTransactions.account, address.name, precision)
    ensures address.sentOperations ==
      old(address.sentOperations) + SentOps(address.rawTransactions.account, address.name, precision)
  {
    var rawTransactions := address.rawTransactions.account;
    var transactions: seq<Transaction> := [];
    for i := 0 to |rawTransactions|
      invariant transactions == AccountTransactions(rawTransactions[..i], address.name, precision, formatIso)
      invariant address.fundedOperations ==
        old(address.fundedOperations) + FundedOps(rawTransactions[..i], address.name, precision)
      invariant address.sentOperations ==
        old(address.sentOperations) + SentOps(rawTransactions[..i], address.name, precision)
    {
      OpsSnoc(rawTransactions, i, address.name, precision);
      TransactionsSnoc(rawTransactions, i, address.name, precision, formatIso);
      ghost var funded, sent := address.fundedOperations, address.sentOperations;
      var t := NormalizeReference(address, rawTransactions[i], precision, formatIso);
      AppendStep(old(address.fundedOperations), funded, address.fundedOperations,
                 FundedOps(rawTransactions[..i], address.name, precision),
                 FundedOps(rawTransactions[..i + 1], address.name, precision));
      AppendStep(old(address.sentOperations), sent, address.sentOperations,
                 SentOps(rawTransactions[..i], address.name, precision),
                 SentOps(rawTransactions[..i + 1], address.name, precision));
      transactions := transactions + [t];
    }
    assert rawTransactions[..|rawTransactions|] == rawTransactions;
    AccountTransactionsPointwise(rawTransactions, address.name, precision, formatIso);
    address.SetTransactions(transactions);
  }
}
