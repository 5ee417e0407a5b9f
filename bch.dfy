/** The Bitcoin Cash family: a details request for the stats, a paginated transactions
    request for the raw cache, and a normaliser that infers the direction of each
    transaction by matching the queried address against its inputs and outputs. */
module BchProvider {
  import opened Domain
  import Text

  /** The details response. */
  datatype Details = Details(txApperances: int, totalReceived: real, balance: real, totalSent: real)

  /** One page of the transactions response. */
  datatype Page = Page(pagesTotal: int, txs: seq<BchRawTransaction>)

  // ---------------------------------------------------------------------------------------
  // Pagination. `pages[i]` is the provider's answer to the request for page `i`; a request
  // for an index at or beyond `|pages|` fails.

  /** `prefix` followed by the outcome of the remaining requests; a failure wins. */
  function Then(prefix: seq<BchRawTransaction>, rest: Result<seq<BchRawTransaction>>)
    : Result<seq<BchRawTransaction>>
  {
    if rest.Ok? then Ok(prefix + rest.value) else rest
  }

  /** The transactions gathered from the request for page `i` onwards: each response refreshes
      the page count, and requests go on while the next index is below it. */
  function Collect(pages: seq<Result<Page>>, i: nat): (r: Result<seq<BchRawTransaction>>)
    ensures r.Ok? ==> i < |pages| && pages[i].Ok? && pages[i].value.txs <= r.value
    decreases |pages| - i
  {
    if i >= |pages| then Err(TransportError)
    else match pages[i]
      case Err(e) => Err(e)
      case Ok(p) => if i + 1 < p.pagesTotal then Then(p.txs, Collect(pages, i + 1)) else Ok(p.txs)
  }

  /** Pagination fails exactly when the last requested page is beyond the explorer's
      answers or failed, and then the outcome is that request's failure. */
  lemma {:induction false} CollectFailsAtLastRequest(pages: seq<Result<Page>>, i: nat)
    ensures var l := Requests(pages, i)[|Requests(pages, i)| - 1];
      && (Collect(pages, i).Err? <==> l >= |pages| || pages[l].Err?)
      && (Collect(pages, i).Err? ==>
            Collect(pages, i) == if l >= |pages| then Err(TransportError) else Err(pages[l].error))
    decreases |pages| - i
  {
    if i < |pages| && pages[i].Ok? && i + 1 < pages[i].value.pagesTotal {
      CollectFailsAtLastRequest(pages, i + 1);
      assert Requests(pages, i) == [i] + Requests(pages, i + 1);
    }
  }

  /** The page indices requested from page `i` onwards: never empty, and consecutive. */
  function Requests(pages: seq<Result<Page>>, i: nat): (r: seq<nat>)
    ensures |r| >= 1
    ensures forall j :: 0 <= j < |r| ==> r[j] == i + j
    decreases |pages| - i
  {
    if i >= |pages| || pages[i].Err? || pages[i].value.pagesTotal <= i + 1 then [i]
    else [i] + Requests(pages, i + 1)
  }

  /** The loop's stopping rule: every requested page but the last was answered and announced
      a further page, and the last request failed, went beyond the explorer's answers, or
      announced no further page. So nothing is requested after a failed request. */
  lemma {:induction false} RequestsStopRule(pages: seq<Result<Page>>, i: nat)
    ensures var r := Requests(pages, i);
      && (forall j :: 0 <= j < |r| - 1 ==>
            r[j] < |pages| && pages[r[j]].Ok? && r[j] + 1 < pages[r[j]].value.pagesTotal)
      && var l := r[|r| - 1];
         l >= |pages| || pages[l].Err? || pages[l].value.pagesTotal <= l + 1
    decreases |pages| - i
  {
    if i < |pages| && pages[i].Ok? && i + 1 < pages[i].value.pagesTotal {
      RequestsStopRule(pages, i + 1);
      assert Requests(pages, i) == [i] + Requests(pages, i + 1);
    }
  }

  /** Pages `i` to `k - 1` were answered, each of them but the last announced more pages,
      and page `k - 1` announced at most `k` pages. */
  ghost predicate StopsAfter(pages: seq<Result<Page>>, i: nat, k: nat)
  {
    && i < k <= |pages|
    && (forall j :: i <= j < k ==> pages[j].Ok?)
    && (forall j :: i <= j < k - 1 ==> j + 1 < pages[j].value.pagesTotal)
    && pages[k - 1].value.pagesTotal <= k
  }

  /** The transactions of the answered pages `i` to `k - 1`, in page order. */
  ghost function TxsBetween(pages: seq<Result<Page>>, i: nat, k: nat): seq<BchRawTransaction>
    requires i <= k <= |pages|
    requires forall j :: i <= j < k ==> pages[j].Ok?
    decreases k - i
  {
    if i == k then [] else pages[i].value.txs + TxsBetween(pages, i + 1, k)
  }

  /** When the provider stops announcing pages after page `k - 1`, exactly pages `i` to
      `k - 1` are requested and the cache is their transactions concatenated in order. */
  lemma {:induction false} PaginationStops(pages: seq<Result<Page>>, i: nat, k: nat)
    requires StopsAfter(pages, i, k)
    ensures |Requests(pages, i)| == k - i
    ensures Collect(pages, i) == Ok(TxsBetween(pages, i, k))
    decreases k - i
  {
    if i + 1 < k {
      assert i + 1 < pages[i].value.pagesTotal;
      PaginationStops(pages, i + 1, k);
    } else {
      assert pages[i].Ok? && pages[i].value.pagesTotal <= i + 1;
      assert Collect(pages, i) == Ok(pages[i].value.txs);
      assert TxsBetween(pages, i + 1, k) == [];
      assert pages[i].value.txs + [] == pages[i].value.txs;
    }
  }

  /** Pagination succeeds exactly when the provider stops announcing pages before a request
      fails. */
  lemma {:induction false} PaginationSucceeds(pages: seq<Result<Page>>, i: nat)
    ensures Collect(pages, i).Ok? <==> exists k :: StopsAfter(pages, i, k)
    decreases |pages| - i
  {
    if exists k :: StopsAfter(pages, i, k) {
      var k :| StopsAfter(pages, i, k);
      PaginationStops(pages, i, k);
    } else if i < |pages| && pages[i].Ok? && i + 1 < pages[i].value.pagesTotal {
      PaginationSucceeds(pages, i + 1);
      if Collect(pages, i + 1).Ok? {
        var k :| StopsAfter(pages, i + 1, k);
        assert StopsAfter(pages, i, k);
      }
    } else if i < |pages| && pages[i].Ok? {
      assert StopsAfter(pages, i, i + 1);
    }
  }

  /** Three pages that each announce three pages: indices 0, 1 and 2 are requested, index 3
      is not, and the cache is the three pages' transactions in order. */
  lemma ThreePages(pages: seq<Result<Page>>, t0: seq<BchRawTransaction>,
                   t1: seq<BchRawTransaction>, t2: seq<BchRawTransaction>)
    requires |pages| >= 3
    requires pages[0] == Ok(Page(3, t0)) && pages[1] == Ok(Page(3, t1)) && pages[2] == Ok(Page(3, t2))
    ensures Requests(pages, 0) == [0, 1, 2]
    ensures Collect(pages, 0) == Ok(t0 + t1 + t2)
  {
    assert Requests(pages, 2) == [2];
    assert Collect(pages, 2) == Ok(t2);
    assert Collect(pages, 1) == Ok(t1 + t2);
    assert t0 + (t1 + t2) == t0 + t1 + t2;
  }

  /** One loop step: the request for page `i` succeeded. */
  lemma CollectStep(pages: seq<Result<Page>>, i: nat, before: seq<BchRawTransaction>)
    requires i < |pages| && pages[i].Ok?
    ensures var p := pages[i].value;
      Then(before, Collect(pages, i)) ==
        if i + 1 < p.pagesTotal then Then(before + p.txs, Collect(pages, i + 1))
        else Ok(before + p.txs)
  {
    var p := pages[i].value;
    if i + 1 < p.pagesTotal {
      var rest := Collect(pages, i + 1);
      if rest.Ok? {
        assert before + (p.txs + rest.value) == (before + p.txs) + rest.value;
      }
    }
  }

  function Flatten(payloads: seq<seq<BchRawTransaction>>): seq<BchRawTransaction>
  {
    if payloads == [] then [] else Flatten(payloads[..|payloads| - 1]) + payloads[|payloads| - 1]
  }

  /** What the stats phase leaves behind: nothing when the details request fails; otherwise
      the details' stats, and the raw cache is replaced only when every page request
      succeeded. */
  twostate predicate StatsApplied(address: Address, details: Result<Details>,
                                  pages: seq<Result<Page>>, ok: bool)
    reads address
  {
    match details
    case Err(_) => !ok && unchanged(address)
    case Ok(d) =>
      && address.txCount == d.txApperances
      && address.fundedSum == d.totalReceived
      && address.spentSum == d.totalSent
      && address.balance == d.balance
      && ok == Collect(pages, 0).Ok?
      && address.rawTransactions ==
           (if ok then BchTxs(Collect(pages, 0).value) else old(address.rawTransactions))
  }

  /** The state of the pagination loop before the request for page `i`, given the page count
      announced so far, the payloads gathered and the indices requested: what is still to
      come, appended to what was gathered, is the whole outcome. */
  ghost predicate Fetching(pages: seq<Result<Page>>, i: nat, totalPages: int,
                           payloads: seq<seq<BchRawTransaction>>, requested: seq<nat>)
  {
    && i <= |pages|
    && (i == 0 ==> totalPages == 1 && payloads == [] && requested == [])
    && (i < totalPages ==>
          && Collect(pages, 0) == Then(Flatten(payloads), Collect(pages, i))
          && Requests(pages, 0) == requested + Requests(pages, i))
    && (totalPages <= i ==>
          && Collect(pages, 0) == Ok(Flatten(payloads))
          && Requests(pages, 0) == requested)
  }

  lemma FetchingStarts(pages: seq<Result<Page>>)
    ensures Fetching(pages, 0, 1, [], [])
  {
    assert Flatten([]) == [];
    if Collect(pages, 0).Ok? {
      assert [] + Collect(pages, 0).value == Collect(pages, 0).value;
    }
  }

  /** A successful request for page `i` moves its payload into the gathered ones. */
  lemma FetchingStep(pages: seq<Result<Page>>, i: nat, totalPages: int,
                     payloads: seq<seq<BchRawTransaction>>, requested: seq<nat>)
    requires Fetching(pages, i, totalPages, payloads, requested)
    requires i < totalPages && i < |pages| && pages[i].Ok?
    ensures Fetching(pages, i + 1, pages[i].value.pagesTotal, payloads + [pages[i].value.txs], requested + [i])
  {
    var response := pages[i].value;
    assert Flatten(payloads + [response.txs]) == Flatten(payloads) + response.txs by {
      assert (payloads + [response.txs])[..|payloads|] == payloads;
    }
    CollectStep(pages, i, Flatten(payloads));
  }

  /** A failed request for page `i` is the outcome of the whole pagination. */
  lemma FetchingFails(pages: seq<Result<Page>>, i: nat, totalPages: int,
                      payloads: seq<seq<BchRawTransaction>>, requested: seq<nat>)
    requires Fetching(pages, i, totalPages, payloads, requested)
    requires i < totalPages && (i >= |pages| || pages[i].Err?)
    ensures Collect(pages, 0) == if i >= |pages| then Err(TransportError) else Err(pages[i].error)
    ensures Requests(pages, 0) == requested + [i]
  {
  }

  /** The pagination loop: request page `i` while `i` is below the page count announced by
      the latest response, and flatten the payloads. */
  method FetchPages(pages: seq<Result<Page>>)
    returns (r: Result<seq<BchRawTransaction>>, ghost requested: seq<nat>)
    ensures r == Collect(pages, 0)
    ensures requested == Requests(pages, 0)
  {
    requested := [];
    var payloads: seq<seq<BchRawTransaction>> := [];
    var totalPages := 1;
    var i := 0;
    FetchingStarts(pages);
    while i < totalPages
      invariant Fetching(pages, i, totalPages, payloads, requested)
      decreases |pages| - i
    {
      if i >= |pages| || pages[i].Err? {
        FetchingFails(pages, i, totalPages, payloads, requested);
        return if i >= |pages| then Err(TransportError) else Err(pages[i].error), requested + [i];
      }
      var response := pages[i].value;
      FetchingStep(pages, i, totalPages, payloads, requested);
      requested := requested + [i];
      totalPages := response.pagesTotal;
      payloads := payloads + [response.txs];
      i := i + 1;
    }
    r := Ok(Flatten(payloads));
  }

  method GetBchStats(address: Address, details: Result<Details>, pages: seq<Result<Page>>)
    returns (ok: bool, ghost requested: seq<nat>)
    modifies address`txCount, address`fundedSum, address`spentSum, address`balance,
             address`rawTransactions
    ensures StatsApplied(address, details, pages, ok)
    ensures requested == if details.Ok? then Requests(pages, 0) else []
  {
    requested := [];
    if details.Err? {
      return false, requested;
    }
    var res := details.value;
    address.SetStats(res.txApperances, res.totalReceived, res.totalSent);
    address.SetBalance(res.balance);

    var rawTransactions;
    rawTransactions, requested := FetchPages(pages);
    if rawTransactions.Err? {
      return false, requested;
    }
    address.SetRawTransactions(BchTxs(rawTransactions.value));
    ok := true;
  }

  // ---------------------------------------------------------------------------------------
  // Normalisation. `who` is the queried address string.

  /** Some input's `addr` includes the queried address: the address spends in `tx`. */
  predicate Spends(tx: BchRawTransaction, who: string)
  {
    exists i :: 0 <= i < |tx.vin| && Text.Includes(tx.vin[i].addr, who)
  }

  /** The output lists its addresses and one of them includes the queried address. */
  predicate PaysTo(output: BchOutput, who: string)
  {
    output.addresses.Some? &&
    exists j :: 0 <= j < |output.addresses.value| && Text.Includes(output.addresses.value[j], who)
  }

  /** `parseFloat(value) === 0`. */
  predicate IsZero(value: real)
  {
    value == 0.0
  }

  /** The value of the last output paying the queried address, if any: the outer loop over
      the outputs goes on after a match, so a later match overwrites an earlier one. */
  function LastPaidValue(vout: seq<BchOutput>, who: string): (r: Option<real>)
    ensures r.None? <==> forall j :: 0 <= j < |vout| ==> !PaysTo(vout[j], who)
    ensures r.Some? ==> exists j :: && 0 <= j < |vout| && PaysTo(vout[j], who)
                                    && vout[j].value == r.value
                                    && forall m :: j < m < |vout| ==> !PaysTo(vout[m], who)
  {
    if vout == [] then None
    else if PaysTo(vout[|vout| - 1], who) then Some(vout[|vout| - 1].value)
    else LastPaidValue(vout[..|vout| - 1], who)
  }

  /** The outputs whose value is not zero, in order. */
  function NonZeroOutputs(vout: seq<BchOutput>): (r: seq<BchOutput>)
  {
    if vout == [] then []
    else
      var last := vout[|vout| - 1];
      NonZeroOutputs(vout[..|vout| - 1]) + (if IsZero(last.value) then [] else [last])
  }

  /** The filter keeps every nonzero output and only those. */
  lemma {:induction false} NonZeroOutputsMembers(vout: seq<BchOutput>)
    ensures |NonZeroOutputs(vout)| <= |vout|
    ensures forall o :: o in NonZeroOutputs(vout) <==> o in vout && !IsZero(o.value)
  {
    if vout != [] {
      var init := vout[..|vout| - 1];
      NonZeroOutputsMembers(init);
      assert vout == init + [vout[|vout| - 1]];
    }
  }

  /** The filter keeps every nonzero output as often as it occurs, and no zero output. */
  lemma {:induction false} NonZeroOutputsCounts(vout: seq<BchOutput>)
    ensures forall o :: multiset(NonZeroOutputs(vout))[o] == if IsZero(o.value) then 0 else multiset(vout)[o]
  {
    if vout != [] {
      var init := vout[..|vout| - 1];
      NonZeroOutputsCounts(init);
      assert vout == init + [vout[|vout| - 1]];
    }
  }

  /** The `Received` operation of one input; `amount` is the paying output's value. */
  function ReceivedOp(tx: BchRawTransaction, amount: real, input: BchInput): Operation
  {
    Operation(Text.IntToDecimal(tx.time), amount, Some(input.addr), tx.txid, Received, None)
  }

  /** The `Sent` operation of one output, addressed to its first address (`undefined` for an
      empty list); reading the first address of an omitted list fails. */
  function SentOp(tx: BchRawTransaction, output: BchOutput): Result<Operation>
  {
    match output.addresses
    case None => Err(MalformedResponse)
    case Some(addrs) =>
      Ok(Operation(Text.IntToDecimal(tx.time), output.value,
                   if |addrs| > 0 then Some(addrs[0]) else None, tx.txid, Sent, None))
  }

  /** The `Sent` operations of `outputs`, one per output in order, or the first failure. */
  function SentOps(tx: BchRawTransaction, outputs: seq<BchOutput>): (r: Result<seq<Operation>>)
    ensures r.Ok? <==> forall k :: 0 <= k < |outputs| ==> outputs[k].addresses.Some?
    ensures r.Err? ==> r.error == MalformedResponse
    ensures r.Ok? ==> |r.value| == |outputs|
    ensures r.Ok? ==> forall k :: 0 <= k < |outputs| ==> r.value[k] == SentOp(tx, outputs[k]).value
  {
    if outputs == [] then Ok([])
    else
      var rest := SentOps(tx, outputs[..|outputs| - 1]);
      var op := SentOp(tx, outputs[|outputs| - 1]);
      if rest.Err? then rest
      else if op.Err? then Err(op.error)
      else Ok(rest.value + [op.value])
  }

  lemma NonZeroSnoc(vout: seq<BchOutput>, k: nat)
    requires k < |vout|
    ensures NonZeroOutputs(vout[..k + 1]) ==
      NonZeroOutputs(vout[..k]) + (if IsZero(vout[k].value) then [] else [vout[k]])
  {
    assert vout[..k + 1][..k] == vout[..k];
  }

  lemma SentOpsSnoc(tx: BchRawTransaction, outputs: seq<BchOutput>, o: BchOutput)
    ensures SentOps(tx, outputs + [o]) ==
      if SentOps(tx, outputs).Err? then SentOps(tx, outputs)
      else if SentOp(tx, o).Err? then Err(SentOp(tx, o).error)
      else Ok(SentOps(tx, outputs).value + [SentOp(tx, o).value])
  {
    assert (outputs + [o])[..|outputs|] == outputs;
  }

  /** The normalised form of one raw transaction, or the failure of a `Sent` operation. */
  function BchTransaction(tx: BchRawTransaction, who: string, formatUnix: int -> string)
    : (r: Result<Transaction>)
    ensures r.Err? <==> Spends(tx, who) && SentOps(tx, NonZeroOutputs(tx.vout)).Err?
    ensures r.Ok? ==>
      && r.value.txid == tx.txid && r.value.blockNumber == tx.blockheight
      && r.value.date == formatUnix(tx.time)
  {
    var paid := LastPaidValue(tx.vout, who);
    var ins := if paid.Some? then
        seq(|tx.vin|, k requires 0 <= k < |tx.vin| => ReceivedOp(tx, paid.value, tx.vin[k]))
      else [];
    var outs := if Spends(tx, who) then SentOps(tx, NonZeroOutputs(tx.vout)) else Ok([]);
    if outs.Err? then Err(outs.error)
    else Ok(Transaction(tx.blockheight, formatUnix(tx.time), tx.txid, ins, outs.value))
  }

  /** `Received` operations: one per input exactly when some output pays the queried
      address, all carrying the value of the last such output. */
  lemma ReceivedOperations(tx: BchRawTransaction, who: string, formatUnix: int -> string)
    requires BchTransaction(tx, who, formatUnix).Ok?
    ensures var t := BchTransaction(tx, who, formatUnix).value;
      && |t.ins| == (if exists j :: 0 <= j < |tx.vout| && PaysTo(tx.vout[j], who) then |tx.vin| else 0)
      && forall k :: 0 <= k < |t.ins| ==>
           && t.ins[k].opType == Received
           && t.ins[k].address == Some(tx.vin[k].addr)
           && t.ins[k].txid == tx.txid
           && t.ins[k].date == Text.IntToDecimal(tx.time)
           && t.ins[k].blockNumber == None
           && exists j :: && 0 <= j < |tx.vout| && PaysTo(tx.vout[j], who)
                          && t.ins[k].amount == tx.vout[j].value
                          && forall m :: j < m < |tx.vout| ==> !PaysTo(tx.vout[m], who)
  {
    var paid := LastPaidValue(tx.vout, who);
    if paid.Some? {
      var j :| && 0 <= j < |tx.vout| && PaysTo(tx.vout[j], who) && tx.vout[j].value == paid.value
               && forall m :: j < m < |tx.vout| ==> !PaysTo(tx.vout[m], who);
    }
  }

  /** `Sent` operations: none unless the queried address spends; then one per output with a
      nonzero value, carrying that value and the output's first address. */
  lemma {:induction false} SentOperations(tx: BchRawTransaction, who: string, formatUnix: int -> string)
    requires BchTransaction(tx, who, formatUnix).Ok?
    ensures var t := BchTransaction(tx, who, formatUnix).value;
      && (!Spends(tx, who) ==> t.outs == [])
      && (Spends(tx, who) ==> |t.outs| == |NonZeroOutputs(tx.vout)|)
      && (Spends(tx, who) ==> forall k :: 0 <= k < |t.outs| ==>
            t.outs[k] == SentOp(tx, NonZeroOutputs(tx.vout)[k]).value)
      && forall op :: op in t.outs ==>
           && op.opType == Sent && op.txid == tx.txid && !IsZero(op.amount)
           && op.date == Text.IntToDecimal(tx.time) && op.blockNumber == None
           && exists o :: && o in tx.vout && o.value == op.amount && o.addresses.Some?
                          && op.address == (if |o.addresses.value| > 0 then Some(o.addresses.value[0]) else None)
  {
    var t := BchTransaction(tx, who, formatUnix).value;
    if Spends(tx, who) {
      var nz := NonZeroOutputs(tx.vout);
      NonZeroOutputsMembers(tx.vout);
      forall op | op in t.outs
        ensures && op.opType == Sent && op.txid == tx.txid && !IsZero(op.amount)
                && op.date == Text.IntToDecimal(tx.time) && op.blockNumber == None
                && exists o :: && o in tx.vout && o.value == op.amount && o.addresses.Some?
                               && op.address == (if |o.addresses.value| > 0 then Some(o.addresses.value[0]) else None)
      {
        var k :| 0 <= k < |t.outs| && t.outs[k] == op;
        assert nz[k] in nz;
      }
    }
  }

  /** A self-spend (the queried address both funds an input and receives an output, here of
      value 7) yields both `Received` and `Sent` operations. */
  lemma SelfSpendHasBothDirections(txid: string, who: string, formatUnix: int -> string)
    ensures var tx := BchRawTransaction(txid, 1, 1, 0, [BchInput(7.0, who)], [BchOutput(7.0, Some([who]))]);
      var r := BchTransaction(tx, who, formatUnix);
      && r.Ok? && |r.value.ins| == 1 && |r.value.outs| == 1
      && r.value.ins[0].amount == 7.0 && r.value.outs[0].amount == 7.0
  {
    var tx := BchRawTransaction(txid, 1, 1, 0, [BchInput(7.0, who)], [BchOutput(7.0, Some([who]))]);
    Text.IncludesIsOccurs(who, who);
    assert Text.OccursAt(who, who, 0);
    assert Text.Includes(tx.vin[0].addr, who);
    assert Spends(tx, who);
    assert Text.Includes(tx.vout[0].addresses.value[0], who);
    assert PaysTo(tx.vout[0], who);
    assert NonZeroOutputs(tx.vout) == tx.vout by {
      assert tx.vout[..0] == [];
    }
  }

  /** First loop of the callback: does some input's `addr` include the queried address? */
  method DetectSpending(tx: BchRawTransaction, who: string) returns (processOut: bool)
    ensures processOut == Spends(tx, who)
  {
    processOut := false;
    var i := 0;
    while i < |tx.vin|
      invariant 0 <= i <= |tx.vin|
      invariant forall j :: 0 <= j < i ==> !Text.Includes(tx.vin[j].addr, who)
    {
      if Text.Includes(tx.vin[i].addr, who) {
        processOut := true;
        break;
      }
      i := i + 1;
    }
  }

  /** Second loop of the callback: the outer loop over the outputs skips those without
      addresses and goes on after a match; the inner `break` leaves only the address loop. */
  method DetectReceiving(tx: BchRawTransaction, who: string) returns (processIn: bool, amount: real)
    ensures processIn == LastPaidValue(tx.vout, who).Some?
    ensures processIn ==> amount == LastPaidValue(tx.vout, who).value
  {
    amount := 0.0;
    processIn := false;
    for o := 0 to |tx.vout|
      invariant processIn == LastPaidValue(tx.vout[..o], who).Some?
      invariant processIn ==> amount == LastPaidValue(tx.vout[..o], who).value
    {
      assert tx.vout[..o + 1][..o] == tx.vout[..o];
      var txout := tx.vout[o];
      if txout.addresses.None? {
        continue;
      }
      var outAddresses := txout.addresses.value;
      var m := 0;
      while m < |outAddresses|
        invariant 0 <= m <= |outAddresses|
        invariant forall l :: 0 <= l < m ==> !Text.Includes(outAddresses[l], who)
      {
        if Text.Includes(outAddresses[m], who) {
          // this output pays the address: its value becomes the received amount
          amount := txout.value;
          processIn := true;
          break;
        }
        m := m + 1;
      }
    }
    assert tx.vout[..|tx.vout|] == tx.vout;
  }

  /** Third loop of the callback: one `Received` operation per input, all with `amount`. */
  method ReceivedOperationsOf(tx: BchRawTransaction, amount: real) returns (ins: seq<Operation>)
    ensures ins == seq(|tx.vin|, k requires 0 <= k < |tx.vin| => ReceivedOp(tx, amount, tx.vin[k]))
  {
    ins := [];
    for k := 0 to |tx.vin|
      invariant |ins| == k
      invariant forall j :: 0 <= j < k ==> ins[j] == ReceivedOp(tx, amount, tx.vin[j])
    {
      ins := ins + [ReceivedOp(tx, amount, tx.vin[k])];
    }
  }

  /** One step of the fourth loop: a zero output adds nothing, a nonzero output with
      addresses adds its `Sent` operation, and a nonzero output without them is the failure
      of the whole list. */
  lemma SentOpsStep(tx: BchRawTransaction, k: nat, outs: seq<Operation>)
    requires k < |tx.vout|
    requires SentOps(tx, NonZeroOutputs(tx.vout[..k])) == Ok(outs)
    ensures IsZero(tx.vout[k].value) ==> SentOps(tx, NonZeroOutputs(tx.vout[..k + 1])) == Ok(outs)
    ensures !IsZero(tx.vout[k].value) && tx.vout[k].addresses.Some? ==>
      SentOps(tx, NonZeroOutputs(tx.vout[..k + 1])) == Ok(outs + [SentOp(tx, tx.vout[k]).value])
    ensures !IsZero(tx.vout[k].value) && tx.vout[k].addresses.None? ==>
      SentOps(tx, NonZeroOutputs(tx.vout)) == Err(MalformedResponse)
  {
    NonZeroSnoc(tx.vout, k);
    var txout := tx.vout[k];
    if IsZero(txout.value) {
      assert NonZeroOutputs(tx.vout[..k]) + [] == NonZeroOutputs(tx.vout[..k]);
    } else {
      SentOpsSnoc(tx, NonZeroOutputs(tx.vout[..k]), txout);
      if txout.addresses.None? {
        NonZeroOutputsMembers(tx.vout);
        assert txout in NonZeroOutputs(tx.vout);
      }
    }
  }

  /** Fourth loop of the callback: zero-value outputs are skipped, every other output gives
      one `Sent` operation. */
  method SentOperationsOf(tx: BchRawTransaction) returns (r: Result<seq<Operation>>)
    ensures r == SentOps(tx, NonZeroOutputs(tx.vout))
  {
    var outs: seq<Operation> := [];
    for k := 0 to |tx.vout|
      invariant SentOps(tx, NonZeroOutputs(tx.vout[..k])) == Ok(outs)
    {
      SentOpsStep(tx, k, outs);
      var txout := tx.vout[k];
      if IsZero(txout.value) {
        continue;
      }
      if txout.addresses.None? {
        return Err(MalformedResponse);
      }
      var op := SentOp(tx, txout).value;
      outs := outs + [op];
    }
    assert tx.vout[..|tx.vout|] == tx.vout;
    r := Ok(outs);
  }

  /** The per-transaction callback: direction detection, then the operations of each
      detected direction. */
  method NormalizeTransaction(tx: BchRawTransaction, who: string, formatUnix: int -> string)
    returns (r: Result<Transaction>)
    ensures r == BchTransaction(tx, who, formatUnix)
  {
    var ins: seq<Operation> := [];
    var outs: seq<Operation> := [];

    // which directions the address takes part in
    var processOut := DetectSpending(tx, who);
    var processIn, amount := DetectReceiving(tx, who);

    if processIn {
      ins := ReceivedOperationsOf(tx, amount);
    }
    if processOut {
      var sent := SentOperationsOf(tx);
      if sent.Err? {
        return Err(sent.error);
      }
      outs := sent.value;
    }
    r := Ok(Transaction(tx.blockheight, formatUnix(tx.time), tx.txid, ins, outs));
  }

  /** The transaction phase: one `Transaction` per cached raw transaction, in order; a failed
      normalisation leaves the address untouched. */
  method GetBitcoinCashTransactions(address: Address, formatUnix: int -> string) returns (ok: bool)
    requires address.rawTransactions.BchTxs?
    modifies address`transactions
    ensures ok <==> forall i :: 0 <= i < |address.rawTransactions.bch| ==>
      BchTransaction(address.rawTransactions.bch[i], address.name, formatUnix).Ok?
    ensures ok ==> |address.transactions| == |address.rawTransactions.bch|
    ensures ok ==> forall i :: 0 <= i < |address.transactions| ==>
        Ok(address.transactions[i]) == BchTransaction(address.rawTransactions.bch[i], address.name, formatUnix)
    ensures !ok ==> address.transactions == old(address.transactions)
  {
    var rawTransactions := address.rawTransactions.bch;
    var transactions: seq<Transaction> := [];
    for i := 0 to |rawTransactions|
      invariant |transactions| == i
      invariant forall j :: 0 <= j < i ==>
        Ok(transactions[j]) == BchTransaction(rawTransactions[j], address.name, formatUnix)
      invariant address.transactions == old(address.transactions)
    {
      var r := NormalizeTransaction(rawTransactions[i], address.name, formatUnix);
      if r.Err? {
        return false;
      }
      transactions := transactions + [r.value];
    }
    address.SetTransactions(transactions);
    ok := true;
  }
}
