/** The provider entry points: both phases pick one of the three families from the
    configured currency symbol and delegate to it. */
module Provider {
  import opened Domain
  import Text
  import UtxoProvider
  import BchProvider
  import EthProvider

  datatype Family = GeneralUtxo | BitcoinCash | AccountBased

  /** The symbols of the currency table the dispatch compares against. */
  datatype KnownSymbols = KnownSymbols(btc: string, bch: string, eth: string)

  /** The stats phase compares the upper-cased configured symbol with the table's
      Bitcoin Cash symbol first, then with its Ethereum symbol. */
  function StatsFamily(symbol: string, known: KnownSymbols): (f: Family)
    ensures f == TransactionsFamily(Text.ToUpper(symbol), known)
  {
    var coin := Text.ToUpper(symbol);
    if coin == known.bch then BitcoinCash
    else if coin == known.eth then AccountBased
    else GeneralUtxo
  }

  /** The transaction phase makes the same two comparisons on the symbol as configured,
      without upper-casing it. */
  function TransactionsFamily(symbol: string, known: KnownSymbols): (f: Family)
    ensures f == GeneralUtxo <==> symbol != known.bch && symbol != known.eth
    ensures f == BitcoinCash <==> symbol == known.bch
    ensures f == AccountBased ==> symbol == known.eth
  {
    if symbol == known.bch then BitcoinCash
    else if symbol == known.eth then AccountBased
    else GeneralUtxo
  }

  /** The stats phase does not depend on the case of the configured symbol. */
  lemma StatsFamilyIgnoresCase(symbol: string, known: KnownSymbols)
    ensures StatsFamily(Text.ToUpper(symbol), known) == StatsFamily(symbol, known)
  {
    Text.ToUpperIdempotent(symbol);
  }

  /** Predicate: the string has no lower-case ASCII letter. */
  predicate IsUpper(s: string)
  {
    Text.ToUpper(s) == s
  }

  /** With an upper-case symbol the two phases pick the same family; with an upper-case
      table they agree on every symbol for which the transaction phase picks a
      specific family. */
  lemma PhasesAgree(symbol: string, known: KnownSymbols)
    ensures IsUpper(symbol) ==> StatsFamily(symbol, known) == TransactionsFamily(symbol, known)
    ensures IsUpper(known.bch) && IsUpper(known.eth) && TransactionsFamily(symbol, known) != GeneralUtxo ==>
      StatsFamily(symbol, known) == TransactionsFamily(symbol, known)
  {
  }

  /** A lower-case Bitcoin Cash symbol: the stats phase queries the Bitcoin Cash explorer
      while the transaction phase runs the general normaliser. */
  lemma PhasesDisagreeOnLowerCase()
    ensures var known := KnownSymbols("BTC", "BCH", "ETH");
      StatsFamily("bch", known) == BitcoinCash && TransactionsFamily("bch", known) == GeneralUtxo
  {
    assert Text.ToUpper("bch") == "BCH";
  }

  /** The coin code substituted into the general explorer's URL: the upper-cased symbol,
      with `TEST` appended for Bitcoin on testnet. */
  function CoinCode(symbol: string, known: KnownSymbols, testnet: bool): (coin: string)
    ensures |coin| == |symbol| + (if testnet && Text.ToUpper(symbol) == Text.ToUpper(known.btc) then 4 else 0)
    ensures coin[..|symbol|] == Text.ToUpper(symbol)
  {
    var coin := Text.ToUpper(symbol);
    if coin == Text.ToUpper(known.btc) && testnet then coin + "TEST" else coin
  }

  /** The coin code is always upper case, as the general explorer requires. */
  lemma CoinCodeIsUpper(symbol: string, known: KnownSymbols, testnet: bool)
    ensures IsUpper(CoinCode(symbol, known, testnet))
  {
    var coin := Text.ToUpper(symbol);
    Text.ToUpperIdempotent(symbol);
    if coin == Text.ToUpper(known.btc) && testnet {
      Text.ToUpperConcat(coin, "TEST");
      assert Text.ToUpper("TEST") == "TEST";
    }
  }

  /** The answers of the explorers: the general explorer's address response per coin code,
      the Bitcoin Cash details and transaction pages, the account summary with its
      transaction references, and the fee lookup per hash. */
  datatype Upstream = Upstream(
    utxoSummary: string -> Result<UtxoProvider.Summary>,
    bchDetails: Result<BchProvider.Details>,
    bchPages: seq<Result<BchProvider.Page>>,
    ethSummary: Result<EthProvider.Summary>,
    ethRefs: array<EthRawTransaction>,
    feeLookup: string -> Result<int>)

  /** The stats phase: the family's stats request, and the references of the account
      summary are touched by the account-based family only. */
  method GetStats(address: Address, symbol: string, known: KnownSymbols, testnet: bool,
                  precision: nat, net: Upstream)
    returns (family: Family, ok: bool)
    requires precision > 0
    modifies address`txCount, address`fundedSum, address`spentSum, address`balance,
             address`rawTransactions, net.ethRefs
    ensures family == StatsFamily(symbol, known)
    ensures family == GeneralUtxo ==>
      && UtxoProvider.StatsApplied(address, net.utxoSummary(CoinCode(symbol, known, testnet)), ok)
      && unchanged(net.ethRefs)
    ensures family == BitcoinCash ==>
      && BchProvider.StatsApplied(address, net.bchDetails, net.bchPages, ok)
      && unchanged(net.ethRefs)
    ensures family == AccountBased ==>
      EthProvider.StatsApplied(address, net.ethSummary, net.ethRefs, net.feeLookup, precision, ok)
  {
    var coin := Text.ToUpper(symbol);
    if coin == known.bch {
      family := BitcoinCash;
      ghost var requested;
      ok, requested := BchProvider.GetBchStats(address, net.bchDetails, net.bchPages);
      return;
    }
    if coin == known.eth {
      family := AccountBased;
      ok := EthProvider.GetAccountBasedStats(address, net.ethSummary, net.ethRefs, net.feeLookup, precision);
      return;
    }
    family := GeneralUtxo;
    var code := CoinCode(symbol, known, testnet);
    ok := UtxoProvider.GetStats(address, net.utxoSummary(code));
  }

  /** The raw cache holds the records of the family. */
  predicate CacheMatches(family: Family, raw: RawCache)
  {
    match family
    case GeneralUtxo => raw.UtxoTxs?
    case BitcoinCash => raw.BchTxs?
    case AccountBased => raw.AccountTxs?
  }

  /** What the transaction phase of a family leaves behind. */
  twostate predicate TransactionsApplied(address: Address, family: Family, ok: bool, precision: nat,
                                         formatUnix: int -> string, formatIso: string -> string)
    requires precision > 0
    reads address
  {
    && address.rawTransactions == old(address.rawTransactions)
    && if !CacheMatches(family, address.rawTransactions) then
         !ok && unchanged(address)
       else match family
         case GeneralUtxo =>
           var raws := address.rawTransactions.utxo;
           && ok
           && address.fundedOperations == old(address.fundedOperations)
           && address.sentOperations == old(address.sentOperations)
           && |address.transactions| == |raws|
           && forall i :: 0 <= i < |raws| ==>
                address.transactions[i] == UtxoProvider.UtxoTransaction(raws[i], formatUnix)
         case BitcoinCash =>
           var raws := address.rawTransactions.bch;
           && address.fundedOperations == old(address.fundedOperations)
           && address.sentOperations == old(address.sentOperations)
           && (ok <==> forall i :: 0 <= i < |raws| ==>
                 BchProvider.BchTransaction(raws[i], address.name, formatUnix).Ok?)
           && (ok ==> |address.transactions| == |raws|)
           && (ok ==> forall i :: 0 <= i < |raws| ==>
                 Ok(address.transactions[i]) == BchProvider.BchTransaction(raws[i], address.name, formatUnix))
           && (!ok ==> address.transactions == old(address.transactions))
         case AccountBased =>
           var raws := address.rawTransactions.account;
           && ok
           && |address.transactions| == |raws|
           && (forall i :: 0 <= i < |raws| ==>
                 address.transactions[i] == EthProvider.AccountTransaction(raws[i], address.name, precision, formatIso))
           && address.fundedOperations ==
                old(address.fundedOperations) + EthProvider.FundedOps(raws, address.name, precision)
           && address.sentOperations ==
                old(address.sentOperations) + EthProvider.SentOps(raws, address.name, precision)
  }

  /** The transaction phase: the family's normaliser over the cached raw records. A cache
      that holds no records of that family is rejected without change. */
  method GetTransactions(address: Address, symbol: string, known: KnownSymbols, precision: nat,
                         formatUnix: int -> string, formatIso: string -> string)
    returns (family: Family, ok: bool)
    requires precision > 0
    modifies address`transactions, address`fundedOperations, address`sentOperations
    ensures family == TransactionsFamily(symbol, known)
    ensures TransactionsApplied(address, family, ok, precision, formatUnix, formatIso)
  {
    family := if symbol == known.bch then BitcoinCash
              else if symbol == known.eth then AccountBased
              else GeneralUtxo;
    if !CacheMatches(family, address.rawTransactions) {
      return family, false;
    }
    match family {
      case BitcoinCash =>
        ok := BchProvider.GetBitcoinCashTransactions(address, formatUnix);
      case AccountBased =>
        EthProvider.GetAccountBasedTransactions(address, precision, formatIso);
        ok := true;
      case GeneralUtxo =>
        UtxoProvider.GetTransactions(address, formatUnix);
        ok := true;
    }
  }
}
