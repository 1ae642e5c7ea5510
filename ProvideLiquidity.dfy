/**
 * The parameter selection of
 * components/Pages/Trade/Liquidity/hooks/useProvideLP.ts: how the two tokens
 * and the two typed amounts are put in the pool's order, which decimals each
 * amount is converted with, when deposit messages exist, where the deposit
 * goes and when the transaction is enabled.
 *
 * The hook's queries and atoms become the fields of `Inputs`. Three helpers
 * that are not part of this model are parameters: `toChain` (the
 * `toChainAmount` conversion), `isPositive` (whether `Number(x) > 0`) and
 * `quote` (the value lines 88-98 compute from the reserves). The message
 * builders `createLpMsg` and `createLPExecuteMsgs` are not part of this model
 * either: the model records the arguments the hook passes to them.
 */
module ProvideLiquidity {
  import opened Wrappers

  datatype TokenInfo = TokenInfo(symbol: Option<string>, decimals: Option<int>)

  /** One of the two amounts the user typed, with the symbol of its token. */
  datatype LpToken = LpToken(tokenSymbol: Option<string>, amount: Option<string>)

  datatype FactoryConfig = FactoryConfig(minUnbondingDuration: Option<int>)

  function SymbolOf(t: Option<TokenInfo>): Option<string>
  {
    if t.Some? then t.value.symbol else None
  }

  function DecimalsOf(t: Option<TokenInfo>): Option<int>
  {
    if t.Some? then t.value.decimals else None
  }

  function LpSymbolOf(t: Option<LpToken>): Option<string>
  {
    if t.Some? then t.value.tokenSymbol else None
  }

  function AmountOf(t: Option<LpToken>): Option<string>
  {
    if t.Some? then t.value.amount else None
  }

  /** `lpOrder?.[0]`: the first symbol of the pool's order, if it has one. */
  function Head(order: Option<seq<string>>): Option<string>
  {
    if order.Some? && |order.value| > 0 then Some(order.value[0]) else None
  }

  /**
   * Both ordering memos: with no pool order the pair is kept; otherwise it
   * is kept when the order starts with the first item's symbol, and swapped
   * (flipped) when it does not.
   */
  function Ordered<T>(lpOrder: Option<seq<string>>, a: T, b: T, keyA: Option<string>): (r: (T, T, bool))
    ensures multiset{r.0, r.1} == multiset{a, b}
    ensures r.2 <==> lpOrder.Some? && Head(lpOrder) != keyA
    ensures !r.2 ==> r.0 == a && r.1 == b
    ensures r.2 ==> r.0 == b && r.1 == a
  {
    if lpOrder.None? then (a, b, false)
    else if Head(lpOrder) == keyA then (a, b, false)
    else (b, a, true)
  }

  /** The token memo (lines 51-59), compared on the token's symbol. */
  function OrderTokens(lpOrder: Option<seq<string>>, a: Option<TokenInfo>, b: Option<TokenInfo>): (Option<TokenInfo>, Option<TokenInfo>, bool)
  {
    Ordered(lpOrder, a, b, SymbolOf(a))
  }

  /** The typed-amount memo (lines 61-69), compared on the amount's token symbol. */
  function OrderLpInputs(lpOrder: Option<seq<string>>, a: Option<LpToken>, b: Option<LpToken>): (Option<LpToken>, Option<LpToken>)
  {
    var r := Ordered(lpOrder, a, b, LpSymbolOf(a));
    (r.0, r.1)
  }

  /**
   * When each typed amount carries the symbol of its token, the two memos
   * order alike, so each amount stays beside its own token.
   */
  lemma OrdersAgree(lpOrder: Option<seq<string>>, ta: Option<TokenInfo>, tb: Option<TokenInfo>, la: Option<LpToken>, lb: Option<LpToken>)
    requires SymbolOf(ta) == LpSymbolOf(la) && SymbolOf(tb) == LpSymbolOf(lb)
    ensures var (t0, t1, _) := OrderTokens(lpOrder, ta, tb);
            var (l0, l1) := OrderLpInputs(lpOrder, la, lb);
            SymbolOf(t0) == LpSymbolOf(l0) && SymbolOf(t1) == LpSymbolOf(l1)
  {
  }

  /**
   * `tokenAAmount` and `tokenBAmount` (lines 74-77): each ordered amount is
   * converted with token B's decimals first when flipped, token A's when not.
   */
  function ChainAmounts(toChain: (Option<string>, Option<int>) -> string, flipped: bool,
                        lpA: Option<LpToken>, lpB: Option<LpToken>,
                        infoA: Option<TokenInfo>, infoB: Option<TokenInfo>): (string, string)
  {
    (toChain(AmountOf(lpA), if flipped then DecimalsOf(infoB) else DecimalsOf(infoA)),
     toChain(AmountOf(lpB), if flipped then DecimalsOf(infoA) else DecimalsOf(infoB)))
  }

  /** Each amount is converted with the decimals of the token it was ordered beside. */
  lemma DecimalsFollowTokens(toChain: (Option<string>, Option<int>) -> string, lpOrder: Option<seq<string>>,
                             ta: Option<TokenInfo>, tb: Option<TokenInfo>, la: Option<LpToken>, lb: Option<LpToken>)
    ensures var (t0, t1, flipped) := OrderTokens(lpOrder, ta, tb);
            var (l0, l1) := OrderLpInputs(lpOrder, la, lb);
            ChainAmounts(toChain, flipped, l0, l1, ta, tb) == (toChain(AmountOf(l0), DecimalsOf(t0)), toChain(AmountOf(l1), DecimalsOf(t1)))
  {
  }

  /**
   * `simulated` (lines 78-107): none when the amount that drives the quote
   * (A normally, B in reverse) is missing or either reserve is zero.
   */
  function Simulated(reverse: bool, lpTokenA: Option<LpToken>, lpTokenB: Option<LpToken>,
                     reserveA: Option<int>, reserveB: Option<int>, quote: string): (r: Option<string>)
    ensures r.None? <==> !Truthy(AmountOf(if reverse then lpTokenB else lpTokenA)) || reserveA == Some(0) || reserveB == Some(0)
    ensures r.Some? ==> r.value == quote
  {
    if (!reverse && !Truthy(AmountOf(lpTokenA))) || (reverse && !Truthy(AmountOf(lpTokenB)))
       || reserveA == Some(0) || reserveB == Some(0)
    then None
    else Some(quote)
  }

  /** `minUnbondingDuration` (lines 41-44): 0 without a factory configuration, else the configuration's value. */
  function MinUnbondingDuration(factoryConfig: Option<FactoryConfig>): (r: Option<int>)
    ensures factoryConfig.None? ==> r == Some(0)
    ensures factoryConfig.Some? ==> r == factoryConfig.value.minUnbondingDuration
  {
    if factoryConfig.Some? then factoryConfig.value.minUnbondingDuration else Some(0)
  }

  /** Where the deposit goes (lines 143-144 and 181): the pair itself without bonding, else the frontend helper. */
  function DepositTarget(bondingDays: int, swapAddress: Option<string>, frontendHelper: Option<string>): (r: Option<string>)
    ensures bondingDays == 0 ==> r == swapAddress
    ensures bondingDays != 0 ==> r == frontendHelper
  {
    if bondingDays == 0 then swapAddress else frontendHelper
  }

  /**
   * The three amount selections exactly as written: for `createLpMsg`
   * (lines 126-136), for `createLPExecuteMsgs` (lines 145-159) and for the
   * transaction hook (lines 187-196). `simA` and `simB` are the quote
   * converted with token A's and token B's decimals.
   */
  function LpMsgAmounts(reverse: bool, flipped: bool, tokenAAmount: string, tokenBAmount: string, simA: string, simB: string): (string, string)
  {
    (if reverse then (if flipped then tokenAAmount else simA) else tokenAAmount,
     if reverse then tokenBAmount else (if flipped then tokenBAmount else simB))
  }

  function ExecuteAmounts(reverse: bool, flipped: bool, tokenAAmount: string, tokenBAmount: string, simA: string, simB: string): (string, string)
  {
    (if reverse then (if flipped then tokenAAmount else simA) else (if flipped then tokenAAmount else tokenAAmount),
     if reverse then (if flipped then tokenBAmount else tokenBAmount) else (if flipped then tokenBAmount else simB))
  }

  function TxAmounts(reverse: bool, flipped: bool, tokenAAmount: string, tokenBAmount: string, simA: string, simB: string): (string, string)
  {
    (if reverse then (if flipped then tokenAAmount else simA) else tokenAAmount,
     if reverse then tokenBAmount else (if flipped then tokenBAmount else simB))
  }

  /**
   * The three selections agree in all four (reverse, flipped) cases; the
   * quote replaces the amount opposite the driving one only when the pair is
   * not flipped, and a flipped pair always deposits the two typed amounts.
   */
  lemma AmountsAgree(reverse: bool, flipped: bool, tokenAAmount: string, tokenBAmount: string, simA: string, simB: string)
    ensures LpMsgAmounts(reverse, flipped, tokenAAmount, tokenBAmount, simA, simB)
         == ExecuteAmounts(reverse, flipped, tokenAAmount, tokenBAmount, simA, simB)
         == TxAmounts(reverse, flipped, tokenAAmount, tokenBAmount, simA, simB)
    ensures flipped ==> LpMsgAmounts(reverse, flipped, tokenAAmount, tokenBAmount, simA, simB) == (tokenAAmount, tokenBAmount)
    ensures !flipped ==> LpMsgAmounts(reverse, flipped, tokenAAmount, tokenBAmount, simA, simB)
                         == (if reverse then (simA, tokenBAmount) else (tokenAAmount, simB))
  {
  }

  /** The arguments passed to `createLpMsg`. */
  datatype LpRequest = LpRequest(minUnbondingDuration: int, bondingDays: int,
                                 tokenA: Option<TokenInfo>, tokenB: Option<TokenInfo>,
                                 pairAddress: string, amountA: string, amountB: string)

  /** The arguments passed to `createLPExecuteMsgs`, with the sender. */
  datatype ExecuteRequest = ExecuteRequest(minUnbondingDuration: int, bondingDays: int,
                                           tokenA: Option<TokenInfo>, tokenB: Option<TokenInfo>,
                                           pairAddress: string, stakingProxy: Option<string>,
                                           amountA: string, amountB: string, sender: string)

  /** The arguments passed to the deposit transaction hook that this model reads. */
  datatype TxArgs = TxArgs(enabled: bool, swapAddress: Option<string>,
                           tokenAAmount: string, tokenBAmount: string,
                           msgs: Option<LpRequest>, encodedMsgs: Option<ExecuteRequest>)

  /** What the hook reads: its two arguments (defaults `false` and `0`), its atoms and its queries. */
  datatype Inputs = Inputs(
    reverse: bool, bondingDays: int,
    lpTokenA: Option<LpToken>, lpTokenB: Option<LpToken>,
    tokenInfoA: Option<TokenInfo>, tokenInfoB: Option<TokenInfo>,
    lpOrder: Option<seq<string>>, factoryConfig: Option<FactoryConfig>,
    swapAddress: Option<string>, isLoading: bool,
    reserveA: Option<int>, reserveB: Option<int>,
    frontendHelper: Option<string>, address: string)

  datatype Outcome = Outcome(simulated: Option<string>, tx: TxArgs, labelOverride: Option<string>)

  /**
   * The messages memo's guard (lines 110-118): messages exist only with a
   * quote, both chain amounts, a pair address and a minimum unbonding
   * duration.
   */
  predicate HasMsgs(simulated: Option<string>, tokenAAmount: string, tokenBAmount: string,
                    swapAddress: Option<string>, minUnbonding: Option<int>)
  {
    simulated.Some? && tokenAAmount != "" && tokenBAmount != "" && swapAddress.Some? && minUnbonding.Some?
  }

  /** `tokenAAmount` and `tokenBAmount` for the hook's inputs: the typed amounts in pool order, converted. */
  function ChainAmountsOf(i: Inputs, toChain: (Option<string>, Option<int>) -> string): (string, string)
  {
    var (_, _, flipped) := OrderTokens(i.lpOrder, i.tokenInfoA, i.tokenInfoB);
    var (lpA, lpB) := OrderLpInputs(i.lpOrder, i.lpTokenA, i.lpTokenB);
    ChainAmounts(toChain, flipped, lpA, lpB, i.tokenInfoA, i.tokenInfoB)
  }

  /** The quote converted with each token's decimals, as the three amount selections receive it. */
  function QuotedAmounts(i: Inputs, toChain: (Option<string>, Option<int>) -> string, simulated: Option<string>): (string, string)
  {
    (toChain(simulated, DecimalsOf(i.tokenInfoA)), toChain(simulated, DecimalsOf(i.tokenInfoB)))
  }

  /** The amounts the hook deposits: `LpMsgAmounts` on the pool-ordered chain amounts and the converted quote. */
  function DepositAmounts(i: Inputs, toChain: (Option<string>, Option<int>) -> string, simulated: Option<string>): (string, string)
  {
    var chain := ChainAmountsOf(i, toChain);
    var sim := QuotedAmounts(i, toChain, simulated);
    LpMsgAmounts(i.reverse, OrderTokens(i.lpOrder, i.tokenInfoA, i.tokenInfoB).2, chain.0, chain.1, sim.0, sim.1)
  }

  /** The whole hook: its returned `simulated`, the transaction arguments, and the label that overrides the transaction's. */
  function ProvideLP(i: Inputs, toChain: (Option<string>, Option<int>) -> string,
                     isPositive: string -> bool, quote: string): (r: Outcome)
    ensures r.simulated == Simulated(i.reverse, i.lpTokenA, i.lpTokenB, i.reserveA, i.reserveB, quote)
    ensures r.tx.msgs.Some? <==> r.tx.encodedMsgs.Some?
    ensures r.tx.msgs.None? <==> r.simulated.None? || ChainAmountsOf(i, toChain).0 == "" || ChainAmountsOf(i, toChain).1 == ""
                                 || i.swapAddress.None? || MinUnbondingDuration(i.factoryConfig).None?
    ensures (r.tx.tokenAAmount, r.tx.tokenBAmount) == DepositAmounts(i, toChain, r.simulated)
    ensures r.tx.msgs.Some? ==> (r.tx.msgs.value.amountA, r.tx.msgs.value.amountB) == DepositAmounts(i, toChain, r.simulated)
    ensures r.tx.encodedMsgs.Some? ==> (r.tx.encodedMsgs.value.amountA, r.tx.encodedMsgs.value.amountB) == DepositAmounts(i, toChain, r.simulated)
    ensures r.tx.msgs.Some? ==>
              var m := r.tx.msgs.value;
              var o := OrderTokens(i.lpOrder, i.tokenInfoA, i.tokenInfoB);
              m.pairAddress == i.swapAddress.value && m.tokenA == o.0 && m.tokenB == o.1 &&
              Some(m.minUnbondingDuration) == MinUnbondingDuration(i.factoryConfig) && m.bondingDays == i.bondingDays
    ensures r.tx.encodedMsgs.Some? ==>
              var m := r.tx.encodedMsgs.value;
              var o := OrderTokens(i.lpOrder, i.tokenInfoA, i.tokenInfoB);
              m.pairAddress == i.swapAddress.value && m.tokenA == o.0 && m.tokenB == o.1 &&
              Some(m.minUnbondingDuration) == MinUnbondingDuration(i.factoryConfig) && m.bondingDays == i.bondingDays &&
              m.stakingProxy == r.tx.swapAddress && m.sender == i.address
    ensures r.tx.swapAddress == (if i.bondingDays == 0 then i.swapAddress else i.frontendHelper)
    ensures r.tx.enabled <==> r.tx.encodedMsgs.Some? && isPositive(ChainAmountsOf(i, toChain).0) && isPositive(ChainAmountsOf(i, toChain).1)
    ensures r.labelOverride == (if i.swapAddress.None? && !i.isLoading then Some("No Matching Pool") else None)
  {
    var (tokenA, tokenB, flipped) := OrderTokens(i.lpOrder, i.tokenInfoA, i.tokenInfoB);
    var (tokenAAmount, tokenBAmount) := ChainAmountsOf(i, toChain);
    var simulated := Simulated(i.reverse, i.lpTokenA, i.lpTokenB, i.reserveA, i.reserveB, quote);
    var minUnbonding := MinUnbondingDuration(i.factoryConfig);
    var simA := toChain(simulated, DecimalsOf(i.tokenInfoA));
    var simB := toChain(simulated, DecimalsOf(i.tokenInfoB));
    var target := DepositTarget(i.bondingDays, i.swapAddress, i.frontendHelper);
    var has := HasMsgs(simulated, tokenAAmount, tokenBAmount, i.swapAddress, minUnbonding);
    var (lpAmountA, lpAmountB) := LpMsgAmounts(i.reverse, flipped, tokenAAmount, tokenBAmount, simA, simB);
    var (exAmountA, exAmountB) := ExecuteAmounts(i.reverse, flipped, tokenAAmount, tokenBAmount, simA, simB);
    var (txAmountA, txAmountB) := TxAmounts(i.reverse, flipped, tokenAAmount, tokenBAmount, simA, simB);
    var msgs := if has then Some(LpRequest(minUnbonding.value, i.bondingDays, tokenA, tokenB,
                                           i.swapAddress.value, lpAmountA, lpAmountB))
                else None;
    var encodedMsgs := if has then Some(ExecuteRequest(minUnbonding.value, i.bondingDays, tokenA, tokenB,
                                                       i.swapAddress.value, target,
                                                       exAmountA, exAmountB, i.address))
                       else None;
    var enabled := encodedMsgs.Some? && isPositive(tokenAAmount) && isPositive(tokenBAmount);
    Outcome(simulated,
            TxArgs(enabled, target, txAmountA, txAmountB, msgs, encodedMsgs),
            if i.swapAddress.None? && !i.isLoading then Some("No Matching Pool") else None)
  }

  /**
   * What the hook deposits: a flipped pair deposits the two typed amounts;
   * otherwise the converted quote replaces the amount opposite the driving
   * one (token A's in reverse, token B's otherwise).
   */
  lemma ProvideLPDeposits(i: Inputs, toChain: (Option<string>, Option<int>) -> string,
                          isPositive: string -> bool, quote: string)
    ensures var r := ProvideLP(i, toChain, isPositive, quote);
            var chain := ChainAmountsOf(i, toChain);
            var sim := QuotedAmounts(i, toChain, r.simulated);
            var flipped := OrderTokens(i.lpOrder, i.tokenInfoA, i.tokenInfoB).2;
            (flipped ==> (r.tx.tokenAAmount, r.tx.tokenBAmount) == chain) &&
            (!flipped && !i.reverse ==> (r.tx.tokenAAmount, r.tx.tokenBAmount) == (chain.0, sim.1)) &&
            (!flipped && i.reverse ==> (r.tx.tokenAAmount, r.tx.tokenBAmount) == (sim.0, chain.1))
  {
    var r := ProvideLP(i, toChain, isPositive, quote);
    var chain := ChainAmountsOf(i, toChain);
    var sim := QuotedAmounts(i, toChain, r.simulated);
    var flipped := OrderTokens(i.lpOrder, i.tokenInfoA, i.tokenInfoB).2;
    AmountsAgree(i.reverse, flipped, chain.0, chain.1, sim.0, sim.1);
  }
}
