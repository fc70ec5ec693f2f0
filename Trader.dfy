/** The live trader: one cycle asks the venue for the price, feeds it to the
    algorithm and, on a signal, places the order the algorithm sized. The
    timer that repeats the cycle and the logs are outside the model; the
    venue's answer and the clock are parameters of a cycle. */
module Trading {
  import opened Common
  import opened Samples
  import opened Records
  import opened Erik
  import opened Practice

  /** How one cycle ended. A failed order is caught and only logged. */
  datatype Cycle =
    | PriceFetchFailed
    | NoSignal
    | BuyPlaced(volume: real)
    | BuyFailed(volume: real, failure: Failure)
    | SellPlaced(volume: real)
    | SellFailed(volume: real, failure: Failure)

  /** The algorithm's memory, the account and the outcome after a cycle. */
  datatype Outcome = Outcome(memory: Memory, account: Account, cycle: Cycle)

  /** How an order placed for `v` shares ended. */
  function Placed(buy: bool, v: real, order: Result<Account>): Cycle
  {
    if buy then (if order.Ok? then BuyPlaced(v) else BuyFailed(v, order.failure))
    else (if order.Ok? then SellPlaced(v) else SellFailed(v, order.failure))
  }

  /** `perform_one_cycle` once the price `p` was received: the algorithm
      ingests it; on a buy signal the algorithm sizes the buy from the balance
      and the account is asked to buy that volume at `p`; otherwise, on a sell
      signal, the same for a sell sized from the holdings; otherwise nothing. */
  function CycleAt(s: Settings, m: Memory, a: Account, p: PriceSample, now: int): Outcome
    requires p.price != 0.0
  {
    var data := [p] + m.data;
    if ShouldBuy(s, data, m.lastBuy, now) then
      var v := BuyVolume(s, p, a.balance);
      var last := if BuyDeclined(s, a.balance) then m.lastBuy else Some(BuyRecord(p, v));
      var order := BuyOrder(a, p.price, v);
      Outcome(Memory(data, last, m.lastSell), Settle(a, order), Placed(true, v, order))
    else if ShouldSell(s, data, m.lastSell, now) then
      var v := SellVolume(s, p, a.holdings);
      var last := if SellDeclined(s, p, a.holdings) then m.lastSell else Some(SellRecord(p, v, now));
      var order := SellOrder(a, p.price, v);
      Outcome(Memory(data, m.lastBuy, last), Settle(a, order), Placed(false, v, order))
    else
      Outcome(m.(data := data), a, NoSignal)
  }

  /** The cycle when the algorithm signals a buy. */
  lemma CycleOnBuy(s: Settings, m: Memory, a: Account, p: PriceSample, now: int, v: real,
                   last: Option<TransactionRecord>, order: Result<Account>)
    requires p.price != 0.0
    requires ShouldBuy(s, [p] + m.data, m.lastBuy, now)
    requires v == BuyVolume(s, p, a.balance)
    requires last == if BuyDeclined(s, a.balance) then m.lastBuy else Some(BuyRecord(p, v))
    requires order == BuyOrder(a, p.price, v)
    ensures CycleAt(s, m, a, p, now) == Outcome(Memory([p] + m.data, last, m.lastSell), Settle(a, order), Placed(true, v, order))
  {
  }

  /** The cycle when the algorithm signals a sell but no buy. */
  lemma CycleOnSell(s: Settings, m: Memory, a: Account, p: PriceSample, now: int, v: real,
                    last: Option<TransactionRecord>, order: Result<Account>)
    requires p.price != 0.0
    requires !ShouldBuy(s, [p] + m.data, m.lastBuy, now)
    requires ShouldSell(s, [p] + m.data, m.lastSell, now)
    requires v == SellVolume(s, p, a.holdings)
    requires last == if SellDeclined(s, p, a.holdings) then m.lastSell else Some(SellRecord(p, v, now))
    requires order == SellOrder(a, p.price, v)
    ensures CycleAt(s, m, a, p, now) == Outcome(Memory([p] + m.data, m.lastBuy, last), Settle(a, order), Placed(false, v, order))
  {
  }

  /** The cycle when the algorithm signals neither. */
  lemma CycleOnHold(s: Settings, m: Memory, a: Account, p: PriceSample, now: int)
    requires p.price != 0.0
    requires !ShouldBuy(s, [p] + m.data, m.lastBuy, now)
    requires !ShouldSell(s, [p] + m.data, m.lastSell, now)
    ensures CycleAt(s, m, a, p, now) == Outcome(m.(data := [p] + m.data), a, NoSignal)
  {
  }

  // ----- What a cycle guarantees -----

  /** Every cycle puts the price in front of the window and keeps the rest of it. */
  lemma CycleIngests(s: Settings, m: Memory, a: Account, p: PriceSample, now: int)
    requires p.price != 0.0
    ensures CycleAt(s, m, a, p, now).memory.data == [p] + m.data
  {
  }

  /** A buy signal wins over a sell signal: with a buy signal the cycle never
      sells, and it sells only when the buy check failed and the sell check passed. */
  lemma BuyTakesPrecedence(s: Settings, m: Memory, a: Account, p: PriceSample, now: int)
    requires p.price != 0.0
    ensures var c := CycleAt(s, m, a, p, now).cycle;
            (c.SellPlaced? || c.SellFailed?) <==>
              !ShouldBuy(s, [p] + m.data, m.lastBuy, now) && ShouldSell(s, [p] + m.data, m.lastSell, now)
    ensures var c := CycleAt(s, m, a, p, now).cycle;
            (c.BuyPlaced? || c.BuyFailed?) <==> ShouldBuy(s, [p] + m.data, m.lastBuy, now)
    ensures CycleAt(s, m, a, p, now).cycle == NoSignal <==>
              !ShouldBuy(s, [p] + m.data, m.lastBuy, now) && !ShouldSell(s, [p] + m.data, m.lastSell, now)
  {
  }

  /** A buy the account accepts spends exactly `buyVolume` of the balance. */
  lemma AcceptedBuySpendsBuyVolume(s: Settings, a: Account, p: PriceSample)
    requires p.price != 0.0
    requires BuyOrder(a, p.price, BuyVolume(s, p, a.balance)).Ok?
    ensures BuyOrder(a, p.price, BuyVolume(s, p, a.balance)).value.balance == a.balance - s.buyVolume
  {
    var v := BuyVolume(s, p, a.balance);
    assert p.price * v == v * p.price;
  }

  /** A sell the account accepts brings in exactly `sellVolume`. */
  lemma AcceptedSellEarnsSellVolume(s: Settings, a: Account, p: PriceSample)
    requires p.price != 0.0
    requires SellOrder(a, p.price, SellVolume(s, p, a.holdings)).Ok?
    ensures SellOrder(a, p.price, SellVolume(s, p, a.holdings)).value.balance == a.balance + s.sellVolume
  {
    var v := SellVolume(s, p, a.holdings);
    assert p.price * v == v * p.price;
  }

  /** A failed or absent order leaves the account as it was; a placed buy
      spends exactly `buyVolume` of the balance for its volume, a placed sell
      brings in exactly `sellVolume` for its volume. */
  lemma CycleMovesAccount(s: Settings, m: Memory, a: Account, p: PriceSample, now: int)
    requires p.price != 0.0
    ensures var o := CycleAt(s, m, a, p, now);
            o.cycle.NoSignal? || o.cycle.BuyFailed? || o.cycle.SellFailed? ==> o.account == a
    ensures var o := CycleAt(s, m, a, p, now);
            o.cycle.BuyPlaced? ==>
              (o.account.balance == a.balance - s.buyVolume && o.account.holdings == a.holdings + o.cycle.volume)
    ensures var o := CycleAt(s, m, a, p, now);
            o.cycle.SellPlaced? ==>
              (o.account.balance == a.balance + s.sellVolume && o.account.holdings == a.holdings - o.cycle.volume)
  {
    var data := [p] + m.data;
    if ShouldBuy(s, data, m.lastBuy, now) {
      if BuyOrder(a, p.price, BuyVolume(s, p, a.balance)).Ok? {
        AcceptedBuySpendsBuyVolume(s, a, p);
      }
    } else if ShouldSell(s, data, m.lastSell, now) {
      if SellOrder(a, p.price, SellVolume(s, p, a.holdings)).Ok? {
        AcceptedSellEarnsSellVolume(s, a, p);
      }
    }
  }

  /** A declined buy asks the account for zero shares, which the volume guard
      refuses: the account and the last buy stay as they were. */
  lemma DeclinedBuyIsRefused(s: Settings, m: Memory, a: Account, p: PriceSample, now: int)
    requires p.price != 0.0
    requires ShouldBuy(s, [p] + m.data, m.lastBuy, now) && BuyDeclined(s, a.balance)
    ensures CycleAt(s, m, a, p, now) == Outcome(m.(data := [p] + m.data), a, BuyFailed(0.0, NonPositiveVolume))
  {
  }

  /** A declined sell likewise asks for zero shares and is refused. */
  lemma DeclinedSellIsRefused(s: Settings, m: Memory, a: Account, p: PriceSample, now: int)
    requires p.price != 0.0
    requires !ShouldBuy(s, [p] + m.data, m.lastBuy, now) && ShouldSell(s, [p] + m.data, m.lastSell, now)
    requires SellDeclined(s, p, a.holdings)
    ensures CycleAt(s, m, a, p, now) == Outcome(m.(data := [p] + m.data), a, SellFailed(0.0, NonPositiveVolume))
  {
  }

  /** At a positive price a solvent account stays solvent through a cycle. */
  lemma CycleKeepsSolvency(s: Settings, m: Memory, a: Account, p: PriceSample, now: int)
    requires p.price > 0.0 && Solvent(a)
    ensures Solvent(CycleAt(s, m, a, p, now).account)
  {
  }

  class Trader {
    const name: string
    const authenticator: PracticeAuthenticator
    const algorithm: ErikAlgorithm
    const updateInterval: real
    var isRunning: bool
    /** Whether the one-shot timer built by the constructor was started. */
    var timerStarted: bool

    constructor (name: string, authenticator: PracticeAuthenticator, algorithm: ErikAlgorithm,
                 updateInterval: real := 300.0)
      ensures this.name == name && this.authenticator == authenticator && this.algorithm == algorithm
      ensures this.updateInterval == updateInterval && !isRunning && !timerStarted
    {
      this.name := name;
      this.authenticator := authenticator;
      this.algorithm := algorithm;
      this.updateInterval := updateInterval;
      isRunning := false;
      timerStarted := false;
    }

    /** `begin_trading`: starts the constructor's one-shot timer, which will
        run one cycle after the interval, and marks the trader running. A
        timer starts only once: a second call raises before anything changes. */
    method BeginTrading() returns (r: Result<()>)
      modifies this`isRunning, this`timerStarted
      ensures old(timerStarted) ==> r == Err(TimerAlreadyStarted) && isRunning == old(isRunning) && timerStarted
      ensures !old(timerStarted) ==> r == Ok(()) && isRunning && timerStarted
    {
      if timerStarted {
        return Err(TimerAlreadyStarted);
      }
      timerStarted := true;
      isRunning := true;
      r := Ok(());
    }

    /** `stop_trading`: the timer is cancelled (harmless if it never started
        or already fired) and the trader is marked stopped. */
    method StopTrading()
      modifies this`isRunning
      ensures !isRunning
    {
      isRunning := false;
    }

    /** `perform_one_cycle`: `ask` is the venue's answer to the price query
        (None when it failed) and `now` the clock. A failed query ends the
        cycle with nothing changed but the log. */
    method PerformOneCycle(ask: Option<real>, now: int) returns (c: Cycle)
      requires ask.Some? ==> ask.value != 0.0
      modifies authenticator, algorithm
      ensures ask.None? ==> c == PriceFetchFailed && algorithm.State() == old(algorithm.State())
                            && authenticator.CurrentAccount() == old(authenticator.CurrentAccount())
                            && authenticator.lastPrice == old(authenticator.lastPrice)
      ensures ask.Some? ==>
                var p := PriceSample(ask.value, now, authenticator.targetCurrency, authenticator.accountCurrency);
                && authenticator.lastPrice == Some(p)
                && Outcome(algorithm.State(), authenticator.CurrentAccount(), c)
                   == CycleAt(algorithm.settings, old(algorithm.State()), old(authenticator.CurrentAccount()), p, now)
    {
      var price := authenticator.GetCurrentPrice(ask, now);
      if price.Err? {
        return PriceFetchFailed;
      }
      c := TradeAt(price.value, now);
    }

    /** The part of a cycle after the price `p` was received and remembered. */
    method TradeAt(p: PriceSample, now: int) returns (c: Cycle)
      requires p.price != 0.0 && authenticator.lastPrice == Some(p)
      modifies authenticator, algorithm
      ensures authenticator.lastPrice == Some(p)
      ensures Outcome(algorithm.State(), authenticator.CurrentAccount(), c)
           == CycleAt(algorithm.settings, old(algorithm.State()), old(authenticator.CurrentAccount()), p, now)
    {
      ghost var m := algorithm.State();
      ghost var a := authenticator.CurrentAccount();
      ghost var s := algorithm.settings;
      IngestOne(algorithm.data, p);
      algorithm.ProcessData([p]);
      assert algorithm.State() == m.(data := [p] + m.data);
      if algorithm.CheckShouldBuy(now) {
        assert ShouldBuy(s, [p] + m.data, m.lastBuy, now);
        var v;
        c, v := PlaceBuy(p, now);
        CycleOnBuy(s, m, a, p, now, v, algorithm.lastBuy, BuyOrder(a, p.price, v));
      } else if algorithm.CheckShouldSell(now) {
        assert !ShouldBuy(s, [p] + m.data, m.lastBuy, now) && ShouldSell(s, [p] + m.data, m.lastSell, now);
        var v;
        c, v := PlaceSell(p, now);
        CycleOnSell(s, m, a, p, now, v, algorithm.lastSell, SellOrder(a, p.price, v));
      } else {
        c := NoSignal;
        CycleOnHold(algorithm.settings, m, a, p, now);
      }
    }

    /** The buy branch: the algorithm sizes the buy from the balance and the
        account is asked to buy that volume; a refusal is caught. */
    method PlaceBuy(p: PriceSample, now: int) returns (c: Cycle, v: real)
      requires p.price != 0.0 && authenticator.lastPrice == Some(p)
      modifies authenticator, algorithm`lastBuy
      ensures authenticator.lastPrice == Some(p)
      ensures v == BuyVolume(algorithm.settings, p, old(authenticator.accountBalance))
      ensures algorithm.lastBuy == if BuyDeclined(algorithm.settings, old(authenticator.accountBalance))
                                   then old(algorithm.lastBuy) else Some(BuyRecord(p, v))
      ensures var order := BuyOrder(old(authenticator.CurrentAccount()), p.price, v);
              authenticator.CurrentAccount() == Settle(old(authenticator.CurrentAccount()), order)
              && c == Placed(true, v, order)
    {
      var balance := authenticator.GetAccountBalance();
      var holdings := authenticator.GetHoldings();
      v := algorithm.DetermineBuyVolume(p, holdings, balance);
      var placed := authenticator.Buy(v, None, now);
      c := if placed.Ok? then BuyPlaced(v) else BuyFailed(v, placed.failure);
    }

    /** The sell branch: the algorithm sizes the sell from the holdings and
        the account is asked to sell that volume; a refusal is caught. */
    method PlaceSell(p: PriceSample, now: int) returns (c: Cycle, v: real)
      requires p.price != 0.0 && authenticator.lastPrice == Some(p)
      modifies authenticator, algorithm`lastSell
      ensures authenticator.lastPrice == Some(p)
      ensures v == SellVolume(algorithm.settings, p, old(authenticator.targetBalance))
      ensures algorithm.lastSell == if SellDeclined(algorithm.settings, p, old(authenticator.targetBalance))
                                    then old(algorithm.lastSell) else Some(SellRecord(p, v, now))
      ensures var order := SellOrder(old(authenticator.CurrentAccount()), p.price, v);
              authenticator.CurrentAccount() == Settle(old(authenticator.CurrentAccount()), order)
              && c == Placed(false, v, order)
    {
      var balance := authenticator.GetAccountBalance();
      var holdings := authenticator.GetHoldings();
      v := algorithm.DetermineSellVolume(p, holdings, balance, now);
      var placed := authenticator.Sell(v, None, now);
      c := if placed.Ok? then SellPlaced(v) else SellFailed(v, placed.failure);
    }
  }
}
