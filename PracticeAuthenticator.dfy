/** A simulated venue account: a balance in the price currency and holdings
    of the target currency, changed only by guarded buys and sells. */
module Practice {
  import opened Common
  import opened Samples
  import Venue

  /** The two balances of the account. */
  datatype Account = Account(balance: real, holdings: real)

  /** Neither balance is negative. */
  predicate Solvent(a: Account)
  {
    a.balance >= 0.0 && a.holdings >= 0.0
  }

  /** The market pair name the venue is queried with, e.g. XXBTZUSD. */
  function Pair(target: string, priceCurrency: string): (r: string)
    ensures |r| == |target| + |priceCurrency| + 2
    ensures r[0] == 'X' && r[1 + |target|] == 'Z'
    ensures r[1..1 + |target|] == target && r[2 + |target|..] == priceCurrency
  {
    "X" + target + "Z" + priceCurrency
  }

  lemma PairOfBitcoinInDollars()
    ensures Pair("XBT", "USD") == "XXBTZUSD"
  {
  }

  // ----- Buy and sell as the source runs them -----
  // The base class this account derives from checks the volume with
  // `assert(n_shares > 0, "...")`: a tuple, which is always true, so the
  // check never fires and a volume of zero or less reaches the ledger.

  /** `buy` as written: no volume guard before the funds check. */
  function BuyAsWritten(a: Account, price: real, n: real): (r: Result<Account>)
    ensures r.Ok? <==> price * n <= a.balance
    ensures r.Ok? ==> r.value.balance + price * n == a.balance && r.value.holdings - n == a.holdings
  {
    if price * n > a.balance then Err(NotEnoughFunds)
    else Ok(Account(a.balance - price * n, a.holdings + n))
  }

  /** `sell` as written: no volume guard before the holdings check. */
  function SellAsWritten(a: Account, price: real, n: real): (r: Result<Account>)
    ensures r.Ok? <==> n <= a.holdings
    ensures r.Ok? ==> r.value.holdings + n == a.holdings && r.value.balance - price * n == a.balance
  {
    if n > a.holdings then Err(NotEnoughShares)
    else Ok(Account(a.balance + price * n, a.holdings - n))
  }

  /** As written, buying -2 shares at 500 from an empty holding of an account
      with 1000 succeeds: it raises the balance to 2000 and leaves the account
      holding -2 shares, so the account is no longer solvent. */
  lemma NegativeBuyAsWrittenBreaksSolvency()
    ensures Solvent(Account(1000.0, 0.0))
    ensures BuyAsWritten(Account(1000.0, 0.0), 500.0, -2.0) == Ok(Account(2000.0, -2.0))
    ensures !Solvent(BuyAsWritten(Account(1000.0, 0.0), 500.0, -2.0).value)
  {
  }

  /** As written, selling -5 shares succeeds and lowers the balance below zero. */
  lemma NegativeSellAsWrittenBreaksSolvency()
    ensures SellAsWritten(Account(0.0, 0.0), 500.0, -5.0) == Ok(Account(-2500.0, 5.0))
  {
  }

  // ----- Buy and sell as intended: the venue contract's guard first -----

  /** `buy(n)` at the last seen price: a volume of zero or less is refused,
      then a cost above the balance; nothing changes on refusal. */
  function BuyOrder(a: Account, price: real, n: real): (r: Result<Account>)
    ensures r.Ok? <==> n > 0.0 && price * n <= a.balance
    ensures r.Err? ==> r.failure == (if n <= 0.0 then NonPositiveVolume else NotEnoughFunds)
    ensures r.Ok? ==> r.value.balance == a.balance - price * n && r.value.holdings == a.holdings + n
    ensures r.Ok? && Solvent(a) && price >= 0.0 ==> Solvent(r.value)
  {
    match Venue.CheckBuy(n)
    case Err(e) => Err(e)
    case Ok(_) => BuyAsWritten(a, price, n)
  }

  /** `sell(n)` at the last seen price: a volume of zero or less is refused,
      then a volume above the holdings; nothing changes on refusal. */
  function SellOrder(a: Account, price: real, n: real): (r: Result<Account>)
    ensures r.Ok? <==> n > 0.0 && n <= a.holdings
    ensures r.Err? ==> r.failure == (if n <= 0.0 then NonPositiveVolume else NotEnoughShares)
    ensures r.Ok? ==> r.value.holdings == a.holdings - n && r.value.balance == a.balance + price * n
    ensures r.Ok? && Solvent(a) && price >= 0.0 ==> Solvent(r.value)
  {
    match Venue.CheckSell(n)
    case Err(e) => Err(e)
    case Ok(_) => SellAsWritten(a, price, n)
  }

  /** Selling what was just bought, at the same price, restores the account. */
  lemma {:induction false} BuyThenSellRestores(a: Account, price: real, n: real)
    requires a.holdings >= 0.0 && BuyOrder(a, price, n).Ok?
    ensures SellOrder(BuyOrder(a, price, n).value, price, n) == Ok(a)
  {
    var b := BuyOrder(a, price, n).value;
    assert b.holdings == a.holdings + n;
    assert n <= b.holdings;
  }

  /** The account after an order: the new balances, or the old ones on refusal. */
  function Settle(a: Account, r: Result<Account>): Account
  {
    if r.Ok? then r.value else a
  }

  /** Drops the new balances from an order's result. */
  function Done(r: Result<Account>): Result<()>
  {
    if r.Ok? then Ok(()) else Err(r.failure)
  }

  class PracticeAuthenticator {
    const targetCurrency: string
    const accountCurrency: string
    var accountBalance: real
    var targetBalance: real
    var lastPrice: Option<PriceSample>

    function CurrentAccount(): Account
      reads this
    {
      Account(accountBalance, targetBalance)
    }

    constructor (startingBalance: real, target: string, account: string)
      ensures targetCurrency == target && accountCurrency == account
      ensures accountBalance == startingBalance && targetBalance == 0.0
      ensures lastPrice == None
    {
      targetCurrency := target;
      accountCurrency := account;
      targetBalance := 0.0;
      accountBalance := startingBalance;
      lastPrice := None;
    }

    function GetPair(): string
      reads this
    {
      Pair(targetCurrency, accountCurrency)
    }

    function GetAccountBalance(): real
      reads this
    {
      accountBalance
    }

    function GetHoldings(): real
      reads this
    {
      targetBalance
    }

    /** `get_current_price`: `ask` is the market's lowest ask, or None when the
        query failed; a quote is remembered as the last price, a failure raised. */
    method GetCurrentPrice(ask: Option<real>, now: int) returns (r: Result<PriceSample>)
      modifies this`lastPrice
      ensures r.Ok? <==> ask.Some?
      ensures r.Ok? ==> r.value == PriceSample(ask.value, now, targetCurrency, accountCurrency)
      ensures r.Ok? ==> lastPrice == Some(r.value)
      ensures r.Err? ==> r.failure == PriceUnavailable && lastPrice == old(lastPrice)
    {
      match ask {
        case None =>
          r := Err(PriceUnavailable);
        case Some(cost) =>
          var p := PriceSample(cost, now, targetCurrency, accountCurrency);
          lastPrice := Some(p);
          r := Ok(p);
      }
    }

    /** `buy(n)`: the volume guard, then (when no price was seen yet) a price
        query answered by `ask`, then the funds check and the update. */
    method Buy(n: real, ask: Option<real>, now: int) returns (r: Result<()>)
      modifies this
      ensures n <= 0.0 ==> r == Err(NonPositiveVolume) && CurrentAccount() == old(CurrentAccount()) && lastPrice == old(lastPrice)
      ensures n > 0.0 && old(lastPrice).None? && ask.None? ==>
                r == Err(PriceUnavailable) && CurrentAccount() == old(CurrentAccount()) && lastPrice == old(lastPrice)
      ensures n > 0.0 && old(lastPrice).Some? ==>
                && lastPrice == old(lastPrice)
                && r == Done(BuyOrder(old(CurrentAccount()), old(lastPrice).value.price, n))
                && CurrentAccount() == Settle(old(CurrentAccount()), BuyOrder(old(CurrentAccount()), old(lastPrice).value.price, n))
      ensures n > 0.0 && old(lastPrice).None? && ask.Some? ==>
                && lastPrice == Some(PriceSample(ask.value, now, targetCurrency, accountCurrency))
                && r == Done(BuyOrder(old(CurrentAccount()), ask.value, n))
                && CurrentAccount() == Settle(old(CurrentAccount()), BuyOrder(old(CurrentAccount()), ask.value, n))
    {
      var guard := Venue.CheckBuy(n);
      if guard.Err? {
        return Err(guard.failure);
      }
      if lastPrice.None? {
        var fetched := GetCurrentPrice(ask, now);
        if fetched.Err? {
          return Err(fetched.failure);
        }
      }
      var order := BuyOrder(CurrentAccount(), lastPrice.value.price, n);
      if order.Ok? {
        accountBalance := order.value.balance;
        targetBalance := order.value.holdings;
      }
      r := Done(order);
    }

    /** `sell(n)`: the volume guard, then (when no price was seen yet) a price
        query answered by `ask`, then the holdings check and the update. */
    method Sell(n: real, ask: Option<real>, now: int) returns (r: Result<()>)
      modifies this
      ensures n <= 0.0 ==> r == Err(NonPositiveVolume) && CurrentAccount() == old(CurrentAccount()) && lastPrice == old(lastPrice)
      ensures n > 0.0 && old(lastPrice).None? && ask.None? ==>
                r == Err(PriceUnavailable) && CurrentAccount() == old(CurrentAccount()) && lastPrice == old(lastPrice)
      ensures n > 0.0 && old(lastPrice).Some? ==>
                && lastPrice == old(lastPrice)
                && r == Done(SellOrder(old(CurrentAccount()), old(lastPrice).value.price, n))
                && CurrentAccount() == Settle(old(CurrentAccount()), SellOrder(old(CurrentAccount()), old(lastPrice).value.price, n))
      ensures n > 0.0 && old(lastPrice).None? && ask.Some? ==>
                && lastPrice == Some(PriceSample(ask.value, now, targetCurrency, accountCurrency))
                && r == Done(SellOrder(old(CurrentAccount()), ask.value, n))
                && CurrentAccount() == Settle(old(CurrentAccount()), SellOrder(old(CurrentAccount()), ask.value, n))
    {
      var guard := Venue.CheckSell(n);
      if guard.Err? {
        return Err(guard.failure);
      }
      if lastPrice.None? {
        var fetched := GetCurrentPrice(ask, now);
        if fetched.Err? {
          return Err(fetched.failure);
        }
      }
      var order := SellOrder(CurrentAccount(), lastPrice.value.price, n);
      if order.Ok? {
        accountBalance := order.value.balance;
        targetBalance := order.value.holdings;
      }
      r := Done(order);
    }
  }
}
