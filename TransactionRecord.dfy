/** One executed buy or sell, an immutable value with seven fields in the
    source's order: type, date, currency, price, shares, total, price currency. */
module Records {

  /** The source's `type` field only ever holds 'buy' or 'sell'. */
  datatype TradeKind = Buy | Sell

  datatype TransactionRecord = TransactionRecord(
    kind: TradeKind,
    date: int,
    currency: string,
    price: real,
    shares: real,
    total: real,
    priceCurrency: string)

  /** The total of a record is its unit price times its number of shares. */
  predicate Consistent(r: TransactionRecord)
  {
    r.total == r.price * r.shares
  }

  /** Every record of `rs` is of kind `k` and consistent. */
  predicate AllOf(rs: seq<TransactionRecord>, k: TradeKind)
  {
    forall i :: 0 <= i < |rs| ==> rs[i].kind == k && Consistent(rs[i])
  }

  /** The sum of the shares of `rs`. */
  function SumShares(rs: seq<TransactionRecord>): real
  {
    if rs == [] then 0.0 else SumShares(rs[..|rs| - 1]) + rs[|rs| - 1].shares
  }

  /** The sum of the totals of `rs`. */
  function SumTotals(rs: seq<TransactionRecord>): real
  {
    if rs == [] then 0.0 else SumTotals(rs[..|rs| - 1]) + rs[|rs| - 1].total
  }

  lemma SumsAppend(rs: seq<TransactionRecord>, r: TransactionRecord)
    ensures SumShares(rs + [r]) == SumShares(rs) + r.shares
    ensures SumTotals(rs + [r]) == SumTotals(rs) + r.total
  {
    assert (rs + [r])[..|rs|] == rs;
  }
}
