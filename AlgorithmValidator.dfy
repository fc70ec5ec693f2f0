/** The backtester: replays a loaded price history through the trading
    algorithm and keeps a paper ledger of what it would have bought and sold,
    with a snapshot of holdings and balance after every trade. */
module Validation {
  import opened Common
  import opened Samples
  import opened Records
  import opened Erik

  /** One entry of a history: a value and the date it was taken at. */
  datatype Snapshot = Snapshot(value: real, date: int)

  /** The paper ledger the validator keeps. */
  datatype Book = Book(
    holdings: real,
    balance: real,
    buys: seq<TransactionRecord>,
    sells: seq<TransactionRecord>,
    holdingsHistory: seq<Snapshot>,
    balanceHistory: seq<Snapshot>)

  /** What happened at one sample of the replay. */
  datatype Step = Hold | Bought(volume: real) | Sold(volume: real)

  /** The record the validator writes for a trade of `v` shares at `sample`. */
  function TradeRecord(kind: TradeKind, sample: PriceSample, v: real): (r: TransactionRecord)
    ensures r.kind == kind && Consistent(r)
    ensures r.date == sample.date && r.price == sample.price && r.shares == v
  {
    TransactionRecord(kind, sample.date, sample.currency, sample.price, v, sample.price * v, sample.priceCurrency)
  }

  /** `_update_history(date)`: one snapshot of each balance, dated `date`. */
  function Snap(b: Book, date: int): Book
  {
    b.(holdingsHistory := b.holdingsHistory + [Snapshot(b.holdings, date)],
       balanceHistory := b.balanceHistory + [Snapshot(b.balance, date)])
  }

  /** One step of the ledger at `sample`: a buy adds its volume to the
      holdings and takes its cost from the balance, a sell the reverse; each
      trade appends its record and a snapshot; a hold changes nothing. */
  function Apply(b: Book, sample: PriceSample, step: Step): (r: Book)
    ensures r.balance - b.balance == -sample.price * (r.holdings - b.holdings)
    ensures step.Hold? <==> r == b
    ensures |r.holdingsHistory| - |b.holdingsHistory| == |r.balanceHistory| - |b.balanceHistory|
                                                     == (|r.buys| - |b.buys|) + (|r.sells| - |b.sells|)
    ensures step.Bought? ==> r.buys == b.buys + [TradeRecord(Buy, sample, step.volume)] && r.sells == b.sells
    ensures step.Sold? ==> r.sells == b.sells + [TradeRecord(Sell, sample, step.volume)] && r.buys == b.buys
  {
    match step
    case Hold => b
    case Bought(v) =>
      Snap(b.(holdings := b.holdings + v, balance := b.balance - sample.price * v,
              buys := b.buys + [TradeRecord(Buy, sample, v)]), sample.date)
    case Sold(v) =>
      Snap(b.(holdings := b.holdings - v, balance := b.balance + v * sample.price,
              sells := b.sells + [TradeRecord(Sell, sample, v)]), sample.date)
  }

  /** The ledger after taking `steps[i]` at `samples[i]`, in order. */
  function Ledger(b: Book, samples: seq<PriceSample>, steps: seq<Step>): Book
    requires |steps| == |samples|
  {
    if samples == [] then b
    else
      var n := |samples| - 1;
      Apply(Ledger(b, samples[..n], steps[..n]), samples[n], steps[n])
  }

  /** The number of steps that traded. */
  function Trades(steps: seq<Step>): nat
  {
    if steps == [] then 0 else Trades(steps[..|steps| - 1]) + if steps[|steps| - 1].Hold? then 0 else 1
  }

  /** One step keeps the records before `kb` and `ks` and appends at most
      one record, of the step's kind. */
  lemma ApplyRecords(p: Book, sample: PriceSample, step: Step, kb: nat, ks: nat)
    requires kb <= |p.buys| && ks <= |p.sells|
    ensures var r := Apply(p, sample, step);
            && r.buys[kb..] == p.buys[kb..] + (if step.Bought? then [TradeRecord(Buy, sample, step.volume)] else [])
            && r.sells[ks..] == p.sells[ks..] + (if step.Sold? then [TradeRecord(Sell, sample, step.volume)] else [])
            && r.buys[..kb] == p.buys[..kb] && r.sells[..ks] == p.sells[..ks]
            && |r.holdingsHistory| == |p.holdingsHistory| + (if step.Hold? then 0 else 1)
            && |r.balanceHistory| == |p.balanceHistory| + (if step.Hold? then 0 else 1)
  {
    var r := Apply(p, sample, step);
    match step
    case Hold =>
    case Bought(v) =>
      assert r.buys == p.buys + [TradeRecord(Buy, sample, v)];
      assert r.buys[kb..] == p.buys[kb..] + [TradeRecord(Buy, sample, v)];
      assert r.buys[..kb] == p.buys[..kb];
    case Sold(v) =>
      assert r.sells == p.sells + [TradeRecord(Sell, sample, v)];
      assert r.sells[ks..] == p.sells[ks..] + [TradeRecord(Sell, sample, v)];
      assert r.sells[..ks] == p.sells[..ks];
  }

  /** Appending a record of kind `k` keeps every record of kind `k`. */
  lemma AllOfAppend(rs: seq<TransactionRecord>, extra: seq<TransactionRecord>, k: TradeKind)
    requires AllOf(rs, k) && AllOf(extra, k)
    ensures AllOf(rs + extra, k)
  {
    forall i | 0 <= i < |rs + extra| ensures (rs + extra)[i].kind == k && Consistent((rs + extra)[i]) {
      if i >= |rs| {
        assert (rs + extra)[i] == extra[i - |rs|];
      }
    }
  }

  /** The ledger keeps every earlier record and appends one record of the
      right kind, and one snapshot of each balance, per trading step. */
  lemma {:induction false} LedgerRecords(b: Book, samples: seq<PriceSample>, steps: seq<Step>)
    requires |steps| == |samples|
    ensures var r := Ledger(b, samples, steps);
            && |r.buys| >= |b.buys| && r.buys[..|b.buys|] == b.buys
            && |r.sells| >= |b.sells| && r.sells[..|b.sells|] == b.sells
            && (|r.buys| - |b.buys|) + (|r.sells| - |b.sells|) == Trades(steps)
            && |r.holdingsHistory| == |b.holdingsHistory| + Trades(steps)
            && |r.balanceHistory| == |b.balanceHistory| + Trades(steps)
            && AllOf(r.buys[|b.buys|..], Buy) && AllOf(r.sells[|b.sells|..], Sell)
  {
    if samples != [] {
      var n := |samples| - 1;
      var p := Ledger(b, samples[..n], steps[..n]);
      LedgerRecords(b, samples[..n], steps[..n]);
      ApplyRecords(p, samples[n], steps[n], |b.buys|, |b.sells|);
      var r := Apply(p, samples[n], steps[n]);
      assert Ledger(b, samples, steps) == r;
      assert steps[..n] == steps[..|steps| - 1];
      var newBuys := if steps[n].Bought? then [TradeRecord(Buy, samples[n], steps[n].volume)] else [];
      var newSells := if steps[n].Sold? then [TradeRecord(Sell, samples[n], steps[n].volume)] else [];
      AllOfAppend(p.buys[|b.buys|..], newBuys, Buy);
      AllOfAppend(p.sells[|b.sells|..], newSells, Sell);
    }
  }

  /** One step moves the balance and the holdings by the records it appends. */
  lemma ApplyAccounts(p: Book, sample: PriceSample, step: Step)
    ensures var r := Apply(p, sample, step);
            && r.balance == p.balance - (SumTotals(r.buys) - SumTotals(p.buys)) + (SumTotals(r.sells) - SumTotals(p.sells))
            && r.holdings == p.holdings + (SumShares(r.buys) - SumShares(p.buys)) - (SumShares(r.sells) - SumShares(p.sells))
  {
    var r := Apply(p, sample, step);
    match step
    case Hold =>
    case Bought(v) =>
      var t := TradeRecord(Buy, sample, v);
      SumsAppend(p.buys, t);
      assert r.buys == p.buys + [t] && r.sells == p.sells;
      assert r.balance == p.balance - t.total && r.holdings == p.holdings + t.shares;
    case Sold(v) =>
      var t := TradeRecord(Sell, sample, v);
      SumsAppend(p.sells, t);
      assert r.sells == p.sells + [t] && r.buys == p.buys;
      assert r.balance == p.balance + t.total && r.holdings == p.holdings - t.shares;
  }

  /** The accounting identity over a whole replay: the balance moved by the
      totals of the new sells less those of the new buys, and the holdings by
      the shares of the new buys less those of the new sells. */
  lemma {:induction false} LedgerAccounts(b: Book, samples: seq<PriceSample>, steps: seq<Step>)
    requires |steps| == |samples|
    ensures var r := Ledger(b, samples, steps);
            && r.balance == b.balance - (SumTotals(r.buys) - SumTotals(b.buys)) + (SumTotals(r.sells) - SumTotals(b.sells))
            && r.holdings == b.holdings + (SumShares(r.buys) - SumShares(b.buys)) - (SumShares(r.sells) - SumShares(b.sells))
  {
    if samples != [] {
      var n := |samples| - 1;
      var p := Ledger(b, samples[..n], steps[..n]);
      LedgerAccounts(b, samples[..n], steps[..n]);
      ApplyAccounts(p, samples[n], steps[n]);
      assert Ledger(b, samples, steps) == Apply(p, samples[n], steps[n]);
    }
  }

  /** A replay in which no step trades leaves the ledger as it was: the
      outcome of an algorithm that never signals. */
  lemma {:induction false} HoldsKeepBook(b: Book, samples: seq<PriceSample>, steps: seq<Step>)
    requires |steps| == |samples|
    requires forall i :: 0 <= i < |steps| ==> steps[i] == Hold
    ensures Ledger(b, samples, steps) == b
  {
    if samples != [] {
      var n := |samples| - 1;
      HoldsKeepBook(b, samples[..n], steps[..n]);
      assert steps[n] == Hold;
    }
  }

  /** When every step trades, each history gains one snapshot per sample. */
  lemma {:induction false} EveryStepTrades(steps: seq<Step>)
    requires forall i :: 0 <= i < |steps| ==> !steps[i].Hold?
    ensures Trades(steps) == |steps|
  {
    if steps != [] {
      EveryStepTrades(steps[..|steps| - 1]);
    }
  }

  /** The start of `simulate_trading`: both record lists are emptied and one
      snapshot is taken, dated by the last sample of the history (the oldest,
      for a history loaded newest first). The histories are not emptied. */
  function Begin(b: Book, history: seq<PriceSample>): (r: Book)
    requires history != []
    ensures r.buys == [] && r.sells == [] && r.holdings == b.holdings && r.balance == b.balance
    ensures r.holdingsHistory == b.holdingsHistory + [Snapshot(b.holdings, history[|history| - 1].date)]
    ensures r.balanceHistory == b.balanceHistory + [Snapshot(b.balance, history[|history| - 1].date)]
  {
    Snap(b.(buys := [], sells := []), history[|history| - 1].date)
  }

  // ----- The replay with the trading algorithm -----

  /** The state of a replay: the algorithm's memory, the ledger and the steps so far. */
  datatype Run = Run(memory: Memory, book: Book, steps: seq<Step>)

  /** One iteration of the replay loop at `sample`: the algorithm ingests the
      sample; if it signals a buy, it sizes the buy from the balance and the
      ledger records it; otherwise, if it signals a sell, it sizes the sell
      from the holdings and the ledger records that; otherwise nothing trades. */
  function Advance(s: Settings, run: Run, sample: PriceSample, now: int): Run
    requires sample.price != 0.0
  {
    var m := run.memory.(data := [sample] + run.memory.data);
    if ShouldBuy(s, m.data, m.lastBuy, now) then
      var v := BuyVolume(s, sample, run.book.balance);
      var last := if BuyDeclined(s, run.book.balance) then m.lastBuy else Some(BuyRecord(sample, v));
      Run(m.(lastBuy := last), Apply(run.book, sample, Bought(v)), run.steps + [Bought(v)])
    else if ShouldSell(s, m.data, m.lastSell, now) then
      var v := SellVolume(s, sample, run.book.holdings);
      var last := if SellDeclined(s, sample, run.book.holdings) then m.lastSell else Some(SellRecord(sample, v, now));
      Run(m.(lastSell := last), Apply(run.book, sample, Sold(v)), run.steps + [Sold(v)])
    else
      Run(m, run.book, run.steps + [Hold])
  }

  /** The iteration when the algorithm signals a buy. */
  lemma AdvanceOnBuy(s: Settings, run: Run, sample: PriceSample, now: int, v: real, last: Option<TransactionRecord>)
    requires sample.price != 0.0
    requires ShouldBuy(s, [sample] + run.memory.data, run.memory.lastBuy, now)
    requires v == BuyVolume(s, sample, run.book.balance)
    requires last == if BuyDeclined(s, run.book.balance) then run.memory.lastBuy else Some(BuyRecord(sample, v))
    ensures Advance(s, run, sample, now)
         == Run(Memory([sample] + run.memory.data, last, run.memory.lastSell),
                Apply(run.book, sample, Bought(v)), run.steps + [Bought(v)])
  {
  }

  /** The iteration when the algorithm signals a sell but no buy. */
  lemma AdvanceOnSell(s: Settings, run: Run, sample: PriceSample, now: int, v: real, last: Option<TransactionRecord>)
    requires sample.price != 0.0
    requires !ShouldBuy(s, [sample] + run.memory.data, run.memory.lastBuy, now)
    requires ShouldSell(s, [sample] + run.memory.data, run.memory.lastSell, now)
    requires v == SellVolume(s, sample, run.book.holdings)
    requires last == if SellDeclined(s, sample, run.book.holdings) then run.memory.lastSell
                     else Some(SellRecord(sample, v, now))
    ensures Advance(s, run, sample, now)
         == Run(Memory([sample] + run.memory.data, run.memory.lastBuy, last),
                Apply(run.book, sample, Sold(v)), run.steps + [Sold(v)])
  {
  }

  /** The iteration when the algorithm signals neither. */
  lemma AdvanceOnHold(s: Settings, run: Run, sample: PriceSample, now: int)
    requires sample.price != 0.0
    requires !ShouldBuy(s, [sample] + run.memory.data, run.memory.lastBuy, now)
    requires !ShouldSell(s, [sample] + run.memory.data, run.memory.lastSell, now)
    ensures Advance(s, run, sample, now)
         == Run(run.memory.(data := [sample] + run.memory.data), run.book, run.steps + [Hold])
  {
  }

  /** One iteration appends one step, applies it to the ledger and puts the
      sample in front of the window. */
  lemma AdvanceShape(s: Settings, run: Run, sample: PriceSample, now: int)
    requires sample.price != 0.0
    ensures var r := Advance(s, run, sample, now);
            && |r.steps| == |run.steps| + 1 && r.steps[..|run.steps|] == run.steps
            && r.book == Apply(run.book, sample, r.steps[|run.steps|])
            && r.memory.data == [sample] + run.memory.data
  {
    var r := Advance(s, run, sample, now);
    assert r.steps[..|run.steps|] == run.steps;
  }

  /** The replay of `samples` in their stored order. */
  function Simulate(s: Settings, start: Run, samples: seq<PriceSample>, now: int): Run
    requires NonZeroPrices(samples)
  {
    if samples == [] then start
    else
      var n := |samples| - 1;
      assert NonZeroPrices(samples[..n]) by {
        forall i | 0 <= i < n ensures samples[..n][i].price != 0.0 {
          assert samples[..n][i] == samples[i];
        }
      }
      Advance(s, Simulate(s, start, samples[..n], now), samples[n], now)
  }

  /** The replay's ledger is the ledger of the steps it took, one step per
      sample; every sample reaches the algorithm once, each in front of the
      ones before it, so the window ends with the samples in reverse order. */
  lemma {:induction false} SimulateIsLedger(s: Settings, start: Run, samples: seq<PriceSample>, now: int)
    requires NonZeroPrices(samples)
    ensures var r := Simulate(s, start, samples, now);
            && |r.steps| == |start.steps| + |samples| && r.steps[..|start.steps|] == start.steps
            && r.book == Ledger(start.book, samples, r.steps[|start.steps|..])
            && r.memory.data == Reverse(samples) + start.memory.data
  {
    if samples != [] {
      var n := |samples| - 1;
      assert NonZeroPrices(samples[..n]) by {
        forall i | 0 <= i < n ensures samples[..n][i].price != 0.0 {
          assert samples[..n][i] == samples[i];
        }
      }
      var p := Simulate(s, start, samples[..n], now);
      SimulateIsLedger(s, start, samples[..n], now);
      AdvanceShape(s, p, samples[n], now);
      IngestOne(p.memory.data, samples[n]);
      var r := Simulate(s, start, samples, now);
      assert r == Advance(s, p, samples[n], now);
      assert samples[..n] == samples[..|samples| - 1];
      LedgerSnoc(start, samples, p.steps, p.book, r.steps, r.book);
    }
  }

  /** The ledger after one more step is that step applied to the ledger before it. */
  lemma LedgerSnoc(start: Run, samples: seq<PriceSample>, before: seq<Step>, b: Book, after: seq<Step>, r: Book)
    requires samples != []
    requires |before| == |start.steps| + |samples| - 1 && before[..|start.steps|] == start.steps
    requires b == Ledger(start.book, samples[..|samples| - 1], before[|start.steps|..])
    requires |after| == |before| + 1 && after[..|before|] == before
    requires r == Apply(b, samples[|samples| - 1], after[|before|])
    ensures |after| == |start.steps| + |samples| && after[..|start.steps|] == start.steps
    ensures r == Ledger(start.book, samples, after[|start.steps|..])
  {
    var k := |start.steps|;
    var n := |samples| - 1;
    var x := after[|before|];
    assert after == before + [x];
    SnocSlices(before, x, k);
    var tail := after[k..];
    assert tail[..n] == before[k..] && tail[n] == x;
    assert Ledger(start.book, samples, tail) == Apply(Ledger(start.book, samples[..n], tail[..n]), samples[n], tail[n]);
  }

  lemma SnocSlices<T>(a: seq<T>, x: T, k: nat)
    requires k <= |a|
    ensures (a + [x])[..k] == a[..k]
    ensures (a + [x])[k..] == a[k..] + [x]
    ensures (a[k..] + [x])[..|a| - k] == a[k..] && (a[k..] + [x])[|a| - k] == x
  {
  }

  /** While the window cannot hold `minSamples` samples, the algorithm never
      signals and the replay leaves the ledger as it was. */
  lemma {:induction false} NoTradesWhileWarmingUp(s: Settings, start: Run, samples: seq<PriceSample>, now: int)
    requires NonZeroPrices(samples)
    requires |start.memory.data| + |samples| < s.minSamples
    ensures Simulate(s, start, samples, now).book == start.book
    ensures |Simulate(s, start, samples, now).memory.data| == |start.memory.data| + |samples|
  {
    if samples != [] {
      var n := |samples| - 1;
      assert NonZeroPrices(samples[..n]) by {
        forall i | 0 <= i < n ensures samples[..n][i].price != 0.0 {
          assert samples[..n][i] == samples[i];
        }
      }
      var p := Simulate(s, start, samples[..n], now);
      NoTradesWhileWarmingUp(s, start, samples[..n], now);
      var data := [samples[n]] + p.memory.data;
      NoTradeBeforeWarmUp(s, data, p.memory.lastBuy, p.memory.lastSell, now);
    }
  }

  /** Replaying a newest-first history one sample at a time leaves the
      replayed part of the window oldest first: the window's front is the
      history's oldest sample. */
  lemma ReplayedWindowIsOldestFirst(history: seq<PriceSample>)
    requires NewestFirst(history)
    ensures OldestFirst(Reverse(history))
    ensures history != [] ==> Reverse(history)[0] == history[|history| - 1]
  {
    var r := Reverse(history);
    forall i, j | 0 <= i < j < |r|
      ensures r[i].date <= r[j].date
    {
      ReverseAt(history, i);
      ReverseAt(history, j);
    }
    if history != [] {
      ReverseAt(history, 0);
    }
  }

  // ----- Plotting series -----

  /** A plotted series: dates and values, index-aligned. */
  datatype Series = Series(dates: seq<int>, values: seq<real>)

  datatype Plot = Plot(prices: Series, buys: Series, sells: Series, balance: Series, holdings: Series)

  function SampleSeries(ss: seq<PriceSample>): (r: Series)
    ensures |r.dates| == |r.values| == |ss|
    ensures forall i :: 0 <= i < |ss| ==> r.dates[i] == ss[i].date && r.values[i] == ss[i].price
  {
    Series(seq(|ss|, i requires 0 <= i < |ss| => ss[i].date), seq(|ss|, i requires 0 <= i < |ss| => ss[i].price))
  }

  function RecordSeries(rs: seq<TransactionRecord>): (r: Series)
    ensures |r.dates| == |r.values| == |rs|
    ensures forall i :: 0 <= i < |rs| ==> r.dates[i] == rs[i].date && r.values[i] == rs[i].price
  {
    Series(seq(|rs|, i requires 0 <= i < |rs| => rs[i].date), seq(|rs|, i requires 0 <= i < |rs| => rs[i].price))
  }

  function SnapshotSeries(hs: seq<Snapshot>): (r: Series)
    ensures |r.dates| == |r.values| == |hs|
    ensures forall i :: 0 <= i < |hs| ==> Snapshot(r.values[i], r.dates[i]) == hs[i]
  {
    Series(seq(|hs|, i requires 0 <= i < |hs| => hs[i].date), seq(|hs|, i requires 0 <= i < |hs| => hs[i].value))
  }

  class AlgorithmValidator {
    const algorithm: ErikAlgorithm
    const sampleHistory: seq<PriceSample>
    var holdings: real
    var balance: real
    var buys: seq<TransactionRecord>
    var sells: seq<TransactionRecord>
    var holdingsHistory: seq<Snapshot>
    var balanceHistory: seq<Snapshot>

    function CurrentBook(): Book
      reads this
    {
      Book(holdings, balance, buys, sells, holdingsHistory, balanceHistory)
    }

    /** `history` is the log as `read_price_history` loads it, newest first. */
    constructor (history: seq<PriceSample>, algorithm: ErikAlgorithm, holdings: real, balance: real)
      ensures this.algorithm == algorithm && sampleHistory == history
      ensures CurrentBook() == Book(holdings, balance, [], [], [], [])
    {
      this.algorithm := algorithm;
      sampleHistory := history;
      this.holdings := holdings;
      this.balance := balance;
      buys := [];
      sells := [];
      holdingsHistory := [];
      balanceHistory := [];
    }

    /** `_update_history(date)`. */
    method UpdateHistory(date: int)
      modifies this`holdingsHistory, this`balanceHistory
      ensures CurrentBook() == Snap(old(CurrentBook()), date)
    {
      holdingsHistory := holdingsHistory + [Snapshot(holdings, date)];
      balanceHistory := balanceHistory + [Snapshot(balance, date)];
    }

    /** `simulate_trading`: the record lists are emptied first; an empty
        history then fails on its missing last sample. Otherwise the replay
        begins with one snapshot and visits the history in stored order,
        with `now` as the algorithm's clock. */
    method SimulateTrading(now: int) returns (r: Result<()>)
      requires NonZeroPrices(sampleHistory)
      modifies this, algorithm
      ensures sampleHistory == [] ==>
                && r == Err(NoSamples)
                && CurrentBook() == old(CurrentBook()).(buys := [], sells := [])
                && algorithm.State() == old(algorithm.State())
      ensures sampleHistory != [] ==>
                && r == Ok(())
                && CurrentBook() == Simulate(algorithm.settings, Run(old(algorithm.State()), Begin(old(CurrentBook()), sampleHistory), []),
                                             sampleHistory, now).book
                && algorithm.State() == Simulate(algorithm.settings, Run(old(algorithm.State()), Begin(old(CurrentBook()), sampleHistory), []),
                                                 sampleHistory, now).memory
    {
      buys := [];
      sells := [];
      if |sampleHistory| == 0 {
        return Err(NoSamples);
      }
      UpdateHistory(sampleHistory[|sampleHistory| - 1].date);
      ghost var start := Run(algorithm.State(), CurrentBook(), []);
      ghost var steps: seq<Step> := [];
      var i := 0;
      while i < |sampleHistory|
        invariant 0 <= i <= |sampleHistory|
        invariant NonZeroPrices(sampleHistory[..i])
        invariant Run(algorithm.State(), CurrentBook(), steps) == Simulate(algorithm.settings, start, sampleHistory[..i], now)
      {
        assert sampleHistory[..i + 1][..i] == sampleHistory[..i];
        assert NonZeroPrices(sampleHistory[..i + 1]) by {
          assert forall j :: 0 <= j < i + 1 ==> sampleHistory[..i + 1][j] == sampleHistory[j];
        }
        steps := ReplayOne(sampleHistory[i], now, steps);
        i := i + 1;
      }
      assert sampleHistory[..i] == sampleHistory;
      r := Ok(());
    }

    /** One pass of the replay loop at `sample`: the algorithm ingests it,
        then a buy signal is sized and booked, else a sell signal, else nothing. */
    method ReplayOne(sample: PriceSample, now: int, ghost steps0: seq<Step>) returns (ghost steps: seq<Step>)
      requires sample.price != 0.0
      modifies this, algorithm
      ensures Run(algorithm.State(), CurrentBook(), steps)
           == Advance(algorithm.settings, Run(old(algorithm.State()), old(CurrentBook()), steps0), sample, now)
    {
      ghost var before := Run(algorithm.State(), CurrentBook(), steps0);
      ghost var m := before.memory;
      ghost var s := algorithm.settings;
      IngestOne(algorithm.data, sample);
      algorithm.ProcessData([sample]);
      assert algorithm.State() == m.(data := [sample] + m.data);
      if algorithm.CheckShouldBuy(now) {
        assert ShouldBuy(s, [sample] + m.data, m.lastBuy, now);
        var v := algorithm.DetermineBuyVolume(sample, holdings, balance);
        AdvanceOnBuy(s, before, sample, now, v, algorithm.lastBuy);
        BookBuy(sample, v);
        steps := steps0 + [Bought(v)];
      } else if algorithm.CheckShouldSell(now) {
        assert !ShouldBuy(s, [sample] + m.data, m.lastBuy, now) && ShouldSell(s, [sample] + m.data, m.lastSell, now);
        var v := algorithm.DetermineSellVolume(sample, holdings, balance, now);
        AdvanceOnSell(s, before, sample, now, v, algorithm.lastSell);
        BookSell(sample, v);
        steps := steps0 + [Sold(v)];
      } else {
        AdvanceOnHold(s, before, sample, now);
        steps := steps0 + [Hold];
      }
    }

    /** A buy of `v` at `sample` booked on the paper ledger. */
    method BookBuy(sample: PriceSample, v: real)
      modifies this
      ensures CurrentBook() == Apply(old(CurrentBook()), sample, Bought(v))
    {
      holdings := holdings + v;
      balance := balance - sample.price * v;
      buys := buys + [TradeRecord(Buy, sample, v)];
      UpdateHistory(sample.date);
    }

    /** A sell of `v` at `sample` booked on the paper ledger. */
    method BookSell(sample: PriceSample, v: real)
      modifies this
      ensures CurrentBook() == Apply(old(CurrentBook()), sample, Sold(v))
    {
      holdings := holdings - v;
      balance := balance + v * sample.price;
      sells := sells + [TradeRecord(Sell, sample, v)];
      UpdateHistory(sample.date);
    }

    /** `data_pairs_for_plotting`: one index-aligned series per list. */
    function DataPairsForPlotting(): (r: Plot)
      reads this
      ensures |r.prices.dates| == |r.prices.values| == |sampleHistory|
      ensures forall i :: 0 <= i < |sampleHistory| ==>
                r.prices.dates[i] == sampleHistory[i].date && r.prices.values[i] == sampleHistory[i].price
      ensures |r.buys.dates| == |r.buys.values| == |buys|
      ensures forall i :: 0 <= i < |buys| ==> r.buys.dates[i] == buys[i].date && r.buys.values[i] == buys[i].price
      ensures |r.sells.dates| == |r.sells.values| == |sells|
      ensures forall i :: 0 <= i < |sells| ==> r.sells.dates[i] == sells[i].date && r.sells.values[i] == sells[i].price
      ensures |r.balance.dates| == |r.balance.values| == |balanceHistory|
      ensures forall i :: 0 <= i < |balanceHistory| ==> Snapshot(r.balance.values[i], r.balance.dates[i]) == balanceHistory[i]
      ensures |r.holdings.dates| == |r.holdings.values| == |holdingsHistory|
      ensures forall i :: 0 <= i < |holdingsHistory| ==> Snapshot(r.holdings.values[i], r.holdings.dates[i]) == holdingsHistory[i]
    {
      Plot(SampleSeries(sampleHistory), RecordSeries(buys), RecordSeries(sells),
           SnapshotSeries(balanceHistory), SnapshotSeries(holdingsHistory))
    }
  }
}
