/** The reference decision algorithm. It keeps a window of price samples,
    most recent first, and decides to buy when the newest price is a low
    outlier just past a local minimum, and to sell in the mirror case, after
    a warm-up period and with a cooldown between trades of the same kind. */
module Erik {
  import opened Common
  import opened Samples
  import opened Records

  /** The constructor's parameters, stored as the source stores them.
      Durations are any number of days or hours, as `timedelta` takes them. */
  datatype Settings = Settings(
    buyVolume: real,             // price-currency amount spent per buy
    sellVolume: real,            // price-currency worth sold per sell
    sigma: real,                 // outlier threshold in standard deviations
    minSamples: int,             // window population needed before trading
    minDaysOfData: real,          // age the oldest sample must exceed
    minHoursBetweenTrades: real,  // cooldown per kind of trade
    recentDays: real)             // span of the "recent" window

  /** Python's `int()` of a number: truncation toward zero. */
  function TruncateToInt(x: real): (r: int)
    ensures x >= 0.0 ==> 0 <= r && r as real <= x < r as real + 1.0
    ensures x < 0.0 ==> r <= 0 && r as real - 1.0 < x <= r as real
  {
    if x >= 0.0 then x.Floor else -((-x).Floor)
  }

  lemma TruncatesTenAndAHalf()
    ensures TruncateToInt(10.5) == 10
  {
  }

  // ----- Statistics over the window (numpy mean and population std) -----

  function Prices(data: seq<PriceSample>): (r: seq<real>)
    ensures |r| == |data|
    ensures forall i :: 0 <= i < |data| ==> r[i] == data[i].price
  {
    if data == [] then [] else [data[0].price] + Prices(data[1..])
  }

  function Sum(xs: seq<real>): real
  {
    if xs == [] then 0.0 else xs[0] + Sum(xs[1..])
  }

  function Mean(xs: seq<real>): real
    requires xs != []
  {
    Sum(xs) / |xs| as real
  }

  /** The sum of the squared deviations of `xs` from `m`. */
  function SquaredDeviations(xs: seq<real>, m: real): (r: real)
    ensures r >= 0.0
  {
    if xs == [] then 0.0
    else
      SquareIsNonNegative(xs[0] - m);
      (xs[0] - m) * (xs[0] - m) + SquaredDeviations(xs[1..], m)
  }

  lemma SquareIsNonNegative(d: real)
    ensures d * d >= 0.0
  {
    if d < 0.0 {
      assert d * d == (-d) * (-d);
    }
  }

  /** Population variance, the square of numpy's default standard deviation. */
  function Variance(xs: seq<real>): (r: real)
    requires xs != []
    ensures r >= 0.0
  {
    SquaredDeviations(xs, Mean(xs)) / |xs| as real
  }

  function Abs(x: real): real
  {
    if x < 0.0 then -x else x
  }

  /** `diff > std * sigma` with std the square root of `variance`, stated
      without the square root: squared when sigma is non-negative; when sigma
      is negative the right side is zero or below, so only the case where
      both sides are zero fails. */
  predicate ExceedsThreshold(diff: real, variance: real, sigma: real)
  {
    if sigma >= 0.0 then diff * diff > sigma * sigma * variance
    else diff > 0.0 || variance > 0.0
  }

  lemma SquaresKeepOrder(a: real, b: real)
    requires a >= 0.0 && b >= 0.0
    ensures a > b <==> a * a > b * b
  {
    assert a * a - b * b == (a - b) * (a + b);
    if a > b {
      assert a + b > 0.0;
      assert (a - b) * (a + b) > 0.0;
    } else {
      assert (b - a) * (a + b) >= 0.0;
    }
  }

  /** The squared form agrees with the source's comparison for the one
      non-negative square root of the variance. */
  lemma {:induction false} ThresholdMatchesStdDev(diff: real, variance: real, sigma: real, std: real)
    requires diff >= 0.0 && std >= 0.0 && std * std == variance
    ensures diff > std * sigma <==> ExceedsThreshold(diff, variance, sigma)
  {
    if sigma >= 0.0 {
      assert std * sigma >= 0.0;
      SquaresKeepOrder(diff, std * sigma);
      assert (std * sigma) * (std * sigma) == sigma * sigma * (std * std);
    } else if variance > 0.0 {
      assert std != 0.0;
      assert std * sigma < 0.0;
    } else {
      assert std * std == 0.0;
      SquaresKeepOrder(std, 0.0);
      assert std == 0.0;
    }
  }

  /** `check_if_last_sample_is_outlier`: the newest price lies more than
      sigma standard deviations from the mean of the whole window. */
  predicate IsOutlier(s: Settings, data: seq<PriceSample>)
    requires data != []
  {
    var ps := Prices(data);
    ExceedsThreshold(Abs(ps[0] - Mean(ps)), Variance(ps), s.sigma)
  }

  lemma {:induction false} ConstantSums(xs: seq<real>, p: real)
    requires forall i :: 0 <= i < |xs| ==> xs[i] == p
    ensures Sum(xs) == |xs| as real * p
    ensures SquaredDeviations(xs, p) == 0.0
  {
    if xs != [] {
      ConstantSums(xs[1..], p);
    }
  }

  /** A window whose prices are all equal never flags an outlier. */
  lemma ConstantWindowHasNoOutlier(s: Settings, data: seq<PriceSample>)
    requires data != []
    requires forall i :: 0 <= i < |data| ==> data[i].price == data[0].price
    ensures !IsOutlier(s, data)
  {
    var ps := Prices(data);
    ConstantSums(ps, data[0].price);
    assert Mean(ps) == data[0].price;
    assert Variance(ps) == 0.0;
  }

  // ----- The gates of check_should_buy and check_should_sell -----

  /** `last_price`: the price of the newest sample. */
  function LastPrice(data: seq<PriceSample>): real
    requires data != []
  {
    data[0].price
  }

  /** `check_enough_data`: the oldest sample is strictly older than
      `minDaysOfData` days before now, and the window holds at least
      `minSamples` samples. */
  predicate WarmedUp(s: Settings, data: seq<PriceSample>, now: int)
    requires data != []
  {
    (data[|data| - 1].date as real) < (now as real) - s.minDaysOfData * (Day as real) && |data| >= s.minSamples
  }

  /** `check_far_enough_in_past`: no such trade yet, or it is strictly older
      than `minHoursBetweenTrades` hours before now. */
  predicate CooledDown(s: Settings, last: Option<TransactionRecord>, now: int)
  {
    last.None? || (last.value.date as real) < (now as real) - s.minHoursBetweenTrades * (Hour as real)
  }

  /** The samples of `data` dated strictly after `cutoff`, in window order. */
  function After(data: seq<PriceSample>, cutoff: real): (r: seq<PriceSample>)
    ensures |r| <= |data|
    ensures forall x :: x in r <==> x in data && x.date as real > cutoff
    ensures forall i :: 0 <= i < |r| ==> r[i].date as real > cutoff
  {
    if data == [] then []
    else if data[0].date as real > cutoff then [data[0]] + After(data[1..], cutoff)
    else After(data[1..], cutoff)
  }

  /** `After` keeps a one-sample window exactly when that sample is recent, and
    * splits over concatenation; together these pin down the order and the
    * multiplicity of what it keeps, whatever the window's order. */
  lemma {:induction false} AfterDistributes(a: seq<PriceSample>, b: seq<PriceSample>, cutoff: real)
    ensures After(a + b, cutoff) == After(a, cutoff) + After(b, cutoff)
    ensures forall x :: After([x], cutoff) == (if x.date as real > cutoff then [x] else [])
  {
    forall x ensures After([x], cutoff) == (if x.date as real > cutoff then [x] else []) {
      assert [x][1..] == [];
    }
    if a == [] {
      assert a + b == b;
    } else {
      assert (a + b)[0] == a[0];
      assert (a + b)[1..] == a[1..] + b;
      AfterDistributes(a[1..], b, cutoff);
    }
  }

  /** In a newest-first window the recent samples are a prefix of it. */
  lemma {:induction false} AfterIsPrefix(data: seq<PriceSample>, cutoff: real)
    requires NewestFirst(data)
    ensures After(data, cutoff) == data[..|After(data, cutoff)|]
  {
    if data != [] {
      var rest := data[1..];
      assert NewestFirst(rest) by {
        forall i, j | 0 <= i < j < |rest| ensures rest[i].date >= rest[j].date {
          assert rest[i] == data[i + 1] && rest[j] == data[j + 1];
        }
      }
      AfterIsPrefix(rest, cutoff);
      var k := |After(rest, cutoff)|;
      if data[0].date as real > cutoff {
        assert After(data, cutoff) == [data[0]] + rest[..k];
        assert [data[0]] + rest[..k] == data[..k + 1];
      } else {
        NothingAfter(data, cutoff);
      }
    }
  }

  /** A newest-first window whose newest sample is not after the cutoff has
      no sample after it. */
  lemma {:induction false} NothingAfter(data: seq<PriceSample>, cutoff: real)
    requires NewestFirst(data) && data != [] && data[0].date as real <= cutoff
    ensures After(data, cutoff) == []
  {
    var rest := data[1..];
    if rest != [] {
      assert rest[0] == data[1];
      assert NewestFirst(rest) by {
        forall i, j | 0 <= i < j < |rest| ensures rest[i].date >= rest[j].date {
          assert rest[i] == data[i + 1] && rest[j] == data[j + 1];
        }
      }
      NothingAfter(rest, cutoff);
    }
  }

  /** `recent_prices`: the samples dated within `recentDays` days of now. */
  function RecentPrices(s: Settings, data: seq<PriceSample>, now: int): seq<PriceSample>
  {
    After(data, (now as real) - s.recentDays * (Day as real))
  }

  /** `recent_mean`; None where numpy yields nan, for an empty recent window. */
  function RecentMean(s: Settings, data: seq<PriceSample>, now: int): (r: Option<real>)
    ensures r.Some? <==> RecentPrices(s, data, now) != []
  {
    var recent := Prices(RecentPrices(s, data, now));
    if recent == [] then None else Some(Mean(recent))
  }

  /** `price_is_low`: the newest price is strictly below the recent mean
      (a comparison with nan is false). */
  predicate PriceIsLow(s: Settings, data: seq<PriceSample>, now: int)
    requires data != []
  {
    var m := RecentMean(s, data, now);
    m.Some? && LastPrice(data) < m.value
  }

  /** `price_is_high`: the newest price is strictly above the recent mean. */
  predicate PriceIsHigh(s: Settings, data: seq<PriceSample>, now: int)
    requires data != []
  {
    var m := RecentMean(s, data, now);
    m.Some? && LastPrice(data) > m.value
  }

  /** `passed_local_min` on the recent prices p0..p4, newest first: they fell
      into p2 and rose out of it, so p2 is the strict minimum of the five. */
  function PassedLocalMin(ps: seq<real>): (r: bool)
    ensures r ==> |ps| >= 5 && forall j :: 0 <= j < 5 && j != 2 ==> ps[2] < ps[j]
    ensures |ps| < 5 ==> !r
  {
    if |ps| < 5 then false
    else ps[2] < ps[3] < ps[4] && ps[0] > ps[1] > ps[2]
  }

  /** `passed_local_max`: the mirror image; p2 is the strict maximum. */
  function PassedLocalMax(ps: seq<real>): (r: bool)
    ensures r ==> |ps| >= 5 && forall j :: 0 <= j < 5 && j != 2 ==> ps[2] > ps[j]
    ensures |ps| < 5 ==> !r
  {
    if |ps| < 5 then false
    else ps[2] > ps[3] > ps[4] && ps[0] < ps[1] < ps[2]
  }

  function Negated(ps: seq<real>): (r: seq<real>)
    ensures |r| == |ps| && forall i :: 0 <= i < |ps| ==> r[i] == -ps[i]
  {
    if ps == [] then [] else [-ps[0]] + Negated(ps[1..])
  }

  /** A local maximum is a local minimum of the negated prices. */
  lemma LocalMaxMirrorsLocalMin(ps: seq<real>)
    ensures PassedLocalMax(ps) <==> PassedLocalMin(Negated(ps))
  {
  }

  /** `check_should_buy`: warm-up, cooldown since the last buy, outlier,
      price below the recent mean, local minimum, tested in that order. */
  predicate ShouldBuy(s: Settings, data: seq<PriceSample>, lastBuy: Option<TransactionRecord>, now: int)
    requires data != []
  {
    if !WarmedUp(s, data, now) || !CooledDown(s, lastBuy, now) then false
    else if !IsOutlier(s, data) || !PriceIsLow(s, data, now) then false
    else if !PassedLocalMin(Prices(RecentPrices(s, data, now))) then false
    else true
  }

  /** `check_should_sell`: the mirror of `ShouldBuy` with the last sell,
      a price above the recent mean and a local maximum. */
  predicate ShouldSell(s: Settings, data: seq<PriceSample>, lastSell: Option<TransactionRecord>, now: int)
    requires data != []
  {
    if !WarmedUp(s, data, now) || !CooledDown(s, lastSell, now) then false
    else if !IsOutlier(s, data) || !PriceIsHigh(s, data, now) then false
    else if !PassedLocalMax(Prices(RecentPrices(s, data, now))) then false
    else true
  }

  /** A buy signal needs every gate; in particular a full warm-up and at
      least five recent samples. */
  lemma ShouldBuyGates(s: Settings, data: seq<PriceSample>, lastBuy: Option<TransactionRecord>, now: int)
    requires data != []
    ensures ShouldBuy(s, data, lastBuy, now) <==>
      WarmedUp(s, data, now) && CooledDown(s, lastBuy, now) && IsOutlier(s, data) &&
      PriceIsLow(s, data, now) && PassedLocalMin(Prices(RecentPrices(s, data, now)))
    ensures ShouldBuy(s, data, lastBuy, now) ==>
      |data| >= s.minSamples && |RecentPrices(s, data, now)| >= 5
  {
  }

  lemma ShouldSellGates(s: Settings, data: seq<PriceSample>, lastSell: Option<TransactionRecord>, now: int)
    requires data != []
    ensures ShouldSell(s, data, lastSell, now) <==>
      WarmedUp(s, data, now) && CooledDown(s, lastSell, now) && IsOutlier(s, data) &&
      PriceIsHigh(s, data, now) && PassedLocalMax(Prices(RecentPrices(s, data, now)))
    ensures ShouldSell(s, data, lastSell, now) ==>
      |data| >= s.minSamples && |RecentPrices(s, data, now)| >= 5
  {
  }

  /** Without the warm-up neither check passes, whatever the other gates say. */
  lemma NoTradeBeforeWarmUp(s: Settings, data: seq<PriceSample>, lastBuy: Option<TransactionRecord>,
                            lastSell: Option<TransactionRecord>, now: int)
    requires data != [] && !WarmedUp(s, data, now)
    ensures !ShouldBuy(s, data, lastBuy, now) && !ShouldSell(s, data, lastSell, now)
  {
  }

  /** The two checks never agree: a price cannot be both below and above the
      recent mean. */
  lemma BuyAndSellExclusive(s: Settings, data: seq<PriceSample>, lastBuy: Option<TransactionRecord>,
                            lastSell: Option<TransactionRecord>, now: int)
    requires data != []
    ensures !(ShouldBuy(s, data, lastBuy, now) && ShouldSell(s, data, lastSell, now))
  {
  }

  // ----- Ingesting samples -----

  /** Inserts `x` into the oldest-first `t` before every sample not older. */
  function InsertByDate(x: PriceSample, t: seq<PriceSample>): (r: seq<PriceSample>)
    ensures multiset(r) == multiset(t) + multiset{x}
    ensures |r| == |t| + 1
  {
    if t == [] || x.date <= t[0].date then [x] + t
    else
      assert multiset(t) == multiset{t[0]} + multiset(t[1..]) by { assert t == [t[0]] + t[1..]; }
      [t[0]] + InsertByDate(x, t[1..])
  }

  /** Inserting into an oldest-first sequence keeps it oldest first. */
  lemma {:induction false} InsertKeepsOrder(x: PriceSample, t: seq<PriceSample>)
    requires OldestFirst(t)
    ensures OldestFirst(InsertByDate(x, t))
  {
    if t != [] && x.date > t[0].date {
      var rest := InsertByDate(x, t[1..]);
      InsertKeepsOrder(x, t[1..]);
      forall k | 0 <= k < |rest| ensures t[0].date <= rest[k].date {
        assert rest[k] in multiset(rest);
        if rest[k] != x {
          assert rest[k] in multiset(t[1..]);
          var i :| 0 <= i < |t[1..]| && t[1..][i] == rest[k];
          assert t[i + 1] == rest[k];
        }
      }
      assert InsertByDate(x, t) == [t[0]] + rest;
    }
  }

  /** `list.sort(key=date)`: a stable sort, oldest first. */
  function SortByDate(batch: seq<PriceSample>): (r: seq<PriceSample>)
    ensures OldestFirst(r)
    ensures multiset(r) == multiset(batch)
    ensures |r| == |batch|
  {
    if batch == [] then []
    else
      assert batch == [batch[0]] + batch[1..];
      InsertKeepsOrder(batch[0], SortByDate(batch[1..]));
      InsertByDate(batch[0], SortByDate(batch[1..]))
  }

  /** The samples of `s` dated `d`, in their order in `s`. */
  function OfDate(s: seq<PriceSample>, d: int): (r: seq<PriceSample>)
    ensures |r| <= |s|
  {
    if s == [] then []
    else (if s[0].date == d then [s[0]] else []) + OfDate(s[1..], d)
  }

  /** Inserting `x` puts it ahead of every sample of its own date. */
  lemma {:induction false} InsertGoesFirstAmongEqual(x: PriceSample, t: seq<PriceSample>, d: int)
    ensures OfDate(InsertByDate(x, t), d) == (if x.date == d then [x] else []) + OfDate(t, d)
  {
    if t != [] && x.date > t[0].date {
      InsertGoesFirstAmongEqual(x, t[1..], d);
      var r := InsertByDate(x, t);
      assert r == [t[0]] + InsertByDate(x, t[1..]);
      assert r[1..] == InsertByDate(x, t[1..]);
    } else {
      assert ([x] + t)[1..] == t;
    }
  }

  /** The sort is stable: samples of one date keep their order in the batch. */
  lemma {:induction false} SortIsStable(batch: seq<PriceSample>, d: int)
    ensures OfDate(SortByDate(batch), d) == OfDate(batch, d)
  {
    if batch != [] {
      SortIsStable(batch[1..], d);
      InsertGoesFirstAmongEqual(batch[0], SortByDate(batch[1..]), d);
    }
  }

  /** The keys of `list.sort(key=lambda x: getattr(x, name))` on samples as
      their namedtuple declares them: one lookup per sample, the first
      failing lookup raising. `process_data` asks for `name == "date"`. */
  function SortKeysAsWritten(batch: seq<TimestampedSample>, name: string): (r: Result<seq<int>>)
    ensures r.Ok? <==> batch == [] || name == "timestamp"
    ensures r.Ok? ==> |r.value| == |batch| && forall i :: 0 <= i < |batch| ==> r.value[i] == batch[i].timestamp
    ensures r.Err? ==> r.failure == MissingAttribute(name)
  {
    if batch == [] then Ok([])
    else
      match TimeAttributeAsWritten(batch[0], name)
      case Err(f) => Err(f)
      case Ok(k) =>
        match SortKeysAsWritten(batch[1..], name)
        case Err(f) => Err(f)
        case Ok(ks) => Ok([k] + ks)
  }

  /** As written, the trader's first cycle, which hands the algorithm the
      one sample the venue built, raises before the algorithm decides. */
  lemma FirstCycleRaisesAsWritten(p: TimestampedSample)
    ensures SortKeysAsWritten([p], "date") == Err(MissingAttribute("date"))
  {
  }

  /** The window after `process_data(batch)`: the batch newest first, in
      front of the old window, which is kept whole and in its old order. */
  function Ingested(window: seq<PriceSample>, batch: seq<PriceSample>): seq<PriceSample>
  {
    Reverse(SortByDate(batch)) + window
  }

  /** `process_data` grows the window by exactly the batch; the new block is
      the batch itself, newest first, and the old window follows unchanged. */
  lemma IngestedShape(window: seq<PriceSample>, batch: seq<PriceSample>)
    ensures |Ingested(window, batch)| == |window| + |batch|
    ensures Ingested(window, batch)[|batch|..] == window
    ensures NewestFirst(Ingested(window, batch)[..|batch|])
    ensures multiset(Ingested(window, batch)[..|batch|]) == multiset(batch)
  {
    var sorted := SortByDate(batch);
    var block := Reverse(sorted);
    forall i, j | 0 <= i < j < |block| ensures block[i].date >= block[j].date {
      ReverseAt(sorted, i);
      ReverseAt(sorted, j);
    }
    ReverseKeepsMultiset(sorted);
    assert (block + window)[..|batch|] == block;
    assert (block + window)[|batch|..] == window;
  }

  lemma {:induction false} ReverseKeepsMultiset<T>(s: seq<T>)
    ensures multiset(Reverse(s)) == multiset(s)
  {
    if s != [] {
      ReverseKeepsMultiset(s[..|s| - 1]);
      assert s == s[..|s| - 1] + [s[|s| - 1]];
    }
  }

  /** One sample is simply put in front. */
  lemma IngestOne(window: seq<PriceSample>, p: PriceSample)
    ensures Ingested(window, [p]) == [p] + window
  {
    assert SortByDate([p]) == [p];
  }

  // ----- Volumes and trade records -----

  /** A buy is declined when `buyVolume` exceeds the balance. */
  predicate BuyDeclined(s: Settings, balance: real)
  {
    s.buyVolume > balance
  }

  /** A sell is declined when the holdings are worth less than `sellVolume` at this price. */
  predicate SellDeclined(s: Settings, price: PriceSample, holdings: real)
  {
    s.sellVolume > holdings * price.price
  }

  /** `determine_buy_volume`: spend `buyVolume` unless it exceeds the balance,
      in which case decline with 0. */
  function BuyVolume(s: Settings, price: PriceSample, balance: real): (v: real)
    requires price.price != 0.0
    ensures s.buyVolume > balance ==> v == 0.0
    ensures s.buyVolume <= balance ==> v * price.price == s.buyVolume && v * price.price <= balance
  {
    if s.buyVolume > balance then 0.0 else s.buyVolume / price.price
  }

  /** `determine_sell_volume`: sell `sellVolume` worth unless the holdings are
      worth less at this price, in which case decline with 0 (the source
      returns False). At a positive price the volume never exceeds the holdings. */
  function SellVolume(s: Settings, price: PriceSample, holdings: real): (v: real)
    requires price.price != 0.0
    ensures s.sellVolume > holdings * price.price ==> v == 0.0
    ensures s.sellVolume <= holdings * price.price ==> v * price.price == s.sellVolume
    ensures s.sellVolume <= holdings * price.price && price.price > 0.0 ==> v <= holdings
  {
    if s.sellVolume > holdings * price.price then 0.0
    else
      if price.price > 0.0 then QuotientBound(s.sellVolume, holdings, price.price); s.sellVolume / price.price
      else s.sellVolume / price.price
  }

  lemma QuotientBound(a: real, b: real, p: real)
    requires p > 0.0 && a <= b * p
    ensures a / p <= b
  {
    assert a / p == a * (1.0 / p);
    assert b == b * p * (1.0 / p);
    assert 1.0 / p > 0.0;
  }

  /** The record of a buy; the source writes the sample itself into the date
      slot and fixed currencies XBT and JPY. The model keeps the sample's date. */
  function BuyRecord(price: PriceSample, v: real): (r: TransactionRecord)
    ensures r.kind == Buy && Consistent(r) && r.date == price.date
  {
    TransactionRecord(Buy, price.date, "XBT", price.price, v, price.price * v, "JPY")
  }

  /** The record of a sell, dated with the clock at decision time. */
  function SellRecord(price: PriceSample, v: real, now: int): (r: TransactionRecord)
    ensures r.kind == Sell && Consistent(r) && r.date == now
  {
    TransactionRecord(Sell, now, "XBT", price.price, v, price.price * v, "JPY")
  }

  /** After a buy, buying is allowed again once the buy's sample is strictly
      older than the cooldown. */
  lemma CooldownAfterBuy(s: Settings, price: PriceSample, v: real, now: int)
    ensures CooledDown(s, Some(BuyRecord(price, v)), now) <==>
      (price.date as real) + s.minHoursBetweenTrades * (Hour as real) < now as real
  {
  }

  // ----- The buy record's date slot as written -----

  /** What the source's record holds in its date slot. */
  datatype DateSlot = Stamp(date: int) | SampleInSlot(sample: PriceSample)

  /** As written, a buy record's date slot holds the sample. */
  function BuyDateSlotAsWritten(price: PriceSample): DateSlot
  {
    SampleInSlot(price)
  }

  /** `check_far_enough_in_past` as Python evaluates it on such a slot:
      comparing a sample with a datetime raises TypeError. */
  function CooledDownAsWritten(s: Settings, last: Option<DateSlot>, now: int): (r: Result<bool>)
    ensures r.Err? <==> last.Some? && last.value.SampleInSlot?
    ensures last.Some? && last.value.Stamp? ==>
              r == Ok((last.value.date as real) < (now as real) - s.minHoursBetweenTrades * (Hour as real))
  {
    match last
    case None => Ok(true)
    case Some(Stamp(d)) => Ok((d as real) < (now as real) - s.minHoursBetweenTrades * (Hour as real))
    case Some(SampleInSlot(_)) => Err(UnorderableDates)
  }

  /** As written, once a buy is recorded every later buy check that gets past
      the warm-up raises instead of answering. */
  lemma BuyCheckAfterBuyRaisesAsWritten(s: Settings, price: PriceSample, now: int)
    ensures CooledDownAsWritten(s, Some(BuyDateSlotAsWritten(price)), now) == Err(UnorderableDates)
  {
  }

  /** What the algorithm remembers between calls: its newest-first window
      and its last accepted buy and sell. */
  datatype Memory = Memory(data: seq<PriceSample>, lastBuy: Option<TransactionRecord>,
                           lastSell: Option<TransactionRecord>)

  class ErikAlgorithm {
    const settings: Settings
    var data: seq<PriceSample>
    var lastBuy: Option<TransactionRecord>
    var lastSell: Option<TransactionRecord>

    function State(): Memory
      reads this
    {
      Memory(data, lastBuy, lastSell)
    }

    constructor (buyVolume: real, sellVolume: real, sigma: real := 3.0, minSamples: real := 500.0,
                 minDaysOfData: real := 3.0, minHoursBetweenTrades: real := 3.0, recentDays: real := 3.0)
      ensures settings == Settings(buyVolume, sellVolume, sigma, TruncateToInt(minSamples),
                                   minDaysOfData, minHoursBetweenTrades, recentDays)
      ensures data == [] && lastBuy == None && lastSell == None
    {
      settings := Settings(buyVolume, sellVolume, sigma, TruncateToInt(minSamples),
                           minDaysOfData, minHoursBetweenTrades, recentDays);
      data := [];
      lastBuy := None;
      lastSell := None;
    }

    /** `process_data`: sort the batch oldest first, then insert each sample
        at the front of the window. */
    method ProcessData(batch: seq<PriceSample>)
      modifies this`data
      ensures data == Ingested(old(data), batch)
    {
      var sorted := SortByDate(batch);
      PushEach(sorted);
    }

    /** Inserts each of `sorted`, in order, at the front of the window. */
    method PushEach(sorted: seq<PriceSample>)
      modifies this`data
      ensures data == Reverse(sorted) + old(data)
    {
      ghost var window := data;
      var i := 0;
      while i < |sorted|
        invariant 0 <= i <= |sorted|
        invariant data == Reverse(sorted[..i]) + window
      {
        ReversePrefix(sorted, i);
        assert [sorted[i]] + (Reverse(sorted[..i]) + window) == Reverse(sorted[..i + 1]) + window;
        data := [sorted[i]] + data;
        i := i + 1;
      }
      assert sorted[..i] == sorted;
    }

    function CheckShouldBuy(now: int): bool
      reads this
      requires data != []
    {
      ShouldBuy(settings, data, lastBuy, now)
    }

    function CheckShouldSell(now: int): bool
      reads this
      requires data != []
    {
      ShouldSell(settings, data, lastSell, now)
    }

    /** `determine_buy_volume`; `holdings` is not consulted. An accepted buy
        becomes the last buy. */
    method DetermineBuyVolume(price: PriceSample, holdings: real, balance: real) returns (v: real)
      requires price.price != 0.0
      modifies this`lastBuy
      ensures v == BuyVolume(settings, price, balance)
      ensures lastBuy == if BuyDeclined(settings, balance) then old(lastBuy) else Some(BuyRecord(price, v))
    {
      if settings.buyVolume > balance {
        return 0.0;
      }
      v := settings.buyVolume / price.price;
      lastBuy := Some(BuyRecord(price, v));
    }

    /** `determine_sell_volume`; `balance` is not consulted. An accepted sell
        becomes the last sell, dated `now`. */
    method DetermineSellVolume(price: PriceSample, holdings: real, balance: real, now: int) returns (v: real)
      requires price.price != 0.0
      modifies this`lastSell
      ensures v == SellVolume(settings, price, holdings)
      ensures lastSell == if SellDeclined(settings, price, holdings) then old(lastSell)
                          else Some(SellRecord(price, v, now))
    {
      if settings.sellVolume > holdings * price.price {
        return 0.0;
      }
      v := settings.sellVolume / price.price;
      lastSell := Some(SellRecord(price, v, now));
    }
  }
}
