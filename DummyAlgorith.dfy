/** The older copy of the never-trading algorithm (class `DummyAlgorith`).
    Its `past_prices` is likewise one class-level list shared by every
    instance. */
module LegacyDummy {
  import opened Samples

  /** The one list object the class body creates. */
  class PastPrices {
    var samples: seq<PriceSample>

    constructor ()
      ensures samples == []
    {
      samples := [];
    }
  }

  class DummyAlgorith {
    /** The class's list, reached through the instance. */
    const pastPrices: PastPrices

    /** A new instance sees the class's list as earlier instances left it. */
    constructor (classList: PastPrices)
      ensures pastPrices == classList && pastPrices.samples == classList.samples
    {
      pastPrices := classList;
    }

    /** `process_data`: appends the batch in order to the shared list and
        drops nothing. */
    method ProcessData(batch: seq<PriceSample>)
      modifies pastPrices
      ensures pastPrices.samples == old(pastPrices.samples) + batch
    {
      for i := 0 to |batch|
        invariant pastPrices.samples == old(pastPrices.samples) + batch[..i]
      {
        assert batch[..i + 1] == batch[..i] + [batch[i]];
        pastPrices.samples := pastPrices.samples + [batch[i]];
      }
      assert batch[..|batch|] == batch;
    }

    /** `check_should_buy`: never. */
    function CheckShouldBuy(): (r: bool)
      ensures !r
    {
      false
    }

    /** `check_should_sell`: never. */
    function CheckShouldSell(): (r: bool)
      ensures !r
    {
      false
    }
  }

  /** Samples given to one instance are seen by every other instance. */
  method SharedAcrossInstances(samples: seq<PriceSample>) returns (a: DummyAlgorith, b: DummyAlgorith)
    ensures a != b && a.pastPrices == b.pastPrices
    ensures b.pastPrices.samples == samples
  {
    var classList := new PastPrices();
    a := new DummyAlgorith(classList);
    b := new DummyAlgorith(classList);
    a.ProcessData(samples);
  }
}
