/** An algorithm that only collects samples and never trades. Its
    `past_prices` is a class attribute: one list, created with the class and
    shared by every instance, so each instance appends to the same list. */
module Dummy {
  import opened Samples

  /** The one list object the class body creates. */
  class PastPrices {
    var samples: seq<PriceSample>

    constructor ()
      ensures samples == []
    {
      samples := [];
    }
  }

  class DummyAlgorithm {
    /** The class's list, reached through the instance. */
    const pastPrices: PastPrices

    /** Creating an instance makes no list of its own: it sees the class's
        list with whatever earlier instances appended to it. */
    constructor (classList: PastPrices)
      ensures pastPrices == classList && pastPrices.samples == classList.samples
    {
      pastPrices := classList;
    }

    /** `process_data`: appends every sample of the batch, in order, to the
        shared list. */
    method ProcessData(batch: seq<PriceSample>)
      modifies pastPrices
      ensures pastPrices.samples == old(pastPrices.samples) + batch
    {
      var i := 0;
      while i < |batch|
        invariant 0 <= i <= |batch|
        invariant pastPrices.samples == old(pastPrices.samples) + batch[..i]
      {
        pastPrices.samples := pastPrices.samples + [batch[i]];
        i := i + 1;
        assert batch[..i] == batch[..i - 1] + [batch[i - 1]];
      }
      assert batch[..i] == batch;
    }

    /** `check_should_buy`: never. */
    function CheckShouldBuy(): (r: bool)
      ensures !r
    {
      false
    }

    /** `check_should_sell`: never, so the volume methods are never reached. */
    function CheckShouldSell(): (r: bool)
      ensures !r
    {
      false
    }
  }

  /** A second instance sees what the first collected: the samples live in
      the class, not in the instance. */
  method SharedAcrossInstances(first: PriceSample, second: PriceSample) returns (a: DummyAlgorithm, b: DummyAlgorithm)
    ensures a.pastPrices == b.pastPrices
    ensures b.pastPrices.samples == [first, second]
  {
    var classList := new PastPrices();
    a := new DummyAlgorithm(classList);
    a.ProcessData([first]);
    b := new DummyAlgorithm(classList);
    b.ProcessData([second]);
  }
}
