/** One observed price of an asset, an immutable value. */
module Samples {
  import opened Common

  /** `price` is in units of `priceCurrency`; `date` is in seconds.
      A "changed" sample is always a newly constructed value. */
  datatype PriceSample = PriceSample(price: real, date: int, currency: string, priceCurrency: string)

  /** Every sample of `s` has a non-zero price (a zero price makes the
      algorithm's volume computation divide by zero). */
  predicate NonZeroPrices(s: seq<PriceSample>)
  {
    forall i :: 0 <= i < |s| ==> s[i].price != 0.0
  }

  /** Dates never increase along `s`: the most recent sample comes first. */
  predicate NewestFirst(s: seq<PriceSample>)
  {
    forall i, j :: 0 <= i < j < |s| ==> s[i].date >= s[j].date
  }

  /** Dates never decrease along `s`: the oldest sample comes first. */
  predicate OldestFirst(s: seq<PriceSample>)
  {
    forall i, j :: 0 <= i < j < |s| ==> s[i].date <= s[j].date
  }

  // ----- The namedtuple as declared -----

  /** The sample as bitbaibai/PriceSample.py declares it: its second field
      is named `timestamp`, while every reader of a sample asks for `date`. */
  datatype TimestampedSample = TimestampedSample(price: real, timestamp: int, currency: string, priceCurrency: string)

  /** The names of the namedtuple's fields, in order. */
  const FieldsAsWritten: seq<string> := ["price", "timestamp", "currency", "price_currency"]

  /** `getattr(sample, name)` for the sample's time: found only under the
      declared name; any other name raises AttributeError. */
  function TimeAttributeAsWritten(s: TimestampedSample, name: string): (r: Result<int>)
    ensures r.Ok? <==> name == FieldsAsWritten[1]
    ensures r.Ok? ==> r.value == s.timestamp
    ensures r.Err? ==> r.failure == MissingAttribute(name)
  {
    if name == "timestamp" then Ok(s.timestamp) else Err(MissingAttribute(name))
  }

  /** As declared, no sample answers `.date`. */
  lemma NoDateAsWritten(s: TimestampedSample)
    ensures "date" !in FieldsAsWritten
    ensures TimeAttributeAsWritten(s, "date") == Err(MissingAttribute("date"))
  {
  }
}
