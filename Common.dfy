/** Values shared by the whole trading engine: optional values, results
    that carry one of the engine's failures, time units and sequence reversal. */
module Common {

  datatype Option<+T> = None | Some(value: T)

  /** The failures the engine raises. Each one stands for a Python exception
      of the source (named beside it). */
  datatype Failure =
    | NonPositiveVolume      // ValueError: buy/sell of zero or fewer shares
    | NotEnoughFunds         // ValueError: the practice account cannot pay
    | NotEnoughShares        // ValueError: the practice account holds too little
    | PriceUnavailable       // RuntimeError / RequestException from the venue
    | NegativeMaxSamples     // ValueError from read_price_history
    | AfterDateNotDatetime   // TypeError from read_price_history
    | MalformedLine(line: string)  // IndexError / ValueError while parsing a log line
    | UnorderableDates       // TypeError: a date compared with a value that is not one
    | NoSamples              // IndexError: the last sample of an empty history
    | MissingAttribute(name: string)  // AttributeError: a field the value does not have
    | TimerAlreadyStarted    // RuntimeError: a threading.Timer started a second time

  datatype Result<+T> = Ok(value: T) | Err(failure: Failure)

  /** Timestamps and durations are whole seconds. */
  const Hour: int := 3600
  const Day: int := 86400

  /** `s` read from its last element to its first. */
  function Reverse<T>(s: seq<T>): (r: seq<T>)
    ensures |r| == |s|
  {
    if s == [] then [] else [s[|s| - 1]] + Reverse(s[..|s| - 1])
  }

  /** Element `i` of the reversal is element `|s| - 1 - i` of `s`. */
  lemma {:induction false} ReverseAt<T>(s: seq<T>, i: nat)
    requires i < |s|
    ensures Reverse(s)[i] == s[|s| - 1 - i]
  {
    if i > 0 {
      ReverseAt(s[..|s| - 1], i - 1);
    }
  }

  /** Reversing a prefix one element longer puts that element in front. */
  lemma ReversePrefix<T>(s: seq<T>, i: nat)
    requires i < |s|
    ensures Reverse(s[..i + 1]) == [s[i]] + Reverse(s[..i])
  {
    assert s[..i + 1][..i] == s[..i];
  }
}
