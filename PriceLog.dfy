/** Loading a price history from a price log. The log is a sequence of lines
    such as `2017-12-11 13:00:46 : XBT USD = 16200.00000`, appended in time
    order; it is read from its last line backwards, so what is loaded comes
    out newest first. The file is given as its sequence of lines, and turning
    the two date tokens into a timestamp is left to a parameter `parseDate`. */
module PriceLog {
  import opened Common
  import opened Samples

  // ----- Splitting on single spaces -----

  /** `s.split(' ')`: the pieces between single spaces. Two spaces in a row
      give an empty piece, and there is always at least one piece. */
  function Split(s: string): (r: seq<string>)
    ensures |r| >= 1
    ensures forall i :: 0 <= i < |r| ==> ' ' !in r[i]
  {
    if s == [] then [""]
    else
      var rest := Split(s[1..]);
      if s[0] == ' ' then [""] + rest
      else [[s[0]] + rest[0]] + rest[1..]
  }

  /** `' '.join(ws)`: the pieces with a single space between neighbours. */
  function Join(ws: seq<string>): string
    requires |ws| >= 1
  {
    if |ws| == 1 then ws[0] else ws[0] + " " + Join(ws[1..])
  }

  /** Joining the pieces of a split gives back the line. */
  lemma {:induction false} JoinSplit(s: string)
    ensures Join(Split(s)) == s
  {
    if s != [] {
      var rest := Split(s[1..]);
      JoinSplit(s[1..]);
      if s[0] == ' ' {
        assert ([""] + rest)[1..] == rest;
      } else {
        var r := [[s[0]] + rest[0]] + rest[1..];
        if |rest| > 1 {
          assert r[1..] == rest[1..];
        }
        assert Join(r) == [s[0]] + Join(rest);
        assert s == [s[0]] + s[1..];
      }
    }
  }

  /** A piece without spaces at the front of a line joins the first piece of the rest. */
  lemma {:induction false} SplitWord(w: string, t: string)
    requires ' ' !in w
    ensures Split(w + t) == [w + Split(t)[0]] + Split(t)[1..]
  {
    if w == [] {
      assert w + t == t;
      assert w + Split(t)[0] == Split(t)[0];
      assert [Split(t)[0]] + Split(t)[1..] == Split(t);
    } else {
      var u := Split(t);
      assert w[0] != ' ' by {
        assert w[0] in w;
      }
      assert (w + t)[1..] == w[1..] + t;
      assert (w + t)[0] == w[0];
      SplitWord(w[1..], t);
      var rest := Split(w[1..] + t);
      assert Split(w + t) == [[w[0]] + rest[0]] + rest[1..];
      assert rest[0] == w[1..] + u[0] && rest[1..] == u[1..];
      assert [w[0]] + (w[1..] + u[0]) == w + u[0];
    }
  }

  /** Splitting pieces joined by single spaces gives back the pieces, as long
      as no piece holds a space. */
  lemma {:induction false} SplitJoin(ws: seq<string>)
    requires |ws| >= 1
    requires forall i :: 0 <= i < |ws| ==> ' ' !in ws[i]
    ensures Split(Join(ws)) == ws
  {
    if |ws| == 1 {
      SplitWord(ws[0], "");
      assert ws[0] + "" == ws[0];
    } else {
      var tail := Join(ws[1..]);
      SplitJoin(ws[1..]);
      assert (" " + tail)[1..] == tail;
      assert Split(" " + tail) == [""] + ws[1..];
      assert ws[0] + " " + tail == ws[0] + (" " + tail);
      SplitWord(ws[0], " " + tail);
      assert ws[0] + "" == ws[0];
      assert ([""] + ws[1..])[1..] == ws[1..];
    }
  }

  // ----- Decimal numbers -----

  predicate IsDigit(c: char)
  {
    '0' <= c <= '9'
  }

  predicate AllDigits(s: string)
  {
    forall i :: 0 <= i < |s| ==> IsDigit(s[i])
  }

  /** The number a string of decimal digits denotes. */
  function DigitsValue(s: string): nat
    requires AllDigits(s)
  {
    if s == [] then 0
    else DigitsValue(s[..|s| - 1]) * 10 + ((s[|s| - 1] as int) - ('0' as int))
  }

  function Pow10(n: nat): (r: nat)
    ensures r >= 1
  {
    if n == 0 then 1 else 10 * Pow10(n - 1)
  }

  /** The position of the first `c` in `s`, or `|s|` when there is none. */
  function FirstIndex(s: string, c: char): (k: nat)
    ensures k <= |s|
    ensures c !in s[..k]
    ensures k < |s| ==> s[k] == c
  {
    if s == [] then 0
    else if s[0] == c then 0
    else
      var k := 1 + FirstIndex(s[1..], c);
      assert s[..k] == [s[0]] + s[1..][..k - 1];
      k
  }

  /** An unsigned decimal: digits with at most one point and at least one digit. */
  function ParseUnsigned(s: string): (r: Option<real>)
    ensures r.Some? ==> r.value >= 0.0
  {
    var k := FirstIndex(s, '.');
    if k == |s| then WholeNumber(s) else PointedNumber(s[..k], s[k + 1..])
  }

  /** Digits without a point. */
  function WholeNumber(s: string): (r: Option<real>)
    ensures r.Some? ==> r.value >= 0.0
  {
    if |s| > 0 && AllDigits(s) then Some(DigitsValue(s) as real) else None
  }

  /** Digits before and after a point, at least one digit in all. */
  function PointedNumber(whole: string, fraction: string): (r: Option<real>)
    ensures r.Some? ==> r.value >= 0.0
  {
    if AllDigits(whole) && AllDigits(fraction) && |whole| + |fraction| > 0 then
      Some(PointValue(whole, fraction))
    else None
  }

  /** The number the digits around a point denote. */
  function PointValue(whole: string, fraction: string): (v: real)
    requires AllDigits(whole) && AllDigits(fraction)
    ensures v >= 0.0
  {
    DigitsValue(whole) as real + DigitsValue(fraction) as real / Pow10(|fraction|) as real
  }

  /** `float(word)` for the plain decimals a price log holds: an optional sign,
      then an unsigned decimal. */
  function ParseDecimal(s: string): (r: Option<real>)
    ensures r.Some? && |s| > 0 && IsDigit(s[0]) ==> r.value >= 0.0
    ensures r.Some? && |s| > 0 && s[0] == '-' ==> r.value <= 0.0
  {
    if |s| > 0 && s[0] == '-' then
      match ParseUnsigned(s[1..])
      case Some(v) => Some(-v)
      case None => None
    else if |s| > 0 && s[0] == '+' then ParseUnsigned(s[1..])
    else ParseUnsigned(s)
  }

  /** The decimal digits of `n`, most significant first, without leading zeros. */
  function Digits(n: nat): (r: string)
    ensures |r| >= 1 && AllDigits(r)
  {
    var last := ['0' + ((n % 10) as char)];
    if n < 10 then last else Digits(n / 10) + last
  }

  /** Reading back the digits of a number gives the number. */
  lemma {:induction false} DigitsRoundTrip(n: nat)
    ensures DigitsValue(Digits(n)) == n
  {
    var d := Digits(n);
    if n >= 10 {
      DigitsRoundTrip(n / 10);
      assert d[..|d| - 1] == Digits(n / 10);
    }
  }

  /** A whole part of digits, a point and a fractional part of digits parse
      to the whole part plus the fraction scaled by its number of digits. */
  lemma PointedDecimal(whole: string, fraction: string)
    requires |whole| > 0 && AllDigits(whole) && AllDigits(fraction)
    ensures ParseDecimal(whole + "." + fraction) == Some(PointValue(whole, fraction))
  {
    var s := whole + "." + fraction;
    PointSplitsDecimal(whole, fraction);
    assert ParseDecimal(s) == ParseUnsigned(s) by {
      assert s[0] == whole[0] && IsDigit(s[0]);
    }
  }

  /** Before the first point of a decimal come its whole digits, after it its fraction. */
  lemma PointSplitsDecimal(whole: string, fraction: string)
    requires AllDigits(whole)
    ensures ParseUnsigned(whole + "." + fraction) == PointedNumber(whole, fraction)
  {
    var s := whole + "." + fraction;
    assert '.' !in whole by {
      assert forall i :: 0 <= i < |whole| ==> IsDigit(whole[i]);
    }
    FirstIndexAfterWord(whole, fraction);
    assert s[..|whole|] == whole && s[|whole| + 1..] == fraction;
  }

  /** A whole number and a fraction, each written as digits around a point,
      parse back to the number they denote. */
  lemma DecimalRoundTrip(whole: nat, fraction: nat)
    ensures ParseDecimal(Digits(whole) + "." + Digits(fraction))
         == Some(whole as real + fraction as real / Pow10(|Digits(fraction)|) as real)
  {
    PointedDecimal(Digits(whole), Digits(fraction));
    assert PointValue(Digits(whole), Digits(fraction))
        == DigitsValue(Digits(whole)) as real + DigitsValue(Digits(fraction)) as real / Pow10(|Digits(fraction)|) as real;
    DigitsRoundTrip(whole);
    DigitsRoundTrip(fraction);
  }

  lemma FirstIndexAfterWord(w: string, f: string)
    requires '.' !in w
    ensures FirstIndex(w + "." + f, '.') == |w|
  {
    var s := w + "." + f;
    assert s[..|w|] == w;
    assert s[|w|] == '.';
  }

  /** Reading a whole number back from its digits. */
  lemma WholeRoundTrip(n: nat)
    ensures ParseDecimal(Digits(n)) == Some(n as real)
  {
    var d := Digits(n);
    assert '.' !in d by {
      assert forall i :: 0 <= i < |d| ==> IsDigit(d[i]);
    }
    assert FirstIndex(d, '.') == |d|;
    DigitsRoundTrip(n);
  }

  // ----- One line of the log -----

  /** `parse_price_sample(line)`: words 0 and 1 form the date, word 3 is the
      currency, word 4 the price currency and word 6 the price. A line with
      too few words, an unparsable date or an unparsable price fails. */
  function ParsePriceSample(line: string, parseDate: string -> Option<int>): (r: Result<PriceSample>)
    ensures r.Err? ==> r.failure == MalformedLine(line)
  {
    var w := Split(line);
    if |w| < 7 then Err(MalformedLine(line))
    else
      match parseDate(w[0] + " " + w[1])
      case None => Err(MalformedLine(line))
      case Some(date) =>
        match ParseDecimal(w[6])
        case None => Err(MalformedLine(line))
        case Some(price) => Ok(PriceSample(price, date, w[3], w[4]))
  }

  /** A line parses exactly when it has at least seven words, its first two
      words read as a date and its seventh word reads as a number; the sample
      then takes its currencies from the fourth and fifth words. */
  lemma ParsePriceSampleAccepts(line: string, parseDate: string -> Option<int>)
    ensures var w := Split(line);
            ParsePriceSample(line, parseDate).Ok? <==>
              |w| >= 7 && parseDate(w[0] + " " + w[1]).Some? && ParseDecimal(w[6]).Some?
    ensures var w := Split(line);
            ParsePriceSample(line, parseDate).Ok? ==>
              ParsePriceSample(line, parseDate).value
                == PriceSample(ParseDecimal(w[6]).value, parseDate(w[0] + " " + w[1]).value, w[3], w[4])
  {
  }

  /** The line the price logger writes for a sample. */
  function LogLine(day: string, time: string, currency: string, priceCurrency: string, price: string): string
  {
    day + " " + time + " : " + currency + " " + priceCurrency + " = " + price
  }

  /** Parsing a logged line recovers the sample's fields: the date from the
      two date tokens, the two currencies and the price. */
  lemma LogLineRoundTrip(day: string, time: string, currency: string, priceCurrency: string,
                         price: string, parseDate: string -> Option<int>)
    requires ' ' !in day && ' ' !in time && ' ' !in currency && ' ' !in priceCurrency && ' ' !in price
    requires parseDate(day + " " + time).Some? && ParseDecimal(price).Some?
    ensures ParsePriceSample(LogLine(day, time, currency, priceCurrency, price), parseDate)
         == Ok(PriceSample(ParseDecimal(price).value, parseDate(day + " " + time).value, currency, priceCurrency))
  {
    LogLineWords(day, time, currency, priceCurrency, price);
  }

  /** The words of a logged line are its seven tokens. */
  lemma LogLineWords(day: string, time: string, currency: string, priceCurrency: string, price: string)
    requires ' ' !in day && ' ' !in time && ' ' !in currency && ' ' !in priceCurrency && ' ' !in price
    ensures Split(LogLine(day, time, currency, priceCurrency, price)) == [day, time, ":", currency, priceCurrency, "=", price]
  {
    var ws := [day, time, ":", currency, priceCurrency, "=", price];
    assert Join(ws[6..]) == price;
    assert Join(ws[5..]) == "=" + " " + price;
    assert Join(ws[4..]) == priceCurrency + " " + ("=" + " " + price);
    assert Join(ws[3..]) == currency + " " + (priceCurrency + " " + ("=" + " " + price));
    assert Join(ws[2..]) == ":" + " " + (currency + " " + (priceCurrency + " " + ("=" + " " + price)));
    assert Join(ws[1..]) == time + " " + (":" + " " + (currency + " " + (priceCurrency + " " + ("=" + " " + price))));
    assert Join(ws) == LogLine(day, time, currency, priceCurrency, price);
    SplitJoin(ws);
  }

  /** The log's own example line reads as 16200 XBT priced in USD, dated by
      its first two tokens. */
  lemma ExampleLine(parseDate: string -> Option<int>, date: int)
    requires parseDate("2017-12-11 13:00:46") == Some(date)
    ensures ParsePriceSample("2017-12-11 13:00:46 : XBT USD = 16200.00000", parseDate)
         == Ok(PriceSample(16200.0, date, "XBT", "USD"))
  {
    ExampleIsLogLine();
    ExamplePrice();
    LogLineRoundTrip("2017-12-11", "13:00:46", "XBT", "USD", "16200.00000", parseDate);
  }

  /** The example line is the logged line of its tokens, none of which holds a space. */
  lemma ExampleIsLogLine()
    ensures LogLine("2017-12-11", "13:00:46", "XBT", "USD", "16200.00000")
         == "2017-12-11 13:00:46 : XBT USD = 16200.00000"
    ensures "2017-12-11" + " " + "13:00:46" == "2017-12-11 13:00:46"
    ensures ' ' !in "2017-12-11" && ' ' !in "13:00:46" && ' ' !in "XBT" && ' ' !in "USD" && ' ' !in "16200.00000"
  {
  }

  /** The price word of the example line reads as 16200. */
  lemma ExamplePrice()
    ensures ParseDecimal("16200.00000") == Some(16200.0)
  {
    ExampleWhole();
    ExampleFraction();
    PointedDecimal("16200", "00000");
    assert "16200" + "." + "00000" == "16200.00000";
    ExamplePointValue();
  }

  lemma ExamplePointValue()
    requires AllDigits("16200") && DigitsValue("16200") == 16200
    requires AllDigits("00000") && DigitsValue("00000") == 0
    ensures PointValue("16200", "00000") == 16200.0
  {
    var scale := Pow10(|"00000"|) as real;
    assert 0 as real / scale == 0.0;
  }

  lemma ExampleWhole()
    ensures AllDigits("16200") && DigitsValue("16200") == 16200
  {
    assert "16"[..1] == "1" && "162"[..2] == "16" && "1620"[..3] == "162" && "16200"[..4] == "1620";
    assert DigitsValue("1") == 1;
    assert DigitsValue("16") == 16;
    assert DigitsValue("162") == 162;
    assert DigitsValue("1620") == 1620;
  }

  lemma ExampleFraction()
    ensures AllDigits("00000") && DigitsValue("00000") == 0
  {
    assert "00"[..1] == "0" && "000"[..2] == "00" && "0000"[..3] == "000" && "00000"[..4] == "0000";
    assert DigitsValue("0") == 0;
    assert DigitsValue("00") == 0;
    assert DigitsValue("000") == 0;
    assert DigitsValue("0000") == 0;
  }

  // ----- Reading the history backwards -----

  /** The `after_date` argument: absent, a date, or a value that is not a date. */
  datatype AfterDate = NoAfterDate | AfterDate(date: int) | NotADate

  /** The reading loop from the last line of `lines` backwards, `acc` holding
      what was read so far: a line that does not parse fails the read; a
      sample dated strictly before `after` ends it without being kept; a kept
      sample that brings the count to `maxSamples` ends it. */
  function ReadBack(lines: seq<string>, parseDate: string -> Option<int>, after: Option<int>,
                    maxSamples: Option<int>, acc: seq<PriceSample>): Result<seq<PriceSample>>
    decreases |lines|
  {
    if lines == [] then Ok(acc)
    else
      match ParsePriceSample(lines[|lines| - 1], parseDate)
      case Err(e) => Err(e)
      case Ok(sample) =>
        if after.Some? && sample.date < after.value then Ok(acc)
        else if maxSamples.Some? && |acc| + 1 >= maxSamples.value then Ok(acc + [sample])
        else ReadBack(lines[..|lines| - 1], parseDate, after, maxSamples, acc + [sample])
  }

  /** `read_price_history(log_file, after_date, max_samples)`: a negative
      maximum is refused, then an `after_date` that is not a date; then the
      lines are read from the end. */
  function PriceHistory(lines: seq<string>, parseDate: string -> Option<int>, after: AfterDate,
                        maxSamples: Option<int>): Result<seq<PriceSample>>
  {
    if maxSamples.Some? && maxSamples.value < 0 then Err(NegativeMaxSamples)
    else if after.NotADate? then Err(AfterDateNotDatetime)
    else ReadBack(lines, parseDate, if after.AfterDate? then Some(after.date) else None, maxSamples, [])
  }

  /** The reading loop, line by line from the end of the log. */
  method ReadPriceHistory(lines: seq<string>, parseDate: string -> Option<int>, after: AfterDate,
                          maxSamples: Option<int>) returns (r: Result<seq<PriceSample>>)
    ensures r == PriceHistory(lines, parseDate, after, maxSamples)
  {
    if maxSamples.Some? && maxSamples.value < 0 {
      return Err(NegativeMaxSamples);
    }
    if after.NotADate? {
      return Err(AfterDateNotDatetime);
    }
    var bound := if after.AfterDate? then Some(after.date) else None;
    var samples: seq<PriceSample> := [];
    var i := |lines|;
    assert lines[..i] == lines;
    while i > 0
      invariant 0 <= i <= |lines|
      invariant ReadBack(lines[..i], parseDate, bound, maxSamples, samples)
             == ReadBack(lines, parseDate, bound, maxSamples, [])
    {
      assert lines[..i][..i - 1] == lines[..i - 1];
      var sample := ParsePriceSample(lines[i - 1], parseDate);
      if sample.Err? {
        return Err(sample.failure);
      }
      if bound.Some? && sample.value.date < bound.value {
        return Ok(samples);
      }
      samples := samples + [sample.value];
      if maxSamples.Some? && |samples| >= maxSamples.value {
        return Ok(samples);
      }
      i := i - 1;
    }
    return Ok(samples);
  }

  function Max(a: int, b: int): int
  {
    if a >= b then a else b
  }

  /** The backwards read keeps `acc` in front and adds one sample per line at most. */
  lemma {:induction false} ReadBackPrefix(lines: seq<string>, parseDate: string -> Option<int>, after: Option<int>,
                                          maxSamples: Option<int>, acc: seq<PriceSample>, r: seq<PriceSample>)
    requires ReadBack(lines, parseDate, after, maxSamples, acc) == Ok(r)
    ensures |acc| <= |r| <= |acc| + |lines| && r[..|acc|] == acc
    decreases |lines|
  {
    if lines != [] {
      var sample := ParsePriceSample(lines[|lines| - 1], parseDate).value;
      if after.Some? && sample.date < after.value {
        assert r == acc;
      } else if maxSamples.Some? && |acc| + 1 >= maxSamples.value {
        assert r == acc + [sample];
        assert r[..|acc|] == acc;
      } else {
        var acc' := acc + [sample];
        ReadBackPrefix(lines[..|lines| - 1], parseDate, after, maxSamples, acc', r);
        assert r[..|acc'|][..|acc|] == acc;
      }
    }
  }

  /** What the backwards read adds to `acc`: the parsed lines taken from the
      end of the log. */
  lemma {:induction false} ReadBackShape(lines: seq<string>, parseDate: string -> Option<int>, after: Option<int>,
                                         maxSamples: Option<int>, acc: seq<PriceSample>, r: seq<PriceSample>)
    requires ReadBack(lines, parseDate, after, maxSamples, acc) == Ok(r)
    ensures |acc| <= |r| <= |acc| + |lines| && r[..|acc|] == acc
    ensures forall j :: |acc| <= j < |r| ==> ParsePriceSample(lines[|lines| - 1 - (j - |acc|)], parseDate) == Ok(r[j])
    decreases |lines|
  {
    ReadBackPrefix(lines, parseDate, after, maxSamples, acc, r);
    if lines != [] {
      var parsed := ParsePriceSample(lines[|lines| - 1], parseDate);
      var sample := parsed.value;
      if after.Some? && sample.date < after.value {
      } else if maxSamples.Some? && |acc| + 1 >= maxSamples.value {
        assert r == acc + [sample];
      } else {
        var acc' := acc + [sample];
        var lines' := lines[..|lines| - 1];
        ReadBackShape(lines', parseDate, after, maxSamples, acc', r);
        assert r[|acc|] == r[..|acc'|][|acc|] == sample;
        forall j | |acc| <= j < |r|
          ensures ParsePriceSample(lines[|lines| - 1 - (j - |acc|)], parseDate) == Ok(r[j])
        {
          if j > |acc| {
            assert lines'[|lines'| - 1 - (j - |acc'|)] == lines[|lines| - 1 - (j - |acc|)];
          }
        }
      }
    }
  }

  /** Each sample the backwards read adds is dated no earlier than `after`,
      and it adds no more than the maximum (one, when `acc` already reached it). */
  lemma {:induction false} ReadBackLimits(lines: seq<string>, parseDate: string -> Option<int>, after: Option<int>,
                                          maxSamples: Option<int>, acc: seq<PriceSample>, r: seq<PriceSample>)
    requires ReadBack(lines, parseDate, after, maxSamples, acc) == Ok(r)
    ensures after.Some? ==> forall j :: |acc| <= j < |r| ==> r[j].date >= after.value
    ensures maxSamples.Some? ==> |r| <= Max(maxSamples.value, |acc| + 1)
    decreases |lines|
  {
    if lines != [] {
      var sample := ParsePriceSample(lines[|lines| - 1], parseDate).value;
      if after.Some? && sample.date < after.value {
        assert r == acc;
      } else if maxSamples.Some? && |acc| + 1 >= maxSamples.value {
        assert r == acc + [sample];
      } else {
        var acc' := acc + [sample];
        ReadBackLimits(lines[..|lines| - 1], parseDate, after, maxSamples, acc', r);
        ReadBackShape(lines[..|lines| - 1], parseDate, after, maxSamples, acc', r);
        assert r[..|acc'|][|acc|] == sample;
      }
    }
  }

  /** A backwards read that leaves lines unread stopped for a reason: the
      maximum was met, or the next line holds a sample dated before `after`. */
  lemma {:induction false} ReadBackStop(lines: seq<string>, parseDate: string -> Option<int>, after: Option<int>,
                                        maxSamples: Option<int>, acc: seq<PriceSample>, r: seq<PriceSample>)
    requires ReadBack(lines, parseDate, after, maxSamples, acc) == Ok(r)
    requires |acc| <= |r| < |acc| + |lines|
    ensures || (maxSamples.Some? && |r| >= maxSamples.value)
            || (after.Some? && ParsePriceSample(lines[|lines| - 1 - (|r| - |acc|)], parseDate).Ok?
                && ParsePriceSample(lines[|lines| - 1 - (|r| - |acc|)], parseDate).value.date < after.value)
    decreases |lines|
  {
    var sample := ParsePriceSample(lines[|lines| - 1], parseDate).value;
    if after.Some? && sample.date < after.value {
      assert r == acc;
    } else if maxSamples.Some? && |acc| + 1 >= maxSamples.value {
      assert r == acc + [sample];
    } else {
      var acc' := acc + [sample];
      var lines' := lines[..|lines| - 1];
      ReadBackShape(lines', parseDate, after, maxSamples, acc', r);
      ReadBackStop(lines', parseDate, after, maxSamples, acc', r);
      assert lines'[|lines'| - 1 - (|r| - |acc'|)] == lines[|lines| - 1 - (|r| - |acc|)];
    }
  }

  /** A read that fails, fails on a line that does not parse: the only
      failures past the argument checks are malformed lines. */
  lemma {:induction false} ReadBackFailsOnlyOnLines(lines: seq<string>, parseDate: string -> Option<int>,
                                                    after: Option<int>, maxSamples: Option<int>, acc: seq<PriceSample>)
    requires ReadBack(lines, parseDate, after, maxSamples, acc).Err?
    ensures exists i :: 0 <= i < |lines| && ParsePriceSample(lines[i], parseDate).Err?
              && ReadBack(lines, parseDate, after, maxSamples, acc).failure == MalformedLine(lines[i])
    decreases |lines|
  {
    var n := |lines|;
    if ParsePriceSample(lines[n - 1], parseDate).Ok? {
      var sample := ParsePriceSample(lines[n - 1], parseDate).value;
      ReadBackFailsOnlyOnLines(lines[..n - 1], parseDate, after, maxSamples, acc + [sample]);
      var i :| 0 <= i < n - 1 && ParsePriceSample(lines[..n - 1][i], parseDate).Err?
             && ReadBack(lines[..n - 1], parseDate, after, maxSamples, acc + [sample]).failure == MalformedLine(lines[..n - 1][i]);
      assert lines[..n - 1][i] == lines[i];
    } else {
      assert ReadBack(lines, parseDate, after, maxSamples, acc).failure == MalformedLine(lines[n - 1]);
    }
  }

  /** Every line parses, so the backwards read does not fail. */
  lemma {:induction false} ReadBackSucceeds(lines: seq<string>, parseDate: string -> Option<int>,
                                            after: Option<int>, maxSamples: Option<int>, acc: seq<PriceSample>)
    requires forall i :: 0 <= i < |lines| ==> ParsePriceSample(lines[i], parseDate).Ok?
    ensures ReadBack(lines, parseDate, after, maxSamples, acc).Ok?
    decreases |lines|
  {
    if lines != [] {
      var n := |lines|;
      var sample := ParsePriceSample(lines[n - 1], parseDate).value;
      ReadBackSucceeds(lines[..n - 1], parseDate, after, maxSamples, acc + [sample]);
    }
  }

  /** The argument checks of `read_price_history`: a negative maximum is
      refused first, an `after_date` that is not a date next, and any other
      failure is a line of the log that does not parse. */
  lemma HistoryFailures(lines: seq<string>, parseDate: string -> Option<int>, after: AfterDate, maxSamples: Option<int>)
    ensures maxSamples.Some? && maxSamples.value < 0 ==> PriceHistory(lines, parseDate, after, maxSamples) == Err(NegativeMaxSamples)
    ensures (maxSamples.None? || maxSamples.value >= 0) && after.NotADate? ==>
              PriceHistory(lines, parseDate, after, maxSamples) == Err(AfterDateNotDatetime)
    ensures (maxSamples.None? || maxSamples.value >= 0) && !after.NotADate? &&
            PriceHistory(lines, parseDate, after, maxSamples).Err? ==>
              exists i :: (0 <= i < |lines| && ParsePriceSample(lines[i], parseDate).Err?
                           && PriceHistory(lines, parseDate, after, maxSamples).failure == MalformedLine(lines[i]))
    ensures (maxSamples.None? || maxSamples.value >= 0) && !after.NotADate? &&
            (forall i :: 0 <= i < |lines| ==> ParsePriceSample(lines[i], parseDate).Ok?) ==>
              PriceHistory(lines, parseDate, after, maxSamples).Ok?
  {
    if (maxSamples.None? || maxSamples.value >= 0) && !after.NotADate? {
      var bound := if after.AfterDate? then Some(after.date) else None;
      if PriceHistory(lines, parseDate, after, maxSamples).Err? {
        ReadBackFailsOnlyOnLines(lines, parseDate, bound, maxSamples, []);
      }
      if forall i :: 0 <= i < |lines| ==> ParsePriceSample(lines[i], parseDate).Ok? {
        ReadBackSucceeds(lines, parseDate, bound, maxSamples, []);
      }
    }
  }

  /** What a successful read returns: the parsed lines from the last one
      backwards, one sample per line at most. */
  lemma HistoryContents(lines: seq<string>, parseDate: string -> Option<int>, after: AfterDate,
                        maxSamples: Option<int>, r: seq<PriceSample>)
    requires PriceHistory(lines, parseDate, after, maxSamples) == Ok(r)
    ensures |r| <= |lines|
    ensures forall j :: 0 <= j < |r| ==> ParsePriceSample(lines[|lines| - 1 - j], parseDate) == Ok(r[j])
  {
    var bound := if after.AfterDate? then Some(after.date) else None;
    var none: seq<PriceSample> := [];
    assert ReadBack(lines, parseDate, bound, maxSamples, none) == Ok(r);
    ReadBackShape(lines, parseDate, bound, maxSamples, none, r);
    forall j | 0 <= j < |r| ensures ParsePriceSample(lines[|lines| - 1 - j], parseDate) == Ok(r[j]) {
      assert j - |none| == j;
    }
  }

  /** The limits of a successful read: no sample dated before `after_date`,
      and at most `max_samples` of them (one when the maximum is 0). */
  lemma HistoryLimits(lines: seq<string>, parseDate: string -> Option<int>, after: AfterDate,
                      maxSamples: Option<int>, r: seq<PriceSample>)
    requires PriceHistory(lines, parseDate, after, maxSamples) == Ok(r)
    ensures after.AfterDate? ==> forall j :: 0 <= j < |r| ==> r[j].date >= after.date
    ensures maxSamples.Some? ==> |r| <= Max(maxSamples.value, 1)
  {
    var bound := if after.AfterDate? then Some(after.date) else None;
    assert ReadBack(lines, parseDate, bound, maxSamples, []) == Ok(r);
    ReadBackLimits(lines, parseDate, bound, maxSamples, [], r);
  }

  /** A successful read that stops before the first line of the log stops at
      the maximum or at a sample dated before `after_date`. */
  lemma HistoryStop(lines: seq<string>, parseDate: string -> Option<int>, after: AfterDate,
                    maxSamples: Option<int>, r: seq<PriceSample>)
    requires PriceHistory(lines, parseDate, after, maxSamples) == Ok(r)
    requires |r| < |lines|
    ensures || (maxSamples.Some? && |r| >= maxSamples.value)
            || (after.AfterDate? && ParsePriceSample(lines[|lines| - 1 - |r|], parseDate).Ok?
                && ParsePriceSample(lines[|lines| - 1 - |r|], parseDate).value.date < after.date)
  {
    var bound := if after.AfterDate? then Some(after.date) else None;
    assert ReadBack(lines, parseDate, bound, maxSamples, []) == Ok(r);
    ReadBackStop(lines, parseDate, bound, maxSamples, [], r);
  }

  /** The log holds its samples oldest first. */
  predicate Chronological(lines: seq<string>, parseDate: string -> Option<int>)
  {
    forall i, j :: 0 <= i < j < |lines| && ParsePriceSample(lines[i], parseDate).Ok? && ParsePriceSample(lines[j], parseDate).Ok?
      ==> ParsePriceSample(lines[i], parseDate).value.date <= ParsePriceSample(lines[j], parseDate).value.date
  }

  /** Without limits every line is read, and a log kept in time order loads
      newest first. */
  lemma ReadAllWithoutLimits(lines: seq<string>, parseDate: string -> Option<int>)
    requires forall i :: 0 <= i < |lines| ==> ParsePriceSample(lines[i], parseDate).Ok?
    ensures PriceHistory(lines, parseDate, NoAfterDate, None).Ok?
    ensures |PriceHistory(lines, parseDate, NoAfterDate, None).value| == |lines|
    ensures Chronological(lines, parseDate) ==> NewestFirst(PriceHistory(lines, parseDate, NoAfterDate, None).value)
  {
    HistoryFailures(lines, parseDate, NoAfterDate, None);
    var r := PriceHistory(lines, parseDate, NoAfterDate, None).value;
    HistoryContents(lines, parseDate, NoAfterDate, None, r);
    if |r| < |lines| {
      HistoryStop(lines, parseDate, NoAfterDate, None, r);
    }
    if Chronological(lines, parseDate) {
      forall i, j | 0 <= i < j < |r|
        ensures r[i].date >= r[j].date
      {
        assert ParsePriceSample(lines[|lines| - 1 - i], parseDate) == Ok(r[i]);
        assert ParsePriceSample(lines[|lines| - 1 - j], parseDate) == Ok(r[j]);
      }
    }
  }

  /** `read_days_of_price_history(log_file, days, starting_from)`: the history
      back to `days` days before `starting_from`. */
  method ReadDaysOfPriceHistory(lines: seq<string>, parseDate: string -> Option<int>, days: int, startingFrom: int)
    returns (r: Result<seq<PriceSample>>)
    ensures r == PriceHistory(lines, parseDate, AfterDate(startingFrom - days * Day), None)
    ensures r.Err? ==> exists i :: 0 <= i < |lines| && ParsePriceSample(lines[i], parseDate).Err?
    ensures r.Ok? ==> forall j :: 0 <= j < |r.value| ==> r.value[j].date >= startingFrom - days * Day
  {
    r := ReadPriceHistory(lines, parseDate, AfterDate(startingFrom - days * Day), None);
    HistoryFailures(lines, parseDate, AfterDate(startingFrom - days * Day), None);
    if r.Ok? {
      HistoryLimits(lines, parseDate, AfterDate(startingFrom - days * Day), None, r.value);
    }
  }
}
