/** The price provider: the synthetic day-ahead (DA) curve, the synthetic
    real-time (RT) curve derived from it, the acceptance test for an
    externally fetched DA series, and the hour-to-price lookup built from a
    series. Random draws are injected as `noise` sequences, one draw per
    entry, in the order the generator consumes them. */
module Prices {
  import opened MarketTypes

  datatype PricePoint = PricePoint(hour: int, price: real)

  datatype Source = Synthetic | External

  const DA_BASE: real := 45.0
  const DA_PEAK_ADD: real := 30.0
  const DA_NOISE_AMP: real := 3.0
  const DA_FLOOR: real := 5.0
  const RT_NOISE_AMP: real := 7.0
  const RT_FLOOR: real := 0.0

  function Max(a: real, b: real): real
  {
    if a >= b then a else b
  }

  /** Every draw lies in [-amp, amp], as the uniform generator guarantees. */
  predicate NoiseWithin(noise: seq<real>, amp: real)
  {
    forall i :: 0 <= i < |noise| ==> -amp <= noise[i] <= amp
  }

  // ---------- Synthetic day-ahead curve ----------

  /** The morning product (h - 6) * (12 - h) is 9 - (h - 9)^2: positive exactly for 7..11, at most 9. */
  lemma MorningProduct(h: int)
    ensures (h - 6) * (12 - h) <= 9
    ensures (h - 6) * (12 - h) > 0 <==> 6 < h < 12
  {
    assert (h - 6) * (12 - h) == 9 - (h - 9) * (h - 9);
    if h <= 6 {
      assert (6 - h) * (12 - h) >= 0;
    } else if 12 <= h {
      assert (h - 6) * (h - 12) >= 0;
    }
  }

  /** The evening product (h - 14) * (22 - h) is 16 - (h - 18)^2: positive
      exactly for 15..21, at most 16, and 16 only at hour 18. */
  lemma EveningProduct(h: int)
    ensures (h - 14) * (22 - h) <= 16
    ensures (h - 14) * (22 - h) > 0 <==> 14 < h < 22
    ensures (h - 14) * (22 - h) == 16 <==> h == 18
  {
    assert (h - 14) * (22 - h) == 16 - (h - 18) * (h - 18);
    if h <= 14 {
      assert (14 - h) * (22 - h) >= 0;
    } else if 22 <= h {
      assert (h - 14) * (h - 22) >= 0;
    }
    if h != 18 {
      assert (h - 18) * (h - 18) >= 1;
    }
  }

  /** The morning hump: positive exactly for hours 7..11, at most 0.5 (reached at hour 9). */
  function MorningFactor(h: int): (f: real)
    ensures 0.0 <= f <= 0.5
    ensures f > 0.0 <==> 6 < h < 12
  {
    MorningProduct(h);
    Max(0.0, ((h - 6) * (12 - h)) as real) / 18.0
  }

  /** The evening hump: positive exactly for hours 15..21, at most 1, and 1 only at hour 18. */
  function EveningFactor(h: int): (f: real)
    ensures 0.0 <= f <= 1.0
    ensures f > 0.0 <==> 14 < h < 22
    ensures f == 1.0 <==> h == 18
  {
    EveningProduct(h);
    Max(0.0, ((h - 14) * (22 - h)) as real) / 16.0
  }

  /** The load shape lies in [0, 1]; it vanishes exactly off-peak (up to 06:00,
      12:00 to 14:00, from 22:00) and reaches 1 only at hour 18. */
  function Shape(h: int): (s: real)
    ensures 0.0 <= s <= 1.0
    ensures s == 0.0 <==> h <= 6 || 12 <= h <= 14 || 22 <= h
    ensures s == 1.0 <==> h == 18
  {
    MorningFactor(h) + EveningFactor(h)
  }

  /** The DA price for hour `h` given the draw `noise`, floored at 5. */
  function DaPrice(h: int, noise: real): (p: real)
    ensures p >= DA_FLOOR
  {
    Max(DA_FLOOR, DA_BASE + DA_PEAK_ADD * Shape(h) + noise)
  }

  /** Under bounded noise the floor never engages: the price is the curve plus
      the draw, between 42 and 78. */
  lemma DaPriceUnclamped(h: int, noise: real)
    requires -DA_NOISE_AMP <= noise <= DA_NOISE_AMP
    ensures DaPrice(h, noise) == DA_BASE + DA_PEAK_ADD * Shape(h) + noise
    ensures 42.0 <= DaPrice(h, noise) <= 78.0
  {
  }

  /** The synthetic DA series: 24 entries, hours 0..23 in order, each at least 5. */
  function SyntheticDa(noise: seq<real>): (s: seq<PricePoint>)
    requires |noise| == HOURS_PER_DAY
    ensures |s| == HOURS_PER_DAY
    ensures forall h :: 0 <= h < HOURS_PER_DAY ==> s[h].hour == h && s[h].price >= DA_FLOOR
  {
    seq(HOURS_PER_DAY, h requires 0 <= h < HOURS_PER_DAY => PricePoint(h, DaPrice(h, noise[h])))
  }

  method GenerateDayAhead(noise: seq<real>) returns (prices: seq<PricePoint>)
    requires |noise| == HOURS_PER_DAY
    ensures prices == SyntheticDa(noise)
  {
    prices := [];
    var h := 0;
    while h < HOURS_PER_DAY
      invariant 0 <= h <= HOURS_PER_DAY
      invariant |prices| == h
      invariant forall k :: 0 <= k < h ==> prices[k] == PricePoint(k, DaPrice(k, noise[k]))
    {
      var shape := MorningFactor(h) + EveningFactor(h);
      var price := DA_BASE + DA_PEAK_ADD * shape + noise[h];
      prices := prices + [PricePoint(h, Max(DA_FLOOR, price))];
      h := h + 1;
    }
  }

  // ---------- Synthetic real-time curve ----------

  /** The RT price derived from a DA price and the draw `noise`, floored at 0. */
  function RtPrice(daPrice: real, noise: real): (p: real)
    ensures p >= RT_FLOOR
  {
    Max(RT_FLOOR, daPrice + noise)
  }

  /** The synthetic RT series: one entry per DA entry, same hour, same order, each at least 0. */
  function SyntheticRt(da: seq<PricePoint>, noise: seq<real>): (s: seq<PricePoint>)
    requires |noise| == |da|
    ensures |s| == |da|
    ensures forall i :: 0 <= i < |da| ==> s[i].hour == da[i].hour && s[i].price >= RT_FLOOR
  {
    seq(|da|, i requires 0 <= i < |da| => PricePoint(da[i].hour, RtPrice(da[i].price, noise[i])))
  }

  method GenerateRealTime(da: seq<PricePoint>, noise: seq<real>) returns (prices: seq<PricePoint>)
    requires |noise| == |da|
    ensures prices == SyntheticRt(da, noise)
  {
    prices := [];
    var i := 0;
    while i < |da|
      invariant 0 <= i <= |da|
      invariant |prices| == i
      invariant forall k :: 0 <= k < i ==> prices[k] == PricePoint(da[k].hour, RtPrice(da[k].price, noise[k]))
    {
      var item := da[i];
      var rt := item.price + noise[i];
      prices := prices + [PricePoint(item.hour, Max(RT_FLOOR, rt))];
      i := i + 1;
    }
  }

  /** With both generators' draws in range, the RT price at every hour is the
      DA price plus the RT draw (the 0 floor never engages): RT stays within 7
      of DA. */
  lemma SyntheticRtTracksDa(daNoise: seq<real>, rtNoise: seq<real>)
    requires |daNoise| == HOURS_PER_DAY && |rtNoise| == HOURS_PER_DAY
    requires NoiseWithin(daNoise, DA_NOISE_AMP) && NoiseWithin(rtNoise, RT_NOISE_AMP)
    ensures forall h :: 0 <= h < HOURS_PER_DAY ==>
      SyntheticRt(SyntheticDa(daNoise), rtNoise)[h].price == SyntheticDa(daNoise)[h].price + rtNoise[h]
  {
    var da := SyntheticDa(daNoise);
    forall h | 0 <= h < HOURS_PER_DAY
      ensures SyntheticRt(da, rtNoise)[h].price == da[h].price + rtNoise[h]
    {
      DaPriceUnclamped(h, daNoise[h]);
    }
  }

  // ---------- Hour lookup ----------

  /** The hour-to-price dictionary built from a series; a later entry for an hour overrides an earlier one. */
  function ByHour(series: seq<PricePoint>): (m: map<int, real>)
    ensures forall h :: h in m <==> exists i :: 0 <= i < |series| && series[i].hour == h
  {
    if series == [] then map[]
    else
      var last := series[|series| - 1];
      var prefix := series[..|series| - 1];
      assert forall i :: 0 <= i < |prefix| ==> prefix[i] == series[i];
      ByHour(prefix)[last.hour := last.price]
  }

  /** In a series whose entry i is for hour i, the lookup of each covered hour is that entry's price. */
  lemma {:induction false} ByHourIndexed(series: seq<PricePoint>)
    requires forall i :: 0 <= i < |series| ==> series[i].hour == i
    ensures forall h :: 0 <= h < |series| ==> h in ByHour(series) && ByHour(series)[h] == series[h].price
  {
    if series != [] {
      var prefix := series[..|series| - 1];
      ByHourIndexed(prefix);
    }
  }

  // ---------- External day-ahead series ----------

  /** An element of the external payload after the source's conversions: `hour`
      holds what `int(x["hour"])` returns and `price` what `float(x["price"])`
      returns, so a JSON hour -0.5 arrives here as 0 and the text "5" as 5.
      A `None` field is a missing key. */
  datatype RawEntry = RawEntry(hour: Option<int>, price: Option<real>)

  predicate HasFields(x: RawEntry)
  {
    x.hour.Some? && x.price.Some?
  }

  predicate InRange(x: RawEntry)
    requires HasFields(x)
  {
    0 <= x.hour.value <= 23
  }

  /** The price point an entry decodes to. */
  function Decoded(x: RawEntry): PricePoint
    requires HasFields(x)
  {
    PricePoint(x.hour.value, x.price.value)
  }

  /** The entries whose hour lies in 0..23, in payload order: a point is kept
      iff it decodes from some in-range entry. */
  function KeepInRange(raw: seq<RawEntry>): (r: seq<PricePoint>)
    requires forall i :: 0 <= i < |raw| ==> HasFields(raw[i])
    ensures |r| <= |raw|
    ensures forall i :: 0 <= i < |r| ==> 0 <= r[i].hour <= 23
    ensures forall p :: p in r <==> exists i :: 0 <= i < |raw| && InRange(raw[i]) && p == Decoded(raw[i])
  {
    if raw == [] then []
    else
      var x := raw[0];
      var rest := KeepInRange(raw[1..]);
      assert forall i :: 1 <= i < |raw| ==> raw[1..][i - 1] == raw[i];
      (if InRange(x) then [Decoded(x)] else []) + rest
  }

  /** Filtering distributes over concatenation, so the kept entries stay in payload order. */
  lemma {:induction false} KeepInRangeConcat(a: seq<RawEntry>, b: seq<RawEntry>)
    requires forall i :: 0 <= i < |a| ==> HasFields(a[i])
    requires forall i :: 0 <= i < |b| ==> HasFields(b[i])
    ensures forall i :: 0 <= i < |a + b| ==> HasFields((a + b)[i])
    ensures KeepInRange(a + b) == KeepInRange(a) + KeepInRange(b)
  {
    if a == [] {
      assert a + b == b;
    } else {
      assert (a + b)[1..] == a[1..] + b;
      KeepInRangeConcat(a[1..], b);
    }
  }

  /** When every entry is in range, nothing is dropped and the entries are kept as they are. */
  lemma {:induction false} KeepInRangeKeepsAll(raw: seq<RawEntry>)
    requires forall i :: 0 <= i < |raw| ==> HasFields(raw[i]) && InRange(raw[i])
    ensures |KeepInRange(raw)| == |raw|
    ensures forall i :: 0 <= i < |raw| ==>
      KeepInRange(raw)[i] == Decoded(raw[i])
  {
    if raw != [] {
      KeepInRangeKeepsAll(raw[1..]);
    }
  }

  /** The decoded payload, or `None` when the fetch failed or some element lacks an hour or a price. */
  function ParseExternal(fetched: Option<seq<RawEntry>>): (r: Option<seq<PricePoint>>)
    ensures r.Some? <==> fetched.Some? && forall i :: 0 <= i < |fetched.value| ==> HasFields(fetched.value[i])
    ensures r.Some? ==> r.value == KeepInRange(fetched.value)
  {
    match fetched
    case None => None
    case Some(raw) =>
      if forall i :: 0 <= i < |raw| ==> HasFields(raw[i]) then Some(KeepInRange(raw)) else None
  }

  /** The external series is used only when it has exactly 24 entries after
      filtering; an accepted payload therefore had at least 24 elements, all
      with both fields. */
  predicate ExternalAccepted(fetched: Option<seq<RawEntry>>)
    ensures ExternalAccepted(fetched) ==>
      && fetched.Some? && |fetched.value| >= HOURS_PER_DAY
      && (forall i :: 0 <= i < |fetched.value| ==> HasFields(fetched.value[i]))
  {
    var parsed := ParseExternal(fetched);
    parsed.Some? && |parsed.value| == HOURS_PER_DAY
  }

  method GetDayAheadPrices(fetched: Option<seq<RawEntry>>, noise: seq<real>)
    returns (source: Source, series: seq<PricePoint>)
    requires |noise| == HOURS_PER_DAY
    ensures source == External <==> ExternalAccepted(fetched)
    ensures source == External ==> series == ParseExternal(fetched).value
    ensures source == Synthetic ==> series == SyntheticDa(noise)
    ensures |series| == HOURS_PER_DAY
    ensures forall i :: 0 <= i < |series| ==> 0 <= series[i].hour <= 23
  {
    var external := ParseExternal(fetched);
    if external.Some? && |external.value| == HOURS_PER_DAY {
      source := External;
      series := external.value;
    } else {
      source := Synthetic;
      series := GenerateDayAhead(noise);
    }
  }

  method GetRealTimePrices(daNoise: seq<real>, rtNoise: seq<real>) returns (series: seq<PricePoint>)
    requires |daNoise| == HOURS_PER_DAY && |rtNoise| == HOURS_PER_DAY
    ensures series == SyntheticRt(SyntheticDa(daNoise), rtNoise)
  {
    var da := GenerateDayAhead(daNoise);
    series := GenerateRealTime(da, rtNoise);
  }

  /** The acceptance test counts entries only: 24 copies of hour 0 pass it,
      although such a series covers a single hour. */
  lemma ExternalAcceptsRepeatedHours()
    ensures ExternalAccepted(Some(seq(HOURS_PER_DAY, _ => RawEntry(Some(0), Some(50.0)))))
  {
    var raw := seq(HOURS_PER_DAY, _ => RawEntry(Some(0), Some(50.0)));
    KeepInRangeKeepsAll(raw);
  }
}
