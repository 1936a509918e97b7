/** The resident's view (src/pages/ResidentDashboard.tsx): a summary of the
    society's 24-hour series (mean and peak load, the hour of the first peak,
    the monthly bill estimate and the savings shown beside it) and the
    per-flat usage curve. JavaScript numbers are modelled as exact reals. */
module ResidentDashboard {
  import opened Types
  import MockData

  /** `user?.societyId || 's1'`: an absent or empty society id falls back to "s1". */
  function ResidentSociety(user: Option<User>): (id: string)
    ensures id != ""
    ensures user.Some? && user.value.societyId.Some? && user.value.societyId.value != "" ==>
              id == user.value.societyId.value
    ensures id == "s1" <==> user.None? || user.value.societyId.None? || user.value.societyId.value in {"", "s1"}
  {
    if user.Some? && user.value.societyId.Some? && user.value.societyId.value != "" then user.value.societyId.value
    else "s1"
  }

  function SumLoad(data: seq<EnergyReading>): (sum: real) {
    if data == [] then 0.0 else data[0].loadKw + SumLoad(data[1..])
  }

  /** `data.reduce((s, d) => s + d.loadKw, 0) / data.length`. */
  function AvgLoad(data: seq<EnergyReading>): (avg: real)
    requires |data| > 0
    ensures avg * |data| as real == SumLoad(data)
  {
    SumLoad(data) / |data| as real
  }

  /** `Math.max(...data.map(d => d.loadKw))`: the largest load, attained by
      some reading. */
  function PeakLoad(data: seq<EnergyReading>): (m: real)
    requires |data| > 0
    ensures forall i :: 0 <= i < |data| ==> data[i].loadKw <= m
    ensures exists i :: 0 <= i < |data| && data[i].loadKw == m
  {
    if |data| == 1 then data[0].loadKw
    else
      var rest := PeakLoad(data[1..]);
      assert forall i :: 1 <= i < |data| ==> data[i] == data[1..][i - 1];
      Max(data[0].loadKw, rest)
  }

  /** `data.find(d => d.loadKw === x)`, as the index of the first match. */
  function FindLoad(data: seq<EnergyReading>, x: real): (r: Option<nat>)
    ensures r.None? <==> forall i :: 0 <= i < |data| ==> data[i].loadKw != x
    ensures r.Some? ==> r.value < |data| && data[r.value].loadKw == x &&
                        forall j :: 0 <= j < r.value ==> data[j].loadKw != x
  {
    if data == [] then None
    else if data[0].loadKw == x then Some(0)
    else
      var r := FindLoad(data[1..], x);
      assert forall i :: 1 <= i < |data| ==> data[i] == data[1..][i - 1];
      if r.Some? then Some(r.value + 1) else None
  }

  /** `data.find(d => d.loadKw === peakLoad)?.hour ?? 0`: the hour of the
      first reading at the peak, 0 for an empty series. */
  function PeakHour(data: seq<EnergyReading>): (h: nat)
    ensures data == [] ==> h == 0
    ensures data != [] ==> exists i :: 0 <= i < |data| && data[i].loadKw == PeakLoad(data) &&
                                       (forall j :: 0 <= j < i ==> data[j].loadKw < PeakLoad(data)) &&
                                       h == data[i].hour
  {
    if data == [] then 0
    else
      var found := FindLoad(data, PeakLoad(data));
      var hour := if found.Some? then Some(data[found.value].hour) else None;
      hour.GetOr(0)
  }

  /** `avgLoad * 24 * 30 * 0.08 / 1000`: 720 hours of the mean load at the
      tariff of 0.08 per kWh, in thousands. */
  function EstimatedBill(avgLoad: real): (bill: real)
    ensures bill == 0.0576 * avgLoad
    ensures avgLoad >= 0.0 ==> bill >= 0.0
  {
    avgLoad * 24.0 * 30.0 * 0.08 / 1000.0
  }

  /** A higher mean load never gives a lower bill. */
  lemma BillMonotone(a: real, b: real)
    requires a <= b
    ensures EstimatedBill(a) <= EstimatedBill(b)
  {
    assert EstimatedBill(b) - EstimatedBill(a) == (b - a) * 24.0 * 30.0 * 0.08 / 1000.0;
  }

  /** `estimatedBill * 0.12`. */
  function Savings(bill: real): (s: real)
    ensures bill >= 0.0 ==> 0.0 <= s <= bill
    ensures bill < 0.0 ==> bill < s < 0.0
  {
    bill * 0.12
  }

  /** `Math.round`: the nearest integer, halves rounded up. */
  function Round(x: real): (n: int)
    ensures n as real - 0.5 <= x < n as real + 0.5
  {
    (x + 0.5).Floor
  }

  datatype Usage = Usage(hour: nat, usage: int)

  /** `data.map(d => ({ hour, usage: Math.round(d.loadKw * 0.012) }))`. */
  function PersonalData(data: seq<EnergyReading>): (p: seq<Usage>)
    ensures |p| == |data|
    ensures forall i :: 0 <= i < |data| ==> p[i].hour == data[i].hour
    ensures forall i :: 0 <= i < |data| ==>
              p[i].usage as real - 0.5 <= data[i].loadKw * 0.012 < p[i].usage as real + 0.5
    ensures forall i :: 0 <= i < |data| && data[i].loadKw >= 0.0 ==> p[i].usage >= 0
  {
    seq(|data|, i requires 0 <= i < |data| => Usage(data[i].hour, Round(data[i].loadKw * 0.012)))
  }

  lemma {:induction false} SumAtMost(data: seq<EnergyReading>, m: real)
    requires forall i :: 0 <= i < |data| ==> data[i].loadKw <= m
    ensures SumLoad(data) <= |data| as real * m
  {
    if data != [] {
      assert forall i :: 0 <= i < |data[1..]| ==> data[1..][i] == data[i + 1];
      SumAtMost(data[1..], m);
    }
  }

  lemma {:induction false} SumAtLeast(data: seq<EnergyReading>, m: real)
    requires forall i :: 0 <= i < |data| ==> m <= data[i].loadKw
    ensures |data| as real * m <= SumLoad(data)
  {
    if data != [] {
      assert forall i :: 0 <= i < |data[1..]| ==> data[1..][i] == data[i + 1];
      SumAtLeast(data[1..], m);
    }
  }

  /** The smallest load, attained by some reading. */
  function MinLoad(data: seq<EnergyReading>): (m: real)
    requires |data| > 0
    ensures forall i :: 0 <= i < |data| ==> m <= data[i].loadKw
    ensures exists i :: 0 <= i < |data| && data[i].loadKw == m
  {
    if |data| == 1 then data[0].loadKw
    else
      var rest := MinLoad(data[1..]);
      assert forall i :: 1 <= i < |data| ==> data[i] == data[1..][i - 1];
      Min(data[0].loadKw, rest)
  }

  /** The mean lies between the smallest load and the peak. */
  lemma AvgBetweenMinAndPeak(data: seq<EnergyReading>)
    requires |data| > 0
    ensures MinLoad(data) <= AvgLoad(data) <= PeakLoad(data)
  {
    MeanWithin(data, MinLoad(data), PeakLoad(data));
  }

  lemma MeanWithin(data: seq<EnergyReading>, lo: real, hi: real)
    requires |data| > 0
    requires forall i :: 0 <= i < |data| ==> lo <= data[i].loadKw <= hi
    ensures lo <= AvgLoad(data) <= hi
  {
    SumAtMost(data, hi);
    SumAtLeast(data, lo);
    MeanBetween(SumLoad(data), |data| as real, lo, hi);
  }

  lemma MeanBetween(s: real, n: real, lo: real, hi: real)
    requires n > 0.0 && n * lo <= s <= n * hi
    ensures lo <= s / n <= hi
  {
    assert s / n - lo == (s - n * lo) / n;
    assert hi - s / n == (n * hi - s) / n;
  }

  /** The four headline numbers of the page. */
  datatype Summary = Summary(avgLoad: real, peakLoad: real, peakHour: nat, estimatedBill: real, savings: real)

  function Summarize(data: seq<EnergyReading>): (s: Summary)
    requires |data| > 0
  {
    var avg := AvgLoad(data);
    var bill := EstimatedBill(avg);
    Summary(avg, PeakLoad(data), PeakHour(data), bill, Savings(bill))
  }

  /** The page's summary of a society's day, with every draw in [0, 1): the
      mean load is positive and at most the peak, the peak hour is an hour of
      the day, and the savings are a non-negative part of the bill. */
  lemma DaySummaryBounds(societyId: string, now: int, draws: seq<real>)
    requires |draws| == |MockData.RawData|
    requires forall i :: 0 <= i < |draws| ==> MockData.InUnit(draws[i])
    ensures var s := Summarize(MockData.Get24HourData(societyId, now, draws));
            0.0 < s.avgLoad <= s.peakLoad && s.peakHour < 24 &&
            0.0 <= s.savings <= s.estimatedBill
  {
    MockData.RawDataFacts();
    var data := MockData.Get24HourData(societyId, now, draws);
    assert forall i :: 0 <= i < |data| ==> data[i].loadKw > 0.0;
    AvgBetweenMinAndPeak(data);
  }
}
