/** The live load chart (src/components/dashboard/LiveChart.tsx): seeded
    with 21 points five seconds apart, then one point appended per tick
    while the simulation runs, keeping only the last 30. A point's time is
    the clock in milliseconds; its display formatting is not modelled. */
module LiveChart {
  import opened Types
  import MockData

  const WindowSize: nat := 30
  const InitialPoints: nat := 21
  const TickMillis: int := 5000

  datatype DataPoint = DataPoint(time: int, load: real, temperature: real)

  function PointOf(r: EnergyReading, time: int): (p: DataPoint) {
    DataPoint(time, r.loadKw, r.temperature)
  }

  /** The reading the chart plots: the live reading of `<id>-t1`. */
  function ChartReading(societyId: string, hour: nat, now: int, d: MockData.ReadingDraws): (r: EnergyReading) {
    MockData.GenerateLiveReading(societyId, societyId + "-t1", hour, now, d)
  }

  /** `[...s, p].slice(-30)`. */
  function Slide(s: seq<DataPoint>, p: DataPoint): (r: seq<DataPoint>)
    ensures |r| == if |s| < WindowSize then |s| + 1 else WindowSize
    ensures r[|r| - 1] == p
    ensures r[..|r| - 1] == s[|s| - (|r| - 1)..]
  {
    var next := s + [p];
    var r := if |next| > WindowSize then next[|next| - WindowSize..] else next;
    assert r[..|r| - 1] == s[|s| - (|r| - 1)..];
    r
  }

  /** Appending to a window that is not full drops nothing; appending to a
      full one drops exactly the oldest point. */
  lemma SlideDropsOldest(s: seq<DataPoint>, p: DataPoint)
    requires |s| <= WindowSize
    ensures |s| < WindowSize ==> Slide(s, p) == s + [p]
    ensures |s| == WindowSize ==> Slide(s, p) == s[1..] + [p]
  {
    var r := Slide(s, p);
    assert r == r[..|r| - 1] + [r[|r| - 1]];
  }

  /** The seed series: `for (i = 20; i >= 0; i--)` pushes the point of time
      `now - i * 5000`. */
  method InitialSeries(societyId: string, hour: nat, now: int, draws: seq<MockData.ReadingDraws>)
    returns (initial: seq<DataPoint>)
    requires |draws| == InitialPoints
    ensures |initial| == InitialPoints
    ensures forall k :: 0 <= k < InitialPoints ==>
              initial[k].load == ChartReading(societyId, hour, now, draws[k]).loadKw &&
              initial[k].temperature == ChartReading(societyId, hour, now, draws[k]).temperature
    ensures initial[InitialPoints - 1].time == now
    ensures forall k :: 0 < k < InitialPoints ==> initial[k].time == initial[k - 1].time + TickMillis
  {
    initial := [];
    var i := 20;
    while i >= 0
      invariant -1 <= i <= 20
      invariant |initial| == 20 - i
      invariant forall k :: 0 <= k < |initial| ==>
                  initial[k] == PointOf(ChartReading(societyId, hour, now, draws[k]), now - (20 - k) * TickMillis)
    {
      var r := ChartReading(societyId, hour, now, draws[20 - i]);
      initial := initial + [PointOf(r, now - i * TickMillis)];
      i := i - 1;
    }
  }

  class ChartState {
    var data: seq<DataPoint>

    ghost predicate Valid()
      reads this
    {
      |data| <= WindowSize
    }

    constructor ()
      ensures Valid() && data == []
    {
      data := [];
    }

    /** A change of society reseeds the chart. */
    method Reset(societyId: string, hour: nat, now: int, draws: seq<MockData.ReadingDraws>)
      requires |draws| == InitialPoints
      modifies this
      ensures Valid() && |data| == InitialPoints
      ensures forall k :: 0 <= k < InitialPoints ==>
                data[k].load == ChartReading(societyId, hour, now, draws[k]).loadKw &&
                data[k].temperature == ChartReading(societyId, hour, now, draws[k]).temperature
      ensures data[InitialPoints - 1].time == now
      ensures forall k :: 0 < k < InitialPoints ==> data[k].time == data[k - 1].time + TickMillis
    {
      data := InitialSeries(societyId, hour, now, draws);
    }

    /** One five-second tick: a new point at the tail while simulating,
        nothing otherwise. */
    method Tick(isSimulating: bool, societyId: string, hour: nat, now: int, d: MockData.ReadingDraws)
      requires Valid()
      modifies this
      ensures Valid()
      ensures isSimulating ==> data == Slide(old(data), PointOf(ChartReading(societyId, hour, now, d), now))
      ensures !isSimulating ==> data == old(data)
    {
      if isSimulating {
        var r := ChartReading(societyId, hour, now, d);
        data := Slide(data, PointOf(r, now));
      }
    }
  }
}
