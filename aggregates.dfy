/** The `filter`/`reduce`/`find` expressions the dashboards compute over a
    list of transformer statuses (src/pages/AdminDashboard.tsx,
    src/pages/OwnerDashboard.tsx). */
module Aggregates {
  import opened Types

  /** `ts.filter(t => t.riskLevel === l).length`. */
  function CountLevel(ts: seq<TransformerStatus>, l: RiskLevel): (n: nat)
    ensures n <= |ts|
    ensures n > 0 <==> exists i :: 0 <= i < |ts| && ts[i].riskLevel == l
    ensures n == |ts| <==> forall i :: 0 <= i < |ts| ==> ts[i].riskLevel == l
  {
    if ts == [] then 0
    else
      var rest := CountLevel(ts[1..], l);
      assert forall i :: 1 <= i < |ts| ==> ts[i] == ts[1..][i - 1];
      (if ts[0].riskLevel == l then 1 else 0) + rest
  }

  lemma {:induction false} CountLevelConcat(a: seq<TransformerStatus>, b: seq<TransformerStatus>, l: RiskLevel)
    ensures CountLevel(a + b, l) == CountLevel(a, l) + CountLevel(b, l)
  {
    if a != [] {
      assert (a + b)[1..] == a[1..] + b;
      CountLevelConcat(a[1..], b, l);
    } else {
      assert a + b == b;
    }
  }

  /** The CRITICAL and the HIGH counts never exceed the number of statuses. */
  lemma {:induction false} CountCriticalHigh(ts: seq<TransformerStatus>)
    ensures CountLevel(ts, Critical) + CountLevel(ts, High) <= |ts|
  {
    if ts != [] {
      CountCriticalHigh(ts[1..]);
    }
  }

  /** `ts.reduce((s, t) => s + t.utilizationPercent, 0)`. */
  function SumUtil(ts: seq<TransformerStatus>): (sum: real) {
    if ts == [] then 0.0 else ts[0].utilizationPercent + SumUtil(ts[1..])
  }

  /** The mean utilization percentage, or 0 for no statuses. */
  function MeanUtil(ts: seq<TransformerStatus>): (m: real)
    ensures |ts| == 0 ==> m == 0.0
    ensures |ts| > 0 ==> m * (|ts| as real) == SumUtil(ts)
  {
    if |ts| > 0 then SumUtil(ts) / (|ts| as real) else 0.0
  }

  predicate UtilInRange(ts: seq<TransformerStatus>) {
    forall i :: 0 <= i < |ts| ==> 0.0 <= ts[i].utilizationPercent <= 100.0
  }

  lemma {:induction false} SumUtilBounds(ts: seq<TransformerStatus>)
    requires UtilInRange(ts)
    ensures 0.0 <= SumUtil(ts) <= 100.0 * (|ts| as real)
  {
    if ts != [] {
      assert UtilInRange(ts[1..]) by {
        forall i | 0 <= i < |ts[1..]|
          ensures 0.0 <= ts[1..][i].utilizationPercent <= 100.0
        {
          assert ts[1..][i] == ts[i + 1];
        }
      }
      SumUtilBounds(ts[1..]);
    }
  }

  lemma SumUtilConcat(a: seq<TransformerStatus>, b: seq<TransformerStatus>)
    ensures SumUtil(a + b) == SumUtil(a) + SumUtil(b)
  {
    if a != [] {
      assert (a + b)[1..] == a[1..] + b;
      SumUtilConcat(a[1..], b);
    } else {
      assert a + b == b;
    }
  }

  /** A mean of percentages in [0, 100] is itself in [0, 100]. */
  lemma MeanUtilBounds(ts: seq<TransformerStatus>)
    ensures UtilInRange(ts) ==> 0.0 <= MeanUtil(ts) <= 100.0
  {
    if |ts| > 0 && UtilInRange(ts) {
      SumUtilBounds(ts);
      var n := |ts| as real;
      assert MeanUtil(ts) == SumUtil(ts) / n;
      DivideBounds(SumUtil(ts), n, 100.0);
    }
  }

  lemma DivideBounds(s: real, n: real, b: real)
    requires n > 0.0 && 0.0 <= s <= b * n
    ensures 0.0 <= s / n <= b
  {
    assert s / n - b == (s - b * n) / n;
  }

  /** The worst level present: CRITICAL if some status is CRITICAL, else
      HIGH if some is HIGH, else NORMAL (also for no statuses). */
  function WorstRisk(ts: seq<TransformerStatus>): (r: RiskLevel)
    ensures forall i :: 0 <= i < |ts| ==> Rank(ts[i].riskLevel) <= Rank(r)
    ensures ts == [] ==> r == Normal
    ensures ts != [] ==> exists i :: 0 <= i < |ts| && ts[i].riskLevel == r
  {
    if exists i :: 0 <= i < |ts| && ts[i].riskLevel == Critical then Critical
    else if exists i :: 0 <= i < |ts| && ts[i].riskLevel == High then High
    else
      assert ts == [] || ts[0].riskLevel == Normal;
      Normal
  }
}
