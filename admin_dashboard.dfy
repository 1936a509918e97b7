/** The society administrator's view (src/pages/AdminDashboard.tsx): the
    transformer statuses refreshed every tick, a most-recent-first anomaly log
    of at most 20 entries, the manual "Inject Anomaly" button and the risk
    cards derived from them. */
module AdminDashboard {
  import opened Types
  import MockData
  import Aggregates

  const LogCapacity: nat := 20

  /** `[a, ...log].slice(0, 20)`. */
  function Prepend(log: seq<AnomalyResult>, a: AnomalyResult): (r: seq<AnomalyResult>)
    ensures |r| == if |log| < LogCapacity then |log| + 1 else LogCapacity
    ensures r[0] == a
    ensures r[1..] == log[..|r| - 1]
  {
    var n := if |log| < LogCapacity then |log| + 1 else LogCapacity;
    assert ([a] + log)[1..n] == log[..n - 1];
    ([a] + log)[..n]
  }

  lemma PrependMembers(log: seq<AnomalyResult>, a: AnomalyResult, e: AnomalyResult)
    ensures e in Prepend(log, a) ==> e == a || e in log
  {
    var r := Prepend(log, a);
    if e in r && e != a {
      var k :| 0 <= k < |r| && r[k] == e;
      assert k > 0;
      assert r[k] == r[1..][k - 1] == log[k - 1];
    }
  }

  lemma PrependValid(log: seq<AnomalyResult>, a: AnomalyResult)
    requires ValidLog(log) && a.riskLevel != Normal
    ensures ValidLog(Prepend(log, a))
  {
    var r := Prepend(log, a);
    forall i | 0 <= i < |r|
      ensures r[i].riskLevel != Normal
    {
      if i > 0 { assert r[i] == r[1..][i - 1]; }
    }
  }

  /** What the log may hold: at most 20 entries, none of them NORMAL. */
  predicate ValidLog(log: seq<AnomalyResult>) {
    |log| <= LogCapacity && forall i :: 0 <= i < |log| ==> log[i].riskLevel != Normal
  }

  /** The fresh second classification a tick runs for status `t`. */
  function Recheck(societyId: string, capacity: real, hour: nat, now: int,
                   t: TransformerStatus, d: MockData.TransformerDraws): (c: AnomalyResult)
    requires capacity > 0.0
    ensures c.societyId == societyId && c.transformerId == t.id
  {
    MockData.DetectRisk(MockData.GenerateLiveReading(societyId, t.id, hour, now, d.reading), capacity, d.risk)
  }

  function Rechecks(societyId: string, capacity: real, hour: nat, now: int,
                    ts: seq<TransformerStatus>, ds: seq<MockData.TransformerDraws>): (cs: seq<AnomalyResult>)
    requires capacity > 0.0 && |ds| == |ts|
    ensures |cs| == |ts|
    ensures forall i :: 0 <= i < |ts| ==> cs[i].transformerId == ts[i].id
  {
    seq(|ts|, i requires 0 <= i < |ts| => Recheck(societyId, capacity, hour, now, ts[i], ds[i]))
  }

  /** Whether a tick logs the re-check of a status: both it and the status
      must be non-NORMAL. */
  predicate Flagged(t: TransformerStatus, c: AnomalyResult) {
    t.riskLevel != Normal && c.riskLevel != Normal
  }

  /** The log after a tick: statuses visited in order, each flagged re-check
      prepended. */
  function Logged(log: seq<AnomalyResult>, ts: seq<TransformerStatus>, cs: seq<AnomalyResult>): (r: seq<AnomalyResult>)
    requires |cs| == |ts|
    decreases |ts|
  {
    if ts == [] then log
    else Logged(if Flagged(ts[0], cs[0]) then Prepend(log, cs[0]) else log, ts[1..], cs[1..])
  }

  /** The number of flagged re-checks of a tick. */
  function FlaggedCount(ts: seq<TransformerStatus>, cs: seq<AnomalyResult>): (n: nat)
    requires |cs| == |ts|
    decreases |ts|
  {
    if ts == [] then 0 else (if Flagged(ts[0], cs[0]) then 1 else 0) + FlaggedCount(ts[1..], cs[1..])
  }

  lemma {:induction false} LoggedValid(log: seq<AnomalyResult>, ts: seq<TransformerStatus>, cs: seq<AnomalyResult>)
    requires |cs| == |ts| && ValidLog(log)
    ensures ValidLog(Logged(log, ts, cs))
    decreases |ts|
  {
    if ts != [] {
      var next := if Flagged(ts[0], cs[0]) then Prepend(log, cs[0]) else log;
      if Flagged(ts[0], cs[0]) {
        PrependValid(log, cs[0]);
      }
      LoggedValid(next, ts[1..], cs[1..]);
    }
  }

  /** The log grows by the flagged re-checks, up to 20 entries. */
  lemma {:induction false} LoggedLength(log: seq<AnomalyResult>, ts: seq<TransformerStatus>, cs: seq<AnomalyResult>)
    requires |cs| == |ts| && |log| <= LogCapacity
    ensures |Logged(log, ts, cs)| ==
            if |log| + FlaggedCount(ts, cs) < LogCapacity then |log| + FlaggedCount(ts, cs) else LogCapacity
    decreases |ts|
  {
    if ts != [] {
      var next := if Flagged(ts[0], cs[0]) then Prepend(log, cs[0]) else log;
      LoggedLength(next, ts[1..], cs[1..]);
    }
  }

  /** Every entry after a tick was there before or is a flagged re-check. */
  lemma {:induction false} LoggedSources(log: seq<AnomalyResult>, ts: seq<TransformerStatus>, cs: seq<AnomalyResult>,
                                         e: AnomalyResult)
    requires |cs| == |ts| && e in Logged(log, ts, cs)
    ensures e in log || exists i :: 0 <= i < |ts| && Flagged(ts[i], cs[i]) && cs[i] == e
    decreases |ts|
  {
    if ts != [] {
      var next := if Flagged(ts[0], cs[0]) then Prepend(log, cs[0]) else log;
      LoggedSources(next, ts[1..], cs[1..], e);
      if e in next && e !in log {
        if Flagged(ts[0], cs[0]) {
          PrependMembers(log, cs[0], e);
        }
      } else if e !in next {
        var i :| 0 <= i < |ts[1..]| && Flagged(ts[1..][i], cs[1..][i]) && cs[1..][i] == e;
        assert ts[1..][i] == ts[i + 1] && cs[1..][i] == cs[i + 1];
      }
    }
  }

  /** If the last flagged re-check of a tick exists, it heads the log. */
  lemma {:induction false} LoggedHead(log: seq<AnomalyResult>, ts: seq<TransformerStatus>, cs: seq<AnomalyResult>, k: nat)
    requires |cs| == |ts| && k < |ts| && Flagged(ts[k], cs[k])
    requires forall j :: k < j < |ts| ==> !Flagged(ts[j], cs[j])
    ensures |Logged(log, ts, cs)| > 0 && Logged(log, ts, cs)[0] == cs[k]
    decreases |ts|
  {
    var next := if Flagged(ts[0], cs[0]) then Prepend(log, cs[0]) else log;
    if k == 0 {
      LoggedQuiet(next, ts[1..], cs[1..]);
    } else {
      forall j | k - 1 < j < |ts[1..]|
        ensures !Flagged(ts[1..][j], cs[1..][j])
      {
        assert ts[1..][j] == ts[j + 1] && cs[1..][j] == cs[j + 1];
      }
      LoggedHead(next, ts[1..], cs[1..], k - 1);
    }
  }

  /** A tick with nothing flagged leaves the log as it was. */
  lemma {:induction false} LoggedQuiet(log: seq<AnomalyResult>, ts: seq<TransformerStatus>, cs: seq<AnomalyResult>)
    requires |cs| == |ts| && forall j :: 0 <= j < |ts| ==> !Flagged(ts[j], cs[j])
    ensures Logged(log, ts, cs) == log
    decreases |ts|
  {
    if ts != [] {
      assert !Flagged(ts[0], cs[0]);
      forall j | 0 <= j < |ts[1..]|
        ensures !Flagged(ts[1..][j], cs[1..][j])
      {
        assert ts[1..][j] == ts[j + 1] && cs[1..][j] == cs[j + 1];
      }
      LoggedQuiet(log, ts[1..], cs[1..]);
    }
  }

  /** The reading of the manual injection: the live reading of `<id>-t1`
      with its load overwritten by `capacity * (0.85 + r * 0.2)`. */
  function InjectedReading(societyId: string, capacity: real, hour: nat, now: int,
                           d: MockData.ReadingDraws, r: real): (reading: EnergyReading)
    requires capacity > 0.0
    ensures reading.societyId == societyId && reading.transformerId == societyId + "-t1"
    ensures MockData.InUnit(r) ==> 0.85 <= MockData.Utilization(reading, capacity) < 1.05
  {
    var live := MockData.GenerateLiveReading(societyId, societyId + "-t1", hour, now, d);
    var reading := live.(loadKw := capacity * (0.85 + r * 0.2));
    MulDiv(capacity, 0.85 + r * 0.2);
    reading
  }

  lemma MulDiv(c: real, x: real)
    requires c > 0.0
    ensures (c * x) / c == x
  {
  }

  /** The anomaly the inject button adds: whatever the classifier says,
      forced to CRITICAL with the manual reason. */
  function Injected(societyId: string, capacity: real, hour: nat, now: int,
                    d: MockData.TransformerDraws, r: real): (a: AnomalyResult)
    requires capacity > 0.0
    ensures a.riskLevel == Critical && a.riskReason == ManualSimulation
    ensures a.societyId == societyId && a.transformerId == societyId + "-t1"
    ensures MockData.InUnit(r) ==> 85.0 <= a.overloadProbability <= 100.0
    ensures MockData.InUnit(r) && d.risk.Valid() ==> 0.5 <= a.anomalyScore < 1.0
  {
    var reading := InjectedReading(societyId, capacity, hour, now, d.reading, r);
    var checked := MockData.DetectRisk(reading, capacity, d.risk);
    checked.(riskLevel := Critical, riskReason := ManualSimulation)
  }

  /** The state of the admin view: the society it shows (`user.societyId`,
      falling back to "s1" when absent or empty), that society's capacity,
      the latest statuses and the anomaly log. */
  class AdminState {
    const societyId: string
    const capacity: real
    var transformers: seq<TransformerStatus>
    var anomalies: seq<AnomalyResult>

    ghost predicate Valid()
      reads this
    {
      capacity > 0.0 && ValidLog(anomalies)
    }

    constructor (userSocietyId: Option<string>)
      ensures Valid()
      ensures societyId == (if userSocietyId.Some? && userSocietyId.value != "" then userSocietyId.value else "s1")
      ensures capacity == MockData.FindSociety(societyId).transformerCapacity
      ensures transformers == [] && anomalies == []
    {
      var id := if userSocietyId.Some? && userSocietyId.value != "" then userSocietyId.value else "s1";
      societyId := id;
      capacity := MockData.FindSociety(id).transformerCapacity;
      transformers := [];
      anomalies := [];
    }

    /** One refresh: new statuses, and for every non-NORMAL one a fresh
        classification that is logged when it is non-NORMAL too. */
    method Tick(hour: nat, now: int, statusDraws: seq<MockData.TransformerDraws>,
                checkDraws: seq<MockData.TransformerDraws>)
      requires Valid() && |statusDraws| == 3 && |checkDraws| == 3
      modifies this
      ensures Valid()
      ensures transformers == MockData.GetTransformerStatuses(societyId, capacity, hour, now, statusDraws)
      ensures anomalies == Logged(old(anomalies), transformers,
                                  Rechecks(societyId, capacity, hour, now, transformers, checkDraws))
    {
      var statuses := MockData.GetTransformerStatuses(societyId, capacity, hour, now, statusDraws);
      transformers := statuses;
      ghost var checks := Rechecks(societyId, capacity, hour, now, statuses, checkDraws);
      var i := 0;
      while i < |statuses|
        invariant 0 <= i <= |statuses|
        invariant transformers == statuses
        invariant Logged(anomalies, statuses[i..], checks[i..]) == Logged(old(anomalies), statuses, checks)
      {
        assert statuses[i..][1..] == statuses[i + 1..] && checks[i..][1..] == checks[i + 1..];
        if statuses[i].riskLevel != Normal {
          var reading := MockData.GenerateLiveReading(societyId, statuses[i].id, hour, now, checkDraws[i].reading);
          var anomaly := MockData.DetectRisk(reading, capacity, checkDraws[i].risk);
          assert anomaly == checks[i];
          if anomaly.riskLevel != Normal {
            anomalies := Prepend(anomalies, anomaly);
          }
        }
        i := i + 1;
      }
      LoggedValid(old(anomalies), statuses, checks);
    }

    /** The inject button: a CRITICAL entry whatever the draws. */
    method Inject(hour: nat, now: int, d: MockData.TransformerDraws, r: real)
      requires Valid()
      modifies this
      ensures Valid()
      ensures transformers == old(transformers)
      ensures anomalies == Prepend(old(anomalies), Injected(societyId, capacity, hour, now, d, r))
    {
      var reading := MockData.GenerateLiveReading(societyId, societyId + "-t1", hour, now, d.reading);
      reading := reading.(loadKw := capacity * (0.85 + r * 0.2));
      assert reading == InjectedReading(societyId, capacity, hour, now, d.reading, r);
      var anomaly := MockData.DetectRisk(reading, capacity, d.risk);
      anomaly := anomaly.(riskLevel := Critical, riskReason := ManualSimulation);
      assert anomaly == Injected(societyId, capacity, hour, now, d, r);
      PrependValid(anomalies, anomaly);
      anomalies := Prepend(anomalies, anomaly);
    }
  }

  /** The "Overload Risk" card: CRITICAL above 80% mean utilization, HIGH
      above 60%, else NORMAL. */
  function OverloadCard(avgUtil: real): (c: Card)
    ensures c.level == Critical <==> avgUtil > 80.0
    ensures c.level == High <==> 60.0 < avgUtil <= 80.0
    ensures c.level == Normal <==> avgUtil <= 60.0
    ensures c.value == if c.level == Critical then 78.3 else 15.4
  {
    Card(if avgUtil > 80.0 then 78.3 else 15.4,
         if avgUtil > 80.0 then Critical else if avgUtil > 60.0 then High else Normal)
  }

  /** The "Hybrid Score" card: the level of the newest logged anomaly, or
      NORMAL for an empty log. Its value reads a score field that anomaly
      results do not have, so it is always 0. */
  function HybridCard(log: seq<AnomalyResult>): (c: Card)
    ensures log == [] ==> c.level == Normal
    ensures log != [] ==> c.level == log[0].riskLevel
    ensures c.value == 0.0
  {
    Card(0.0, if |log| > 0 then log[0].riskLevel else Normal)
  }

  /** The "Blackout Risk" card: CRITICAL iff some transformer is CRITICAL. */
  function BlackoutCard(ts: seq<TransformerStatus>): (c: Card)
    ensures c.level == Critical <==> exists i :: 0 <= i < |ts| && ts[i].riskLevel == Critical
    ensures c.level != High
    ensures c.value == if c.level == Critical then 34.2 else 2.1
  {
    var criticalCount := Aggregates.CountLevel(ts, Critical);
    Card(if criticalCount > 0 then 34.2 else 2.1, if criticalCount > 0 then Critical else Normal)
  }

  /** After any tick the hybrid card shows HIGH or CRITICAL, or the log is
      empty: NORMAL results never enter the log. */
  lemma HybridCardNeverNormalWhenLogged(log: seq<AnomalyResult>)
    requires ValidLog(log) && log != []
    ensures HybridCard(log).level != Normal
  {
  }
}
