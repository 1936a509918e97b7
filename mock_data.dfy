/** The simulated telemetry source and the risk classifier
    (src/lib/mock-data.ts). Every `Math.random()` of the source is an explicit
    draw parameter, meant to lie in [0, 1); the clock is the parameters `now`
    (milliseconds) and `hour`. */
module MockData {
  import opened Types

  /** One row of the embedded hourly load table. */
  datatype RawRow = RawRow(hour: nat, load: real, temp: real, ev: nat)

  const RawData: seq<RawRow> := [
    RawRow(0, 84.34, 24.2, 0), RawRow(1, 85.46, 25.0, 0), RawRow(2, 135.31, 27.2, 1),
    RawRow(3, 150.52, 30.2, 1), RawRow(4, 128.23, 30.9, 1), RawRow(5, 93.29, 31.5, 0),
    RawRow(6, 126.71, 31.0, 0), RawRow(7, 114.71, 28.0, 0), RawRow(8, 120.03, 32.4, 0),
    RawRow(9, 150.82, 31.4, 1), RawRow(10, 117.38, 26.8, 0), RawRow(11, 117.94, 26.0, 0),
    RawRow(12, 148.25, 31.0, 0), RawRow(13, 143.94, 20.9, 1), RawRow(14, 163.68, 32.2, 0),
    RawRow(15, 123.37, 27.7, 0), RawRow(16, 125.79, 27.5, 0), RawRow(17, 158.39, 32.2, 1),
    RawRow(18, 212.51, 22.0, 0), RawRow(19, 241.48, 33.0, 0), RawRow(20, 270.0, 22.1, 1),
    RawRow(21, 193.08, 25.0, 0), RawRow(22, 64.87, 25.1, 0), RawRow(23, 134.09, 31.9, 1)
  ]

  const Societies: seq<Society> := [
    Society("s1", "Green Valley Estate", "Sector 42, Gurugram", 300.0, 100, 3),
    Society("s2", "Sunrise Towers", "Whitefield, Bangalore", 280.0, 85, 3),
    Society("s3", "Palm Heights", "Powai, Mumbai", 320.0, 120, 3),
    Society("s4", "Maple Gardens", "Hinjewadi, Pune", 260.0, 90, 3),
    Society("s5", "Cedar Residency", "Noida Sector 62", 290.0, 95, 3)
  ]

  /** A demo account: a `User` plus its password. */
  datatype DemoUser = DemoUser(id: string, name: string, email: string, role: Role,
                               societyId: Option<string>, flatNumber: Option<string>,
                               password: string)
  {
    /** The record without its password field. */
    function WithoutPassword(): User {
      User(id, name, email, role, societyId, flatNumber)
    }
  }

  const DemoUsers: seq<DemoUser> := [
    DemoUser("u1", "Nitin Sharma", "owner@greengrid.io", Owner, None, None, "owner123"),
    DemoUser("u2", "Priya Patel", "admin@greengrid.io", Admin, Some("s1"), None, "admin123"),
    DemoUser("u3", "Rahul Kumar", "resident@greengrid.io", Resident, Some("s1"), Some("A-204"), "resident123")
  ]

  /** Facts about the tables that the rest of the model relies on. */
  lemma RawDataFacts()
    ensures |RawData| == 24
    ensures forall i :: 0 <= i < |RawData| ==> RawData[i].hour == i
    ensures forall i :: 0 <= i < |RawData| ==> RawData[i].load > 0.0 && RawData[i].temp > 0.0
  {
    forall r | r in RawData
      ensures r.load > 0.0 && r.temp > 0.0
    {
    }
    forall i | 0 <= i < |RawData|
      ensures RawData[i].hour == i
    {
      RawRowHour(i);
    }
  }

  lemma RawRowHour(i: nat)
    requires i < |RawData|
    ensures RawData[i].hour == i
  {
    if i < 12 {
      if i < 6 {
        if i < 3 {} else {}
      } else {
        if i < 9 {} else {}
      }
    } else {
      if i < 18 {
        if i < 15 {} else {}
      } else {
        if i < 21 {} else {}
      }
    }
  }

  lemma SocietiesFacts()
    ensures |Societies| == 5
    ensures forall i :: 0 <= i < |Societies| ==> Societies[i].transformerCapacity > 0.0
    ensures forall i, j :: 0 <= i < j < |Societies| ==> Societies[i].id != Societies[j].id
  {
    forall s | s in Societies
      ensures s.transformerCapacity > 0.0
    {
    }
  }

  predicate InUnit(r: real) {
    0.0 <= r < 1.0
  }

  /** The three draws `generateLiveReading` consumes. */
  datatype ReadingDraws = ReadingDraws(load: real, temp: real, ev: real) {
    predicate Valid() {
      InUnit(load) && InUnit(temp) && InUnit(ev)
    }
  }

  /** The draws `detectRisk` consumes: the anomaly coin, the NORMAL score and
      the score of the CRITICAL or HIGH branch. */
  datatype RiskDraws = RiskDraws(anomaly: real, baseScore: real, levelScore: real) {
    predicate Valid() {
      InUnit(anomaly) && InUnit(baseScore) && InUnit(levelScore)
    }
  }

  /** What one transformer of `getTransformerStatuses` draws. */
  datatype TransformerDraws = TransformerDraws(reading: ReadingDraws, risk: RiskDraws)

  /** `val` perturbed by up to `percent` of itself, by the draw `r`. */
  function Jitter(val: real, percent: real, r: real): (v: real)
    ensures InUnit(r) && val >= 0.0 && percent >= 0.0 ==>
              val * (1.0 - percent) <= v <= val * (1.0 + percent)
    ensures InUnit(r) && val > 0.0 && percent > 0.0 ==> v < val * (1.0 + percent)
  {
    JitterBand(val, percent, r);
    val * (1.0 + (r - 0.5) * 2.0 * percent)
  }

  lemma JitterBand(val: real, percent: real, r: real)
    ensures InUnit(r) && val >= 0.0 && percent >= 0.0 ==>
              val * (1.0 - percent) <= val * (1.0 + (r - 0.5) * 2.0 * percent) <= val * (1.0 + percent)
    ensures InUnit(r) && val > 0.0 && percent > 0.0 ==>
              val * (1.0 + (r - 0.5) * 2.0 * percent) < val * (1.0 + percent)
  {
    var v := val * (1.0 + (r - 0.5) * 2.0 * percent);
    assert v - val * (1.0 - percent) == 2.0 * (val * percent) * r;
    assert val * (1.0 + percent) - v == 2.0 * (val * percent) * (1.0 - r);
    if InUnit(r) && val >= 0.0 && percent >= 0.0 {
      assert val * percent >= 0.0;
      if val > 0.0 && percent > 0.0 {
        assert val * percent > 0.0;
        assert (val * percent) * (1.0 - r) > 0.0;
      }
    }
  }

  /** A telemetry sample for the given transformer at clock hour `hour`. */
  function GenerateLiveReading(societyId: string, transformerId: string, hour: nat, now: int,
                               d: ReadingDraws): (r: EnergyReading)
    ensures r.timestamp == now && r.hour == hour
    ensures r.societyId == societyId && r.transformerId == transformerId
    ensures r.evCharging <==> d.ev > 0.6
    ensures d.Valid() ==> 0.8 * RawData[hour % 24].load <= r.loadKw < 1.2 * RawData[hour % 24].load
    ensures d.Valid() ==> 0.9 * RawData[hour % 24].temp <= r.temperature < 1.1 * RawData[hour % 24].temp
  {
    RawDataFacts();
    var base := RawData[hour % 24];
    EnergyReading(now, hour, Jitter(base.load, 0.2, d.load), Jitter(base.temp, 0.1, d.temp),
                  d.ev > 0.6, societyId, transformerId)
  }

  /** The anomaly coin of `detectRisk`: a 10% injection rate. */
  predicate IsAnomaly(d: RiskDraws) {
    d.anomaly < 0.1
  }

  function Utilization(reading: EnergyReading, capacity: real): (u: real)
    requires capacity > 0.0
  {
    reading.loadKw / capacity
  }

  /** The classifier: CRITICAL above 90% utilization, else HIGH on an anomaly
      or above 75%, else NORMAL. */
  function DetectRisk(reading: EnergyReading, capacity: real, d: RiskDraws): (a: AnomalyResult)
    requires capacity > 0.0
    ensures a.timestamp == reading.timestamp
    ensures a.societyId == reading.societyId && a.transformerId == reading.transformerId
    ensures var u := Utilization(reading, capacity);
            u > 0.9 ==> a.riskLevel == Critical && a.riskReason == AtCapacity(u * 100.0)
    ensures var u := Utilization(reading, capacity);
            u <= 0.9 && (IsAnomaly(d) || u > 0.75) ==>
              a.riskLevel == High &&
              a.riskReason == (if IsAnomaly(d) then IsolationForest else ApproachingThreshold(u * 100.0))
    ensures var u := Utilization(reading, capacity);
            u <= 0.75 && !IsAnomaly(d) ==> a.riskLevel == Normal && a.riskReason == WithinNormal
    ensures d.Valid() ==>
              (a.riskLevel == Critical ==> 0.85 <= a.anomalyScore < 1.0) &&
              (a.riskLevel == High ==> 0.5 <= a.anomalyScore < 0.85) &&
              (a.riskLevel == Normal ==> 0.0 <= a.anomalyScore < 0.3)
    ensures var p := Utilization(reading, capacity) * 100.0 + (if IsAnomaly(d) then 15.0 else 0.0);
            a.overloadProbability <= 100.0 && a.overloadProbability <= p &&
            (a.overloadProbability == 100.0 || a.overloadProbability == p)
    ensures reading.loadKw >= 0.0 ==> a.overloadProbability >= 0.0
  {
    var utilization := reading.loadKw / capacity;
    var isAnomaly := d.anomaly < 0.1;
    var (level, reason, score) :=
      if utilization > 0.9 then
        (Critical, AtCapacity(utilization * 100.0), 0.85 + d.levelScore * 0.15)
      else if isAnomaly || utilization > 0.75 then
        (High, if isAnomaly then IsolationForest else ApproachingThreshold(utilization * 100.0),
         0.5 + d.levelScore * 0.35)
      else
        (Normal, WithinNormal, d.baseScore * 0.3);
    AnomalyResult(reading.timestamp, score, level, reason,
                  Min(utilization * 100.0 + (if isAnomaly then 15.0 else 0.0), 100.0),
                  reading.societyId, reading.transformerId)
  }

  /** With the draws fixed, the level never drops as the load grows. */
  lemma DetectRiskMonotone(r1: EnergyReading, r2: EnergyReading, capacity: real, d: RiskDraws)
    requires capacity > 0.0 && r1.loadKw <= r2.loadKw
    ensures Rank(DetectRisk(r1, capacity, d).riskLevel) <= Rank(DetectRisk(r2, capacity, d).riskLevel)
  {
    DivideMonotone(r1.loadKw, r2.loadKw, capacity);
  }

  lemma DivideMonotone(x: real, y: real, c: real)
    requires c > 0.0 && x <= y
    ensures x / c <= y / c
  {
    assert y / c - x / c == (y - x) / c;
  }

  const TransformerNames: seq<string> := ["T1", "T2", "T3"]

  /** `${societyId}-t${i+1}` for the three transformers. */
  function TransformerId(societyId: string, i: nat): (id: string)
    requires i < 3
  {
    societyId + "-t" + ["123"[i]]
  }

  /** The three transformer ids of a society are distinct and all begin
      with `<society>-t`. */
  lemma TransformerIdsDistinct(societyId: string, i: nat, j: nat)
    requires i < 3 && j < 3
    ensures TransformerId(societyId, i)[..|societyId| + 2] == societyId + "-t"
    ensures TransformerId(societyId, i) == TransformerId(societyId, j) <==> i == j
  {
    var a, b := TransformerId(societyId, i), TransformerId(societyId, j);
    assert a[|societyId| + 2] == "123"[i] && b[|societyId| + 2] == "123"[j];
  }

  /** The status of transformer `i`, built from one reading and its risk. */
  function StatusOf(societyId: string, capacity: real, i: nat, reading: EnergyReading,
                    risk: AnomalyResult): (t: TransformerStatus)
    requires capacity > 0.0 && i < 3
  {
    TransformerStatus(TransformerId(societyId, i), societyId, TransformerNames[i],
                      reading.loadKw, capacity, Min(reading.loadKw / capacity * 100.0, 100.0),
                      risk.riskLevel, reading.temperature)
  }

  /** A status whose level agrees with its (clamped) utilization percentage. */
  predicate Consistent(t: TransformerStatus) {
    (t.riskLevel == Critical <==> t.utilizationPercent > 90.0) &&
    (t.utilizationPercent > 75.0 ==> t.riskLevel != Normal)
  }

  function GetTransformerStatuses(societyId: string, capacity: real, hour: nat, now: int,
                                  draws: seq<TransformerDraws>): (ts: seq<TransformerStatus>)
    requires capacity > 0.0 && |draws| == 3
    ensures |ts| == 3
    ensures forall i :: 0 <= i < 3 ==>
              var reading := GenerateLiveReading(societyId, TransformerId(societyId, i), hour, now, draws[i].reading);
              ts[i].id == TransformerId(societyId, i) && ts[i].name == TransformerNames[i] &&
              ts[i].societyId == societyId && ts[i].capacity == capacity &&
              ts[i].currentLoad == reading.loadKw && ts[i].temperature == reading.temperature &&
              ts[i].riskLevel == DetectRisk(reading, capacity, draws[i].risk).riskLevel
    ensures forall i :: 0 <= i < 3 ==>
              ts[i].utilizationPercent <= 100.0 &&
              ts[i].utilizationPercent <= ts[i].currentLoad / capacity * 100.0 &&
              (ts[i].utilizationPercent == 100.0 || ts[i].utilizationPercent == ts[i].currentLoad / capacity * 100.0)
    ensures forall i :: 0 <= i < 3 ==> Consistent(ts[i])
    ensures forall i :: 0 <= i < 3 && draws[i].reading.Valid() ==> ts[i].utilizationPercent >= 0.0
  {
    seq(3, i requires 0 <= i < 3 =>
      var reading := GenerateLiveReading(societyId, TransformerId(societyId, i), hour, now, draws[i].reading);
      StatusOf(societyId, capacity, i, reading, DetectRisk(reading, capacity, draws[i].risk)))
  }

  /** The 24 readings of the embedded table, one hour apart, the last at `now`. */
  function Get24HourData(societyId: string, now: int, draws: seq<real>): (rs: seq<EnergyReading>)
    requires |draws| == |RawData|
    ensures |rs| == 24
    ensures forall i :: 0 <= i < 24 ==>
              rs[i].hour == i && rs[i].evCharging == (RawData[i].ev == 1) &&
              rs[i].temperature == RawData[i].temp &&
              rs[i].societyId == societyId && rs[i].transformerId == societyId + "-t1"
    ensures rs[23].timestamp == now
    ensures forall i :: 0 < i < 24 ==> rs[i].timestamp == rs[i - 1].timestamp + 3600000
    ensures forall i :: 0 <= i < 24 && InUnit(draws[i]) ==>
              0.9 * RawData[i].load <= rs[i].loadKw < 1.1 * RawData[i].load
  {
    RawDataFacts();
    seq(|RawData|, i requires 0 <= i < |RawData| =>
      EnergyReading(now - (23 - i) * 3600000, RawData[i].hour, Jitter(RawData[i].load, 0.1, draws[i]),
                    RawData[i].temp, RawData[i].ev == 1, societyId, societyId + "-t1"))
  }

  /** `SOCIETIES.find(s => s.id === id) || SOCIETIES[0]`. */
  function FindSociety(id: string): (s: Society)
    ensures s in Societies
    ensures (exists i :: 0 <= i < |Societies| && Societies[i].id == id) ==> s.id == id
    ensures (forall i :: 0 <= i < |Societies| ==> Societies[i].id != id) ==> s == Societies[0]
    ensures s.transformerCapacity > 0.0
  {
    SocietiesFacts();
    FindSocietyIn(Societies, id).GetOr(Societies[0])
  }

  function FindSocietyIn(socs: seq<Society>, id: string): (r: Option<Society>)
    ensures r.Some? ==> exists i :: 0 <= i < |socs| && socs[i] == r.value && r.value.id == id &&
                                    forall j :: 0 <= j < i ==> socs[j].id != id
    ensures r.None? ==> forall i :: 0 <= i < |socs| ==> socs[i].id != id
  {
    if socs == [] then None
    else if socs[0].id == id then Some(socs[0])
    else FindSocietyIn(socs[1..], id)
  }
}
