/** The grid owner's view (src/pages/OwnerDashboard.tsx): every society's
    statuses refreshed each tick into one record, the network-wide counts and
    cards, one tile per society and the selected society. */
module OwnerDashboard {
  import opened Types
  import MockData
  import Aggregates
  import StatusRecord

  /** `SOCIETIES.reduce((sum, s) => sum + s.transformerCount, 0)`. */
  function TotalTransformers(socs: seq<Society>): (n: nat) {
    if socs == [] then 0 else socs[0].transformerCount + TotalTransformers(socs[1..])
  }

  lemma TotalTransformersOfTable()
    ensures TotalTransformers(MockData.Societies) == 15
  {
    var s := MockData.Societies;
    assert s[1..][1..][1..][1..][1..] == [];
  }

  /** The draws one refresh consumes: three transformers per society. */
  predicate DrawsFit(draws: seq<seq<MockData.TransformerDraws>>) {
    |draws| == |MockData.Societies| && forall i :: 0 <= i < |draws| ==> |draws[i]| == 3
  }

  /** The record a refresh builds from the first `n` societies. */
  function SnapshotUpTo(hour: nat, now: int, draws: seq<seq<MockData.TransformerDraws>>, n: nat): (rec: StatusRecord.Record)
    requires DrawsFit(draws) && n <= |MockData.Societies|
    ensures |rec| == n
    ensures forall i :: 0 <= i < n ==> rec[i].key == MockData.Societies[i].id
  {
    MockData.SocietiesFacts();
    seq(n, i requires 0 <= i < n =>
      StatusRecord.Entry(MockData.Societies[i].id,
        MockData.GetTransformerStatuses(MockData.Societies[i].id, MockData.Societies[i].transformerCapacity,
                                        hour, now, draws[i])))
  }

  function Snapshot(hour: nat, now: int, draws: seq<seq<MockData.TransformerDraws>>): (rec: StatusRecord.Record)
    requires DrawsFit(draws)
  {
    SnapshotUpTo(hour, now, draws, |MockData.Societies|)
  }

  /** A refresh has one entry per society id, holding that society's statuses. */
  lemma SnapshotLookup(hour: nat, now: int, draws: seq<seq<MockData.TransformerDraws>>, i: nat)
    requires DrawsFit(draws) && i < |MockData.Societies|
    ensures StatusRecord.Lookup(Snapshot(hour, now, draws), MockData.Societies[i].id) ==
            Some(MockData.GetTransformerStatuses(MockData.Societies[i].id, MockData.Societies[i].transformerCapacity,
                                                 hour, now, draws[i]))
  {
    MockData.SocietiesFacts();
    var rec := Snapshot(hour, now, draws);
    var r := StatusRecord.Lookup(rec, MockData.Societies[i].id);
    assert rec[i].key == MockData.Societies[i].id;
    var k :| 0 <= k < |rec| && rec[k].key == MockData.Societies[i].id && rec[k].statuses == r.value &&
             forall j :: 0 <= j < k ==> rec[j].key != MockData.Societies[i].id;
    assert k == i;
  }

  /** The flattened refresh holds exactly as many statuses as the table has
      transformers: 15. */
  lemma {:induction false} SnapshotFlatLength(hour: nat, now: int, draws: seq<seq<MockData.TransformerDraws>>)
    requires DrawsFit(draws)
    ensures |StatusRecord.Flat(Snapshot(hour, now, draws))| == TotalTransformers(MockData.Societies) == 15
  {
    var rec := Snapshot(hour, now, draws);
    StatusRecord.FlatLength(rec);
    TotalTransformersOfTable();
    StatusRecord.TotalLengthUniform(rec, 3);
  }

  class OwnerState {
    var allStatuses: StatusRecord.Record
    var selectedSociety: string

    constructor ()
      ensures allStatuses == [] && selectedSociety == "s1"
    {
      allStatuses := [];
      selectedSociety := "s1";
    }

    /** One refresh: `statuses[s.id] = getTransformerStatuses(...)` for every society. */
    method Update(hour: nat, now: int, draws: seq<seq<MockData.TransformerDraws>>)
      requires DrawsFit(draws)
      modifies this
      ensures allStatuses == Snapshot(hour, now, draws)
      ensures StatusRecord.DistinctKeys(allStatuses)
      ensures selectedSociety == old(selectedSociety)
    {
      MockData.SocietiesFacts();
      var statuses: StatusRecord.Record := [];
      for i := 0 to |MockData.Societies|
        invariant statuses == SnapshotUpTo(hour, now, draws, i)
        invariant StatusRecord.DistinctKeys(statuses)
        invariant selectedSociety == old(selectedSociety)
      {
        var s := MockData.Societies[i];
        assert !StatusRecord.HasKey(statuses, s.id);
        StatusRecord.PutDistinct(statuses, s.id, MockData.GetTransformerStatuses(s.id, s.transformerCapacity, hour, now, draws[i]));
        statuses := StatusRecord.Put(statuses, s.id, MockData.GetTransformerStatuses(s.id, s.transformerCapacity, hour, now, draws[i]));
      }
      allStatuses := statuses;
    }

    method Select(id: string)
      modifies this
      ensures selectedSociety == id && allStatuses == old(allStatuses)
    {
      selectedSociety := id;
    }
  }

  /** The overall level: CRITICAL if any status is CRITICAL, else HIGH when
      more than two are HIGH, else NORMAL. */
  function OverallRisk(ts: seq<TransformerStatus>): (l: RiskLevel)
    ensures l == Critical <==> Aggregates.WorstRisk(ts) == Critical
    ensures l == High <==> Aggregates.WorstRisk(ts) == High && Aggregates.CountLevel(ts, High) > 2
    ensures Rank(l) <= Rank(Aggregates.WorstRisk(ts))
  {
    var criticalCount := Aggregates.CountLevel(ts, Critical);
    var highCount := Aggregates.CountLevel(ts, High);
    if criticalCount > 0 then Critical else if highCount > 2 then High else Normal
  }

  /** The overall level stays NORMAL while exactly two transformers are HIGH
      and none is CRITICAL, although the worst level is HIGH. */
  lemma OverallRiskIgnoresTwoHigh(ts: seq<TransformerStatus>)
    requires Aggregates.CountLevel(ts, Critical) == 0 && Aggregates.CountLevel(ts, High) == 2
    ensures OverallRisk(ts) == Normal && Aggregates.WorstRisk(ts) == High
  {
    var i :| 0 <= i < |ts| && ts[i].riskLevel == High;
    assert Rank(Aggregates.WorstRisk(ts)) >= Rank(ts[i].riskLevel);
  }

  /** The "Blackout Probability" card: 23.5 when some status is CRITICAL,
      else 4.2, with the overall level. */
  function BlackoutCard(ts: seq<TransformerStatus>): (c: Card)
    ensures c.level == OverallRisk(ts)
    ensures c.value == if c.level == Critical then 23.5 else 4.2
  {
    Card(if Aggregates.CountLevel(ts, Critical) > 0 then 23.5 else 4.2, OverallRisk(ts))
  }

  /** The "Anomaly Rate" card: HIGH and CRITICAL statuses together, HIGH
      when more than one is HIGH. */
  function AnomalyRateCard(ts: seq<TransformerStatus>): (c: Card)
    ensures c.value == (Aggregates.CountLevel(ts, High) + Aggregates.CountLevel(ts, Critical)) as real
    ensures 0.0 <= c.value <= |ts| as real
    ensures c.level == High <==> Aggregates.CountLevel(ts, High) > 1
    ensures c.level != Critical
  {
    Aggregates.CountCriticalHigh(ts);
    Card((Aggregates.CountLevel(ts, High) + Aggregates.CountLevel(ts, Critical)) as real,
         if Aggregates.CountLevel(ts, High) > 1 then High else Normal)
  }

  /** The "Grid Headroom" card: what is left of 100% at the mean
      utilization; CRITICAL above 80% mean, HIGH above 65%. */
  function HeadroomCard(ts: seq<TransformerStatus>): (c: Card)
    ensures Aggregates.UtilInRange(ts) ==> 0.0 <= c.value <= 100.0
    ensures c.value + Aggregates.MeanUtil(ts) == 100.0
    ensures c.level == Critical <==> c.value < 20.0
    ensures c.level == High <==> 20.0 <= c.value < 35.0
    ensures c.level == Normal <==> c.value >= 35.0
  {
    var avg := Aggregates.MeanUtil(ts);
    Aggregates.MeanUtilBounds(ts);
    Card(100.0 - avg, if avg > 80.0 then Critical else if avg > 65.0 then High else Normal)
  }

  /** One society tile: its worst level and mean utilization; a society
      without statuses shows NORMAL and 0. */
  datatype Tile = Tile(worstRisk: RiskLevel, avgLoad: real)

  function SocietyTile(rec: StatusRecord.Record, s: Society): (t: Tile)
    ensures var ts := StatusRecord.GetOrEmpty(rec, s.id);
            t.worstRisk == Aggregates.WorstRisk(ts) && t.avgLoad == Aggregates.MeanUtil(ts)
    ensures !StatusRecord.HasKey(rec, s.id) ==> t == Tile(Normal, 0.0)
  {
    var statuses := StatusRecord.GetOrEmpty(rec, s.id);
    Tile(Aggregates.WorstRisk(statuses), Aggregates.MeanUtil(statuses))
  }

  /** The statuses of the selected society, or none when it has no entry. */
  function SelectedStatuses(rec: StatusRecord.Record, id: string): (ts: seq<TransformerStatus>)
    ensures !StatusRecord.HasKey(rec, id) ==> ts == []
    ensures StatusRecord.HasKey(rec, id) ==> StatusRecord.Lookup(rec, id) == Some(ts)
  {
    StatusRecord.GetOrEmpty(rec, id)
  }
}
