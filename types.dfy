/** The domain records of the grid dashboard (src/lib/types.ts). Numbers of
    the source are JavaScript doubles; here they are exact `real`s, because
    everything computed on them is comparisons and linear formulas. */
module Types {

  datatype Option<T> = None | Some(value: T) {
    function GetOr(default: T): T {
      match this
      case Some(v) => v
      case None => default
    }
  }

  /** Risk levels, ordered NORMAL < HIGH < CRITICAL by `Rank`. */
  datatype RiskLevel = Normal | High | Critical

  function Rank(l: RiskLevel): nat {
    match l
    case Normal => 0
    case High => 1
    case Critical => 2
  }

  datatype Role = Owner | Admin | Resident

  datatype User = User(id: string, name: string, email: string, role: Role,
                       societyId: Option<string>, flatNumber: Option<string>)

  datatype Society = Society(id: string, name: string, location: string,
                             transformerCapacity: real, householdCount: nat,
                             transformerCount: nat)

  /** One telemetry sample; `timestamp` is in milliseconds. */
  datatype EnergyReading = EnergyReading(timestamp: int, hour: nat, loadKw: real,
                                         temperature: real, evCharging: bool,
                                         societyId: string, transformerId: string)

  /** The reason texts of the classifier. The two formatted ones carry the
      utilization percentage they print, unformatted. */
  datatype RiskReason =
    | WithinNormal                          // 'Load within normal parameters'
    | AtCapacity(percent: real)             // 'Transformer at N% capacity - immediate attention required'
    | IsolationForest                       // 'Anomalous load pattern detected by Isolation Forest'
    | ApproachingThreshold(percent: real)   // 'Load approaching threshold at N%'
    | ManualSimulation                      // 'Manually triggered anomaly simulation'

  datatype AnomalyResult = AnomalyResult(timestamp: int, anomalyScore: real,
                                         riskLevel: RiskLevel, riskReason: RiskReason,
                                         overloadProbability: real,
                                         societyId: string, transformerId: string)

  datatype TransformerStatus = TransformerStatus(id: string, societyId: string, name: string,
                                                 currentLoad: real, capacity: real,
                                                 utilizationPercent: real, riskLevel: RiskLevel,
                                                 temperature: real)

  /** What a risk card shows: a number and a level. */
  datatype Card = Card(value: real, level: RiskLevel)

  function Min(a: real, b: real): real {
    if a <= b then a else b
  }

  function Max(a: real, b: real): real {
    if a <= b then b else a
  }
}
