/** The records of the compliance tracker (types.ts): risk tiers, tracked
    materials, per-item change records, scan reports and dashboard counters. */
module Types {

  /** Risk tier of a material. UNKNOWN is a legal stored value that the
      classifier never produces. */
  datatype Status = SAFE | WARNING | EXPIRED | UNKNOWN

  /** The string value each tier carries at run time. */
  function StatusName(s: Status): (r: string)
  {
    match s
    case SAFE => "SAFE"
    case WARNING => "WARNING"
    case EXPIRED => "EXPIRED"
    case UNKNOWN => "UNKNOWN"
  }

  /** Distinct tiers have distinct run-time names, so comparing names is
      comparing tiers. */
  lemma StatusNameInjective(a: Status, b: Status)
    ensures StatusName(a) == StatusName(b) <==> a == b
  {
  }

  /** A tracked raw material. The ISO expiry date is represented by the
      number of the day it falls on. */
  datatype Material = Material(
    materialId: int,
    outletId: int,
    name: string,
    supplier: string,
    category: string,
    isCritical: bool,
    agentStatus: Status,
    halalCertificateId: string,
    expiryDay: int)

  /** One detected tier transition. */
  datatype ScanResultDetail = ScanResultDetail(
    materialId: int,
    materialName: string,
    oldStatus: Status,
    newStatus: Status,
    daysUntilExpiry: int,
    actionNeeded: string)

  /** The report one scan returns. */
  datatype ScanResult = ScanResult(
    scanTimestamp: string,
    materialsScanned: nat,
    materialsUpdated: seq<ScanResultDetail>,
    summary: string)

  /** Dashboard counters. */
  datatype DashboardStats = DashboardStats(total: nat, safe: nat, warning: nat, expired: nat)
}
