/** The dashboard tally (App.tsx): a left fold over the stored tiers that
    counts every material and the SAFE, WARNING and EXPIRED ones. */
module Stats {
  import opened Types

  const Zero: DashboardStats := DashboardStats(0, 0, 0, 0)

  /** One step of the fold: count the material and bump the counter of its
      tier; an UNKNOWN tier bumps none. */
  function CountOne(acc: DashboardStats, s: Status): (r: DashboardStats)
    ensures r.total == acc.total + 1
    ensures r.safe == acc.safe + (if s == SAFE then 1 else 0)
    ensures r.warning == acc.warning + (if s == WARNING then 1 else 0)
    ensures r.expired == acc.expired + (if s == EXPIRED then 1 else 0)
  {
    var counted := acc.(total := acc.total + 1);
    match s
    case SAFE => counted.(safe := counted.safe + 1)
    case WARNING => counted.(warning := counted.warning + 1)
    case EXPIRED => counted.(expired := counted.expired + 1)
    case UNKNOWN => counted
  }

  /** The fold from the all-zero accumulator, left to right. */
  function Tally(statuses: seq<Status>): (r: DashboardStats)
    ensures r.total == |statuses|
    ensures r.safe == multiset(statuses)[SAFE]
    ensures r.warning == multiset(statuses)[WARNING]
    ensures r.expired == multiset(statuses)[EXPIRED]
    decreases |statuses|
  {
    if |statuses| == 0 then Zero
    else
      var n := |statuses|;
      assert statuses == statuses[..n - 1] + [statuses[n - 1]];
      CountOne(Tally(statuses[..n - 1]), statuses[n - 1])
  }

  /** The stored tiers of a snapshot, in order. */
  function StatusesOf(data: seq<Material>): (r: seq<Status>)
    ensures |r| == |data| && forall i :: 0 <= i < |data| ==> r[i] == data[i].agentStatus
  {
    seq(|data|, i requires 0 <= i < |data| => data[i].agentStatus)
  }

  /** The counters shown for a snapshot. */
  function CalculateStats(data: seq<Material>): (r: DashboardStats)
    ensures r.total == |data|
    ensures r.safe == multiset(StatusesOf(data))[SAFE]
    ensures r.warning == multiset(StatusesOf(data))[WARNING]
    ensures r.expired == multiset(StatusesOf(data))[EXPIRED]
    ensures r.safe + r.warning + r.expired <= r.total
  {
    TallyPartition(StatusesOf(data));
    Tally(StatusesOf(data))
  }

  /** Every tier is counted by exactly one of the four tier counts. */
  lemma {:induction false} TierCountsPartition(statuses: seq<Status>)
    ensures multiset(statuses)[SAFE] + multiset(statuses)[WARNING] + multiset(statuses)[EXPIRED]
      + multiset(statuses)[UNKNOWN] == |statuses|
    decreases |statuses|
  {
    if |statuses| > 0 {
      var n := |statuses|;
      var init, last := statuses[..n - 1], statuses[n - 1];
      assert statuses == init + [last];
      assert multiset(statuses) == multiset(init) + multiset{last};
      TierCountsPartition(init);
      var m, mi := multiset(statuses), multiset(init);
      match last
      case SAFE => assert m[SAFE] == mi[SAFE] + 1 && m[WARNING] == mi[WARNING] && m[EXPIRED] == mi[EXPIRED] && m[UNKNOWN] == mi[UNKNOWN];
      case WARNING => assert m[WARNING] == mi[WARNING] + 1 && m[SAFE] == mi[SAFE] && m[EXPIRED] == mi[EXPIRED] && m[UNKNOWN] == mi[UNKNOWN];
      case EXPIRED => assert m[EXPIRED] == mi[EXPIRED] + 1 && m[SAFE] == mi[SAFE] && m[WARNING] == mi[WARNING] && m[UNKNOWN] == mi[UNKNOWN];
      case UNKNOWN => assert m[UNKNOWN] == mi[UNKNOWN] + 1 && m[SAFE] == mi[SAFE] && m[WARNING] == mi[WARNING] && m[EXPIRED] == mi[EXPIRED];
    }
  }

  /** The three tier counters never exceed the total, and they add up to it
      exactly when no tier is UNKNOWN. */
  lemma TallyPartition(statuses: seq<Status>)
    ensures var r := Tally(statuses);
      r.safe + r.warning + r.expired <= r.total
      && (r.safe + r.warning + r.expired == r.total <==> UNKNOWN !in statuses)
  {
    TierCountsPartition(statuses);
  }

  /** The fold over a concatenation adds the folds of the parts. */
  lemma TallyAppend(a: seq<Status>, b: seq<Status>)
    ensures var ab, ra, rb := Tally(a + b), Tally(a), Tally(b);
      ab == DashboardStats(ra.total + rb.total, ra.safe + rb.safe, ra.warning + rb.warning,
                           ra.expired + rb.expired)
  {
    assert multiset(a + b) == multiset(a) + multiset(b);
  }

  /** Adding one material bumps the total and at most one tier counter, the
      one matching its tier. */
  lemma TallyOneMore(statuses: seq<Status>, s: Status)
    ensures var before, after := Tally(statuses), Tally(statuses + [s]);
      && after.total == before.total + 1
      && after.safe == before.safe + (if s == SAFE then 1 else 0)
      && after.warning == before.warning + (if s == WARNING then 1 else 0)
      && after.expired == before.expired + (if s == EXPIRED then 1 else 0)
  {
    assert multiset(statuses + [s]) == multiset(statuses) + multiset{s};
  }
}
