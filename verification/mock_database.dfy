/** The scan orchestrator and the store operations (services/mockDatabase.ts).
    The store is a value: a scan takes the current snapshot and returns the
    snapshot to keep together with the report; a reset returns the seed.
    The reference day, the report timestamp and the model's reply are inputs. */
module MockDatabase {
  import opened Wrappers
  import opened Types
  import opened Classifier
  import opened ChangeDetector
  import opened GeminiService
  import opened Constants
  import opened Stats
  import Decimal

  /** Advice for one record: the model's entry for its id when that entry is
      non-empty, the fallback advice for its new tier otherwise. */
  function ActionFor(u: ScanResultDetail, actions: map<int, string>): (r: string)
    ensures r != ""
    ensures u.materialId in actions && actions[u.materialId] != "" ==> r == actions[u.materialId]
    ensures u.materialId !in actions || actions[u.materialId] == "" ==>
      r == DefaultAction(StatusName(u.newStatus), u.daysUntilExpiry)
  {
    var advised := if u.materialId in actions then actions[u.materialId] else "";
    if advised != "" then advised else DefaultAction(StatusName(u.newStatus), u.daysUntilExpiry)
  }

  /** Replaces the placeholder of every pending record with its advice,
      keeping every other field, the number of records and their order. */
  function MergeActions(pending: seq<ScanResultDetail>, actions: map<int, string>): (r: seq<ScanResultDetail>)
    ensures |r| == |pending|
    ensures forall k :: 0 <= k < |r| ==> r[k].(actionNeeded := pending[k].actionNeeded) == pending[k]
    ensures forall k :: 0 <= k < |r| ==> r[k].actionNeeded != ""
    ensures forall k :: 0 <= k < |r| ==>
      var id := pending[k].materialId;
      if id in actions && actions[id] != "" then r[k].actionNeeded == actions[id]
      else r[k].actionNeeded == DefaultAction(StatusName(pending[k].newStatus), pending[k].daysUntilExpiry)
  {
    seq(|pending|, k requires 0 <= k < |pending| => pending[k].(actionNeeded := ActionFor(pending[k], actions)))
  }

  /** With no advice from the model every record gets its fallback advice. */
  lemma MergeWithoutAdvice(pending: seq<ScanResultDetail>)
    ensures forall k :: 0 <= k < |pending| ==>
      MergeActions(pending, map[])[k].actionNeeded ==
        DefaultAction(StatusName(pending[k].newStatus), pending[k].daysUntilExpiry)
  {
  }

  /** Advice keyed by the decimal text of an id reaches the record with that id. */
  lemma MergeUsesAdviceForRenderedId(pending: seq<ScanResultDetail>, entries: seq<(string, string)>,
                                     k: int, advice: string)
    requires 0 <= k < |pending| && 0 <= pending[k].materialId && advice != ""
    requires |entries| > 0
    requires entries[|entries| - 1] == (Decimal.NatToString(pending[k].materialId), advice)
    ensures MergeActions(pending, NormalizeActionItems(entries))[k].actionNeeded == advice
  {
    var id := pending[k].materialId;
    ParseKeyOfRendered(id);
    var last := entries[|entries| - 1];
    assert ParseKey(last.0) == Some(id);
    var advised := NormalizeActionItems(entries);
    assert id in advised && advised[id] == advice;
  }

  /** What one scan leaves behind: the snapshot to store and the report. */
  datatype ScanOutcome = ScanOutcome(store: seq<Material>, report: ScanResult)

  /** One daily scan: the reclassified snapshot to store, and the report
      whose records carry the model's advice or the fallback advice. */
  function RunDailyScan(store: seq<Material>, today: int, timestamp: string, reply: GeminiReply,
                        parse: string -> Option<JsonValue>): (r: ScanOutcome)
    ensures |r.store| == |store|
    ensures forall i :: 0 <= i < |store| ==> r.store[i] == Reclassified(store[i], today)
    ensures r.report.scanTimestamp == timestamp
    ensures r.report.materialsScanned == |store|
    ensures r.report.summary != ""
    ensures |r.report.materialsUpdated| == |PendingChanges(store, today)|
    ensures forall k :: 0 <= k < |r.report.materialsUpdated| ==>
      var u := r.report.materialsUpdated[k];
      u == PendingChanges(store, today)[k].(actionNeeded := u.actionNeeded) && u.actionNeeded != ""
    ensures var ai := GenerateScanSummary(|store|, PendingChanges(store, today), reply, parse);
      && r.report.summary == ai.summary
      && forall k :: 0 <= k < |r.report.materialsUpdated| ==>
        var u := r.report.materialsUpdated[k];
        u.actionNeeded == if u.materialId in ai.actionItems && ai.actionItems[u.materialId] != ""
                          then ai.actionItems[u.materialId]
                          else DefaultAction(StatusName(u.newStatus), u.daysUntilExpiry)
  {
    var detection := Detect(store, today);
    var scannedCount := |store|;
    var ai := GenerateScanSummary(scannedCount, detection.changes, reply, parse);
    var updates := MergeActions(detection.changes, ai.actionItems);
    ScanOutcome(detection.snapshot, ScanResult(timestamp, scannedCount, updates, ai.summary))
  }

  /** The stored snapshot is the same whatever the model replies and
      whenever the report is stamped. */
  lemma StoredSnapshotIgnoresReply(store: seq<Material>, today: int, t1: string, t2: string,
                                   a: GeminiReply, b: GeminiReply,
                                   pa: string -> Option<JsonValue>, pb: string -> Option<JsonValue>)
    ensures RunDailyScan(store, today, t1, a, pa).store == RunDailyScan(store, today, t2, b, pb).store
  {
  }

  /** A second scan on the same day reports nothing and stores the same
      snapshot; with a client available its summary is the no-change one. */
  lemma RescanOnSameDayIsQuiet(store: seq<Material>, today: int, t1: string, t2: string,
                               a: GeminiReply, b: GeminiReply,
                               pa: string -> Option<JsonValue>, pb: string -> Option<JsonValue>)
    ensures var first := RunDailyScan(store, today, t1, a, pa);
      var second := RunDailyScan(first.store, today, t2, b, pb);
      && second.report.materialsUpdated == []
      && second.store == first.store
      && (!b.ClientMissing? ==> second.report.summary == NoChangesSummary(|store|))
  {
    DetectIsIdempotent(store, today);
  }

  /** Without the model (no API key, or a failed call) every record carries
      its fallback advice and the summary says why the analysis is missing. */
  lemma ScanWithoutModel(store: seq<Material>, today: int, timestamp: string, reply: GeminiReply,
                         parse: string -> Option<JsonValue>)
    requires reply.ClientMissing? || reply.CallFails?
    ensures var r := RunDailyScan(store, today, timestamp, reply, parse);
      var n := |PendingChanges(store, today)|;
      && (forall u :: u in r.report.materialsUpdated ==>
            u.actionNeeded == DefaultAction(StatusName(u.newStatus), u.daysUntilExpiry))
      && (reply.ClientMissing? ==> r.report.summary == FallbackSummary(|store|, n, ApiKeyMissing))
      && (reply.CallFails? && n > 0 ==>
            r.report.summary == FallbackSummary(|store|, n, MessageOf(reply.thrown)))
  {
  }

  /** After a scan no stored tier is UNKNOWN, so the three tier counters of
      the dashboard add up to its total. */
  lemma ScannedStoreIsFullyCounted(store: seq<Material>, today: int, timestamp: string,
                                   reply: GeminiReply, parse: string -> Option<JsonValue>)
    ensures var s := CalculateStats(RunDailyScan(store, today, timestamp, reply, parse).store);
      s.safe + s.warning + s.expired == s.total
  {
    var stored := RunDailyScan(store, today, timestamp, reply, parse).store;
    var tiers := StatusesOf(stored);
    assert UNKNOWN !in tiers by {
      forall i | 0 <= i < |tiers|
        ensures tiers[i] != UNKNOWN
      {
        assert stored[i] == Reclassified(store[i], today);
      }
    }
    TallyPartition(tiers);
  }

  /** Restores the seed snapshot, whatever the store held. */
  function ResetMockData(store: seq<Material>, loadDay: int): (r: seq<Material>)
    ensures r == MockMaterials(loadDay)
  {
    MockMaterials(loadDay)
  }

  /** Resetting twice is resetting once, and a reset forgets every scan. */
  lemma ResetIsIdempotent(store: seq<Material>, loadDay: int, today: int, timestamp: string,
                          reply: GeminiReply, parse: string -> Option<JsonValue>)
    ensures ResetMockData(ResetMockData(store, loadDay), loadDay) == ResetMockData(store, loadDay)
    ensures ResetMockData(RunDailyScan(store, today, timestamp, reply, parse).store, loadDay)
      == ResetMockData(store, loadDay)
  {
  }
}
