/** The first scan of the seed snapshot on the day the seed is built
    (constants.ts with services/mockDatabase.ts). */
module SeedScenario {
  import opened Wrappers
  import opened Types
  import opened Classifier
  import opened ChangeDetector
  import opened GeminiService
  import opened Constants
  import opened MockDatabase
  import opened Stats
  import Decimal

  /** The pending records of the first pass over the seed: 102, 103, 104 and
      107 move, in that order; 101 and 105 stay SAFE and 106 stays WARNING. */
  lemma {:induction false} SeedPendingChanges(loadDay: int)
    ensures PendingChanges(MockMaterials(loadDay), loadDay) == [
      ScanResultDetail(102, "Ground Beef Grade A", SAFE, WARNING, 8, Placeholder),
      ScanResultDetail(103, "Dark Chocolate Compound", SAFE, WARNING, 20, Placeholder),
      ScanResultDetail(104, "Heavy Cream", SAFE, EXPIRED, -2, Placeholder),
      ScanResultDetail(107, "Mozzarella Cheese", SAFE, WARNING, 28, Placeholder)]
  {
    var s := MockMaterials(loadDay);
    var d := loadDay;
    var r1, r2, r3, r6 := PendingRecord(s[1], d), PendingRecord(s[2], d), PendingRecord(s[3], d),
                          PendingRecord(s[6], d);
    assert PendingChanges(s[7..], d) == [] by {
      assert s[7..] == [];
    }
    assert PendingChanges(s[6..], d) == [r6] by {
      PendingChangesCons(s[6..], d);
      assert s[6..][1..] == s[7..] && s[6..][0] == s[6];
    }
    assert PendingChanges(s[5..], d) == [r6] by {
      PendingChangesCons(s[5..], d);
      assert s[5..][1..] == s[6..] && s[5..][0] == s[5];
    }
    assert PendingChanges(s[4..], d) == [r6] by {
      PendingChangesCons(s[4..], d);
      assert s[4..][1..] == s[5..] && s[4..][0] == s[4];
    }
    assert PendingChanges(s[3..], d) == [r3, r6] by {
      PendingChangesCons(s[3..], d);
      assert s[3..][1..] == s[4..] && s[3..][0] == s[3];
    }
    assert PendingChanges(s[2..], d) == [r2, r3, r6] by {
      PendingChangesCons(s[2..], d);
      assert s[2..][1..] == s[3..] && s[2..][0] == s[2];
    }
    assert PendingChanges(s[1..], d) == [r1, r2, r3, r6] by {
      PendingChangesCons(s[1..], d);
      assert s[1..][1..] == s[2..] && s[1..][0] == s[1];
    }
    assert PendingChanges(s, d) == [r1, r2, r3, r6] by {
      PendingChangesCons(s, d);
    }
  }

  /** The pending records of the first pass over the seed, with `actions` merged in. */
  lemma SeedMerge(loadDay: int, actions: map<int, string>)
    requires 103 !in actions && 104 !in actions && 107 !in actions
    ensures MergeActions(PendingChanges(MockMaterials(loadDay), loadDay), actions) == [
      ScanResultDetail(102, "Ground Beef Grade A", SAFE, WARNING, 8,
                       if 102 in actions && actions[102] != "" then actions[102] else UrgentRenewal),
      ScanResultDetail(103, "Dark Chocolate Compound", SAFE, WARNING, 20, ScheduleRenewal),
      ScanResultDetail(104, "Heavy Cream", SAFE, EXPIRED, -2, StopUsage),
      ScanResultDetail(107, "Mozzarella Cheese", SAFE, WARNING, 28, ScheduleRenewal)]
  {
    SeedPendingChanges(loadDay);
  }

  /** The first scan of the seed when the model call fails: four records in
      item order with their fallback advice (102 is urgent at 8 days, 104 is
      quarantined at -2 days), and a summary that gives the counts and the
      reason. Item 106, already WARNING, is not reported. */
  lemma SeedFirstScanWithoutModel(loadDay: int, timestamp: string, e: Thrown,
                                  parse: string -> Option<JsonValue>)
    ensures var r := RunDailyScan(MockMaterials(loadDay), loadDay, timestamp, CallFails(e), parse);
      && r.report.materialsScanned == 7
      && r.report.materialsUpdated == [
           ScanResultDetail(102, "Ground Beef Grade A", SAFE, WARNING, 8, "Urgent renewal required."),
           ScanResultDetail(103, "Dark Chocolate Compound", SAFE, WARNING, 20, "Schedule renewal discussion."),
           ScanResultDetail(104, "Heavy Cream", SAFE, EXPIRED, -2, "Stop usage immediately. Quarantine item."),
           ScanResultDetail(107, "Mozzarella Cheese", SAFE, WARNING, 28, "Schedule renewal discussion.")]
      && r.report.summary == FallbackSummary(7, 4, MessageOf(e))
  {
    var seed := MockMaterials(loadDay);
    SeedPendingChanges(loadDay);
    var pending := PendingChanges(seed, loadDay);
    var ai := GenerateScanSummary(7, pending, CallFails(e), parse);
    assert ai == Unavailable(7, 4, MessageOf(e));
    SeedMerge(loadDay, map[]);
  }

  /** The first scan of the seed when the model answers with JSON advising
      only item 102 (and a key that is not an id): 102 takes the advice, the
      others fall back, and the missing summary becomes the default one. */
  lemma SeedFirstScanWithAdvice(loadDay: int, timestamp: string, body: string,
                                parse: string -> Option<JsonValue>)
    requires body != ""
    requires parse(body) == Some(JsonObject(None, [("102", "Call Premium Meats today."), ("abc", "x")]))
    ensures var r := RunDailyScan(MockMaterials(loadDay), loadDay, timestamp, Text(body), parse);
      && r.report.materialsUpdated == [
           ScanResultDetail(102, "Ground Beef Grade A", SAFE, WARNING, 8, "Call Premium Meats today."),
           ScanResultDetail(103, "Dark Chocolate Compound", SAFE, WARNING, 20, "Schedule renewal discussion."),
           ScanResultDetail(104, "Heavy Cream", SAFE, EXPIRED, -2, "Stop usage immediately. Quarantine item."),
           ScanResultDetail(107, "Mozzarella Cheese", SAFE, WARNING, 28, "Schedule renewal discussion.")]
      && r.report.summary == DefaultSummary(4)
  {
    var seed := MockMaterials(loadDay);
    SeedPendingChanges(loadDay);
    var pending := PendingChanges(seed, loadDay);
    var entries := [("102", "Call Premium Meats today."), ("abc", "x")];
    var advice := map[102 := "Call Premium Meats today."];
    assert NormalizeActionItems(entries) == advice by {
      assert ParseKey("abc") == None by {
        assert !Decimal.IsDigit("abc"[0]);
      }
      assert ParseKey("102") == Some(102) by {
        assert "102"[..2] == "10";
        assert "10"[..1] == "1";
        assert "1"[..0] == "";
      }
      assert entries[..1] == [("102", "Call Premium Meats today.")];
      assert entries[..1][..0] == [];
    }
    var ai := GenerateScanSummary(7, pending, Text(body), parse);
    assert ai == AnalysisResult(DefaultSummary(4), advice);
    SeedMerge(loadDay, advice);
  }

  /** The dashboard over the seed shows 7 materials, 6 SAFE and 1 WARNING. */
  lemma SeedDashboardBeforeScan(loadDay: int)
    ensures CalculateStats(MockMaterials(loadDay)) == DashboardStats(7, 6, 1, 0)
  {
    var tiers := [SAFE, SAFE, SAFE, SAFE, SAFE, WARNING, SAFE];
    assert StatusesOf(MockMaterials(loadDay)) == tiers;
    assert multiset(tiers) == multiset{SAFE, SAFE, SAFE, SAFE, SAFE, SAFE, WARNING};
  }

  /** The tiers stored by the first pass over the seed on its own day. */
  lemma SeedSnapshotTiers(loadDay: int)
    ensures StatusesOf(Snapshot(MockMaterials(loadDay), loadDay))
      == [SAFE, WARNING, WARNING, EXPIRED, SAFE, WARNING, WARNING]
  {
    var seed := MockMaterials(loadDay);
    var stored := Snapshot(seed, loadDay);
    var tiers := [SAFE, WARNING, WARNING, EXPIRED, SAFE, WARNING, WARNING];
    forall i | 0 <= i < 7
      ensures stored[i].agentStatus == tiers[i]
    {
      assert stored[i] == Reclassified(seed[i], loadDay);
    }
  }

  /** After the first scan on the seed's day the dashboard shows 2 SAFE,
      4 WARNING and 1 EXPIRED out of 7. */
  lemma SeedDashboardAfterScan(loadDay: int, timestamp: string, reply: GeminiReply,
                               parse: string -> Option<JsonValue>)
    ensures CalculateStats(RunDailyScan(MockMaterials(loadDay), loadDay, timestamp, reply, parse).store)
      == DashboardStats(7, 2, 4, 1)
  {
    var seed := MockMaterials(loadDay);
    var tiers := [SAFE, WARNING, WARNING, EXPIRED, SAFE, WARNING, WARNING];
    TallyOfScannedSeed();
    DashboardOfScanIsDashboardOfSnapshot(seed, loadDay, timestamp, reply, parse);
    assert StatusesOf(Snapshot(seed, loadDay)) == tiers by {
      SeedSnapshotTiers(loadDay);
    }
  }

  /** The counters of the tiers the first pass stores. */
  lemma TallyOfScannedSeed()
    ensures Tally([SAFE, WARNING, WARNING, EXPIRED, SAFE, WARNING, WARNING]) == DashboardStats(7, 2, 4, 1)
  {
    // one fold step per stored tier
    var p0: seq<Status> := [];
    assert Tally(p0) == DashboardStats(0, 0, 0, 0);
    var p1 := p0 + [SAFE];
    TallyOneMore(p0, SAFE);
    var p2 := p1 + [WARNING];
    TallyOneMore(p1, WARNING);
    var p3 := p2 + [WARNING];
    TallyOneMore(p2, WARNING);
    var p4 := p3 + [EXPIRED];
    TallyOneMore(p3, EXPIRED);
    var p5 := p4 + [SAFE];
    TallyOneMore(p4, SAFE);
    var p6 := p5 + [WARNING];
    TallyOneMore(p5, WARNING);
    var p7 := p6 + [WARNING];
    TallyOneMore(p6, WARNING);
    assert p7 == [SAFE, WARNING, WARNING, EXPIRED, SAFE, WARNING, WARNING];
  }

  /** The dashboard after a scan is the tally of the reclassified snapshot. */
  lemma DashboardOfScanIsDashboardOfSnapshot(store: seq<Material>, today: int, timestamp: string,
                                              reply: GeminiReply, parse: string -> Option<JsonValue>)
    ensures CalculateStats(RunDailyScan(store, today, timestamp, reply, parse).store)
      == Tally(StatusesOf(Snapshot(store, today)))
  {
    assert RunDailyScan(store, today, timestamp, reply, parse).store == Snapshot(store, today);
  }
}
