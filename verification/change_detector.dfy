/** The change-detection pass of a daily scan (services/mockDatabase.ts): every
    material is reclassified in order; a pending change record is emitted for
    each material whose tier moved, and the stored tier is rewritten. */
module ChangeDetector {
  import opened Types
  import opened Classifier

  /** Action text of a record until enrichment replaces it. */
  const Placeholder: string := "Analyzing..."

  /** The tier `m` has on day `today`. */
  function TierOn(m: Material, today: int): Status
  {
    CalculateStatus(DaysUntil(m.expiryDay, today))
  }

  /** True when the stored tier of `m` differs from its tier on `today`. */
  predicate Moves(m: Material, today: int)
  {
    TierOn(m, today) != m.agentStatus
  }

  /** `m` with its stored tier replaced by its tier on `today`. */
  function Reclassified(m: Material, today: int): Material
  {
    m.(agentStatus := TierOn(m, today))
  }

  /** The record a moving material contributes before enrichment. */
  function PendingRecord(m: Material, today: int): ScanResultDetail
  {
    ScanResultDetail(m.materialId, m.name, m.agentStatus, TierOn(m, today),
                     DaysUntil(m.expiryDay, today), Placeholder)
  }

  /** Result of one pass: the snapshot to write back and the pending records. */
  datatype Detection = Detection(snapshot: seq<Material>, changes: seq<ScanResultDetail>)

  /** One step of the pass: a moving material is copied with its new tier;
      a material whose tier holds is passed through as it is. */
  function ScanOne(m: Material, today: int): (r: Material)
    ensures r == Reclassified(m, today)
  {
    if Moves(m, today) then m.(agentStatus := TierOn(m, today)) else m
  }

  /** The snapshot the pass writes back: every material reclassified, in order. */
  function Snapshot(items: seq<Material>, today: int): (r: seq<Material>)
    ensures |r| == |items|
    ensures forall i :: 0 <= i < |items| ==> r[i] == Reclassified(items[i], today)
  {
    seq(|items|, i requires 0 <= i < |items| => ScanOne(items[i], today))
  }

  /** The pending records of the pass, in snapshot order. */
  function PendingChanges(items: seq<Material>, today: int): (r: seq<ScanResultDetail>)
    ensures |r| <= |items|
    decreases |items|
  {
    if |items| == 0 then []
    else
      var m := items[0];
      (if Moves(m, today) then [PendingRecord(m, today)] else []) + PendingChanges(items[1..], today)
  }

  /** Unfolding the pass by one material. */
  lemma PendingChangesCons(items: seq<Material>, today: int)
    requires |items| > 0
    ensures PendingChanges(items, today) ==
      (if Moves(items[0], today) then [PendingRecord(items[0], today)] else [])
      + PendingChanges(items[1..], today)
  {
  }

  /** A record is emitted for a material exactly when its tier moves: every
      record is the pending record of a moving material, every moving
      material has its record, and there are no records exactly when nothing
      moves. */
  lemma {:induction false} PendingChangesIffMoves(items: seq<Material>, today: int)
    ensures forall c :: c in PendingChanges(items, today) ==>
      exists i :: 0 <= i < |items| && Moves(items[i], today) && c == PendingRecord(items[i], today)
    ensures forall i :: 0 <= i < |items| && Moves(items[i], today) ==>
      PendingRecord(items[i], today) in PendingChanges(items, today)
    ensures PendingChanges(items, today) == [] <==> forall i :: 0 <= i < |items| ==> !Moves(items[i], today)
    decreases |items|
  {
    if |items| > 0 {
      var tail := items[1..];
      PendingChangesIffMoves(tail, today);
      assert forall i :: 0 < i < |items| ==> items[i] == tail[i - 1];
    }
  }

  /** The pass over the whole snapshot. */
  function Detect(items: seq<Material>, today: int): (r: Detection)
    ensures |r.snapshot| == |items|
    ensures forall i :: 0 <= i < |items| ==> r.snapshot[i] == Reclassified(items[i], today)
    ensures |r.changes| <= |items|
    ensures r.changes == [] <==> forall i :: 0 <= i < |items| ==> !Moves(items[i], today)
  {
    PendingChangesIffMoves(items, today);
    Detection(Snapshot(items, today), PendingChanges(items, today))
  }

  /** Records of an earlier part of the snapshot come before those of a later
      part, so records appear in snapshot order. */
  lemma {:induction false} PendingChangesAppend(a: seq<Material>, b: seq<Material>, today: int)
    ensures PendingChanges(a + b, today) == PendingChanges(a, today) + PendingChanges(b, today)
    decreases |a|
  {
    if |a| == 0 {
      assert a + b == b;
    } else {
      var m := a[0];
      var emitted := if Moves(m, today) then [PendingRecord(m, today)] else [];
      assert (a + b)[0] == m;
      assert (a + b)[1..] == a[1..] + b;
      PendingChangesCons(a + b, today);
      PendingChangesCons(a, today);
      PendingChangesAppend(a[1..], b, today);
      assert PendingChanges(a + b, today) == emitted + (PendingChanges(a[1..], today) + PendingChanges(b, today));
    }
  }

  /** The whole pass distributes over concatenation of snapshots. */
  lemma DetectAppend(a: seq<Material>, b: seq<Material>, today: int)
    ensures Detect(a + b, today) ==
      Detection(Detect(a, today).snapshot + Detect(b, today).snapshot,
                Detect(a, today).changes + Detect(b, today).changes)
  {
    PendingChangesAppend(a, b, today);
    var whole, left, right := Snapshot(a + b, today), Snapshot(a, today), Snapshot(b, today);
    forall i | 0 <= i < |whole|
      ensures whole[i] == (left + right)[i]
    {
      if i < |a| {
        assert (a + b)[i] == a[i];
      } else {
        assert (a + b)[i] == b[i - |a|];
      }
    }
    assert whole == left + right;
  }

  /** A single material yields exactly one record when its tier moves and none otherwise. */
  lemma DetectSingle(m: Material, today: int)
    ensures Detect([m], today).changes == if Moves(m, today) then [PendingRecord(m, today)] else []
  {
    assert [m][1..] == [];
  }

  /** Every record is a genuine transition carrying the placeholder text. */
  lemma RecordsAreTransitions(items: seq<Material>, today: int)
    ensures forall c :: c in Detect(items, today).changes ==>
      c.oldStatus != c.newStatus && c.actionNeeded == Placeholder && c.newStatus != UNKNOWN
  {
    PendingChangesIffMoves(items, today);
  }

  /** After a pass every stored tier is the current one, so a second pass on
      the same day finds nothing to report and changes nothing. */
  lemma {:induction false} DetectIsIdempotent(items: seq<Material>, today: int)
    ensures Detect(Detect(items, today).snapshot, today).changes == []
    ensures Detect(Detect(items, today).snapshot, today).snapshot == Detect(items, today).snapshot
  {
    var once := Detect(items, today).snapshot;
    var twice := Detect(once, today);
    PendingChangesIffMoves(once, today);
    forall i | 0 <= i < |once|
      ensures !Moves(once[i], today)
    {
      assert once[i] == Reclassified(items[i], today);
    }
  }
}
