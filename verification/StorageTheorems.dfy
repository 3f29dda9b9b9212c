/** Ghosts: storage rows without a blob. */
module StorageTheorems {
  import opened Basics
  import opened AuditTable
  import opened Entities
  import opened Vault
  import opened Safety
  import opened Requests
  import opened Tallies

  datatype GhostCheck = GhostCheck(ghosts: nat, byTenant: map<Uuid, nat>)

  /** `_check` after the rows read so far. */
  function CheckStorage(s: State, rows: seq<Row<StorageRow>>): GhostCheck {
    if rows == [] then GhostCheck(0, map[])
    else
      var n := |rows| - 1;
      var before := CheckStorage(s, rows[..n]);
      if rows[n].row.objectKey in s.blobs then before
      else GhostCheck(before.ghosts + 1, Tally(before.byTenant, rows[n].row.tenant))
  }

  predicate IsGhost(s: State, row: Row<StorageRow>) {
    row.row.objectKey !in s.blobs
  }

  predicate GhostOf(s: State, row: Row<StorageRow>, tenant: Uuid) {
    IsGhost(s, row) && row.row.tenant == tenant
  }

  /** On any state the check counts the ghosts, the per-tenant counts sum to them, and there are none
      exactly when every row has its blob. */
  lemma {:induction false} CheckCounts(s: State, rows: seq<Row<StorageRow>>)
    ensures CheckStorage(s, rows).ghosts == Count(rows, row => IsGhost(s, row)) == Sum(CheckStorage(s, rows).byTenant)
    ensures CheckStorage(s, rows).ghosts == 0 <==> forall i :: 0 <= i < |rows| ==> rows[i].row.objectKey in s.blobs
    decreases |rows|
  {
    if rows == [] {
    } else {
      var n := |rows| - 1;
      CheckCounts(s, rows[..n]);
      TallyAddsOne(CheckStorage(s, rows[..n]).byTenant, rows[n].row.tenant);
      assert forall i :: 0 <= i < n ==> rows[..n][i] == rows[i];
      assert forall i :: 0 <= i < |rows| ==> i < n || rows[i] == rows[n];
    }
  }

  /** The count of each tenant is that of its ghosts. */
  lemma {:induction false} CheckTenantCounts(s: State, rows: seq<Row<StorageRow>>, tenant: Uuid)
    ensures Of(CheckStorage(s, rows).byTenant, tenant) == Count(rows, row => GhostOf(s, row, tenant))
    decreases |rows|
  {
    if rows == [] {
    } else {
      CheckTenantCounts(s, rows[..|rows| - 1], tenant);
    }
  }

  /** The storage rows without a blob. */
  function Ghosts(s: State): set<Uuid> {
    set i | i in s.storage && s.storage[i].objectKey !in s.blobs
  }

  function GhostsOf(s: State, tenant: Uuid): set<Uuid> {
    set i | i in s.storage && s.storage[i].objectKey !in s.blobs && s.storage[i].tenant == tenant
  }

  /** Over all storage rows, in any order, the check yields the number of ghosts, in total and of each
      tenant. */
  lemma CheckIsExact(s: State, rows: seq<Row<StorageRow>>, tenant: Uuid)
    requires Lists(rows, s.storage, s.storage.Keys)
    ensures var check := CheckStorage(s, rows);
            check.ghosts == |Ghosts(s)| == Sum(check.byTenant) && Of(check.byTenant, tenant) == |GhostsOf(s, tenant)|
  {
    CheckCounts(s, rows);
    CheckTenantCounts(s, rows, tenant);
    CountIsSize(rows, (row: Row<StorageRow>) => row.id, row => IsGhost(s, row), Ghosts(s));
    CountIsSize(rows, (row: Row<StorageRow>) => row.id, row => GhostOf(s, row, tenant), GhostsOf(s, tenant));
  }

  // ---------------------------------------------------------------- rotation

  predicate RotationOf(row: Row<StorageRow>, r: Resource) {
    Resource("storage_object", row.id) == r
  }

  lemma {:induction false} RotationEvents(env: Env, s: State, stored: seq<Row<StorageRow>>, dryRun: bool, r: Resource)
    ensures EventsFor(Rotate(env, s, stored, dryRun), r) == Count(stored, row => RotationOf(row, r))
    ensures |Rotate(env, s, stored, dryRun)| == |stored|
    decreases |stored|
  {
    if stored == [] {
    } else {
      var n := |stored| - 1;
      var before := Rotate(env, s, stored[..n], dryRun);
      RotationEvents(env, s, stored[..n], dryRun, r);
      EventsForAppend(before, Rotate(env, s, stored, dryRun)[|before|], r);
    }
  }

  lemma {:induction false} ListedOnce(stored: seq<Row<StorageRow>>, r: Resource)
    requires forall i, j :: 0 <= i < j < |stored| ==> stored[i].id != stored[j].id
    ensures Count(stored, row => RotationOf(row, r)) ==
            if exists i :: 0 <= i < |stored| && RotationOf(stored[i], r) then 1 else 0
    decreases |stored|
  {
    if stored == [] {
    } else {
      var n := |stored| - 1;
      ListedOnce(stored[..n], r);
      assert forall i :: 0 <= i < n ==> stored[..n][i] == stored[i];
    }
  }

  /** Rotation, dry or not, appends one event to the chain of every storage row and does nothing else: no
      key is wrapped again, no blob and no version changes. */
  lemma RotationEffect(env: Env, s: State, stored: seq<Row<StorageRow>>, dryRun: bool, r: Resource)
    requires Lists(stored, s.storage, s.storage.Keys)
    ensures var t := ApplyAll(s, Rotate(env, s, stored, dryRun));
            && t == s.(audit := t.audit)
            && Timeline(s.audit, r) <= Timeline(t.audit, r)
            && |Timeline(t.audit, r)| == |Timeline(s.audit, r)| +
                 if r.kind == "storage_object" && r.id in s.storage then 1 else 0
  {
    RotationEvents(env, s, stored, dryRun, r);
    ChainGrowth(s, Rotate(env, s, stored, dryRun), r);
    RotateSafe(env, PermitOf(RotateKeys(stored, dryRun), _ => 0), s, stored, dryRun);
    EventsOnlyAudit(s, Rotate(env, s, stored, dryRun));
    ListedOnce(stored, r);
  }

  // ---------------------------------------------------------------- serial runs

  lemma {:induction false} NoGhostsListed(s: State, rows: seq<Row<StorageRow>>)
    requires forall i :: 0 <= i < |rows| ==> rows[i].row.objectKey in s.blobs
    ensures CheckStorage(s, rows) == GhostCheck(0, map[])
    decreases |rows|
  {
    if rows == [] {
    } else {
      NoGhostsListed(s, rows[..|rows| - 1]);
    }
  }

  /** In every state of every serial run, uploads and packages that stopped half way included, every
      storage row has its blob with the recorded checksum and size, and the check finds no ghost. */
  lemma NoGhosts(env: Env, calls: seq<Call>, rows: seq<Row<StorageRow>>)
    requires Lawful(env) && ProperRun(env, EMPTY, calls)
    requires Lists(rows, Run(env, EMPTY, calls).storage, Run(env, EMPTY, calls).storage.Keys)
    ensures StorageIntact(env, Run(env, EMPTY, calls))
    ensures CheckStorage(Run(env, EMPTY, calls), rows) == GhostCheck(0, map[])
  {
    EmptyInv(env);
    RunKeepsInv(env, EMPTY, calls);
    var s := Run(env, EMPTY, calls);
    forall i | 0 <= i < |rows| ensures rows[i].row.objectKey in s.blobs {
      assert Intact(env, s, s.storage[rows[i].id]);
    }
    NoGhostsListed(s, rows);
  }

  // ---------------------------------------------------------------- what uploads that stop leave

  lemma IntactHasNoGhosts(s: State)
    requires forall i :: i in s.storage ==> s.storage[i].objectKey in s.blobs
    ensures Ghosts(s) == {}
  {}

  /** An upload that names an unknown policy fails after its first two writes. A blob and a storage row stay
      behind, nothing else changes, and the ghost check finds nothing. */
  lemma FailedUploadLeavesBlob(env: Env, s: State, u: Upload, now: Clock)
    requires StorageIntact(env, s) && Proper(env, s, UploadDocument(u))
    requires u.policy.Some? && u.policy.value !in s.policies
    ensures var plan := PlanUpload(env, s, u, now);
            && plan.reply == Failed(ForeignKey)
            && ApplyAll(s, plan.writes) == s.(blobs := s.blobs[UploadKey(u) := UploadCipher(env, u)],
                                              storage := s.storage[u.storage := UploadStorage(env, u, now)])
            && Ghosts(s) == Ghosts(ApplyAll(s, plan.writes)) == {}
  {
    var t := Stored2(env, s, u, now);
    UploadStores(env, s, u, now);
    assert ApplyAll(s, PlanUpload(env, s, u, now).writes) == t;
    forall i | i in s.storage ensures s.storage[i].objectKey in s.blobs { assert Intact(env, s, s.storage[i]); }
    IntactHasNoGhosts(s);
    IntactHasNoGhosts(t);
  }

  /** The storage row exists and no version uses it. */
  ghost predicate Unused(s: State, storage: Uuid) {
    storage in s.storage && forall v :: v in s.versions ==> s.versions[v].storage != Some(storage)
  }

  /** No write makes a version that uses the storage row. */
  predicate NoneUses(ws: seq<Write>, storage: Uuid) {
    forall i :: 0 <= i < |ws| && ws[i].InsertVersion? ==> ws[i].version.storage != Some(storage)
  }

  lemma {:induction false} UnusedStays(env: Env, p: Permit, s: State, ws: seq<Write>, storage: Uuid)
    requires SafeAll(env, p, s, ws) && NoneUses(ws, storage) && Unused(s, storage)
    ensures Unused(ApplyAll(s, ws), storage)
    decreases |ws|
  {
    if ws == [] {
    } else {
      var n := |ws| - 1;
      assert forall i :: 0 <= i < n ==> ws[..n][i] == ws[i];
      UnusedStays(env, p, s, ws[..n], storage);
    }
  }

  lemma UploadUsesOwn(env: Env, s: State, u: Upload, now: Clock, storage: Uuid)
    requires u.storage !in s.storage && storage in s.storage
    ensures NoneUses(PlanUpload(env, s, u, now).writes, storage)
  {
    assert u.storage != storage;
    var files, rows := UploadFiles(env, u, now), UploadRows(env, u, now);
    assert forall i :: 0 <= i < |files| ==> !files[i].InsertVersion?;
    assert forall i :: 0 <= i < |rows| && rows[i].InsertVersion? ==> rows[i].version.storage == Some(u.storage);
  }

  predicate MakesNone(ws: seq<Write>) {
    forall i :: 0 <= i < |ws| ==> !ws[i].InsertVersion?
  }

  predicate IsLoop(op: Op) {
    op.MonitorHolds? || op.ScanExpiry? || op.RotateKeys?
  }

  predicate IsTask(op: Op) {
    IsLoop(op) || op.PackageAudit? || op.ApplyWatermark? || op.VerifySignature?
  }

  lemma LoopsMakeNone(env: Env, s: State, op: Op, now: Clock)
    requires Proper(env, s, op) && IsLoop(op)
    ensures MakesNone(PlanOf(env, s, op, now).writes)
  {
    var p := PermitOf(op, now);
    if op.MonitorHolds? {
      MonitorSafe(env, p, s, op.held);
    } else if op.ScanExpiry? {
      ScanSafe(env, p, s, op.expiring, now(0));
    } else {
      RotateSafe(env, p, s, op.stored, op.dryRun);
    }
  }

  lemma FileTasksMakeNone(env: Env, s: State, op: Op, now: Clock)
    requires IsTask(op) && !IsLoop(op)
    ensures MakesNone(PlanOf(env, s, op, now).writes)
  {}

  predicate OnDocument(op: Op) {
    op.DownloadDocument? || op.DeleteDocument? || op.RestoreDocument? || op.UpdateDocument? || op.ApplyPolicy?
  }

  lemma DocumentRequestsMakeNone(env: Env, s: State, op: Op, now: Clock)
    requires OnDocument(op)
    ensures MakesNone(PlanOf(env, s, op, now).writes)
  {}

  lemma OtherRequestsMakeNone(env: Env, s: State, op: Op, now: Clock)
    requires !op.UploadDocument? && !IsTask(op) && !OnDocument(op)
    ensures MakesNone(PlanOf(env, s, op, now).writes)
  {}

  /** No request that starts when a storage row exists makes a version that uses it: uploads bring their own. */
  lemma PlansUseNewStorage(env: Env, s: State, op: Op, now: Clock, storage: Uuid)
    requires Proper(env, s, op) && storage in s.storage
    ensures NoneUses(PlanOf(env, s, op, now).writes, storage)
  {
    if op.UploadDocument? {
      UploadUsesOwn(env, s, op.upload, now, storage);
    } else if IsLoop(op) {
      LoopsMakeNone(env, s, op, now);
    } else if IsTask(op) {
      FileTasksMakeNone(env, s, op, now);
    } else if OnDocument(op) {
      DocumentRequestsMakeNone(env, s, op, now);
    } else {
      OtherRequestsMakeNone(env, s, op, now);
    }
  }

  /** A storage row that no version uses is never used, in any run. */
  lemma {:induction false} UnusedForEver(env: Env, s: State, calls: seq<Call>, storage: Uuid)
    requires Lawful(env) && Inv(env, s) && ProperRun(env, s, calls) && Unused(s, storage)
    ensures Unused(Run(env, s, calls), storage)
    decreases |calls|
  {
    if calls == [] {
    } else {
      var n := |calls| - 1;
      var c, t := calls[n], Run(env, s, calls[..n]);
      UnusedForEver(env, s, calls[..n], storage);
      RunKeepsInv(env, s, calls[..n]);
      CallSafe(env, t, c);
      PlansUseNewStorage(env, t, c.op, c.now, storage);
      UnusedStays(env, PermitOf(c.op, c.now), t, Upto(PlanOf(env, t, c.op, c.now).writes, c.stop), storage);
    }
  }

  /** The storage row that a failed upload leaves stays unused in every run that follows. */
  lemma FailedUploadIsNeverUsed(env: Env, s: State, u: Upload, now: Clock, calls: seq<Call>)
    requires Lawful(env) && Inv(env, s) && Proper(env, s, UploadDocument(u))
    requires u.policy.Some? && u.policy.value !in s.policies
    requires ProperRun(env, ApplyAll(s, PlanUpload(env, s, u, now).writes), calls)
    ensures Unused(Run(env, ApplyAll(s, PlanUpload(env, s, u, now).writes), calls), u.storage)
  {
    FailedUploadLeavesBlob(env, s, u, now);
    forall v | v in s.versions ensures s.versions[v].storage != Some(u.storage) { assert Readable(env, s, v, s.versions[v]); }
    UploadSafe(env, s, u, now);
    SafeAllKeepsInv(env, PermitOf(UploadDocument(u), now), s, PlanUpload(env, s, u, now).writes);
    UnusedForEver(env, ApplyAll(s, PlanUpload(env, s, u, now).writes), calls, u.storage);
  }
}
