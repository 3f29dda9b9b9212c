/** The Celery tasks: loops over query results that count, tally and append audit events, and the tasks
    that follow a storage row. */
module Tasks {
  import opened Basics
  import opened CanonicalJson
  import opened IntegrityChain
  import opened AuditTable
  import opened ObjectKeys
  import opened Entities
  import opened Vault
  import opened Safety
  import opened Tallies
  import opened HoldTheorems
  import opened RetentionTheorems
  import opened StorageTheorems
  import opened ContentTheorems
  import opened Repositories

  lemma TakeNext<T>(rows: seq<T>, i: nat)
    requires i < |rows|
    ensures rows[..i + 1][..i] == rows[..i] && rows[..i + 1][i] == rows[i] && |rows[..i + 1]| == i + 1
  {}

  lemma MonitorNext(env: Env, s: State, rows: seq<Row<HoldRow>>, i: nat)
    requires i < |rows|
    ensures Monitor(env, s, rows[..i + 1]) == MonitorRow(env, s, Monitor(env, s, rows[..i]), rows[i])
  {
    TakeNext(rows, i);
  }

  lemma ScanNext(env: Env, s: State, rows: seq<Expiring>, i: nat, now: int)
    requires i < |rows|
    ensures Scan(env, s, rows[..i + 1], now) == ScanRow(env, s, Scan(env, s, rows[..i], now), rows[i], now)
  {
    TakeNext(rows, i);
  }

  // ---------------------------------------------------------------- hold monitor

  lemma MonitorConsistent(env: Env, s: State, held: seq<Row<HoldRow>>)
    requires HoldsFlagged(s) && Lists(held, s.holds, ActiveHolds(s))
    ensures Monitor(env, s, held).inconsistent == 0 && Existing(s, held) == |held|
  {
    forall i | 0 <= i < |held|
      ensures held[i].row.document in s.docs && s.docs[held[i].row.document].legalHold
    {
      assert held[i].id in s.holds && s.holds[held[i].id].active;
    }
    FlaggedHoldsConsistent(env, s, held);
  }

  /** `held` is what the query answered. On any state the tallies sum to the holds whose document exists,
      and one event is appended for each counted deletion; on a state of a serial run nothing is
      inconsistent. */
  method MonitorLegalHolds(env: Env, store: Store)
    returns (active: nat, inconsistent: nat, deletedUnderHold: nat, tenantCounts: map<Uuid, nat>, ghost held: seq<Row<HoldRow>>)
    modifies store
    ensures Lists(held, old(store.holds), ActiveHolds(old(store.State()))) && active == |held|
    ensures var run := Monitor(env, old(store.State()), held);
            && inconsistent == run.inconsistent && deletedUnderHold == run.deletedUnderHold && tenantCounts == run.counts
            && Did(old(store.State()), old(store.journal), store.State(), store.journal, run.writes)
    ensures active == |ActiveHolds(old(store.State()))| && inconsistent == |UnflaggedHolds(old(store.State()))|
    ensures deletedUnderHold == |HoldsOnDeleted(old(store.State()))| && Sum(tenantCounts) == Existing(old(store.State()), held)
    ensures |store.journal| == |old(store.journal)| + deletedUnderHold
    ensures HoldsFlagged(old(store.State())) ==> inconsistent == 0 && Sum(tenantCounts) == active
  {
    ghost var s, j := store.State(), store.journal;
    inconsistent, deletedUnderHold, tenantCounts := 0, 0, map[];
    var rows := ListRows(store.holds, ActiveHolds(store.State()));
    held := rows;
    ghost var run := MonitorRun([], 0, 0, map[]);
    for i := 0 to |rows|
      invariant run == Monitor(env, s, rows[..i])
      invariant run == MonitorRun(run.writes, inconsistent, deletedUnderHold, tenantCounts)
      invariant SameButAudit(s, store.State()) && Did(s, j, store.State(), store.journal, run.writes)
    {
      var hold := rows[i];
      MonitorNext(env, s, rows, i);
      ghost var before := run;
      run := MonitorRow(env, s, run, hold);
      if hold.row.document !in store.docs { continue; }
      var doc := store.docs[hold.row.document];
      tenantCounts := Tally(tenantCounts, doc.tenant);
      if doc.status.Deleted? {
        deletedUnderHold := deletedUnderHold + 1;
        store.Note(env, DocumentResource(hold.row.document), doc.tenant, None, IntegrityCheckFailed, AlarmPayload(hold.id), s, j, before.writes);
      }
      if !doc.legalHold { inconsistent := inconsistent + 1; }
    }
    assert rows[..|rows|] == rows;
    active := |rows|;
    MonitorIsExact(env, s, rows);
    if HoldsFlagged(s) { MonitorConsistent(env, s, rows); }
  }

  // ---------------------------------------------------------------- expiry scan

  method ListExpiring(store: Store) returns (rows: seq<Expiring>)
    ensures ListsExpiring(rows, store.State())
  {
    var s := store.State();
    var list := InSomeOrder(LiveWithPolicy(s));
    rows := seq(|list|, i requires 0 <= i < |list| && list[i] in LiveWithPolicy(s) => Joined(s, list[i]));
    forall id | id in LiveWithPolicy(s) ensures exists i :: 0 <= i < |rows| && rows[i].id == id {
      var i :| 0 <= i < |list| && list[i] == id;
      assert rows[i].id == id;
    }
  }

  /** One pass of the scan's loop. */
  method ScanDocument(env: Env, store: Store, e: Expiring, now: int, ghost s: State, ghost j: seq<Write>, ghost before: ScanRun)
    returns (expired: bool, blocked: bool, eligible: bool)
    requires Did(s, j, store.State(), store.journal, before.writes)
    modifies store
    ensures var run := ScanRow(env, s, before, e, now);
            && run.expired == before.expired + (if expired then 1 else 0)
            && run.blocked == before.blocked + (if blocked then 1 else 0)
            && run.eligible == before.eligible + (if eligible then 1 else 0)
            && Did(s, j, store.State(), store.journal, run.writes)
  {
    expired, blocked, eligible := false, false, false;
    var expiry := e.doc.createdAt + e.policy.days * DAY;
    if expiry > now { return; }
    expired := true;
    if e.doc.legalHold {
      blocked := true;
      return;
    }
    if e.policy.mode.Governance? || (e.policy.mode.Compliance? && e.policy.allowAfterExpiry) {
      eligible := true;
      store.Note(env, DocumentResource(e.id), e.doc.tenant, None, RetentionApplied, ScanPayload(env, e), s, j, before.writes);
    }
  }

  method ScanRows(env: Env, store: Store, joined: seq<Expiring>, now: int)
    returns (expired: nat, blockedByHold: nat, eligibleForDeletion: nat)
    modifies store
    ensures ScanRun(Scan(env, old(store.State()), joined, now).writes, expired, blockedByHold, eligibleForDeletion)
         == Scan(env, old(store.State()), joined, now)
    ensures Did(old(store.State()), old(store.journal), store.State(), store.journal, Scan(env, old(store.State()), joined, now).writes)
  {
    ghost var s, j := store.State(), store.journal;
    expired, blockedByHold, eligibleForDeletion := 0, 0, 0;
    ghost var run := ScanRun([], 0, 0, 0);
    for i := 0 to |joined|
      invariant run == Scan(env, s, joined[..i], now)
      invariant run == ScanRun(run.writes, expired, blockedByHold, eligibleForDeletion)
      invariant Did(s, j, store.State(), store.journal, run.writes)
    {
      ScanNext(env, s, joined, i, now);
      var isExpired, isBlocked, isEligible := ScanDocument(env, store, joined[i], now, s, j, run);
      run := ScanRow(env, s, run, joined[i], now);
      if isExpired { expired := expired + 1; }
      if isBlocked { blockedByHold := blockedByHold + 1; }
      if isEligible { eligibleForDeletion := eligibleForDeletion + 1; }
    }
    assert joined[..|joined|] == joined;
  }

  /** One scan. What is expired is held, eligible, or locked by COMPLIANCE for good, and one event is
      appended for each eligible document. */
  method ScanRetentionExpiry(env: Env, store: Store, now: int)
    returns (expired: nat, blockedByHold: nat, eligibleForDeletion: nat, ghost rows: seq<Expiring>)
    modifies store
    ensures ListsExpiring(rows, old(store.State()))
    ensures ScanRun(Scan(env, old(store.State()), rows, now).writes, expired, blockedByHold, eligibleForDeletion)
         == Scan(env, old(store.State()), rows, now)
    ensures Did(old(store.State()), old(store.journal), store.State(), store.journal, Scan(env, old(store.State()), rows, now).writes)
    ensures expired == blockedByHold + eligibleForDeletion + LockedRows(rows, now)
    ensures |store.journal| == |old(store.journal)| + eligibleForDeletion
  {
    ghost var s := store.State();
    var joined := ListExpiring(store);
    rows := joined;
    expired, blockedByHold, eligibleForDeletion := ScanRows(env, store, joined, now);
    ScanCounts(env, s, joined, now);
  }

  // ---------------------------------------------------------------- key rotation

  method RotateKeys(env: Env, store: Store, dryRun: bool) returns (inspected: nat, ghost stored: seq<Row<StorageRow>>)
    modifies store
    ensures Lists(stored, old(store.storage), old(store.storage).Keys) && inspected == |stored|
    ensures Did(old(store.State()), old(store.journal), store.State(), store.journal, Rotate(env, old(store.State()), stored, dryRun))
    ensures SameButAudit(old(store.State()), store.State())
  {
    ghost var s, j := store.State(), store.journal;
    inspected := 0;
    var rows := ListRows(store.storage, store.storage.Keys);
    stored := rows;
    for i := 0 to |rows|
      invariant inspected == i
      invariant SameButAudit(s, store.State()) && Did(s, j, store.State(), store.journal, Rotate(env, s, rows[..i], dryRun))
    {
      TakeNext(rows, i);
      inspected := inspected + 1;
      var row := rows[i];
      store.Note(env, Resource("storage_object", row.id), row.row.tenant, None, KeyRotated, RotatePayload(row.row.objectKey, dryRun),
                 s, j, Rotate(env, s, rows[..i], dryRun));
    }
    assert rows[..|rows|] == rows;
  }

  // ---------------------------------------------------------------- storage consistency

  /** On any state: the number of storage rows without a blob, in total and of each tenant. */
  method CheckStorageConsistency(store: Store)
    returns (total: nat, ghosts: nat, byTenant: map<Uuid, nat>)
    ensures total == |store.storage.Keys|
    ensures ghosts == |Ghosts(store.State())| == Sum(byTenant)
    ensures forall tenant :: Of(byTenant, tenant) == |GhostsOf(store.State(), tenant)|
  {
    ghost var s := store.State();
    var rows := ListRows(store.storage, store.storage.Keys);
    ghosts, byTenant := 0, map[];
    for i := 0 to |rows|
      invariant GhostCheck(ghosts, byTenant) == CheckStorage(s, rows[..i])
    {
      TakeNext(rows, i);
      if rows[i].row.objectKey !in store.blobs {
        ghosts := ghosts + 1;
        byTenant := Tally(byTenant, rows[i].row.tenant);
      }
    }
    assert rows[..|rows|] == rows;
    total := |rows|;
    CheckIsExact(s, rows, seq(36, _ => '0'));
    forall tenant ensures Of(byTenant, tenant) == |GhostsOf(s, tenant)| { CheckIsExact(s, rows, tenant); }
  }

  // ---------------------------------------------------------------- tasks on one document

  method SavePackage(store: Store, key: string, zip: string, storage: Uuid, row: StorageRow)
    requires storage !in store.storage
    modifies store
    ensures Did(old(store.State()), old(store.journal), store.State(), store.journal, [PutBlob(key, zip), InsertStorage(storage, row)])
  {
    ghost var s, j := store.State(), store.journal;
    store.PutObject(key, zip);
    store.CreateStorageObject(storage, row);
    DidTwo(s, j, PutBlob(key, zip), InsertStorage(storage, row));
  }

  lemma AuthenticLinks(mac: string -> string, events: seq<EventRow>)
    ensures (forall i :: 0 <= i < |ToLinks(events)| ==> Authentic(mac, ToLinks(events)[i]))
       <==> (forall i :: 0 <= i < |events| ==> Authentic(mac, ToLink(events[i])))
  {
    assert forall i :: 0 <= i < |events| ==> ToLinks(events)[i] == ToLink(events[i]);
  }

  /** What a package holds: all versions and signatures of the document, each once, and its whole timeline. */
  method CollectBundle(env: Env, chain: IntegrityChainService, store: Store, id: Uuid, actor: Option<Uuid>, now: int)
    returns (bundle: Bundle)
    requires chain.mac == env.mac && id in store.docs
    ensures Lists(bundle.versions, store.versions, VersionsOf(store.State(), id))
    ensures Lists(bundle.signatures, store.signatures, SignaturesOf(store.State(), id))
    ensures bundle == PackageBundle(env, store.State(), id, actor, bundle.versions, bundle.signatures, now)
    ensures bundle.events == Timeline(store.audit, DocumentResource(id))
    ensures bundle.broken == None <==> forall i :: 0 <= i < |bundle.events| ==> Authentic(env.mac, ToLink(bundle.events[i]))
  {
    var versions := ListRows(store.versions, VersionsOf(store.State(), id));
    var signatures := ListRows(store.signatures, SignaturesOf(store.State(), id));
    var events := Timeline(store.audit, DocumentResource(id));
    var valid, broken := chain.VerifyChain(ToLinks(events));
    AuthenticLinks(env.mac, events);
    bundle := Bundle(store.docs[id], versions, events, broken, signatures, actor, now);
  }

  method GenerateAuditPackage(env: Env, chain: IntegrityChainService, store: Store, id: Uuid, tenant: Uuid, actor: Option<Uuid>,
                              timestamp: string, package: Uuid, storage: Uuid, now: Clock)
    returns (reply: Reply, ghost bundle: Option<Bundle>)
    requires chain.mac == env.mac && storage !in store.storage
    modifies store
    ensures bundle == None <==> id !in old(store.docs)
    ensures bundle == None ==> reply == Failed(DocumentNotFound) && store.State() == old(store.State()) && store.journal == old(store.journal)
    ensures bundle.Some? ==>
      && Lists(bundle.value.versions, old(store.versions), VersionsOf(old(store.State()), id))
      && Lists(bundle.value.signatures, old(store.signatures), SignaturesOf(old(store.State()), id))
      && (var plan := PlanPackage(env, old(store.State()), id, tenant, actor, timestamp, package, storage,
                                  bundle.value.versions, bundle.value.signatures, now);
          reply == plan.reply && Did(old(store.State()), old(store.journal), store.State(), store.journal, plan.writes))
  {
    ghost var s, j := store.State(), store.journal;
    if id !in store.docs { return Failed(DocumentNotFound), None; }
    var content := CollectBundle(env, chain, store, id, actor, now(0));
    var key := PackageKey(tenant, id, timestamp, package);
    var zip := env.zip(content);
    ghost var ws := PlanPackage(env, s, id, tenant, actor, timestamp, package, storage, content.versions, content.signatures, now).writes;
    SavePackage(store, key, zip, storage, StorageRow(tenant, key, false, |zip|, env.sha(zip), now(1)));
    ApplyTwo(s, ws[0], ws[1]);
    DidMore(s, j, store.State(), store.journal, [ws[0], ws[1]], ws[2]);
    store.WriteAudit(env, DocumentResource(id), tenant, actor, AuditExported,
                     PackagePayload(key, content.broken == None, |content.events|));
    assert [ws[0], ws[1]] + [ws[2]] == ws;
    return Stored(key), Some(content);
  }

  /** Follow the storage row, compare checksums, try to decrypt. */
  method IngestDocument(env: Env, store: Store, version: Uuid) returns (report: Ingest)
    ensures report == IngestReport(env, store.State(), version)
    ensures Inv(env, store.State()) && version in store.versions ==> report == Checked(true, true)
  {
    if Inv(env, store.State()) && version in store.versions { RecomputedKeyAgrees(env, store.State(), version); }
    if version !in store.versions { return VersionMissing; }
    var v := store.versions[version];
    if v.storage == None || v.storage.value !in store.storage { return NoStorageObject; }
    var row := store.storage[v.storage.value];
    var cipher := store.GetObject(row.objectKey);
    if cipher == None { return IngestFails; }
    var integrityOk := env.sha(cipher.value) == row.checksum;
    var decryptOk := false;
    var dek := env.open(env.kek, v.keyId);
    if dek.Some? {
      var plain := env.open(dek.value, cipher.value);
      decryptOk := plain.Some?;
    }
    return Checked(integrityOk, decryptOk);
  }

  /** The content behind a version's storage row, as `FollowStorage` has it, and the key that opens it. */
  method ReadStored(env: Env, store: Store, version: Uuid) returns (reply: Reply, dek: string)
    ensures reply == FollowStorage(env, store.State(), version)
    ensures reply.Content? ==> env.open(env.kek, store.versions[version].keyId) == Some(dek)
  {
    dek := "";
    if version !in store.versions || store.versions[version].storage == None
       || store.versions[version].storage.value !in store.storage { return Failed(VersionUnusable), dek; }
    var v := store.versions[version];
    var key := store.storage[v.storage.value].objectKey;
    var cipher := store.GetObject(key);
    if cipher == None { return Failed(BlobMissing), dek; }
    var unwrapped := env.open(env.kek, v.keyId);
    if unwrapped == None { return Failed(Undecryptable), dek; }
    var plain := env.open(unwrapped.value, cipher.value);
    if plain == None { return Failed(Undecryptable), dek; }
    return Content(plain.value, key, v.mime), unwrapped.value;
  }

  method ApplyWatermark(env: Env, store: Store, version: Uuid, shareId: string, text: string, nonce: string) returns (reply: Reply)
    modifies store
    ensures var plan := PlanWatermark(env, old(store.State()), version, shareId, text, nonce);
            reply == plan.reply && Did(old(store.State()), old(store.journal), store.State(), store.journal, plan.writes)
  {
    ghost var s, j := store.State(), store.journal;
    var content, dek := ReadStored(env, store, version);
    if !content.Content? { return content; }
    var stamped := env.seal(dek, env.stampPdf(content.bytes, text), nonce);
    var key := WatermarkKey(content.fileName, shareId);
    store.PutObject(key, stamped);
    DidOne(s, j, PutBlob(key, stamped));
    return Stored(key);
  }

  /** `finding` is what the verifier reports of the content. */
  method VerifySignature(env: Env, store: Store, version: Uuid, tenant: Uuid, signature: Uuid, kind: string, finding: Finding, now: int)
    returns (reply: Reply)
    requires signature !in store.signatures
    modifies store
    ensures var plan := PlanSignature(env, old(store.State()), version, tenant, signature, kind, finding, now);
            reply == plan.reply && Did(old(store.State()), old(store.journal), store.State(), store.journal, plan.writes)
  {
    ghost var s, j := store.State(), store.journal;
    var content, _ := ReadStored(env, store, version);
    if !content.Content? { return content; }
    var row := SignatureRow(version, kind, finding, now);
    store.CreateSignature(signature, row);
    var payload := SignaturePayload(signature, finding.status, kind);
    store.WriteAudit(env, Resource("document_version", version), tenant, None, SignatureVerified, payload);
    DidTwo(s, j, InsertSignature(signature, row),
           Append(env, s, Resource("document_version", version), tenant, None, SignatureVerified, payload));
    return Done;
  }
}
