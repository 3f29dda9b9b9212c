/** What each task leaves and answers, column by column, on any state at all: the events of the loops one by one,
    and the blobs, rows and reports of the tasks on one document. */
module TaskOutcomes {
  import opened Basics
  import opened CanonicalJson
  import opened IntegrityChain
  import opened AuditTable
  import opened ObjectKeys
  import opened Entities
  import opened Vault
  import opened Safety
  import opened Requests
  import opened Tallies
  import opened HoldTheorems
  import opened RetentionTheorems
  import opened StorageTheorems
  import opened ContentTheorems
  import opened Outcomes

  // ---------------------------------------------------------------- loops

  function Filter<T>(rows: seq<T>, p: T -> bool): seq<T> {
    if rows == [] then []
    else Filter(rows[..|rows| - 1], p) + if p(rows[|rows| - 1]) then [rows[|rows| - 1]] else []
  }

  /** A write that appends one event of a task. */
  predicate IsTaskEvent(w: Write, kind: string, id: Uuid, tenant: Uuid, event: EventType, payload: Value) {
    && w.InsertEvent? && w.event.resource == Resource(kind, id) && w.event.tenant == tenant && w.event.actor == None
    && w.event.event == event && Denote(w.event.payload) == payload
  }

  predicate IsAlarm(s: State, w: Write, hold: Row<HoldRow>) {
    && hold.row.document in s.docs
    && IsTaskEvent(w, "document", hold.row.document, s.docs[hold.row.document].tenant, IntegrityCheckFailed,
                   VObj(map["hold_id" := VStr(hold.id), "issue" := VStr("document deleted while under active legal hold")]))
  }

  /** The monitor writes one alarm for each hold on a deleted document, in the order of the rows. */
  lemma {:induction false} MonitorWritesAlarms(env: Env, s: State, held: seq<Row<HoldRow>>)
    ensures var ws, holds := Monitor(env, s, held).writes, Filter(held, h => OnDeleted(s, h));
            |ws| == |holds| && forall i :: 0 <= i < |ws| ==> IsAlarm(s, ws[i], holds[i])
    decreases |held|
  {
    if held == [] {
    } else {
      var n := |held| - 1;
      MonitorWritesAlarms(env, s, held[..n]);
      TwoMembersAre("hold_id", Str(held[n].id), "issue", Str(HOLD_ISSUE));
    }
  }

  predicate IsExpiryNote(env: Env, w: Write, e: Expiring) {
    IsTaskEvent(w, "document", e.id, e.doc.tenant, RetentionApplied,
      VObj(map["retention_policy_id" := VStr(e.policyId),
               "policy_mode" := VStr(if e.policy.mode == Governance then "GOVERNANCE" else "COMPLIANCE"),
               "expiry_at" := VStr(env.iso(e.doc.createdAt + e.policy.days * 86_400_000_000))]))
  }

  lemma ScanNoteIs(env: Env, s: State, e: Expiring)
    ensures IsExpiryNote(env, ScanNote(env, s, e), e)
  {
    ThreeMembersAre("retention_policy_id", Str(e.policyId), "policy_mode", Str(ModeName(e.policy.mode)),
                    "expiry_at", Str(env.iso(ExpiryDate(e.policy, e.doc.createdAt))));
  }

  /** The scan writes one note for each eligible row, in the order of the rows. */
  lemma {:induction false} ScanWritesNotes(env: Env, s: State, rows: seq<Expiring>, now: int)
    ensures var ws, eligible := Scan(env, s, rows, now).writes, Filter(rows, e => Eligible(e, now));
            |ws| == |eligible| && forall i :: 0 <= i < |ws| ==> IsExpiryNote(env, ws[i], eligible[i])
    decreases |rows|
  {
    if rows == [] {
    } else {
      var n := |rows| - 1;
      ScanWritesNotes(env, s, rows[..n], now);
      ScanStep(env, s, rows, now);
      var before, eligible := Scan(env, s, rows[..n], now).writes, Filter(rows[..n], e => Eligible(e, now));
      ScanNoteIs(env, ApplyAll(s, before), rows[n]);
      var ws := Scan(env, s, rows, now).writes;
      assert Filter(rows, e => Eligible(e, now)) == eligible + if Eligible(rows[n], now) then [rows[n]] else [];
      forall i | 0 <= i < |ws| ensures IsExpiryNote(env, ws[i], Filter(rows, e => Eligible(e, now))[i]) {
        if i < |before| { assert IsExpiryNote(env, before[i], eligible[i]); }
      }
    }
  }

  predicate IsRotationNote(w: Write, row: Row<StorageRow>, dryRun: bool) {
    IsTaskEvent(w, "storage_object", row.id, row.row.tenant, KeyRotated,
      VObj(map["object_key" := VStr(row.row.objectKey), "dry_run" := VBool(dryRun)]))
  }

  lemma RotationNoteIs(env: Env, s: State, row: Row<StorageRow>, dryRun: bool)
    ensures IsRotationNote(Append(env, s, Resource("storage_object", row.id), row.row.tenant, None, KeyRotated,
                                  RotatePayload(row.row.objectKey, dryRun)), row, dryRun)
  {
    TwoMembersAre("object_key", Str(row.row.objectKey), "dry_run", Bool(dryRun));
  }

  lemma RotationStep(env: Env, s: State, stored: seq<Row<StorageRow>>, dryRun: bool) returns (w: Write)
    requires stored != []
    ensures Rotate(env, s, stored, dryRun) == Rotate(env, s, stored[..|stored| - 1], dryRun) + [w]
    ensures IsRotationNote(w, stored[|stored| - 1], dryRun)
  {
    var before, row := Rotate(env, s, stored[..|stored| - 1], dryRun), stored[|stored| - 1];
    RotationNoteIs(env, ApplyAll(s, before), row, dryRun);
    w := Append(env, ApplyAll(s, before), Resource("storage_object", row.id), row.row.tenant, None, KeyRotated,
                RotatePayload(row.row.objectKey, dryRun));
  }

  predicate AreRotationNotes(ws: seq<Write>, rows: seq<Row<StorageRow>>, dryRun: bool) {
    |ws| == |rows| && forall i :: 0 <= i < |ws| ==> IsRotationNote(ws[i], rows[i], dryRun)
  }

  lemma RotationNotesMore(ws: seq<Write>, rows: seq<Row<StorageRow>>, dryRun: bool, w: Write, row: Row<StorageRow>)
    requires AreRotationNotes(ws, rows, dryRun) && IsRotationNote(w, row, dryRun)
    ensures AreRotationNotes(ws + [w], rows + [row], dryRun)
  {}

  /** Rotation writes one note for each storage row, in the order of the rows. */
  lemma {:induction false} RotationWritesNotes(env: Env, s: State, stored: seq<Row<StorageRow>>, dryRun: bool)
    ensures AreRotationNotes(Rotate(env, s, stored, dryRun), stored, dryRun)
    decreases |stored|
  {
    if stored == [] {
    } else {
      var rows, row := stored[..|stored| - 1], stored[|stored| - 1];
      RotationWritesNotes(env, s, rows, dryRun);
      var w := RotationStep(env, s, stored, dryRun);
      RotationNotesMore(Rotate(env, s, rows, dryRun), rows, dryRun, w, row);
      assert stored == rows + [row];
    }
  }

  lemma {:induction false} CountAll<T>(rows: seq<T>)
    ensures Count(rows, _ => true) == |rows|
    decreases |rows|
  {
    if rows == [] {
    } else {
      CountAll(rows[..|rows| - 1]);
    }
  }

  lemma AllListed<T>(rows: seq<Row<T>>, table: map<Uuid, T>, ids: set<Uuid>)
    requires Lists(rows, table, ids)
    ensures |rows| == |ids|
  {
    CountAll(rows);
    CountIsSize(rows, (row: Row<T>) => row.id, _ => true, ids);
  }

  /** What the monitor answers, whatever the order the rows came in. */
  lemma MonitorAnswers(env: Env, s: State, held: seq<Row<HoldRow>>, now: Clock)
    requires Lists(held, s.holds, ActiveHolds(s))
    ensures PlanOf(env, s, Op.MonitorHolds(held), now) ==
      Plan(Monitor(env, s, held).writes, Monitored(|ActiveHolds(s)|, |UnflaggedHolds(s)|, |HoldsOnDeleted(s)|))
  {
    MonitorIsExact(env, s, held);
    AllListed(held, s.holds, ActiveHolds(s));
  }

  lemma ScanPlanIs(env: Env, s: State, rows: seq<Expiring>, now: Clock)
    ensures var run := Scan(env, s, rows, now(0));
            PlanOf(env, s, Op.ScanExpiry(rows), now) == Plan(run.writes, Scanned(run.expired, run.blocked, run.eligible))
  {}

  lemma ScanAnswers(env: Env, s: State, rows: seq<Expiring>, now: Clock)
    requires ListsExpiring(rows, s)
    ensures var expired := ExpiredDocs(s, now(0));
            Answer(env, s, Op.ScanExpiry(rows), now) ==
              Scanned(|expired|, |expired * HeldDocs(s)|, |expired - HeldDocs(s) - LockedDocs(s)|)
  {
    ScanPlanIs(env, s, rows, now);
    ScanIsExact(env, s, rows, now(0));
  }

  lemma RotationAnswers(env: Env, s: State, stored: seq<Row<StorageRow>>, dryRun: bool, now: Clock)
    requires Lists(stored, s.storage, s.storage.Keys)
    ensures PlanOf(env, s, Op.RotateKeys(stored, dryRun), now) == Plan(Rotate(env, s, stored, dryRun), Rotated(|s.storage.Keys|))
  {
    AllListed(stored, s.storage, s.storage.Keys);
  }

  // ---------------------------------------------------------------- tasks on one document

  /** The storage row and blob that a version leads to, if they are there. */
  predicate HasStored(s: State, version: Uuid) {
    version in s.versions && s.versions[version].storage.Some? && s.versions[version].storage.value in s.storage
  }

  lemma OpensIff(env: Env, keyId: string, bytes: string, plain: string)
    ensures Decrypt(env, keyId, bytes) == Some(plain) <==> Opens(env, keyId, bytes, plain)
  {}

  /** Ingest on any state: which row is missing, and else whether the blob has the row's checksum and whether it
      decrypts. */
  lemma IngestTells(env: Env, s: State, version: Uuid)
    ensures var report := IngestReport(env, s, version);
            if version !in s.versions then report == VersionMissing
            else if !HasStored(s, version) then report == NoStorageObject
            else
              var v := s.versions[version];
              var row := s.storage[v.storage.value];
              if row.objectKey !in s.blobs then report == IngestFails
              else report.Checked? && (report.integrityOk <==> env.sha(s.blobs[row.objectKey]) == row.checksum)
                   && (report.decryptOk <==> exists plain :: Opens(env, v.keyId, s.blobs[row.objectKey], plain))
  {
    if HasStored(s, version) && s.storage[s.versions[version].storage.value].objectKey in s.blobs {
      var v := s.versions[version];
      var bytes := s.blobs[s.storage[v.storage.value].objectKey];
      forall plain ensures Decrypt(env, v.keyId, bytes) == Some(plain) <==> Opens(env, v.keyId, bytes, plain) {
        OpensIff(env, v.keyId, bytes, plain);
      }
      if Decrypt(env, v.keyId, bytes).Some? { assert Opens(env, v.keyId, bytes, Decrypt(env, v.keyId, bytes).value); }
    }
  }

  /** Following the storage row of a version, on any state: what is missing, and else what the blob decrypts to. */
  lemma StoredContentIs(env: Env, s: State, version: Uuid)
    ensures var content := FollowStorage(env, s, version);
            if !HasStored(s, version) then content == Failed(VersionUnusable)
            else
              var v := s.versions[version];
              var key := s.storage[v.storage.value].objectKey;
              if key !in s.blobs then content == Failed(BlobMissing)
              else (content.Content? || content == Failed(Undecryptable))
                   && forall plain :: content == Content(plain, key, v.mime) <==> Opens(env, v.keyId, s.blobs[key], plain)
  {
    if HasStored(s, version) && s.storage[s.versions[version].storage.value].objectKey in s.blobs {
      var v := s.versions[version];
      var bytes := s.blobs[s.storage[v.storage.value].objectKey];
      forall plain ensures Decrypt(env, v.keyId, bytes) == Some(plain) <==> Opens(env, v.keyId, bytes, plain) {
        OpensIff(env, v.keyId, bytes, plain);
      }
    }
  }

  /** A watermark adds one blob, beside the one it comes from, that opens to the stamped pages under the same key. */
  lemma WatermarkLeavesBlob(env: Env, s: State, version: Uuid, shareId: string, text: string, nonce: string, now: Clock)
    requires Lawful(env)
    ensures var op := Op.ApplyWatermark(version, shareId, text, nonce);
            var t, content := Left(env, s, op, now), FollowStorage(env, s, version);
            if content.Failed? then Fails(env, s, op, now, content.error)
            else
              && content.Content? && HasStored(s, version)
              && (var key := s.storage[s.versions[version].storage.value].objectKey + ".wm." + shareId;
                  && Answer(env, s, op, now) == Stored(key) && key in t.blobs && t == s.(blobs := s.blobs[key := t.blobs[key]])
                  && Opens(env, s.versions[version].keyId, t.blobs[key], env.stampPdf(content.bytes, text)))
  {
    var ws := PlanWatermark(env, s, version, shareId, text, nonce).writes;
    if ws != [] {
      ApplyOne(s, ws[0]);
      var dek := env.open(env.kek, s.versions[version].keyId).value;
      assert env.open(dek, ws[0].bytes) == Some(env.stampPdf(FollowStorage(env, s, version).bytes, text));
    }
  }

  predicate IsRecorded(s: State, t: State, signature: Uuid, version: Uuid, kind: string, finding: Finding, now: int) {
    && signature in t.signatures && t == s.(signatures := s.signatures[signature := t.signatures[signature]], audit := t.audit)
    && (var row := t.signatures[signature];
        row.version == version && row.kind == kind && row.finding == finding && row.verifiedAt == now)
  }

  predicate NewVersionEvent(env: Env, s: State, t: State, version: Uuid, tenant: Uuid, payload: Value) {
    OneEvent(env, s, t, "document_version", version, tenant, None, SignatureVerified) && NewPayload(s, t) == payload
  }

  lemma RecordThenEvent(env: Env, s: State, id: Uuid, row: SignatureRow, tenant: Uuid, payload: Json)
    ensures var r := Resource("document_version", row.version);
            var t := ApplyAll(s, [InsertSignature(id, row), Append(env, s, r, tenant, None, SignatureVerified, payload)]);
            IsRecorded(s, t, id, row.version, row.kind, row.finding, row.verifiedAt) && NewVersionEvent(env, s, t, row.version, tenant, Denote(payload))
  {
    var r, recorded := Resource("document_version", row.version), Apply(s, InsertSignature(id, row));
    ApplyTwo(s, InsertSignature(id, row), Append(env, s, r, tenant, None, SignatureVerified, payload));
    AppendIsOneEvent(env, s, recorded, r, tenant, None, SignatureVerified, payload);
  }

  lemma SignaturePlanIs(env: Env, s: State, op: Op, now: Clock)
    requires op.VerifySignature?
    ensures PlanOf(env, s, op, now) ==
      var content, row := FollowStorage(env, s, op.version), SignatureRow(op.version, op.kind, op.finding, now(0));
      if !content.Content? then Plan([], content)
      else Plan([InsertSignature(op.signature, row),
                 Append(env, s, Resource("document_version", op.version), op.tenant, None, SignatureVerified,
                        SignaturePayload(op.signature, op.finding.status, op.kind))],
                Done)
  {}

  /** A verified signature is recorded with all that was found, and one event about the version. */
  lemma SignatureLeavesRow(env: Env, s: State, op: Op, now: Clock)
    requires op.VerifySignature?
    ensures var t, content := Left(env, s, op, now), FollowStorage(env, s, op.version);
            if content.Failed? then Fails(env, s, op, now, content.error)
            else
              && Answer(env, s, op, now) == Done && IsRecorded(s, t, op.signature, op.version, op.kind, op.finding, now(0))
              && NewVersionEvent(env, s, t, op.version, op.tenant,
                                 VObj(map["signature_id" := VStr(op.signature), "verification_status" := VStr(op.finding.status),
                                          "signature_type" := VStr(op.kind)]))
  {
    var payload := SignaturePayload(op.signature, op.finding.status, op.kind);
    SignaturePlanIs(env, s, op, now);
    RecordThenEvent(env, s, op.signature, SignatureRow(op.version, op.kind, op.finding, now(0)), op.tenant, payload);
    ThreeMembersAre("signature_id", Str(op.signature), "verification_status", Str(op.finding.status), "signature_type", Str(op.kind));
  }

  /** The archive is in the bucket under its key, and its row says so. */
  predicate IsArchived(env: Env, s: State, t: State, key: string, tenant: Uuid, storage: Uuid, bundle: Bundle, now: int) {
    && storage in t.storage && key in t.blobs && t.blobs[key] == env.zip(bundle)
    && t == s.(storage := s.storage[storage := t.storage[storage]], blobs := s.blobs[key := t.blobs[key]], audit := t.audit)
    && (var row := t.storage[storage];
        row.tenant == tenant && row.objectKey == key && !row.encrypted && row.createdAt == now
        && row.size == |t.blobs[key]| && row.checksum == env.sha(t.blobs[key]))
  }

  /** The whole history of a document and what verification says of it. */
  ghost predicate IsHistory(env: Env, s: State, id: Uuid, bundle: Bundle) {
    && id in s.docs && bundle.doc == s.docs[id] && bundle.events == Timeline(s.audit, Resource("document", id))
    && (bundle.broken == None <==> forall i :: 0 <= i < |bundle.events| ==> Authentic(env.mac, ToLink(bundle.events[i])))
  }

  lemma BundleIsHistory(env: Env, s: State, id: Uuid, actor: Option<Uuid>, versions: seq<Row<VersionRow>>,
                        signatures: seq<Row<SignatureRow>>, now: int)
    requires id in s.docs
    ensures IsHistory(env, s, id, PackageBundle(env, s, id, actor, versions, signatures, now))
  {
    var events := Timeline(s.audit, DocumentResource(id));
    assert forall i :: 0 <= i < |events| ==> ToLinks(events)[i] == ToLink(events[i]);
    assert |ToLinks(events)| == |events|;
    if FirstBroken(env.mac, ToLinks(events)) == None {
      forall i | 0 <= i < |events| ensures Authentic(env.mac, ToLink(events[i])) { assert Authentic(env.mac, ToLinks(events)[i]); }
    }
  }

  lemma ArchiveThenEvent(env: Env, s: State, key: string, tenant: Uuid, storage: Uuid, bundle: Bundle, at: int,
                         id: Uuid, actor: Option<Uuid>, payload: Json)
    ensures var bytes := env.zip(bundle);
            var t := ApplyAll(s, [PutBlob(key, bytes), InsertStorage(storage, StorageRow(tenant, key, false, |bytes|, env.sha(bytes), at)),
                                  Append(env, s, DocumentResource(id), tenant, actor, AuditExported, payload)]);
            IsArchived(env, s, t, key, tenant, storage, bundle, at)
            && OneEvent(env, s, t, "document", id, tenant, actor, AuditExported) && NewPayload(s, t) == Denote(payload)
  {
    var bytes := env.zip(bundle);
    var put, row := PutBlob(key, bytes), InsertStorage(storage, StorageRow(tenant, key, false, |bytes|, env.sha(bytes), at));
    var event := Append(env, s, DocumentResource(id), tenant, actor, AuditExported, payload);
    ApplyTwo(s, put, row);
    ApplyAllSnoc(s, [put, row], event);
    assert [put, row] + [event] == [put, row, event];
    AppendIsOneEvent(env, s, Apply(Apply(s, put), row), DocumentResource(id), tenant, actor, AuditExported, payload);
  }

  lemma ListedIff<T>(rows: seq<Row<T>>, table: map<Uuid, T>, ids: set<Uuid>, id: Uuid)
    requires Lists(rows, table, ids)
    ensures (exists i :: 0 <= i < |rows| && rows[i].id == id) <==> id in ids
  {}

  /** The rows of a package are the document's versions and their signatures, all of them and no other. */
  lemma PackageListsAll(env: Env, s: State, op: Op, v: Uuid, g: Uuid)
    requires op.PackageAudit? && Proper(env, s, op)
    ensures (exists i :: 0 <= i < |op.versions| && op.versions[i].id == v) <==> v in s.versions && s.versions[v].document == op.doc
    ensures (exists i :: 0 <= i < |op.signatures| && op.signatures[i].id == g) <==>
      g in s.signatures && s.signatures[g].version in s.versions && s.versions[s.signatures[g].version].document == op.doc
    ensures forall i :: 0 <= i < |op.versions| ==> op.versions[i].id in s.versions && op.versions[i].row == s.versions[op.versions[i].id]
    ensures forall i :: 0 <= i < |op.signatures| ==>
      op.signatures[i].id in s.signatures && op.signatures[i].row == s.signatures[op.signatures[i].id]
  {
    ListedIff(op.versions, s.versions, VersionsOf(s, op.doc), v);
    ListedIff(op.signatures, s.signatures, SignaturesOf(s, op.doc), g);
  }

  lemma PackagePlanIs(env: Env, s: State, op: Op, bundle: Bundle, now: Clock)
    requires op.PackageAudit? && op.doc in s.docs
    requires bundle == PackageBundle(env, s, op.doc, op.requestedBy, op.versions, op.signatures, now(0))
    ensures var key, bytes := PackageKey(op.tenant, op.doc, op.timestamp, op.package), env.zip(bundle);
            PlanOf(env, s, op, now) ==
              Plan([PutBlob(key, bytes), InsertStorage(op.storage, StorageRow(op.tenant, key, false, |bytes|, env.sha(bytes), now(1))),
                    Append(env, s, DocumentResource(op.doc), op.tenant, op.requestedBy, AuditExported,
                           PackagePayload(key, bundle.broken == None, |bundle.events|))],
                   Stored(key))
  {}

  predicate IsExported(env: Env, s: State, t: State, id: Uuid, tenant: Uuid, actor: Option<Uuid>, key: string, bundle: Bundle) {
    && OneEvent(env, s, t, "document", id, tenant, actor, AuditExported)
    && NewPayload(s, t) == VObj(map["package_key" := VStr(key), "chain_valid" := VBool(bundle.broken == None),
                                    "event_count" := VInt(|bundle.events|)])
  }

  lemma BundleLeavesArchive(env: Env, s: State, id: Uuid, tenant: Uuid, actor: Option<Uuid>, key: string, storage: Uuid, bundle: Bundle, at: int)
    ensures var bytes := env.zip(bundle);
            var t := ApplyAll(s, [PutBlob(key, bytes), InsertStorage(storage, StorageRow(tenant, key, false, |bytes|, env.sha(bytes), at)),
                                  Append(env, s, DocumentResource(id), tenant, actor, AuditExported,
                                         PackagePayload(key, bundle.broken == None, |bundle.events|))]);
            IsArchived(env, s, t, key, tenant, storage, bundle, at) && IsExported(env, s, t, id, tenant, actor, key, bundle)
  {
    ArchiveThenEvent(env, s, key, tenant, storage, bundle, at, id, actor, PackagePayload(key, bundle.broken == None, |bundle.events|));
    ThreeMembersAre("package_key", Str(key), "chain_valid", Bool(bundle.broken == None), "event_count", Int(|bundle.events|));
  }

  /** A package archives the whole history of a document, and its event says valid exactly when every event of the
      history carries its own hash. */
  lemma PackageLeavesArchive(env: Env, s: State, op: Op, now: Clock) returns (bundle: Bundle)
    requires op.PackageAudit? && op.doc in s.docs
    ensures bundle.versions == op.versions && bundle.signatures == op.signatures
    ensures bundle.generatedBy == op.requestedBy && bundle.generatedAt == now(0) && IsHistory(env, s, op.doc, bundle)
    ensures var key := op.tenant + "/" + op.doc + "/audit-packages/" + op.timestamp + "-" + op.package + ".zip";
            && Answer(env, s, op, now) == Stored(key)
            && IsArchived(env, s, Left(env, s, op, now), key, op.tenant, op.storage, bundle, now(1))
            && IsExported(env, s, Left(env, s, op, now), op.doc, op.tenant, op.requestedBy, key, bundle)
  {
    bundle := PackageBundle(env, s, op.doc, op.requestedBy, op.versions, op.signatures, now(0));
    BundleIsHistory(env, s, op.doc, op.requestedBy, op.versions, op.signatures, now(0));
    PackagePlanIs(env, s, op, bundle, now);
    BundleLeavesArchive(env, s, op.doc, op.tenant, op.requestedBy, PackageKey(op.tenant, op.doc, op.timestamp, op.package),
                        op.storage, bundle, now(1));
  }

  lemma UnknownDocumentHasNoPackage(env: Env, s: State, op: Op, now: Clock)
    requires op.PackageAudit? && op.doc !in s.docs
    ensures Fails(env, s, op, now, DocumentNotFound)
  {}
}
