/** Every request writes only what is safe, so every reachable state keeps the invariant, wherever
    requests stop. */
module Requests {
  import opened Basics
  import opened CanonicalJson
  import opened IntegrityChain
  import opened AuditTable
  import opened ObjectKeys
  import opened Entities
  import opened Vault
  import opened Safety

  lemma SafeOne(env: Env, p: Permit, s: State, w: Write)
    requires Safe(env, p, s, w)
    ensures SafeAll(env, p, s, [w]) && ApplyAll(s, [w]) == Apply(s, w)
  {}

  lemma SafeTwo(env: Env, p: Permit, s: State, v: Write, w: Write)
    requires Safe(env, p, s, v) && Safe(env, p, Apply(s, v), w)
    ensures SafeAll(env, p, s, [v, w]) && ApplyAll(s, [v, w]) == Apply(Apply(s, v), w)
  {
    SafeOne(env, p, s, v);
    assert [v, w] == [v] + [w];
    SafeSnoc(env, p, s, [v], w);
  }

  /** An append built on state `s` is safe in any state with the same audit table. */
  lemma AppendSafe(env: Env, p: Permit, s: State, t: State, r: Resource, tenant: Uuid, actor: Option<Uuid>,
                   event: EventType, payload: Json)
    requires t.audit == s.audit && WellFormed(payload) && (r.kind == "document" ==> r.id in t.docs)
    ensures Safe(env, p, t, Append(env, s, r, tenant, actor, event, payload))
  {}

  lemma OneMember(k: string, v: Json)
    requires WellFormed(v)
    ensures WellFormed(Obj(Member(k, v, NoMembers)))
  {}

  lemma TwoMembers(k: string, v: Json, k': string, v': Json)
    requires k != k' && WellFormed(v) && WellFormed(v')
    ensures WellFormed(Obj(Member(k, v, Member(k', v', NoMembers))))
  {
    assert DenoteMembers(Member(k', v', NoMembers)).Keys == {k'};
    assert WellFormedMembers(Member(k', v', NoMembers));
  }

  lemma ThreeMembers(k: string, v: Json, k': string, v': Json, k'': string, v'': Json)
    requires k != k' && k != k'' && k' != k'' && WellFormed(v) && WellFormed(v') && WellFormed(v'')
    ensures WellFormed(Obj(Member(k, v, Member(k', v', Member(k'', v'', NoMembers)))))
  {
    TwoMembers(k', v', k'', v'');
    assert DenoteMembers(Member(k'', v'', NoMembers)).Keys == {k''};
    assert DenoteMembers(Member(k', v', Member(k'', v'', NoMembers))).Keys == {k', k''};
  }

  // ---------------------------------------------------------------- upload

  lemma FreshVersionKey(env: Env, s: State, u: Upload)
    requires Inv(env, s) && Proper(env, s, UploadDocument(u))
    ensures forall i :: i in s.storage ==> Apart(s.storage[i].objectKey, UploadKey(u))
  {}

  /** An upload after its blob and storage row. */
  ghost function Stored2(env: Env, s: State, u: Upload, now: Clock): State {
    s.(blobs := s.blobs[UploadKey(u) := UploadCipher(env, u)],
       storage := s.storage[u.storage := UploadStorage(env, u, now)])
  }

  /** An upload after its document row. */
  ghost function Stored3(env: Env, s: State, u: Upload, now: Clock): State {
    var t := Stored2(env, s, u, now);
    t.(docs := t.docs[u.doc := UploadDoc(u, now)])
  }

  /** An upload after its version row. */
  ghost function Stored4(env: Env, s: State, u: Upload, now: Clock): State {
    var t := Stored3(env, s, u, now);
    t.(versions := t.versions[u.version := UploadVersion(env, u, now)])
  }

  lemma UploadStores(env: Env, s: State, u: Upload, now: Clock)
    ensures ApplyAll(s, UploadFiles(env, u, now)) == Stored2(env, s, u, now)
    ensures ApplyAll(s, UploadRows(env, u, now)) == Stored4(env, s, u, now)
  {
    var two := UploadFiles(env, u, now);
    var doc, version := InsertDoc(u.doc, UploadDoc(u, now)), InsertVersion(u.version, UploadVersion(env, u, now));
    ApplyTwo(s, two[0], two[1]);
    ApplyAllSnoc(s, two, doc);
    ApplyAllSnoc(s, two + [doc], version);
  }

  lemma UploadStoresSafely(env: Env, p: Permit, s: State, u: Upload, now: Clock)
    requires Inv(env, s) && Proper(env, s, UploadDocument(u))
    ensures SafeAll(env, p, s, UploadFiles(env, u, now))
  {
    FreshVersionKey(env, s, u);
    SafeTwo(env, p, s, UploadFiles(env, u, now)[0], UploadFiles(env, u, now)[1]);
  }

  lemma UploadVersionReadable(env: Env, s: State, u: Upload, now: Clock)
    requires Lawful(env)
    ensures Readable(env, Stored3(env, s, u, now), u.version, UploadVersion(env, u, now))
  {}

  lemma UploadPublishes(env: Env, p: Permit, s: State, u: Upload, now: Clock)
    requires Inv(env, s) && Proper(env, s, UploadDocument(u))
    requires u.policy.Some? ==> u.policy.value in s.policies
    ensures Safe(env, p, Stored4(env, s, u, now), Publish(u, now))
  {}

  lemma UploadRowsSafe(env: Env, p: Permit, s: State, u: Upload, now: Clock)
    requires Lawful(env) && Inv(env, s) && Proper(env, s, UploadDocument(u))
    requires u.policy.Some? ==> u.policy.value in s.policies
    ensures SafeAll(env, p, s, UploadRows(env, u, now))
  {
    var two, doc := UploadFiles(env, u, now), InsertDoc(u.doc, UploadDoc(u, now));
    UploadStores(env, s, u, now);
    UploadStoresSafely(env, p, s, u, now);
    SafeSnoc(env, p, s, two, doc);
    UploadVersionReadable(env, s, u, now);
    SafeSnoc(env, p, s, two + [doc], InsertVersion(u.version, UploadVersion(env, u, now)));
  }

  lemma UploadCompletesSafely(env: Env, p: Permit, s: State, u: Upload, now: Clock)
    requires Lawful(env) && Inv(env, s) && Proper(env, s, UploadDocument(u))
    requires u.policy.Some? ==> u.policy.value in s.policies
    ensures SafeAll(env, p, s, PlanUpload(env, s, u, now).writes)
  {
    var four := UploadRows(env, u, now);
    var live := Publish(u, now);
    UploadRowsSafe(env, p, s, u, now);
    UploadStores(env, s, u, now);
    UploadPublishes(env, p, s, u, now);
    SafeSnoc(env, p, s, four, live);
    TwoMembers("title", Str(u.title), "version_id", Str(u.version));
    var t := Apply(Stored4(env, s, u, now), live);
    AppendSafe(env, p, s, t, DocumentResource(u.doc), u.tenant, Some(u.actor), DocumentCreated, CreatedPayload(u));
    SafeSnoc(env, p, s, four + [live], UploadAudit(env, s, u));
  }

  lemma UploadSafe(env: Env, s: State, u: Upload, now: Clock)
    requires Lawful(env) && Inv(env, s) && Proper(env, s, UploadDocument(u))
    ensures SafeAll(env, PermitOf(UploadDocument(u), now), s, PlanUpload(env, s, u, now).writes)
  {
    var p := PermitOf(UploadDocument(u), now);
    UploadStoresSafely(env, p, s, u, now);
    if !(u.policy.Some? && u.policy.value !in s.policies) {
      UploadCompletesSafely(env, p, s, u, now);
    }
  }

  lemma UploadLeaves(env: Env, s: State, u: Upload, now: Clock)
    requires u.policy.Some? ==> u.policy.value in s.policies
    ensures ApplyAll(s, PlanUpload(env, s, u, now).writes)
         == Apply(Apply(Stored4(env, s, u, now), Publish(u, now)), UploadAudit(env, s, u))
  {
    var four := UploadRows(env, u, now);
    UploadStores(env, s, u, now);
    ApplyAllSnoc(s, four, Publish(u, now));
    ApplyAllSnoc(s, four + [Publish(u, now)], UploadAudit(env, s, u));
  }

  // ---------------------------------------------------------------- requests on one document

  lemma {:induction false} StrItemsWellFormed(texts: seq<string>)
    ensures WellFormedItems(StrItems(texts))
  {
    if texts == [] {
    } else {
      StrItemsWellFormed(texts[1..]);
    }
  }

  lemma ChangesWellFormed(c: Changes)
    requires c.metadata.Some? ==> WellFormed(c.metadata.value)
    ensures WellFormed(ChangesPayload(c))
  {
    var tags := if c.tags.Some? then Arr(StrItems(c.tags.value)) else Null;
    var title := if c.title.Some? then Str(c.title.value) else Null;
    var metadata := if c.metadata.Some? then c.metadata.value else Null;
    if c.tags.Some? { StrItemsWellFormed(c.tags.value); }
    ThreeMembers("title", title, "tags", tags, "metadata", metadata);
    TwoMembers("title", title, "tags", tags);
    TwoMembers("title", title, "metadata", metadata);
    TwoMembers("tags", tags, "metadata", metadata);
    OneMember("title", title);
    OneMember("tags", tags);
    OneMember("metadata", metadata);
  }

  lemma UnflaggedHasNoHold(s: State, id: Uuid)
    requires HoldsFlagged(s) && id in s.docs
    ensures s.docs[id].legalHold || !HasActiveHold(s, id)
  {}

  /** Changing a document's row and appending one event about it. */
  lemma UpdateThenAudit(env: Env, p: Permit, s: State, id: Uuid, row: DocRow, tenant: Uuid, actor: Uuid,
                        event: EventType, payload: Json)
    requires Safe(env, p, s, UpdateDoc(id, row)) && WellFormed(payload)
    ensures SafeAll(env, p, s, [UpdateDoc(id, row),
                                Append(env, s, DocumentResource(id), tenant, Some(actor), event, payload)])
  {}

  lemma DownloadSafe(env: Env, p: Permit, s: State, id: Uuid, tenant: Uuid, actor: Uuid)
    ensures SafeAll(env, p, s, PlanDownload(env, s, id, tenant, actor).writes)
  {
    var ws := PlanDownload(env, s, id, tenant, actor).writes;
    if ws != [] {
      OneMember("version_id", Str(s.docs[id].currentVersion.value));
      SafeOne(env, p, s, ws[0]);
    }
  }

  lemma DeleteSafe(env: Env, p: Permit, s: State, id: Uuid, tenant: Uuid, actor: Uuid, purge: bool, now: Clock)
    requires HoldsFlagged(s) && DocsProper(s)
    requires p.now == now(0) && p.deleteOf == Some(id) && p.purge == purge
    ensures SafeAll(env, p, s, PlanDelete(env, s, id, tenant, actor, purge, now).writes)
  {
    var plan := PlanDelete(env, s, id, tenant, actor, purge, now);
    if plan.writes != [] {
      assert DocProper(s, id, s.docs[id]);
      UnflaggedHasNoHold(s, id);
      OneMember("privileged_purge", Bool(purge));
      UpdateThenAudit(env, p, s, id, plan.writes[0].doc, tenant, actor, DocumentDeleted,
                      Obj(Member("privileged_purge", Bool(purge), NoMembers)));
    }
  }

  lemma RestoreSafe(env: Env, p: Permit, s: State, id: Uuid, tenant: Uuid, actor: Uuid, now: Clock)
    requires HoldsFlagged(s) && DocsProper(s)
    ensures SafeAll(env, p, s, PlanRestore(env, s, id, tenant, actor, now).writes)
  {
    var plan := PlanRestore(env, s, id, tenant, actor, now);
    if plan.writes != [] {
      assert DocProper(s, id, s.docs[id]);
      UnflaggedHasNoHold(s, id);
      UpdateThenAudit(env, p, s, id, plan.writes[0].doc, tenant, actor, DocumentRestored, Obj(NoMembers));
    }
  }

  lemma UpdateSafe(env: Env, p: Permit, s: State, id: Uuid, tenant: Uuid, actor: Uuid, c: Changes, now: Clock)
    requires HoldsFlagged(s) && DocsProper(s) && (c.metadata.Some? ==> WellFormed(c.metadata.value))
    ensures SafeAll(env, p, s, PlanUpdate(env, s, id, tenant, actor, c, now).writes)
  {
    var plan := PlanUpdate(env, s, id, tenant, actor, c, now);
    if plan.writes != [] {
      assert DocProper(s, id, s.docs[id]);
      UnflaggedHasNoHold(s, id);
      ChangesWellFormed(c);
      UpdateThenAudit(env, p, s, id, plan.writes[0].doc, tenant, actor, DocumentUpdated, ChangesPayload(c));
    }
  }

  lemma ApplyPolicySafe(env: Env, p: Permit, s: State, id: Uuid, tenant: Uuid, policyId: Uuid, now: int)
    requires HoldsFlagged(s) && DocsProper(s) && p.policyOf == Some(id)
    ensures SafeAll(env, p, s, PlanApplyPolicy(s, id, tenant, policyId, now).writes)
  {
    var ws := PlanApplyPolicy(s, id, tenant, policyId, now).writes;
    if ws != [] {
      assert DocProper(s, id, s.docs[id]);
      UnflaggedHasNoHold(s, id);
      SafeOne(env, p, s, ws[0]);
    }
  }

  /** The flag is set before the hold exists. */
  lemma PlaceHoldSafe(env: Env, p: Permit, s: State, id: Uuid, tenant: Uuid, actor: Uuid, reason: string, hold: Uuid, now: Clock)
    requires DocsProper(s) && p.holds && hold !in s.holds
    ensures SafeAll(env, p, s, PlanPlaceHold(s, id, tenant, actor, reason, hold, now).writes)
  {
    var ws := PlanPlaceHold(s, id, tenant, actor, reason, hold, now).writes;
    if ws != [] {
      assert DocProper(s, id, s.docs[id]);
      SafeTwo(env, p, s, ws[0], ws[1]);
    }
  }

  /** The flag is cleared only after the last active hold is gone. */
  lemma ReleaseHoldSafe(env: Env, p: Permit, s: State, hold: Uuid, tenant: Uuid, now: Clock)
    requires DocsProper(s) && p.holds
    ensures SafeAll(env, p, s, PlanReleaseHold(s, hold, tenant, now).writes)
  {
    var ws := PlanReleaseHold(s, hold, tenant, now).writes;
    if |ws| == 1 {
      SafeOne(env, p, s, ws[0]);
      assert ws == [ws[0]];
    } else if |ws| == 2 {
      assert DocProper(s, ws[1].id, s.docs[ws[1].id]);
      SafeTwo(env, p, s, ws[0], ws[1]);
      assert ws == [ws[0], ws[1]];
    }
  }

  lemma CreateShareSafe(env: Env, p: Permit, s: State, share: Uuid, id: Uuid, actor: Uuid, token: string, terms: Terms, now: int)
    requires share !in s.shares && (terms.limit.Some? ==> terms.limit.value >= 1)
    requires forall i :: i in s.shares ==> s.shares[i].tokenHash != env.tokenHash(token)
    ensures SafeAll(env, p, s, PlanCreateShare(env, s, share, id, actor, token, terms, now).writes)
  {
    var ws := PlanCreateShare(env, s, share, id, actor, token, terms, now).writes;
    if ws != [] { SafeOne(env, p, s, ws[0]); }
  }

  lemma RevokeShareSafe(env: Env, p: Permit, s: State, share: Uuid, now: int)
    requires p.revokeOf == Some(share)
    ensures SafeAll(env, p, s, PlanRevokeShare(s, share, now).writes)
  {
    var ws := PlanRevokeShare(s, share, now).writes;
    if ws != [] { SafeOne(env, p, s, ws[0]); }
  }

  lemma DownloadSharedSafe(env: Env, p: Permit, s: State, token: string, now: int)
    requires p.download
    ensures SafeAll(env, p, s, PlanDownloadShared(env, s, token, now).writes)
  {
    var ws := PlanDownloadShared(env, s, token, now).writes;
    if ws != [] { SafeOne(env, p, s, ws[0]); }
  }

  // ---------------------------------------------------------------- tasks

  predicate OnlyEvents(ws: seq<Write>) {
    forall i :: 0 <= i < |ws| ==> ws[i].InsertEvent?
  }

  /** Audit appends change nothing but the audit table. */
  lemma {:induction false} EventsOnlyAudit(s: State, ws: seq<Write>)
    requires OnlyEvents(ws)
    ensures ApplyAll(s, ws) == s.(audit := ApplyAll(s, ws).audit)
    decreases |ws|
  {
    if ws == [] {
    } else {
      EventsOnlyAudit(s, ws[..|ws| - 1]);
    }
  }

  /** One more append in a loop of appends. */
  lemma AppendMore(env: Env, p: Permit, s: State, before: seq<Write>, r: Resource, tenant: Uuid,
                   event: EventType, payload: Json)
    requires SafeAll(env, p, s, before) && OnlyEvents(before)
    requires WellFormed(payload) && (r.kind == "document" ==> r.id in s.docs)
    ensures var ws := before + [Append(env, ApplyAll(s, before), r, tenant, None, event, payload)];
            SafeAll(env, p, s, ws) && OnlyEvents(ws)
  {
    var t := ApplyAll(s, before);
    EventsOnlyAudit(s, before);
    AppendSafe(env, p, t, t, r, tenant, None, event, payload);
    SafeSnoc(env, p, s, before, Append(env, t, r, tenant, None, event, payload));
  }

  lemma {:induction false} MonitorSafe(env: Env, p: Permit, s: State, held: seq<Row<HoldRow>>)
    ensures SafeAll(env, p, s, Monitor(env, s, held).writes) && OnlyEvents(Monitor(env, s, held).writes)
    decreases |held|
  {
    if held == [] {
    } else {
      var n := |held| - 1;
      MonitorSafe(env, p, s, held[..n]);
      var before := Monitor(env, s, held[..n]).writes;
      var id := held[n].row.document;
      if id in s.docs && s.docs[id].status.Deleted? {
        TwoMembers("hold_id", Str(held[n].id), "issue", Str(HOLD_ISSUE));
        AppendMore(env, p, s, before, DocumentResource(id), s.docs[id].tenant, IntegrityCheckFailed, AlarmPayload(held[n].id));
      } else {
        assert before + [] == before;
      }
    }
  }

  lemma {:induction false} ScanSafe(env: Env, p: Permit, s: State, expiring: seq<Expiring>, now: int)
    requires forall i :: 0 <= i < |expiring| ==> expiring[i].id in s.docs
    ensures SafeAll(env, p, s, Scan(env, s, expiring, now).writes) && OnlyEvents(Scan(env, s, expiring, now).writes)
    decreases |expiring|
  {
    if expiring == [] {
    } else {
      var n := |expiring| - 1;
      ScanSafe(env, p, s, expiring[..n], now);
      var before := Scan(env, s, expiring[..n], now).writes;
      var e := expiring[n];
      ThreeMembers("retention_policy_id", Str(e.policyId), "policy_mode", Str(ModeName(e.policy.mode)),
                   "expiry_at", Str(env.iso(ExpiryDate(e.policy, e.doc.createdAt))));
      AppendMore(env, p, s, before, DocumentResource(e.id), e.doc.tenant, RetentionApplied, ScanPayload(env, e));
    }
  }

  lemma RotatePayloadWellFormed(key: string, dryRun: bool)
    ensures WellFormed(RotatePayload(key, dryRun))
  {
    TwoMembers("object_key", Str(key), "dry_run", Bool(dryRun));
  }

  lemma {:induction false} RotateSafe(env: Env, p: Permit, s: State, stored: seq<Row<StorageRow>>, dryRun: bool)
    ensures SafeAll(env, p, s, Rotate(env, s, stored, dryRun)) && OnlyEvents(Rotate(env, s, stored, dryRun))
    decreases |stored|
  {
    if stored == [] {
    } else {
      var n := |stored| - 1;
      RotateSafe(env, p, s, stored[..n], dryRun);
      var row := stored[n];
      RotatePayloadWellFormed(row.row.objectKey, dryRun);
      AppendMore(env, p, s, Rotate(env, s, stored[..n], dryRun), Resource("storage_object", row.id), row.row.tenant,
                 KeyRotated, RotatePayload(row.row.objectKey, dryRun));
    }
  }

  /** A fresh package identifier makes a key that no blob has, and so no storage row. */
  lemma PackageKeyUnused(env: Env, s: State, id: Uuid, tenant: Uuid, timestamp: string, package: Uuid)
    requires StorageIntact(env, s) && PackageIdUnused(s, package) && IsTimestamp(timestamp)
    ensures var key := PackageKey(tenant, id, timestamp, package);
            key !in s.blobs && forall i :: i in s.storage ==> Apart(s.storage[i].objectKey, key)
  {
    var key := PackageKey(tenant, id, timestamp, package);
    PackageKeyShape(tenant, id, timestamp, package);
    forall i | i in s.storage ensures Apart(s.storage[i].objectKey, key) {
      assert Intact(env, s, s.storage[i]);
    }
  }

  lemma PackageFileSafe(env: Env, p: Permit, s: State, key: string, bytes: string, storage: Uuid, row: StorageRow)
    requires storage !in s.storage && forall i :: i in s.storage ==> Apart(s.storage[i].objectKey, key)
    requires row.objectKey == key && row.checksum == env.sha(bytes) && row.size == |bytes|
    ensures SafeAll(env, p, s, [PutBlob(key, bytes), InsertStorage(storage, row)])
    ensures ApplyAll(s, [PutBlob(key, bytes), InsertStorage(storage, row)])
         == s.(blobs := s.blobs[key := bytes], storage := s.storage[storage := row])
  {
    SafeTwo(env, p, s, PutBlob(key, bytes), InsertStorage(storage, row));
  }

  lemma PackageSafe(env: Env, p: Permit, s: State, id: Uuid, tenant: Uuid, actor: Option<Uuid>, timestamp: string, package: Uuid,
                    storage: Uuid, versions: seq<Row<VersionRow>>, signatures: seq<Row<SignatureRow>>, now: Clock)
    requires StorageIntact(env, s) && PackageIdUnused(s, package) && IsTimestamp(timestamp) && storage !in s.storage
    ensures SafeAll(env, p, s, PlanPackage(env, s, id, tenant, actor, timestamp, package, storage, versions, signatures, now).writes)
  {
    var ws := PlanPackage(env, s, id, tenant, actor, timestamp, package, storage, versions, signatures, now).writes;
    if ws != [] {
      var key := ws[0].key;
      var bundle := PackageBundle(env, s, id, actor, versions, signatures, now(0));
      PackageKeyUnused(env, s, id, tenant, timestamp, package);
      PackageFileSafe(env, p, s, key, ws[0].bytes, storage, ws[1].storage);
      ThreeMembers("package_key", Str(key), "chain_valid", Bool(bundle.broken == None), "event_count", Int(|bundle.events|));
      AppendSafe(env, p, s, ApplyAll(s, [ws[0], ws[1]]), DocumentResource(id), tenant, actor, AuditExported,
                 PackagePayload(key, bundle.broken == None, |bundle.events|));
      SafeSnoc(env, p, s, [ws[0], ws[1]], ws[2]);
      assert [ws[0], ws[1]] + [ws[2]] == ws;
    }
  }

  /** A watermark never lands on the key of a storage row. */
  lemma WatermarkSafe(env: Env, p: Permit, s: State, version: Uuid, shareId: string, text: string, nonce: string)
    requires KeysApart(s) && VersionsReadable(env, s)
    ensures SafeAll(env, p, s, PlanWatermark(env, s, version, shareId, text, nonce).writes)
  {
    var ws := PlanWatermark(env, s, version, shareId, text, nonce).writes;
    if ws != [] {
      var row := s.versions[version];
      assert Readable(env, s, version, row);
      var i := row.storage.value;
      var key := s.storage[i].objectKey;
      KeyParts(s.docs[row.document].tenant, row.document, version, row.fileName);
      WatermarkKeyShape(key, shareId);
      forall j | j in s.storage ensures s.storage[j].objectKey != ws[0].key {
        if j != i { assert Apart(s.storage[i].objectKey, s.storage[j].objectKey); }
      }
      SafeOne(env, p, s, ws[0]);
    }
  }

  lemma SignatureSafe(env: Env, p: Permit, s: State, version: Uuid, tenant: Uuid, signature: Uuid, kind: string, finding: Finding, now: int)
    requires signature !in s.signatures
    ensures SafeAll(env, p, s, PlanSignature(env, s, version, tenant, signature, kind, finding, now).writes)
  {
    var ws := PlanSignature(env, s, version, tenant, signature, kind, finding, now).writes;
    if ws != [] {
      ThreeMembers("signature_id", Str(signature), "verification_status", Str(finding.status), "signature_type", Str(kind));
      AppendSafe(env, p, s, Apply(s, ws[0]), Resource("document_version", version), tenant, None, SignatureVerified,
                 SignaturePayload(signature, finding.status, kind));
      SafeTwo(env, p, s, ws[0], ws[1]);
    }
  }

  // ---------------------------------------------------------------- runs

  lemma PlanSafe(env: Env, s: State, op: Op, now: Clock)
    requires Lawful(env) && Inv(env, s) && Proper(env, s, op)
    ensures SafeAll(env, PermitOf(op, now), s, PlanOf(env, s, op, now).writes)
  {
    var p := PermitOf(op, now);
    match op
    case UploadDocument(u) => UploadSafe(env, s, u, now);
    case DownloadDocument(id, tenant, actor) => DownloadSafe(env, p, s, id, tenant, actor);
    case DeleteDocument(id, tenant, actor, purge) => DeleteSafe(env, p, s, id, tenant, actor, purge, now);
    case RestoreDocument(id, tenant, actor) => RestoreSafe(env, p, s, id, tenant, actor, now);
    case UpdateDocument(id, tenant, actor, changes) => UpdateSafe(env, p, s, id, tenant, actor, changes, now);
    case ApplyPolicy(id, tenant, policyId) => ApplyPolicySafe(env, p, s, id, tenant, policyId, now(0));
    case PlaceHold(id, tenant, actor, reason, hold) => PlaceHoldSafe(env, p, s, id, tenant, actor, reason, hold, now);
    case ReleaseHold(hold, tenant) => ReleaseHoldSafe(env, p, s, hold, tenant, now);
    case CreatePolicy(id, policy) => SafeOne(env, p, s, InsertPolicy(id, policy));
    case CreateShare(share, id, actor, token, terms) => CreateShareSafe(env, p, s, share, id, actor, token, terms, now(0));
    case RevokeShare(share) => RevokeShareSafe(env, p, s, share, now(0));
    case DownloadShared(token) => DownloadSharedSafe(env, p, s, token, now(0));
    case MonitorHolds(held) => MonitorSafe(env, p, s, held);
    case ScanExpiry(expiring) => ScanSafe(env, p, s, expiring, now(0));
    case RotateKeys(stored, dryRun) => RotateSafe(env, p, s, stored, dryRun);
    case PackageAudit(id, tenant, actor, timestamp, package, storage, versions, signatures) =>
      PackageSafe(env, p, s, id, tenant, actor, timestamp, package, storage, versions, signatures, now);
    case ApplyWatermark(version, shareId, text, nonce) => WatermarkSafe(env, p, s, version, shareId, text, nonce);
    case VerifySignature(version, tenant, signature, kind, finding) =>
      SignatureSafe(env, p, s, version, tenant, signature, kind, finding, now(0));
  }

  /** What one call writes, wherever it stops, is safe. */
  lemma CallSafe(env: Env, s: State, c: Call)
    requires Lawful(env) && Inv(env, s) && Proper(env, s, c.op)
    ensures SafeAll(env, PermitOf(c.op, c.now), s, Upto(PlanOf(env, s, c.op, c.now).writes, c.stop))
    ensures Inv(env, After(env, s, c))
  {
    var ws := PlanOf(env, s, c.op, c.now).writes;
    PlanSafe(env, s, c.op, c.now);
    SafePrefix(env, PermitOf(c.op, c.now), s, ws, |Upto(ws, c.stop)|);
    assert ws[..|ws|] == ws;
    SafeAllKeepsInv(env, PermitOf(c.op, c.now), s, Upto(ws, c.stop));
  }

  lemma EmptyInv(env: Env)
    ensures Inv(env, EMPTY)
  {}

  /** Every state of every serial run keeps the invariant, wherever its requests stop. */
  /** What is assumed of the surroundings can be had: any upload may come first. */
  lemma SurroundingsExist(u: Upload)
    ensures exists env :: Lawful(env) && Proper(env, EMPTY, UploadDocument(u))
  {
    var env := Env(_ => seq(64, _ => '0'), text => text, (key, plain, nonce) => plain, (key, cipher) => Some(cipher), "",
                   at => "", token => token, (page, text) => page, bundle => "");
    assert Lawful(env) && Proper(env, EMPTY, UploadDocument(u));
  }

  lemma {:induction false} RunKeepsInv(env: Env, s: State, calls: seq<Call>)
    requires Lawful(env) && Inv(env, s) && ProperRun(env, s, calls)
    ensures Inv(env, Run(env, s, calls))
    decreases |calls|
  {
    if calls == [] {
    } else {
      var n := |calls| - 1;
      RunKeepsInv(env, s, calls[..n]);
      CallSafe(env, Run(env, s, calls[..n]), calls[n]);
    }
  }
}
