/** `DocumentService`, step by step over the store. Each method is proved to make exactly the writes of
    its plan in order, so that the theorems about plans and runs are about these methods. */
module Service {
  import opened Basics
  import opened CanonicalJson
  import opened IntegrityChain
  import opened AuditTable
  import opened ObjectKeys
  import opened Entities
  import opened Vault
  import opened Repositories

  ghost function PublishWrites(env: Env, s: State, u: Upload, now: Clock): seq<Write> {
    [InsertVersion(u.version, UploadVersion(env, u, now)), Vault.Publish(u, now), UploadAudit(env, s, u)]
  }

  /** An upload is its two files, its document row and its publication. */
  lemma UploadInParts(env: Env, s: State, t: State, u: Upload, now: Clock)
    requires (u.policy.Some? ==> u.policy.value in s.policies) && t.audit == s.audit
    ensures PlanUpload(env, s, u, now).writes
         == UploadFiles(env, u, now) + [InsertDoc(u.doc, UploadDoc(u, now))] + PublishWrites(env, t, u, now)
  {}

  class DocumentService {
    const env: Env
    const store: Store
    const chain: IntegrityChainService

    constructor (env: Env, store: Store)
      ensures this.env == env && this.store == store && chain.mac == env.mac
    {
      this.env := env;
      this.store := store;
      chain := new IntegrityChainService(env.mac);
    }

    /** The first part of an upload: the blob and its row. */
    method StoreFile(u: Upload, now: Clock) returns (keyId: string, checksum: string)
      requires u.storage !in store.storage
      modifies store
      ensures keyId == env.seal(env.kek, u.dek, u.keyNonce) && checksum == env.sha(u.file)
      ensures Did(old(store.State()), old(store.journal), store.State(), store.journal, UploadFiles(env, u, now))
    {
      ghost var s, j := store.State(), store.journal;
      keyId := env.seal(env.kek, u.dek, u.keyNonce);
      var cipher := env.seal(u.dek, u.file, u.fileNonce);
      checksum := env.sha(u.file);
      var key := ObjectKey(u.tenant, u.doc, u.version, u.fileName);
      store.PutObject(key, cipher);
      store.CreateStorageObject(u.storage, StorageRow(u.tenant, key, true, |cipher|, env.sha(cipher), now(0)));
      DidTwo(s, j, PutBlob(key, cipher), InsertStorage(u.storage, UploadStorage(env, u, now)));
    }

    method UploadDocument(u: Upload, now: Clock) returns (reply: Reply)
      requires u.doc !in store.docs && u.version !in store.versions && u.storage !in store.storage
      modifies store
      ensures var plan := PlanUpload(env, old(store.State()), u, now);
              reply == plan.reply && Did(old(store.State()), old(store.journal), store.State(), store.journal, plan.writes)
    {
      ghost var s, j := store.State(), store.journal;
      var keyId, checksum := StoreFile(u, now);
      ApplyTwo(s, UploadFiles(env, u, now)[0], UploadFiles(env, u, now)[1]);
      ghost var row := InsertDoc(u.doc, UploadDoc(u, now));
      DidMore(s, j, store.State(), store.journal, UploadFiles(env, u, now), row);
      var document := store.CreateDocument(u.doc,
        DocRow(u.tenant, u.title, u.docType, Processing, u.actor, None, u.policy, false, u.tags, u.metadata, now(1), now(1)));
      if document == null { return Failed(ForeignKey); }
      ghost var t, k := store.State(), store.journal;
      reply := Publish(u, document, keyId, checksum, now);
      DidThen(s, j, t, k, store.State(), store.journal, UploadFiles(env, u, now) + [row], PublishWrites(env, t, u, now));
      UploadInParts(env, s, t, u, now);
    }

    /** The last part of an upload: the version, the document again, the audit event. */
    method Publish(u: Upload, document: Document, keyId: string, checksum: string, now: Clock) returns (reply: Reply)
      requires document.id == u.doc && document.Row() == UploadDoc(u, now)
      requires u.doc in store.docs && store.docs[u.doc] == UploadDoc(u, now) && u.version !in store.versions
      requires keyId == env.seal(env.kek, u.dek, u.keyNonce) && checksum == env.sha(u.file)
      modifies store, document
      ensures reply == Saved(PublishedDoc(u, now))
      ensures Did(old(store.State()), old(store.journal), store.State(), store.journal, PublishWrites(env, old(store.State()), u, now))
    {
      ghost var s, j := store.State(), store.journal;
      ghost var ws := PublishWrites(env, s, u, now);
      store.CreateVersion(u.version,
        VersionRow(u.doc, 1, u.fileName, u.mime, |u.file|, checksum, Some(u.storage), keyId, u.actor, now(2)));
      document.status := Active;
      document.currentVersion := Some(u.version);
      var saved := store.UpdateDocument(document, now(3));
      DidTwo(s, j, ws[0], ws[1]);
      DidMore(s, j, store.State(), store.journal, [ws[0], ws[1]], ws[2]);
      store.WriteAudit(env, DocumentResource(u.doc), u.tenant, Some(u.actor), DocumentCreated, CreatedPayload(u));
      assert [ws[0], ws[1]] + [ws[2]] == ws;
      return Saved(saved.Row());
    }

    method DownloadDocument(id: Uuid, tenant: Uuid, actor: Uuid) returns (reply: Reply)
      modifies store
      ensures var plan := PlanDownload(env, old(store.State()), id, tenant, actor);
              reply == plan.reply && Did(old(store.State()), old(store.journal), store.State(), store.journal, plan.writes)
    {
      ghost var s, j := store.State(), store.journal;
      var document := store.GetById(id, tenant);
      if document == null { return Failed(DocumentNotFound); }
      if document.currentVersion == None { return Failed(DocumentNotFound); }
      var vid := document.currentVersion.value;
      if vid !in store.versions { return Failed(DocumentNotFound); }
      var version := store.versions[vid];
      var cipher := store.GetObject(ObjectKey(tenant, id, vid, version.fileName));
      if cipher == None { return Failed(BlobMissing); }
      var dek := env.open(env.kek, version.keyId);
      if dek == None { return Failed(Undecryptable); }
      var plain := env.open(dek.value, cipher.value);
      if plain == None { return Failed(Undecryptable); }
      var payload := Obj(Member("version_id", Str(vid), NoMembers));
      store.WriteAudit(env, DocumentResource(id), tenant, Some(actor), DocumentDownloaded, payload);
      DidOne(s, j, Append(env, s, DocumentResource(id), tenant, Some(actor), DocumentDownloaded, payload));
      return Content(plain.value, version.fileName, version.mime);
    }

    method DownloadPublic(id: Uuid) returns (reply: Reply)
      ensures reply == Vault.DownloadPublic(env, store.State(), id)
    {
      var document := store.GetByIdGlobal(id);
      if document == null { return Failed(DocumentNotFound); }
      if document.currentVersion == None { return Failed(DocumentNotFound); }
      var vid := document.currentVersion.value;
      if vid !in store.versions { return Failed(DocumentNotFound); }
      var version := store.versions[vid];
      var cipher := store.GetObject(ObjectKey(document.tenant, id, vid, version.fileName));
      if cipher == None { return Failed(BlobMissing); }
      var dek := env.open(env.kek, version.keyId);
      if dek == None { return Failed(Undecryptable); }
      var plain := env.open(dek.value, cipher.value);
      if plain == None { return Failed(Undecryptable); }
      return Content(plain.value, version.fileName, version.mime);
    }

    method DeleteDocument(id: Uuid, tenant: Uuid, actor: Uuid, purge: bool, now: Clock) returns (reply: Reply)
      modifies store
      ensures var plan := PlanDelete(env, old(store.State()), id, tenant, actor, purge, now);
              reply == plan.reply && Did(old(store.State()), old(store.journal), store.State(), store.journal, plan.writes)
    {
      ghost var s, j := store.State(), store.journal;
      var document := store.GetById(id, tenant);
      if document == null { return Failed(DocumentNotFound); }
      if document.legalHold && !purge { return Failed(LegalHoldViolation); }
      if document.policy.Some? && document.policy.value in store.policies {
        var verdict := CanDelete(store.policies[document.policy.value], document.createdAt, now(0));
        if verdict.Refused? && !purge { return Failed(RetentionViolation(verdict.why)); }
      }
      document.SoftDelete(now(1));
      var _ := store.UpdateDocument(document, now(2));
      var payload := Obj(Member("privileged_purge", Bool(purge), NoMembers));
      store.WriteAudit(env, DocumentResource(id), tenant, Some(actor), DocumentDeleted, payload);
      DidTwo(s, j, UpdateDoc(id, s.docs[id].(status := Deleted, updatedAt := now(2))),
             Append(env, s, DocumentResource(id), tenant, Some(actor), DocumentDeleted, payload));
      return Done;
    }

    method RestoreDocument(id: Uuid, tenant: Uuid, actor: Uuid, now: Clock) returns (reply: Reply)
      modifies store
      ensures var plan := PlanRestore(env, old(store.State()), id, tenant, actor, now);
              reply == plan.reply && Did(old(store.State()), old(store.journal), store.State(), store.journal, plan.writes)
    {
      ghost var s, j := store.State(), store.journal;
      var document := store.GetById(id, tenant);
      if document == null { return Failed(DocumentNotFound); }
      var ok := document.Restore(now(0));
      if !ok { return Failed(NotDeleted); }
      var saved := store.UpdateDocument(document, now(1));
      store.WriteAudit(env, DocumentResource(id), tenant, Some(actor), DocumentRestored, Obj(NoMembers));
      DidTwo(s, j, UpdateDoc(id, s.docs[id].(status := Active, updatedAt := now(1))),
             Append(env, s, DocumentResource(id), tenant, Some(actor), DocumentRestored, Obj(NoMembers)));
      return Saved(saved.Row());
    }

    method Edit(document: Document, c: Changes, now: int)
      modifies document
      ensures document.Row() == Changed(old(document.Row()), c, now)
    {
      if c.title.Some? { document.title := c.title.value; }
      if c.tags.Some? { document.tags := c.tags.value; }
      if c.metadata.Some? { document.metadata := c.metadata.value; }
      document.updatedAt := now;
    }

    method UpdateDocument(id: Uuid, tenant: Uuid, actor: Uuid, c: Changes, now: Clock) returns (reply: Reply)
      modifies store
      ensures var plan := PlanUpdate(env, old(store.State()), id, tenant, actor, c, now);
              reply == plan.reply && Did(old(store.State()), old(store.journal), store.State(), store.journal, plan.writes)
    {
      ghost var s, j := store.State(), store.journal;
      var document := store.GetById(id, tenant);
      if document == null { return Failed(DocumentNotFound); }
      Edit(document, c, now(0));
      var saved := store.UpdateDocument(document, now(1));
      store.WriteAudit(env, DocumentResource(id), tenant, Some(actor), DocumentUpdated, ChangesPayload(c));
      DidTwo(s, j, UpdateDoc(id, Changed(s.docs[id], c, now(1))),
             Append(env, s, DocumentResource(id), tenant, Some(actor), DocumentUpdated, ChangesPayload(c)));
      return Saved(saved.Row());
    }

    /** None where the document is not the tenant's; else the length checked and the first broken event. */
    method VerifyIntegrity(id: Uuid, tenant: Uuid) returns (report: Option<(nat, Option<nat>)>)
      requires chain.mac == env.mac
      ensures report == if GetDoc(store.State(), id, tenant) == None then None
                        else Some(IntegrityReport(env, store.State(), id))
    {
      var document := store.GetById(id, tenant);
      if document == null { return None; }
      var events := Limited(Timeline(store.audit, DocumentResource(id)), VERIFY_LIMIT);
      var _, broken := chain.VerifyChain(ToLinks(events));
      return Some((|events|, broken));
    }
  }
}
