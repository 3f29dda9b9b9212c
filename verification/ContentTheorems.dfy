/** Encrypted content: what was uploaded is what every later download returns. */
module ContentTheorems {
  import opened Basics
  import opened AuditTable
  import opened ObjectKeys
  import opened Entities
  import opened Vault
  import opened Safety
  import opened Requests
  import opened Progress

  /** At every point of every run, a document has readable content exactly when it has a version; the
      content has the size and checksum its version row states. */
  lemma ContentReadableIffPublished(env: Env, s: State, id: Uuid)
    requires VersionsReadable(env, s) && VersionsOwned(s)
    ensures DownloadPublic(env, s, id).Content? <==> id in s.docs && s.docs[id].currentVersion.Some?
    ensures DownloadPublic(env, s, id).Content? ==>
      var v := s.versions[s.docs[id].currentVersion.value];
      var plain := DownloadPublic(env, s, id).bytes;
      env.sha(plain) == v.checksum && |plain| == v.size
  {}

  /** The content of a document never changes again. */
  lemma ContentIsFinal(env: Env, s: State, calls: seq<Call>, id: Uuid)
    requires Lawful(env) && Inv(env, s) && ProperRun(env, s, calls)
    requires DownloadPublic(env, s, id).Content?
    ensures DownloadPublic(env, Run(env, s, calls), id) == DownloadPublic(env, s, id)
  {
    RunKeeps(env, s, calls);
    var t := Run(env, s, calls);
    assert DocKept(s.docs[id], t.docs[id]);
    var v := s.docs[id].currentVersion.value;
    assert DocProper(s, id, s.docs[id]);
    assert Readable(env, s, v, s.versions[v]);
    var i := s.versions[v].storage.value;
    assert BlobKept(s, t, s.storage[i].objectKey);
  }

  /** A tenant's own download returns what the public one does, to that tenant alone. */
  lemma DownloadAgreesWithPublic(env: Env, s: State, id: Uuid, tenant: Uuid, actor: Uuid)
    ensures PlanDownload(env, s, id, tenant, actor).reply ==
      if id in s.docs && s.docs[id].tenant == tenant then DownloadPublic(env, s, id) else Failed(DocumentNotFound)
  {
    if id in s.docs { PublicReadsContent(env, s, id); }
  }

  lemma StoredUploadServes(env: Env, s: State, u: Upload, now: Clock)
    requires Lawful(env)
    ensures var t := Apply(Apply(Stored4(env, s, u, now), Publish(u, now)), UploadAudit(env, s, u));
            u.doc in t.docs && t.docs[u.doc].tenant == u.tenant
            && DownloadPublic(env, t, u.doc) == Content(u.file, u.fileName, u.mime)
  {}

  lemma UploadedContent(env: Env, s: State, u: Upload, now: Clock)
    requires Lawful(env) && Inv(env, s) && Proper(env, s, UploadDocument(u))
    requires PlanUpload(env, s, u, now).reply.Saved?
    ensures var t := ApplyAll(s, PlanUpload(env, s, u, now).writes);
            u.doc in t.docs && t.docs[u.doc].tenant == u.tenant
            && DownloadPublic(env, t, u.doc) == Content(u.file, u.fileName, u.mime)
  {
    UploadLeaves(env, s, u, now);
    StoredUploadServes(env, s, u, now);
  }

  /** Content round trip: after an upload completes, and whatever requests and tasks follow, stopping
      wherever they stop, both downloads return exactly the bytes, name and type uploaded. */
  lemma UploadRoundTrip(env: Env, s: State, u: Upload, now: Clock, calls: seq<Call>, actor: Uuid)
    requires Lawful(env) && Inv(env, s) && Proper(env, s, UploadDocument(u))
    requires PlanUpload(env, s, u, now).reply.Saved?
    requires ProperRun(env, ApplyAll(s, PlanUpload(env, s, u, now).writes), calls)
    ensures var t := Run(env, ApplyAll(s, PlanUpload(env, s, u, now).writes), calls);
            && DownloadPublic(env, t, u.doc) == Content(u.file, u.fileName, u.mime)
            && PlanDownload(env, t, u.doc, u.tenant, actor).reply == Content(u.file, u.fileName, u.mime)
  {
    var s1 := ApplyAll(s, PlanUpload(env, s, u, now).writes);
    UploadSafe(env, s, u, now);
    SafeAllKeepsInv(env, PermitOf(UploadDocument(u), now), s, PlanUpload(env, s, u, now).writes);
    UploadedContent(env, s, u, now);
    ContentIsFinal(env, s1, calls, u.doc);
    RunKeeps(env, s1, calls);
    DownloadAgreesWithPublic(env, Run(env, s1, calls), u.doc, u.tenant, actor);
  }

  // ---------------------------------------------------------------- ingest

  datatype Ingest = VersionMissing | NoStorageObject | IngestFails | Checked(integrityOk: bool, decryptOk: bool)

  /** `_ingest_async`: follow the storage row of a version, compare checksums, try to decrypt. */
  function IngestReport(env: Env, s: State, version: Uuid): Ingest {
    if version !in s.versions then VersionMissing
    else
      var v := s.versions[version];
      if v.storage == None || v.storage.value !in s.storage then NoStorageObject
      else
        var row := s.storage[v.storage.value];
        if row.objectKey !in s.blobs then IngestFails
        else Checked(env.sha(s.blobs[row.objectKey]) == row.checksum, Decrypt(env, v.keyId, s.blobs[row.objectKey]).Some?)
  }

  /** The key a download recomputes is the key the storage row holds, in every reachable state; the two
      ways to the content agree, and ingest finds nothing wrong. */
  lemma RecomputedKeyAgrees(env: Env, s: State, version: Uuid)
    requires Inv(env, s) && version in s.versions
    ensures var v := s.versions[version];
            v.document in s.docs && v.storage.Some? && v.storage.value in s.storage
            && s.storage[v.storage.value].objectKey
               == ObjectKey(s.docs[v.document].tenant, v.document, version, v.fileName)
    ensures IngestReport(env, s, version) == Checked(true, true)
    ensures FollowStorage(env, s, version).Content?
    ensures s.docs[s.versions[version].document].currentVersion == Some(version) ==>
      DownloadPublic(env, s, s.versions[version].document).Content?
      && DownloadPublic(env, s, s.versions[version].document).bytes == FollowStorage(env, s, version).bytes
  {}
}
