/** What every write of every request respects, and what therefore holds at every point of every
    serial run, including runs whose requests stop between two writes. */
module Safety {
  import opened Basics
  import opened CanonicalJson
  import opened IntegrityChain
  import opened AuditTable
  import opened ObjectKeys
  import opened Entities
  import opened Vault

  // ---------------------------------------------------------------- the invariant

  /** An active hold is on an existing document whose cached flag is set. */
  ghost predicate HoldsFlagged(s: State) {
    forall h :: h in s.holds ==>
      s.holds[h].document in s.docs && (s.holds[h].active ==> s.docs[s.holds[h].document].legalHold)
  }

  ghost predicate ChainsLinked(env: Env, s: State) {
    forall r :: ResourceLinked(env.mac, s.audit, r)
  }

  predicate EventProper(s: State, e: EventRow) {
    WellFormed(e.payload) && (e.resource.kind == "document" ==> e.resource.id in s.docs)
  }

  /** Payloads are JSON values, and document events are about existing documents. */
  predicate EventsProper(s: State) {
    forall e :: e in s.audit ==> EventProper(s, e)
  }

  predicate Intact(env: Env, s: State, row: StorageRow) {
    row.objectKey in s.blobs && env.sha(s.blobs[row.objectKey]) == row.checksum && |s.blobs[row.objectKey]| == row.size
  }

  /** No ghosts: every storage row has its blob, and the blob has the row's checksum. */
  ghost predicate StorageIntact(env: Env, s: State) {
    forall i :: i in s.storage ==> Intact(env, s, s.storage[i])
  }

  predicate Apart(a: string, b: string) {
    a != b && (VersionShaped(a) && VersionShaped(b) ==> VersionPart(a) != VersionPart(b))
  }

  /** Storage rows have different keys; two version keys name different versions. */
  ghost predicate KeysApart(s: State) {
    forall i, j :: i in s.storage && j in s.storage && i != j ==> Apart(s.storage[i].objectKey, s.storage[j].objectKey)
  }

  predicate Readable(env: Env, s: State, v: Uuid, row: VersionRow) {
    && row.document in s.docs
    && row.storage.Some? && row.storage.value in s.storage
    && s.storage[row.storage.value].objectKey == ObjectKey(s.docs[row.document].tenant, row.document, v, row.fileName)
    && s.storage[row.storage.value].objectKey in s.blobs
    && (var content := Decrypt(env, row.keyId, s.blobs[s.storage[row.storage.value].objectKey]);
        content.Some? && env.sha(content.value) == row.checksum && |content.value| == row.size)
  }

  /** The storage row of every version holds the key that a download recomputes, and the blob there
      decrypts to content with the version's checksum and size. */
  ghost predicate VersionsReadable(env: Env, s: State) {
    forall v :: v in s.versions ==> Readable(env, s, v, s.versions[v])
  }

  /** The current version of a document, if it has one, exists and belongs to it. */
  predicate VersionOwned(s: State, id: Uuid, row: DocRow) {
    row.currentVersion.Some? ==>
      row.currentVersion.value in s.versions && s.versions[row.currentVersion.value].document == id
  }

  predicate DocProper(s: State, id: Uuid, row: DocRow) {
    && VersionOwned(s, id, row)
    && (row.policy.Some? ==> row.policy.value in s.policies)
  }

  ghost predicate VersionsOwned(s: State) {
    forall d :: d in s.docs ==> VersionOwned(s, d, s.docs[d])
  }

  ghost predicate DocsProper(s: State) {
    forall d :: d in s.docs ==> DocProper(s, d, s.docs[d])
  }

  /** Share links are on existing documents, within their limit, and have different tokens. */
  ghost predicate SharesProper(s: State) {
    && (forall i :: i in s.shares ==> s.shares[i].document in s.docs && WithinLimit(s.shares[i]))
    && TokensUnique(s)
  }

  ghost predicate Inv(env: Env, s: State) {
    && HoldsFlagged(s)
    && ChainsLinked(env, s)
    && EventsProper(s)
    && StorageIntact(env, s)
    && KeysApart(s)
    && VersionsReadable(env, s)
    && DocsProper(s)
    && SharesProper(s)
  }

  // ---------------------------------------------------------------- safe writes

  /** What a request may do beyond the common rules. */
  datatype Permit = Permit(
    now: int,
    deleteOf: Option<Uuid>,  // delete this document
    purge: bool,             // ... regardless of holds and retention
    holds: bool,             // change holds and their flag
    policyOf: Option<Uuid>,  // attach a policy to this document
    download: bool,          // count a download
    revokeOf: Option<Uuid>)  // revoke this share link

  function PermitOf(op: Op, now: Clock): Permit {
    Permit(now(0),
           if op.DeleteDocument? then Some(op.doc) else None,
           op.DeleteDocument? && op.purge,
           op.PlaceHold? || op.ReleaseHold?,
           if op.ApplyPolicy? then Some(op.doc) else None,
           op.DownloadShared?,
           if op.RevokeShare? then Some(op.share) else None)
  }

  ghost predicate SafeUpdate(p: Permit, s: State, id: Uuid, before: DocRow, row: DocRow) {
    && row.tenant == before.tenant && row.createdAt == before.createdAt
    && DocProper(s, id, row)
    && (before.currentVersion.Some? ==> row.currentVersion == before.currentVersion)
    && (row.legalHold || !HasActiveHold(s, id))
    && (row.legalHold == before.legalHold || p.holds)
    && (row.policy == before.policy || p.policyOf == Some(id))
    && (row.status.Deleted? && !before.status.Deleted? ==>
          p.deleteOf == Some(id) && DeleteGuard(s, before, p.purge, p.now) == None)
  }

  ghost predicate Safe(env: Env, p: Permit, s: State, w: Write) {
    match w
    case PutBlob(key, _) => forall i :: i in s.storage ==> s.storage[i].objectKey != key
    case InsertStorage(id, row) =>
      && id !in s.storage && Intact(env, s, row)
      && forall i :: i in s.storage ==> Apart(s.storage[i].objectKey, row.objectKey)
    case InsertDoc(id, row) =>
      id !in s.docs && row.status.Processing? && !row.legalHold && row.currentVersion == None && DocProper(s, id, row)
    case UpdateDoc(id, row) => id in s.docs && SafeUpdate(p, s, id, s.docs[id], row)
    case InsertVersion(id, row) => id !in s.versions && Readable(env, s, id, row)
    case InsertHold(id, row) =>
      id !in s.holds && p.holds && row.document in s.docs && (row.active ==> s.docs[row.document].legalHold)
    case UpdateHold(id, row) =>
      id in s.holds && p.holds && row.document == s.holds[id].document && (row.active ==> s.holds[id].active)
    case InsertPolicy(id, _) => id !in s.policies
    case InsertShare(id, row) =>
      && id !in s.shares && row.document in s.docs && WithinLimit(row) && row.count == 0
      && forall i :: i in s.shares ==> s.shares[i].tokenHash != row.tokenHash
    case UpdateShare(id, row) =>
      && id in s.shares && Later(s.shares[id], row)
      && (row.count == s.shares[id].count || (p.download && WithinLimit(row)))
      && (row.revokedAt == s.shares[id].revokedAt || p.revokeOf == Some(id))
    case InsertSignature(id, row) => id !in s.signatures && row.version in s.versions
    case InsertEvent(e) =>
      e.prev == LastHash(s.audit, e.resource) && Authentic(env.mac, ToLink(e)) && EventProper(s, e)
  }

  /** What stored content and authenticity need of a write: a safe write without what it asks of the columns
      that a request copies and writes back later. A document row may be stale in every changeable column, an
      event may name an old predecessor, a hold or a share link may be anything. */
  ghost predicate Loose(env: Env, s: State, w: Write) {
    match w
    case PutBlob(key, _) => forall i :: i in s.storage ==> s.storage[i].objectKey != key
    case InsertStorage(id, row) =>
      && id !in s.storage && Intact(env, s, row)
      && forall i :: i in s.storage ==> Apart(s.storage[i].objectKey, row.objectKey)
    case InsertDoc(id, row) => id !in s.docs && row.currentVersion == None
    case UpdateDoc(id, row) =>
      id in s.docs && row.tenant == s.docs[id].tenant && row.createdAt == s.docs[id].createdAt && VersionOwned(s, id, row)
    case InsertVersion(id, row) => id !in s.versions && Readable(env, s, id, row)
    case InsertEvent(e) => Authentic(env.mac, ToLink(e)) && EventProper(s, e)
    case _ => true
  }

  lemma SafeIsLoose(env: Env, p: Permit, s: State, w: Write)
    requires Safe(env, p, s, w)
    ensures Loose(env, s, w)
  {}

  ghost predicate SafeAll(env: Env, p: Permit, s: State, ws: seq<Write>) {
    ws == [] ||
    (var n := |ws| - 1;
     SafeAll(env, p, s, ws[..n]) && Safe(env, p, ApplyAll(s, ws[..n]), ws[n]))
  }

  lemma SafeSnoc(env: Env, p: Permit, s: State, ws: seq<Write>, w: Write)
    requires SafeAll(env, p, s, ws) && Safe(env, p, ApplyAll(s, ws), w)
    ensures SafeAll(env, p, s, ws + [w])
    ensures ApplyAll(s, ws + [w]) == Apply(ApplyAll(s, ws), w)
  {}

  lemma {:induction false} SafePrefix(env: Env, p: Permit, s: State, ws: seq<Write>, k: nat)
    requires SafeAll(env, p, s, ws) && k <= |ws|
    ensures SafeAll(env, p, s, ws[..k])
    decreases |ws|
  {
    if k == |ws| {
      assert ws[..k] == ws;
    } else {
      var n := |ws| - 1;
      SafePrefix(env, p, s, ws[..n], k);
      assert ws[..n][..k] == ws[..k];
    }
  }

  // ---------------------------------------------------------------- safe writes keep the invariant

  lemma HoldsStayFlagged(env: Env, p: Permit, s: State, w: Write)
    requires HoldsFlagged(s) && Safe(env, p, s, w)
    ensures HoldsFlagged(Apply(s, w))
  {}

  lemma ChainsStayLinked(env: Env, p: Permit, s: State, w: Write)
    requires ChainsLinked(env, s) && Safe(env, p, s, w)
    ensures ChainsLinked(env, Apply(s, w))
  {
    if w.InsertEvent? {
      forall r ensures ResourceLinked(env.mac, Apply(s, w).audit, r) {
        AppendKeepsLinked(env.mac, s.audit, w.event, r);
      }
    }
  }

  lemma EventsStayProper(env: Env, s: State, w: Write)
    requires EventsProper(s) && Loose(env, s, w)
    ensures EventsProper(Apply(s, w))
  {}

  lemma StorageStaysIntact(env: Env, s: State, w: Write)
    requires StorageIntact(env, s) && Loose(env, s, w)
    ensures StorageIntact(env, Apply(s, w))
  {}

  lemma KeysStayApart(env: Env, s: State, w: Write)
    requires KeysApart(s) && Loose(env, s, w)
    ensures KeysApart(Apply(s, w))
  {}

  lemma StaysReadable(env: Env, s: State, w: Write, v: Uuid, row: VersionRow)
    requires Readable(env, s, v, row) && Loose(env, s, w)
    ensures Readable(env, Apply(s, w), v, row)
  {
    var t := Apply(s, w);
    assert t.docs[row.document].tenant == s.docs[row.document].tenant;
    assert t.storage[row.storage.value] == s.storage[row.storage.value];
  }

  lemma VersionsStayReadable(env: Env, s: State, w: Write)
    requires VersionsReadable(env, s) && Loose(env, s, w)
    ensures VersionsReadable(env, Apply(s, w))
  {
    var t := Apply(s, w);
    forall v | v in t.versions ensures Readable(env, t, v, t.versions[v]) {
      if v in s.versions {
        assert Readable(env, s, v, s.versions[v]);
        StaysReadable(env, s, w, v, s.versions[v]);
      } else {
        StaysReadable(env, s, w, v, w.version);
      }
    }
  }

  lemma DocsStayProper(env: Env, p: Permit, s: State, w: Write)
    requires DocsProper(s) && Safe(env, p, s, w)
    ensures DocsProper(Apply(s, w))
  {}

  lemma SharesStayProper(env: Env, p: Permit, s: State, w: Write)
    requires SharesProper(s) && Safe(env, p, s, w)
    ensures SharesProper(Apply(s, w))
  {}

  lemma SafeKeepsInv(env: Env, p: Permit, s: State, w: Write)
    requires Inv(env, s) && Safe(env, p, s, w)
    ensures Inv(env, Apply(s, w))
  {
    SafeIsLoose(env, p, s, w);
    HoldsStayFlagged(env, p, s, w);
    ChainsStayLinked(env, p, s, w);
    EventsStayProper(env, s, w);
    StorageStaysIntact(env, s, w);
    KeysStayApart(env, s, w);
    VersionsStayReadable(env, s, w);
    DocsStayProper(env, p, s, w);
    SharesStayProper(env, p, s, w);
  }

  lemma {:induction false} SafeAllKeepsInv(env: Env, p: Permit, s: State, ws: seq<Write>)
    requires Inv(env, s) && SafeAll(env, p, s, ws)
    ensures Inv(env, ApplyAll(s, ws))
    decreases |ws|
  {
    if ws == [] {
    } else {
      var n := |ws| - 1;
      SafeAllKeepsInv(env, p, s, ws[..n]);
      SafeKeepsInv(env, p, ApplyAll(s, ws[..n]), ws[n]);
    }
  }
}
