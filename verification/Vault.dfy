/** The vault as a value: the tables, the bucket, and the writes that change them. One write is one
    repository or storage call, which commits on its own. */
module Vault {
  import opened Basics
  import opened CanonicalJson
  import opened IntegrityChain
  import opened AuditTable
  import opened ObjectKeys
  import opened Entities

  /** A table row with its key. */
  datatype Row<T> = Row(id: Uuid, row: T)

  /** What an audit package is made of. */
  datatype Bundle = Bundle(
    doc: DocRow,
    versions: seq<Row<VersionRow>>,
    events: seq<EventRow>,
    broken: Option<nat>,
    signatures: seq<Row<SignatureRow>>,
    generatedBy: Option<Uuid>,
    generatedAt: int)

  /** The library functions the vault is built on. `seal` and `open` are Fernet encryption under a key,
      the third argument of `seal` being the randomness it draws. */
  datatype Env = Env(
    mac: string -> string,
    sha: string -> string,
    seal: (string, string, string) -> string,
    open: (string, string) -> Option<string>,
    kek: string,
    iso: int -> string,
    tokenHash: string -> string,
    stampPdf: (string, string) -> string,
    zip: Bundle -> string)

  /** Decryption undoes encryption under the same key, and HMAC output is a digest. */
  ghost predicate Lawful(env: Env) {
    && HexDigest(env.mac)
    && forall key, plain, nonce :: env.open(key, env.seal(key, plain, nonce)) == Some(plain)
  }

  /** The readings a request takes of the clock, the first being number 0. */
  type Clock = nat -> int

  datatype State = State(
    docs: map<Uuid, DocRow>,
    versions: map<Uuid, VersionRow>,
    storage: map<Uuid, StorageRow>,
    holds: map<Uuid, HoldRow>,
    policies: map<Uuid, PolicyRow>,
    shares: map<Uuid, ShareRow>,
    signatures: map<Uuid, SignatureRow>,
    audit: seq<EventRow>,
    blobs: map<string, string>)

  const EMPTY := State(map[], map[], map[], map[], map[], map[], map[], [], map[])

  datatype Write =
    | PutBlob(key: string, bytes: string)
    | InsertStorage(id: Uuid, storage: StorageRow)
    | InsertDoc(id: Uuid, doc: DocRow)
    | UpdateDoc(id: Uuid, doc: DocRow)
    | InsertVersion(id: Uuid, version: VersionRow)
    | InsertHold(id: Uuid, hold: HoldRow)
    | UpdateHold(id: Uuid, hold: HoldRow)
    | InsertPolicy(id: Uuid, policy: PolicyRow)
    | InsertShare(id: Uuid, share: ShareRow)
    | UpdateShare(id: Uuid, share: ShareRow)
    | InsertSignature(id: Uuid, signature: SignatureRow)
    | InsertEvent(event: EventRow)

  function Apply(s: State, w: Write): State {
    State(
      if w.InsertDoc? || w.UpdateDoc? then s.docs[w.id := w.doc] else s.docs,
      if w.InsertVersion? then s.versions[w.id := w.version] else s.versions,
      if w.InsertStorage? then s.storage[w.id := w.storage] else s.storage,
      if w.InsertHold? || w.UpdateHold? then s.holds[w.id := w.hold] else s.holds,
      if w.InsertPolicy? then s.policies[w.id := w.policy] else s.policies,
      if w.InsertShare? || w.UpdateShare? then s.shares[w.id := w.share] else s.shares,
      if w.InsertSignature? then s.signatures[w.id := w.signature] else s.signatures,
      if w.InsertEvent? then s.audit + [w.event] else s.audit,
      if w.PutBlob? then s.blobs[w.key := w.bytes] else s.blobs)
  }

  function ApplyAll(s: State, ws: seq<Write>): State {
    if ws == [] then s else Apply(ApplyAll(s, ws[..|ws| - 1]), ws[|ws| - 1])
  }

  lemma ApplyAllSnoc(s: State, ws: seq<Write>, w: Write)
    ensures ApplyAll(s, ws + [w]) == Apply(ApplyAll(s, ws), w)
  {}

  lemma {:induction false} ApplyAllConcat(s: State, us: seq<Write>, ws: seq<Write>)
    ensures ApplyAll(s, us + ws) == ApplyAll(ApplyAll(s, us), ws)
    decreases |ws|
  {
    if ws == [] {
      assert us + ws == us;
    } else {
      var n := |ws| - 1;
      ApplyAllConcat(s, us, ws[..n]);
      assert us + ws == (us + ws[..n]) + [ws[n]];
      ApplyAllSnoc(s, us + ws[..n], ws[n]);
    }
  }

  lemma ApplyOne(s: State, w: Write)
    ensures ApplyAll(s, [w]) == Apply(s, w)
  {}

  lemma ApplyTwo(s: State, v: Write, w: Write)
    ensures ApplyAll(s, [v, w]) == Apply(Apply(s, v), w)
  {
    assert [v, w] == [v] + [w];
    ApplyOne(s, v);
    ApplyAllSnoc(s, [v], w);
  }

  /** Tokens are unique, as the schema declares. */
  ghost predicate TokensUnique(s: State) {
    forall i, j :: i in s.shares && j in s.shares && s.shares[i].tokenHash == s.shares[j].tokenHash ==> i == j
  }

  // ---------------------------------------------------------------- reads

  function GetDoc(s: State, id: Uuid, tenant: Uuid): Option<DocRow> {
    if id in s.docs && s.docs[id].tenant == tenant then Some(s.docs[id]) else None
  }

  ghost predicate HasActiveHold(s: State, doc: Uuid) {
    exists h :: h in s.holds && s.holds[h].document == doc && s.holds[h].active
  }

  function DocumentResource(id: Uuid): Resource {
    Resource("document", id)
  }

  function Decrypt(env: Env, keyId: string, cipher: string): Option<string> {
    match env.open(env.kek, keyId)
    case None => None
    case Some(dek) => env.open(dek, cipher)
  }

  /** "Read last hash, hash, insert": the append that `_write_audit` and five tasks perform. */
  function Append(env: Env, s: State, r: Resource, tenant: Uuid, actor: Option<Uuid>, event: EventType, payload: Json): Write {
    var prev := LastHash(s.audit, r);
    InsertEvent(EventRow(r, tenant, actor, event, payload, prev, ComputeHash(env.mac, payload, prev)))
  }

  /** What `update` makes of a stored row: every changeable column from the caller's copy, however stale. */
  function WriteBack(stored: DocRow, copy: DocRow, now: int): DocRow {
    stored.(
      title := copy.title, status := copy.status, currentVersion := copy.currentVersion, policy := copy.policy,
      legalHold := copy.legalHold, tags := copy.tags, metadata := copy.metadata, updatedAt := now)
  }

  // ---------------------------------------------------------------- audit payloads

  datatype Upload = Upload(
    tenant: Uuid, actor: Uuid,
    title: string, docType: string, policy: Option<Uuid>, tags: seq<string>, metadata: Json,
    file: string, fileName: string, mime: string,
    doc: Uuid, version: Uuid, storage: Uuid,
    dek: string, keyNonce: string, fileNonce: string)

  function CreatedPayload(u: Upload): Json {
    Obj(Member("title", Str(u.title), Member("version_id", Str(u.version), NoMembers)))
  }

  const HOLD_ISSUE := "document deleted while under active legal hold"

  function AlarmPayload(hold: Uuid): Json {
    Obj(Member("hold_id", Str(hold), Member("issue", Str(HOLD_ISSUE), NoMembers)))
  }

  function ModeName(m: Mode): string {
    match m case Governance => "GOVERNANCE" case Compliance => "COMPLIANCE"
  }

  /** One row of the scan's join of documents and policies. */
  datatype Expiring = Expiring(id: Uuid, doc: DocRow, policyId: Uuid, policy: PolicyRow)

  function ScanPayload(env: Env, e: Expiring): Json {
    Obj(Member("retention_policy_id", Str(e.policyId),
        Member("policy_mode", Str(ModeName(e.policy.mode)),
        Member("expiry_at", Str(env.iso(ExpiryDate(e.policy, e.doc.createdAt))), NoMembers))))
  }

  function RotatePayload(objectKey: string, dryRun: bool): Json {
    Obj(Member("object_key", Str(objectKey), Member("dry_run", Bool(dryRun), NoMembers)))
  }

  function PackagePayload(key: string, chainValid: bool, events: nat): Json {
    Obj(Member("package_key", Str(key),
        Member("chain_valid", Bool(chainValid),
        Member("event_count", Int(events), NoMembers))))
  }

  function SignaturePayload(signature: Uuid, status: string, kind: string): Json {
    Obj(Member("signature_id", Str(signature),
        Member("verification_status", Str(status),
        Member("signature_type", Str(kind), NoMembers))))
  }

  // ---------------------------------------------------------------- requests

  datatype Error =
    | DocumentNotFound
    | LegalHoldViolation
    | RetentionViolation(why: Refusal)
    | NotDeleted
    | BlobMissing
    | Undecryptable
    | HoldNotFound
    | PolicyNotFound
    | ShareNotFound
    | ShareExpired
    | ShareExhausted
    | VersionUnusable
    | ForeignKey

  datatype Reply =
    | Done
    | Saved(doc: DocRow)
    | Content(bytes: string, fileName: string, mime: string)
    | Monitored(active: nat, inconsistent: nat, deletedUnderHold: nat)
    | Scanned(expired: nat, blocked: nat, eligible: nat)
    | Rotated(inspected: nat)
    | Stored(key: string)
    | Failed(error: Error)

  /** What a request writes, in order, and what it answers if it gets to the end. */
  datatype Plan = Plan(writes: seq<Write>, reply: Reply)

  datatype Changes = Changes(title: Option<string>, tags: Option<seq<string>>, metadata: Option<Json>)

  /** What the creator of a share link chooses; the password comes hashed. */
  datatype Terms = Terms(expiresAt: int, limit: Option<nat>, passwordHash: Option<string>, watermark: bool)

  datatype Op =
    | UploadDocument(upload: Upload)
    | DownloadDocument(doc: Uuid, tenant: Uuid, actor: Uuid)
    | DeleteDocument(doc: Uuid, tenant: Uuid, actor: Uuid, purge: bool)
    | RestoreDocument(doc: Uuid, tenant: Uuid, actor: Uuid)
    | UpdateDocument(doc: Uuid, tenant: Uuid, actor: Uuid, changes: Changes)
    | PlaceHold(doc: Uuid, tenant: Uuid, actor: Uuid, reason: string, hold: Uuid)
    | ReleaseHold(hold: Uuid, tenant: Uuid)
    | CreatePolicy(policyId: Uuid, policy: PolicyRow)
    | ApplyPolicy(doc: Uuid, tenant: Uuid, policyId: Uuid)
    | CreateShare(share: Uuid, doc: Uuid, actor: Uuid, token: string, terms: Terms)
    | RevokeShare(share: Uuid)
    | DownloadShared(token: string)
    | MonitorHolds(held: seq<Row<HoldRow>>)
    | ScanExpiry(expiring: seq<Expiring>)
    | RotateKeys(stored: seq<Row<StorageRow>>, dryRun: bool)
    | PackageAudit(doc: Uuid, tenant: Uuid, requestedBy: Option<Uuid>, timestamp: string, package: Uuid, storage: Uuid,
                   versions: seq<Row<VersionRow>>, signatures: seq<Row<SignatureRow>>)
    | ApplyWatermark(version: Uuid, shareId: string, text: string, nonce: string)
    | VerifySignature(version: Uuid, tenant: Uuid, signature: Uuid, kind: string, finding: Finding)

  // ---------------------------------------------------------------- DocumentService

  function UploadKey(u: Upload): string {
    ObjectKey(u.tenant, u.doc, u.version, u.fileName)
  }

  function UploadCipher(env: Env, u: Upload): string {
    env.seal(u.dek, u.file, u.fileNonce)
  }

  function UploadStorage(env: Env, u: Upload, now: Clock): StorageRow {
    StorageRow(u.tenant, UploadKey(u), true, |UploadCipher(env, u)|, env.sha(UploadCipher(env, u)), now(0))
  }

  function UploadDoc(u: Upload, now: Clock): DocRow {
    DocRow(u.tenant, u.title, u.docType, Processing, u.actor, None, u.policy, false, u.tags, u.metadata, now(1), now(1))
  }

  function UploadVersion(env: Env, u: Upload, now: Clock): VersionRow {
    VersionRow(u.doc, 1, u.fileName, u.mime, |u.file|, env.sha(u.file), Some(u.storage),
               env.seal(env.kek, u.dek, u.keyNonce), u.actor, now(2))
  }

  function PublishedDoc(u: Upload, now: Clock): DocRow {
    UploadDoc(u, now).(status := Active, currentVersion := Some(u.version), updatedAt := now(3))
  }

  function UploadFiles(env: Env, u: Upload, now: Clock): seq<Write> {
    [PutBlob(UploadKey(u), UploadCipher(env, u)), InsertStorage(u.storage, UploadStorage(env, u, now))]
  }

  /** The first four writes of an upload that passes its foreign key check. */
  function UploadRows(env: Env, u: Upload, now: Clock): seq<Write> {
    UploadFiles(env, u, now) + [InsertDoc(u.doc, UploadDoc(u, now))] + [InsertVersion(u.version, UploadVersion(env, u, now))]
  }

  function Publish(u: Upload, now: Clock): Write {
    UpdateDoc(u.doc, PublishedDoc(u, now))
  }

  function UploadAudit(env: Env, s: State, u: Upload): Write {
    Append(env, s, DocumentResource(u.doc), u.tenant, Some(u.actor), DocumentCreated, CreatedPayload(u))
  }

  function PlanUpload(env: Env, s: State, u: Upload, now: Clock): Plan {
    if u.policy.Some? && u.policy.value !in s.policies then
      Plan(UploadFiles(env, u, now), Failed(ForeignKey))
    else
      Plan(UploadRows(env, u, now) + [Publish(u, now)] + [UploadAudit(env, s, u)], Saved(PublishedDoc(u, now)))
  }

  /** What `download_document` reads of the current version, under the key recomputed for `tenant`. */
  function ReadContent(env: Env, s: State, tenant: Uuid, id: Uuid, doc: DocRow): Reply {
    if doc.currentVersion == None || doc.currentVersion.value !in s.versions then Failed(DocumentNotFound)
    else
      var vid := doc.currentVersion.value;
      var v := s.versions[vid];
      var key := ObjectKey(tenant, id, vid, v.fileName);
      if key !in s.blobs then Failed(BlobMissing)
      else match Decrypt(env, v.keyId, s.blobs[key])
        case None => Failed(Undecryptable)
        case Some(plain) => Content(plain, v.fileName, v.mime)
  }

  function PlanDownload(env: Env, s: State, id: Uuid, tenant: Uuid, actor: Uuid): Plan {
    match GetDoc(s, id, tenant)
    case None => Plan([], Failed(DocumentNotFound))
    case Some(doc) =>
      var reply := ReadContent(env, s, tenant, id, doc);
      if !reply.Content? then Plan([], reply)
      else
        var payload := Obj(Member("version_id", Str(doc.currentVersion.value), NoMembers));
        Plan([Append(env, s, DocumentResource(id), tenant, Some(actor), DocumentDownloaded, payload)], reply)
  }

  /** `download_public`, which reads the content on its own, under the key of the document's tenant. */
  function DownloadPublic(env: Env, s: State, id: Uuid): Reply {
    if id !in s.docs then Failed(DocumentNotFound)
    else
      match s.docs[id].currentVersion
      case None => Failed(DocumentNotFound)
      case Some(vid) =>
        if vid !in s.versions then Failed(DocumentNotFound)
        else
          var v := s.versions[vid];
          var key := ObjectKey(s.docs[id].tenant, id, vid, v.fileName);
          if key !in s.blobs then Failed(BlobMissing)
          else
            match env.open(env.kek, v.keyId)
            case None => Failed(Undecryptable)
            case Some(dek) =>
              match env.open(dek, s.blobs[key])
              case None => Failed(Undecryptable)
              case Some(plain) => Content(plain, v.fileName, v.mime)
  }

  /** The two reading paths, which are written separately, return the same content. */
  lemma PublicReadsContent(env: Env, s: State, id: Uuid)
    requires id in s.docs
    ensures DownloadPublic(env, s, id) == ReadContent(env, s, s.docs[id].tenant, id, s.docs[id])
  {}

  /** The guard of `delete_document`. A policy that is gone does not refuse. */
  function DeleteGuard(s: State, doc: DocRow, purge: bool, now: int): Option<Error> {
    if doc.legalHold && !purge then Some(LegalHoldViolation)
    else if doc.policy.Some? && doc.policy.value in s.policies then
      match CanDelete(s.policies[doc.policy.value], doc.createdAt, now)
      case Allowed => None
      case Refused(why) => if purge then None else Some(RetentionViolation(why))
    else None
  }

  /** The guard, `soft_delete` and `update` each read the clock; the last reading is what stays. */
  function PlanDelete(env: Env, s: State, id: Uuid, tenant: Uuid, actor: Uuid, purge: bool, now: Clock): Plan {
    match GetDoc(s, id, tenant)
    case None => Plan([], Failed(DocumentNotFound))
    case Some(doc) =>
      match DeleteGuard(s, doc, purge, now(0))
      case Some(error) => Plan([], Failed(error))
      case None =>
        var payload := Obj(Member("privileged_purge", Bool(purge), NoMembers));
        Plan([UpdateDoc(id, doc.(status := Deleted, updatedAt := now(2))),
              Append(env, s, DocumentResource(id), tenant, Some(actor), DocumentDeleted, payload)],
             Done)
  }

  function PlanRestore(env: Env, s: State, id: Uuid, tenant: Uuid, actor: Uuid, now: Clock): Plan {
    match GetDoc(s, id, tenant)
    case None => Plan([], Failed(DocumentNotFound))
    case Some(doc) =>
      if !doc.status.Deleted? then Plan([], Failed(NotDeleted))
      else
        var live := doc.(status := Active, updatedAt := now(1));
        Plan([UpdateDoc(id, live),
              Append(env, s, DocumentResource(id), tenant, Some(actor), DocumentRestored, Obj(NoMembers))],
             Saved(live))
  }

  function StrItems(texts: seq<string>): Items {
    if texts == [] then NoItems else Item(Str(texts[0]), StrItems(texts[1..]))
  }

  function ChangesPayload(c: Changes): Json {
    var metadata := if c.metadata.Some? then Member("metadata", c.metadata.value, NoMembers) else NoMembers;
    var tags := if c.tags.Some? then Member("tags", Arr(StrItems(c.tags.value)), metadata) else metadata;
    Obj(if c.title.Some? then Member("title", Str(c.title.value), tags) else tags)
  }

  function Changed(doc: DocRow, c: Changes, now: int): DocRow {
    doc.(
      title := if c.title.Some? then c.title.value else doc.title,
      tags := if c.tags.Some? then c.tags.value else doc.tags,
      metadata := if c.metadata.Some? then c.metadata.value else doc.metadata,
      updatedAt := now)
  }

  function PlanUpdate(env: Env, s: State, id: Uuid, tenant: Uuid, actor: Uuid, c: Changes, now: Clock): Plan {
    match GetDoc(s, id, tenant)
    case None => Plan([], Failed(DocumentNotFound))
    case Some(doc) =>
      Plan([UpdateDoc(id, Changed(doc, c, now(1))),
            Append(env, s, DocumentResource(id), tenant, Some(actor), DocumentUpdated, ChangesPayload(c))],
           Saved(Changed(doc, c, now(1))))
  }

  const VERIFY_LIMIT := 10000

  function Limited(events: seq<EventRow>, limit: nat): seq<EventRow> {
    if |events| <= limit then events else events[..limit]
  }

  /** What `verify_integrity` reports of a document: the length checked and the first broken index. */
  function IntegrityReport(env: Env, s: State, id: Uuid): (nat, Option<nat>) {
    var events := Limited(Timeline(s.audit, DocumentResource(id)), VERIFY_LIMIT);
    (|events|, FirstBroken(env.mac, ToLinks(events)))
  }

  // ---------------------------------------------------------------- legal holds and retention

  function PlanPlaceHold(s: State, id: Uuid, tenant: Uuid, actor: Uuid, reason: string, hold: Uuid, now: Clock): Plan {
    match GetDoc(s, id, tenant)
    case None => Plan([], Failed(DocumentNotFound))
    case Some(doc) =>
      Plan([UpdateDoc(id, doc.(legalHold := true, updatedAt := now(0))),
            InsertHold(hold, HoldRow(id, reason, actor, true, now(1), None))],
           Done)
  }

  ghost function PlanReleaseHold(s: State, hold: Uuid, tenant: Uuid, now: Clock): Plan {
    if hold !in s.holds then Plan([], Failed(HoldNotFound))
    else
      var id := s.holds[hold].document;
      var release := UpdateHold(hold, s.holds[hold].(active := false, releasedAt := Some(now(0))));
      if HasActiveHold(Apply(s, release), id) then Plan([release], Done)
      else
        match GetDoc(s, id, tenant)
        case None => Plan([release], Failed(DocumentNotFound))
        case Some(doc) => Plan([release, UpdateDoc(id, doc.(legalHold := false, updatedAt := now(1)))], Done)
  }

  function PlanApplyPolicy(s: State, id: Uuid, tenant: Uuid, policy: Uuid, now: int): Plan {
    match GetDoc(s, id, tenant)
    case None => Plan([], Failed(DocumentNotFound))
    case Some(doc) =>
      if policy !in s.policies then Plan([], Failed(PolicyNotFound))
      else Plan([UpdateDoc(id, doc.(policy := Some(policy), updatedAt := now))], Done)
  }

  // ---------------------------------------------------------------- share links

  function PlanCreateShare(env: Env, s: State, share: Uuid, id: Uuid, actor: Uuid, token: string, terms: Terms, now: int): Plan {
    if id !in s.docs then Plan([], Failed(ForeignKey))
    else
      Plan([InsertShare(share, ShareRow(id, actor, env.tokenHash(token), terms.expiresAt, terms.limit, 0,
                                        terms.passwordHash, terms.watermark, None, now))],
           Done)
  }

  function PlanRevokeShare(s: State, share: Uuid, now: int): Plan {
    if share !in s.shares then Plan([], Failed(ShareNotFound))
    else Plan([UpdateShare(share, s.shares[share].(revokedAt := Some(now)))], Done)
  }

  ghost function ShareByToken(s: State, tokenHash: string): (r: Option<Uuid>)
    ensures r.Some? ==> r.value in s.shares && s.shares[r.value].tokenHash == tokenHash
    ensures r == None ==> forall i :: i in s.shares ==> s.shares[i].tokenHash != tokenHash
  {
    if i :| i in s.shares && s.shares[i].tokenHash == tokenHash then Some(i) else None
  }

  ghost function PlanDownloadShared(env: Env, s: State, token: string, now: int): Plan {
    match ShareByToken(s, env.tokenHash(token))
    case None => Plan([], Failed(ShareNotFound))
    case Some(i) =>
      var sh := s.shares[i];
      match CanDownload(sh, now)
      case Refused(why) => Plan([], Failed(if why.LinkInactive? then ShareExpired else ShareExhausted))
      case Allowed =>
        var reply := DownloadPublic(env, s, sh.document);
        if !reply.Content? then Plan([], reply)
        else Plan([UpdateShare(i, sh.(count := sh.count + 1))], reply)
  }

  // ---------------------------------------------------------------- tasks

  /** The hold monitor after the rows read so far. */
  datatype MonitorRun = MonitorRun(writes: seq<Write>, inconsistent: nat, deletedUnderHold: nat, counts: map<Uuid, nat>)

  function Tally(counts: map<Uuid, nat>, tenant: Uuid): map<Uuid, nat> {
    counts[tenant := (if tenant in counts then counts[tenant] else 0) + 1]
  }

  function MonitorRow(env: Env, s: State, before: MonitorRun, hold: Row<HoldRow>): MonitorRun {
    var id := hold.row.document;
    if id !in s.docs then before
    else
      var doc := s.docs[id];
      var alarm := Append(env, ApplyAll(s, before.writes), DocumentResource(id), doc.tenant, None, IntegrityCheckFailed, AlarmPayload(hold.id));
      MonitorRun(
        if doc.status.Deleted? then before.writes + [alarm] else before.writes,
        before.inconsistent + if doc.legalHold then 0 else 1,
        before.deletedUnderHold + if doc.status.Deleted? then 1 else 0,
        Tally(before.counts, doc.tenant))
  }

  function Monitor(env: Env, s: State, held: seq<Row<HoldRow>>): MonitorRun {
    if held == [] then MonitorRun([], 0, 0, map[])
    else MonitorRow(env, s, Monitor(env, s, held[..|held| - 1]), held[|held| - 1])
  }

  /** The expiry scan after the rows read so far. It computes the expiry date on its own. */
  datatype ScanRun = ScanRun(writes: seq<Write>, expired: nat, blocked: nat, eligible: nat)

  function ScanRow(env: Env, s: State, before: ScanRun, e: Expiring, now: int): ScanRun {
    var expiry := e.doc.createdAt + e.policy.days * DAY;
    if expiry > now then before
    else
      var run := before.(expired := before.expired + 1);
      if e.doc.legalHold then run.(blocked := run.blocked + 1)
      else if e.policy.mode.Governance? || (e.policy.mode.Compliance? && e.policy.allowAfterExpiry) then
        var note := Append(env, ApplyAll(s, run.writes), DocumentResource(e.id), e.doc.tenant, None, RetentionApplied, ScanPayload(env, e));
        run.(eligible := run.eligible + 1, writes := run.writes + [note])
      else run
  }

  function Scan(env: Env, s: State, expiring: seq<Expiring>, now: int): ScanRun {
    if expiring == [] then ScanRun([], 0, 0, 0)
    else ScanRow(env, s, Scan(env, s, expiring[..|expiring| - 1], now), expiring[|expiring| - 1], now)
  }

  function Rotate(env: Env, s: State, stored: seq<Row<StorageRow>>, dryRun: bool): seq<Write> {
    if stored == [] then []
    else
      var n := |stored| - 1;
      var before := Rotate(env, s, stored[..n], dryRun);
      var row := stored[n];
      before + [Append(env, ApplyAll(s, before), Resource("storage_object", row.id), row.row.tenant, None, KeyRotated, RotatePayload(row.row.objectKey, dryRun))]
  }

  function VersionsOf(s: State, doc: Uuid): set<Uuid> {
    set v | v in s.versions && s.versions[v].document == doc
  }

  function SignaturesOf(s: State, doc: Uuid): set<Uuid> {
    set i | i in s.signatures && s.signatures[i].version in VersionsOf(s, doc)
  }

  /** A package holds the document's row, versions and signatures, its whole timeline, and what verification
      says of it. */
  function PackageBundle(env: Env, s: State, id: Uuid, actor: Option<Uuid>, versions: seq<Row<VersionRow>>,
                         signatures: seq<Row<SignatureRow>>, now: int): Bundle
    requires id in s.docs
  {
    var events := Timeline(s.audit, DocumentResource(id));
    Bundle(s.docs[id], versions, events, FirstBroken(env.mac, ToLinks(events)), signatures, actor, now)
  }

  function PlanPackage(env: Env, s: State, id: Uuid, tenant: Uuid, actor: Option<Uuid>, timestamp: string, package: Uuid,
                       storage: Uuid, versions: seq<Row<VersionRow>>, signatures: seq<Row<SignatureRow>>, now: Clock): Plan {
    if id !in s.docs then Plan([], Failed(DocumentNotFound))
    else
      var key := PackageKey(tenant, id, timestamp, package);
      var bundle := PackageBundle(env, s, id, actor, versions, signatures, now(0));
      var bytes := env.zip(bundle);
      Plan([PutBlob(key, bytes),
            InsertStorage(storage, StorageRow(tenant, key, false, |bytes|, env.sha(bytes), now(1))),
            Append(env, s, DocumentResource(id), tenant, actor, AuditExported,
                   PackagePayload(key, bundle.broken == None, |bundle.events|))],
           Stored(key))
  }

  /** The blob and key that the storage row of a version leads to. */
  function FollowStorage(env: Env, s: State, version: Uuid): Reply {
    if version !in s.versions || s.versions[version].storage == None
       || s.versions[version].storage.value !in s.storage then Failed(VersionUnusable)
    else
      var v := s.versions[version];
      var key := s.storage[v.storage.value].objectKey;
      if key !in s.blobs then Failed(BlobMissing)
      else match Decrypt(env, v.keyId, s.blobs[key])
        case None => Failed(Undecryptable)
        case Some(plain) => Content(plain, key, v.mime)
  }

  function PlanWatermark(env: Env, s: State, version: Uuid, shareId: string, text: string, nonce: string): Plan {
    var content := FollowStorage(env, s, version);
    if !content.Content? then Plan([], content)
    else
      var dek := env.open(env.kek, s.versions[version].keyId).value;
      var key := WatermarkKey(content.fileName, shareId);
      Plan([PutBlob(key, env.seal(dek, env.stampPdf(content.bytes, text), nonce))], Stored(key))
  }

  function PlanSignature(env: Env, s: State, version: Uuid, tenant: Uuid, signature: Uuid, kind: string, finding: Finding, now: int): Plan {
    var content := FollowStorage(env, s, version);
    if !content.Content? then Plan([], content)
    else
      var payload := SignaturePayload(signature, finding.status, kind);
      Plan([InsertSignature(signature, SignatureRow(version, kind, finding, now)),
            Append(env, s, Resource("document_version", version), tenant, None, SignatureVerified, payload)],
           Done)
  }

  // ---------------------------------------------------------------- runs

  ghost function PlanOf(env: Env, s: State, op: Op, now: Clock): Plan {
    match op
    case UploadDocument(u) => PlanUpload(env, s, u, now)
    case DownloadDocument(id, tenant, actor) => PlanDownload(env, s, id, tenant, actor)
    case DeleteDocument(id, tenant, actor, purge) => PlanDelete(env, s, id, tenant, actor, purge, now)
    case RestoreDocument(id, tenant, actor) => PlanRestore(env, s, id, tenant, actor, now)
    case UpdateDocument(id, tenant, actor, changes) => PlanUpdate(env, s, id, tenant, actor, changes, now)
    case PlaceHold(id, tenant, actor, reason, hold) => PlanPlaceHold(s, id, tenant, actor, reason, hold, now)
    case ReleaseHold(hold, tenant) => PlanReleaseHold(s, hold, tenant, now)
    case CreatePolicy(id, policy) => Plan([InsertPolicy(id, policy)], Done)
    case ApplyPolicy(id, tenant, policy) => PlanApplyPolicy(s, id, tenant, policy, now(0))
    case CreateShare(share, id, actor, token, terms) => PlanCreateShare(env, s, share, id, actor, token, terms, now(0))
    case RevokeShare(share) => PlanRevokeShare(s, share, now(0))
    case DownloadShared(token) => PlanDownloadShared(env, s, token, now(0))
    case MonitorHolds(held) =>
      var run := Monitor(env, s, held);
      Plan(run.writes, Monitored(|held|, run.inconsistent, run.deletedUnderHold))
    case ScanExpiry(expiring) =>
      var run := Scan(env, s, expiring, now(0));
      Plan(run.writes, Scanned(run.expired, run.blocked, run.eligible))
    case RotateKeys(stored, dryRun) => Plan(Rotate(env, s, stored, dryRun), Rotated(|stored|))
    case PackageAudit(id, tenant, actor, timestamp, package, storage, versions, signatures) =>
      PlanPackage(env, s, id, tenant, actor, timestamp, package, storage, versions, signatures, now)
    case ApplyWatermark(version, shareId, text, nonce) => PlanWatermark(env, s, version, shareId, text, nonce)
    case VerifySignature(version, tenant, signature, kind, finding) =>
      PlanSignature(env, s, version, tenant, signature, kind, finding, now(0))
  }

  /** One request: what it asks for, its clock readings, and after how many of its writes the process
      stops. A request that stops no earlier than its last write completes. */
  datatype Call = Call(op: Op, now: Clock, stop: nat)

  function Upto(ws: seq<Write>, stop: nat): seq<Write> {
    if stop <= |ws| then ws[..stop] else ws
  }

  ghost predicate Completes(env: Env, s: State, c: Call) {
    c.stop >= |PlanOf(env, s, c.op, c.now).writes|
  }

  ghost function After(env: Env, s: State, c: Call): State {
    ApplyAll(s, Upto(PlanOf(env, s, c.op, c.now).writes, c.stop))
  }

  lemma CompletesIsAll(env: Env, s: State, c: Call)
    requires Completes(env, s, c)
    ensures After(env, s, c) == ApplyAll(s, PlanOf(env, s, c.op, c.now).writes)
  {
    var ws := PlanOf(env, s, c.op, c.now).writes;
    assert ws[..|ws|] == ws;
  }

  ghost function Run(env: Env, s: State, calls: seq<Call>): State {
    if calls == [] then s else After(env, Run(env, s, calls[..|calls| - 1]), calls[|calls| - 1])
  }

  /** `rows` lists exactly the rows of `table` with keys in `ids`, each once, in any order. */
  ghost predicate Lists<T>(rows: seq<Row<T>>, table: map<Uuid, T>, ids: set<Uuid>) {
    && (forall i, j :: 0 <= i < j < |rows| ==> rows[i].id != rows[j].id)
    && (forall i :: 0 <= i < |rows| ==> rows[i].id in ids && rows[i].id in table && table[rows[i].id] == rows[i].row)
    && (forall id :: id in ids ==> exists i :: 0 <= i < |rows| && rows[i].id == id)
  }

  function ActiveHolds(s: State): set<Uuid> {
    set h | h in s.holds && s.holds[h].active
  }

  /** Documents the scan's query joins: not deleted, with a policy that exists. */
  function LiveWithPolicy(s: State): set<Uuid> {
    set d | d in s.docs && !s.docs[d].status.Deleted? && s.docs[d].policy.Some? && s.docs[d].policy.value in s.policies
  }

  function Joined(s: State, id: Uuid): Expiring
    requires id in LiveWithPolicy(s)
  {
    Expiring(id, s.docs[id], s.docs[id].policy.value, s.policies[s.docs[id].policy.value])
  }

  ghost predicate ListsExpiring(rows: seq<Expiring>, s: State) {
    && (forall i, j :: 0 <= i < j < |rows| ==> rows[i].id != rows[j].id)
    && (forall i :: 0 <= i < |rows| ==> rows[i].id in LiveWithPolicy(s) && rows[i] == Joined(s, rows[i].id))
    && (forall id :: id in LiveWithPolicy(s) ==> exists i :: 0 <= i < |rows| && rows[i].id == id)
  }

  /** No blob has a package key with this identifier in it. */
  predicate PackageIdUnused(s: State, package: Uuid) {
    forall key :: key in s.blobs && PackageShaped(key) ==> PackagePart(key) != package
  }

  /** What the surroundings guarantee of a request: identifiers drawn with it are new, query results
      list the rows asked for, and JSON objects have distinct keys. */
  ghost predicate Proper(env: Env, s: State, op: Op) {
    match op
    case UploadDocument(u) =>
      && u.doc !in s.docs && u.version !in s.versions && u.storage !in s.storage
      && (forall key :: key in s.blobs && VersionShaped(key) ==> VersionPart(key) != u.version)
    case UpdateDocument(_, _, _, changes) => changes.metadata.Some? ==> WellFormed(changes.metadata.value)
    case PlaceHold(_, _, _, _, hold) => hold !in s.holds
    case CreatePolicy(id, _) => id !in s.policies
    case CreateShare(share, _, _, token, terms) =>
      && share !in s.shares && (terms.limit.Some? ==> terms.limit.value >= 1)
      && (forall i :: i in s.shares ==> s.shares[i].tokenHash != env.tokenHash(token))
    case MonitorHolds(held) => Lists(held, s.holds, ActiveHolds(s))
    case ScanExpiry(expiring) => ListsExpiring(expiring, s)
    case RotateKeys(stored, _) => Lists(stored, s.storage, s.storage.Keys)
    case PackageAudit(id, _, _, timestamp, package, storage, versions, signatures) =>
      && storage !in s.storage && IsTimestamp(timestamp)
      && PackageIdUnused(s, package)
      && Lists(versions, s.versions, VersionsOf(s, id)) && Lists(signatures, s.signatures, SignaturesOf(s, id))
    case VerifySignature(_, _, signature, _, _) => signature !in s.signatures
    case _ => true
  }

  ghost predicate ProperRun(env: Env, s: State, calls: seq<Call>) {
    calls == [] ||
    (var n := |calls| - 1;
     ProperRun(env, s, calls[..n]) && Proper(env, Run(env, s, calls[..n]), calls[n].op))
  }
}
