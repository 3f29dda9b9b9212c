/** Rows of the database and the decisions the domain entities make about them. Times are whole
    microseconds. */
module Entities {
  import opened Basics
  import opened CanonicalJson

  datatype Status = Processing | Active | Archived | Deleted | Corrupted

  datatype Mode = Governance | Compliance

  datatype DocRow = DocRow(
    tenant: Uuid,
    title: string,
    docType: string,
    status: Status,
    owner: Uuid,
    currentVersion: Option<Uuid>,
    policy: Option<Uuid>,
    legalHold: bool,
    tags: seq<string>,
    metadata: Json,
    createdAt: int,
    updatedAt: int)

  datatype VersionRow = VersionRow(
    document: Uuid,
    number: nat,
    fileName: string,
    mime: string,
    size: nat,
    checksum: string,
    storage: Option<Uuid>,
    keyId: string,
    uploader: Uuid,
    createdAt: int)

  datatype StorageRow = StorageRow(
    tenant: Uuid,
    objectKey: string,
    encrypted: bool,
    size: nat,
    checksum: string,
    createdAt: int)

  datatype HoldRow = HoldRow(
    document: Uuid,
    reason: string,
    placedBy: Uuid,
    active: bool,
    placedAt: int,
    releasedAt: Option<int>)

  datatype PolicyRow = PolicyRow(
    tenant: Uuid,
    name: string,
    mode: Mode,
    days: nat,
    allowAfterExpiry: bool,
    createdAt: int)

  datatype ShareRow = ShareRow(
    document: Uuid,
    createdBy: Uuid,
    tokenHash: string,
    expiresAt: int,
    limit: Option<nat>,
    count: nat,
    passwordHash: Option<string>,
    watermark: bool,
    revokedAt: Option<int>,
    createdAt: int)

  /** What the signature verifier reports, and the status it comes to. */
  datatype Finding = Finding(
    status: string,
    signerName: Option<string>,
    signerInn: Option<string>,
    certificateSubject: Option<string>,
    certificateIssuer: Option<string>,
    certificateSerial: Option<string>,
    signingTime: Option<int>,
    signatureHash: Option<string>,
    report: Json)

  /** A verified signature. */
  datatype SignatureRow = SignatureRow(
    version: Uuid,
    kind: string,
    finding: Finding,
    verifiedAt: int)

  datatype Refusal =
    | ComplianceUntil(expiry: int)
    | NoDeletionAfterExpiry
    | GovernanceUntil(expiry: int)
    | LinkInactive
    | LinkExhausted
    | UnderLegalHold
    | AlreadyDeleted

  datatype Verdict = Allowed | Refused(why: Refusal)

  const DAY := 24 * 60 * 60 * 1_000_000

  function ExpiryDate(p: PolicyRow, documentCreatedAt: int): int {
    documentCreatedAt + p.days * DAY
  }

  /** `RetentionPolicy.can_delete`. A day is 86,400,000,000 microseconds. */
  function CanDelete(p: PolicyRow, documentCreatedAt: int, now: int): (v: Verdict)
    ensures p.mode.Compliance? ==>
      (v.Allowed? <==> documentCreatedAt + p.days * 86_400_000_000 <= now && p.allowAfterExpiry)
    ensures p.mode.Governance? ==>
      (v.Allowed? <==> documentCreatedAt + p.days * 86_400_000_000 <= now || p.allowAfterExpiry)
    ensures v.Refused? ==>
      (match v.why
       case ComplianceUntil(expiry) => p.mode.Compliance? && now < expiry == documentCreatedAt + p.days * 86_400_000_000
       case GovernanceUntil(expiry) => p.mode.Governance? && now < expiry == documentCreatedAt + p.days * 86_400_000_000
       case NoDeletionAfterExpiry => p.mode.Compliance? && documentCreatedAt + p.days * 86_400_000_000 <= now
       case _ => false)
  {
    var exp := ExpiryDate(p, documentCreatedAt);
    match p.mode
    case Compliance =>
      if now < exp then Refused(ComplianceUntil(exp))
      else if !p.allowAfterExpiry then Refused(NoDeletionAfterExpiry)
      else Allowed
    case Governance =>
      if now < exp && !p.allowAfterExpiry then Refused(GovernanceUntil(exp)) else Allowed
  }

  /** The first instant at which the policy allows deletion. */
  ghost predicate FirstAllowed(p: PolicyRow, documentCreatedAt: int, at: int) {
    CanDelete(p, documentCreatedAt, at).Allowed? && forall now :: now < at ==> !CanDelete(p, documentCreatedAt, now).Allowed?
  }

  /** There is such an instant exactly where deletion waits for expiry, and it is the expiry. */
  lemma FirstAllowedIs(p: PolicyRow, documentCreatedAt: int, at: int)
    ensures FirstAllowed(p, documentCreatedAt, at) <==>
      (p.mode.Compliance? <==> p.allowAfterExpiry) && at == documentCreatedAt + p.days * 86_400_000_000
  {
    var expiry := documentCreatedAt + p.days * 86_400_000_000;
    var at_, before := CanDelete(p, documentCreatedAt, expiry), CanDelete(p, documentCreatedAt, at - 1);
  }

  /** One day more in the policy delays the first allowed instant by exactly one day. */
  lemma OneDayMore(p: PolicyRow, documentCreatedAt: int, at: int)
    ensures FirstAllowed(p, documentCreatedAt, at) <==> FirstAllowed(p.(days := p.days + 1), documentCreatedAt, at + 86_400_000_000)
  {
    FirstAllowedIs(p, documentCreatedAt, at);
    FirstAllowedIs(p.(days := p.days + 1), documentCreatedAt, at + 86_400_000_000);
  }

  /** `Document.can_be_deleted`, which no operation of the repository calls. */
  function CanBeDeleted(d: DocRow, purge: bool): (v: Verdict)
    ensures v.Allowed? <==> (purge || !d.legalHold) && !d.status.Deleted?
  {
    if d.legalHold && !purge then Refused(UnderLegalHold)
    else if d.status.Deleted? then Refused(AlreadyDeleted)
    else Allowed
  }

  predicate IsActive(sh: ShareRow, now: int) {
    if sh.revokedAt.Some? then false else now < sh.expiresAt
  }

  predicate IsExhausted(sh: ShareRow) {
    if sh.limit == None then false else sh.count >= sh.limit.value
  }

  /** `ShareLink.can_download`. */
  function CanDownload(sh: ShareRow, now: int): (v: Verdict)
    ensures v.Allowed? <==> sh.revokedAt == None && now < sh.expiresAt && (sh.limit.Some? ==> sh.count < sh.limit.value)
  {
    if !IsActive(sh, now) then Refused(LinkInactive)
    else if IsExhausted(sh) then Refused(LinkExhausted)
    else Allowed
  }

  predicate WithinLimit(sh: ShareRow) {
    sh.limit.Some? ==> sh.count <= sh.limit.value
  }

  /** What later states may make of a share link: the terms stay, the count does not fall, and a
      revocation stays. */
  predicate Later(old_: ShareRow, new_: ShareRow) {
    && new_ == old_.(count := new_.count, revokedAt := new_.revokedAt)
    && old_.count <= new_.count
    && (old_.revokedAt.Some? ==> new_.revokedAt.Some?)
  }

  /** Once a link refuses a download it refuses every later one. */
  lemma RefusalIsFinal(before: ShareRow, after: ShareRow, now: int, later: int)
    requires Later(before, after) && now <= later && !CanDownload(before, now).Allowed?
    ensures !CanDownload(after, later).Allowed?
  {}
}
