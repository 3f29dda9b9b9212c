/** What each request leaves when it completes, column by column, on any state at all. Nothing here names a row
    that a plan builds, a payload as it is spelled, or a constant of the model. */
module Outcomes {
  import opened Basics
  import opened CanonicalJson
  import opened IntegrityChain
  import opened AuditTable
  import opened ObjectKeys
  import opened Entities
  import opened Vault
  import opened Safety
  import opened Requests
  import opened HoldTheorems

  /** The state that a completed request leaves. */
  ghost function Left(env: Env, s: State, op: Op, now: Clock): State {
    ApplyAll(s, PlanOf(env, s, op, now).writes)
  }

  ghost function Answer(env: Env, s: State, op: Op, now: Clock): Reply {
    PlanOf(env, s, op, now).reply
  }

  ghost predicate Fails(env: Env, s: State, op: Op, now: Clock, error: Error) {
    Answer(env, s, op, now) == Failed(error) && Left(env, s, op, now) == s && PlanOf(env, s, op, now).writes == []
  }

  lemma LeftKeepsInv(env: Env, s: State, op: Op, now: Clock)
    requires Lawful(env) && Inv(env, s) && Proper(env, s, op)
    ensures Inv(env, Left(env, s, op, now))
  {
    PlanSafe(env, s, op, now);
    SafeAllKeepsInv(env, PermitOf(op, now), s, PlanOf(env, s, op, now).writes);
  }

  /** One event more, of the resource, chained to its last hash. */
  predicate OneEvent(env: Env, s: State, t: State, kind: string, id: Uuid, tenant: Uuid, actor: Option<Uuid>, event: EventType) {
    && |t.audit| == |s.audit| + 1 && s.audit <= t.audit
    && (var e := t.audit[|s.audit|];
        && e.resource.kind == kind && e.resource.id == id && e.tenant == tenant && e.actor == actor && e.event == event
        && e.prev == LastHash(s.audit, e.resource) && Authentic(env.mac, ToLink(e)))
  }

  /** The value of the payload of the first event that `t` has and `s` has not. */
  function NewPayload(s: State, t: State): Value
    requires |s.audit| < |t.audit|
  {
    Denote(t.audit[|s.audit|].payload)
  }

  lemma AppendIsOneEvent(env: Env, s: State, t: State, r: Resource, tenant: Uuid, actor: Option<Uuid>, event: EventType, payload: Json)
    requires t.audit == s.audit
    ensures var after := Apply(t, Append(env, s, r, tenant, actor, event, payload));
            OneEvent(env, s, after, r.kind, r.id, tenant, actor, event) && NewPayload(s, after) == Denote(payload)
            && after == t.(audit := after.audit)
  {}

  lemma OneMemberIs(k: string, v: Json)
    ensures Denote(Obj(Member(k, v, NoMembers))) == VObj(map[k := Denote(v)])
  {
    assert DenoteMembers(NoMembers) == map[] && map[][k := Denote(v)] == map[k := Denote(v)];
  }

  lemma TwoMembersAre(k: string, v: Json, l: string, w: Json)
    requires k != l
    ensures Denote(Obj(Member(k, v, Member(l, w, NoMembers)))) == VObj(map[k := Denote(v), l := Denote(w)])
  {
    OneMemberIs(l, w);
  }

  lemma ThreeMembersAre(k: string, v: Json, l: string, w: Json, m: string, x: Json)
    requires k != l && k != m && l != m
    ensures Denote(Obj(Member(k, v, Member(l, w, Member(m, x, NoMembers))))) == VObj(map[k := Denote(v), l := Denote(w), m := Denote(x)])
  {
    TwoMembersAre(l, w, m, x);
  }

  // ---------------------------------------------------------------- upload

  predicate IsUploadedDoc(d: DocRow, u: Upload, now: Clock) {
    && d.tenant == u.tenant && d.title == u.title && d.docType == u.docType && d.owner == u.actor
    && d.tags == u.tags && d.metadata == u.metadata && d.policy == u.policy
    && d.status == Active && !d.legalHold && d.currentVersion == Some(u.version)
    && d.createdAt == now(1) && d.updatedAt == now(3)
  }

  predicate IsUploadedVersion(env: Env, v: VersionRow, u: Upload, now: Clock) {
    && v.document == u.doc && v.number == 1 && v.fileName == u.fileName && v.mime == u.mime && v.uploader == u.actor
    && v.size == |u.file| && v.checksum == env.sha(u.file) && v.storage == Some(u.storage) && v.createdAt == now(2)
    && env.open(env.kek, v.keyId) == Some(u.dek)
  }

  predicate IsUploadedFile(env: Env, s: State, t: State, u: Upload, now: Clock) {
    var key := u.tenant + "/" + u.doc + "/" + u.version + "/" + u.fileName;
    && u.storage in t.storage && key in t.blobs
    && t.storage == s.storage[u.storage := t.storage[u.storage]] && t.blobs == s.blobs[key := t.blobs[key]]
    && (var row := t.storage[u.storage];
        && row.tenant == u.tenant && row.objectKey == key && row.encrypted && row.createdAt == now(0)
        && row.size == |t.blobs[key]| && row.checksum == env.sha(t.blobs[key]))
    && env.open(u.dek, t.blobs[key]) == Some(u.file)
  }

  predicate OnlyUploaded(s: State, t: State, u: Upload) {
    && u.doc in t.docs && u.version in t.versions
    && t == s.(docs := s.docs[u.doc := t.docs[u.doc]], versions := s.versions[u.version := t.versions[u.version]],
               storage := t.storage, blobs := t.blobs, audit := t.audit)
  }

  lemma StoredFiles(env: Env, s: State, u: Upload, now: Clock)
    requires Lawful(env)
    ensures var t := Stored4(env, s, u, now);
            IsUploadedFile(env, s, t, u, now) && OnlyUploaded(s, t, u) && IsUploadedVersion(env, t.versions[u.version], u, now)
  {}

  lemma PublishedRow(env: Env, s: State, u: Upload, now: Clock)
    ensures var t := Apply(Stored4(env, s, u, now), Publish(u, now));
            t == Stored4(env, s, u, now).(docs := s.docs[u.doc := t.docs[u.doc]]) && IsUploadedDoc(t.docs[u.doc], u, now)
            && PublishedDoc(u, now) == t.docs[u.doc]
  {
    assert s.docs[u.doc := UploadDoc(u, now)][u.doc := PublishedDoc(u, now)] == s.docs[u.doc := PublishedDoc(u, now)];
  }

  lemma UploadedThenEvent(env: Env, s: State, u: Upload, now: Clock)
    requires Lawful(env)
    ensures var t := Apply(Apply(Stored4(env, s, u, now), Publish(u, now)), UploadAudit(env, s, u));
            && OnlyUploaded(s, t, u) && IsUploadedFile(env, s, t, u, now)
            && IsUploadedDoc(t.docs[u.doc], u, now) && IsUploadedVersion(env, t.versions[u.version], u, now)
            && PublishedDoc(u, now) == t.docs[u.doc]
            && OneEvent(env, s, t, "document", u.doc, u.tenant, Some(u.actor), DocumentCreated)
            && NewPayload(s, t) == VObj(map["title" := VStr(u.title), "version_id" := VStr(u.version)])
  {
    StoredFiles(env, s, u, now);
    PublishedRow(env, s, u, now);
    var published := Apply(Stored4(env, s, u, now), Publish(u, now));
    AppendIsOneEvent(env, s, published, DocumentResource(u.doc), u.tenant, Some(u.actor), DocumentCreated, CreatedPayload(u));
    TwoMembersAre("title", Str(u.title), "version_id", Str(u.version));
  }

  /** An upload completes unless it names an unknown policy. It leaves the document with everything the request
      says of it, one version, the file encrypted under its own key, one event, and nothing else. */
  lemma UploadLeavesRows(env: Env, s: State, u: Upload, now: Clock)
    requires Lawful(env)
    ensures var op := UploadDocument(u);
            var t, known := Left(env, s, op, now), u.policy.Some? ==> u.policy.value in s.policies;
            && (!known ==> Answer(env, s, op, now) == Failed(ForeignKey))
            && (known ==>
                  && OnlyUploaded(s, t, u) && IsUploadedFile(env, s, t, u, now)
                  && IsUploadedDoc(t.docs[u.doc], u, now) && IsUploadedVersion(env, t.versions[u.version], u, now)
                  && Answer(env, s, op, now) == Saved(t.docs[u.doc])
                  && OneEvent(env, s, t, "document", u.doc, u.tenant, Some(u.actor), DocumentCreated)
                  && NewPayload(s, t) == VObj(map["title" := VStr(u.title), "version_id" := VStr(u.version)]))
  {
    if u.policy.Some? ==> u.policy.value in s.policies {
      UploadLeaves(env, s, u, now);
      UploadedThenEvent(env, s, u, now);
    }
  }

  // ---------------------------------------------------------------- requests on one document

  /** `plain` is what the bytes decrypt to under the data key that the wrapped key holds. */
  ghost predicate Opens(env: Env, keyId: string, bytes: string, plain: string) {
    exists dek :: env.open(env.kek, keyId) == Some(dek) && env.open(dek, bytes) == Some(plain)
  }

  predicate Owns(s: State, id: Uuid, tenant: Uuid) {
    id in s.docs && s.docs[id].tenant == tenant
  }

  /** One row replaced and events appended, and nothing else. */
  predicate OnlyDoc(s: State, t: State, id: Uuid) {
    id in t.docs && t == s.(docs := s.docs[id := t.docs[id]], audit := t.audit)
  }

  /** One event about a document, by the caller. */
  predicate NewEvent(env: Env, s: State, t: State, id: Uuid, tenant: Uuid, actor: Uuid, event: EventType, payload: Value) {
    OneEvent(env, s, t, "document", id, tenant, Some(actor), event) && NewPayload(s, t) == payload
  }

  lemma RowThenEvent(env: Env, s: State, id: Uuid, row: DocRow, tenant: Uuid, actor: Uuid, event: EventType, payload: Json)
    ensures var t := ApplyAll(s, [UpdateDoc(id, row), Append(env, s, DocumentResource(id), tenant, Some(actor), event, payload)]);
            && OnlyDoc(s, t, id) && t.docs[id] == row && NewEvent(env, s, t, id, tenant, actor, event, Denote(payload))
  {
    var changed := Apply(s, UpdateDoc(id, row));
    ApplyTwo(s, UpdateDoc(id, row), Append(env, s, DocumentResource(id), tenant, Some(actor), event, payload));
    AppendIsOneEvent(env, s, changed, DocumentResource(id), tenant, Some(actor), event, payload);
  }

  /** What the public download answers on any state: which row or blob is missing, else what the blob decrypts to
      under the data key that the version's wrapped key holds. */
  lemma PublicDownloadTells(env: Env, s: State, id: Uuid)
    ensures var answer := DownloadPublic(env, s, id);
            if id !in s.docs || s.docs[id].currentVersion == None || s.docs[id].currentVersion.value !in s.versions
            then answer == Failed(DocumentNotFound)
            else
              var version := s.docs[id].currentVersion.value;
              var v := s.versions[version];
              var key := s.docs[id].tenant + "/" + id + "/" + version + "/" + v.fileName;
              if key !in s.blobs then answer == Failed(BlobMissing)
              else (answer.Content? || answer == Failed(Undecryptable))
                   && forall plain :: answer == Content(plain, v.fileName, v.mime) <==> Opens(env, v.keyId, s.blobs[key], plain)
  {}

  /** A download changes nothing but the audit table, and that only if it serves. */
  lemma DownloadLeavesEvent(env: Env, s: State, id: Uuid, tenant: Uuid, actor: Uuid, now: Clock)
    ensures var op := Op.DownloadDocument(id, tenant, actor);
            var t, answer := Left(env, s, op, now), Answer(env, s, op, now);
            if answer.Content?
            then Owns(s, id, tenant) && s.docs[id].currentVersion.Some? && t == s.(audit := t.audit)
                 && NewEvent(env, s, t, id, tenant, actor, DocumentDownloaded, VObj(map["version_id" := VStr(s.docs[id].currentVersion.value)]))
            else answer.Failed? && Fails(env, s, op, now, answer.error)
  {
    var plan := PlanDownload(env, s, id, tenant, actor);
    if plan.reply.Content? {
      var version := s.docs[id].currentVersion.value;
      var payload := Obj(Member("version_id", Str(version), NoMembers));
      OneMemberIs("version_id", Str(version));
      ApplyOne(s, plan.writes[0]);
      AppendIsOneEvent(env, s, s, DocumentResource(id), tenant, Some(actor), DocumentDownloaded, payload);
    }
  }

  /** Why the policy of a document, if it has one that exists, stops an unprivileged delete. */
  function WhyRetained(s: State, doc: DocRow, now: int): Option<Refusal> {
    if doc.policy == None || doc.policy.value !in s.policies then None
    else
      var p := s.policies[doc.policy.value];
      var expiry := doc.createdAt + p.days * 86_400_000_000;
      if p.mode == Compliance && now < expiry then Some(ComplianceUntil(expiry))
      else if p.mode == Compliance && !p.allowAfterExpiry then Some(NoDeletionAfterExpiry)
      else if p.mode == Governance && !p.allowAfterExpiry && now < expiry then Some(GovernanceUntil(expiry))
      else None
  }

  /** A delete is refused for another tenant, under a hold, and where the policy retains the document, the last
      two unless it is a purge; otherwise the status is changed, and nothing else of the row but its time. */
  lemma DeleteLeavesRow(env: Env, s: State, id: Uuid, tenant: Uuid, actor: Uuid, purge: bool, now: Clock)
    ensures var op := Op.DeleteDocument(id, tenant, actor, purge);
            var t := Left(env, s, op, now);
            if !Owns(s, id, tenant) then Fails(env, s, op, now, DocumentNotFound)
            else
              var doc := s.docs[id];
              if doc.legalHold && !purge then Fails(env, s, op, now, LegalHoldViolation)
              else if !purge && WhyRetained(s, doc, now(0)).Some?
              then Fails(env, s, op, now, RetentionViolation(WhyRetained(s, doc, now(0)).value))
              else Answer(env, s, op, now) == Done && OnlyDoc(s, t, id) && t.docs[id] == doc.(status := Deleted, updatedAt := now(2))
                   && NewEvent(env, s, t, id, tenant, actor, DocumentDeleted, VObj(map["privileged_purge" := VBool(purge)]))
  {
    if Answer(env, s, Op.DeleteDocument(id, tenant, actor, purge), now) == Done {
      OneMemberIs("privileged_purge", Bool(purge));
      RowThenEvent(env, s, id, s.docs[id].(status := Deleted, updatedAt := now(2)), tenant, actor, DocumentDeleted,
                   Obj(Member("privileged_purge", Bool(purge), NoMembers)));
    }
  }

  /** A restore brings back a deleted document, whatever it was before, and refuses any other. */
  lemma RestoreLeavesRow(env: Env, s: State, id: Uuid, tenant: Uuid, actor: Uuid, now: Clock)
    ensures var op := Op.RestoreDocument(id, tenant, actor);
            var t := Left(env, s, op, now);
            if !Owns(s, id, tenant) then Fails(env, s, op, now, DocumentNotFound)
            else if s.docs[id].status != Deleted then Fails(env, s, op, now, NotDeleted)
            else Answer(env, s, op, now) == Saved(s.docs[id].(status := Active, updatedAt := now(1)))
                 && OnlyDoc(s, t, id) && t.docs[id] == s.docs[id].(status := Active, updatedAt := now(1))
                 && NewEvent(env, s, t, id, tenant, actor, DocumentRestored, VObj(map[]))
  {
    if Owns(s, id, tenant) {
      RowThenEvent(env, s, id, s.docs[id].(status := Active, updatedAt := now(1)), tenant, actor, DocumentRestored, Obj(NoMembers));
    }
  }

  /** The columns that an update names hold what it asks for; the others, but for the time, are as they were. */
  predicate IsChanged(before: DocRow, after: DocRow, c: Changes, now: int) {
    && after == before.(title := after.title, tags := after.tags, metadata := after.metadata, updatedAt := now)
    && after.title == (if c.title.Some? then c.title.value else before.title)
    && after.tags == (if c.tags.Some? then c.tags.value else before.tags)
    && after.metadata == (if c.metadata.Some? then c.metadata.value else before.metadata)
  }

  predicate AreStrings(v: Value, texts: seq<string>) {
    v.VArr? && |v.items| == |texts| && forall i :: 0 <= i < |texts| ==> v.items[i] == VStr(texts[i])
  }

  /** The event of an update records the named columns, and no other. */
  predicate RecordsChanges(v: Value, c: Changes) {
    && v.VObj?
    && v.members.Keys == (if c.title.Some? then {"title"} else {}) + (if c.tags.Some? then {"tags"} else {})
                       + (if c.metadata.Some? then {"metadata"} else {})
    && (c.title.Some? ==> v.members["title"] == VStr(c.title.value))
    && (c.tags.Some? ==> AreStrings(v.members["tags"], c.tags.value))
    && (c.metadata.Some? ==> v.members["metadata"] == Denote(c.metadata.value))
  }

  lemma {:induction false} StrItemsAreStrings(texts: seq<string>)
    ensures AreStrings(Denote(Arr(StrItems(texts))), texts)
  {
    if texts == [] {
    } else {
      StrItemsAreStrings(texts[1..]);
      assert DenoteItems(StrItems(texts)) == [VStr(texts[0])] + DenoteItems(StrItems(texts[1..]));
    }
  }

  lemma PayloadRecordsChanges(c: Changes)
    ensures RecordsChanges(Denote(ChangesPayload(c)), c)
  {
    if c.tags.Some? { StrItemsAreStrings(c.tags.value); }
    var metadata := if c.metadata.Some? then Member("metadata", c.metadata.value, NoMembers) else NoMembers;
    var tags := if c.tags.Some? then Member("tags", Arr(StrItems(c.tags.value)), metadata) else metadata;
    assert DenoteMembers(NoMembers) == map[];
    assert DenoteMembers(metadata).Keys == if c.metadata.Some? then {"metadata"} else {};
    assert c.title.Some? ==> DenoteMembers(Member("title", Str(c.title.value), tags)) == DenoteMembers(tags)["title" := VStr(c.title.value)];
    assert DenoteMembers(tags).Keys == (if c.tags.Some? then {"tags"} else {}) + DenoteMembers(metadata).Keys;
  }

  /** An update changes exactly the named columns, and records them. */
  lemma UpdateLeavesRow(env: Env, s: State, id: Uuid, tenant: Uuid, actor: Uuid, c: Changes, now: Clock)
    ensures var op := Op.UpdateDocument(id, tenant, actor, c);
            var t := Left(env, s, op, now);
            if !Owns(s, id, tenant) then Fails(env, s, op, now, DocumentNotFound)
            else OnlyDoc(s, t, id) && IsChanged(s.docs[id], t.docs[id], c, now(1)) && Answer(env, s, op, now) == Saved(t.docs[id])
                 && OneEvent(env, s, t, "document", id, tenant, Some(actor), DocumentUpdated) && RecordsChanges(NewPayload(s, t), c)
  {
    if Owns(s, id, tenant) {
      RowThenEvent(env, s, id, Changed(s.docs[id], c, now(1)), tenant, actor, DocumentUpdated, ChangesPayload(c));
      PayloadRecordsChanges(c);
    }
  }

  // ---------------------------------------------------------------- holds and policies

  /** Placing a hold flags the document and adds an active hold with the caller's reason; another tenant is
      told that there is no such document. */
  lemma PlaceHoldLeavesRows(env: Env, s: State, id: Uuid, tenant: Uuid, actor: Uuid, reason: string, hold: Uuid, now: Clock)
    ensures var op := Op.PlaceHold(id, tenant, actor, reason, hold);
            var t := Left(env, s, op, now);
            if !Owns(s, id, tenant) then Fails(env, s, op, now, DocumentNotFound)
            else Answer(env, s, op, now) == Done && id in t.docs && hold in t.holds
                 && t == s.(docs := s.docs[id := t.docs[id]], holds := s.holds[hold := t.holds[hold]])
                 && t.docs[id] == s.docs[id].(legalHold := true, updatedAt := now(0))
                 && (var h := t.holds[hold];
                     h.document == id && h.reason == reason && h.placedBy == actor && h.active && h.placedAt == now(1) && h.releasedAt == None)
  {
    var ws := PlanPlaceHold(s, id, tenant, actor, reason, hold, now).writes;
    if Owns(s, id, tenant) { ApplyTwo(s, ws[0], ws[1]); }
  }

  /** Attaching a policy takes the document's own tenant and a policy that exists. */
  lemma ApplyPolicyLeavesRow(env: Env, s: State, id: Uuid, tenant: Uuid, policy: Uuid, now: Clock)
    ensures var op := Op.ApplyPolicy(id, tenant, policy);
            var t := Left(env, s, op, now);
            if !Owns(s, id, tenant) then Fails(env, s, op, now, DocumentNotFound)
            else if policy !in s.policies then Fails(env, s, op, now, PolicyNotFound)
            else Answer(env, s, op, now) == Done
                 && t == s.(docs := s.docs[id := s.docs[id].(policy := Some(policy), updatedAt := now(0))])
  {
    var ws := PlanApplyPolicy(s, id, tenant, policy, now(0)).writes;
    if ws != [] { ApplyOne(s, ws[0]); }
  }

  lemma CreatePolicyLeavesRow(env: Env, s: State, id: Uuid, policy: PolicyRow, now: Clock)
    ensures var op := Op.CreatePolicy(id, policy);
            Answer(env, s, op, now) == Done && Left(env, s, op, now) == s.(policies := s.policies[id := policy])
  {
    ApplyOne(s, InsertPolicy(id, policy));
  }

  /** Releasing makes the hold inactive in any case; the flag is cleared only if no other hold on the document is
      active, and then only for its own tenant, who alone is answered without an error. */
  lemma ReleaseHoldLeavesRows(env: Env, s: State, hold: Uuid, tenant: Uuid, now: Clock)
    ensures var op := Op.ReleaseHold(hold, tenant);
            var t, answer := Left(env, s, op, now), Answer(env, s, op, now);
            if hold !in s.holds then Fails(env, s, op, now, HoldNotFound)
            else
              var id := s.holds[hold].document;
              var released := s.(holds := s.holds[hold := s.holds[hold].(active := false, releasedAt := Some(now(0)))]);
              if HasOtherActiveHold(s, hold, id) then answer == Done && t == released
              else if !Owns(s, id, tenant) then answer == Failed(DocumentNotFound) && t == released
              else answer == Done && t == released.(docs := s.docs[id := s.docs[id].(legalHold := false, updatedAt := now(1))])
  {
    if hold in s.holds {
      var ws := PlanReleaseHold(s, hold, tenant, now).writes;
      OtherHoldStays(s, hold, now);
      assert Apply(s, ws[0]) == Released(s, hold, now);
      if |ws| == 2 {
        ApplyTwo(s, ws[0], ws[1]);
        assert ws == [ws[0], ws[1]];
      } else {
        ApplyOne(s, ws[0]);
        assert ws == [ws[0]];
      }
    }
  }

  // ---------------------------------------------------------------- share links

  predicate IsCreatedShare(sh: ShareRow, id: Uuid, actor: Uuid, terms: Terms, now: int) {
    && sh.document == id && sh.createdBy == actor && sh.createdAt == now
    && sh.expiresAt == terms.expiresAt && sh.limit == terms.limit
    && sh.passwordHash == terms.passwordHash && sh.watermark == terms.watermark
    && sh.count == 0 && sh.revokedAt == None
  }

  lemma NewTokenFinds(s: State, share: Uuid, row: ShareRow)
    requires share !in s.shares && forall i :: i in s.shares ==> s.shares[i].tokenHash != row.tokenHash
    ensures ShareByToken(s.(shares := s.shares[share := row]), row.tokenHash) == Some(share)
  {
    var t := s.(shares := s.shares[share := row]);
    assert t.shares[share].tokenHash == row.tokenHash;
  }

  /** Creating a link on an existing document adds one row with the requested terms, and the token finds it. */
  lemma CreateShareLeavesRow(env: Env, s: State, share: Uuid, id: Uuid, actor: Uuid, token: string, terms: Terms, now: Clock)
    requires Proper(env, s, Op.CreateShare(share, id, actor, token, terms))
    ensures var op := Op.CreateShare(share, id, actor, token, terms);
            var t := Left(env, s, op, now);
            if id !in s.docs then Fails(env, s, op, now, ForeignKey)
            else Answer(env, s, op, now) == Done && share in t.shares && t == s.(shares := s.shares[share := t.shares[share]])
                 && IsCreatedShare(t.shares[share], id, actor, terms, now(0))
                 && ShareByToken(t, env.tokenHash(token)) == Some(share)
  {
    var ws := PlanCreateShare(env, s, share, id, actor, token, terms, now(0)).writes;
    if ws != [] {
      ApplyOne(s, ws[0]);
      NewTokenFinds(s, share, ws[0].share);
    }
  }

  lemma RevokeShareLeavesRow(env: Env, s: State, share: Uuid, now: Clock)
    ensures var op := Op.RevokeShare(share);
            if share !in s.shares then Fails(env, s, op, now, ShareNotFound)
            else Answer(env, s, op, now) == Done
                 && Left(env, s, op, now) == s.(shares := s.shares[share := s.shares[share].(revokedAt := Some(now(0)))])
  {
    var ws := PlanRevokeShare(s, share, now(0)).writes;
    if ws != [] { ApplyOne(s, ws[0]); }
  }

  /** A token that no link has is not found. */
  lemma UnknownTokenFails(env: Env, s: State, token: string, now: Clock)
    requires forall i :: i in s.shares ==> s.shares[i].tokenHash != env.tokenHash(token)
    ensures Fails(env, s, Op.DownloadShared(token), now, ShareNotFound)
  {}

  /** A revoked or expired link is told apart from an exhausted one; any other answers as the public download
      does, and counts one exactly if it serves. */
  lemma SharedDownloadLeavesCount(env: Env, s: State, token: string, share: Uuid, now: Clock)
    requires TokensUnique(s) && share in s.shares && s.shares[share].tokenHash == env.tokenHash(token)
    ensures var op := Op.DownloadShared(token);
            var sh, answer := s.shares[share], DownloadPublic(env, s, s.shares[share].document);
            if sh.revokedAt.Some? || sh.expiresAt <= now(0) then Fails(env, s, op, now, ShareExpired)
            else if sh.limit.Some? && sh.limit.value <= sh.count then Fails(env, s, op, now, ShareExhausted)
            else Answer(env, s, op, now) == answer
                 && Left(env, s, op, now) ==
                      if answer.Content? then s.(shares := s.shares[share := sh.(count := sh.count + 1)]) else s
  {
    assert ShareByToken(s, env.tokenHash(token)) == Some(share);
    var ws := PlanDownloadShared(env, s, token, now(0)).writes;
    if ws != [] { ApplyOne(s, ws[0]); }
  }
}
