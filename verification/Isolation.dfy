/** Tenants do not see one another through `DocumentService`: a run from which one tenant's calls are
    removed is the run with that tenant's rows, blobs and chains erased. */
module Isolation {
  import opened Basics
  import opened IntegrityChain
  import opened AuditTable
  import opened ObjectKeys
  import opened Entities
  import opened Vault
  import opened Safety
  import opened Requests

  // ---------------------------------------------------------------- erasing a tenant

  predicate OwnsDoc(docs: map<Uuid, DocRow>, tenant: Uuid, id: Uuid) {
    id in docs && docs[id].tenant == tenant
  }

  predicate Hidden(docs: map<Uuid, DocRow>, tenant: Uuid, e: EventRow) {
    e.resource.kind == "document" && OwnsDoc(docs, tenant, e.resource.id)
  }

  function Visible(docs: map<Uuid, DocRow>, tenant: Uuid, audit: seq<EventRow>): seq<EventRow> {
    if audit == [] then []
    else
      var n := |audit| - 1;
      var before := Visible(docs, tenant, audit[..n]);
      if Hidden(docs, tenant, audit[n]) then before else before + [audit[n]]
  }

  function OtherDocs(tenant: Uuid, docs: map<Uuid, DocRow>): map<Uuid, DocRow> {
    map d | d in docs && docs[d].tenant != tenant :: docs[d]
  }

  function OtherVersions(tenant: Uuid, docs: map<Uuid, DocRow>, versions: map<Uuid, VersionRow>): map<Uuid, VersionRow> {
    map v | v in versions && !OwnsDoc(docs, tenant, versions[v].document) :: versions[v]
  }

  function OtherStorage(tenant: Uuid, storage: map<Uuid, StorageRow>): map<Uuid, StorageRow> {
    map i | i in storage && storage[i].tenant != tenant :: storage[i]
  }

  function OtherBlobs(tenant: Uuid, blobs: map<string, string>): map<string, string> {
    map k | k in blobs && TenantPart(k) != tenant :: blobs[k]
  }

  /** The state without a tenant's documents, their versions, blobs and chains, and its storage rows. */
  function Erase(tenant: Uuid, s: State): State {
    s.(docs := OtherDocs(tenant, s.docs),
       versions := OtherVersions(tenant, s.docs, s.versions),
       storage := OtherStorage(tenant, s.storage),
       audit := Visible(s.docs, tenant, s.audit),
       blobs := OtherBlobs(tenant, s.blobs))
  }

  lemma {:induction false} VisibleTimeline(docs: map<Uuid, DocRow>, tenant: Uuid, audit: seq<EventRow>, r: Resource)
    requires !(r.kind == "document" && OwnsDoc(docs, tenant, r.id))
    ensures Timeline(Visible(docs, tenant, audit), r) == Timeline(audit, r)
    decreases |audit|
  {
    if audit == [] {
    } else {
      var n := |audit| - 1;
      VisibleTimeline(docs, tenant, audit[..n], r);
      TimelineAppend(Visible(docs, tenant, audit[..n]), audit[n], r);
    }
  }

  lemma {:induction false} VisibleSame(docs: map<Uuid, DocRow>, other: map<Uuid, DocRow>, tenant: Uuid, audit: seq<EventRow>)
    requires forall e :: e in audit ==> Hidden(docs, tenant, e) == Hidden(other, tenant, e)
    ensures Visible(docs, tenant, audit) == Visible(other, tenant, audit)
    decreases |audit|
  {
    if audit == [] {
    } else {
      var n := |audit| - 1;
      assert audit == audit[..n] + [audit[n]];
      VisibleSame(docs, other, tenant, audit[..n]);
    }
  }

  lemma VisibleAppend(docs: map<Uuid, DocRow>, tenant: Uuid, audit: seq<EventRow>, e: EventRow)
    ensures Visible(docs, tenant, audit + [e]) ==
            if Hidden(docs, tenant, e) then Visible(docs, tenant, audit) else Visible(docs, tenant, audit) + [e]
  {}

  // ---------------------------------------------------------------- owned writes

  /** A write of one tenant, to its own rows, blobs and chains. */
  predicate OwnedBy(s: State, tenant: Uuid, w: Write) {
    match w
    case PutBlob(key, _) => TenantPart(key) == tenant
    case InsertStorage(id, row) => id !in s.storage && row.tenant == tenant
    case InsertDoc(id, row) => id !in s.docs && row.tenant == tenant
    case UpdateDoc(id, row) => OwnsDoc(s.docs, tenant, id) && row.tenant == tenant
    case InsertVersion(id, row) => id !in s.versions && OwnsDoc(s.docs, tenant, row.document)
    case InsertEvent(e) => Hidden(s.docs, tenant, e)
    case _ => false
  }

  /** Versions and document events belong to existing documents. */
  ghost predicate Anchored(s: State) {
    && (forall v :: v in s.versions ==> s.versions[v].document in s.docs)
    && (forall e :: e in s.audit && e.resource.kind == "document" ==> e.resource.id in s.docs)
  }

  lemma InvAnchored(env: Env, s: State)
    requires Inv(env, s)
    ensures Anchored(s)
  {}

  lemma DocWriteKeepsVisible(s: State, tenant: Uuid, owner: Uuid, w: Write)
    requires Anchored(s) && OwnedBy(s, owner, w) && (w.InsertDoc? || w.UpdateDoc?)
    ensures Visible(Apply(s, w).docs, tenant, s.audit) == Visible(s.docs, tenant, s.audit)
  {
    VisibleSame(s.docs, Apply(s, w).docs, tenant, s.audit);
  }

  lemma OwnRowsErased(s: State, tenant: Uuid, w: Write)
    requires OwnedBy(s, tenant, w)
    ensures OtherDocs(tenant, Apply(s, w).docs) == OtherDocs(tenant, s.docs)
    ensures OtherStorage(tenant, Apply(s, w).storage) == OtherStorage(tenant, s.storage)
    ensures OtherBlobs(tenant, Apply(s, w).blobs) == OtherBlobs(tenant, s.blobs)
  {}

  lemma SameOwnersSameVersions(tenant: Uuid, docs: map<Uuid, DocRow>, other: map<Uuid, DocRow>, versions: map<Uuid, VersionRow>)
    requires forall v :: v in versions ==>
      (OwnsDoc(docs, tenant, versions[v].document) <==> OwnsDoc(other, tenant, versions[v].document))
    ensures OtherVersions(tenant, docs, versions) == OtherVersions(tenant, other, versions)
  {}

  lemma OwnVersionsErased(s: State, tenant: Uuid, w: Write)
    requires Anchored(s) && OwnedBy(s, tenant, w)
    ensures OtherVersions(tenant, Apply(s, w).docs, Apply(s, w).versions) == OtherVersions(tenant, s.docs, s.versions)
  {
    match w
    case InsertVersion(id, row) =>
    case InsertDoc(id, row) => SameOwnersSameVersions(tenant, s.docs, s.docs[id := row], s.versions);
    case UpdateDoc(id, row) => SameOwnersSameVersions(tenant, s.docs, s.docs[id := row], s.versions);
    case _ =>
  }

  lemma OwnEventsErased(s: State, tenant: Uuid, w: Write)
    requires Anchored(s) && OwnedBy(s, tenant, w)
    ensures Erase(tenant, Apply(s, w)).audit == Erase(tenant, s).audit
  {
    if w.InsertDoc? || w.UpdateDoc? { DocWriteKeepsVisible(s, tenant, tenant, w); }
    if w.InsertEvent? { VisibleAppend(s.docs, tenant, s.audit, w.event); }
  }

  /** Erasing a tenant undoes its own writes. */
  lemma ErasesOwnWrite(s: State, tenant: Uuid, w: Write)
    requires Anchored(s) && OwnedBy(s, tenant, w)
    ensures Erase(tenant, Apply(s, w)) == Erase(tenant, s)
  {
    OwnRowsErased(s, tenant, w);
    OwnVersionsErased(s, tenant, w);
    OwnEventsErased(s, tenant, w);
  }

  lemma OtherDocsStay(s: State, tenant: Uuid, owner: Uuid, w: Write)
    requires OwnedBy(s, owner, w) && owner != tenant
    ensures OtherDocs(tenant, Apply(s, w).docs) == Apply(Erase(tenant, s), w).docs
  {}

  lemma OtherFilesStay(s: State, tenant: Uuid, owner: Uuid, w: Write)
    requires OwnedBy(s, owner, w) && owner != tenant
    ensures OtherStorage(tenant, Apply(s, w).storage) == Apply(Erase(tenant, s), w).storage
    ensures OtherBlobs(tenant, Apply(s, w).blobs) == Apply(Erase(tenant, s), w).blobs
  {}

  lemma OtherVersionsStay(s: State, tenant: Uuid, owner: Uuid, w: Write)
    requires Anchored(s) && OwnedBy(s, owner, w) && owner != tenant
    ensures OtherVersions(tenant, Apply(s, w).docs, Apply(s, w).versions) == Apply(Erase(tenant, s), w).versions
  {
    match w
    case InsertVersion(id, row) =>
    case InsertDoc(id, row) => SameOwnersSameVersions(tenant, s.docs, s.docs[id := row], s.versions);
    case UpdateDoc(id, row) => SameOwnersSameVersions(tenant, s.docs, s.docs[id := row], s.versions);
    case _ =>
  }

  lemma OtherEventsStay(s: State, tenant: Uuid, owner: Uuid, w: Write)
    requires Anchored(s) && OwnedBy(s, owner, w) && owner != tenant
    ensures Erase(tenant, Apply(s, w)).audit == Apply(Erase(tenant, s), w).audit
  {
    if w.InsertDoc? || w.UpdateDoc? { DocWriteKeepsVisible(s, tenant, owner, w); }
    if w.InsertEvent? { VisibleAppend(s.docs, tenant, s.audit, w.event); }
  }

  /** Erasing a tenant commutes with the writes of another. */
  lemma ErasesAroundOtherWrite(s: State, tenant: Uuid, owner: Uuid, w: Write)
    requires Anchored(s) && OwnedBy(s, owner, w) && owner != tenant
    ensures Erase(tenant, Apply(s, w)) == Apply(Erase(tenant, s), w)
  {
    OtherDocsStay(s, tenant, owner, w);
    OtherFilesStay(s, tenant, owner, w);
    OtherVersionsStay(s, tenant, owner, w);
    OtherEventsStay(s, tenant, owner, w);
  }

  ghost predicate OwnedAll(s: State, tenant: Uuid, ws: seq<Write>) {
    ws == [] ||
    (var n := |ws| - 1; OwnedAll(s, tenant, ws[..n]) && OwnedBy(ApplyAll(s, ws[..n]), tenant, ws[n]))
  }

  lemma OwnedSnoc(s: State, tenant: Uuid, ws: seq<Write>, w: Write)
    requires OwnedAll(s, tenant, ws) && OwnedBy(ApplyAll(s, ws), tenant, w)
    ensures OwnedAll(s, tenant, ws + [w])
  {}

  lemma OneOwned(s: State, tenant: Uuid, w: Write)
    requires OwnedBy(s, tenant, w)
    ensures OwnedAll(s, tenant, [w]) && ApplyAll(s, [w]) == Apply(s, w)
  {
    OwnedSnoc(s, tenant, [], w);
    ApplyOne(s, w);
    assert [] + [w] == [w];
  }

  lemma TwoOwned(s: State, tenant: Uuid, v: Write, w: Write)
    requires OwnedBy(s, tenant, v) && OwnedBy(Apply(s, v), tenant, w)
    ensures OwnedAll(s, tenant, [v, w])
  {}

  lemma {:induction false} OwnedPrefix(s: State, tenant: Uuid, ws: seq<Write>, k: nat)
    requires OwnedAll(s, tenant, ws) && k <= |ws|
    ensures OwnedAll(s, tenant, ws[..k])
    decreases |ws|
  {
    if k == |ws| {
      assert ws[..k] == ws;
    } else {
      var n := |ws| - 1;
      OwnedPrefix(s, tenant, ws[..n], k);
      assert ws[..n][..k] == ws[..k];
    }
  }

  lemma {:induction false} ErasesOwnWrites(env: Env, p: Permit, s: State, tenant: Uuid, ws: seq<Write>)
    requires Inv(env, s) && SafeAll(env, p, s, ws) && OwnedAll(s, tenant, ws)
    ensures Erase(tenant, ApplyAll(s, ws)) == Erase(tenant, s)
    decreases |ws|
  {
    if ws == [] {
    } else {
      var n := |ws| - 1;
      ErasesOwnWrites(env, p, s, tenant, ws[..n]);
      SafeAllKeepsInv(env, p, s, ws[..n]);
      InvAnchored(env, ApplyAll(s, ws[..n]));
      ErasesOwnWrite(ApplyAll(s, ws[..n]), tenant, ws[n]);
    }
  }

  lemma {:induction false} ErasesAroundOtherWrites(env: Env, p: Permit, s: State, tenant: Uuid, owner: Uuid, ws: seq<Write>)
    requires Inv(env, s) && SafeAll(env, p, s, ws) && OwnedAll(s, owner, ws) && owner != tenant
    ensures Erase(tenant, ApplyAll(s, ws)) == ApplyAll(Erase(tenant, s), ws)
    decreases |ws|
  {
    if ws == [] {
    } else {
      var n := |ws| - 1;
      ErasesAroundOtherWrites(env, p, s, tenant, owner, ws[..n]);
      SafeAllKeepsInv(env, p, s, ws[..n]);
      InvAnchored(env, ApplyAll(s, ws[..n]));
      ErasesAroundOtherWrite(ApplyAll(s, ws[..n]), tenant, owner, ws[n]);
    }
  }

  // ---------------------------------------------------------------- service calls

  predicate IsServiceOp(op: Op) {
    op.UploadDocument? || op.DownloadDocument? || op.DeleteDocument? || op.RestoreDocument? || op.UpdateDocument?
  }

  /** The tenant a service call is made for. */
  function Caller(op: Op): Uuid
    requires IsServiceOp(op)
  {
    if op.UploadDocument? then op.upload.tenant else op.tenant
  }

  predicate FreshUpload(s: State, u: Upload) {
    u.doc !in s.docs && u.version !in s.versions && u.storage !in s.storage
  }

  lemma UploadFilesOwned(env: Env, s: State, u: Upload, now: Clock)
    requires FreshUpload(s, u)
    ensures OwnedAll(s, u.tenant, UploadFiles(env, u, now))
  {
    KeyParts(u.tenant, u.doc, u.version, u.fileName);
    TwoOwned(s, u.tenant, UploadFiles(env, u, now)[0], UploadFiles(env, u, now)[1]);
  }

  lemma UploadRowsOwned(env: Env, s: State, u: Upload, now: Clock)
    requires FreshUpload(s, u)
    ensures OwnedAll(s, u.tenant, UploadRows(env, u, now))
  {
    var two, doc := UploadFiles(env, u, now), InsertDoc(u.doc, UploadDoc(u, now));
    UploadFilesOwned(env, s, u, now);
    UploadStores(env, s, u, now);
    OwnedSnoc(s, u.tenant, two, doc);
    ApplyAllSnoc(s, two, doc);
    OwnedSnoc(s, u.tenant, two + [doc], InsertVersion(u.version, UploadVersion(env, u, now)));
  }

  lemma UploadOwned(env: Env, s: State, u: Upload, now: Clock)
    requires FreshUpload(s, u)
    ensures OwnedAll(s, u.tenant, PlanUpload(env, s, u, now).writes)
  {
    if u.policy.Some? && u.policy.value !in s.policies {
      UploadFilesOwned(env, s, u, now);
    } else {
      var four := UploadRows(env, u, now);
      UploadRowsOwned(env, s, u, now);
      UploadStores(env, s, u, now);
      OwnedSnoc(s, u.tenant, four, Publish(u, now));
      ApplyAllSnoc(s, four, Publish(u, now));
      OwnedSnoc(s, u.tenant, four + [Publish(u, now)], UploadAudit(env, s, u));
    }
  }

  lemma ServiceOwned(env: Env, s: State, op: Op, now: Clock)
    requires Proper(env, s, op) && IsServiceOp(op)
    ensures OwnedAll(s, Caller(op), PlanOf(env, s, op, now).writes)
  {
    if op.UploadDocument? {
      UploadOwned(env, s, op.upload, now);
    } else {
      var ws := PlanOf(env, s, op, now).writes;
      if |ws| == 1 {
        OneOwned(s, op.tenant, ws[0]);
        assert ws == [ws[0]];
      } else if |ws| == 2 {
        TwoOwned(s, op.tenant, ws[0], ws[1]);
        assert ws == [ws[0], ws[1]];
      }
    }
  }

  lemma OwnDocUnchanged(s: State, tenant: Uuid, id: Uuid, caller: Uuid)
    requires caller != tenant
    ensures GetDoc(Erase(tenant, s), id, caller) == GetDoc(s, id, caller)
    ensures GetDoc(s, id, caller).Some? ==>
      Timeline(Erase(tenant, s).audit, DocumentResource(id)) == Timeline(s.audit, DocumentResource(id))
  {
    if GetDoc(s, id, caller).Some? {
      VisibleTimeline(s.docs, tenant, s.audit, DocumentResource(id));
    }
  }

  lemma OwnContentUnchanged(env: Env, s: State, tenant: Uuid, id: Uuid)
    requires id in s.docs && s.docs[id].tenant != tenant && DocProper(s, id, s.docs[id])
    ensures ReadContent(env, Erase(tenant, s), s.docs[id].tenant, id, s.docs[id])
         == ReadContent(env, s, s.docs[id].tenant, id, s.docs[id])
    ensures DownloadPublic(env, Erase(tenant, s), id) == DownloadPublic(env, s, id)
  {
    PublicReadsContent(env, s, id);
    PublicReadsContent(env, Erase(tenant, s), id);
    if s.docs[id].currentVersion.Some? {
      var v := s.docs[id].currentVersion.value;
      KeyParts(s.docs[id].tenant, id, v, s.versions[v].fileName);
    }
  }

  /** What a tenant can ask of its own document is the same with another tenant erased. */
  lemma OwnViewUnchanged(env: Env, s: State, tenant: Uuid, id: Uuid, caller: Uuid)
    requires DocsProper(s) && caller != tenant
    ensures GetDoc(Erase(tenant, s), id, caller) == GetDoc(s, id, caller)
    ensures GetDoc(s, id, caller).Some? ==>
      && ReadContent(env, Erase(tenant, s), caller, id, s.docs[id]) == ReadContent(env, s, caller, id, s.docs[id])
      && DownloadPublic(env, Erase(tenant, s), id) == DownloadPublic(env, s, id)
      && Timeline(Erase(tenant, s).audit, DocumentResource(id)) == Timeline(s.audit, DocumentResource(id))
      && IntegrityReport(env, Erase(tenant, s), id) == IntegrityReport(env, s, id)
  {
    OwnDocUnchanged(s, tenant, id, caller);
    if GetDoc(s, id, caller).Some? {
      OwnContentUnchanged(env, s, tenant, id);
    }
  }

  lemma UploadPlanUnchanged(env: Env, s: State, tenant: Uuid, u: Upload, now: Clock)
    requires u.doc !in s.docs
    ensures PlanUpload(env, Erase(tenant, s), u, now) == PlanUpload(env, s, u, now)
  {
    VisibleTimeline(s.docs, tenant, s.audit, DocumentResource(u.doc));
  }

  lemma DownloadPlanUnchanged(env: Env, s: State, tenant: Uuid, id: Uuid, caller: Uuid, actor: Uuid)
    requires DocsProper(s) && caller != tenant
    ensures PlanDownload(env, Erase(tenant, s), id, caller, actor) == PlanDownload(env, s, id, caller, actor)
  {
    OwnViewUnchanged(env, s, tenant, id, caller);
  }

  lemma DeletePlanUnchanged(env: Env, s: State, tenant: Uuid, id: Uuid, caller: Uuid, actor: Uuid, purge: bool, now: Clock)
    requires caller != tenant
    ensures PlanDelete(env, Erase(tenant, s), id, caller, actor, purge, now) == PlanDelete(env, s, id, caller, actor, purge, now)
  {
    OwnDocUnchanged(s, tenant, id, caller);
    if id in s.docs { assert DeleteGuard(Erase(tenant, s), s.docs[id], purge, now(0)) == DeleteGuard(s, s.docs[id], purge, now(0)); }
  }

  lemma RestorePlanUnchanged(env: Env, s: State, tenant: Uuid, id: Uuid, caller: Uuid, actor: Uuid, now: Clock)
    requires caller != tenant
    ensures PlanRestore(env, Erase(tenant, s), id, caller, actor, now) == PlanRestore(env, s, id, caller, actor, now)
  {
    OwnDocUnchanged(s, tenant, id, caller);
  }

  lemma UpdatePlanUnchanged(env: Env, s: State, tenant: Uuid, id: Uuid, caller: Uuid, actor: Uuid, c: Changes, now: Clock)
    requires caller != tenant
    ensures PlanUpdate(env, Erase(tenant, s), id, caller, actor, c, now) == PlanUpdate(env, s, id, caller, actor, c, now)
  {
    OwnDocUnchanged(s, tenant, id, caller);
  }

  /** A service call plans the same writes and the same answer with another tenant erased. */
  lemma ServicePlanUnchanged(env: Env, s: State, tenant: Uuid, op: Op, now: Clock)
    requires DocsProper(s) && Proper(env, s, op) && IsServiceOp(op) && Caller(op) != tenant
    ensures PlanOf(env, Erase(tenant, s), op, now) == PlanOf(env, s, op, now)
  {
    match op
    case UploadDocument(u) => UploadPlanUnchanged(env, s, tenant, u, now);
    case DownloadDocument(id, caller, actor) => DownloadPlanUnchanged(env, s, tenant, id, caller, actor);
    case DeleteDocument(id, caller, actor, purge) => DeletePlanUnchanged(env, s, tenant, id, caller, actor, purge, now);
    case RestoreDocument(id, caller, actor) => RestorePlanUnchanged(env, s, tenant, id, caller, actor, now);
    case UpdateDocument(id, caller, actor, c) => UpdatePlanUnchanged(env, s, tenant, id, caller, actor, c, now);
    case _ =>
  }

  function Without(tenant: Uuid, calls: seq<Call>): seq<Call>
    requires forall i :: 0 <= i < |calls| ==> IsServiceOp(calls[i].op)
  {
    if calls == [] then []
    else
      var n := |calls| - 1;
      var before := Without(tenant, calls[..n]);
      if Caller(calls[n].op) == tenant then before else before + [calls[n]]
  }

  predicate OnlyService(calls: seq<Call>) {
    forall i :: 0 <= i < |calls| ==> IsServiceOp(calls[i].op)
  }

  lemma OneCallErased(env: Env, t: State, c: Call, tenant: Uuid)
    requires Lawful(env) && Inv(env, t) && Proper(env, t, c.op) && IsServiceOp(c.op)
    ensures Caller(c.op) == tenant ==> Erase(tenant, After(env, t, c)) == Erase(tenant, t)
    ensures Caller(c.op) != tenant ==> Erase(tenant, After(env, t, c)) == After(env, Erase(tenant, t), c)
  {
    var p := PermitOf(c.op, c.now);
    var ws := PlanOf(env, t, c.op, c.now).writes;
    var us := Upto(ws, c.stop);
    CallSafe(env, t, c);
    ServiceOwned(env, t, c.op, c.now);
    OwnedPrefix(t, Caller(c.op), ws, |us|);
    assert us == ws[..|us|];
    if Caller(c.op) == tenant {
      ErasesOwnWrites(env, p, t, tenant, us);
    } else {
      ServicePlanUnchanged(env, t, tenant, c.op, c.now);
      ErasesAroundOtherWrites(env, p, t, tenant, Caller(c.op), us);
    }
  }

  /** Non-interference: running without a tenant's calls is running with them and erasing the tenant, for
      calls that may stop anywhere. */
  lemma {:induction false} RemovingATenant(env: Env, s: State, calls: seq<Call>, tenant: Uuid)
    requires Lawful(env) && Inv(env, s) && ProperRun(env, s, calls) && OnlyService(calls)
    ensures Run(env, Erase(tenant, s), Without(tenant, calls)) == Erase(tenant, Run(env, s, calls))
    decreases |calls|
  {
    if calls == [] {
    } else {
      var n := |calls| - 1;
      var c := calls[n];
      var t := Run(env, s, calls[..n]);
      RemovingATenant(env, s, calls[..n], tenant);
      RunKeepsInv(env, s, calls[..n]);
      OneCallErased(env, t, c, tenant);
      var before := Without(tenant, calls[..n]);
      if Caller(c.op) != tenant {
        assert (before + [c])[..|before|] == before;
      }
    }
  }

  // ---------------------------------------------------------------- with and without, from one state

  ghost predicate KeysWithin(a: State, b: State) {
    && (forall d :: d in a.docs ==> d in b.docs)
    && (forall v :: v in a.versions ==> v in b.versions)
    && (forall i :: i in a.storage ==> i in b.storage)
    && (forall k :: k in a.blobs ==> k in b.blobs)
  }

  lemma ApplyWithin(a: State, b: State, w: Write)
    requires KeysWithin(a, b)
    ensures KeysWithin(Apply(a, w), Apply(b, w)) && KeysWithin(a, Apply(b, w))
  {}

  lemma {:induction false} ApplyAllWithin(a: State, b: State, ws: seq<Write>)
    requires KeysWithin(a, b)
    ensures KeysWithin(ApplyAll(a, ws), ApplyAll(b, ws)) && KeysWithin(a, ApplyAll(b, ws))
    decreases |ws|
  {
    if ws == [] {
    } else {
      var n := |ws| - 1;
      ApplyAllWithin(a, b, ws[..n]);
      ApplyWithin(ApplyAll(a, ws[..n]), ApplyAll(b, ws[..n]), ws[n]);
      ApplyWithin(a, ApplyAll(b, ws[..n]), ws[n]);
    }
  }

  lemma ProperWithin(env: Env, a: State, b: State, op: Op)
    requires KeysWithin(a, b) && IsServiceOp(op) && Proper(env, b, op)
    ensures Proper(env, a, op)
  {}

  /** A call of another tenant does the same on two states that differ only in the erased tenant. */
  lemma SameCallSameErasure(env: Env, a: State, b: State, c: Call, tenant: Uuid)
    requires Lawful(env) && Inv(env, a) && Inv(env, b) && Proper(env, a, c.op) && Proper(env, b, c.op)
    requires IsServiceOp(c.op) && Caller(c.op) != tenant && Erase(tenant, a) == Erase(tenant, b)
    ensures PlanOf(env, a, c.op, c.now) == PlanOf(env, b, c.op, c.now)
    ensures Erase(tenant, After(env, a, c)) == Erase(tenant, After(env, b, c))
  {
    ServicePlanUnchanged(env, a, tenant, c.op, c.now);
    ServicePlanUnchanged(env, b, tenant, c.op, c.now);
    OneCallErased(env, a, c, tenant);
    OneCallErased(env, b, c, tenant);
  }

  /** From one state, the run without a tenant's calls is possible, and differs from the run with them in
      that tenant's things only. */
  lemma {:induction false} RunsDifferInTenantOnly(env: Env, s: State, calls: seq<Call>, tenant: Uuid)
    requires Lawful(env) && Inv(env, s) && ProperRun(env, s, calls) && OnlyService(calls)
    ensures ProperRun(env, s, Without(tenant, calls))
    ensures Erase(tenant, Run(env, s, Without(tenant, calls))) == Erase(tenant, Run(env, s, calls))
    ensures KeysWithin(Run(env, s, Without(tenant, calls)), Run(env, s, calls))
    decreases |calls|
  {
    if calls == [] {
    } else {
      var n := |calls| - 1;
      var c := calls[n];
      RunsDifferInTenantOnly(env, s, calls[..n], tenant);
      var before := Without(tenant, calls[..n]);
      var a, b := Run(env, s, before), Run(env, s, calls[..n]);
      RunKeepsInv(env, s, before);
      RunKeepsInv(env, s, calls[..n]);
      ApplyAllWithin(a, b, Upto(PlanOf(env, b, c.op, c.now).writes, c.stop));
      if Caller(c.op) == tenant {
        OneCallErased(env, b, c, tenant);
      } else {
        ProperWithin(env, a, b, c.op);
        SameCallSameErasure(env, a, b, c, tenant);
        assert (before + [c])[..|before|] == before;
      }
    }
  }

  lemma SameErasureSameView(env: Env, a: State, b: State, tenant: Uuid, id: Uuid, other: Uuid)
    requires DocsProper(a) && DocsProper(b) && Erase(tenant, a) == Erase(tenant, b) && other != tenant
    ensures GetDoc(a, id, other) == GetDoc(b, id, other)
    ensures GetDoc(a, id, other).Some? ==>
      && DownloadPublic(env, a, id) == DownloadPublic(env, b, id)
      && Timeline(a.audit, DocumentResource(id)) == Timeline(b.audit, DocumentResource(id))
      && IntegrityReport(env, a, id) == IntegrityReport(env, b, id)
  {
    OwnViewUnchanged(env, a, tenant, id, other);
    OwnViewUnchanged(env, b, tenant, id, other);
  }

  /** For another tenant, then: every answer to its next call, and the rows, content and chains of its
      documents, are the same whether or not the calls of `tenant` were ever made. */
  lemma OtherTenantsNotice(env: Env, s: State, calls: seq<Call>, tenant: Uuid, c: Call, id: Uuid, other: Uuid)
    requires Lawful(env) && Inv(env, s) && ProperRun(env, s, calls) && OnlyService(calls)
    requires IsServiceOp(c.op) && Caller(c.op) == other != tenant && Proper(env, Run(env, s, calls), c.op)
    ensures var with, without := Run(env, s, calls), Run(env, s, Without(tenant, calls));
            && PlanOf(env, without, c.op, c.now).reply == PlanOf(env, with, c.op, c.now).reply
            && GetDoc(without, id, other) == GetDoc(with, id, other)
            && (GetDoc(with, id, other).Some? ==>
                  && DownloadPublic(env, without, id) == DownloadPublic(env, with, id)
                  && Timeline(without.audit, DocumentResource(id)) == Timeline(with.audit, DocumentResource(id))
                  && IntegrityReport(env, without, id) == IntegrityReport(env, with, id))
  {
    var with, without := Run(env, s, calls), Run(env, s, Without(tenant, calls));
    RunsDifferInTenantOnly(env, s, calls, tenant);
    RunKeepsInv(env, s, calls);
    RunKeepsInv(env, s, Without(tenant, calls));
    ProperWithin(env, without, with, c.op);
    SameCallSameErasure(env, without, with, c, tenant);
    SameErasureSameView(env, without, with, tenant, id, other);
  }
}
