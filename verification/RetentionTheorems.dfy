/** Retention: COMPLIANCE documents survive whole runs, and the expiry scan agrees with deletion. */
module RetentionTheorems {
  import opened Basics
  import opened CanonicalJson
  import opened IntegrityChain
  import opened AuditTable
  import opened Entities
  import opened Vault
  import opened Safety
  import opened Requests
  import opened Tallies
  import opened Outcomes

  // ---------------------------------------------------------------- compliance over runs

  /** A live document created at `created` under the COMPLIANCE policy `policy`. */
  predicate Retained(s: State, id: Uuid, policyId: Uuid, policy: PolicyRow, created: int) {
    && id in s.docs && policyId in s.policies && s.policies[policyId] == policy
    && !s.docs[id].status.Deleted? && s.docs[id].policy == Some(policyId) && s.docs[id].createdAt == created
  }

  /** The policy never allows deletion at this time. */
  predicate Locked(policy: PolicyRow, created: int, now: int) {
    now < created + policy.days * 86_400_000_000 || !policy.allowAfterExpiry
  }

  lemma SafeKeepsRetained(env: Env, p: Permit, s: State, w: Write, id: Uuid, policyId: Uuid, policy: PolicyRow, created: int)
    requires Safe(env, p, s, w) && Retained(s, id, policyId, policy, created) && policy.mode.Compliance?
    requires Locked(policy, created, p.now)
    requires p.policyOf != Some(id) && !(p.purge && p.deleteOf == Some(id))
    ensures Retained(Apply(s, w), id, policyId, policy, created)
  {}

  lemma {:induction false} SafeAllKeepRetained(env: Env, p: Permit, s: State, ws: seq<Write>,
                                               id: Uuid, policyId: Uuid, policy: PolicyRow, created: int)
    requires SafeAll(env, p, s, ws) && Retained(s, id, policyId, policy, created) && policy.mode.Compliance?
    requires Locked(policy, created, p.now)
    requires p.policyOf != Some(id) && !(p.purge && p.deleteOf == Some(id))
    ensures Retained(ApplyAll(s, ws), id, policyId, policy, created)
    decreases |ws|
  {
    if ws == [] {
    } else {
      var n := |ws| - 1;
      SafeAllKeepRetained(env, p, s, ws[..n], id, policyId, policy, created);
      SafeKeepsRetained(env, p, ApplyAll(s, ws[..n]), ws[n], id, policyId, policy, created);
    }
  }

  /** No call purges `id` with privilege or attaches another policy to it. */
  predicate LeavesPolicy(calls: seq<Call>, id: Uuid) {
    forall i :: 0 <= i < |calls| ==>
      !(calls[i].op.ApplyPolicy? && calls[i].op.doc == id) &&
      !(calls[i].op.DeleteDocument? && calls[i].op.doc == id && calls[i].op.purge)
  }

  /** No request checks a policy after `latest`. */
  predicate AllBy(calls: seq<Call>, latest: int) {
    forall i :: 0 <= i < |calls| ==> calls[i].now(0) <= latest
  }

  /** A live document under a COMPLIANCE policy is live, and still under it, after any run that ends by
      `latest`, if the policy does not allow its deletion by then: never before its expiry, and never
      at all if the policy forbids deletion after expiry. Requests may stop anywhere. */
  lemma {:induction false} ComplianceOutlastsRuns(env: Env, s: State, calls: seq<Call>, latest: int,
                                                  id: Uuid, policyId: Uuid, policy: PolicyRow, created: int)
    requires Lawful(env) && Inv(env, s) && ProperRun(env, s, calls)
    requires Retained(s, id, policyId, policy, created) && policy.mode.Compliance?
    requires LeavesPolicy(calls, id) && AllBy(calls, latest) && Locked(policy, created, latest)
    ensures Retained(Run(env, s, calls), id, policyId, policy, created)
    decreases |calls|
  {
    if calls == [] {
    } else {
      var n := |calls| - 1;
      var c := calls[n];
      var t := Run(env, s, calls[..n]);
      ComplianceOutlastsRuns(env, s, calls[..n], latest, id, policyId, policy, created);
      RunKeepsInv(env, s, calls[..n]);
      CallSafe(env, t, c);
      SafeAllKeepRetained(env, PermitOf(c.op, c.now), t, Upto(PlanOf(env, t, c.op, c.now).writes, c.stop),
                          id, policyId, policy, created);
    }
  }

  lemma UploadIsRetained(env: Env, s: State, u: Upload, now: Clock)
    requires Lawful(env) && u.policy.Some? && u.policy.value in s.policies
    ensures Retained(Left(env, s, UploadDocument(u), now), u.doc, u.policy.value, s.policies[u.policy.value], now(1))
  {
    UploadLeavesRows(env, s, u, now);
  }

  lemma RetainedRefusesDelete(env: Env, t: State, id: Uuid, policyId: Uuid, policy: PolicyRow, created: int,
                              tenant: Uuid, actor: Uuid, at: Clock)
    requires Retained(t, id, policyId, policy, created) && policy.mode.Compliance? && Locked(policy, created, at(0))
    ensures var delete := Op.DeleteDocument(id, tenant, actor, false);
            Answer(env, t, delete, at).Failed? && Fails(env, t, delete, at, Answer(env, t, delete, at).error)
  {
    DeleteLeavesRow(env, t, id, tenant, actor, false, at);
  }

  /** What an upload promises under COMPLIANCE: the document stays live under the policy that the request named in
      every run that ends by `latest`, if the policy does not allow its deletion by then and nobody purges it or
      attaches another, and until then no unprivileged delete goes through. */
  lemma UploadOutlastsRuns(env: Env, s: State, u: Upload, now: Clock, calls: seq<Call>, latest: int, tenant: Uuid, actor: Uuid, at: Clock)
    requires Lawful(env) && Inv(env, s) && Proper(env, s, UploadDocument(u))
    requires u.policy.Some? && u.policy.value in s.policies && s.policies[u.policy.value].mode.Compliance?
    requires ProperRun(env, Left(env, s, UploadDocument(u), now), calls) && LeavesPolicy(calls, u.doc) && AllBy(calls, latest)
    requires Locked(s.policies[u.policy.value], now(1), latest) && at(0) <= latest
    ensures var t := Run(env, Left(env, s, UploadDocument(u), now), calls);
            var delete := Op.DeleteDocument(u.doc, tenant, actor, false);
            && Retained(t, u.doc, u.policy.value, s.policies[u.policy.value], now(1))
            && Answer(env, t, delete, at).Failed? && Fails(env, t, delete, at, Answer(env, t, delete, at).error)
  {
    var policy := s.policies[u.policy.value];
    var uploaded := Left(env, s, UploadDocument(u), now);
    UploadIsRetained(env, s, u, now);
    LeftKeepsInv(env, s, UploadDocument(u), now);
    ComplianceOutlastsRuns(env, uploaded, calls, latest, u.doc, u.policy.value, policy, now(1));
    RetainedRefusesDelete(env, Run(env, uploaded, calls), u.doc, u.policy.value, policy, now(1), tenant, actor, at);
  }

  /** The lock is exact: where the policy does allow deletion, an unheld document is deleted on request. */
  lemma UnlockedComplianceDeletes(env: Env, s: State, id: Uuid, policyId: Uuid, policy: PolicyRow, created: int,
                                  actor: Uuid, now: Clock)
    requires Retained(s, id, policyId, policy, created) && policy.mode.Compliance? && !s.docs[id].legalHold
    ensures PlanDelete(env, s, id, s.docs[id].tenant, actor, false, now).reply == Done <==> !Locked(policy, created, now(0))
  {}

  // ---------------------------------------------------------------- the scan and deletion

  predicate Expired(e: Expiring, now: int) {
    e.doc.createdAt + e.policy.days * 86_400_000_000 <= now
  }

  predicate Eligible(e: Expiring, now: int) {
    Expired(e, now) && !e.doc.legalHold && (e.policy.mode.Governance? || e.policy.allowAfterExpiry)
  }

  predicate ComplianceLocked(e: Expiring, now: int) {
    Expired(e, now) && !e.doc.legalHold && e.policy.mode.Compliance? && !e.policy.allowAfterExpiry
  }

  /** The scan calls a live document with a policy eligible exactly when it has expired and an
      unprivileged delete at that instant would succeed: two separately written decisions agree. */
  lemma ScanAgreesWithDelete(env: Env, s: State, id: Uuid, actor: Uuid, now: Clock)
    requires id in LiveWithPolicy(s)
    ensures Eligible(Joined(s, id), now(0)) <==>
      Expired(Joined(s, id), now(0)) && PlanDelete(env, s, id, s.docs[id].tenant, actor, false, now).reply == Done
  {}

  /** Expired rows that COMPLIANCE locks for good. */
  function LockedRows(rows: seq<Expiring>, now: int): nat {
    Count(rows, e => ComplianceLocked(e, now))
  }

  /** The scan counts what it says: expired rows, held ones among them, eligible ones; what is left over
      is locked by COMPLIANCE. It writes one event for each eligible row. */
  lemma {:induction false} ScanCounts(env: Env, s: State, rows: seq<Expiring>, now: int)
    ensures var run := Scan(env, s, rows, now);
            && run.expired == Count(rows, e => Expired(e, now))
            && run.blocked == Count(rows, e => Expired(e, now) && e.doc.legalHold)
            && run.eligible == Count(rows, e => Eligible(e, now)) == |run.writes|
            && run.expired == run.blocked + run.eligible + LockedRows(rows, now)
    decreases |rows|
  {
    if rows == [] {
    } else {
      ScanCounts(env, s, rows[..|rows| - 1], now);
    }
  }

  /** The live documents whose policy exists and has expired. */
  function ExpiredDocs(s: State, now: int): set<Uuid> {
    set d | d in s.docs && s.docs[d].status != Deleted && s.docs[d].policy.Some? && s.docs[d].policy.value in s.policies
            && s.docs[d].createdAt + s.policies[s.docs[d].policy.value].days * 86_400_000_000 <= now
  }

  function HeldDocs(s: State): set<Uuid> {
    set d | d in s.docs && s.docs[d].legalHold
  }

  /** The documents under a policy that never lets an expired document go. */
  function LockedDocs(s: State): set<Uuid> {
    set d | d in s.docs && s.docs[d].policy.Some? && s.docs[d].policy.value in s.policies
            && s.policies[s.docs[d].policy.value].mode == Compliance && !s.policies[s.docs[d].policy.value].allowAfterExpiry
  }

  lemma CountDocs(s: State, rows: seq<Expiring>, p: Expiring -> bool, ids: set<Uuid>)
    requires ListsExpiring(rows, s) && ids <= LiveWithPolicy(s)
    requires forall id :: id in LiveWithPolicy(s) ==> (id in ids <==> p(Joined(s, id)))
    ensures Count(rows, p) == |ids|
  {
    CountIsSize(rows, (e: Expiring) => e.id, p, ids);
  }

  /** Over all rows of the join, in any order: expired documents, the held ones among them, and those that are
      neither held nor locked. */
  lemma ScanIsExact(env: Env, s: State, rows: seq<Expiring>, now: int)
    requires ListsExpiring(rows, s)
    ensures var run := Scan(env, s, rows, now);
            && run.expired == |ExpiredDocs(s, now)| && run.blocked == |ExpiredDocs(s, now) * HeldDocs(s)|
            && run.eligible == |ExpiredDocs(s, now) - HeldDocs(s) - LockedDocs(s)|
  {
    ScanCounts(env, s, rows, now);
    CountDocs(s, rows, e => Expired(e, now), ExpiredDocs(s, now));
    CountDocs(s, rows, e => Expired(e, now) && e.doc.legalHold, ExpiredDocs(s, now) * HeldDocs(s));
    CountDocs(s, rows, e => Eligible(e, now), ExpiredDocs(s, now) - HeldDocs(s) - LockedDocs(s));
  }

  /** The event the scan writes about a row. */
  predicate IsScanNote(env: Env, e: Expiring, event: EventRow) {
    && event.resource == DocumentResource(e.id) && event.event == RetentionApplied
    && event.tenant == e.doc.tenant && event.payload == ScanPayload(env, e)
  }

  predicate EligibleFor(e: Expiring, r: Resource, now: int) {
    Eligible(e, now) && r == DocumentResource(e.id)
  }

  /** The timeline of `r` after the scan is the one before it, with one note more if `r` is the document
      of an eligible row, and unchanged otherwise. */
  ghost predicate GrowsByOneNote(env: Env, before: seq<EventRow>, after: seq<EventRow>, rows: seq<Expiring>, r: Resource, now: int) {
    if exists i :: 0 <= i < |rows| && EligibleFor(rows[i], r, now)
    then |after| == |before| + 1 && before <= after
         && exists i :: 0 <= i < |rows| && EligibleFor(rows[i], r, now) && IsScanNote(env, rows[i], after[|before|])
    else after == before
  }

  function ScanNote(env: Env, s: State, e: Expiring): Write {
    Append(env, s, DocumentResource(e.id), e.doc.tenant, None, RetentionApplied, ScanPayload(env, e))
  }

  lemma ScanRowWrites(env: Env, s: State, before: ScanRun, e: Expiring, now: int)
    ensures ScanRow(env, s, before, e, now).writes ==
      before.writes + (if Eligible(e, now) then [ScanNote(env, ApplyAll(s, before.writes), e)] else [])
  {
    assert before.writes + [] == before.writes;
  }

  lemma ScanStep(env: Env, s: State, rows: seq<Expiring>, now: int)
    requires rows != []
    ensures var n := |rows| - 1;
            var ws := Scan(env, s, rows[..n], now).writes;
            var t := ApplyAll(s, ws);
            Scan(env, s, rows, now).writes == ws + (if Eligible(rows[n], now) then [ScanNote(env, t, rows[n])] else [])
  {
    ScanRowWrites(env, s, Scan(env, s, rows[..|rows| - 1], now), rows[|rows| - 1], now);
  }

  lemma EventGrowsTimeline(t: State, e: EventRow, r: Resource)
    ensures Timeline(Apply(t, InsertEvent(e)).audit, r) ==
            if r == e.resource then Timeline(t.audit, r) + [e] else Timeline(t.audit, r)
  {}

  lemma ScanNoteStep(env: Env, before: seq<EventRow>, mid: seq<EventRow>, after: seq<EventRow>, rows: seq<Expiring>, r: Resource, now: int)
    requires rows != [] && forall i, j :: 0 <= i < j < |rows| ==> rows[i].id != rows[j].id
    requires GrowsByOneNote(env, before, mid, rows[..|rows| - 1], r, now)
    requires var e := rows[|rows| - 1];
             if EligibleFor(e, r, now) then |after| == |mid| + 1 && mid <= after && IsScanNote(env, e, after[|mid|])
             else after == mid
    ensures GrowsByOneNote(env, before, after, rows, r, now)
  {}

  lemma ScanGrows(env: Env, s: State, rows: seq<Expiring>, now: int, r: Resource)
    requires rows != []
    ensures var n := |rows| - 1;
            var t := ApplyAll(s, Scan(env, s, rows[..n], now).writes);
            Timeline(ApplyAll(s, Scan(env, s, rows, now).writes).audit, r) ==
            Timeline(t.audit, r) + if EligibleFor(rows[n], r, now) then [ScanNote(env, t, rows[n]).event] else []
  {
    var n := |rows| - 1;
    var ws := Scan(env, s, rows[..n], now).writes;
    var t := ApplyAll(s, ws);
    ScanStep(env, s, rows, now);
    if Eligible(rows[n], now) {
      ApplyAllSnoc(s, ws, ScanNote(env, t, rows[n]));
      EventGrowsTimeline(t, ScanNote(env, t, rows[n]).event, r);
    } else {
      assert ws + [] == ws;
    }
  }

  lemma {:induction false} ScanNotes(env: Env, s: State, rows: seq<Expiring>, now: int, r: Resource)
    requires forall i, j :: 0 <= i < j < |rows| ==> rows[i].id != rows[j].id
    ensures GrowsByOneNote(env, Timeline(s.audit, r), Timeline(ApplyAll(s, Scan(env, s, rows, now).writes).audit, r), rows, r, now)
    decreases |rows|
  {
    if rows == [] {
    } else {
      var n := |rows| - 1;
      ScanNotes(env, s, rows[..n], now, r);
      ScanGrows(env, s, rows, now, r);
      var t := ApplyAll(s, Scan(env, s, rows[..n], now).writes);
      ScanNoteStep(env, Timeline(s.audit, r), Timeline(t.audit, r),
                   Timeline(ApplyAll(s, Scan(env, s, rows, now).writes).audit, r), rows, r, now);
    }
  }

  /** One scan, on any state: `expired = blocked + eligible + locked`, the chain of each eligible document
      grows by exactly one event, and no other chain changes. */
  lemma ScanEffect(env: Env, s: State, rows: seq<Expiring>, now: int, r: Resource)
    requires ListsExpiring(rows, s)
    ensures var run := Scan(env, s, rows, now);
            && run.expired == run.blocked + run.eligible + LockedRows(rows, now)
            && run.eligible == |run.writes|
            && GrowsByOneNote(env, Timeline(s.audit, r), Timeline(ApplyAll(s, run.writes).audit, r), rows, r, now)
  {
    ScanCounts(env, s, rows, now);
    ScanNotes(env, s, rows, now, r);
  }
}
