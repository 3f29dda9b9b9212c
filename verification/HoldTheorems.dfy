/** Legal holds: safety wherever requests stop, exactness when they do not, and what the monitor
    reports. */
module HoldTheorems {
  import opened Basics
  import opened AuditTable
  import opened IntegrityChain
  import opened Entities
  import opened Vault
  import opened Safety
  import opened Requests
  import opened Tallies

  // ---------------------------------------------------------------- deletion

  /** When `delete_document` succeeds. It asks nothing about the status: deleting a deleted document
      succeeds again. */
  lemma DeleteSucceedsIff(env: Env, s: State, id: Uuid, tenant: Uuid, actor: Uuid, purge: bool, now: Clock)
    ensures PlanDelete(env, s, id, tenant, actor, purge, now).reply == Done <==>
      && id in s.docs && s.docs[id].tenant == tenant
      && (purge || (!s.docs[id].legalHold
                    && (s.docs[id].policy.Some? && s.docs[id].policy.value in s.policies ==>
                          var p := s.policies[s.docs[id].policy.value];
                          var expired := s.docs[id].createdAt + p.days * 86_400_000_000 <= now(0);
                          if p.mode.Compliance? then expired && p.allowAfterExpiry else expired || p.allowAfterExpiry)))
    ensures PlanDelete(env, s, id, tenant, actor, purge, now).reply == Done <==>
      PlanDelete(env, s, id, tenant, actor, purge, now).writes != []
  {}

  /** `Document.can_be_deleted`, which the documentation says guards deletion, agrees with `delete_document`
      exactly when the deletion is stopped by the hold, or what only the one looks at (an earlier deletion)
      and what only the other looks at (a policy that refuses) are both there or both not. */
  lemma CanBeDeletedDiffers(env: Env, s: State, id: Uuid, actor: Uuid, purge: bool, now: Clock)
    requires id in s.docs
    ensures var doc := s.docs[id];
            (PlanDelete(env, s, id, doc.tenant, actor, purge, now).reply == Done <==> CanBeDeleted(doc, purge).Allowed?)
            <==> (doc.legalHold && !purge) || (doc.status.Deleted? <==> DeleteGuard(s, doc, purge, now(0)).Some?)
  {}

  /** In every reachable state an unprivileged delete of a document with an active hold fails and
      writes nothing. */
  lemma HeldDocumentRefusesDelete(env: Env, s: State, id: Uuid, tenant: Uuid, actor: Uuid, now: Clock)
    requires Inv(env, s) && HasActiveHold(s, id)
    ensures id in s.docs && s.docs[id].legalHold
    ensures PlanDelete(env, s, id, tenant, actor, false, now)
         == Plan([], Failed(if s.docs[id].tenant == tenant then LegalHoldViolation else DocumentNotFound))
  {}

  lemma OtherDoesNotDelete(env: Env, p: Permit, s: State, w: Write, id: Uuid)
    requires Safe(env, p, s, w) && p.deleteOf != Some(id)
    requires id in s.docs && !s.docs[id].status.Deleted?
    ensures id in Apply(s, w).docs && !Apply(s, w).docs[id].status.Deleted?
  {}

  lemma {:induction false} OthersDoNotDelete(env: Env, p: Permit, s: State, ws: seq<Write>, id: Uuid)
    requires SafeAll(env, p, s, ws) && p.deleteOf != Some(id)
    requires id in s.docs && !s.docs[id].status.Deleted?
    ensures id in ApplyAll(s, ws).docs && !ApplyAll(s, ws).docs[id].status.Deleted?
    decreases |ws|
  {
    if ws == [] {
    } else {
      var n := |ws| - 1;
      OthersDoNotDelete(env, p, s, ws[..n], id);
      OtherDoesNotDelete(env, p, ApplyAll(s, ws[..n]), ws[n], id);
    }
  }

  /** No call deletes a document that is under an active hold when it starts, except a privileged purge
      of that document. */
  lemma CallSparesHeldDocument(env: Env, s: State, c: Call, id: Uuid)
    requires Lawful(env) && Inv(env, s) && Proper(env, s, c.op)
    requires HasActiveHold(s, id) && id in s.docs && !s.docs[id].status.Deleted?
    requires !(c.op.DeleteDocument? && c.op.doc == id && c.op.purge)
    ensures id in After(env, s, c).docs && !After(env, s, c).docs[id].status.Deleted?
  {
    CallSafe(env, s, c);
    if c.op.DeleteDocument? && c.op.doc == id {
      HeldDocumentRefusesDelete(env, s, id, c.op.tenant, c.op.actor, c.now);
      assert PlanOf(env, s, c.op, c.now).writes == [];
    } else {
      OthersDoNotDelete(env, PermitOf(c.op, c.now), s, Upto(PlanOf(env, s, c.op, c.now).writes, c.stop), id);
    }
  }

  /** Hold safety: in every state of every serial run, wherever its requests stop, an active hold means
      that the flag is set and that an unprivileged delete is refused. */
  lemma HoldSafety(env: Env, calls: seq<Call>, id: Uuid, tenant: Uuid, actor: Uuid, now: Clock)
    requires Lawful(env) && ProperRun(env, EMPTY, calls)
    requires HasActiveHold(Run(env, EMPTY, calls), id)
    ensures var s := Run(env, EMPTY, calls);
            id in s.docs && s.docs[id].legalHold
            && PlanDelete(env, s, id, tenant, actor, false, now).writes == []
            && PlanDelete(env, s, id, tenant, actor, false, now).reply.Failed?
  {
    EmptyInv(env);
    RunKeepsInv(env, EMPTY, calls);
    HeldDocumentRefusesDelete(env, Run(env, EMPTY, calls), id, tenant, actor, now);
  }

  // ---------------------------------------------------------------- exactness

  ghost predicate FlagExact(s: State, d: Uuid)
    requires d in s.docs
  {
    s.docs[d].legalHold <==> HasActiveHold(s, d)
  }

  ghost predicate HoldExact(s: State) {
    forall d :: d in s.docs ==> FlagExact(s, d)
  }

  /** The tenant owns the document of the hold. */
  predicate OwnRelease(s: State, hold: Uuid, tenant: Uuid) {
    hold in s.holds && s.holds[hold].document in s.docs ==> s.docs[s.holds[hold].document].tenant == tenant
  }

  lemma QuietWriteKeepsExact(env: Env, p: Permit, s: State, w: Write)
    requires HoldExact(s) && HoldsFlagged(s) && Safe(env, p, s, w) && !p.holds
    ensures HoldExact(Apply(s, w))
  {}

  lemma {:induction false} QuietWritesKeepExact(env: Env, p: Permit, s: State, ws: seq<Write>)
    requires Inv(env, s) && HoldExact(s) && SafeAll(env, p, s, ws) && !p.holds
    ensures HoldExact(ApplyAll(s, ws))
    decreases |ws|
  {
    if ws == [] {
    } else {
      var n := |ws| - 1;
      QuietWritesKeepExact(env, p, s, ws[..n]);
      SafeAllKeepsInv(env, p, s, ws[..n]);
      QuietWriteKeepsExact(env, p, ApplyAll(s, ws[..n]), ws[n]);
    }
  }

  lemma PlacedHoldExact(s: State, id: Uuid, tenant: Uuid, actor: Uuid, reason: string, hold: Uuid, now: Clock)
    requires HoldExact(s) && hold !in s.holds
    ensures HoldExact(ApplyAll(s, PlanPlaceHold(s, id, tenant, actor, reason, hold, now).writes))
  {
    var ws := PlanPlaceHold(s, id, tenant, actor, reason, hold, now).writes;
    if ws != [] {
      ApplyTwo(s, ws[0], ws[1]);
      var t := ApplyAll(s, ws);
      assert t.holds[hold].document == id && t.holds[hold].active;
      forall d | d in t.docs ensures FlagExact(t, d) {
        assert FlagExact(s, d);
        if HasActiveHold(s, d) {
          var h :| h in s.holds && s.holds[h].document == d && s.holds[h].active;
          assert t.holds[h] == s.holds[h];
        }
      }
    }
  }

  function Released(s: State, hold: Uuid, now: Clock): State
    requires hold in s.holds
  {
    s.(holds := s.holds[hold := s.holds[hold].(active := false, releasedAt := Some(now(0)))])
  }

  /** The state a completed release leaves. */
  ghost function AfterRelease(s: State, hold: Uuid, tenant: Uuid, now: Clock): State {
    ApplyAll(s, PlanReleaseHold(s, hold, tenant, now).writes)
  }

  lemma ReleaseState(s: State, hold: Uuid, tenant: Uuid, now: Clock)
    requires hold in s.holds && s.holds[hold].document in s.docs
    ensures var t := Released(s, hold, now);
            var id := s.holds[hold].document;
            AfterRelease(s, hold, tenant, now) ==
            if HasActiveHold(t, id) || !OwnRelease(s, hold, tenant) then t
            else t.(docs := t.docs[id := t.docs[id].(legalHold := false, updatedAt := now(1))])
  {
    var ws := PlanReleaseHold(s, hold, tenant, now).writes;
    assert Apply(s, ws[0]) == Released(s, hold, now);
    if |ws| == 2 {
      ApplyTwo(s, ws[0], ws[1]);
      assert ws == [ws[0], ws[1]];
    } else {
      ApplyOne(s, ws[0]);
      assert ws == [ws[0]];
    }
  }

  ghost predicate HasOtherActiveHold(s: State, hold: Uuid, doc: Uuid) {
    exists h :: h in s.holds && h != hold && s.holds[h].document == doc && s.holds[h].active
  }

  lemma OtherHoldStays(s: State, hold: Uuid, now: Clock)
    requires hold in s.holds
    ensures var id := s.holds[hold].document;
            HasActiveHold(Released(s, hold, now), id) <==> HasOtherActiveHold(s, hold, id)
  {
    var id := s.holds[hold].document;
    var t := Released(s, hold, now);
    if HasOtherActiveHold(s, hold, id) {
      var h :| h in s.holds && h != hold && s.holds[h].document == id && s.holds[h].active;
      assert t.holds[h] == s.holds[h];
    }
  }

  lemma SameHoldsSameActive(s: State, t: State, id: Uuid)
    requires s.holds == t.holds
    ensures HasActiveHold(s, id) <==> HasActiveHold(t, id)
  {}

  /** What a release leaves: one hold inactive, and the flag of its document cleared if no other hold is
      active and the tenant is the document's. */
  lemma ReleaseLeaves(s: State, hold: Uuid, tenant: Uuid, now: Clock)
    requires HoldsFlagged(s) && hold in s.holds
    ensures var t := AfterRelease(s, hold, tenant, now);
            var id := s.holds[hold].document;
            && id in s.docs && t.docs.Keys == s.docs.Keys
            && t.holds == s.holds[hold := s.holds[hold].(active := false, releasedAt := Some(now(0)))]
            && (forall d :: d in s.docs && d != id ==> t.docs[d] == s.docs[d])
            && (HasActiveHold(t, id) <==> HasOtherActiveHold(s, hold, id))
            && t.docs[id].legalHold == (s.docs[id].legalHold && (HasOtherActiveHold(s, hold, id) || !OwnRelease(s, hold, tenant)))
  {
    var t, r := AfterRelease(s, hold, tenant, now), Released(s, hold, now);
    ReleaseState(s, hold, tenant, now);
    OtherHoldStays(s, hold, now);
    SameHoldsSameActive(t, r, s.holds[hold].document);
  }

  lemma FewerHolds(s: State, t: State, hold: Uuid, id: Uuid)
    requires hold in s.holds && t.holds.Keys == s.holds.Keys
    requires forall h :: h in s.holds && h != hold ==> t.holds[h] == s.holds[h]
    requires !t.holds[hold].active && HasActiveHold(t, id)
    ensures HasActiveHold(s, id)
  {}

  lemma OtherHoldsUntouched(s: State, hold: Uuid, now: Clock, t: State)
    requires hold in s.holds
    requires t.holds == s.holds[hold := s.holds[hold].(active := false, releasedAt := Some(now(0)))]
    ensures forall d :: d != s.holds[hold].document ==> (HasActiveHold(t, d) <==> HasActiveHold(s, d))
  {
    forall d | d != s.holds[hold].document ensures HasActiveHold(t, d) <==> HasActiveHold(s, d) {
      if HasActiveHold(s, d) {
        var h :| h in s.holds && s.holds[h].document == d && s.holds[h].active;
        assert t.holds[h] == s.holds[h];
      }
      if HasActiveHold(t, d) {
        var h :| h in t.holds && t.holds[h].document == d && t.holds[h].active;
        assert t.holds[h] == s.holds[h];
      }
    }
  }

  /** After a completed release the flags are exact, unless a foreign tenant released the last active hold of
      a flagged document. */
  lemma ReleasedHoldExactIff(s: State, hold: Uuid, tenant: Uuid, now: Clock)
    requires HoldsFlagged(s) && HoldExact(s) && hold in s.holds
    ensures var id := s.holds[hold].document;
            id in s.docs
            && (HoldExact(AfterRelease(s, hold, tenant, now)) <==>
                  OwnRelease(s, hold, tenant) || HasOtherActiveHold(s, hold, id) || !s.docs[id].legalHold)
  {
    var id := s.holds[hold].document;
    var t := AfterRelease(s, hold, tenant, now);
    ReleaseLeaves(s, hold, tenant, now);
    OtherHoldsUntouched(s, hold, now, t);
    forall d | d in t.docs && d != id ensures FlagExact(t, d) { assert FlagExact(s, d); }
    assert FlagExact(s, id);
    if HasOtherActiveHold(s, hold, id) { FewerHolds(s, t, hold, id); }
    assert HoldExact(t) <==> FlagExact(t, id);
  }

  /** A placement that stops leaves the flags exact unless it stops between its two writes on a document that
      was not held. */
  lemma StoppedPlaceExactIff(s: State, id: Uuid, tenant: Uuid, actor: Uuid, reason: string, hold: Uuid, now: Clock, stop: nat)
    requires HoldExact(s) && hold !in s.holds
    ensures var ws := PlanPlaceHold(s, id, tenant, actor, reason, hold, now).writes;
            HoldExact(ApplyAll(s, Upto(ws, stop))) <==> ws == [] || stop != 1 || HasActiveHold(s, id)
  {
    var ws := PlanPlaceHold(s, id, tenant, actor, reason, hold, now).writes;
    PlacedHoldExact(s, id, tenant, actor, reason, hold, now);
    assert ws[..|ws|] == ws && ws[..0] == [];
    if ws != [] && stop == 1 {
      assert ws[..1] == [ws[0]];
      ApplyOne(s, ws[0]);
      var t := Apply(s, ws[0]);
      forall d | d in t.docs && d != id ensures FlagExact(t, d) {
        assert FlagExact(s, d);
        SameHoldsSameActive(s, t, d);
      }
      SameHoldsSameActive(s, t, id);
      assert HoldExact(t) <==> FlagExact(t, id);
    }
  }

  lemma ReleasedExactIff(s: State, hold: Uuid, now: Clock)
    requires HoldsFlagged(s) && HoldExact(s) && hold in s.holds
    ensures var id := s.holds[hold].document;
            id in s.docs && (HoldExact(Released(s, hold, now)) <==> HasOtherActiveHold(s, hold, id) || !s.docs[id].legalHold)
  {
    var id := s.holds[hold].document;
    var t := Released(s, hold, now);
    OtherHoldStays(s, hold, now);
    OtherHoldsUntouched(s, hold, now, t);
    forall d | d in t.docs && d != id ensures FlagExact(t, d) { assert FlagExact(s, d); }
    assert FlagExact(s, id);
    if HasOtherActiveHold(s, hold, id) { FewerHolds(s, t, hold, id); }
    assert HoldExact(t) <==> FlagExact(t, id);
  }

  lemma StoppedRelease(s: State, hold: Uuid, tenant: Uuid, now: Clock, stop: nat)
    requires hold in s.holds
    ensures ApplyAll(s, Upto(PlanReleaseHold(s, hold, tenant, now).writes, stop)) ==
      if stop == 0 then s else if stop == 1 then Released(s, hold, now) else AfterRelease(s, hold, tenant, now)
  {
    var ws := PlanReleaseHold(s, hold, tenant, now).writes;
    assert ws[..|ws|] == ws && ws[..0] == [];
    if stop == 1 {
      assert ws[..1] == [ws[0]];
      ApplyOne(s, ws[0]);
    }
  }

  /** A release that stops leaves the flags exact if and only if it had not begun, another hold is active, the
      flag was not set, or it came to the end and the tenant owns the document. */
  lemma StoppedReleaseExactIff(s: State, hold: Uuid, tenant: Uuid, now: Clock, stop: nat)
    requires HoldsFlagged(s) && HoldExact(s) && hold in s.holds
    ensures var id := s.holds[hold].document;
            id in s.docs
            && (HoldExact(ApplyAll(s, Upto(PlanReleaseHold(s, hold, tenant, now).writes, stop))) <==>
                  stop == 0 || HasOtherActiveHold(s, hold, id) || !s.docs[id].legalHold || (stop >= 2 && OwnRelease(s, hold, tenant)))
  {
    StoppedRelease(s, hold, tenant, now, stop);
    ReleasedExactIff(s, hold, now);
    ReleasedHoldExactIff(s, hold, tenant, now);
  }

  predicate OwnReleases(s: State, op: Op) {
    op.ReleaseHold? ==> OwnRelease(s, op.hold, op.tenant)
  }

  /** A run in which every call completes and every release is made by the document's own tenant. */
  ghost predicate CleanRun(env: Env, s: State, calls: seq<Call>) {
    calls == [] ||
    (var n := |calls| - 1;
     var t := Run(env, s, calls[..n]);
     CleanRun(env, s, calls[..n]) && Completes(env, t, calls[n]) && OwnReleases(t, calls[n].op))
  }

  lemma CleanCallHoldExact(env: Env, t: State, c: Call)
    requires Lawful(env) && Inv(env, t) && HoldExact(t) && Proper(env, t, c.op)
    requires Completes(env, t, c) && OwnReleases(t, c.op)
    ensures HoldExact(After(env, t, c))
  {
    CompletesIsAll(env, t, c);
    if c.op.PlaceHold? {
      PlacedHoldExact(t, c.op.doc, c.op.tenant, c.op.actor, c.op.reason, c.op.hold, c.now);
    } else if c.op.ReleaseHold? && c.op.hold in t.holds {
      ReleasedHoldExactIff(t, c.op.hold, c.op.tenant, c.now);
    } else if c.op.ReleaseHold? {
      assert PlanReleaseHold(t, c.op.hold, c.op.tenant, c.now).writes == [];
    } else {
      PlanSafe(env, t, c.op, c.now);
      QuietWritesKeepExact(env, PermitOf(c.op, c.now), t, PlanOf(env, t, c.op, c.now).writes);
    }
  }

  /** Hold exactness: in clean runs the cached flag is set exactly when an active hold exists. */
  lemma {:induction false} CleanRunsHoldExact(env: Env, s: State, calls: seq<Call>)
    requires Lawful(env) && Inv(env, s) && HoldExact(s) && ProperRun(env, s, calls) && CleanRun(env, s, calls)
    ensures HoldExact(Run(env, s, calls))
    decreases |calls|
  {
    if calls == [] {
    } else {
      var n := |calls| - 1;
      var t := Run(env, s, calls[..n]);
      CleanRunsHoldExact(env, s, calls[..n]);
      RunKeepsInv(env, s, calls[..n]);
      CleanCallHoldExact(env, t, calls[n]);
    }
  }

  // ---------------------------------------------------------------- what interleaving breaks

  /** Hold safety does not survive interleaving, because `update` writes back every column of a copy
      read earlier. A write-back of a stale row keeps it exactly when the copy has the flag set or no
      hold is active on the document by then. */
  lemma WriteBackKeepsHoldsIff(s: State, id: Uuid, copy: DocRow)
    requires HoldsFlagged(s) && id in s.docs
    ensures HoldsFlagged(Apply(s, UpdateDoc(id, copy))) <==> copy.legalHold || !HasActiveHold(s, id)
  {}

  /** The failing run: an update reads the row of an unheld document, a hold is placed, the update makes its
      write. The document is then held, unflagged, and an unprivileged delete of it goes through. */
  lemma RacedHoldIsLost(env: Env, s: State, id: Uuid, actor: Uuid, c: Changes, hold: Uuid, now: Clock)
    requires id in s.docs && !s.docs[id].legalHold && s.docs[id].policy == None && hold !in s.holds
    ensures PlanUpdate(env, s, id, s.docs[id].tenant, actor, c, now).writes != []
    ensures var tenant := s.docs[id].tenant;
            var placed := ApplyAll(s, PlanPlaceHold(s, id, tenant, actor, "", hold, now).writes);
            var t := Apply(placed, PlanUpdate(env, s, id, tenant, actor, c, now).writes[0]);
            HasActiveHold(t, id) && PlanDelete(env, t, id, tenant, actor, false, now).reply == Done
  {
    var tenant := s.docs[id].tenant;
    var ws := PlanPlaceHold(s, id, tenant, actor, "", hold, now).writes;
    ApplyTwo(s, ws[0], ws[1]);
    var t := Apply(ApplyAll(s, ws), PlanUpdate(env, s, id, tenant, actor, c, now).writes[0]);
    assert t.holds[hold].document == id && t.holds[hold].active;
  }

  // ---------------------------------------------------------------- the monitor

  predicate OnDocument(s: State, h: Row<HoldRow>) {
    h.row.document in s.docs
  }

  predicate OnDeleted(s: State, h: Row<HoldRow>) {
    OnDocument(s, h) && s.docs[h.row.document].status.Deleted?
  }

  predicate Unflagged(s: State, h: Row<HoldRow>) {
    OnDocument(s, h) && !s.docs[h.row.document].legalHold
  }

  predicate OfTenant(s: State, h: Row<HoldRow>, tenant: Uuid) {
    OnDocument(s, h) && s.docs[h.row.document].tenant == tenant
  }

  predicate AlarmFor(s: State, h: Row<HoldRow>, r: Resource) {
    OnDeleted(s, h) && DocumentResource(h.row.document) == r
  }

  /** Holds whose document exists. */
  function Existing(s: State, held: seq<Row<HoldRow>>): nat {
    Count(held, h => OnDocument(s, h))
  }

  /** On any state the monitor counts what it says: unflagged documents, deletions under hold, each of which
      it writes one event about. The per-tenant counts sum to the holds whose document exists. */
  lemma {:induction false} MonitorCounts(env: Env, s: State, held: seq<Row<HoldRow>>)
    ensures var run := Monitor(env, s, held);
            && run.inconsistent == Count(held, h => Unflagged(s, h))
            && run.deletedUnderHold == Count(held, h => OnDeleted(s, h)) == |run.writes|
            && Sum(run.counts) == Existing(s, held)
    decreases |held|
  {
    if held == [] {
    } else {
      var n := |held| - 1;
      MonitorCounts(env, s, held[..n]);
      if held[n].row.document in s.docs {
        TallyAddsOne(Monitor(env, s, held[..n]).counts, s.docs[held[n].row.document].tenant);
      }
    }
  }

  /** The count of each tenant is that of the holds on its documents. */
  lemma {:induction false} MonitorTenantCounts(env: Env, s: State, held: seq<Row<HoldRow>>, tenant: Uuid)
    ensures Of(Monitor(env, s, held).counts, tenant) == Count(held, h => OfTenant(s, h, tenant))
    decreases |held|
  {
    if held == [] {
    } else {
      MonitorTenantCounts(env, s, held[..|held| - 1], tenant);
    }
  }

  /** Active holds on existing documents whose flag is not set. */
  function UnflaggedHolds(s: State): set<Uuid> {
    set h | h in s.holds && s.holds[h].active && s.holds[h].document in s.docs && !s.docs[s.holds[h].document].legalHold
  }

  /** Active holds on deleted documents. */
  function HoldsOnDeleted(s: State): set<Uuid> {
    set h | h in s.holds && s.holds[h].active && s.holds[h].document in s.docs && s.docs[s.holds[h].document].status.Deleted?
  }

  /** Over all active holds, in any order, the monitor yields how many are on unflagged documents and how
      many on deleted ones. */
  lemma MonitorIsExact(env: Env, s: State, held: seq<Row<HoldRow>>)
    requires Lists(held, s.holds, ActiveHolds(s))
    ensures var run := Monitor(env, s, held);
            && run.inconsistent == |UnflaggedHolds(s)| && run.deletedUnderHold == |HoldsOnDeleted(s)| == |run.writes|
            && Sum(run.counts) == Existing(s, held)
  {
    MonitorCounts(env, s, held);
    assert forall h :: h in UnflaggedHolds(s) || h in HoldsOnDeleted(s) ==> h in ActiveHolds(s);
    assert forall i :: 0 <= i < |held| ==> held[i].id in s.holds && s.holds[held[i].id] == held[i].row && held[i].row.active;
    CountIsSize(held, (row: Row<HoldRow>) => row.id, h => Unflagged(s, h), UnflaggedHolds(s));
    CountIsSize(held, (row: Row<HoldRow>) => row.id, h => OnDeleted(s, h), HoldsOnDeleted(s));
  }

  lemma {:induction false} MonitorAlarms(env: Env, s: State, held: seq<Row<HoldRow>>, r: Resource)
    ensures EventsFor(Monitor(env, s, held).writes, r) == Count(held, h => AlarmFor(s, h, r))
    decreases |held|
  {
    if held == [] {
    } else {
      var n := |held| - 1;
      var before := Monitor(env, s, held[..n]);
      MonitorAlarms(env, s, held[..n], r);
      if OnDeleted(s, held[n]) {
        EventsForAppend(before.writes, MonitorRow(env, s, before, held[n]).writes[|before.writes|], r);
      }
    }
  }

  /** The chain of a document grows by one event for each active hold on it if it is deleted, and no other
      chain changes. */
  lemma MonitorEffect(env: Env, s: State, held: seq<Row<HoldRow>>, r: Resource)
    ensures var after := Timeline(ApplyAll(s, Monitor(env, s, held).writes).audit, r);
            Timeline(s.audit, r) <= after
            && |after| == |Timeline(s.audit, r)| + Count(held, h => AlarmFor(s, h, r))
  {
    MonitorAlarms(env, s, held, r);
    ChainGrowth(s, Monitor(env, s, held).writes, r);
  }

  lemma {:induction false} FlaggedHoldsConsistent(env: Env, s: State, held: seq<Row<HoldRow>>)
    requires forall i :: 0 <= i < |held| ==>
      held[i].row.document in s.docs && s.docs[held[i].row.document].legalHold
    ensures Monitor(env, s, held).inconsistent == 0 && Existing(s, held) == |held|
    decreases |held|
  {
    if held == [] {
    } else {
      FlaggedHoldsConsistent(env, s, held[..|held| - 1]);
    }
  }

  /** In every state of every serial run, wherever its requests stop, the monitor finds no inconsistent
      hold, its per-tenant counts sum to the active holds, and it appends exactly as many events as it
      counts deletions under hold. */
  lemma MonitorFindsNothing(env: Env, calls: seq<Call>, held: seq<Row<HoldRow>>)
    requires Lawful(env) && ProperRun(env, EMPTY, calls)
    requires Lists(held, Run(env, EMPTY, calls).holds, ActiveHolds(Run(env, EMPTY, calls)))
    ensures var run := Monitor(env, Run(env, EMPTY, calls), held);
            run.inconsistent == 0 && Sum(run.counts) == |held| && |run.writes| == run.deletedUnderHold
  {
    EmptyInv(env);
    RunKeepsInv(env, EMPTY, calls);
    var s := Run(env, EMPTY, calls);
    forall i | 0 <= i < |held|
      ensures held[i].row.document in s.docs && s.docs[held[i].row.document].legalHold
    {
      assert held[i].id in s.holds && s.holds[held[i].id].active;
    }
    FlaggedHoldsConsistent(env, s, held);
    MonitorCounts(env, s, held);
  }
}
