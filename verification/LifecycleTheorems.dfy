/** Requests that undo one another. */
module LifecycleTheorems {
  import opened Basics
  import opened AuditTable
  import opened Entities
  import opened Vault
  import opened Safety
  import opened HoldTheorems

  // ---------------------------------------------------------------- delete and restore

  function Deletion(env: Env, s: State, id: Uuid, actor: Uuid, purge: bool, now: Clock): State
    requires id in s.docs
  {
    ApplyAll(s, PlanDelete(env, s, id, s.docs[id].tenant, actor, purge, now).writes)
  }

  function Restoration(env: Env, s: State, id: Uuid, actor: Uuid, now: Clock): State
    requires id in s.docs
  {
    ApplyAll(s, PlanRestore(env, s, id, s.docs[id].tenant, actor, now).writes)
  }

  /** One document row replaced and one event appended about that document. */
  ghost predicate Amended(s: State, t: State, id: Uuid, row: DocRow, event: EventType) {
    && t == s.(docs := s.docs[id := row], audit := t.audit)
    && |t.audit| == |s.audit| + 1 && s.audit <= t.audit
    && t.audit[|s.audit|].resource == DocumentResource(id) && t.audit[|s.audit|].event == event
  }

  lemma DeletionAmends(env: Env, s: State, id: Uuid, actor: Uuid, purge: bool, now: Clock)
    requires id in s.docs && PlanDelete(env, s, id, s.docs[id].tenant, actor, purge, now).reply == Done
    ensures Amended(s, Deletion(env, s, id, actor, purge, now), id, s.docs[id].(status := Deleted, updatedAt := now(2)), DocumentDeleted)
  {
    var ws := PlanDelete(env, s, id, s.docs[id].tenant, actor, purge, now).writes;
    ApplyTwo(s, ws[0], ws[1]);
  }

  lemma RestorationAmends(env: Env, s: State, id: Uuid, actor: Uuid, now: Clock)
    requires id in s.docs && s.docs[id].status.Deleted?
    ensures Amended(s, Restoration(env, s, id, actor, now), id, s.docs[id].(status := Active, updatedAt := now(1)), DocumentRestored)
  {
    var ws := PlanRestore(env, s, id, s.docs[id].tenant, actor, now).writes;
    ApplyTwo(s, ws[0], ws[1]);
  }

  lemma AmendedServes(env: Env, s: State, t: State, id: Uuid, row: DocRow, event: EventType)
    requires id in s.docs && Amended(s, t, id, row, event)
    requires row.currentVersion == s.docs[id].currentVersion && row.tenant == s.docs[id].tenant
    ensures DownloadPublic(env, t, id) == DownloadPublic(env, s, id)
  {}

  lemma AmendedTwice(s: State, t: State, u: State, id: Uuid, first: DocRow, second: DocRow, e: EventType, f: EventType)
    requires Amended(s, t, id, first, e) && Amended(t, u, id, second, f)
    ensures u == s.(docs := s.docs[id := second], audit := u.audit)
    ensures s.audit <= u.audit && |u.audit| == |s.audit| + 2
  {
    assert s.docs[id := first][id := second] == s.docs[id := second];
  }

  /** Deleting and then restoring. Everything but the row and the audit table is as before, the content is
      served throughout, and the row comes back as it was, with a new update time, exactly when the document
      was active: a processing, archived, corrupted or already deleted one comes back active. */
  lemma RestoreUndoesDeleteIff(env: Env, s: State, id: Uuid, actor: Uuid, purge: bool, now: Clock, later: Clock)
    requires id in s.docs && PlanDelete(env, s, id, s.docs[id].tenant, actor, purge, now).reply == Done
    ensures id in Deletion(env, s, id, actor, purge, now).docs
    ensures var deleted := Deletion(env, s, id, actor, purge, now);
            var restored := Restoration(env, deleted, id, actor, later);
            && id in restored.docs && restored == s.(docs := s.docs[id := restored.docs[id]], audit := restored.audit)
            && (restored.docs[id] == s.docs[id].(updatedAt := later(1)) <==> s.docs[id].status.Active?)
            && s.audit <= restored.audit && |restored.audit| == |s.audit| + 2
            && DownloadPublic(env, deleted, id) == DownloadPublic(env, s, id) == DownloadPublic(env, restored, id)
  {
    DeletionAmends(env, s, id, actor, purge, now);
    var deleted := Deletion(env, s, id, actor, purge, now);
    var restored := Restoration(env, deleted, id, actor, later);
    var gone := s.docs[id].(status := Deleted, updatedAt := now(2));
    var back := gone.(status := Active, updatedAt := later(1));
    RestorationAmends(env, deleted, id, actor, later);
    AmendedTwice(s, deleted, restored, id, gone, back, DocumentDeleted, DocumentRestored);
    AmendedServes(env, s, deleted, id, gone, DocumentDeleted);
    AmendedServes(env, deleted, restored, id, back, DocumentRestored);
  }

  // ---------------------------------------------------------------- place and release

  function Placement(s: State, id: Uuid, actor: Uuid, reason: string, hold: Uuid, now: Clock): State
    requires id in s.docs
  {
    ApplyAll(s, PlanPlaceHold(s, id, s.docs[id].tenant, actor, reason, hold, now).writes)
  }

  lemma PlacementIs(s: State, id: Uuid, actor: Uuid, reason: string, hold: Uuid, now: Clock)
    requires id in s.docs
    ensures Placement(s, id, actor, reason, hold, now) ==
      s.(docs := s.docs[id := s.docs[id].(legalHold := true, updatedAt := now(0))],
         holds := s.holds[hold := HoldRow(id, reason, actor, true, now(1), None)])
  {
    var ws := PlanPlaceHold(s, id, s.docs[id].tenant, actor, reason, hold, now).writes;
    ApplyTwo(s, ws[0], ws[1]);
  }

  lemma PlacementFlagged(s: State, id: Uuid, actor: Uuid, reason: string, hold: Uuid, now: Clock)
    requires HoldsFlagged(s) && id in s.docs && hold !in s.holds
    ensures HoldsFlagged(Placement(s, id, actor, reason, hold, now))
  {
    PlacementIs(s, id, actor, reason, hold, now);
  }

  lemma SameActiveHolds(s: State, t: State, hold: Uuid, id: Uuid)
    requires hold !in s.holds && t.holds.Keys == s.holds.Keys + {hold} && !t.holds[hold].active
    requires forall h :: h in s.holds ==> t.holds[h] == s.holds[h]
    ensures HasActiveHold(t, id) <==> HasActiveHold(s, id)
  {
    if HasActiveHold(s, id) {
      var h :| h in s.holds && s.holds[h].document == id && s.holds[h].active;
      assert t.holds[h].active && t.holds[h].document == id;
    }
  }

  /** Placing a hold and releasing it, both by the document's tenant: the flag is then set exactly when
      another hold is active, so it is back to what it was exactly when it agreed with the holds before. */
  lemma ReleaseUndoesPlaceIff(s: State, id: Uuid, actor: Uuid, reason: string, hold: Uuid, now: Clock, later: Clock)
    requires HoldsFlagged(s) && id in s.docs && hold !in s.holds
    ensures var released := AfterRelease(Placement(s, id, actor, reason, hold, now), hold, s.docs[id].tenant, later);
            && id in released.docs
            && (released.docs[id].legalHold <==> HasActiveHold(s, id))
            && (released.docs[id].legalHold == s.docs[id].legalHold <==> FlagExact(s, id))
  {
    var placed := Placement(s, id, actor, reason, hold, now);
    PlacementIs(s, id, actor, reason, hold, now);
    PlacementFlagged(s, id, actor, reason, hold, now);
    ReleaseLeaves(placed, hold, s.docs[id].tenant, later);
    SameActiveHolds(s, AfterRelease(placed, hold, s.docs[id].tenant, later), hold, id);
  }
}
