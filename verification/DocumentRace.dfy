/** Documents in interleaved runs: exactly when write-backs of old copies harm published content, holds and
    retention. */
module DocumentRace {
  import opened Basics
  import opened CanonicalJson
  import opened Entities
  import opened Vault
  import opened Safety
  import opened Requests
  import opened Progress
  import opened ContentTheorems
  import opened RetentionTheorems
  import opened VaultRace

  /** The write that move `i` of a run makes, if any. */
  function Made(env: Env, moves: seq<Move>, races: seq<Race>, i: nat): Option<Write>
    requires i < |moves| && i < |races|
  {
    WriteOf(env, races, i, moves[i])
  }

  /** Move `i` writes the row of document `id`. */
  predicate WritesRow(env: Env, moves: seq<Move>, races: seq<Race>, i: nat, id: Uuid)
    requires i < |moves| && i < |races|
  {
    var w := Made(env, moves, races, i);
    w.Some? && w.value.UpdateDoc? && w.value.id == id
  }

  /** Whatever else happens at move `i`, it leaves the row of an existing document alone unless it writes it. */
  lemma OtherMovesKeepRow(env: Env, s: State, moves: seq<Move>, races: seq<Race>, i: nat, id: Uuid)
    requires Lawful(env) && RacedInv(env, s) && Trace(env, s, moves, races) && i < |moves| && id in races[i].state.docs
    ensures id in races[i + 1].state.docs
    ensures races[i + 1].state.docs[id] ==
      if WritesRow(env, moves, races, i, id) then Made(env, moves, races, i).value.doc else races[i].state.docs[id]
  {
    assert StepAt(env, moves, races, i);
    RacedContentSurvives(env, s, moves, races, i);
    MoveOk(env, races, i, moves[i]);
  }

  // ---------------------------------------------------------------- content

  /** A write-back leaves a document's content readable exactly when its copy has a version; it leaves it the
      same when its copy has the version the row has. */
  lemma WriteBackServesIff(env: Env, s: State, id: Uuid, copy: DocRow, now: int)
    requires VersionsReadable(env, s) && VersionsOwned(s) && id in s.docs && VersionOwned(s, id, copy)
    ensures var t := Apply(s, UpdateDoc(id, WriteBack(s.docs[id], copy, now)));
            && (DownloadPublic(env, t, id).Content? <==> copy.currentVersion.Some?)
            && (copy.currentVersion == s.docs[id].currentVersion ==> DownloadPublic(env, t, id) == DownloadPublic(env, s, id))
  {
    var w := UpdateDoc(id, WriteBack(s.docs[id], copy, now));
    VersionsStayReadable(env, s, w);
    VersionsStayOwned(env, s, w);
    ContentReadableIffPublished(env, Apply(s, w), id);
  }

  predicate Published(s: State, id: Uuid) {
    id in s.docs && s.docs[id].currentVersion.Some?
  }

  ghost predicate ServedThroughout(env: Env, races: seq<Race>, m: nat, n: nat, id: Uuid)
    requires m <= n < |races|
  {
    forall k :: m <= k <= n ==> DownloadPublic(env, races[k].state, id).Content?
  }

  /** Move `i` writes back a copy of the document that was read before point `m`, when it had no version. */
  predicate WritesOldDraft(moves: seq<Move>, races: seq<Race>, m: nat, i: nat, id: Uuid)
    requires i < |moves| && i < |races|
  {
    && moves[i].Commit? && moves[i].write.UpdateDoc? && moves[i].write.id == id
    && moves[i].read < m && moves[i].read <= i
    && id in races[moves[i].read].state.docs && !Published(races[moves[i].read].state, id)
  }

  ghost predicate NoOldDraft(moves: seq<Move>, races: seq<Race>, m: nat, n: nat, id: Uuid)
    requires m <= n <= |moves| && n <= |races|
  {
    forall i {:trigger WritesOldDraft(moves, races, m, i, id)} :: m <= i < n ==> !WritesOldDraft(moves, races, m, i, id)
  }

  lemma ServedIffPublished(env: Env, s: State, moves: seq<Move>, races: seq<Race>, k: nat, id: Uuid)
    requires Lawful(env) && RacedInv(env, s) && Trace(env, s, moves, races) && k <= |moves|
    ensures DownloadPublic(env, races[k].state, id).Content? <==> Published(races[k].state, id)
  {
    RacedContentSurvives(env, s, moves, races, k);
    ContentReadableIffPublished(env, races[k].state, id);
  }

  /** A published document stays published over a move exactly when the move is not the write of an old draft. */
  lemma PublishedNext(env: Env, s: State, moves: seq<Move>, races: seq<Race>, m: nat, i: nat, id: Uuid)
    requires Lawful(env) && RacedInv(env, s) && Trace(env, s, moves, races) && m <= i < |moves|
    requires forall k :: m <= k <= i ==> Published(races[k].state, id)
    ensures Published(races[i + 1].state, id) <==> !WritesOldDraft(moves, races, m, i, id)
  {
    assert StepAt(env, moves, races, i);
    assert Published(races[i].state, id);
    OtherMovesKeepRow(env, s, moves, races, i, id);
    if moves[i].Commit? && moves[i].read >= m {
      assert Published(races[moves[i].read].state, id);
    }
    if moves[i].Step? && races[i].flights[moves[i].who].Uploading? {
      UploadStepIs(env, races[i].flights[moves[i].who].u, races[i].flights[moves[i].who].now);
    }
  }

  /** A document published at point `m` is served from there on if and only if no write-back after `m` comes
      from a copy read before `m`, when the document had no version. */
  lemma {:induction false} RacedContentServedIff(env: Env, s: State, moves: seq<Move>, races: seq<Race>, m: nat, n: nat, id: Uuid)
    requires Lawful(env) && RacedInv(env, s) && Trace(env, s, moves, races) && m <= n <= |moves|
    requires Published(races[m].state, id)
    ensures ServedThroughout(env, races, m, n, id) <==> NoOldDraft(moves, races, m, n, id)
    decreases n
  {
    ServedIffPublished(env, s, moves, races, n, id);
    if n == m {
    } else {
      RacedContentServedIff(env, s, moves, races, m, n - 1, id);
      if ServedThroughout(env, races, m, n - 1, id) {
        forall k | m <= k <= n - 1 ensures Published(races[k].state, id) { ServedIffPublished(env, s, moves, races, k, id); }
        PublishedNext(env, s, moves, races, m, n - 1, id);
      }
    }
  }

  // ---------------------------------------------------------------- the upload that is unpublished

  function UploadMoves(u: Upload, now: Clock, n: nat): seq<Move> {
    if n == 0 then [Begin(0, Uploading(u, now, 0))] else UploadMoves(u, now, n - 1) + [Step(0)]
  }

  function UploadState(env: Env, s: State, u: Upload, now: Clock, n: nat): State
    requires n <= 5
  {
    ApplyAll(s, UploadSteps(env, u, now)[..n])
  }

  lemma UploadStateNext(env: Env, s: State, u: Upload, now: Clock, n: nat)
    requires n < 5
    ensures UploadState(env, s, u, now, n + 1) == Apply(UploadState(env, s, u, now, n), UploadSteps(env, u, now)[n])
  {
    var ws := UploadSteps(env, u, now);
    assert ws[..n + 1] == ws[..n] + [ws[n]];
    ApplyAllSnoc(s, ws[..n], ws[n]);
  }

  lemma UploadStatesAre(env: Env, s: State, u: Upload, now: Clock)
    ensures UploadState(env, s, u, now, 4) == Stored4(env, s, u, now)
    ensures UploadState(env, s, u, now, 5) == Apply(Stored4(env, s, u, now), Publish(u, now))
  {
    assert UploadSteps(env, u, now)[..4] == UploadRows(env, u, now);
    UploadStores(env, s, u, now);
    UploadStateNext(env, s, u, now, 4);
  }

  /** An upload that finds its policy, if it names one, and new identifiers. */
  predicate CanUpload(env: Env, s: State, u: Upload, now: Clock) {
    Fresh(env, s, Uploading(u, now, 0)) && (u.policy.Some? ==> u.policy.value in s.policies)
  }

  lemma UploadStateKeeps(env: Env, s: State, u: Upload, now: Clock, n: nat)
    requires n <= 5
    ensures UploadState(env, s, u, now, n).policies == s.policies
    ensures n == 4 ==> u.doc in UploadState(env, s, u, now, n).docs && UploadState(env, s, u, now, n).docs[u.doc] == UploadDoc(u, now)
  {
    if n == 0 {
    } else {
      UploadStateKeeps(env, s, u, now, n - 1);
      UploadStateNext(env, s, u, now, n - 1);
      UploadStepIs(env, u, now);
      UploadStatesAre(env, s, u, now);
    }
  }

  lemma UploadStepMade(env: Env, s: State, u: Upload, now: Clock, n: nat)
    requires n < 5 && CanUpload(env, s, u, now)
    ensures var t := UploadState(env, s, u, now, n);
            MoreToDo(t, Uploading(u, now, n)) && Apply(t, NextWrite(env, t, Uploading(u, now, n))) == UploadState(env, s, u, now, n + 1)
  {
    UploadStateKeeps(env, s, u, now, n);
    UploadStateNext(env, s, u, now, n);
    UploadStepIs(env, u, now);
  }

  function UploadRace(env: Env, s: State, u: Upload, now: Clock, n: nat): Race
    requires n <= 5
  {
    Race(UploadState(env, s, u, now, n), map[0 := Uploading(u, now, n)])
  }

  lemma UploadBegins(env: Env, s: State, u: Upload, now: Clock)
    requires CanUpload(env, s, u, now)
    ensures Trace(env, s, UploadMoves(u, now, 0), [Race(s, map[]), UploadRace(env, s, u, now, 0)])
  {
    var start, m := [Race(s, map[])], Begin(0, Uploading(u, now, 0));
    assert Trace(env, s, [], start);
    TraceMore(env, s, [], start, m);
    assert [] + [m] == UploadMoves(u, now, 0);
    assert start + [Next(env, start, 0, m)] == [Race(s, map[]), UploadRace(env, s, u, now, 0)];
  }

  lemma UploadContinues(env: Env, races: seq<Race>, k: nat, t: State, f: Flight)
    requires k < |races| && races[k] == Race(t, map[0 := f]) && MoreToDo(t, f)
    ensures Enabled(env, races, k, Step(0))
    ensures Next(env, races, k, Step(0)) == Race(Apply(t, NextWrite(env, t, f)), map[0 := Advanced(f)])
  {}

  ghost predicate IsUploadRun(env: Env, s: State, u: Upload, now: Clock, n: nat, races: seq<Race>)
    requires n <= 5
  {
    && Trace(env, s, UploadMoves(u, now, n), races) && |UploadMoves(u, now, n)| == n + 1 && |races| == n + 2
    && forall k :: 0 <= k <= n ==> races[k + 1] == UploadRace(env, s, u, now, k)
  }

  lemma UploadRunsOn(env: Env, s: State, u: Upload, now: Clock, n: nat, before: seq<Race>) returns (races: seq<Race>)
    requires n < 5 && CanUpload(env, s, u, now) && IsUploadRun(env, s, u, now, n, before)
    ensures IsUploadRun(env, s, u, now, n + 1, races)
  {
    assert before[n + 1] == UploadRace(env, s, u, now, n);
    UploadStepMade(env, s, u, now, n);
    UploadContinues(env, before, n + 1, UploadState(env, s, u, now, n), Uploading(u, now, n));
    TraceMore(env, s, UploadMoves(u, now, n), before, Step(0));
    races := before + [Next(env, before, n + 1, Step(0))];
  }

  /** An upload alone is a run. */
  lemma {:induction false} UploadRuns(env: Env, s: State, u: Upload, now: Clock, n: nat) returns (races: seq<Race>)
    requires n <= 5 && CanUpload(env, s, u, now)
    ensures IsUploadRun(env, s, u, now, n, races)
  {
    if n == 0 {
      UploadBegins(env, s, u, now);
      races := [Race(s, map[]), UploadRace(env, s, u, now, 0)];
    } else {
      var before := UploadRuns(env, s, u, now, n - 1);
      races := UploadRunsOn(env, s, u, now, n - 1, before);
    }
  }

  lemma UploadRunsThrough(env: Env, s: State, u: Upload, now: Clock) returns (races: seq<Race>)
    requires CanUpload(env, s, u, now)
    ensures Trace(env, s, UploadMoves(u, now, 5), races) && |UploadMoves(u, now, 5)| == 6 && |races| == 7
    ensures races[5].state == Stored4(env, s, u, now) && races[6].state == Apply(Stored4(env, s, u, now), Publish(u, now))
  {
    races := UploadRuns(env, s, u, now, 5);
    UploadStatesAre(env, s, u, now);
    assert races[4 + 1] == UploadRace(env, s, u, now, 4) && races[5 + 1] == UploadRace(env, s, u, now, 5);
  }

  /** After the moves of an upload, `m` commits an update read before publication; `after` is what it leaves. */
  ghost predicate Unpublishes(env: Env, races: seq<Race>, m: Move, after: Race, u: Upload, actor: Uuid, c: Changes, now: Clock) {
    && |races| == 7
    && (var update := PlanUpdate(env, races[5].state, u.doc, u.tenant, actor, c, now).writes;
        |update| == 2 && m == Commit(5, 5, update[0]))
    && DownloadPublic(env, races[6].state, u.doc) == Content(u.file, u.fileName, u.mime)
    && DownloadPublic(env, after.state, u.doc) == Failed(DocumentNotFound)
  }

  ghost predicate IsUnpublishing(env: Env, s: State, u: Upload, actor: Uuid, c: Changes, now: Clock, moves: seq<Move>, races: seq<Race>) {
    && Trace(env, s, moves, races) && |moves| == 7 && moves[..6] == UploadMoves(u, now, 5)
    && Unpublishes(env, races[..7], moves[6], races[7], u, actor, c, now)
  }

  lemma DraftWriteBack(env: Env, s: State, u: Upload, actor: Uuid, c: Changes, now: Clock)
    requires Lawful(env)
    ensures var read := Stored4(env, s, u, now);
            var published := Apply(read, Publish(u, now));
            var ws := PlanUpdate(env, read, u.doc, u.tenant, actor, c, now).writes;
            && |ws| == 2 && Decided(env, read, read, ws[0])
            && DownloadPublic(env, published, u.doc) == Content(u.file, u.fileName, u.mime)
            && DownloadPublic(env, Apply(published, Late(published, ws[0])), u.doc) == Failed(DocumentNotFound)
  {}

  /** The write-back of the draft, made after the upload, as a move. */
  lemma DraftCommits(env: Env, s: State, u: Upload, actor: Uuid, c: Changes, now: Clock, races: seq<Race>) returns (m: Move)
    requires Lawful(env) && |races| == 7
    requires races[5].state == Stored4(env, s, u, now) && races[6].state == Apply(Stored4(env, s, u, now), Publish(u, now))
    ensures Enabled(env, races, 6, m) && Unpublishes(env, races, m, Next(env, races, 6, m), u, actor, c, now)
  {
    DraftWriteBack(env, s, u, actor, c, now);
    m := Commit(5, 5, PlanUpdate(env, races[5].state, u.doc, u.tenant, actor, c, now).writes[0]);
  }

  lemma UnpublishingRun(env: Env, s: State, u: Upload, actor: Uuid, c: Changes, now: Clock, before: seq<Race>, m: Move)
    requires Trace(env, s, UploadMoves(u, now, 5), before) && |UploadMoves(u, now, 5)| == 6 && |before| == 7
    requires Enabled(env, before, 6, m) && Unpublishes(env, before, m, Next(env, before, 6, m), u, actor, c, now)
    ensures IsUnpublishing(env, s, u, actor, c, now, UploadMoves(u, now, 5) + [m], before + [Next(env, before, 6, m)])
  {
    var races := before + [Next(env, before, 6, m)];
    TraceMore(env, s, UploadMoves(u, now, 5), before, m);
    assert races[..7] == before && (UploadMoves(u, now, 5) + [m])[..6] == UploadMoves(u, now, 5);
  }

  /** The failing run: an update that reads the document between its insert and its publication, and commits
      after it, makes a completed upload unreadable. Without that commit the upload is served. */
  lemma UploadUnpublished(env: Env, s: State, u: Upload, actor: Uuid, c: Changes, now: Clock)
    requires Lawful(env) && CanUpload(env, s, u, now)
    ensures exists moves, races :: IsUnpublishing(env, s, u, actor, c, now, moves, races)
  {
    var before := UploadRunsThrough(env, s, u, now);
    var m := DraftCommits(env, s, u, actor, c, now, before);
    UnpublishingRun(env, s, u, actor, c, now, before, m);
  }

  // ---------------------------------------------------------------- holds

  /** What a write must find to keep every active hold flagged. */
  ghost predicate KeepsFlags(s: State, w: Write) {
    && (w.UpdateDoc? ==> w.doc.legalHold || !HasActiveHold(s, w.id))
    && (w.InsertHold? || w.UpdateHold? ==> w.hold.active ==>
          w.hold.document in s.docs && s.docs[w.hold.document].legalHold)
  }

  /** Documents are inserted new; hold rows are inserted new, on existing documents, and stay on their document. */
  predicate HoldShaped(s: State, w: Write) {
    && (w.InsertDoc? ==> w.id !in s.docs)
    && (w.InsertHold? ==> w.id !in s.holds && w.hold.document in s.docs)
    && (w.UpdateHold? ==> w.id in s.holds && w.hold.document == s.holds[w.id].document)
  }

  /** A single write keeps every active hold flagged exactly when it clears no flag of a held document and
      activates no hold on an unflagged one. */
  lemma WriteKeepsHoldsFlaggedIff(s: State, w: Write)
    requires HoldsFlagged(s) && HoldShaped(s, w)
    ensures HoldsFlagged(Apply(s, w)) <==> KeepsFlags(s, w)
  {
    var t := Apply(s, w);
    if w.UpdateDoc? && HasActiveHold(s, w.id) {
      var h :| h in s.holds && s.holds[h].document == w.id && s.holds[h].active;
      assert t.holds[h] == s.holds[h];
    }
    if KeepsFlags(s, w) {
      forall h | h in t.holds
        ensures t.holds[h].document in t.docs && (t.holds[h].active ==> t.docs[t.holds[h].document].legalHold)
      {
        if w.UpdateDoc? && t.holds[h].document == w.id && t.holds[h].active { assert HasActiveHold(s, w.id); }
      }
    } else if w.InsertHold? || w.UpdateHold? {
      assert t.holds[w.id] == w.hold;
    }
  }

  lemma StepsAreHoldShaped(env: Env, s: State, f: Flight)
    requires FlightOk(env, s, f) && MoreToDo(s, f)
    ensures HoldShaped(s, NextWrite(env, s, f))
  {
    if f.Uploading? { UploadStepIs(env, f.u, f.now); }
  }

  lemma CommitsAreHoldShaped(env: Env, read: State, listed: State, s: State, w: Write)
    requires Decided(env, read, listed, w) && RowsThere(s, w) && ContentKept(read, s)
    ensures HoldShaped(s, Late(s, w))
  {}

  lemma MovesAreHoldShaped(env: Env, s: State, moves: seq<Move>, races: seq<Race>, i: nat)
    requires Lawful(env) && RacedInv(env, s) && Trace(env, s, moves, races) && i < |moves|
    ensures Made(env, moves, races, i).Some? ==> HoldShaped(races[i].state, Made(env, moves, races, i).value)
    ensures races[i + 1].state ==
      if Made(env, moves, races, i).Some? then Apply(races[i].state, Made(env, moves, races, i).value) else races[i].state
  {
    assert StepAt(env, moves, races, i);
    RacedContentSurvives(env, s, moves, races, i);
    match moves[i]
    case Begin(_, _) =>
    case Step(who) => StepsAreHoldShaped(env, races[i].state, races[i].flights[who]);
    case Commit(read, listed, w) =>
      assert ContentKept(races[read].state, races[i].state);
      CommitsAreHoldShaped(env, races[read].state, races[listed].state, races[i].state, w);
    case Mark(_, _, _, _) =>
  }

  ghost predicate MoveKeepsFlags(env: Env, moves: seq<Move>, races: seq<Race>, i: nat)
    requires i < |moves| && i < |races|
  {
    Made(env, moves, races, i).Some? ==> KeepsFlags(races[i].state, Made(env, moves, races, i).value)
  }

  ghost predicate FlaggedAt(races: seq<Race>, k: nat)
    requires k < |races|
  {
    HoldsFlagged(races[k].state)
  }

  /** Hold safety under interleaving: every active hold is flagged at every point if and only if no move clears
      the flag of a held document or activates a hold on an unflagged one. */
  lemma {:induction false} RacedHoldsFlaggedIff(env: Env, s: State, moves: seq<Move>, races: seq<Race>, n: nat)
    requires Lawful(env) && RacedInv(env, s) && HoldsFlagged(s) && Trace(env, s, moves, races) && n <= |moves|
    ensures (forall k {:trigger FlaggedAt(races, k)} :: 0 <= k <= n ==> FlaggedAt(races, k))
        <==> (forall i {:trigger MoveKeepsFlags(env, moves, races, i)} :: 0 <= i < n ==> MoveKeepsFlags(env, moves, races, i))
  {
    if n == 0 {
      assert FlaggedAt(races, 0);
    } else {
      RacedHoldsFlaggedIff(env, s, moves, races, n - 1);
      MovesAreHoldShaped(env, s, moves, races, n - 1);
      if FlaggedAt(races, n - 1) {
        if Made(env, moves, races, n - 1).Some? {
          WriteKeepsHoldsFlaggedIff(races[n - 1].state, Made(env, moves, races, n - 1).value);
        }
        assert FlaggedAt(races, n) <==> MoveKeepsFlags(env, moves, races, n - 1);
      }
    }
  }

  /** An unprivileged delete carries the unflagged copy its guard read, so its write keeps the flags exactly when
      no hold is active on the document by then: while flags are kept, none commits on a held document. */
  lemma DeleteKeepsFlagsIff(env: Env, read: State, s: State, id: Uuid, tenant: Uuid, actor: Uuid, now: Clock)
    requires PlanDelete(env, read, id, tenant, actor, false, now).writes != [] && id in s.docs
    ensures KeepsFlags(s, Late(s, PlanDelete(env, read, id, tenant, actor, false, now).writes[0])) <==> !HasActiveHold(s, id)
  {}

  ghost predicate HeldThroughout(races: seq<Race>, m: nat, n: nat, id: Uuid)
    requires m <= n < |races|
  {
    forall k :: m <= k <= n ==> HasActiveHold(races[k].state, id)
  }

  predicate Flagged(s: State, id: Uuid) {
    id in s.docs && s.docs[id].legalHold
  }

  ghost predicate FlaggedThroughout(races: seq<Race>, m: nat, n: nat, id: Uuid)
    requires m <= n < |races|
  {
    forall k {:trigger Flagged(races[k].state, id)} :: m <= k <= n ==> Flagged(races[k].state, id)
  }

  /** Move `i` clears the flag on the strength of a row, or of a list of holds, that was read before point `m`. A
      publication carries the row its upload inserted. */
  predicate ClearsOnOldRead(env: Env, moves: seq<Move>, races: seq<Race>, m: nat, i: nat, id: Uuid)
    requires i < |moves| && i < |races|
  {
    WritesRow(env, moves, races, i, id) && !Made(env, moves, races, i).value.doc.legalHold
    && (moves[i].Commit? ==> moves[i].read < m || moves[i].listed < m)
  }

  ghost predicate NoOldClear(env: Env, moves: seq<Move>, races: seq<Race>, m: nat, n: nat, id: Uuid)
    requires m <= n <= |moves| && n <= |races|
  {
    forall i {:trigger ClearsOnOldRead(env, moves, races, m, i, id)} :: m <= i < n ==> !ClearsOnOldRead(env, moves, races, m, i, id)
  }

  lemma FlaggedNext(env: Env, s: State, moves: seq<Move>, races: seq<Race>, m: nat, i: nat, id: Uuid)
    requires Lawful(env) && RacedInv(env, s) && Trace(env, s, moves, races) && m <= i < |moves|
    requires HeldThroughout(races, m, i, id) && FlaggedThroughout(races, m, i, id)
    ensures Flagged(races[i + 1].state, id) <==> !ClearsOnOldRead(env, moves, races, m, i, id)
  {
    assert StepAt(env, moves, races, i);
    assert Flagged(races[i].state, id);
    OtherMovesKeepRow(env, s, moves, races, i, id);
    if moves[i].Commit? && moves[i].read >= m && moves[i].listed >= m {
      assert Flagged(races[moves[i].read].state, id) && HasActiveHold(races[moves[i].listed].state, id);
    }
  }

  /** In terms of reads: a flagged document that stays under an active hold stays flagged if and only if nothing
      clears the flag on the strength of what was read before. */
  lemma {:induction false} HeldStaysFlaggedIff(env: Env, s: State, moves: seq<Move>, races: seq<Race>, m: nat, n: nat, id: Uuid)
    requires Lawful(env) && RacedInv(env, s) && Trace(env, s, moves, races) && m <= n <= |moves|
    requires HeldThroughout(races, m, n, id) && Flagged(races[m].state, id)
    ensures FlaggedThroughout(races, m, n, id) <==> NoOldClear(env, moves, races, m, n, id)
    decreases n
  {
    if n == m {
    } else {
      HeldStaysFlaggedIff(env, s, moves, races, m, n - 1, id);
      if FlaggedThroughout(races, m, n - 1, id) { FlaggedNext(env, s, moves, races, m, n - 1, id); }
    }
  }

  // ---------------------------------------------------------------- retention

  /** Move `i`, if it writes the row of the document, leaves the policy attached and the document live. */
  predicate KeepsRetained(env: Env, moves: seq<Move>, races: seq<Race>, i: nat, id: Uuid, policyId: Uuid)
    requires i < |moves| && i < |races|
  {
    WritesRow(env, moves, races, i, id) ==>
      var row := Made(env, moves, races, i).value.doc; row.policy == Some(policyId) && !row.status.Deleted?
  }

  lemma CreationAndPoliciesStay(env: Env, s: State, moves: seq<Move>, races: seq<Race>, i: nat)
    requires Lawful(env) && RacedInv(env, s) && Trace(env, s, moves, races) && i < |moves|
    ensures ContentKept(races[i].state, races[i + 1].state)
    ensures forall p :: p in races[i].state.policies ==>
      p in races[i + 1].state.policies && races[i + 1].state.policies[p] == races[i].state.policies[p]
  {
    assert StepAt(env, moves, races, i);
    RacedContentSurvives(env, s, moves, races, i + 1);
  }

  lemma RetainedNext(env: Env, s: State, moves: seq<Move>, races: seq<Race>, i: nat, id: Uuid, policyId: Uuid, policy: PolicyRow, created: int)
    requires Lawful(env) && RacedInv(env, s) && Trace(env, s, moves, races) && i < |moves|
    requires Retained(races[i].state, id, policyId, policy, created)
    ensures Retained(races[i + 1].state, id, policyId, policy, created) <==> KeepsRetained(env, moves, races, i, id, policyId)
  {
    CreationAndPoliciesStay(env, s, moves, races, i);
    OtherMovesKeepRow(env, s, moves, races, i, id);
  }

  ghost predicate RetainedThroughout(races: seq<Race>, m: nat, n: nat, id: Uuid, policyId: Uuid, policy: PolicyRow, created: int)
    requires m <= n < |races|
  {
    forall k :: m <= k <= n ==> Retained(races[k].state, id, policyId, policy, created)
  }

  ghost predicate AllKeepRetained(env: Env, moves: seq<Move>, races: seq<Race>, m: nat, n: nat, id: Uuid, policyId: Uuid)
    requires m <= n <= |moves| && n <= |races|
  {
    forall i {:trigger KeepsRetained(env, moves, races, i, id, policyId)} :: m <= i < n ==>
      KeepsRetained(env, moves, races, i, id, policyId)
  }

  /** A live document under a policy stays so if and only if no write-back comes from a copy without the policy
      or deletes it. */
  lemma {:induction false} RacedRetainedIff(env: Env, s: State, moves: seq<Move>, races: seq<Race>, m: nat, n: nat,
                                            id: Uuid, policyId: Uuid, policy: PolicyRow, created: int)
    requires Lawful(env) && RacedInv(env, s) && Trace(env, s, moves, races) && m <= n <= |moves|
    requires Retained(races[m].state, id, policyId, policy, created)
    ensures RetainedThroughout(races, m, n, id, policyId, policy, created) <==> AllKeepRetained(env, moves, races, m, n, id, policyId)
    decreases n
  {
    if n == m {
    } else {
      RacedRetainedIff(env, s, moves, races, m, n - 1, id, policyId, policy, created);
      if RetainedThroughout(races, m, n - 1, id, policyId, policy, created) {
        RetainedNext(env, s, moves, races, n - 1, id, policyId, policy, created);
      }
    }
  }

  /** The failing run: an update read before a policy was applied commits after it. The policy is gone again, and
      an unprivileged delete goes through. */
  lemma AppliedPolicyIsDetached(env: Env, s: State, id: Uuid, actor: Uuid, c: Changes, policyId: Uuid, now: Clock)
    requires id in s.docs && s.docs[id].policy == None && !s.docs[id].legalHold && policyId in s.policies
    ensures var tenant := s.docs[id].tenant;
            var update := PlanUpdate(env, s, id, tenant, actor, c, now).writes;
            var applied := ApplyAll(s, PlanApplyPolicy(s, id, tenant, policyId, now(0)).writes);
            && |update| == 2 && id in applied.docs && applied.docs[id].policy == Some(policyId)
            && (var t := Apply(applied, Late(applied, update[0]));
                id in t.docs && t.docs[id].policy == None && PlanDelete(env, t, id, tenant, actor, false, now).reply == Done)
  {
    ApplyOne(s, PlanApplyPolicy(s, id, s.docs[id].tenant, policyId, now(0)).writes[0]);
  }
}
