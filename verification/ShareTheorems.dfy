/** Share links when requests run one at a time. */
module ShareTheorems {
  import opened Basics
  import opened Entities
  import opened Vault
  import opened Safety
  import opened Requests
  import opened Progress
  import opened Outcomes

  /** A download that does not go through writes nothing. */
  lemma FailedDownloadCostsNothing(env: Env, s: State, token: string, now: int)
    ensures var plan := PlanDownloadShared(env, s, token, now);
            plan.reply.Content? <==> plan.writes != []
  {}

  /** When a shared download succeeds: the link exists and allows it, and its document has content. */
  lemma SharedDownloadSucceedsIff(env: Env, s: State, token: string, now: int, share: Uuid)
    requires Inv(env, s) && share in s.shares && s.shares[share].tokenHash == env.tokenHash(token)
    ensures PlanDownloadShared(env, s, token, now).reply.Content? <==>
      CanDownload(s.shares[share], now).Allowed? && DownloadPublic(env, s, s.shares[share].document).Content?
    ensures PlanDownloadShared(env, s, token, now).reply.Content? ==>
      PlanDownloadShared(env, s, token, now).reply == DownloadPublic(env, s, s.shares[share].document)
  {}

  /** The call completes a download through link `share`. */
  ghost predicate CompletesDownload(env: Env, s: State, c: Call, share: Uuid) {
    && c.op.DownloadShared? && Completes(env, s, c)
    && PlanOf(env, s, c.op, c.now).reply.Content?
    && ShareByToken(s, env.tokenHash(c.op.token)) == Some(share)
  }

  ghost function CompletedDownloads(env: Env, s: State, calls: seq<Call>, share: Uuid): nat {
    if calls == [] then 0
    else
      var n := |calls| - 1;
      CompletedDownloads(env, s, calls[..n], share) +
      if CompletesDownload(env, Run(env, s, calls[..n]), calls[n], share) then 1 else 0
  }

  ghost predicate AllComplete(env: Env, s: State, calls: seq<Call>) {
    calls == [] ||
    (var n := |calls| - 1; AllComplete(env, s, calls[..n]) && Completes(env, Run(env, s, calls[..n]), calls[n]))
  }

  lemma CountKept(env: Env, p: Permit, s: State, w: Write, share: Uuid)
    requires Safe(env, p, s, w) && !p.download && share in s.shares
    ensures share in Apply(s, w).shares && Apply(s, w).shares[share].count == s.shares[share].count
  {}

  lemma {:induction false} NoDownloadKeepsCount(env: Env, p: Permit, s: State, ws: seq<Write>, share: Uuid)
    requires SafeAll(env, p, s, ws) && !p.download && share in s.shares
    ensures share in ApplyAll(s, ws).shares && ApplyAll(s, ws).shares[share].count == s.shares[share].count
    decreases |ws|
  {
    if ws == [] {
    } else {
      var n := |ws| - 1;
      NoDownloadKeepsCount(env, p, s, ws[..n], share);
      CountKept(env, p, ApplyAll(s, ws[..n]), ws[n], share);
    }
  }

  lemma SharedDownloadCounts(env: Env, s: State, token: string, now: int, share: Uuid)
    requires share in s.shares
    ensures var plan := PlanDownloadShared(env, s, token, now);
            var t := ApplyAll(s, plan.writes);
            share in t.shares && t.shares[share].count == s.shares[share].count +
              if plan.reply.Content? && ShareByToken(s, env.tokenHash(token)) == Some(share) then 1 else 0
  {}

  lemma CompleteCallCounts(env: Env, s: State, c: Call, share: Uuid)
    requires Lawful(env) && Inv(env, s) && Proper(env, s, c.op) && Completes(env, s, c) && share in s.shares
    ensures share in After(env, s, c).shares
    ensures After(env, s, c).shares[share].count ==
      s.shares[share].count + if CompletesDownload(env, s, c, share) then 1 else 0
  {
    CompletesIsAll(env, s, c);
    if c.op.DownloadShared? {
      SharedDownloadCounts(env, s, c.op.token, c.now(0), share);
    } else {
      PlanSafe(env, s, c.op, c.now);
      NoDownloadKeepsCount(env, PermitOf(c.op, c.now), s, PlanOf(env, s, c.op, c.now).writes, share);
    }
  }

  /** In a run of complete requests, the stored count grows by exactly the downloads completed through
      the link, and stays within the limit. */
  lemma {:induction false} CountsAreExact(env: Env, s: State, calls: seq<Call>, share: Uuid)
    requires Lawful(env) && Inv(env, s) && ProperRun(env, s, calls) && AllComplete(env, s, calls)
    requires share in s.shares
    ensures var t := Run(env, s, calls);
            share in t.shares && WithinLimit(t.shares[share])
            && t.shares[share].count == s.shares[share].count + CompletedDownloads(env, s, calls, share)
    decreases |calls|
  {
    RunKeepsInv(env, s, calls);
    if calls == [] {
    } else {
      var n := |calls| - 1;
      CountsAreExact(env, s, calls[..n], share);
      RunKeepsInv(env, s, calls[..n]);
      CompleteCallCounts(env, Run(env, s, calls[..n]), calls[n], share);
    }
  }

  lemma RefusingLinkServesNothing(env: Env, s: State, share: Uuid, token: string, now: int)
    requires Inv(env, s) && share in s.shares && s.shares[share].tokenHash == env.tokenHash(token)
    requires !CanDownload(s.shares[share], now).Allowed?
    ensures PlanDownloadShared(env, s, token, now).reply.Failed? && PlanDownloadShared(env, s, token, now).writes == []
  {
    SharedDownloadSucceedsIff(env, s, token, now, share);
  }

  /** Once a link refuses, by revocation, expiry or exhaustion, it refuses every later request of any run:
      a later download through its token writes nothing and fails. */
  lemma RefusedForEver(env: Env, s: State, calls: seq<Call>, share: Uuid, token: string, now: int, later: int)
    requires Lawful(env) && Inv(env, s) && ProperRun(env, s, calls)
    requires share in s.shares && s.shares[share].tokenHash == env.tokenHash(token)
    requires !CanDownload(s.shares[share], now).Allowed? && now <= later
    ensures PlanDownloadShared(env, Run(env, s, calls), token, later).reply.Failed?
    ensures PlanDownloadShared(env, Run(env, s, calls), token, later).writes == []
  {
    RunKeeps(env, s, calls);
    RunKeepsInv(env, s, calls);
    var t := Run(env, s, calls);
    RefusalIsFinal(s.shares[share], t.shares[share], now, later);
    RefusingLinkServesNothing(env, t, share, token, later);
  }

  /** Revoking makes a link refuse. */
  lemma RevokedRefuses(env: Env, s: State, share: Uuid, now: int, later: int)
    requires share in s.shares
    ensures var t := ApplyAll(s, PlanRevokeShare(s, share, now).writes);
            share in t.shares && !CanDownload(t.shares[share], later).Allowed?
  {}

  // ---------------------------------------------------------------- a link from its creation on

  lemma RevocationKept(env: Env, p: Permit, s: State, w: Write, share: Uuid)
    requires Safe(env, p, s, w) && p.revokeOf != Some(share) && share in s.shares
    ensures share in Apply(s, w).shares && Apply(s, w).shares[share].revokedAt == s.shares[share].revokedAt
  {}

  lemma {:induction false} OthersDoNotRevoke(env: Env, p: Permit, s: State, ws: seq<Write>, share: Uuid)
    requires SafeAll(env, p, s, ws) && p.revokeOf != Some(share) && share in s.shares
    ensures share in ApplyAll(s, ws).shares && ApplyAll(s, ws).shares[share].revokedAt == s.shares[share].revokedAt
    decreases |ws|
  {
    if ws == [] {
    } else {
      var n := |ws| - 1;
      OthersDoNotRevoke(env, p, s, ws[..n], share);
      RevocationKept(env, p, ApplyAll(s, ws[..n]), ws[n], share);
    }
  }

  predicate Revokes(calls: seq<Call>, share: Uuid) {
    exists i :: 0 <= i < |calls| && calls[i].op == RevokeShare(share)
  }

  lemma RevokesMore(calls: seq<Call>, share: Uuid)
    requires calls != []
    ensures Revokes(calls, share) <==> Revokes(calls[..|calls| - 1], share) || calls[|calls| - 1].op == RevokeShare(share)
  {
    var before := calls[..|calls| - 1];
    assert forall i :: 0 <= i < |before| ==> before[i] == calls[i];
    if Revokes(before, share) {
      var i :| 0 <= i < |before| && before[i].op == RevokeShare(share);
      assert calls[i].op == RevokeShare(share);
    }
  }

  lemma CompleteCallRevokes(env: Env, s: State, c: Call, share: Uuid)
    requires Lawful(env) && Inv(env, s) && Proper(env, s, c.op) && Completes(env, s, c) && share in s.shares
    ensures share in After(env, s, c).shares
    ensures c.op == RevokeShare(share) ==> After(env, s, c).shares[share].revokedAt.Some?
    ensures c.op != RevokeShare(share) ==> After(env, s, c).shares[share].revokedAt == s.shares[share].revokedAt
  {
    CompletesIsAll(env, s, c);
    if c.op == RevokeShare(share) {
      RevokeShareLeavesRow(env, s, share, c.now);
    } else {
      PlanSafe(env, s, c.op, c.now);
      OthersDoNotRevoke(env, PermitOf(c.op, c.now), s, PlanOf(env, s, c.op, c.now).writes, share);
    }
  }

  /** In a run of complete requests a link is revoked exactly when it was, or one of them revokes it. */
  lemma {:induction false} RevokedIff(env: Env, s: State, calls: seq<Call>, share: Uuid)
    requires Lawful(env) && Inv(env, s) && ProperRun(env, s, calls) && AllComplete(env, s, calls) && share in s.shares
    ensures share in Run(env, s, calls).shares
    ensures Run(env, s, calls).shares[share].revokedAt.Some? <==> s.shares[share].revokedAt.Some? || Revokes(calls, share)
    decreases |calls|
  {
    if calls == [] {
    } else {
      var n := |calls| - 1;
      RevokedIff(env, s, calls[..n], share);
      RunKeepsInv(env, s, calls[..n]);
      CompleteCallRevokes(env, Run(env, s, calls[..n]), calls[n], share);
      RevokesMore(calls, share);
    }
  }

  /** A link from its creation on, in runs of complete requests: at most the requested number of downloads
      complete, and the token serves exactly while nobody has revoked the link, before the requested expiry, while
      the document has content, and while fewer downloads than requested have completed. */
  lemma CreatedShareServesIff(env: Env, s: State, share: Uuid, id: Uuid, actor: Uuid, token: string, terms: Terms, now: Clock,
                              calls: seq<Call>, at: Clock)
    requires Lawful(env) && Inv(env, s) && id in s.docs && Proper(env, s, Op.CreateShare(share, id, actor, token, terms))
    requires var t := Left(env, s, Op.CreateShare(share, id, actor, token, terms), now);
             ProperRun(env, t, calls) && AllComplete(env, t, calls)
    ensures var t := Left(env, s, Op.CreateShare(share, id, actor, token, terms), now);
            var u, completed := Run(env, t, calls), CompletedDownloads(env, t, calls, share);
            && (terms.limit.Some? ==> completed <= terms.limit.value)
            && (Answer(env, u, Op.DownloadShared(token), at).Content? <==>
                  && !Revokes(calls, share) && at(0) < terms.expiresAt && DownloadPublic(env, u, id).Content?
                  && (terms.limit.Some? ==> completed < terms.limit.value))
  {
    var op := Op.CreateShare(share, id, actor, token, terms);
    var t := Left(env, s, op, now);
    CreateShareLeavesRow(env, s, share, id, actor, token, terms, now);
    LeftKeepsInv(env, s, op, now);
    RunKeepsInv(env, t, calls);
    RunKeeps(env, t, calls);
    CountsAreExact(env, t, calls, share);
    RevokedIff(env, t, calls, share);
    SharedDownloadLeavesCount(env, Run(env, t, calls), token, share, at);
  }
}
