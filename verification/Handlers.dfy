/** The request handlers that work on the repositories directly: legal holds, retention, share links. */
module Handlers {
  import opened Basics
  import opened Entities
  import opened Vault
  import opened Repositories
  import opened Service

  method PlaceLegalHold(service: DocumentService, id: Uuid, tenant: Uuid, actor: Uuid, reason: string, hold: Uuid, now: Clock)
    returns (reply: Reply)
    requires hold !in service.store.holds
    modifies service.store
    ensures var store := service.store;
            var plan := PlanPlaceHold(old(store.State()), id, tenant, actor, reason, hold, now);
            reply == plan.reply && Did(old(store.State()), old(store.journal), store.State(), store.journal, plan.writes)
  {
    var store := service.store;
    ghost var s, j := store.State(), store.journal;
    var doc := store.GetById(id, tenant);
    if doc == null { return Failed(DocumentNotFound); }
    doc.legalHold := true;
    var _ := store.UpdateDocument(doc, now(0));
    store.CreateHold(hold, HoldRow(id, reason, actor, true, now(1), None));
    DidTwo(s, j, UpdateDoc(id, s.docs[id].(legalHold := true, updatedAt := now(0))),
           InsertHold(hold, HoldRow(id, reason, actor, true, now(1), None)));
    return Done;
  }

  method ReleaseLegalHold(service: DocumentService, hold: Uuid, tenant: Uuid, now: Clock) returns (reply: Reply)
    modifies service.store
    ensures var store := service.store;
            var plan := PlanReleaseHold(old(store.State()), hold, tenant, now);
            reply == plan.reply && Did(old(store.State()), old(store.journal), store.State(), store.journal, plan.writes)
  {
    var store := service.store;
    ghost var s, j := store.State(), store.journal;
    var entity := store.GetHold(hold);
    if entity == null { return Failed(HoldNotFound); }
    entity.Release(now(0));
    var _ := store.UpdateHold(entity);
    ghost var release := Write.UpdateHold(hold, s.holds[hold].(active := false, releasedAt := Some(now(0))));
    DidOne(s, j, release);
    var remaining := store.ListActiveByDocument(entity.document);
    if remaining != [] { return Done; }
    var doc := store.GetById(entity.document, tenant);
    if doc == null { return Failed(DocumentNotFound); }
    doc.legalHold := false;
    var _ := store.UpdateDocument(doc, now(1));
    DidTwo(s, j, release, UpdateDoc(entity.document, s.docs[entity.document].(legalHold := false, updatedAt := now(1))));
    return Done;
  }

  method ApplyRetentionPolicy(service: DocumentService, id: Uuid, tenant: Uuid, policy: Uuid, now: int) returns (reply: Reply)
    modifies service.store
    ensures var store := service.store;
            var plan := PlanApplyPolicy(old(store.State()), id, tenant, policy, now);
            reply == plan.reply && Did(old(store.State()), old(store.journal), store.State(), store.journal, plan.writes)
  {
    var store := service.store;
    ghost var s, j := store.State(), store.journal;
    var doc := store.GetById(id, tenant);
    if doc == null { return Failed(DocumentNotFound); }
    if policy !in store.policies { return Failed(PolicyNotFound); }
    doc.policy := Some(policy);
    var _ := store.UpdateDocument(doc, now);
    DidOne(s, j, UpdateDoc(id, s.docs[id].(policy := Some(policy), updatedAt := now)));
    return Done;
  }

  method CreateShareLink(env: Env, store: Store, share: Uuid, id: Uuid, actor: Uuid, token: string, terms: Terms, now: int)
    returns (reply: Reply)
    requires share !in store.shares
    modifies store
    ensures var plan := PlanCreateShare(env, old(store.State()), share, id, actor, token, terms, now);
            reply == plan.reply && Did(old(store.State()), old(store.journal), store.State(), store.journal, plan.writes)
  {
    ghost var s, j := store.State(), store.journal;
    var row := ShareRow(id, actor, env.tokenHash(token), terms.expiresAt, terms.limit, 0,
                        terms.passwordHash, terms.watermark, None, now);
    var ok := store.CreateShare(share, row);
    if !ok { return Failed(ForeignKey); }
    DidOne(s, j, InsertShare(share, row));
    return Done;
  }

  method RevokeShareLink(store: Store, share: Uuid, now: int) returns (reply: Reply)
    modifies store
    ensures var plan := PlanRevokeShare(old(store.State()), share, now);
            reply == plan.reply && Did(old(store.State()), old(store.journal), store.State(), store.journal, plan.writes)
  {
    ghost var s, j := store.State(), store.journal;
    var link := store.GetShare(share);
    if link == null { return Failed(ShareNotFound); }
    link.Revoke(now);
    var _ := store.UpdateShare(link);
    DidOne(s, j, Write.UpdateShare(share, s.shares[share].(revokedAt := Some(now))));
    return Done;
  }

  /** The last step of a shared download: the count goes up and the link is written back. */
  method CountDownload(store: Store, link: ShareLink)
    requires link.id in store.shares && link.Row() == store.shares[link.id]
    modifies store, link
    ensures var row := old(store.State()).shares[link.id];
            Did(old(store.State()), old(store.journal), store.State(), store.journal,
                [Write.UpdateShare(link.id, row.(count := row.count + 1))])
  {
    ghost var s, j := store.State(), store.journal;
    link.IncrementDownload();
    var _ := store.UpdateShare(link);
    DidOne(s, j, Write.UpdateShare(link.id, s.shares[link.id].(count := s.shares[link.id].count + 1)));
  }

  method PublicShareDownload(service: DocumentService, token: string, now: int) returns (reply: Reply)
    requires TokensUnique(service.store.State())
    modifies service.store
    ensures var store := service.store;
            var plan := PlanDownloadShared(service.env, old(store.State()), token, now);
            reply == plan.reply && Did(old(store.State()), old(store.journal), store.State(), store.journal, plan.writes)
  {
    var store := service.store;
    var link := store.GetByTokenHash(service.env.tokenHash(token));
    if link == null { return Failed(ShareNotFound); }
    var verdict := CanDownload(link.Row(), now);
    if verdict.Refused? {
      return Failed(if verdict.why.LinkInactive? then ShareExpired else ShareExhausted);
    }
    reply := service.DownloadPublic(link.document);
    if !reply.Content? { return; }
    CountDownload(store, link);
  }
}
