/** The entities, repositories and bucket as objects that change in place. Every method that writes is
    one commit: it says which write it makes, and the journal records it. */
module Repositories {
  import opened Basics
  import opened CanonicalJson
  import opened IntegrityChain
  import opened AuditTable
  import opened Entities
  import opened Vault

  // ---------------------------------------------------------------- entities

  class Document {
    const id: Uuid
    const tenant: Uuid
    const docType: string
    const owner: Uuid
    const createdAt: int
    var title: string
    var status: Status
    var currentVersion: Option<Uuid>
    var policy: Option<Uuid>
    var legalHold: bool
    var tags: seq<string>
    var metadata: Json
    var updatedAt: int

    constructor (id: Uuid, row: DocRow)
      ensures this.id == id && Row() == row
    {
      this.id, tenant, docType, owner, createdAt := id, row.tenant, row.docType, row.owner, row.createdAt;
      title, status, currentVersion, policy := row.title, row.status, row.currentVersion, row.policy;
      legalHold, tags, metadata, updatedAt := row.legalHold, row.tags, row.metadata, row.updatedAt;
    }

    function Row(): DocRow
      reads this
    {
      DocRow(tenant, title, docType, status, owner, currentVersion, policy, legalHold, tags, metadata, createdAt, updatedAt)
    }

    method SoftDelete(now: int)
      modifies this
      ensures Row() == old(Row()).(status := Deleted, updatedAt := now)
    {
      status := Deleted;
      updatedAt := now;
    }

    /** False where the original raises: only deleted documents can be restored. */
    method Restore(now: int) returns (ok: bool)
      modifies this
      ensures ok == old(status).Deleted?
      ensures Row() == if ok then old(Row()).(status := Active, updatedAt := now) else old(Row())
    {
      if !status.Deleted? { return false; }
      status := Active;
      updatedAt := now;
      return true;
    }
  }

  class LegalHold {
    const id: Uuid
    const document: Uuid
    const reason: string
    const placedBy: Uuid
    const placedAt: int
    var active: bool
    var releasedAt: Option<int>

    constructor (id: Uuid, row: HoldRow)
      ensures this.id == id && Row() == row
    {
      this.id, document, reason, placedBy, placedAt := id, row.document, row.reason, row.placedBy, row.placedAt;
      active, releasedAt := row.active, row.releasedAt;
    }

    function Row(): HoldRow
      reads this
    {
      HoldRow(document, reason, placedBy, active, placedAt, releasedAt)
    }

    method Release(now: int)
      modifies this
      ensures Row() == old(Row()).(active := false, releasedAt := Some(now))
    {
      active := false;
      releasedAt := Some(now);
    }
  }

  class ShareLink {
    const id: Uuid
    const document: Uuid
    const createdBy: Uuid
    const tokenHash: string
    const expiresAt: int
    const limit: Option<nat>
    const passwordHash: Option<string>
    const watermark: bool
    const createdAt: int
    var count: nat
    var revokedAt: Option<int>

    constructor (id: Uuid, row: ShareRow)
      ensures this.id == id && Row() == row
    {
      this.id, document, createdBy, tokenHash := id, row.document, row.createdBy, row.tokenHash;
      expiresAt, limit, passwordHash, watermark, createdAt := row.expiresAt, row.limit, row.passwordHash, row.watermark, row.createdAt;
      count, revokedAt := row.count, row.revokedAt;
    }

    function Row(): ShareRow
      reads this
    {
      ShareRow(document, createdBy, tokenHash, expiresAt, limit, count, passwordHash, watermark, revokedAt, createdAt)
    }

    method Revoke(now: int)
      modifies this
      ensures Row() == old(Row()).(revokedAt := Some(now))
    {
      revokedAt := Some(now);
    }

    method IncrementDownload()
      modifies this
      ensures Row() == old(Row()).(count := old(Row()).count + 1)
    {
      count := count + 1;
    }
  }

  // ---------------------------------------------------------------- what a request did

  /** From `s` with journal `j` to `t` with journal `k` by exactly the writes `ws`, in order. */
  ghost predicate Did(s: State, j: seq<Write>, t: State, k: seq<Write>, ws: seq<Write>) {
    k == j + ws && t == ApplyAll(s, ws)
  }

  lemma DidMore(s: State, j: seq<Write>, t: State, k: seq<Write>, ws: seq<Write>, w: Write)
    requires Did(s, j, t, k, ws)
    ensures Did(s, j, Apply(t, w), k + [w], ws + [w])
  {}

  lemma DidThen(s: State, j: seq<Write>, t: State, k: seq<Write>, u: State, l: seq<Write>, ws: seq<Write>, more: seq<Write>)
    requires Did(s, j, t, k, ws) && Did(t, k, u, l, more)
    ensures Did(s, j, u, l, ws + more)
  {
    ApplyAllConcat(s, ws, more);
    assert j + ws + more == j + (ws + more);
  }

  lemma DidOne(s: State, j: seq<Write>, w: Write)
    ensures Did(s, j, Apply(s, w), j + [w], [w])
  {}

  lemma DidTwo(s: State, j: seq<Write>, v: Write, w: Write)
    ensures Did(s, j, Apply(Apply(s, v), w), j + [v] + [w], [v, w])
  {
    ApplyTwo(s, v, w);
  }

  /** An append leaves everything but the audit table alone. */
  predicate SameButAudit(s: State, t: State) {
    t == s.(audit := t.audit)
  }

  /** The members of a set, each once, in any order: a query without ORDER BY. */
  method InSomeOrder(ids: set<Uuid>) returns (list: seq<Uuid>)
    ensures forall i, j :: 0 <= i < j < |list| ==> list[i] != list[j]
    ensures forall id :: id in list <==> id in ids
    ensures |list| == |ids|
  {
    list := [];
    var rest := ids;
    while rest != {}
      invariant rest <= ids && |list| + |rest| == |ids|
      invariant forall i, j :: 0 <= i < j < |list| ==> list[i] != list[j]
      invariant forall id :: id in list <==> id in ids && id !in rest
      decreases |rest|
    {
      var id :| id in rest;
      rest := rest - {id};
      list := list + [id];
    }
  }

  method ListRows<T>(table: map<Uuid, T>, ids: set<Uuid>) returns (rows: seq<Row<T>>)
    requires ids <= table.Keys
    ensures Lists(rows, table, ids) && |rows| == |ids|
  {
    var list := InSomeOrder(ids);
    rows := seq(|list|, i requires 0 <= i < |list| && list[i] in table => Row(list[i], table[list[i]]));
    forall id | id in ids ensures exists i :: 0 <= i < |rows| && rows[i].id == id {
      var i :| 0 <= i < |list| && list[i] == id;
      assert rows[i].id == id;
    }
  }

  // ---------------------------------------------------------------- database and bucket

  /** One object for the database and the bucket, so that one journal orders their writes. */
  class Store {
    var docs: map<Uuid, DocRow>
    var versions: map<Uuid, VersionRow>
    var storage: map<Uuid, StorageRow>
    var holds: map<Uuid, HoldRow>
    var policies: map<Uuid, PolicyRow>
    var shares: map<Uuid, ShareRow>
    var signatures: map<Uuid, SignatureRow>
    var audit: seq<EventRow>
    var blobs: map<string, string>
    ghost var journal: seq<Write>

    constructor ()
      ensures State() == EMPTY && journal == []
    {
      docs, versions, storage, holds, policies := map[], map[], map[], map[], map[];
      shares, signatures := map[], map[];
      audit, blobs, journal := [], map[], [];
    }

    function State(): State
      reads this
    {
      Vault.State(docs, versions, storage, holds, policies, shares, signatures, audit, blobs)
    }

    // MinioStorage

    method PutObject(key: string, bytes: string)
      modifies this
      ensures State() == Apply(old(State()), PutBlob(key, bytes)) && journal == old(journal) + [PutBlob(key, bytes)]
    {
      blobs := blobs[key := bytes];
      journal := journal + [PutBlob(key, bytes)];
    }

    method GetObject(key: string) returns (bytes: Option<string>)
      ensures bytes == if key in blobs then Some(blobs[key]) else None
    {
      bytes := if key in blobs then Some(blobs[key]) else None;
    }

    // DocumentRepository

    method GetById(id: Uuid, tenant: Uuid) returns (doc: Document?)
      ensures doc == null <==> GetDoc(State(), id, tenant) == None
      ensures doc != null ==> fresh(doc) && doc.id == id && GetDoc(State(), id, tenant) == Some(doc.Row())
    {
      doc := null;
      if id in docs && docs[id].tenant == tenant { doc := new Document(id, docs[id]); }
    }

    method GetByIdGlobal(id: Uuid) returns (doc: Document?)
      ensures doc == null <==> id !in docs
      ensures doc != null ==> fresh(doc) && doc.id == id && docs[id] == doc.Row()
    {
      doc := null;
      if id in docs { doc := new Document(id, docs[id]); }
    }

    /** Null where the foreign key on the policy fails. */
    method CreateDocument(id: Uuid, row: DocRow) returns (doc: Document?)
      requires id !in docs
      modifies this
      ensures doc == null <==> row.policy.Some? && row.policy.value !in policies
      ensures doc == null ==> State() == old(State()) && journal == old(journal)
      ensures doc != null ==>
        && fresh(doc) && doc.id == id && doc.Row() == row
        && State() == Apply(old(State()), InsertDoc(id, row)) && journal == old(journal) + [InsertDoc(id, row)]
    {
      doc := null;
      if row.policy.Some? && row.policy.value !in policies { return; }
      docs := docs[id := row];
      journal := journal + [InsertDoc(id, row)];
      doc := new Document(id, row);
    }

    function WrittenBack(document: Document, now: int): DocRow
      requires document.id in docs
      reads this, document
    {
      WriteBack(docs[document.id], document.Row(), now)
    }

    /** Null where the original finds no row to return. */
    method UpdateDocument(document: Document, now: int) returns (saved: Document?)
      modifies this
      ensures saved == null <==> document.id !in old(docs)
      ensures saved == null ==> State() == old(State()) && journal == old(journal)
      ensures saved != null ==>
        && fresh(saved) && saved.id == document.id && saved.Row() == old(WrittenBack(document, now))
        && State() == Apply(old(State()), UpdateDoc(document.id, saved.Row()))
        && journal == old(journal) + [UpdateDoc(document.id, saved.Row())]
    {
      saved := null;
      if document.id !in docs { return; }
      var row := WrittenBack(document, now);
      docs := docs[document.id := row];
      journal := journal + [UpdateDoc(document.id, row)];
      saved := new Document(document.id, row);
    }

    method CreateVersion(id: Uuid, row: VersionRow)
      requires id !in versions && row.document in docs
      modifies this
      ensures State() == Apply(old(State()), InsertVersion(id, row)) && journal == old(journal) + [InsertVersion(id, row)]
    {
      versions := versions[id := row];
      journal := journal + [InsertVersion(id, row)];
    }

    method CreateStorageObject(id: Uuid, row: StorageRow)
      requires id !in storage
      modifies this
      ensures State() == Apply(old(State()), InsertStorage(id, row)) && journal == old(journal) + [InsertStorage(id, row)]
    {
      storage := storage[id := row];
      journal := journal + [InsertStorage(id, row)];
    }

    // LegalHoldRepository

    method CreateHold(id: Uuid, row: HoldRow)
      requires id !in holds && row.document in docs
      modifies this
      ensures State() == Apply(old(State()), InsertHold(id, row)) && journal == old(journal) + [InsertHold(id, row)]
    {
      holds := holds[id := row];
      journal := journal + [InsertHold(id, row)];
    }

    method GetHold(id: Uuid) returns (hold: LegalHold?)
      ensures hold == null <==> id !in holds
      ensures hold != null ==> fresh(hold) && hold.id == id && hold.Row() == holds[id]
    {
      hold := null;
      if id in holds { hold := new LegalHold(id, holds[id]); }
    }

    /** False where the original finds no row. */
    method UpdateHold(hold: LegalHold) returns (ok: bool)
      modifies this
      ensures ok <==> hold.id in old(holds)
      ensures !ok ==> State() == old(State()) && journal == old(journal)
      ensures ok ==>
        var row := old(holds)[hold.id].(active := hold.active, releasedAt := hold.releasedAt);
        State() == Apply(old(State()), Write.UpdateHold(hold.id, row)) && journal == old(journal) + [Write.UpdateHold(hold.id, row)]
    {
      if hold.id !in holds { return false; }
      var row := holds[hold.id].(active := hold.active, releasedAt := hold.releasedAt);
      holds := holds[hold.id := row];
      journal := journal + [Write.UpdateHold(hold.id, row)];
      return true;
    }

    method ListActiveByDocument(document: Uuid) returns (rows: seq<Row<HoldRow>>)
      ensures Lists(rows, holds, set h | h in holds && holds[h].document == document && holds[h].active)
      ensures rows == [] <==> !HasActiveHold(State(), document)
    {
      var ids := set h | h in holds && holds[h].document == document && holds[h].active;
      rows := ListRows(holds, ids);
      if HasActiveHold(State(), document) {
        var h :| h in holds && holds[h].document == document && holds[h].active;
        assert h in ids;
      } else {
        assert forall h :: h in holds ==> State().holds[h] == holds[h];
      }
      assert rows != [] ==> rows[0].id in ids;
    }

    // RetentionRepository

    method CreatePolicy(id: Uuid, row: PolicyRow)
      requires id !in policies
      modifies this
      ensures State() == Apply(old(State()), InsertPolicy(id, row)) && journal == old(journal) + [InsertPolicy(id, row)]
    {
      policies := policies[id := row];
      journal := journal + [InsertPolicy(id, row)];
    }

    // ShareRepository

    /** False where the foreign key on the document fails. */
    method CreateShare(id: Uuid, row: ShareRow) returns (ok: bool)
      requires id !in shares
      modifies this
      ensures ok <==> row.document in old(docs)
      ensures !ok ==> State() == old(State()) && journal == old(journal)
      ensures ok ==> State() == Apply(old(State()), InsertShare(id, row)) && journal == old(journal) + [InsertShare(id, row)]
    {
      if row.document !in docs { return false; }
      shares := shares[id := row];
      journal := journal + [InsertShare(id, row)];
      return true;
    }

    method GetShare(id: Uuid) returns (share: ShareLink?)
      ensures share == null <==> id !in shares
      ensures share != null ==> fresh(share) && share.id == id && share.Row() == shares[id]
    {
      share := null;
      if id in shares { share := new ShareLink(id, shares[id]); }
    }

    method GetByTokenHash(tokenHash: string) returns (share: ShareLink?)
      requires TokensUnique(State())
      ensures share == null <==> ShareByToken(State(), tokenHash) == None
      ensures share != null ==>
        fresh(share) && ShareByToken(State(), tokenHash) == Some(share.id) && share.Row() == shares[share.id]
    {
      share := null;
      if id :| id in shares && shares[id].tokenHash == tokenHash { share := new ShareLink(id, shares[id]); }
    }

    /** False where the original finds no row. */
    method UpdateShare(share: ShareLink) returns (ok: bool)
      modifies this
      ensures ok <==> share.id in old(shares)
      ensures !ok ==> State() == old(State()) && journal == old(journal)
      ensures ok ==>
        var row := old(shares)[share.id].(count := share.count, revokedAt := share.revokedAt);
        State() == Apply(old(State()), Write.UpdateShare(share.id, row)) && journal == old(journal) + [Write.UpdateShare(share.id, row)]
    {
      if share.id !in shares { return false; }
      var row := shares[share.id].(count := share.count, revokedAt := share.revokedAt);
      shares := shares[share.id := row];
      journal := journal + [Write.UpdateShare(share.id, row)];
      return true;
    }

    // SignatureRepository

    method CreateSignature(id: Uuid, row: SignatureRow)
      requires id !in signatures && row.version in versions
      modifies this
      ensures State() == Apply(old(State()), InsertSignature(id, row)) && journal == old(journal) + [InsertSignature(id, row)]
    {
      signatures := signatures[id := row];
      journal := journal + [InsertSignature(id, row)];
    }

    // AuditRepository

    method CreateEvent(event: EventRow)
      modifies this
      ensures State() == Apply(old(State()), InsertEvent(event)) && journal == old(journal) + [InsertEvent(event)]
    {
      audit := audit + [event];
      journal := journal + [InsertEvent(event)];
    }

    /** The append every writer makes: read the last hash, hash, insert. */
    method WriteAudit(env: Env, r: Resource, tenant: Uuid, actor: Option<Uuid>, event: EventType, payload: Json)
      modifies this
      ensures var w := Append(env, old(State()), r, tenant, actor, event, payload);
              State() == Apply(old(State()), w) && journal == old(journal) + [w]
    {
      var prev := LastHash(audit, r);
      var hash := ComputeHash(env.mac, payload, prev);
      CreateEvent(EventRow(r, tenant, actor, event, payload, prev, hash));
    }

    /** The same append as one more write of a request that did `ws` so far. */
    method Note(env: Env, r: Resource, tenant: Uuid, actor: Option<Uuid>, event: EventType, payload: Json,
                ghost s: State, ghost j: seq<Write>, ghost ws: seq<Write>)
      requires Did(s, j, State(), journal, ws)
      modifies this
      ensures Did(s, j, State(), journal, ws + [Append(env, ApplyAll(s, ws), r, tenant, actor, event, payload)])
      ensures SameButAudit(old(State()), State())
    {
      DidMore(s, j, State(), journal, ws, Append(env, State(), r, tenant, actor, event, payload));
      WriteAudit(env, r, tenant, actor, event, payload);
    }
  }
}
