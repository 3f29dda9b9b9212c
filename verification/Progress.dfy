/** What later states of a run keep of earlier ones. */
module Progress {
  import opened Basics
  import opened AuditTable
  import opened Entities
  import opened Vault
  import opened Safety
  import opened Requests

  predicate DocKept(before: DocRow, after: DocRow) {
    && after.tenant == before.tenant && after.createdAt == before.createdAt
    && (before.currentVersion.Some? ==> after.currentVersion == before.currentVersion)
  }

  ghost predicate DocsKept(s: State, t: State) {
    forall d :: d in s.docs ==> d in t.docs && DocKept(s.docs[d], t.docs[d])
  }

  ghost predicate VersionsKept(s: State, t: State) {
    forall v :: v in s.versions ==> v in t.versions && t.versions[v] == s.versions[v]
  }

  predicate BlobKept(s: State, t: State, key: string) {
    key in s.blobs ==> key in t.blobs && t.blobs[key] == s.blobs[key]
  }

  ghost predicate StorageKept(s: State, t: State) {
    forall i :: i in s.storage ==> i in t.storage && t.storage[i] == s.storage[i] && BlobKept(s, t, s.storage[i].objectKey)
  }

  ghost predicate PoliciesKept(s: State, t: State) {
    forall p :: p in s.policies ==> p in t.policies && t.policies[p] == s.policies[p]
  }

  ghost predicate SharesKept(s: State, t: State) {
    forall i :: i in s.shares ==> i in t.shares && Later(s.shares[i], t.shares[i])
  }

  /** Rows are never lost; versions, storage rows, their blobs and policies never change; documents keep
      their tenant, creation time and version; the audit table only grows at its end. */
  ghost predicate Kept(s: State, t: State) {
    && DocsKept(s, t) && VersionsKept(s, t) && StorageKept(s, t) && PoliciesKept(s, t) && SharesKept(s, t)
    && s.audit <= t.audit
  }

  lemma KeptTransitive(s: State, t: State, u: State)
    requires Kept(s, t) && Kept(t, u)
    ensures Kept(s, u)
  {}

  lemma SafeKeeps(env: Env, p: Permit, s: State, w: Write)
    requires Safe(env, p, s, w)
    ensures Kept(s, Apply(s, w))
  {}

  lemma {:induction false} SafeAllKeeps(env: Env, p: Permit, s: State, ws: seq<Write>)
    requires SafeAll(env, p, s, ws)
    ensures Kept(s, ApplyAll(s, ws))
    decreases |ws|
  {
    if ws == [] {
    } else {
      var n := |ws| - 1;
      SafeAllKeeps(env, p, s, ws[..n]);
      SafeKeeps(env, p, ApplyAll(s, ws[..n]), ws[n]);
      KeptTransitive(s, ApplyAll(s, ws[..n]), ApplyAll(s, ws));
    }
  }

  lemma {:induction false} RunKeeps(env: Env, s: State, calls: seq<Call>)
    requires Lawful(env) && Inv(env, s) && ProperRun(env, s, calls)
    ensures Kept(s, Run(env, s, calls))
    decreases |calls|
  {
    if calls == [] {
    } else {
      var n := |calls| - 1;
      var t := Run(env, s, calls[..n]);
      RunKeeps(env, s, calls[..n]);
      RunKeepsInv(env, s, calls[..n]);
      CallSafe(env, t, calls[n]);
      var c := calls[n];
      SafeAllKeeps(env, PermitOf(c.op, c.now), t, Upto(PlanOf(env, t, c.op, c.now).writes, c.stop));
      KeptTransitive(s, t, Run(env, s, calls));
    }
  }
}
