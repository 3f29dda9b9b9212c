/** From methods to runs: what a method did up to any point of its journal is a call that stopped there. */
module Steps {
  import opened Vault
  import opened Safety
  import opened Requests
  import opened Repositories

  /** What safe writes lead through, they lead through within the invariant. */
  lemma EveryPointKeepsInv(env: Env, p: Permit, s: State, j: seq<Write>, t: State, k: seq<Write>, ws: seq<Write>, point: nat)
    requires Inv(env, s) && SafeAll(env, p, s, ws) && Did(s, j, t, k, ws) && |j| <= point <= |k|
    ensures k[|j|..point] == Upto(ws, point - |j|) && k[|j|..] == ws
    ensures Inv(env, ApplyAll(s, k[|j|..point]))
  {
    assert k[|j|..point] == ws[..point - |j|] && k[|j|..] == ws;
    SafePrefix(env, p, s, ws, point - |j|);
    SafeAllKeepsInv(env, p, s, ws[..point - |j|]);
  }

  /** A request that does the writes of its plan passes, at every point of its journal, through the state of
      the call that stops at that point, and the invariant holds there. */
  lemma EveryPointIsACrash(env: Env, s: State, j: seq<Write>, t: State, k: seq<Write>, op: Op, now: Clock, point: nat)
    requires Lawful(env) && Inv(env, s) && Proper(env, s, op)
    requires Did(s, j, t, k, PlanOf(env, s, op, now).writes) && |j| <= point <= |k|
    ensures ApplyAll(s, k[|j|..point]) == After(env, s, Call(op, now, point - |j|))
    ensures Inv(env, ApplyAll(s, k[|j|..point]))
    ensures t == After(env, s, Call(op, now, |k| - |j|))
  {
    PlanSafe(env, s, op, now);
    EveryPointKeepsInv(env, PermitOf(op, now), s, j, t, k, PlanOf(env, s, op, now).writes, point);
    CompletesIsAll(env, s, Call(op, now, |k| - |j|));
  }
}
