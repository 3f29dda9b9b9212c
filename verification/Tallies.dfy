/** What loops over rows count: rows with a property, rows per tenant, events per chain. */
module Tallies {
  import opened Basics
  import opened AuditTable
  import opened Vault

  function Count<T>(rows: seq<T>, p: T -> bool): nat {
    if rows == [] then 0 else Count(rows[..|rows| - 1], p) + if p(rows[|rows| - 1]) then 1 else 0
  }

  /** Counting rows that have different keys is counting keys. */
  lemma {:induction false} CountIsSize<T>(rows: seq<T>, key: T -> Uuid, p: T -> bool, ids: set<Uuid>)
    requires forall i, j :: 0 <= i < j < |rows| ==> key(rows[i]) != key(rows[j])
    requires forall i :: 0 <= i < |rows| ==> (key(rows[i]) in ids <==> p(rows[i]))
    requires forall id :: id in ids ==> exists i :: 0 <= i < |rows| && key(rows[i]) == id
    ensures Count(rows, p) == |ids|
    decreases |rows|
  {
    if rows == [] {
      assert ids == {};
    } else {
      var n := |rows| - 1;
      var last := key(rows[n]);
      var rest := ids - {last};
      forall id | id in rest ensures exists i :: 0 <= i < n && key(rows[..n][i]) == id {
        var i :| 0 <= i < |rows| && key(rows[i]) == id;
        assert key(rows[..n][i]) == id;
      }
      CountIsSize(rows[..n], key, p, rest);
      if p(rows[n]) { assert ids == rest + {last}; } else { assert ids == rest; }
    }
  }

  /** What a dictionary of counters says of one tenant. */
  function Of(counts: map<Uuid, nat>, tenant: Uuid): nat {
    if tenant in counts then counts[tenant] else 0
  }

  /** How many of the writes append to the chain of `r`. */
  function EventsFor(ws: seq<Write>, r: Resource): nat {
    Count(ws, (w: Write) => w.InsertEvent? && w.event.resource == r)
  }

  lemma EventsForAppend(ws: seq<Write>, w: Write, r: Resource)
    ensures EventsFor(ws + [w], r) == EventsFor(ws, r) + if w.InsertEvent? && w.event.resource == r then 1 else 0
  {
    assert (ws + [w])[..|ws|] == ws;
  }

  /** A chain grows by exactly the events written for it, at its end. */
  lemma {:induction false} ChainGrowth(s: State, ws: seq<Write>, r: Resource)
    ensures Timeline(s.audit, r) <= Timeline(ApplyAll(s, ws).audit, r)
    ensures |Timeline(ApplyAll(s, ws).audit, r)| == |Timeline(s.audit, r)| + EventsFor(ws, r)
    decreases |ws|
  {
    if ws == [] {
    } else {
      var n := |ws| - 1;
      ChainGrowth(s, ws[..n], r);
      if ws[n].InsertEvent? { TimelineAppend(ApplyAll(s, ws[..n]).audit, ws[n].event, r); }
    }
  }

  ghost function Sum(counts: map<Uuid, nat>): nat
    decreases |counts|
  {
    if counts == map[] then 0
    else
      var k :| k in counts;
      counts[k] + Sum(counts - {k})
  }

  lemma {:induction false} SumWithout(counts: map<Uuid, nat>, k: Uuid)
    requires k in counts
    ensures Sum(counts) == counts[k] + Sum(counts - {k})
    decreases |counts|
  {
    var j :| j in counts && Sum(counts) == counts[j] + Sum(counts - {j});
    if j == k {
    } else {
      SumWithout(counts - {j}, k);
      SumWithout(counts - {k}, j);
      assert counts - {j} - {k} == counts - {k} - {j};
    }
  }

  lemma TallyAddsOne(counts: map<Uuid, nat>, tenant: Uuid)
    ensures Sum(Tally(counts, tenant)) == Sum(counts) + 1
  {
    var after := Tally(counts, tenant);
    SumWithout(after, tenant);
    assert after - {tenant} == counts - {tenant};
    if tenant in counts {
      SumWithout(counts, tenant);
    } else {
      assert counts - {tenant} == counts;
    }
  }
}
