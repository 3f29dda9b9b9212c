/** The `audit_events` table: rows in the order they were committed, and the two queries of
    `audit_repository.py` over them. */
module AuditTable {
  import opened Basics
  import opened CanonicalJson
  import opened IntegrityChain

  datatype Resource = Resource(kind: string, id: Uuid)

  datatype EventType =
    | DocumentCreated
    | DocumentUpdated
    | DocumentDeleted
    | DocumentRestored
    | DocumentDownloaded
    | SignatureVerified
    | RetentionApplied
    | KeyRotated
    | IntegrityCheckFailed
    | AuditExported

  datatype EventRow = EventRow(
    resource: Resource,
    tenant: Uuid,
    actor: Option<Uuid>,
    event: EventType,
    payload: Json,
    prev: Option<string>,
    hash: string)

  function ToLink(e: EventRow): Link {
    Link(e.payload, e.prev, e.hash)
  }

  function ToLinks(events: seq<EventRow>): seq<Link> {
    seq(|events|, i requires 0 <= i < |events| => ToLink(events[i]))
  }

  /** The events of one resource, oldest first. */
  function Timeline(table: seq<EventRow>, r: Resource): (events: seq<EventRow>)
    ensures forall e :: e in events <==> e in table && e.resource == r
  {
    if table == [] then []
    else
      var n := |table| - 1;
      assert table == table[..n] + [table[n]];
      var before := Timeline(table[..n], r);
      if table[n].resource == r then before + [table[n]] else before
  }

  function LastHash(table: seq<EventRow>, r: Resource): Option<string> {
    var events := Timeline(table, r);
    if events == [] then None else Some(events[|events| - 1].hash)
  }

  lemma TimelineAppend(table: seq<EventRow>, e: EventRow, r: Resource)
    ensures Timeline(table + [e], r) == if e.resource == r then Timeline(table, r) + [e] else Timeline(table, r)
  {}

  /** `after` has `e` for the event `old_` of `before`, at position `i`. */
  predicate Replaced(before: seq<EventRow>, after: seq<EventRow>, i: nat, old_: EventRow, e: EventRow) {
    i < |before| && before[i] == old_ && after == before[i := e]
  }

  lemma ReplacedMore(before: seq<EventRow>, after: seq<EventRow>, i: nat, old_: EventRow, e: EventRow, last: EventRow)
    requires Replaced(before, after, i, old_, e)
    ensures Replaced(before + [last], after + [last], i, old_, e)
  {}

  /** With `e` for the event at position `k` of the table, the timeline of `r` has `e` for that event, after those
      that came before it, if it is an event of `r`, and is the same if not. */
  predicate Rewritten(table: seq<EventRow>, k: nat, e: EventRow, r: Resource)
    requires k < |table|
  {
    if e.resource == r then Replaced(Timeline(table, r), Timeline(table[k := e], r), |Timeline(table[..k], r)|, table[k], e)
    else Timeline(table[k := e], r) == Timeline(table, r)
  }

  lemma RewrittenMore(table: seq<EventRow>, k: nat, e: EventRow, last: EventRow, r: Resource)
    requires k < |table| && Rewritten(table, k, e, r)
    ensures Rewritten(table + [last], k, e, r)
  {
    TimelineAppend(table, last, r);
    TimelineAppend(table[k := e], last, r);
    assert (table + [last])[k := e] == table[k := e] + [last] && (table + [last])[..k] == table[..k];
    if e.resource == r && last.resource == r {
      ReplacedMore(Timeline(table, r), Timeline(table[k := e], r), |Timeline(table[..k], r)|, table[k], e, last);
    }
  }

  lemma LastRewritten(table: seq<EventRow>, last: EventRow, e: EventRow, r: Resource)
    requires e.resource == last.resource
    ensures Rewritten(table + [last], |table|, e, r)
  {
    TimelineAppend(table, last, r);
    TimelineAppend(table, e, r);
    assert (table + [last])[|table| := e] == table + [e] && (table + [last])[..|table|] == table;
  }

  lemma {:induction false} TimelineRewritten(table: seq<EventRow>, k: nat, e: EventRow, r: Resource)
    requires k < |table| && e.resource == table[k].resource
    ensures Rewritten(table, k, e, r)
    decreases |table|
  {
    var rest, last := table[..|table| - 1], table[|table| - 1];
    assert table == rest + [last];
    if k == |rest| {
      LastRewritten(rest, last, e, r);
    } else {
      TimelineRewritten(rest, k, e, r);
      RewrittenMore(rest, k, e, last, r);
    }
  }

  ghost predicate ResourceLinked(mac: string -> string, table: seq<EventRow>, r: Resource) {
    Linked(mac, ToLinks(Timeline(table, r)))
  }

  lemma LastHashIsHead(table: seq<EventRow>, r: Resource)
    ensures LastHash(table, r) == HashBefore(ToLinks(Timeline(table, r)), |Timeline(table, r)|)
  {}

  lemma ToLinksAppend(events: seq<EventRow>, e: EventRow)
    ensures ToLinks(events + [e]) == ToLinks(events) + [ToLink(e)]
  {}

  /** An insert leaves the chain of its resource linked exactly when the chain was linked, the event's own
      hash is right, and it names the last hash; no other chain notices. */
  lemma InsertKeepsLinkedIff(mac: string -> string, table: seq<EventRow>, e: EventRow, r: Resource)
    ensures ResourceLinked(mac, table + [e], r) <==>
      ResourceLinked(mac, table, r) && (e.resource == r ==> Authentic(mac, ToLink(e)) && e.prev == LastHash(table, r))
  {
    TimelineAppend(table, e, r);
    if e.resource == r {
      LastHashIsHead(table, r);
      ToLinksAppend(Timeline(table, r), e);
      LinkedAppendIff(mac, ToLinks(Timeline(table, r)), ToLink(e));
    }
  }

  /** An event that names the last hash of its resource and carries its own right hash keeps every
      resource linked. */
  lemma AppendKeepsLinked(mac: string -> string, table: seq<EventRow>, e: EventRow, r: Resource)
    requires ResourceLinked(mac, table, r)
    requires e.prev == LastHash(table, e.resource) && Authentic(mac, ToLink(e))
    ensures ResourceLinked(mac, table + [e], r)
  {
    InsertKeepsLinkedIff(mac, table, e, r);
  }

  // ---------------------------------------------------------------- the SQL answers

  /** A row with the `created_at` that the database put on it. */
  datatype Stamped = Stamped(row: EventRow, at: int)

  function Rows(table: seq<Stamped>): seq<EventRow> {
    if table == [] then [] else Rows(table[..|table| - 1]) + [table[|table| - 1].row]
  }

  ghost predicate Latest(table: seq<Stamped>, r: Resource, e: Stamped) {
    e.row.resource == r && forall f :: f in table && f.row.resource == r ==> f.at <= e.at
  }

  /** Every answer that `ORDER BY created_at DESC LIMIT 1` may give. */
  ghost predicate LastHashAnswer(table: seq<Stamped>, r: Resource, answer: Option<string>) {
    if exists e :: e in table && e.row.resource == r then
      exists e :: e in table && Latest(table, r, e) && answer == Some(e.row.hash)
    else
      answer == None
  }

  predicate InStampOrder(events: seq<Stamped>) {
    forall i, j :: 0 <= i < j < |events| ==> events[i].at <= events[j].at
  }

  function Select(table: seq<Stamped>, r: Resource): (s: seq<Stamped>)
    ensures forall e :: e in s <==> e in table && e.row.resource == r
  {
    if table == [] then []
    else
      var n := |table| - 1;
      assert table == table[..n] + [table[n]];
      Select(table[..n], r) + (if table[n].row.resource == r then [table[n]] else [])
  }

  /** Every answer that `ORDER BY created_at ASC` may give: the rows of the resource, in stamp order. */
  ghost predicate TimelineAnswer(table: seq<Stamped>, r: Resource, answer: seq<Stamped>) {
    && multiset(answer) == multiset(Select(table, r))
    && InStampOrder(answer)
  }

  /** Insert times strictly increase in commit order. */
  predicate StampsIncrease(table: seq<Stamped>) {
    forall i, j :: 0 <= i < j < |table| ==> table[i].at < table[j].at
  }

  lemma {:induction false} SelectRows(table: seq<Stamped>, r: Resource)
    ensures Rows(Select(table, r)) == Timeline(Rows(table), r)
  {
    if table == [] {
    } else {
      var n := |table| - 1;
      SelectRows(table[..n], r);
      TimelineAppend(Rows(table[..n]), table[n].row, r);
      var s := Select(table[..n], r);
      assert (s + [table[n]])[..|s|] == s;
      assert s + [] == s;
    }
  }

  lemma {:induction false} SelectIncreases(table: seq<Stamped>, r: Resource)
    requires StampsIncrease(table)
    ensures StampsIncrease(Select(table, r))
  {
    if table == [] {
    } else {
      var n := |table| - 1;
      SelectIncreases(table[..n], r);
      var s := Select(table[..n], r);
      forall i | 0 <= i < |s| ensures s[i].at < table[n].at {
        assert s[i] in table[..n];
      }
    }
  }

  lemma SameLatest(a: seq<Stamped>, b: seq<Stamped>)
    requires |a| > 0 && |b| > 0 && StampsIncrease(a) && InStampOrder(b)
    requires a[|a| - 1] in b && b[|b| - 1] in a
    ensures a[|a| - 1] == b[|b| - 1]
  {}

  lemma SameWithoutLast<T>(a: seq<T>, b: seq<T>)
    requires |a| > 0 && |b| > 0 && multiset(a) == multiset(b) && a[|a| - 1] == b[|b| - 1]
    ensures multiset(a[..|a| - 1]) == multiset(b[..|b| - 1])
  {
    assert a == a[..|a| - 1] + [a[|a| - 1]];
    assert b == b[..|b| - 1] + [b[|b| - 1]];
    assert multiset(a[..|a| - 1]) == multiset(a) - multiset{a[|a| - 1]};
  }

  lemma {:induction false} SortedAnswerUnique(a: seq<Stamped>, b: seq<Stamped>)
    requires StampsIncrease(a) && InStampOrder(b) && multiset(a) == multiset(b)
    ensures a == b
    decreases |a|
  {
    assert |multiset(a)| == |a| && |multiset(b)| == |b|;
    if |a| == 0 {
    } else {
      var n := |a| - 1;
      assert a[n] in multiset(b) && b[n] in multiset(a);
      SameLatest(a, b);
      SameWithoutLast(a, b);
      SortedAnswerUnique(a[..n], b[..n]);
      assert a == a[..n] + [a[n]];
      assert b == b[..n] + [b[n]];
    }
  }

  lemma RowsLast(s: seq<Stamped>)
    requires |s| > 0
    ensures |Rows(s)| > 0 && Rows(s)[|Rows(s)| - 1] == s[|s| - 1].row
  {}

  lemma LatestIsLast(table: seq<Stamped>, r: Resource, e: Stamped)
    requires StampsIncrease(table) && e in table && Latest(table, r, e)
    ensures var s := Select(table, r); |s| > 0 && s[|s| - 1] == e
  {}

  /** With strictly increasing insert times the two queries have one answer each: the events of the
      resource in commit order, and the hash of the last of them. */
  lemma IncreasingStampsFixAnswers(table: seq<Stamped>, r: Resource, events: seq<Stamped>, last: Option<string>)
    requires StampsIncrease(table)
    requires TimelineAnswer(table, r, events) && LastHashAnswer(table, r, last)
    ensures Rows(events) == Timeline(Rows(table), r)
    ensures last == LastHash(Rows(table), r)
  {
    var s := Select(table, r);
    SelectRows(table, r);
    SelectIncreases(table, r);
    SortedAnswerUnique(s, events);
    if s != [] {
      assert s[0] in s;
      var e :| e in table && Latest(table, r, e) && last == Some(e.row.hash);
      LatestIsLast(table, r, e);
      RowsLast(s);
    } else {
      assert forall e :: e in table && e.row.resource == r ==> e in s;
    }
  }
}
