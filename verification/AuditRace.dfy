/** Any number of audit writers at once. Every writer of the repository, the service and the tasks
    alike, first reads the last hash of its resource and later inserts an event built on it; other
    writers may commit in between, a writer may never get to its insert, and the database may put
    any time stamp on a row. */
module AuditRace {
  import opened Basics
  import opened CanonicalJson
  import opened IntegrityChain
  import opened AuditTable

  /** An event whose writer has read the last hash and has not inserted it yet. */
  datatype Draft = Draft(
    resource: Resource,
    tenant: Uuid,
    actor: Option<Uuid>,
    event: EventType,
    payload: Json,
    prev: Option<string>)

  datatype Race = Race(table: seq<Stamped>, drafts: map<nat, Draft>)

  datatype Move = Read(writer: nat, draft: Draft) | Insert(writer: nat, at: int)

  const START := Race([], map[])

  ghost predicate Enabled(s: Race, m: Move) {
    match m
    case Read(_, draft) => LastHashAnswer(s.table, draft.resource, draft.prev)
    case Insert(writer, _) => writer in s.drafts
  }

  function Finish(mac: string -> string, d: Draft): EventRow {
    EventRow(d.resource, d.tenant, d.actor, d.event, d.payload, d.prev, ComputeHash(mac, d.payload, d.prev))
  }

  ghost function Next(mac: string -> string, s: Race, m: Move): Race
    requires Enabled(s, m)
  {
    match m
    case Read(writer, draft) => s.(drafts := s.drafts[writer := draft])
    case Insert(writer, at) =>
      Race(s.table + [Stamped(Finish(mac, s.drafts[writer]), at)], s.drafts - {writer})
  }

  ghost predicate StepAt(mac: string -> string, moves: seq<Move>, states: seq<Race>, i: nat)
    requires i < |moves| && i + 1 < |states|
  {
    Enabled(states[i], moves[i]) && states[i + 1] == Next(mac, states[i], moves[i])
  }

  /** `states` are the states that `moves` lead through, from the empty table. */
  ghost predicate Trace(mac: string -> string, moves: seq<Move>, states: seq<Race>) {
    && |states| == |moves| + 1 && states[0] == START
    && forall i {:trigger StepAt(mac, moves, states, i)} :: 0 <= i < |moves| ==> StepAt(mac, moves, states, i)
  }

  ghost predicate Reaches(mac: string -> string, moves: seq<Move>, t: Race) {
    exists states :: Trace(mac, moves, states) && states[|moves|] == t
  }

  predicate Names(e: Stamped, r: Resource, prev: Option<string>) {
    e.row.resource == r && prev == Some(e.row.hash)
  }

  /** `prev` is GENESIS or the hash of one of the first `n` rows, on the same resource. */
  ghost predicate Grounded(table: seq<Stamped>, n: nat, r: Resource, prev: Option<string>)
    requires n <= |table|
  {
    prev == None || exists j :: 0 <= j < n && Names(table[j], r, prev)
  }

  ghost predicate Sound(mac: string -> string, s: Race) {
    && (forall i :: 0 <= i < |s.table| ==>
          Authentic(mac, ToLink(s.table[i].row)) && Grounded(s.table, i, s.table[i].row.resource, s.table[i].row.prev))
    && (forall w :: w in s.drafts ==> Grounded(s.table, |s.table|, s.drafts[w].resource, s.drafts[w].prev))
  }

  lemma GroundedLater(table: seq<Stamped>, more: seq<Stamped>, n: nat, r: Resource, prev: Option<string>)
    requires n <= |table| && Grounded(table, n, r, prev)
    ensures Grounded(table + more, n, r, prev)
    ensures Grounded(table + more, |table + more|, r, prev)
  {
    if prev != None {
      var j :| 0 <= j < n && Names(table[j], r, prev);
      assert (table + more)[j] == table[j];
    }
  }

  lemma NextSound(mac: string -> string, s: Race, m: Move)
    requires Sound(mac, s) && Enabled(s, m)
    ensures Sound(mac, Next(mac, s, m))
  {
    match m
    case Read(_, draft) =>
      if draft.prev != None {
        var e :| e in s.table && Latest(s.table, draft.resource, e) && draft.prev == Some(e.row.hash);
        var j :| 0 <= j < |s.table| && s.table[j] == e;
        assert Names(s.table[j], draft.resource, draft.prev);
      }
    case Insert(writer, at) =>
      var d := s.drafts[writer];
      var row := Stamped(Finish(mac, d), at);
      var t := Next(mac, s, m);
      forall i | 0 <= i < |t.table|
        ensures Authentic(mac, ToLink(t.table[i].row))
        ensures Grounded(t.table, i, t.table[i].row.resource, t.table[i].row.prev)
      {
        if i < |s.table| {
          assert t.table[i] == s.table[i];
          GroundedLater(s.table, [row], i, s.table[i].row.resource, s.table[i].row.prev);
        } else {
          GroundedLater(s.table, [row], |s.table|, d.resource, d.prev);
        }
      }
      forall w | w in t.drafts ensures Grounded(t.table, |t.table|, t.drafts[w].resource, t.drafts[w].prev) {
        GroundedLater(s.table, [row], |s.table|, s.drafts[w].resource, s.drafts[w].prev);
      }
  }

  lemma {:induction false} TraceSound(mac: string -> string, moves: seq<Move>, states: seq<Race>, n: nat)
    requires Trace(mac, moves, states) && n <= |moves|
    ensures Sound(mac, states[n])
  {
    if n == 0 {
    } else {
      TraceSound(mac, moves, states, n - 1);
      assert StepAt(mac, moves, states, n - 1);
      NextSound(mac, states[n - 1], moves[n - 1]);
    }
  }

  /** Under any interleaving, every stored event is authentic, and its predecessor is GENESIS or an
      event committed earlier on the same resource. */
  lemma RacesStaySound(mac: string -> string, moves: seq<Move>, t: Race)
    requires Reaches(mac, moves, t)
    ensures Sound(mac, t)
  {
    var states :| Trace(mac, moves, states) && states[|moves|] == t;
    TraceSound(mac, moves, states, |moves|);
  }

  lemma RowsLength(s: seq<Stamped>)
    ensures |Rows(s)| == |s|
  {}

  lemma {:induction false} RowsAt(s: seq<Stamped>, i: nat)
    requires i < |Rows(s)|
    ensures |Rows(s)| == |s| && Rows(s)[i] == s[i].row
  {
    RowsLength(s);
    RowsLength(s[..|s| - 1]);
    if i == |s| - 1 {
    } else {
      RowsAt(s[..|s| - 1], i);
    }
  }

  /** Under any interleaving, `verify_chain` accepts the timeline of every resource, whatever answer
      the database gives for equal stamps and wherever the answer is cut off. */
  lemma RacedTimelinesVerify(mac: string -> string, moves: seq<Move>, t: Race, r: Resource,
                             answer: seq<Stamped>, limit: nat)
    requires Reaches(mac, moves, t)
    requires TimelineAnswer(t.table, r, answer) && limit <= |answer|
    ensures FirstBroken(mac, ToLinks(Rows(answer[..limit]))) == None
  {
    RacesStaySound(mac, moves, t);
    var links := ToLinks(Rows(answer[..limit]));
    forall i | 0 <= i < |links| ensures Authentic(mac, links[i]) {
      RowsAt(answer[..limit], i);
      assert answer[i] in multiset(answer);
      assert answer[i] in t.table;
    }
  }

  /** The row whose hash row `i` names as its predecessor comes earlier in the table. */
  ghost predicate StepsBack(table: seq<Stamped>, i: nat, j: nat)
    requires i < |table| && j < |table|
  {
    j < i && Names(table[j], table[i].row.resource, table[i].row.prev)
  }

  /** Row numbers from `i` back to an event that starts a chain, each naming the next. */
  ghost predicate PathToGenesis(table: seq<Stamped>, i: nat, path: seq<nat>)
    requires i < |table|
  {
    && |path| > 0 && path[0] == i
    && (forall k :: 0 <= k < |path| ==> path[k] < |table| && table[path[k]].row.resource == table[i].row.resource)
    && (forall k :: 0 < k < |path| ==> StepsBack(table, path[k - 1], path[k]))
    && table[path[|path| - 1]].row.prev == None
  }

  /** Following predecessors from any stored event reaches GENESIS, on one resource, through rows
      committed ever earlier. */
  lemma {:induction false} EveryEventReachesGenesis(mac: string -> string, t: Race, i: nat)
    requires Sound(mac, t) && i < |t.table|
    ensures exists path :: PathToGenesis(t.table, i, path)
  {
    var row := t.table[i].row;
    if row.prev == None {
      assert PathToGenesis(t.table, i, [i]);
    } else {
      assert Grounded(t.table, i, row.resource, row.prev);
      var j :| 0 <= j < i && Names(t.table[j], row.resource, row.prev);
      EveryEventReachesGenesis(mac, t, j);
      var rest :| PathToGenesis(t.table, j, rest);
      var path := [i] + rest;
      forall k | 0 < k < |path| ensures StepsBack(t.table, path[k - 1], path[k]) {
        if k == 1 { assert path[1] == j; } else { assert StepsBack(t.table, rest[k - 2], rest[k - 1]); }
      }
      assert PathToGenesis(t.table, i, path);
    }
  }

  // ---------------------------------------------------------------- when races keep chains linked

  /** If move `i` inserts an event of `r`, its draft still names the last hash of `r` at that moment. */
  ghost predicate CurrentAt(moves: seq<Move>, states: seq<Race>, i: nat, r: Resource)
    requires i < |moves| && i < |states|
  {
    moves[i].Insert? && moves[i].writer in states[i].drafts && states[i].drafts[moves[i].writer].resource == r ==>
      states[i].drafts[moves[i].writer].prev == LastHash(Rows(states[i].table), r)
  }

  ghost predicate AllCurrent(moves: seq<Move>, states: seq<Race>, n: nat, r: Resource)
    requires n <= |moves| && n <= |states|
  {
    forall i {:trigger CurrentAt(moves, states, i, r)} :: 0 <= i < n ==> CurrentAt(moves, states, i, r)
  }

  lemma RowsAppend(table: seq<Stamped>, e: Stamped)
    ensures Rows(table + [e]) == Rows(table) + [e.row]
  {
    assert (table + [e])[..|table|] == table;
  }

  lemma StepLinkedIff(mac: string -> string, moves: seq<Move>, states: seq<Race>, i: nat, r: Resource)
    requires Trace(mac, moves, states) && i < |moves|
    ensures ResourceLinked(mac, Rows(states[i + 1].table), r) <==>
      ResourceLinked(mac, Rows(states[i].table), r) && CurrentAt(moves, states, i, r)
  {
    assert StepAt(mac, moves, states, i);
    var s, m := states[i], moves[i];
    if m.Insert? {
      var row := Finish(mac, s.drafts[m.writer]);
      RowsAppend(s.table, Stamped(row, m.at));
      InsertKeepsLinkedIff(mac, Rows(s.table), row, r);
    }
  }

  lemma StartLinked(mac: string -> string, moves: seq<Move>, states: seq<Race>, r: Resource)
    requires Trace(mac, moves, states)
    ensures ResourceLinked(mac, Rows(states[0].table), r) && AllCurrent(moves, states, 0, r)
  {}

  lemma AllCurrentMore(moves: seq<Move>, states: seq<Race>, n: nat, r: Resource)
    requires 0 < n <= |moves| && n <= |states|
    ensures AllCurrent(moves, states, n, r) <==> AllCurrent(moves, states, n - 1, r) && CurrentAt(moves, states, n - 1, r)
  {}

  lemma LastStepLinkedIff(mac: string -> string, moves: seq<Move>, states: seq<Race>, n: nat, r: Resource)
    requires Trace(mac, moves, states) && 0 < n <= |moves|
    ensures ResourceLinked(mac, Rows(states[n].table), r) <==>
      ResourceLinked(mac, Rows(states[n - 1].table), r) && CurrentAt(moves, states, n - 1, r)
  {
    StepLinkedIff(mac, moves, states, n - 1, r);
  }

  /** Exactly when interleaving keeps a chain linked: in commit order the timeline of a resource is linked if
      and only if every event was inserted while its draft still named the last hash of the resource. */
  lemma {:induction false} RacedTimelineLinkedIff(mac: string -> string, moves: seq<Move>, states: seq<Race>, n: nat, r: Resource)
    requires Trace(mac, moves, states) && n <= |moves|
    ensures ResourceLinked(mac, Rows(states[n].table), r) <==> AllCurrent(moves, states, n, r)
    decreases n
  {
    if n == 0 {
      StartLinked(mac, moves, states, r);
    } else {
      RacedTimelineLinkedIff(mac, moves, states, n - 1, r);
      LastStepLinkedIff(mac, moves, states, n, r);
      AllCurrentMore(moves, states, n, r);
    }
  }

  // ---------------------------------------------------------------- what races lose

  /** What races lose: two writers that read before either inserts leave two first events. */
  function Forked(mac: string -> string, d: Draft, e: Draft): Race {
    Race([Stamped(Finish(mac, d), 10), Stamped(Finish(mac, e), 20)], map[])
  }

  lemma ReachesMore(mac: string -> string, moves: seq<Move>, s: Race, m: Move, t: Race)
    requires Reaches(mac, moves, s) && Enabled(s, m) && t == Next(mac, s, m)
    ensures Reaches(mac, moves + [m], t)
  {
    var states :| Trace(mac, moves, states) && states[|moves|] == s;
    var more := states + [t];
    forall i | 0 <= i <= |moves| ensures StepAt(mac, moves + [m], more, i) {
      if i < |moves| { assert StepAt(mac, moves, states, i); }
    }
    assert Trace(mac, moves + [m], more);
  }

  lemma StartReached(mac: string -> string)
    ensures Reaches(mac, [], START)
  {
    assert Trace(mac, [], [START]);
  }

  lemma InsertFirst(mac: string -> string, d: Draft, e: Draft)
    ensures Next(mac, Race([], map[0 := d, 1 := e]), Insert(0, 10))
         == Race([Stamped(Finish(mac, d), 10)], map[1 := e])
  {}

  lemma InsertSecond(mac: string -> string, d: Draft, e: Draft)
    ensures Next(mac, Race([Stamped(Finish(mac, d), 10)], map[1 := e]), Insert(1, 20)) == Forked(mac, d, e)
  {}

  lemma RacedWritersFork(mac: string -> string, d: Draft, e: Draft)
    requires d.resource == e.resource && d.prev == None && e.prev == None
    ensures exists moves :: Reaches(mac, moves, Forked(mac, d, e))
  {
    var s1 := Race([], map[0 := d]);
    var s2 := Race([], map[0 := d, 1 := e]);
    var s3 := Race([Stamped(Finish(mac, d), 10)], map[1 := e]);
    var m1 := [] + [Read(0, d)];
    var m2 := m1 + [Read(1, e)];
    var m3 := m2 + [Insert(0, 10)];
    StartReached(mac);
    assert s1 == Next(mac, START, Read(0, d));
    ReachesMore(mac, [], START, Read(0, d), s1);
    assert s2 == Next(mac, s1, Read(1, e));
    ReachesMore(mac, m1, s1, Read(1, e), s2);
    InsertFirst(mac, d, e);
    ReachesMore(mac, m2, s2, Insert(0, 10), s3);
    InsertSecond(mac, d, e);
    ReachesMore(mac, m3, s3, Insert(1, 20), Forked(mac, d, e));
  }

  lemma TwoRows(a: Stamped, b: Stamped)
    ensures Rows([a, b]) == [a.row, b.row]
  {
    assert [a, b][..1] == [a] && [a][..0] == [];
    assert Rows([a]) == [a.row];
  }

  lemma TwoEvents(f: EventRow, g: EventRow)
    requires f.resource == g.resource
    ensures Timeline([f, g], f.resource) == [f, g]
  {
    TimelineAppend([], f, f.resource);
    TimelineAppend([f], g, f.resource);
    assert [] + [f] == [f] && [f] + [g] == [f, g];
  }

  lemma TwoLinks(f: EventRow, g: EventRow)
    ensures ToLinks([f, g]) == [ToLink(f), ToLink(g)]
  {}

  lemma ForkedTimeline(mac: string -> string, d: Draft, e: Draft)
    requires d.resource == e.resource
    ensures Timeline(Rows(Forked(mac, d, e).table), d.resource) == [Finish(mac, d), Finish(mac, e)]
  {
    TwoRows(Stamped(Finish(mac, d), 10), Stamped(Finish(mac, e), 20));
    TwoEvents(Finish(mac, d), Finish(mac, e));
  }

  lemma TwoFirstsUnlinked(mac: string -> string, a: Link, b: Link)
    requires Authentic(mac, a) && Authentic(mac, b) && b.prev == None
    ensures FirstBroken(mac, [a, b]) == None && !Linked(mac, [a, b])
  {
    assert !LinkedAt(mac, [a, b], 1);
  }

  /** The forked timeline verifies, and it is not linked. */
  lemma ForkVerifiesUnlinked(mac: string -> string, d: Draft, e: Draft)
    requires d.resource == e.resource && d.prev == None && e.prev == None
    ensures var links := ToLinks(Timeline(Rows(Forked(mac, d, e).table), d.resource));
            FirstBroken(mac, links) == None && !Linked(mac, links)
  {
    ForkedTimeline(mac, d, e);
    TwoLinks(Finish(mac, d), Finish(mac, e));
    TwoFirstsUnlinked(mac, ToLink(Finish(mac, d)), ToLink(Finish(mac, e)));
  }
}
