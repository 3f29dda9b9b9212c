/** One share link under any mixing of the steps of downloads and revocations. Each request reads the
    row, decides on its copy, and writes count and revocation back from that copy; any request may stop
    for good between two of its steps. */
module ShareRace {
  import opened Basics
  import opened Entities

  /** A request between two of its steps, with the copy it read. */
  datatype Flight =
    | Arrived(copy: ShareRow)    // a download that has not checked yet
    | Serving(copy: ShareRow)    // a download that passed the check and serves the content
    | Revoking(copy: ShareRow)

  datatype Race = Race(stored: ShareRow, flights: map<nat, Flight>, completed: nat)

  datatype Move =
    | ReadDownload(who: nat)
    | Check(who: nat, now: int)
    | WriteDownload(who: nat)
    | ReadRevoke(who: nat)
    | WriteRevoke(who: nat, now: int)

  predicate Enabled(s: Race, m: Move) {
    match m
    case ReadDownload(_) => true
    case ReadRevoke(_) => true
    case Check(who, _) => who in s.flights && s.flights[who].Arrived?
    case WriteDownload(who) => who in s.flights && s.flights[who].Serving?
    case WriteRevoke(who, _) => who in s.flights && s.flights[who].Revoking?
  }

  /** `ShareRepository.update`: it writes the count and the revocation time, and nothing else. */
  function WriteBack(stored: ShareRow, copy: ShareRow): ShareRow {
    stored.(count := copy.count, revokedAt := copy.revokedAt)
  }

  function Next(s: Race, m: Move): Race
    requires Enabled(s, m)
  {
    match m
    case ReadDownload(who) => s.(flights := s.flights[who := Arrived(s.stored)])
    case Check(who, now) =>
      var copy := s.flights[who].copy;
      s.(flights := if CanDownload(copy, now).Allowed? then s.flights[who := Serving(copy)] else s.flights - {who})
    case WriteDownload(who) =>
      var copy := s.flights[who].copy;
      Race(WriteBack(s.stored, copy.(count := copy.count + 1)), s.flights - {who}, s.completed + 1)
    case ReadRevoke(who) => s.(flights := s.flights[who := Revoking(s.stored)])
    case WriteRevoke(who, now) =>
      var copy := s.flights[who].copy;
      s.(stored := WriteBack(s.stored, copy.(revokedAt := Some(now))), flights := s.flights - {who})
  }

  ghost predicate StepAt(moves: seq<Move>, states: seq<Race>, i: nat)
    requires i < |moves| && i + 1 < |states|
  {
    Enabled(states[i], moves[i]) && states[i + 1] == Next(states[i], moves[i])
  }

  /** `states` are the states that `moves` lead the link through. */
  ghost predicate Trace(link: ShareRow, moves: seq<Move>, states: seq<Race>) {
    && |states| == |moves| + 1 && states[0] == Race(link, map[], 0)
    && forall i {:trigger StepAt(moves, states, i)} :: 0 <= i < |moves| ==> StepAt(moves, states, i)
  }

  ghost predicate Reaches(link: ShareRow, moves: seq<Move>, t: Race) {
    exists states :: Trace(link, moves, states) && states[|moves|] == t
  }

  // ---------------------------------------------------------------- bounds

  predicate CopyBounded(s: Race, f: Flight) {
    && f.copy.count <= s.completed && f.copy.limit == s.stored.limit && WithinLimit(f.copy)
    && (f.Serving? && f.copy.limit.Some? ==> f.copy.count < f.copy.limit.value)
  }

  ghost predicate Bounded(s: Race) {
    && s.stored.count <= s.completed && WithinLimit(s.stored)
    && forall who :: who in s.flights ==> CopyBounded(s, s.flights[who])
  }

  lemma NextBounded(s: Race, m: Move)
    requires Bounded(s) && Enabled(s, m)
    ensures Bounded(Next(s, m))
  {}

  lemma {:induction false} TraceBounded(link: ShareRow, moves: seq<Move>, states: seq<Race>, n: nat)
    requires Trace(link, moves, states) && n <= |moves| && link.count == 0
    ensures Bounded(states[n]) && states[n].stored.limit == link.limit
  {
    if n == 0 {
    } else {
      TraceBounded(link, moves, states, n - 1);
      assert StepAt(moves, states, n - 1);
      NextBounded(states[n - 1], moves[n - 1]);
    }
  }

  /** Whatever races, the stored count never exceeds the limit and never exceeds the downloads that
      completed. */
  lemma RacedCountsBounded(link: ShareRow, moves: seq<Move>, t: Race)
    requires Reaches(link, moves, t) && link.count == 0
    ensures t.stored.count <= t.completed && WithinLimit(t.stored)
  {
    var states :| Trace(link, moves, states) && states[|moves|] == t;
    TraceBounded(link, moves, states, |moves|);
  }

  // ---------------------------------------------------------------- when counts are exact

  predicate IsWrite(m: Move) {
    m.WriteDownload? || m.WriteRevoke?
  }

  /** How far a write-back, of either kind, sets the count behind: what the row holds beyond the copy. */
  function Behind(s: Race, m: Move): int {
    if IsWrite(m) && m.who in s.flights then s.stored.count - s.flights[m.who].copy.count else 0
  }

  ghost predicate Exact(s: Race) {
    s.stored.count == s.completed
  }

  /** A write-back of a download or of a revocation keeps an exact count exact just when its copy holds the
      count the row has by then; no other step touches it. */
  lemma WriteExactIff(s: Race, m: Move)
    requires Enabled(s, m) && Exact(s)
    ensures Exact(Next(s, m)) <==> (IsWrite(m) ==> s.flights[m.who].copy.count == s.stored.count)
  {}

  /** The condition of the writing requests: every write-back before point `n` comes from a current count. */
  ghost predicate CurrentCounts(moves: seq<Move>, states: seq<Race>, n: nat)
    requires n <= |moves| && n <= |states|
  {
    forall i :: 0 <= i < n ==> Behind(states[i], moves[i]) == 0
  }

  /** The count is exact at every point if and only if every write-back, of a download or of a revocation,
      comes from a copy with the current count. */
  lemma {:induction false} CountsExactIff(link: ShareRow, moves: seq<Move>, states: seq<Race>, n: nat)
    requires Trace(link, moves, states) && n <= |moves| && link.count == 0
    ensures (forall k :: 0 <= k <= n ==> Exact(states[k])) <==> CurrentCounts(moves, states, n)
  {
    if n == 0 {
    } else {
      CountsExactIff(link, moves, states, n - 1);
      assert StepAt(moves, states, n - 1);
      if Exact(states[n - 1]) { WriteExactIff(states[n - 1], moves[n - 1]); }
    }
  }

  /** All that write-backs set the count behind. */
  function Lost(moves: seq<Move>, states: seq<Race>, n: nat): int
    requires n <= |moves| && n <= |states|
  {
    if n == 0 then 0 else Lost(moves, states, n - 1) + Behind(states[n - 1], moves[n - 1])
  }

  /** Conservation: every completed download is in the stored count or lost to stale write-backs. */
  lemma {:induction false} DownloadsAreCountedOrLost(link: ShareRow, moves: seq<Move>, states: seq<Race>, n: nat)
    requires Trace(link, moves, states) && n <= |moves| && link.count == 0
    ensures states[n].completed == states[n].stored.count + Lost(moves, states, n)
  {
    if n == 0 {
    } else {
      DownloadsAreCountedOrLost(link, moves, states, n - 1);
      assert StepAt(moves, states, n - 1);
    }
  }

  /** What the write of a download must find: room for one more in the row, what was lost before counted in. */
  predicate LeavesOne(moves: seq<Move>, states: seq<Race>, i: nat, limit: nat)
    requires i < |moves| && i < |states|
  {
    moves[i].WriteDownload? ==> states[i].stored.count + Lost(moves, states, i) < limit
  }

  ghost predicate ServedWithin(states: seq<Race>, n: nat, limit: nat)
    requires n < |states|
  {
    forall k :: 0 <= k <= n ==> states[k].completed <= limit
  }

  ghost predicate AllLeaveOne(moves: seq<Move>, states: seq<Race>, n: nat, limit: nat)
    requires n <= |moves| && n <= |states|
  {
    forall i {:trigger LeavesOne(moves, states, i, limit)} :: 0 <= i < n ==> LeavesOne(moves, states, i, limit)
  }

  /** The downloads served stay within the limit at every point if and only if the write of each download finds
      room for one more. */
  lemma {:induction false} ServedWithinLimitIff(link: ShareRow, moves: seq<Move>, states: seq<Race>, n: nat)
    requires Trace(link, moves, states) && n <= |moves| && link.count == 0 && link.limit.Some?
    ensures ServedWithin(states, n, link.limit.value) <==> AllLeaveOne(moves, states, n, link.limit.value)
  {
    if n == 0 {
    } else {
      var limit := link.limit.value;
      ServedWithinLimitIff(link, moves, states, n - 1);
      DownloadsAreCountedOrLost(link, moves, states, n - 1);
      assert StepAt(moves, states, n - 1);
      assert ServedWithin(states, n, limit) <==> ServedWithin(states, n - 1, limit) && states[n].completed <= limit;
      assert AllLeaveOne(moves, states, n, limit) <==> AllLeaveOne(moves, states, n - 1, limit) && LeavesOne(moves, states, n - 1, limit);
    }
  }

  /** Where nothing was lost before, room is what the row itself says; and write-backs that are all current leave
      the downloads served within the limit. */
  lemma CurrentCountsKeepLimit(link: ShareRow, moves: seq<Move>, states: seq<Race>, n: nat)
    requires Trace(link, moves, states) && n <= |moves| && link.count == 0 && link.limit.Some? && CurrentCounts(moves, states, n)
    ensures ServedWithin(states, n, link.limit.value)
    ensures n < |moves| ==>
      (LeavesOne(moves, states, n, link.limit.value) <==> (moves[n].WriteDownload? ==> !IsExhausted(states[n].stored)))
  {
    CountsExactIff(link, moves, states, n);
    DownloadsAreCountedOrLost(link, moves, states, n);
    TraceBounded(link, moves, states, n);
    forall k | 0 <= k <= n ensures states[k].completed <= link.limit.value {
      assert Exact(states[k]);
      TraceBounded(link, moves, states, k);
    }
  }

  /** At a single step: with an exact count, writing a download keeps the downloads served within the limit just
      when the row, not the copy, still leaves one. */
  lemma WriteWithinLimitIff(s: Race, who: nat)
    requires Enabled(s, WriteDownload(who)) && Exact(s) && s.stored.limit.Some?
    ensures Next(s, WriteDownload(who)).completed <= s.stored.limit.value <==> !IsExhausted(s.stored)
  {}

  // ---------------------------------------------------------------- when revocations survive

  /** A write-back of a download leaves a revocation as it is exactly when its copy has it; one of a revocation
      leaves the link revoked. */
  lemma WriteKeepsRevocationIff(s: Race, m: Move)
    requires Enabled(s, m) && s.stored.revokedAt.Some?
    ensures m.WriteDownload? ==>
      (Next(s, m).stored.revokedAt == s.stored.revokedAt <==> s.flights[m.who].copy.revokedAt == s.stored.revokedAt)
    ensures !m.WriteDownload? ==> Next(s, m).stored.revokedAt.Some?
  {}

  predicate ServingUnrevoked(s: Race) {
    forall who :: who in s.flights && s.flights[who].Serving? ==> s.flights[who].copy.revokedAt == None
  }

  lemma {:induction false} TraceServesUnrevoked(link: ShareRow, moves: seq<Move>, states: seq<Race>, n: nat)
    requires Trace(link, moves, states) && n <= |moves|
    ensures ServingUnrevoked(states[n])
  {
    if n == 0 {
    } else {
      TraceServesUnrevoked(link, moves, states, n - 1);
      assert StepAt(moves, states, n - 1);
    }
  }

  ghost predicate RevokedThroughout(states: seq<Race>, k: nat, n: nat)
    requires k <= n < |states|
  {
    forall m :: k <= m <= n ==> states[m].stored.revokedAt.Some?
  }

  /** Request `who` reads the link for a download at one of the points from `k` to before `n`. */
  ghost predicate ReadsWithin(moves: seq<Move>, k: nat, n: nat, who: nat)
    requires k <= n <= |moves|
  {
    exists j :: k <= j < n && moves[j] == ReadDownload(who)
  }

  /** Move `i` is the write of a download that read the link before point `k`. */
  ghost predicate WritesOldRead(moves: seq<Move>, k: nat, i: nat)
    requires k <= i < |moves|
  {
    moves[i].WriteDownload? && !ReadsWithin(moves, k, i, moves[i].who)
  }

  predicate NotServing(s: Race, who: nat) {
    who in s.flights ==> !s.flights[who].Serving? && s.flights[who].copy.revokedAt.Some?
  }

  /** A download that reads a revoked link gets no further than its check. */
  lemma {:induction false} RevokedReadStops(link: ShareRow, moves: seq<Move>, states: seq<Race>, k: nat, n: nat, who: nat)
    requires Trace(link, moves, states) && k <= n <= |moves|
    requires RevokedThroughout(states, k, n) && ReadsWithin(moves, k, n, who)
    ensures NotServing(states[n], who)
  {
    assert StepAt(moves, states, n - 1);
    if moves[n - 1] == ReadDownload(who) {
    } else {
      assert ReadsWithin(moves, k, n - 1, who);
      RevokedReadStops(link, moves, states, k, n - 1, who);
    }
  }

  lemma RevocationStep(link: ShareRow, moves: seq<Move>, states: seq<Race>, k: nat, n: nat)
    requires Trace(link, moves, states) && k <= n < |moves| && RevokedThroughout(states, k, n)
    ensures states[n + 1].stored.revokedAt.Some? <==> !WritesOldRead(moves, k, n)
  {
    assert StepAt(moves, states, n);
    TraceServesUnrevoked(link, moves, states, n);
    if moves[n].WriteDownload? && ReadsWithin(moves, k, n, moves[n].who) {
      RevokedReadStops(link, moves, states, k, n, moves[n].who);
    }
  }

  ghost predicate NoOldRead(moves: seq<Move>, k: nat, n: nat)
    requires k <= n <= |moves|
  {
    forall i {:trigger WritesOldRead(moves, k, i)} :: k <= i < n ==> !WritesOldRead(moves, k, i)
  }

  /** A revocation survives if and only if no download that read the link before it writes after it. */
  lemma {:induction false} RevocationSurvivesIff(link: ShareRow, moves: seq<Move>, states: seq<Race>, k: nat, n: nat)
    requires Trace(link, moves, states) && k <= n <= |moves| && states[k].stored.revokedAt.Some?
    ensures RevokedThroughout(states, k, n) <==> NoOldRead(moves, k, n)
    decreases n
  {
    if n == k {
    } else {
      RevocationSurvivesIff(link, moves, states, k, n - 1);
      if RevokedThroughout(states, k, n - 1) { RevocationStep(link, moves, states, k, n - 1); }
      assert RevokedThroughout(states, k, n) <==> RevokedThroughout(states, k, n - 1) && states[n].stored.revokedAt.Some?;
      assert NoOldRead(moves, k, n) <==> NoOldRead(moves, k, n - 1) && !WritesOldRead(moves, k, n - 1);
    }
  }

  // ---------------------------------------------------------------- what races lose

  lemma ReachesMore(link: ShareRow, moves: seq<Move>, s: Race, m: Move, t: Race)
    requires Reaches(link, moves, s) && Enabled(s, m) && t == Next(s, m)
    ensures Reaches(link, moves + [m], t)
  {
    var states :| Trace(link, moves, states) && states[|moves|] == s;
    var more := states + [t];
    forall i | 0 <= i <= |moves| ensures StepAt(moves + [m], more, i) {
      if i < |moves| { assert StepAt(moves, states, i); }
    }
    assert Trace(link, moves + [m], more);
  }

  lemma StartReached(link: ShareRow)
    ensures Reaches(link, [], Race(link, map[], 0))
  {
    assert Trace(link, [], [Race(link, map[], 0)]);
  }

  lemma BothServe(link: ShareRow, moves: seq<Move>, s: Race)
    requires Reaches(link, moves, s) && link.count == 0
    requires s == Race(link, map[0 := Serving(link), 1 := Serving(link)], 0)
    ensures exists moves, t :: Reaches(link, moves, t) && t.completed == 2 && t.stored.count == 1
  {
    var s1 := Next(s, WriteDownload(0));
    ReachesMore(link, moves, s, WriteDownload(0), s1);
    var s2 := Next(s1, WriteDownload(1));
    ReachesMore(link, moves + [WriteDownload(0)], s1, WriteDownload(1), s2);
    assert s2.completed == 2 && s2.stored.count == 1;
  }

  /** A link for one download serves two when both read before either writes. */
  lemma LimitOverrun(link: ShareRow, now: int)
    requires link.count == 0 && link.limit == Some(1) && link.revokedAt == None && now < link.expiresAt
    ensures exists moves, t :: Reaches(link, moves, t) && t.completed == 2 && t.stored.count == 1
  {
    var s0 := Race(link, map[], 0);
    var s1 := Next(s0, ReadDownload(0));
    var s2 := Next(s1, ReadDownload(1));
    var s3 := Next(s2, Check(0, now));
    var s4 := Next(s3, Check(1, now));
    StartReached(link);
    ReachesMore(link, [], s0, ReadDownload(0), s1);
    var m1 := [] + [ReadDownload(0)];
    ReachesMore(link, m1, s1, ReadDownload(1), s2);
    var m2 := m1 + [ReadDownload(1)];
    ReachesMore(link, m2, s2, Check(0, now), s3);
    var m3 := m2 + [Check(0, now)];
    ReachesMore(link, m3, s3, Check(1, now), s4);
    BothServe(link, m3 + [Check(1, now)], s4);
  }

  lemma RevokeBeneathDownload(link: ShareRow, moves: seq<Move>, s: Race, now: int)
    requires Reaches(link, moves, s) && link.revokedAt == None
    requires s == Race(link, map[0 := Serving(link), 1 := Revoking(link)], 0)
    ensures exists moves, s, t ::
      Reaches(link, moves, s) && s.stored.revokedAt.Some? && Enabled(s, WriteDownload(0))
      && t == Next(s, WriteDownload(0)) && t.stored.revokedAt == None
  {
    var revoked := Next(s, WriteRevoke(1, now));
    ReachesMore(link, moves, s, WriteRevoke(1, now), revoked);
    var t := Next(revoked, WriteDownload(0));
    assert Reaches(link, moves + [WriteRevoke(1, now)], revoked) && t.stored.revokedAt == None;
  }

  /** A download that read before a revocation undoes it when it writes back. */
  lemma RevocationUndone(link: ShareRow, now: int)
    requires link.revokedAt == None && CanDownload(link, now).Allowed?
    ensures exists moves, s, t ::
      Reaches(link, moves, s) && s.stored.revokedAt.Some? && Enabled(s, WriteDownload(0))
      && t == Next(s, WriteDownload(0)) && t.stored.revokedAt == None
  {
    var s0 := Race(link, map[], 0);
    var s1 := Next(s0, ReadDownload(0));
    var s2 := Next(s1, Check(0, now));
    var s3 := Next(s2, ReadRevoke(1));
    StartReached(link);
    ReachesMore(link, [], s0, ReadDownload(0), s1);
    var m1 := [] + [ReadDownload(0)];
    ReachesMore(link, m1, s1, Check(0, now), s2);
    var m2 := m1 + [Check(0, now)];
    ReachesMore(link, m2, s2, ReadRevoke(1), s3);
    RevokeBeneathDownload(link, m2 + [ReadRevoke(1)], s3, now);
  }
}
