/** The audit chain over serial runs of every writer: the service and all tasks. */
module ChainTheorems {
  import opened Basics
  import opened CanonicalJson
  import opened IntegrityChain
  import opened AuditTable
  import opened Vault
  import opened Safety
  import opened Requests

  lemma LinkedIsIntact(env: Env, s: State, r: Resource, limit: nat)
    requires ResourceLinked(env.mac, s.audit, r)
    ensures FirstBroken(env.mac, ToLinks(Limited(Timeline(s.audit, r), limit))) == None
  {
    var events := Timeline(s.audit, r);
    var links := ToLinks(Limited(events, limit));
    forall i | 0 <= i < |links| ensures Authentic(env.mac, links[i]) {
      assert LinkedAt(env.mac, ToLinks(events), i);
      assert links[i] == ToLinks(events)[i];
    }
  }

  lemma LimitedLinks(events: seq<EventRow>, limit: nat)
    ensures |Limited(events, limit)| == if |events| < limit then |events| else limit
    ensures forall i :: 0 <= i < |Limited(events, limit)| ==> ToLinks(Limited(events, limit))[i] == ToLink(events[i])
  {}

  ghost predicate FirstUnauthentic(mac: string -> string, events: seq<EventRow>, i: nat)
    requires i < |events|
  {
    !Authentic(mac, ToLink(events[i])) && forall k :: 0 <= k < i ==> Authentic(mac, ToLink(events[k]))
  }

  lemma BrokenIs(mac: string -> string, links: seq<Link>, events: seq<EventRow>, i: nat)
    requires |links| <= |events| && forall k :: 0 <= k < |links| ==> links[k] == ToLink(events[k])
    ensures FirstBroken(mac, links) == Some(i) <==> i < |links| && FirstUnauthentic(mac, events, i)
  {
    assert i < |links| ==> links[i] == ToLink(events[i]);
  }

  /** What `verify_integrity` reports, on any state at all: how many events it looked at, ten thousand at most,
      and the first of them whose hash is not its own. */
  lemma ReportIs(env: Env, s: State, id: Uuid)
    ensures var events := Timeline(s.audit, Resource("document", id));
            var (length, broken) := IntegrityReport(env, s, id);
            && length == (if |events| < 10000 then |events| else 10000)
            && (forall i: nat :: broken == Some(i) <==> i < length && FirstUnauthentic(env.mac, events, i))
            && (broken == None <==> forall i :: 0 <= i < length ==> Authentic(env.mac, ToLink(events[i])))
  {
    var events := Timeline(s.audit, Resource("document", id));
    LimitedLinks(events, 10000);
    var links := ToLinks(Limited(events, 10000));
    forall i: nat ensures FirstBroken(env.mac, links) == Some(i) <==> i < |links| && FirstUnauthentic(env.mac, events, i) {
      BrokenIs(env.mac, links, events, i);
    }
    assert forall i :: 0 <= i < |links| ==> links[i] == ToLink(events[i]);
  }

  lemma LimitedRewritten(events: seq<EventRow>, i: nat, e: EventRow, limit: nat)
    requires i < |events|
    ensures ToLinks(Limited(events[i := e], limit)) ==
      if i < limit then ToLinks(Limited(events, limit))[i := ToLink(e)] else ToLinks(Limited(events, limit))
  {}

  /** Rewriting the payload of an event in the table, behind the service's back. A document reported valid is
      reported broken at that event, if it is among the first ten thousand and unless the value is the same or
      the messages collide. */
  lemma RewriteIsReported(env: Env, s: State, id: Uuid, k: nat, p: Json)
    requires k < |s.audit| && s.audit[k].resource == Resource("document", id)
    requires WellFormed(s.audit[k].payload) && WellFormed(p) && IntegrityReport(env, s, id).1 == None
    ensures var e := s.audit[k].(payload := p);
            var i := |Timeline(s.audit[..k], e.resource)|;
            var hidden := Denote(p) == Denote(s.audit[k].payload) || Collide(env.mac, ToLink(e), ToLink(s.audit[k]));
            IntegrityReport(env, s.(audit := s.audit[k := e]), id)
            == (IntegrityReport(env, s, id).0, if i < 10000 && !hidden then Some(i) else None)
  {
    var e := s.audit[k].(payload := p);
    var events, i := Timeline(s.audit, e.resource), |Timeline(s.audit[..k], e.resource)|;
    TimelineRewritten(s.audit, k, e, e.resource);
    LimitedRewritten(events, i, e, 10000);
    if i < 10000 {
      var links := ToLinks(Limited(events, 10000));
      assert links[i] == ToLink(s.audit[k]);
      TamperedPayloadDetected(env.mac, links, i, p);
    }
  }

  /** After any serial run, wherever its requests stop, the chain of every resource starts at GENESIS and
      each event names the hash before it; `get_last_hash` is the head; `verify_integrity` finds nothing
      broken in the chain or in its first ten thousand events. */
  lemma RunsStayLinked(env: Env, calls: seq<Call>, r: Resource, id: Uuid)
    requires Lawful(env) && ProperRun(env, EMPTY, calls)
    ensures var s := Run(env, EMPTY, calls);
            && ResourceLinked(env.mac, s.audit, r)
            && LastHash(s.audit, r) == HashBefore(ToLinks(Timeline(s.audit, r)), |Timeline(s.audit, r)|)
            && (var events := |Timeline(s.audit, Resource("document", id))|;
                IntegrityReport(env, s, id) == (if events < 10000 then events else 10000, None))
  {
    EmptyInv(env);
    RunKeepsInv(env, EMPTY, calls);
    var s := Run(env, EMPTY, calls);
    LinkedIsIntact(env, s, DocumentResource(id), VERIFY_LIMIT);
    ReportIs(env, s, id);
    LastHashIsHead(s.audit, r);
  }

  lemma TimelineWellFormed(s: State, r: Resource)
    requires EventsProper(s)
    ensures PayloadsWellFormed(ToLinks(Timeline(s.audit, r)))
  {}

  lemma LastHashCommits(mac: string -> string, s: State, t: State, r: Resource)
    requires HexDigest(mac) && ResourceLinked(mac, s.audit, r) && ResourceLinked(mac, t.audit, r)
    requires EventsProper(s) && EventsProper(t)
    requires LastHash(s.audit, r).Some? && LastHash(s.audit, r) == LastHash(t.audit, r)
    ensures var a, b := ToLinks(Timeline(s.audit, r)), ToLinks(Timeline(t.audit, r));
            SameHistory(a, b) || Collision(mac, a, b)
  {
    var a, b := ToLinks(Timeline(s.audit, r)), ToLinks(Timeline(t.audit, r));
    TimelineWellFormed(s, r);
    TimelineWellFormed(t, r);
    assert a[|a| - 1].hash == LastHash(s.audit, r).value && b[|b| - 1].hash == LastHash(t.audit, r).value;
    HeadCommits(mac, a, b);
  }

  /** The last hash of a resource commits to everything that ever happened to it: any two runs, of any
      requests, that leave the same last hash leave the same history, or two of their messages collide. */
  lemma LastHashCommitsToRun(env: Env, calls: seq<Call>, others: seq<Call>, r: Resource)
    requires Lawful(env) && ProperRun(env, EMPTY, calls) && ProperRun(env, EMPTY, others)
    requires LastHash(Run(env, EMPTY, calls).audit, r).Some?
    requires LastHash(Run(env, EMPTY, calls).audit, r) == LastHash(Run(env, EMPTY, others).audit, r)
    ensures var a := ToLinks(Timeline(Run(env, EMPTY, calls).audit, r));
            var b := ToLinks(Timeline(Run(env, EMPTY, others).audit, r));
            SameHistory(a, b) || Collision(env.mac, a, b)
  {
    EmptyInv(env);
    RunKeepsInv(env, EMPTY, calls);
    RunKeepsInv(env, EMPTY, others);
    LastHashCommits(env.mac, Run(env, EMPTY, calls), Run(env, EMPTY, others), r);
  }
}
