/** The audit hash chain of `integrity_chain.py`, over an arbitrary keyed hash `mac`.

    Nothing is assumed about `mac` beyond the shape of its output (64 hexadecimal digits). Results
    that need it to be collision free say instead which two messages collide when they fail. */
module IntegrityChain {
  import opened Basics
  import opened CanonicalJson
  import opened JsonText

  predicate IsHex(c: char) {
    '0' <= c <= '9' || 'a' <= c <= 'f'
  }

  predicate IsDigest(s: string) {
    |s| == 64 && forall i :: 0 <= i < |s| ==> IsHex(s[i])
  }

  ghost predicate HexDigest(mac: string -> string) {
    forall m :: IsDigest(mac(m))
  }

  /** `prev_hash or "GENESIS"`: both a missing and an empty hash read as the start of a chain. */
  function Base(prev: Option<string>): string {
    if prev == None || prev == Some("") then "GENESIS" else prev.value
  }

  function Message(payload: Json, prev: Option<string>): string {
    Base(prev) + ("||" + Dumps(payload))
  }

  function ComputeHash(mac: string -> string, payload: Json, prev: Option<string>): string {
    mac(Message(payload, prev))
  }

  /** What verification reads of a stored audit event. */
  datatype Link = Link(payload: Json, prev: Option<string>, hash: string)

  predicate Authentic(mac: string -> string, e: Link) {
    e.hash == ComputeHash(mac, e.payload, e.prev)
  }

  /** The index `verify_chain` reports: the first event whose stored hash is not its own. */
  function FirstBroken(mac: string -> string, events: seq<Link>): (r: Option<nat>)
    ensures r == None <==> forall i :: 0 <= i < |events| ==> Authentic(mac, events[i])
    ensures r.Some? ==> r.value < |events| && !Authentic(mac, events[r.value])
    ensures r.Some? ==> forall i :: 0 <= i < r.value ==> Authentic(mac, events[i])
  {
    if events == [] then None
    else
      var n := |events| - 1;
      var before := FirstBroken(mac, events[..n]);
      assert forall i :: 0 <= i < n ==> events[..n][i] == events[i];
      if before.Some? then before
      else if Authentic(mac, events[n]) then None
      else Some(n)
  }

  class IntegrityChainService {
    const mac: string -> string

    constructor (mac: string -> string)
      ensures this.mac == mac
    {
      this.mac := mac;
    }

    method VerifyChain(events: seq<Link>) returns (ok: bool, broken: Option<nat>)
      ensures ok <==> forall i :: 0 <= i < |events| ==> Authentic(mac, events[i])
      ensures broken == FirstBroken(mac, events)
      ensures ok <==> broken == None
    {
      for idx := 0 to |events|
        invariant forall i :: 0 <= i < idx ==> Authentic(mac, events[i])
      {
        var expected := ComputeHash(mac, events[idx].payload, events[idx].prev);
        if expected != events[idx].hash {
          return false, Some(idx);
        }
      }
      return true, None;
    }
  }

  /** The hash of the event before position `i`; GENESIS, as None, before the first. */
  function HashBefore(chain: seq<Link>, i: nat): Option<string>
    requires i <= |chain|
  {
    if i == 0 then None else Some(chain[i - 1].hash)
  }

  predicate LinkedAt(mac: string -> string, chain: seq<Link>, i: nat)
    requires i < |chain|
  {
    Authentic(mac, chain[i]) && chain[i].prev == HashBefore(chain, i)
  }

  /** A chain as the write path means it: it starts from GENESIS, every event names its predecessor's
      hash, and every stored hash is right. `verify_chain` only checks the last of these. */
  ghost predicate Linked(mac: string -> string, chain: seq<Link>) {
    forall i {:trigger LinkedAt(mac, chain, i)} :: 0 <= i < |chain| ==> LinkedAt(mac, chain, i)
  }

  /** A chain with one event more is linked exactly when it was linked and the event is authentic and names
      its predecessor. */
  lemma LinkedAppendIff(mac: string -> string, chain: seq<Link>, e: Link)
    ensures Linked(mac, chain + [e]) <==> Linked(mac, chain) && Authentic(mac, e) && e.prev == HashBefore(chain, |chain|)
  {
    var after := chain + [e];
    forall i | 0 <= i < |chain| ensures LinkedAt(mac, after, i) <==> LinkedAt(mac, chain, i) {
      assert after[i] == chain[i] && HashBefore(after, i) == HashBefore(chain, i);
    }
    assert after[|chain|] == e && HashBefore(after, |chain|) == HashBefore(chain, |chain|);
    if Linked(mac, after) {
      assert LinkedAt(mac, after, |chain|);
      forall i | 0 <= i < |chain| ensures LinkedAt(mac, chain, i) { assert LinkedAt(mac, after, i); }
    }
  }

  predicate PayloadsWellFormed(chain: seq<Link>) {
    forall i :: 0 <= i < |chain| ==> WellFormed(chain[i].payload)
  }

  // ---------------------------------------------------------------- the message

  lemma PipeFreeNotLonger(b: string, c: string, x: string, y: string)
    requires b + ("||" + x) == c + ("||" + y) && '|' !in c
    ensures |c| <= |b|
  {
    assert (b + ("||" + x))[|b|] == '|';
    assert forall i :: 0 <= i < |c| ==> (c + ("||" + y))[i] == c[i];
  }

  /** The hashed message determines the predecessor and the payload, up to key order and to the two
      spellings of GENESIS. */
  lemma MessageIffSame(p: Json, prev: Option<string>, p': Json, prev': Option<string>)
    requires WellFormed(p) && WellFormed(p')
    requires '|' !in Base(prev) && '|' !in Base(prev')
    ensures Message(p, prev) == Message(p', prev') <==> Base(prev) == Base(prev') && Denote(p) == Denote(p')
  {
    DumpsIffSameValue(p, p');
    if Message(p, prev) == Message(p', prev') {
      PipeFreeNotLonger(Base(prev), Base(prev'), Dumps(p), Dumps(p'));
      PipeFreeNotLonger(Base(prev'), Base(prev), Dumps(p'), Dumps(p));
      SameSplit(Base(prev), "||" + Dumps(p), Base(prev'), "||" + Dumps(p'));
      SameSplit("||", Dumps(p), "||", Dumps(p'));
    }
  }

  /** What is hashed, without the printer: the predecessor's hash or GENESIS, two bars, and a text that reads to
      the value of the payload and whose keys ascend. */
  ghost predicate IsMessage(m: string, p: Json, prev: Option<string>) {
    var start := if prev.Some? && |prev.value| > 0 then prev.value + "||" else "GENESIS||";
    Starts(m, start)
    && (var r := ReadText(m[|start|..]); r.Good? && Denote(r.value) == Denote(p) && KeysAscend(r.value))
  }

  /** There is one such message, and the hash is its hash. */
  lemma HashIsOfTheMessage(mac: string -> string, p: Json, prev: Option<string>, m: string)
    requires WellFormed(p)
    ensures IsMessage(m, p, prev) <==> m == Message(p, prev)
    ensures IsMessage(m, p, prev) ==> ComputeHash(mac, p, prev) == mac(m)
  {
    var start := Base(prev) + "||";
    assert Message(p, prev) == start + Dumps(p);
    StartsWith(start, Dumps(p));
    DumpsIsTheText(p, Dumps(p));
    if Starts(m, start) {
      SplitAt(m, start);
      DumpsIsTheText(p, m[|start|..]);
    }
  }

  lemma DigestBase(d: string)
    requires IsDigest(d)
    ensures Base(Some(d)) == d && d != "GENESIS" && '|' !in d
  {}

  // ---------------------------------------------------------------- what the head commits to

  predicate Collide(mac: string -> string, e: Link, f: Link) {
    var m, n := Message(e.payload, e.prev), Message(f.payload, f.prev);
    m != n && mac(m) == mac(n)
  }

  /** Two different messages among those hashed in `a` and `b` that get the same hash. */
  ghost predicate Collision(mac: string -> string, a: seq<Link>, b: seq<Link>) {
    exists e, f :: e in a && f in b && Collide(mac, e, f)
  }

  predicate SameEvent(e: Link, f: Link) {
    Denote(e.payload) == Denote(f.payload) && e.prev == f.prev && e.hash == f.hash
  }

  predicate SameHistory(a: seq<Link>, b: seq<Link>) {
    |a| == |b| && forall i :: 0 <= i < |a| ==> SameEvent(a[i], b[i])
  }

  lemma LinkedPrevIsDigest(mac: string -> string, chain: seq<Link>, i: nat)
    requires HexDigest(mac) && Linked(mac, chain) && i < |chain|
    ensures '|' !in Base(chain[i].prev)
    ensures Base(chain[i].prev) == "GENESIS" <==> i == 0
    ensures i > 0 ==> chain[i].prev == Some(chain[i - 1].hash) && Base(chain[i].prev) == chain[i - 1].hash
  {
    assert LinkedAt(mac, chain, i);
    if i > 0 {
      assert LinkedAt(mac, chain, i - 1);
      DigestBase(chain[i - 1].hash);
    }
  }

  /** Events with equal hashes are the same event and follow equal hashes, or they collide. */
  lemma SameHashSameEvent(mac: string -> string, a: seq<Link>, b: seq<Link>, i: nat, j: nat)
    requires HexDigest(mac) && Linked(mac, a) && Linked(mac, b)
    requires PayloadsWellFormed(a) && PayloadsWellFormed(b)
    requires i < |a| && j < |b| && a[i].hash == b[j].hash
    requires !Collide(mac, a[i], b[j])
    ensures SameEvent(a[i], b[j])
    ensures i == 0 <==> j == 0
    ensures i > 0 && j > 0 ==> a[i - 1].hash == b[j - 1].hash
  {
    LinkedPrevIsDigest(mac, a, i);
    LinkedPrevIsDigest(mac, b, j);
    assert LinkedAt(mac, a, i) && LinkedAt(mac, b, j);
    MessageIffSame(a[i].payload, a[i].prev, b[j].payload, b[j].prev);
  }

  lemma {:induction false} HashCommits(mac: string -> string, a: seq<Link>, b: seq<Link>, i: nat, j: nat)
    requires HexDigest(mac) && Linked(mac, a) && Linked(mac, b)
    requires PayloadsWellFormed(a) && PayloadsWellFormed(b)
    requires i < |a| && j < |b| && a[i].hash == b[j].hash
    ensures (i == j && forall k :: 0 <= k <= i ==> SameEvent(a[k], b[k])) || Collision(mac, a, b)
  {
    if Collide(mac, a[i], b[j]) {
      assert a[i] in a && b[j] in b;
    } else {
      SameHashSameEvent(mac, a, b, i, j);
      if i == 0 {
      } else {
        HashCommits(mac, a, b, i - 1, j - 1);
        assert Collision(mac, a, b) || (i == j && forall k :: 0 <= k < i ==> SameEvent(a[k], b[k]));
      }
    }
  }

  /** The head hash commits to the whole history: two linked chains with the same head have the same
      length and the same events, unless two of their messages collide under `mac`. */
  lemma HeadCommits(mac: string -> string, a: seq<Link>, b: seq<Link>)
    requires HexDigest(mac) && Linked(mac, a) && Linked(mac, b)
    requires PayloadsWellFormed(a) && PayloadsWellFormed(b)
    requires |a| > 0 && |b| > 0 && a[|a| - 1].hash == b[|b| - 1].hash
    ensures SameHistory(a, b) || Collision(mac, a, b)
  {
    HashCommits(mac, a, b, |a| - 1, |b| - 1);
    if !Collision(mac, a, b) {
      assert |a| == |b|;
      assert forall k :: 0 <= k < |a| ==> SameEvent(a[k], b[k]);
    }
  }

  // ---------------------------------------------------------------- what verification detects

  lemma SameBaseMessage(p: Json, q: Json, prev: Option<string>)
    ensures Message(p, prev) == Message(q, prev) <==> Dumps(p) == Dumps(q)
  {
    if Message(p, prev) == Message(q, prev) {
      SameSplit(Base(prev), "||" + Dumps(p), Base(prev), "||" + Dumps(q));
      SameSplit("||", Dumps(p), "||", Dumps(q));
    }
  }

  /** Rewriting one payload of an authentic list is reported at that index, unless the new payload is
      the same value or its message collides with the old one. */
  lemma TamperedPayloadDetected(mac: string -> string, events: seq<Link>, i: nat, p: Json)
    requires FirstBroken(mac, events) == None && i < |events| && WellFormed(events[i].payload) && WellFormed(p)
    ensures var e := events[i].(payload := p);
            FirstBroken(mac, events[i := e]) ==
            if Denote(p) == Denote(events[i].payload) || Collide(mac, e, events[i]) then None else Some(i)
  {
    var e := events[i].(payload := p);
    var after := events[i := e];
    DumpsIffSameValue(p, events[i].payload);
    SameBaseMessage(p, events[i].payload, e.prev);
    assert forall k :: 0 <= k < |after| && k != i ==> after[k] == events[k];
    assert after[i] == e;
  }

  lemma SameEventAuthentic(mac: string -> string, e: Link, f: Link)
    requires SameEvent(e, f) && WellFormed(e.payload) && WellFormed(f.payload)
    ensures Authentic(mac, e) <==> Authentic(mac, f)
  {
    DumpsIffSameValue(e.payload, f.payload);
  }

  lemma SameFirstBroken(mac: string -> string, a: seq<Link>, b: seq<Link>)
    requires |a| == |b| && forall i :: 0 <= i < |a| ==> Authentic(mac, a[i]) == Authentic(mac, b[i])
    ensures FirstBroken(mac, a) == FirstBroken(mac, b)
  {}

  /** Events read back from a store that keeps payload values but not their key order verify exactly
      as the events that were written. */
  lemma ReorderedKeysVerify(mac: string -> string, written: seq<Link>, read: seq<Link>)
    requires SameHistory(written, read) && PayloadsWellFormed(written) && PayloadsWellFormed(read)
    ensures FirstBroken(mac, read) == FirstBroken(mac, written)
  {
    forall i | 0 <= i < |written| ensures Authentic(mac, read[i]) == Authentic(mac, written[i]) {
      SameEventAuthentic(mac, written[i], read[i]);
    }
    SameFirstBroken(mac, written, read);
  }

  /** Verification sees events one by one: an authentic list stays valid when events are dropped,
      repeated or reordered. Only `Linked` speaks of neighbours. */
  lemma VerificationIgnoresOrder(mac: string -> string, events: seq<Link>, some: seq<Link>)
    requires FirstBroken(mac, events) == None
    requires forall e :: e in some ==> e in events
    ensures FirstBroken(mac, some) == None
  {
    forall i | 0 <= i < |some| ensures Authentic(mac, some[i]) { assert some[i] in events; }
  }
}
