/** The whole vault under any interleaving. Any number of uploads and packages are on their way at once, each
    with the identifiers it drew; every other write may be decided on what was read at any earlier points, its
    row, its hold list and its last hash at different ones; any request may stop for good between two steps. */
module VaultRace {
  import opened Basics
  import opened CanonicalJson
  import opened IntegrityChain
  import opened AuditTable
  import opened ObjectKeys
  import opened Entities
  import opened Vault
  import opened Safety
  import opened Requests
  import opened Progress

  // ---------------------------------------------------------------- moves

  /** A request that stores a file under fresh identifiers, and how many of its writes it has made. */
  datatype Flight =
    | Uploading(u: Upload, now: Clock, done: nat)
    | Packaging(key: string, package: Uuid, bytes: string, storage: Uuid, row: StorageRow, done: nat)

  datatype Race = Race(state: State, flights: map<nat, Flight>)

  datatype Move =
    | Begin(who: nat, flight: Flight)
    | Step(who: nat)                                               // the next write of a flight
    | Commit(read: nat, listed: nat, write: Write)                 // decided on the states at two earlier points
    | Mark(read: nat, version: Uuid, shareId: string, bytes: string)  // a watermark of content read earlier

  function UploadSteps(env: Env, u: Upload, now: Clock): seq<Write> {
    UploadRows(env, u, now) + [Publish(u, now)]
  }

  /** A write as its repository call commits it on `s`: updates change their columns and leave the others. */
  function Late(s: State, w: Write): Write {
    match w
    case UpdateDoc(id, row) => if id in s.docs then UpdateDoc(id, WriteBack(s.docs[id], row, row.updatedAt)) else w
    case UpdateHold(id, row) =>
      if id in s.holds then UpdateHold(id, s.holds[id].(active := row.active, releasedAt := row.releasedAt)) else w
    case UpdateShare(id, row) =>
      if id in s.shares then UpdateShare(id, s.shares[id].(count := row.count, revokedAt := row.revokedAt)) else w
    case _ => w
  }

  predicate MoreToDo(s: State, f: Flight) {
    match f
    case Uploading(u, _, done) => done < 5 && (done == 2 && u.policy.Some? ==> u.policy.value in s.policies)
    case Packaging(_, _, _, _, _, done) => done < 2
  }

  function NextWrite(env: Env, s: State, f: Flight): Write
    requires MoreToDo(s, f)
  {
    match f
    case Uploading(u, now, done) => Late(s, UploadSteps(env, u, now)[done])
    case Packaging(key, _, bytes, storage, row, done) => if done == 0 then PutBlob(key, bytes) else InsertStorage(storage, row)
  }

  function Advanced(f: Flight): Flight {
    match f
    case Uploading(u, now, done) => Uploading(u, now, done + 1)
    case Packaging(key, package, bytes, storage, row, done) => Packaging(key, package, bytes, storage, row, done + 1)
  }

  function StorageId(f: Flight): Uuid {
    match f case Uploading(u, _, _) => u.storage case Packaging(_, _, _, storage, _, _) => storage
  }

  /** Identifiers drawn by different flights differ. */
  predicate IdsApart(f: Flight, g: Flight) {
    && (f.Uploading? && g.Uploading? ==> f.u.doc != g.u.doc && f.u.version != g.u.version)
    && (f.Packaging? && g.Packaging? ==> f.package != g.package)
    && StorageId(f) != StorageId(g)
  }

  predicate VersionIdUnused(s: State, version: Uuid) {
    forall key :: key in s.blobs && VersionShaped(key) ==> VersionPart(key) != version
  }

  /** What a flight draws is new when it begins. */
  predicate Fresh(env: Env, s: State, f: Flight) {
    match f
    case Uploading(u, _, done) =>
      done == 0 && u.doc !in s.docs && u.version !in s.versions && u.storage !in s.storage && VersionIdUnused(s, u.version)
    case Packaging(key, package, bytes, storage, row, done) =>
      && done == 0 && PackageShaped(key) && PackagePart(key) == package && PackageIdUnused(s, package)
      && storage !in s.storage && row.objectKey == key && row.checksum == env.sha(bytes) && row.size == |bytes|
  }

  /** What a request can write on the strength of a document row, or other row, read at one point and a list of
      holds read at another. The version of a document row is always the one read; its flag is set, or the one
      read, or cleared because no hold was listed as active. The predecessor of an event is any earlier hash. */
  ghost predicate Decided(env: Env, read: State, listed: State, w: Write) {
    match w
    case UpdateDoc(id, row) =>
      && id in read.docs && row.currentVersion == read.docs[id].currentVersion
      && (row.legalHold || !read.docs[id].legalHold || !HasActiveHold(listed, id))
    case InsertEvent(e) => Authentic(env.mac, ToLink(e)) && EventProper(read, e)
    case InsertHold(_, row) => row.document in read.docs
    case UpdateHold(id, _) => id in read.holds
    case InsertPolicy(_, _) => true
    case InsertShare(_, row) => row.document in read.docs
    case UpdateShare(id, _) => id in read.shares
    case InsertSignature(_, row) => row.version in read.versions
    case _ => false
  }

  /** Rows are inserted under new identifiers, and updated where they exist. */
  predicate RowsThere(s: State, w: Write) {
    && (w.InsertHold? ==> w.id !in s.holds)
    && (w.UpdateHold? ==> w.id in s.holds)
    && (w.InsertPolicy? ==> w.id !in s.policies)
    && (w.InsertShare? ==> w.id !in s.shares)
    && (w.UpdateShare? ==> w.id in s.shares)
    && (w.InsertSignature? ==> w.id !in s.signatures)
  }

  ghost predicate Enabled(env: Env, races: seq<Race>, k: nat, m: Move)
    requires k < |races|
  {
    var Race(s, flights) := races[k];
    match m
    case Begin(who, flight) =>
      who !in flights && Fresh(env, s, flight) && forall other :: other in flights ==> IdsApart(flight, flights[other])
    case Step(who) => who in flights && MoreToDo(s, flights[who])
    case Commit(read, listed, w) =>
      read <= k && listed <= k && Decided(env, races[read].state, races[listed].state, w) && RowsThere(s, w)
    case Mark(read, version, _, _) => read <= k && FollowStorage(env, races[read].state, version).Content?
  }

  /** The write a move makes, if it makes one. */
  function WriteOf(env: Env, races: seq<Race>, k: nat, m: Move): Option<Write>
    requires k < |races|
  {
    match m
    case Begin(_, _) => None
    case Step(who) =>
      if who in races[k].flights && MoreToDo(races[k].state, races[k].flights[who])
      then Some(NextWrite(env, races[k].state, races[k].flights[who])) else None
    case Commit(_, _, w) => Some(Late(races[k].state, w))
    case Mark(read, version, shareId, bytes) =>
      if read <= k && FollowStorage(env, races[read].state, version).Content?
      then Some(PutBlob(WatermarkKey(FollowStorage(env, races[read].state, version).fileName, shareId), bytes)) else None
  }

  function FlightsAfter(flights: map<nat, Flight>, m: Move): map<nat, Flight> {
    match m
    case Begin(who, flight) => flights[who := flight]
    case Step(who) => if who in flights then flights[who := Advanced(flights[who])] else flights
    case _ => flights
  }

  function Next(env: Env, races: seq<Race>, k: nat, m: Move): Race
    requires k < |races|
  {
    var w := WriteOf(env, races, k, m);
    Race(if w.Some? then Apply(races[k].state, w.value) else races[k].state, FlightsAfter(races[k].flights, m))
  }

  ghost predicate StepAt(env: Env, moves: seq<Move>, races: seq<Race>, k: nat)
    requires k < |moves| && k + 1 < |races|
  {
    Enabled(env, races, k, moves[k]) && races[k + 1] == Next(env, races, k, moves[k])
  }

  /** `races` are what `moves` lead through, from `s` with no request on its way. */
  ghost predicate Trace(env: Env, s: State, moves: seq<Move>, races: seq<Race>) {
    && |races| == |moves| + 1 && races[0] == Race(s, map[])
    && forall k {:trigger StepAt(env, moves, races, k)} :: 0 <= k < |moves| ==> StepAt(env, moves, races, k)
  }

  lemma SameEarlierSameMove(env: Env, a: seq<Race>, b: seq<Race>, k: nat, m: Move)
    requires k < |a| && k < |b| && forall j :: 0 <= j <= k ==> a[j] == b[j]
    ensures Enabled(env, a, k, m) <==> Enabled(env, b, k, m)
    ensures Next(env, a, k, m) == Next(env, b, k, m)
  {}

  lemma TraceMore(env: Env, s: State, moves: seq<Move>, races: seq<Race>, m: Move)
    requires Trace(env, s, moves, races) && Enabled(env, races, |moves|, m)
    ensures Trace(env, s, moves + [m], races + [Next(env, races, |moves|, m)])
  {
    var more := races + [Next(env, races, |moves|, m)];
    forall k | 0 <= k <= |moves| ensures StepAt(env, moves + [m], more, k) {
      SameEarlierSameMove(env, races, more, k, (moves + [m])[k]);
      if k < |moves| { assert StepAt(env, moves, races, k); }
    }
  }

  // ---------------------------------------------------------------- what races keep

  predicate EventsAuthentic(env: Env, s: State) {
    forall e :: e in s.audit ==> Authentic(env.mac, ToLink(e))
  }

  ghost predicate RacedInv(env: Env, s: State) {
    && StorageIntact(env, s) && KeysApart(s) && VersionsReadable(env, s) && VersionsOwned(s)
    && EventsProper(s) && EventsAuthentic(env, s)
  }

  /** What every later state keeps of an earlier one. */
  ghost predicate ContentKept(s: State, t: State) {
    && (forall d :: d in s.docs ==> d in t.docs && t.docs[d].tenant == s.docs[d].tenant && t.docs[d].createdAt == s.docs[d].createdAt)
    && VersionsKept(s, t) && StorageKept(s, t)
  }

  lemma VersionsStayOwned(env: Env, s: State, w: Write)
    requires VersionsOwned(s) && Loose(env, s, w)
    ensures VersionsOwned(Apply(s, w))
  {
    var t := Apply(s, w);
    forall d | d in t.docs ensures VersionOwned(t, d, t.docs[d]) {
      if d in s.docs { assert VersionOwned(s, d, s.docs[d]); }
    }
  }

  lemma LooseKeepsRacedInv(env: Env, s: State, w: Write)
    requires RacedInv(env, s) && Loose(env, s, w)
    ensures RacedInv(env, Apply(s, w))
  {
    StorageStaysIntact(env, s, w);
    KeysStayApart(env, s, w);
    VersionsStayReadable(env, s, w);
    VersionsStayOwned(env, s, w);
    EventsStayProper(env, s, w);
  }

  lemma LooseKeepsContent(env: Env, s: State, w: Write)
    requires Loose(env, s, w)
    ensures ContentKept(s, Apply(s, w))
  {}

  lemma ContentKeptTransitive(s: State, t: State, u: State)
    requires ContentKept(s, t) && ContentKept(t, u)
    ensures ContentKept(s, u)
  {}

  // ---------------------------------------------------------------- flights

  predicate KeyUnnamed(s: State, key: string) {
    forall i :: i in s.storage ==> Apart(s.storage[i].objectKey, key)
  }

  predicate HoldsBlob(s: State, key: string, bytes: string) {
    key in s.blobs && s.blobs[key] == bytes
  }

  /** How far an upload has come: what is still unused, and what it has stored. */
  predicate UploadOk(env: Env, s: State, u: Upload, now: Clock, done: nat) {
    && done <= 5
    && (done == 0 ==> VersionIdUnused(s, u.version))
    && (done <= 1 ==> u.storage !in s.storage && KeyUnnamed(s, UploadKey(u)))
    && (done <= 2 ==> u.doc !in s.docs)
    && (done <= 3 ==> u.version !in s.versions)
    && (1 <= done <= 3 ==> HoldsBlob(s, UploadKey(u), UploadCipher(env, u)))
    && (2 <= done <= 3 ==> u.storage in s.storage && s.storage[u.storage] == UploadStorage(env, u, now))
    && (3 <= done ==> u.doc in s.docs && s.docs[u.doc].tenant == u.tenant)
    && (4 <= done ==> u.version in s.versions && s.versions[u.version].document == u.doc)
  }

  predicate FlightOk(env: Env, s: State, f: Flight) {
    match f
    case Uploading(u, now, done) => UploadOk(env, s, u, now, done)
    case Packaging(key, package, bytes, storage, row, done) =>
      && done <= 2 && PackageShaped(key) && PackagePart(key) == package
      && row.objectKey == key && row.checksum == env.sha(bytes) && row.size == |bytes|
      && (done <= 1 ==> storage !in s.storage && KeyUnnamed(s, key))
      && (done == 1 ==> HoldsBlob(s, key, bytes))
  }

  /** A write that has nothing to do with what a flight drew. */
  predicate Foreign(w: Write, f: Flight) {
    match f
    case Uploading(u, _, done) =>
      && (w.PutBlob? && done <= 3 && VersionShaped(w.key) ==> VersionPart(w.key) != u.version)
      && (w.InsertStorage? ==> w.id != u.storage && Apart(w.storage.objectKey, UploadKey(u)))
      && (w.InsertDoc? ==> w.id != u.doc)
      && (w.InsertVersion? ==> w.id != u.version)
    case Packaging(key, package, _, storage, _, _) =>
      && (w.PutBlob? && PackageShaped(w.key) ==> PackagePart(w.key) != package)
      && (w.InsertStorage? ==> w.id != storage && Apart(w.storage.objectKey, key))
  }

  lemma ForeignKeepsUpload(env: Env, s: State, w: Write, u: Upload, now: Clock, done: nat)
    requires UploadOk(env, s, u, now, done) && Loose(env, s, w) && Foreign(w, Uploading(u, now, done))
    ensures UploadOk(env, Apply(s, w), u, now, done)
  {
    KeyParts(u.tenant, u.doc, u.version, u.fileName);
  }

  lemma ForeignKeepsFlight(env: Env, s: State, w: Write, f: Flight)
    requires FlightOk(env, s, f) && Loose(env, s, w) && Foreign(w, f)
    ensures FlightOk(env, Apply(s, w), f)
  {
    match f
    case Uploading(u, now, done) => ForeignKeepsUpload(env, s, w, u, now, done);
    case Packaging(_, _, _, _, _, _) =>
  }

  lemma FreshIsOk(env: Env, s: State, f: Flight)
    requires StorageIntact(env, s) && Fresh(env, s, f)
    ensures FlightOk(env, s, f)
  {
    if f.Uploading? { KeyParts(f.u.tenant, f.u.doc, f.u.version, f.u.fileName); }
    var key := if f.Uploading? then UploadKey(f.u) else f.key;
    forall i | i in s.storage ensures Apart(s.storage[i].objectKey, key) { assert Intact(env, s, s.storage[i]); }
  }

  lemma UploadStepIs(env: Env, u: Upload, now: Clock)
    ensures UploadSteps(env, u, now) == [PutBlob(UploadKey(u), UploadCipher(env, u)), InsertStorage(u.storage, UploadStorage(env, u, now)),
      InsertDoc(u.doc, UploadDoc(u, now)), InsertVersion(u.version, UploadVersion(env, u, now)), Publish(u, now)]
  {}

  /** The next write of an upload is loose, and leaves the upload one step further. */
  lemma UploadStepOk(env: Env, s: State, u: Upload, now: Clock, done: nat)
    requires Lawful(env) && UploadOk(env, s, u, now, done) && MoreToDo(s, Uploading(u, now, done))
    ensures var w := NextWrite(env, s, Uploading(u, now, done));
            Loose(env, s, w) && UploadOk(env, Apply(s, w), u, now, done + 1)
  {
    UploadStepIs(env, u, now);
    KeyParts(u.tenant, u.doc, u.version, u.fileName);
  }

  lemma FlightStepOk(env: Env, s: State, f: Flight)
    requires Lawful(env) && FlightOk(env, s, f) && MoreToDo(s, f)
    ensures Loose(env, s, NextWrite(env, s, f)) && FlightOk(env, Apply(s, NextWrite(env, s, f)), Advanced(f))
  {
    match f
    case Uploading(u, now, done) => UploadStepOk(env, s, u, now, done);
    case Packaging(_, _, _, _, _, _) =>
  }

  /** The writes of one flight are foreign to the others. */
  lemma FlightStepForeign(env: Env, s: State, f: Flight, g: Flight)
    requires FlightOk(env, s, f) && FlightOk(env, s, g) && MoreToDo(s, f) && IdsApart(f, g)
    ensures Foreign(NextWrite(env, s, f), g)
  {
    if f.Uploading? {
      UploadStepIs(env, f.u, f.now);
      KeyParts(f.u.tenant, f.u.doc, f.u.version, f.u.fileName);
    }
    if g.Uploading? { KeyParts(g.u.tenant, g.u.doc, g.u.version, g.u.fileName); }
  }

  // ---------------------------------------------------------------- decided writes and watermarks

  lemma DecidedIsLoose(env: Env, read: State, listed: State, s: State, w: Write)
    requires VersionsOwned(read) && ContentKept(read, s) && Decided(env, read, listed, w)
    ensures Loose(env, s, Late(s, w))
  {
    if w.UpdateDoc? { assert VersionOwned(read, w.id, read.docs[w.id]); }
  }

  lemma DecidedIsForeign(env: Env, read: State, listed: State, s: State, w: Write, f: Flight)
    requires Decided(env, read, listed, w)
    ensures Foreign(Late(s, w), f)
  {}

  /** A watermark of content read earlier lands on no storage row's key, and on nothing a flight drew. */
  lemma MarkIsLoose(env: Env, read: State, s: State, version: Uuid, shareId: string, bytes: string)
    requires ContentKept(read, s) && KeysApart(s) && VersionsReadable(env, s)
    requires FollowStorage(env, read, version).Content?
    ensures var key := WatermarkKey(FollowStorage(env, read, version).fileName, shareId);
            Loose(env, s, PutBlob(key, bytes)) && version in s.versions && VersionShaped(key) && VersionPart(key) == version
  {
    var row := s.versions[version];
    assert Readable(env, s, version, row);
    var i := row.storage.value;
    var key := s.storage[i].objectKey;
    KeyParts(s.docs[row.document].tenant, row.document, version, row.fileName);
    WatermarkKeyShape(key, shareId);
    forall j | j in s.storage ensures s.storage[j].objectKey != WatermarkKey(key, shareId) {
      if j != i { assert Apart(s.storage[i].objectKey, s.storage[j].objectKey); }
    }
  }

  lemma MarkIsForeign(env: Env, s: State, key: string, bytes: string, version: Uuid, f: Flight)
    requires version in s.versions && VersionShaped(key) && VersionPart(key) == version && FlightOk(env, s, f)
    ensures Foreign(PutBlob(key, bytes), f)
  {}

  // ---------------------------------------------------------------- the invariant of races

  ghost predicate RaceOk(env: Env, race: Race) {
    && RacedInv(env, race.state)
    && (forall who :: who in race.flights ==> FlightOk(env, race.state, race.flights[who]))
    && (forall a, b :: a in race.flights && b in race.flights && a != b ==> IdsApart(race.flights[a], race.flights[b]))
  }

  /** All earlier states are kept in state `k`, and their versions are owned. */
  ghost predicate EarlierKept(races: seq<Race>, k: nat)
    requires k < |races|
  {
    forall j {:trigger ContentKept(races[j].state, races[k].state)} :: 0 <= j <= k ==>
      VersionsOwned(races[j].state) && ContentKept(races[j].state, races[k].state)
  }

  ghost predicate WriteForeign(race: Race, w: Write, who: nat) {
    forall other :: other in race.flights && other != who ==> Foreign(w, race.flights[other])
  }

  lemma ForeignKeepsFlights(env: Env, race: Race, w: Write, who: nat)
    requires RaceOk(env, race) && Loose(env, race.state, w) && WriteForeign(race, w, who)
    ensures RacedInv(env, Apply(race.state, w))
    ensures forall other :: other in race.flights && other != who ==> FlightOk(env, Apply(race.state, w), race.flights[other])
  {
    LooseKeepsRacedInv(env, race.state, w);
    forall other | other in race.flights && other != who
      ensures FlightOk(env, Apply(race.state, w), race.flights[other])
    {
      ForeignKeepsFlight(env, race.state, w, race.flights[other]);
    }
  }

  lemma BeginOk(env: Env, races: seq<Race>, k: nat, m: Move)
    requires k < |races| && RaceOk(env, races[k]) && m.Begin? && Enabled(env, races, k, m)
    ensures RaceOk(env, Next(env, races, k, m))
  {
    FreshIsOk(env, races[k].state, m.flight);
  }

  lemma StepForeign(env: Env, race: Race, who: nat)
    requires RaceOk(env, race) && who in race.flights && MoreToDo(race.state, race.flights[who])
    ensures WriteForeign(race, NextWrite(env, race.state, race.flights[who]), who)
  {
    var f := race.flights[who];
    forall other | other in race.flights && other != who ensures Foreign(NextWrite(env, race.state, f), race.flights[other]) {
      FlightStepForeign(env, race.state, f, race.flights[other]);
    }
  }

  lemma StepOk(env: Env, races: seq<Race>, k: nat, m: Move)
    requires Lawful(env) && k < |races| && RaceOk(env, races[k]) && m.Step? && Enabled(env, races, k, m)
    ensures RaceOk(env, Next(env, races, k, m)) && Loose(env, races[k].state, WriteOf(env, races, k, m).value)
  {
    var Race(s, flights) := races[k];
    var f := flights[m.who];
    FlightStepOk(env, s, f);
    StepForeign(env, races[k], m.who);
    ForeignKeepsFlights(env, races[k], NextWrite(env, s, f), m.who);
  }

  lemma CommitOk(env: Env, races: seq<Race>, k: nat, m: Move)
    requires k < |races| && RaceOk(env, races[k]) && EarlierKept(races, k) && m.Commit? && Enabled(env, races, k, m)
    ensures RaceOk(env, Next(env, races, k, m)) && Loose(env, races[k].state, WriteOf(env, races, k, m).value)
  {
    var Race(s, flights) := races[k];
    var read, listed := races[m.read].state, races[m.listed].state;
    assert ContentKept(read, s);
    DecidedIsLoose(env, read, listed, s, m.write);
    forall who | who in flights
      ensures FlightOk(env, Apply(s, Late(s, m.write)), flights[who])
    {
      DecidedIsForeign(env, read, listed, s, m.write, flights[who]);
      ForeignKeepsFlight(env, s, Late(s, m.write), flights[who]);
    }
    LooseKeepsRacedInv(env, s, Late(s, m.write));
  }

  lemma MarkOk(env: Env, races: seq<Race>, k: nat, m: Move)
    requires k < |races| && RaceOk(env, races[k]) && EarlierKept(races, k) && m.Mark? && Enabled(env, races, k, m)
    ensures RaceOk(env, Next(env, races, k, m)) && Loose(env, races[k].state, WriteOf(env, races, k, m).value)
  {
    var Race(s, flights) := races[k];
    var w := WriteOf(env, races, k, m).value;
    assert ContentKept(races[m.read].state, s);
    MarkIsLoose(env, races[m.read].state, s, m.version, m.shareId, m.bytes);
    forall who | who in flights ensures FlightOk(env, Apply(s, w), flights[who]) {
      MarkIsForeign(env, s, w.key, w.bytes, m.version, flights[who]);
      ForeignKeepsFlight(env, s, w, flights[who]);
    }
    LooseKeepsRacedInv(env, s, w);
  }

  lemma MoveOk(env: Env, races: seq<Race>, k: nat, m: Move)
    requires Lawful(env) && k < |races| && RaceOk(env, races[k]) && EarlierKept(races, k) && Enabled(env, races, k, m)
    ensures RaceOk(env, Next(env, races, k, m))
    ensures WriteOf(env, races, k, m).Some? ==> Loose(env, races[k].state, WriteOf(env, races, k, m).value)
  {
    match m
    case Begin(_, _) => BeginOk(env, races, k, m);
    case Step(_) => StepOk(env, races, k, m);
    case Commit(_, _, _) => CommitOk(env, races, k, m);
    case Mark(_, _, _, _) => MarkOk(env, races, k, m);
  }

  lemma EarlierKeptNext(env: Env, races: seq<Race>, k: nat)
    requires k + 1 < |races| && EarlierKept(races, k)
    requires VersionsOwned(races[k + 1].state) && ContentKept(races[k].state, races[k + 1].state)
    ensures EarlierKept(races, k + 1)
  {
    forall j | 0 <= j <= k + 1 ensures VersionsOwned(races[j].state) && ContentKept(races[j].state, races[k + 1].state) {
      if j <= k {
        assert ContentKept(races[j].state, races[k].state);
        ContentKeptTransitive(races[j].state, races[k].state, races[k + 1].state);
      }
    }
  }

  /** Under any interleaving, wherever requests stop: every storage row keeps its blob with its checksum, keys
      stay apart, every version stays readable, every event is authentic, every upload and package on its way
      finds what it stored, and what is stored stays as it is. */
  lemma {:induction false} RacedContentSurvives(env: Env, s: State, moves: seq<Move>, races: seq<Race>, n: nat)
    requires Lawful(env) && RacedInv(env, s) && Trace(env, s, moves, races) && n <= |moves|
    ensures RaceOk(env, races[n]) && EarlierKept(races, n)
  {
    if n == 0 {
    } else {
      RacedContentSurvives(env, s, moves, races, n - 1);
      assert StepAt(env, moves, races, n - 1);
      MoveOk(env, races, n - 1, moves[n - 1]);
      var w := WriteOf(env, races, n - 1, moves[n - 1]);
      if w.Some? { LooseKeepsContent(env, races[n - 1].state, w.value); }
      EarlierKeptNext(env, races, n - 1);
    }
  }

  // ---------------------------------------------------------------- what requests decide

  ghost predicate AllDecided(env: Env, read: State, ws: seq<Write>) {
    forall i {:trigger ws[i]} :: 0 <= i < |ws| ==> Decided(env, read, ApplyAll(read, ws[..i]), ws[i])
  }

  lemma OneDecided(env: Env, read: State, w: Write)
    requires Decided(env, read, read, w)
    ensures AllDecided(env, read, [w])
  {
    assert [w][..0] == [];
  }

  lemma TwoDecided(env: Env, read: State, v: Write, w: Write)
    requires Decided(env, read, read, v) && Decided(env, read, Apply(read, v), w)
    ensures AllDecided(env, read, [v, w])
  {
    assert [v, w][..0] == [] && [v, w][..1] == [v];
    ApplyOne(read, v);
  }

  lemma SafeEventDecided(env: Env, p: Permit, read: State, t: State, listed: State, w: Write)
    requires Safe(env, p, t, w) && w.InsertEvent? && t.docs == read.docs
    ensures Decided(env, read, listed, w)
  {}

  lemma SafeEventsDecided(env: Env, p: Permit, read: State, ws: seq<Write>)
    requires SafeAll(env, p, read, ws) && OnlyEvents(ws)
    ensures AllDecided(env, read, ws)
  {
    forall i | 0 <= i < |ws| ensures Decided(env, read, ApplyAll(read, ws[..i]), ws[i]) {
      var t := ApplyAll(read, ws[..i]);
      SafePrefix(env, p, read, ws, i + 1);
      assert ws[..i + 1][..i] == ws[..i];
      EventsOnlyAudit(read, ws[..i]);
      SafeEventDecided(env, p, read, t, t, ws[i]);
    }
  }

  /** An event may be chained on a last hash read at any other point than the row it is about. */
  lemma AppendDecided(env: Env, read: State, t: State, listed: State, r: Resource, tenant: Uuid, actor: Option<Uuid>, event: EventType, payload: Json)
    requires WellFormed(payload) && (r.kind == "document" ==> r.id in read.docs)
    ensures Decided(env, read, listed, Append(env, t, r, tenant, actor, event, payload))
  {}

  /** Changing a row and appending an event about it. */
  lemma RowThenEventDecided(env: Env, read: State, id: Uuid, row: DocRow, tenant: Uuid, actor: Uuid, event: EventType, payload: Json)
    requires id in read.docs && row.currentVersion == read.docs[id].currentVersion && row.legalHold == read.docs[id].legalHold
    requires WellFormed(payload)
    ensures AllDecided(env, read, [UpdateDoc(id, row), Append(env, read, DocumentResource(id), tenant, Some(actor), event, payload)])
  {
    var w := Append(env, read, DocumentResource(id), tenant, Some(actor), event, payload);
    AppendDecided(env, read, read, Apply(read, UpdateDoc(id, row)), DocumentResource(id), tenant, Some(actor), event, payload);
    TwoDecided(env, read, UpdateDoc(id, row), w);
  }

  lemma DownloadDecides(env: Env, read: State, id: Uuid, tenant: Uuid, actor: Uuid)
    ensures AllDecided(env, read, PlanDownload(env, read, id, tenant, actor).writes)
  {
    var ws := PlanDownload(env, read, id, tenant, actor).writes;
    if ws != [] {
      OneMember("version_id", Str(read.docs[id].currentVersion.value));
      OneDecided(env, read, ws[0]);
      assert ws == [ws[0]];
    }
  }

  lemma DeleteDecides(env: Env, read: State, id: Uuid, tenant: Uuid, actor: Uuid, purge: bool, now: Clock)
    ensures AllDecided(env, read, PlanDelete(env, read, id, tenant, actor, purge, now).writes)
  {
    var ws := PlanDelete(env, read, id, tenant, actor, purge, now).writes;
    if ws != [] {
      OneMember("privileged_purge", Bool(purge));
      RowThenEventDecided(env, read, id, ws[0].doc, tenant, actor, DocumentDeleted, Obj(Member("privileged_purge", Bool(purge), NoMembers)));
    }
  }

  lemma RestoreDecides(env: Env, read: State, id: Uuid, tenant: Uuid, actor: Uuid, now: Clock)
    ensures AllDecided(env, read, PlanRestore(env, read, id, tenant, actor, now).writes)
  {
    var ws := PlanRestore(env, read, id, tenant, actor, now).writes;
    if ws != [] { RowThenEventDecided(env, read, id, ws[0].doc, tenant, actor, DocumentRestored, Obj(NoMembers)); }
  }

  lemma UpdateDecides(env: Env, read: State, id: Uuid, tenant: Uuid, actor: Uuid, c: Changes, now: Clock)
    requires c.metadata.Some? ==> WellFormed(c.metadata.value)
    ensures AllDecided(env, read, PlanUpdate(env, read, id, tenant, actor, c, now).writes)
  {
    var ws := PlanUpdate(env, read, id, tenant, actor, c, now).writes;
    if ws != [] {
      ChangesWellFormed(c);
      RowThenEventDecided(env, read, id, ws[0].doc, tenant, actor, DocumentUpdated, ChangesPayload(c));
    }
  }

  lemma PlaceDecides(env: Env, read: State, id: Uuid, tenant: Uuid, actor: Uuid, reason: string, hold: Uuid, now: Clock)
    ensures AllDecided(env, read, PlanPlaceHold(read, id, tenant, actor, reason, hold, now).writes)
  {
    var ws := PlanPlaceHold(read, id, tenant, actor, reason, hold, now).writes;
    if ws != [] { TwoDecided(env, read, ws[0], ws[1]); }
  }

  lemma ReleaseDecides(env: Env, read: State, hold: Uuid, tenant: Uuid, now: Clock)
    ensures AllDecided(env, read, PlanReleaseHold(read, hold, tenant, now).writes)
  {
    var ws := PlanReleaseHold(read, hold, tenant, now).writes;
    if |ws| == 1 {
      OneDecided(env, read, ws[0]);
      assert ws == [ws[0]];
    } else if |ws| == 2 {
      TwoDecided(env, read, ws[0], ws[1]);
      assert ws == [ws[0], ws[1]];
    }
  }

  lemma ApplyPolicyDecides(env: Env, read: State, id: Uuid, tenant: Uuid, policyId: Uuid, now: int)
    ensures AllDecided(env, read, PlanApplyPolicy(read, id, tenant, policyId, now).writes)
  {
    var ws := PlanApplyPolicy(read, id, tenant, policyId, now).writes;
    if ws != [] { OneDecided(env, read, ws[0]); }
  }

  lemma CreateShareDecides(env: Env, read: State, share: Uuid, id: Uuid, actor: Uuid, token: string, terms: Terms, now: int)
    ensures AllDecided(env, read, PlanCreateShare(env, read, share, id, actor, token, terms, now).writes)
  {
    var ws := PlanCreateShare(env, read, share, id, actor, token, terms, now).writes;
    if ws != [] { OneDecided(env, read, ws[0]); }
  }

  lemma RevokeShareDecides(env: Env, read: State, share: Uuid, now: int)
    ensures AllDecided(env, read, PlanRevokeShare(read, share, now).writes)
  {
    var ws := PlanRevokeShare(read, share, now).writes;
    if ws != [] { OneDecided(env, read, ws[0]); }
  }

  lemma SharedDownloadDecides(env: Env, read: State, token: string, now: int)
    ensures AllDecided(env, read, PlanDownloadShared(env, read, token, now).writes)
  {
    var ws := PlanDownloadShared(env, read, token, now).writes;
    if ws != [] { OneDecided(env, read, ws[0]); }
  }

  lemma LoopsDecide(env: Env, read: State, held: seq<Row<HoldRow>>, expiring: seq<Expiring>, stored: seq<Row<StorageRow>>, dryRun: bool, now: int)
    requires forall i :: 0 <= i < |expiring| ==> expiring[i].id in read.docs
    ensures AllDecided(env, read, Monitor(env, read, held).writes)
    ensures AllDecided(env, read, Scan(env, read, expiring, now).writes)
    ensures AllDecided(env, read, Rotate(env, read, stored, dryRun))
  {
    var p := Permit(now, None, false, false, None, false, None);
    MonitorSafe(env, p, read, held);
    SafeEventsDecided(env, p, read, Monitor(env, read, held).writes);
    ScanSafe(env, p, read, expiring, now);
    SafeEventsDecided(env, p, read, Scan(env, read, expiring, now).writes);
    RotateSafe(env, p, read, stored, dryRun);
    SafeEventsDecided(env, p, read, Rotate(env, read, stored, dryRun));
  }

  lemma SignatureDecides(env: Env, read: State, version: Uuid, tenant: Uuid, signature: Uuid, kind: string, finding: Finding, now: int)
    ensures AllDecided(env, read, PlanSignature(env, read, version, tenant, signature, kind, finding, now).writes)
  {
    var ws := PlanSignature(env, read, version, tenant, signature, kind, finding, now).writes;
    if ws != [] {
      ThreeMembers("signature_id", Str(signature), "verification_status", Str(finding.status), "signature_type", Str(kind));
      TwoDecided(env, read, ws[0], ws[1]);
    }
  }

  /** A request whose writes are all decided writes: not an upload, a package or a watermark, whose files go
      under keys of their own. */
  predicate Decides(read: State, op: Op) {
    && !op.UploadDocument? && !op.PackageAudit? && !op.ApplyWatermark?
    && (op.UpdateDocument? && op.changes.metadata.Some? ==> WellFormed(op.changes.metadata.value))
    && (op.ScanExpiry? ==> forall i :: 0 <= i < |op.expiring| ==> op.expiring[i].id in read.docs)
  }

  /** Every write of such a request is a decided write of what it reads, on any state at all. */
  lemma PlanDecides(env: Env, read: State, op: Op, now: Clock)
    requires Decides(read, op)
    ensures AllDecided(env, read, PlanOf(env, read, op, now).writes)
  {
    match op
    case DownloadDocument(id, tenant, actor) => DownloadDecides(env, read, id, tenant, actor);
    case DeleteDocument(id, tenant, actor, purge) => DeleteDecides(env, read, id, tenant, actor, purge, now);
    case RestoreDocument(id, tenant, actor) => RestoreDecides(env, read, id, tenant, actor, now);
    case UpdateDocument(id, tenant, actor, c) => UpdateDecides(env, read, id, tenant, actor, c, now);
    case PlaceHold(id, tenant, actor, reason, hold) => PlaceDecides(env, read, id, tenant, actor, reason, hold, now);
    case ReleaseHold(hold, tenant) => ReleaseDecides(env, read, hold, tenant, now);
    case CreatePolicy(id, policy) => OneDecided(env, read, InsertPolicy(id, policy));
    case ApplyPolicy(id, tenant, policyId) => ApplyPolicyDecides(env, read, id, tenant, policyId, now(0));
    case CreateShare(share, id, actor, token, terms) => CreateShareDecides(env, read, share, id, actor, token, terms, now(0));
    case RevokeShare(share) => RevokeShareDecides(env, read, share, now(0));
    case DownloadShared(token) => SharedDownloadDecides(env, read, token, now(0));
    case MonitorHolds(held) => LoopsDecide(env, read, held, [], [], false, now(0));
    case ScanExpiry(expiring) => LoopsDecide(env, read, [], expiring, [], false, now(0));
    case RotateKeys(stored, dryRun) => LoopsDecide(env, read, [], [], stored, dryRun, now(0));
    case VerifySignature(version, tenant, signature, kind, finding) =>
      SignatureDecides(env, read, version, tenant, signature, kind, finding, now(0));
  }

  /** The audit events that uploads and packages end with are decided writes too. */
  lemma LastEventsDecided(env: Env, read: State, u: Upload, id: Uuid, tenant: Uuid, actor: Option<Uuid>, key: string, valid: bool, events: nat)
    requires u.doc in read.docs && id in read.docs
    ensures Decided(env, read, read, UploadAudit(env, read, u))
    ensures Decided(env, read, read, Append(env, read, DocumentResource(id), tenant, actor, AuditExported, PackagePayload(key, valid, events)))
  {
    TwoMembers("title", Str(u.title), "version_id", Str(u.version));
    ThreeMembers("package_key", Str(key), "chain_valid", Bool(valid), "event_count", Int(events));
  }
}
