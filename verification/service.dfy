/** internal/service/service.go in its own form: a service object over one database and one notifier, its
    candidate loops, its retry loop and its waiter registry. */
module Service {
  import opened Wrappers
  import opened Types
  import opened Validation
  import opened Match
  import opened Store
  import opened Ids
  import opened CandidateQuery
  import opened Scan
  import N = Notifier
  import M = NotifierModel

  datatype StoredTuple = StoredTuple(id: nat, space: string, tuple: Tuple)

  /** queryCandidates: decode the rows a candidate query returned. */
  method QueryCandidates(db: Database, rows: seq<nat>) returns (r: Result<seq<StoredTuple>, FieldError>)
    requires forall id :: id in rows ==> id in db.tables.tuples
    ensures db.Valid() ==> r.Ok?
    ensures db.Valid() ==> |r.value| == |rows| && forall i :: 0 <= i < |rows| ==>
      r.value[i] == StoredTuple(rows[i], db.live[rows[i]].space, db.live[rows[i]].tuple)
    ensures r.Err? ==>
      exists i :: 0 <= i < |rows| && FirstBadField(Unmarshal(db.tables.tuples[rows[i]].payload), r.error)
  {
    var stored: seq<StoredTuple> := [];
    for i := 0 to |rows|
      invariant |stored| == i
      invariant db.Valid() ==> forall j :: 0 <= j < i ==>
        stored[j] == StoredTuple(rows[j], db.live[rows[j]].space, db.live[rows[j]].tuple)
    {
      var row := db.tables.tuples[rows[i]];
      var tuple := DecodeTuple(row.payload);
      if db.Valid() {
        assert RowHolds(row, db.live[rows[i]]);
      }
      if tuple.Err? {
        return Err(tuple.error);
      }
      stored := stored + [StoredTuple(rows[i], row.space, tuple.value)];
    }
    return Ok(stored);
  }

  lemma CandidatesAreLive(live: map<nat, Entry>, space: string, template: Template, locked: set<nat>, limit: nat)
    ensures forall id :: id in Take(Candidates(live, space, template, locked), limit) ==> id in live
  {
    var all := Candidates(live, space, template, locked);
    forall id | id in Take(all, limit) ensures id in live {
      assert id in all;
    }
  }

  function CandidateIds(candidates: seq<StoredTuple>): seq<nat> {
    seq(|candidates|, i requires 0 <= i < |candidates| => candidates[i].id)
  }

  /** FindCandidates, and with `destructive` LockCandidatesForConsume: build the query, run it, decode. */
  method FindCandidates(db: Database, space: string, template: Template, limit: int, destructive: bool,
                        locked: set<nat>)
    returns (stored: seq<StoredTuple>)
    requires db.Valid() && ValidTemplate(template)
    ensures CandidateIds(stored) ==
      Take(Candidates(db.live, space, template, if destructive then locked else {}), EffectiveLimit(limit))
    ensures forall i :: 0 <= i < |stored| ==>
      stored[i].id in db.live && db.live[stored[i].id] == Entry(stored[i].space, stored[i].tuple)
  {
    ValidTemplateIsFixed(template);
    var query := BuildCandidateQuery(space, template, limit, destructive);
    assert query.Ok? by {
      forall i | 0 <= i < |template.fields| ensures ValidTemplateField(template.fields[i]) {}
    }
    var rows := Select(db.tables, query.value.0, query.value.1, locked);
    assert rows == Take(Candidates(db.live, space, template, if destructive then locked else {}),
      EffectiveLimit(limit));
    CandidatesAreLive(db.live, space, template, if destructive then locked else {}, EffectiveLimit(limit));
    var decoded := QueryCandidates(db, rows);
    assert CandidateIds(decoded.value) == rows;
    return decoded.value;
  }

  datatype ReadError = CommitFailed | QueryFailed

  datatype Hit = Hit(id: nat, tuple: Tuple, bindings: Bindings)

  /** The tuple `hit` is what a scan of `live` that skips `locked` rows should come back with. */
  ghost predicate HitOk(live: map<nat, Entry>, space: string, template: Template, hit: Hit) {
    && IsMatch(live, space, template, hit.id) && live[hit.id].tuple == hit.tuple
    && hit.bindings.Keys == FormalNames(template) && Instantiate(template, hit.bindings) == hit.tuple
  }

  /** The loop over candidates that readOnce and consumeOnce share. */
  method FirstMatching(ghost live: map<nat, Entry>, template: Template, candidates: seq<StoredTuple>)
    returns (r: Option<Hit>)
    requires NormalLive(live) && ValidTemplate(template)
    requires forall i :: 0 <= i < |candidates| ==>
      candidates[i].id in live && live[candidates[i].id] == Entry(candidates[i].space, candidates[i].tuple)
    ensures FirstMatch(live, template, CandidateIds(candidates)) ==
      match r case Some(hit) => Some(hit.id) case None => None
    ensures r.Some? ==> r.value.id in live && HitOk(live, live[r.value.id].space, template, r.value)
  {
    for i := 0 to |candidates|
      invariant FirstMatch(live, template, CandidateIds(candidates)) ==
                FirstMatch(live, template, CandidateIds(candidates[i..]))
    {
      var candidate := candidates[i];
      var bindings := Match.Match(template, candidate.tuple);
      assert CandidateIds(candidates[i..])[0] == candidate.id;
      assert CandidateIds(candidates[i..])[1..] == CandidateIds(candidates[i + 1..]);
      if bindings.Some? {
        return Some(Hit(candidate.id, candidate.tuple, bindings.value));
      }
    }
    return None;
  }

  datatype WaiterInfo = WaiterInfo(id: nat, space: string, operation: string, waitMS: nat, startedAt: int,
    template: Template)

  predicate Earlier(a: WaiterInfo, b: WaiterInfo) {
    a.startedAt < b.startedAt || (a.startedAt == b.startedAt && a.id < b.id)
  }

  /** `ret` lists waiters by start time, then id. */
  predicate InSnapshotOrder(ret: seq<WaiterInfo>) {
    forall i, j :: 0 <= i < j < |ret| ==> Earlier(ret[i], ret[j])
  }

  datatype ReadRequest = ReadRequest(space: string, template: Template, wait: int, destructive: bool)

  /** The record of a waiting call: what it asked for, and its wait in whole milliseconds. */
  predicate Files(w: WaiterInfo, req: ReadRequest) {
    && w.space == req.space && w.template == req.template
    && (w.operation == "in" <==> req.destructive) && (w.operation == "rd" <==> !req.destructive)
    && w.waitMS * 1_000_000 <= req.wait < (w.waitMS + 1) * 1_000_000
  }

  datatype OutError = Invalid(code: Code) | OutCommitFailed

  // ----- what goes on around a call to read -----

  /** What other committed transactions do to the store between two scans. */
  datatype Change = PutOut(entry: Entry) | TakenAway(id: nat)

  datatype World = World(live: map<nat, Entry>, nextId: nat)

  function Changed(w: World, change: Change): World {
    match change
    case PutOut(entry) => World(w.live[w.nextId := entry], w.nextId + 1)
    case TakenAway(id) => World(w.live - {id}, w.nextId)
  }

  function ChangedAll(w: World, changes: seq<Change>): World {
    if changes == [] then w else Changed(ChangedAll(w, changes[..|changes| - 1]), changes[|changes| - 1])
  }

  datatype Ending = Deadline | Cancelled

  datatype WakeResult = Token | Ended(how: Ending)

  /** One turn of the loop: the store changes, the scan meets `locked` rows and may fail, the notifier delivers
      notifications on these channels, and the context may end. */
  datatype Turn = Turn(others: seq<Change>, locked: set<nat>, queryFails: bool, commitFails: bool,
                       delivered: seq<string>, ends: Option<Ending>)

  /** What the select of this turn sees; a call nobody notifies waits for its deadline. */
  function WakeOf(turn: Turn, channel: string): WakeResult {
    if turn.ends.Some? then Ended(turn.ends.value)
    else if channel in turn.delivered then Token
    else Ended(Deadline)
  }

  /** Other transactions put out validated tuples only. */
  ghost predicate ChangesOk(changes: seq<Change>) {
    forall j :: 0 <= j < |changes| && changes[j].PutOut? ==> ValidTuple(changes[j].entry.tuple)
  }

  ghost predicate TurnsOk(turns: seq<Turn>) {
    turns != [] && forall i :: 0 <= i < |turns| ==> ChangesOk(turns[i].others)
  }

  /** The store as scan n sees it, when no earlier scan found anything. */
  function SeenBy(w: World, turns: seq<Turn>, n: nat): World
    requires n < |turns|
    decreases n
  {
    var seen := ChangedAll(w, turns[0].others);
    if n == 0 then seen else SeenBy(seen, turns[1..], n - 1)
  }

  lemma {:induction false} ChangesKeepNormal(w: World, changes: seq<Change>)
    requires NormalLive(w.live) && ChangesOk(changes)
    ensures NormalLive(ChangedAll(w, changes).live)
  {
    if changes != [] {
      ChangesKeepNormal(w, changes[..|changes| - 1]);
    }
  }

  lemma {:induction false} SeenIsNormal(w: World, turns: seq<Turn>, n: nat)
    requires n < |turns| && NormalLive(w.live) && TurnsOk(turns)
    ensures NormalLive(SeenBy(w, turns, n).live)
    decreases n
  {
    ChangesKeepNormal(w, turns[0].others);
    if n > 0 {
      SeenIsNormal(ChangedAll(w, turns[0].others), turns[1..], n - 1);
    }
  }

  datatype ReadOutcome =
    | Rejected(code: Code) | NegativeWait | SubscribeFailed
    | Got(hit: Hit) | NotFound | TimedOut | Aborted

  /** Not one of the outcomes a call has before its first scan. */
  predicate Scanned(outcome: ReadOutcome) {
    outcome.Got? || outcome.NotFound? || outcome.TimedOut? || outcome.Aborted?
  }

  const NANOS_PER_MS := 1_000_000

  /** The whole milliseconds of a duration in nanoseconds. */
  function Milliseconds(wait: nat): (ms: nat)
    ensures ms * 1_000_000 <= wait < (ms + 1) * 1_000_000
  {
    wait / NANOS_PER_MS
  }

  /** A call to `read` in its service: the request, the candidate limit and the channel of its space. */
  datatype Call = Call(req: ReadRequest, limit: nat, channel: string)

  datatype Verdict = Broken | Nothing | Finds(id: nat)

  /** What a scan of `live` in this turn comes to. */
  ghost function VerdictOf(live: map<nat, Entry>, call: Call, turn: Turn): Verdict {
    if turn.queryFails then Broken
    else
      match Pick(live, call.req.space, call.req.template, if call.req.destructive then turn.locked else {}, call.limit)
      case None => Nothing
      case Some(id) => if call.req.destructive && turn.commitFails then Broken else Finds(id)
  }

  /** The scan of `live` in this turn came back with r and left `after`. */
  ghost predicate ScanCameBack(live: map<nat, Entry>, call: Call, turn: Turn,
                               r: Result<Option<Hit>, ReadError>, after: map<nat, Entry>) {
    match VerdictOf(live, call, turn)
    case Broken => r.Err? && after == live
    case Nothing => r == Ok(None) && after == live
    case Finds(id) =>
      && r.Ok? && r.value.Some? && r.value.value.id == id
      && HitOk(live, call.req.space, call.req.template, r.value.value)
      && after == if call.req.destructive then live - {id} else live
  }

  /** The outcome of a call whose last scan is that of `live` in this turn. */
  ghost predicate LastScan(live: map<nat, Entry>, call: Call, turn: Turn,
                           outcome: ReadOutcome, after: map<nat, Entry>) {
    match VerdictOf(live, call, turn)
    case Broken => outcome == Aborted && after == live
    case Finds(id) =>
      && outcome.Got? && outcome.hit.id == id && HitOk(live, call.req.space, call.req.template, outcome.hit)
      && after == if call.req.destructive then live - {id} else live
    case Nothing =>
      && after == live
      && outcome == if call.req.wait == 0 then NotFound
                    else if WakeOf(turn, call.channel) == Ended(Cancelled) then Aborted else TimedOut
  }

  /** A notification came in time after a scan that found nothing. */
  ghost predicate GoesRound(live: map<nat, Entry>, call: Call, turns: seq<Turn>)
    requires turns != []
  {
    call.req.wait != 0 && VerdictOf(live, call, turns[0]) == Nothing && WakeOf(turns[0], call.channel) == Token &&
      |turns| > 1
  }

  /** The first scan finds nothing and the call waits. */
  ghost predicate ComesToWait(w: World, call: Call, turns: seq<Turn>)
    requires turns != []
  {
    call.req.wait != 0 && VerdictOf(ChangedAll(w, turns[0].others).live, call, turns[0]) == Nothing
  }

  /** The loop from world w returns `outcome` after `scans` scans and leaves the live tuples `after`.
      Turns that run out stand for the deadline. */
  ghost predicate Settles(w: World, call: Call, turns: seq<Turn>, scans: nat,
                          outcome: ReadOutcome, after: map<nat, Entry>)
    requires turns != []
    decreases |turns|
  {
    var seen := ChangedAll(w, turns[0].others);
    if GoesRound(seen.live, call, turns)
    then scans > 1 && Settles(seen, call, turns[1..], scans - 1, outcome, after)
    else scans == 1 && LastScan(seen.live, call, turns[0], outcome, after)
  }

  /** How a turn goes on from what its scan came back with. */
  lemma TurnSettles(w: World, call: Call, rest: seq<Turn>, r: Result<Option<Hit>, ReadError>, after: map<nat, Entry>)
    requires rest != [] && ScanCameBack(ChangedAll(w, rest[0].others).live, call, rest[0], r, after)
    ensures r.Err? ==> Settles(w, call, rest, 1, Aborted, after)
    ensures r.Ok? && r.value.Some? ==> Settles(w, call, rest, 1, Got(r.value.value), after)
    ensures r == Ok(None) && call.req.wait == 0 ==> Settles(w, call, rest, 1, NotFound, after)
    ensures r == Ok(None) && call.req.wait != 0 ==>
      var wake := WakeOf(rest[0], call.channel);
      if wake == Token && |rest| > 1 then after == ChangedAll(w, rest[0].others).live && GoesRound(after, call, rest)
      else Settles(w, call, rest, 1, if wake == Ended(Cancelled) then Aborted else TimedOut, after)
    ensures r == Ok(None) && call.req.wait != 0 <==> ComesToWait(w, call, rest)
  {
  }

  /** Only the last scan counts: all before it found nothing and were followed by a notification. */
  lemma {:induction false} SettledByLastScan(w: World, call: Call, turns: seq<Turn>, scans: nat,
                                             outcome: ReadOutcome, after: map<nat, Entry>)
    requires turns != [] && Settles(w, call, turns, scans, outcome, after)
    ensures 0 < scans <= |turns| && (call.req.wait == 0 ==> scans == 1)
    ensures LastScan(SeenBy(w, turns, scans - 1).live, call, turns[scans - 1], outcome, after)
    ensures forall i :: 0 <= i < scans - 1 ==>
      && VerdictOf(SeenBy(w, turns, i).live, call, turns[i]) == Nothing && WakeOf(turns[i], call.channel) == Token
      && turns[i].ends.None? && call.channel in turns[i].delivered
    decreases |turns|
  {
    var seen := ChangedAll(w, turns[0].others);
    if GoesRound(seen.live, call, turns) {
      SettledByLastScan(seen, call, turns[1..], scans - 1, outcome, after);
      forall i | 0 <= i < scans - 1
        ensures VerdictOf(SeenBy(w, turns, i).live, call, turns[i]) == Nothing &&
          WakeOf(turns[i], call.channel) == Token
        ensures turns[i].ends.None? && call.channel in turns[i].delivered
      {
        if i > 0 { assert turns[i] == turns[1..][i - 1]; }
      }
    }
  }

  /** Why a call ends without a tuple: "not found" only without a wait, a timeout only with one and only when the
      deadline came, no notification did, or the turns ran out, and an error only when one happened. */
  lemma WhyReadEnds(w: World, call: Call, turns: seq<Turn>, scans: nat, outcome: ReadOutcome, after: map<nat, Entry>)
    requires turns != [] && Settles(w, call, turns, scans, outcome, after)
    ensures 0 < scans <= |turns|
    ensures var last := turns[scans - 1];
      && (outcome.NotFound? ==> call.req.wait == 0)
      && (outcome.TimedOut? ==>
            && call.req.wait != 0 && last.ends != Some(Cancelled)
            && (last.ends == Some(Deadline) || call.channel !in last.delivered || scans == |turns|))
      && (outcome.Aborted? ==>
            last.queryFails || (call.req.destructive && last.commitFails) ||
            (call.req.wait != 0 && last.ends == Some(Cancelled)))
    decreases |turns|
  {
    hide Pick;
    var seen := ChangedAll(w, turns[0].others);
    if GoesRound(seen.live, call, turns) {
      WhyReadEnds(seen, call, turns[1..], scans - 1, outcome, after);
      assert turns[1..][scans - 2] == turns[scans - 1];
    } else if outcome.TimedOut? {
      assert VerdictOf(seen.live, call, turns[0]) == Nothing;
      assert WakeOf(turns[0], call.channel) == Token ==> |turns| == 1;
      assert turns[0].ends.Some? ==> turns[0].ends.value == Deadline || turns[0].ends.value == Cancelled;
    }
  }

  /** The loop gets from world w to world `now` in n turns that all go round. */
  ghost predicate Rounds(w: World, call: Call, turns: seq<Turn>, n: nat, now: World)
    decreases n
  {
    if n == 0 then now == w
    else
      && n < |turns|
      && var seen := ChangedAll(w, turns[0].others);
         GoesRound(seen.live, call, turns) && Rounds(seen, call, turns[1..], n - 1, now)
  }

  /** One more turn that goes round, or one that ends the call. */
  lemma {:induction false} AfterRounds(w: World, call: Call, turns: seq<Turn>, n: nat, now: World,
                                       next: World, outcome: ReadOutcome, after: map<nat, Entry>)
    requires n < |turns| && Rounds(w, call, turns, n, now)
    ensures GoesRound(next.live, call, turns[n..]) && next == ChangedAll(now, turns[n].others) ==>
      Rounds(w, call, turns, n + 1, next)
    ensures Settles(now, call, turns[n..], 1, outcome, after) ==> Settles(w, call, turns, n + 1, outcome, after)
    decreases n
  {
    if n == 0 {
      assert turns[0..] == turns;
    } else {
      assert turns[1..][n - 1..] == turns[n..];
      AfterRounds(ChangedAll(w, turns[0].others), call, turns[1..], n - 1, now, next, outcome, after);
    }
  }

  /** The truth about the tuples `live` that a scan skipping `locked` rows leaves its caller with: a tuple it
      got is the lowest match it could take; otherwise every match is locked or beyond the candidate limit. */
  ghost predicate Truth(live: map<nat, Entry>, locked: set<nat>, call: Call,
                        outcome: ReadOutcome, after: map<nat, Entry>) {
    && (outcome.Got? ==>
          && outcome.hit.id !in locked && IsMatch(live, call.req.space, call.req.template, outcome.hit.id)
          && (forall m: nat :: IsMatch(live, call.req.space, call.req.template, m) && m !in locked ==>
            outcome.hit.id <= m)
          && |after| == |live| - (if call.req.destructive then 1 else 0))
    && (outcome.NotFound? || outcome.TimedOut? ==>
          forall m: nat :: IsMatch(live, call.req.space, call.req.template, m) ==>
            m in locked ||
            (BeyondLimit(live, call.req.space, call.req.template, locked, call.limit, m) &&
              !AllActual(call.req.template)))
  }

  lemma LastScanTells(live: map<nat, Entry>, call: Call, turn: Turn,
                      outcome: ReadOutcome, after: map<nat, Entry>)
    requires call.limit > 0 && ValidTemplate(call.req.template) && NormalLive(live)
    requires LastScan(live, call, turn, outcome, after)
    ensures Truth(live, if call.req.destructive then turn.locked else {}, call, outcome, after)
  {
    var locked := if call.req.destructive then turn.locked else {};
    if outcome.Got? {
      PickFound(live, call.req.space, call.req.template, locked, call.limit);
      var rest := live - {outcome.hit.id};
      assert rest.Keys == live.Keys - {outcome.hit.id} && |rest.Keys| == |rest| && |live.Keys| == |live|;
    } else if outcome.NotFound? || outcome.TimedOut? {
      PickMissed(live, call.req.space, call.req.template, locked, call.limit);
      if AllActual(call.req.template) {
        NotFoundIsReliable(live, call.req.space, call.req.template, locked, call.limit);
      }
    }
  }

  /** What a caller of `read` can conclude about the store its last scan saw. */
  lemma ReadTellsTheTruth(w: World, call: Call, turns: seq<Turn>, scans: nat,
                          outcome: ReadOutcome, after: map<nat, Entry>)
    requires 0 < scans <= |turns| && Settles(w, call, turns, scans, outcome, after)
    requires call.limit > 0 && ValidTemplate(call.req.template) && NormalLive(w.live) && TurnsOk(turns)
    ensures Truth(SeenBy(w, turns, scans - 1).live, if call.req.destructive then turns[scans - 1].locked else {},
                  call, outcome, after)
  {
    SettledByLastScan(w, call, turns, scans, outcome, after);
    SeenIsNormal(w, turns, scans - 1);
    LastScanTells(SeenBy(w, turns, scans - 1).live, call, turns[scans - 1], outcome, after);
  }

  /** The place of `w` in an ordered list. */
  function InsertByStart(ret: seq<WaiterInfo>, w: WaiterInfo): (out: seq<WaiterInfo>)
    ensures forall x :: x in out <==> x in ret || x == w
    ensures InSnapshotOrder(ret) && (forall x :: x in ret ==> x.id != w.id) ==> InSnapshotOrder(out)
  {
    if ret == [] then [w]
    else if Earlier(w, ret[0]) then [w] + ret
    else
      var rest := InsertByStart(ret[1..], w);
      assert ret == [ret[0]] + ret[1..];
      assert forall x :: x in rest ==> x in ret[1..] || x == w;
      assert InSnapshotOrder(ret) ==> forall x :: x in ret[1..] ==> Earlier(ret[0], x);
      [ret[0]] + rest
  }

  class Service {
    const db: Database
    const candidateLimit: nat
    const channelName: string -> string
    const notifier: N.Notifier
    var nextWaiterID: nat
    var activeWaiters: map<nat, WaiterInfo>

    /** Waiter ids are not above the counter, and each waiter is filed under its own id. */
    ghost predicate RegistryOk()
      reads this
    {
      forall id :: id in activeWaiters ==> 0 < id <= nextWaiterID && activeWaiters[id].id == id
    }

    constructor (db: Database, notifier: N.Notifier, candidateLimit: int, channelName: string -> string)
      ensures this.db == db && this.notifier == notifier && this.channelName == channelName
      ensures this.candidateLimit == (if candidateLimit <= 0 then 64 else candidateLimit) > 0
      ensures RegistryOk() && activeWaiters == map[]
    {
      this.db, this.notifier, this.channelName := db, notifier, channelName;
      this.candidateLimit := if candidateLimit <= 0 then 64 else candidateLimit;
      nextWaiterID, activeWaiters := 0, map[];
    }

    /** `out`: one transaction that stores the normalised tuple and notifies its space's channel; both happen
        or neither does. */
    method Out(space: string, tuple: Tuple, now: int, commitSucceeds: bool) returns (r: Result<nat, OutError>)
      requires db.Valid()
      modifies db
      ensures db.Valid() && db.nextId >= old(db.nextId)
      ensures r.Ok? <==>
        && ValidSpace(space) && tuple.fields != [] && commitSucceeds
        && forall i :: 0 <= i < |tuple.fields| ==> HasValue(tuple.fields[i].ty, tuple.fields[i].value)
      ensures !ValidSpace(space) ==> r == Err(Invalid(InvalidSpace))
      ensures r.Ok? ==> r.value == old(db.nextId) && db.sent == old(db.sent) + [channelName(space)]
      ensures r.Ok? ==> exists out ::
        TupleStandsFor(tuple, out) && db.live == old(db.live)[r.value := Entry(space, out)]
      ensures r.Ok? ==> r.value in db.tables.tuples && db.tables.tuples[r.value].createdAt == now
      ensures r.Err? ==> db.live == old(db.live) && db.tables == old(db.tables) && db.sent == old(db.sent)
    {
      if !ValidSpace(space) {
        return Err(Invalid(InvalidSpace));
      }
      var normalized := ValidateTuple(tuple);
      if normalized.Err? {
        return Err(Invalid(normalized.error));
      }
      var saved, savedSent := db.tables, db.sent;
      ghost var savedLive := db.live;
      var id := db.InsertTuple(space, normalized.value, now);
      assert id.Ok?;   // a validated tuple has supported types only
      db.Notify(channelName(space));
      if !commitSucceeds {
        db.Rollback(saved, savedSent, savedLive);
        return Err(OutCommitFailed);
      }
      return Ok(id.value);
    }

    lemma LiveIsNormal()
      requires db.Valid()
      ensures NormalLive(db.live)
    {
      forall id | id in db.live ensures NormalTuple(db.live[id].tuple) {
        assert RowHolds(db.tables.tuples[id], db.live[id]);
      }
    }

    /** Build the query, run it, decode, match: what both kinds of read do first. */
    method ScanOnce(space: string, template: Template, destructive: bool, locked: set<nat>)
      returns (r: Result<Option<Hit>, ReadError>)
      requires db.Valid() && ValidTemplate(template) && candidateLimit > 0
      ensures r.Ok?
      ensures Pick(db.live, space, template, if destructive then locked else {}, candidateLimit) ==
              match r.value case Some(hit) => Some(hit.id) case None => None
      ensures r.value.Some? ==> HitOk(db.live, space, template, r.value.value)
    {
      LiveIsNormal();
      var candidates := FindCandidates(db, space, template, candidateLimit, destructive, locked);
      var hit := FirstMatching(db.live, template, candidates);
      if hit.Some? {
        PickFound(db.live, space, template, if destructive then locked else {}, candidateLimit);
      }
      return Ok(hit);
    }

    /** `readOnce`: found is the lowest match of the space; not found leaves only matches beyond the limit. */
    method ReadOnce(space: string, template: Template) returns (r: Result<Option<Hit>, ReadError>)
      requires db.Valid() && ValidTemplate(template) && candidateLimit > 0
      ensures r.Ok?
      ensures Pick(db.live, space, template, {}, candidateLimit) ==
              match r.value case Some(hit) => Some(hit.id) case None => None
      ensures r.value.Some? ==> HitOk(db.live, space, template, r.value.value)
      ensures r.value.Some? ==> forall m: nat :: IsMatch(db.live, space, template, m) ==> r.value.value.id <= m
      ensures r.value.None? ==> forall m: nat :: IsMatch(db.live, space, template, m) ==>
        BeyondLimit(db.live, space, template, {}, candidateLimit, m) && !AllActual(template)
    {
      var hit := ScanOnce(space, template, false, {});
      LiveIsNormal();
      if hit.Ok? && hit.value.Some? {
        PickFound(db.live, space, template, {}, candidateLimit);
      } else if hit.Ok? {
        PickMissed(db.live, space, template, {}, candidateLimit);
        if AllActual(template) {
          NotFoundIsReliable(db.live, space, template, {}, candidateLimit);
        }
      }
      return hit;
    }

    /** `consumeOnce`: the transaction removes exactly the lowest unlocked match, or changes nothing; either way it
        notifies nobody.
        `locked` are the rows other transactions hold. */
    method ConsumeOnce(space: string, template: Template, locked: set<nat>, commitSucceeds: bool)
      returns (r: Result<Option<Hit>, ReadError>)
      requires db.Valid() && ValidTemplate(template) && candidateLimit > 0
      modifies db
      ensures db.Valid() && db.nextId == old(db.nextId) && db.sent == old(db.sent)
      ensures match Pick(old(db.live), space, template, locked, candidateLimit)
              case None => r == Ok(None)
              case Some(id) => if commitSucceeds then r.Ok? && r.value.Some? && r.value.value.id == id else r.Err?
      ensures r.Ok? && r.value.Some? ==>
        && HitOk(old(db.live), space, template, r.value.value) && r.value.value.id !in locked
        && (forall m: nat :: IsMatch(old(db.live), space, template, m) && m !in locked ==> r.value.value.id <= m)
        && db.live == old(db.live) - {r.value.value.id} && |db.live| + 1 == |old(db.live)|
      ensures r.Ok? && r.value.None? ==>
        && db.live == old(db.live) && db.tables == old(db.tables)
        && forall m: nat :: IsMatch(db.live, space, template, m) ==>
             m in locked || BeyondLimit(db.live, space, template, locked, candidateLimit, m)
      ensures r.Err? ==> db.live == old(db.live) && db.tables == old(db.tables) && !commitSucceeds
    {
      var saved, savedSent := db.tables, db.sent;
      ghost var before := db.live;
      var hit := ScanOnce(space, template, true, locked);
      LiveIsNormal();
      if hit.value.None? {
        PickMissed(before, space, template, locked, candidateLimit);
        return hit;
      }
      PickFound(before, space, template, locked, candidateLimit);
      var affected := db.DeleteTuple(hit.value.value.id);
      assert affected == 1;
      if !commitSucceeds {
        db.Rollback(saved, savedSent, before);
        return Err(CommitFailed);
      }
      assert db.live.Keys == before.Keys - {hit.value.value.id};
      assert |db.live.Keys| == |db.live| && |before.Keys| == |before|;
      return hit;
    }

    method RegisterWaiter(space: string, template: Template, waitMS: nat, destructive: bool, now: int) returns (id: nat)
      requires RegistryOk()
      modifies this`nextWaiterID, this`activeWaiters
      ensures RegistryOk()
      ensures nextWaiterID == old(nextWaiterID) + 1 && id == nextWaiterID && id !in old(activeWaiters)
      ensures activeWaiters == old(activeWaiters)[id :=
        WaiterInfo(id, space, if destructive then "in" else "rd", waitMS, now, template)]
    {
      nextWaiterID := nextWaiterID + 1;
      id := nextWaiterID;
      var operation := "rd";
      if destructive {
        operation := "in";
      }
      activeWaiters := activeWaiters[id := WaiterInfo(id, space, operation, waitMS, now, template)];
    }

    method UnregisterWaiter(id: nat)
      requires RegistryOk()
      modifies this`activeWaiters
      ensures RegistryOk() && activeWaiters == old(activeWaiters) - {id}
    {
      activeWaiters := activeWaiters - {id};
    }

    /** The waiters, each exactly once, by start time and then id. */
    method WaitersSnapshot() returns (ret: seq<WaiterInfo>)
      requires RegistryOk()
      ensures forall i, j :: 0 <= i < j < |ret| ==>
        ret[i].startedAt < ret[j].startedAt || (ret[i].startedAt == ret[j].startedAt && ret[i].id < ret[j].id)
      ensures forall w :: w in ret <==> w.id in activeWaiters && activeWaiters[w.id] == w
    {
      ret := [];
      var todo := activeWaiters.Keys;
      while todo != {}
        invariant todo <= activeWaiters.Keys
        invariant InSnapshotOrder(ret)
        invariant forall w :: w in ret <==> w.id in activeWaiters && w.id !in todo && activeWaiters[w.id] == w
        decreases |todo|
      {
        var id :| id in todo;
        ret := InsertByStart(ret, activeWaiters[id]);
        todo := todo - {id};
      }
    }

    /** What other transactions commit meanwhile. */
    method Interfere(changes: seq<Change>, now: int)
      requires db.Valid() && ChangesOk(changes)
      modifies db
      ensures db.Valid() && World(db.live, db.nextId) == ChangedAll(old(World(db.live, db.nextId)), changes)
    {
      for j := 0 to |changes|
        invariant db.Valid() && World(db.live, db.nextId) == ChangedAll(old(World(db.live, db.nextId)), changes[..j])
      {
        assert changes[..j + 1][..j] == changes[..j];
        match changes[j] {
          case PutOut(entry) =>
            var id := db.InsertTuple(entry.space, entry.tuple, now);
            db.Notify(channelName(entry.space));
          case TakenAway(id) => var affected := db.DeleteTuple(id);
        }
      }
      assert changes[..|changes|] == changes;
    }

    /** This service's view of a request. */
    function CallOf(req: ReadRequest): Call {
      Call(req, candidateLimit, channelName(req.space))
    }

    /** The scan of one turn, for either kind of read, after what others did. */
    method ScanTurn(req: ReadRequest, turn: Turn, now: int) returns (r: Result<Option<Hit>, ReadError>)
      requires db.Valid() && ValidTemplate(req.template) && candidateLimit > 0 && ChangesOk(turn.others)
      modifies db
      ensures db.Valid()
      ensures var seen := ChangedAll(old(World(db.live, db.nextId)), turn.others);
        db.nextId == seen.nextId && ScanCameBack(seen.live, CallOf(req), turn, r, db.live)
    {
      Interfere(turn.others, now);
      if turn.queryFails {
        return Err(QueryFailed);
      }
      if req.destructive {
        r := ConsumeOnce(req.space, req.template, turn.locked, !turn.commitFails);
      } else {
        r := ReadOnce(req.space, req.template);
      }
    }

    /** The notifier is sound, and the subscription of a waiting call is registered on its channel. */
    ghost predicate Listens(sub: Option<N.Subscription>, channel: string)
      reads notifier, notifier.known
    {
      && notifier.Valid()
      && (sub.Some? ==> sub.value in notifier.known && !sub.value.closed && sub.value.channel == channel)
    }

    /** At the top of the loop the wakeup channel is empty. */
    ghost predicate AtTop(sub: Option<N.Subscription>, channel: string)
      reads notifier, notifier.known
    {
      Listens(sub, channel) && (sub.Some? ==> sub.value.tokens == 0)
    }

    /** The select of `read`: the notifier delivers, and the call takes its token unless its context has ended. */
    method Await(sub: N.Subscription, turn: Turn, ghost channel: string) returns (wake: WakeResult)
      requires AtTop(Some(sub), channel)
      modifies notifier.known
      ensures Listens(Some(sub), channel)
      ensures wake == WakeOf(turn, channel) && (wake == Token ==> AtTop(Some(sub), channel))
    {
      ghost var before := notifier.Abs();
      assert before.subs[sub] == sub.Abs();
      notifier.DeliverEach(turn.delivered);
      M.DeliverAllMeaning(before, turn.delivered, sub);
      assert notifier.Abs().subs[sub] == sub.Abs();
      if turn.ends.Some? {
        return Ended(turn.ends.value);
      }
      if sub.tokens == 0 {
        return Ended(Deadline);
      }
      notifier.Receive(sub);
      assert notifier.Abs().subs[sub] == sub.Abs();
      return Token;
    }

    /** One turn of the loop: the scan, and unless that settles the call, the wait in the select. */
    method TakeTurn(req: ReadRequest, sub: Option<N.Subscription>, rest: seq<Turn>, waiter: Option<nat>, now: int)
      returns (answer: Option<ReadOutcome>, registered: Option<nat>)
      requires db.Valid() && RegistryOk() && ValidTemplate(req.template) && candidateLimit > 0
      requires TurnsOk(rest) && req.wait >= 0 && (sub.None? <==> req.wait == 0) && AtTop(sub, channelName(req.space))
      modifies db, this`nextWaiterID, this`activeWaiters, notifier.known
      ensures db.Valid() && RegistryOk() && Listens(sub, channelName(req.space))
      ensures answer.Some? ==>
        Scanned(answer.value) && Settles(old(World(db.live, db.nextId)), CallOf(req), rest, 1, answer.value, db.live)
      ensures answer.None? ==>
        && AtTop(sub, channelName(req.space)) && registered.Some?
        && World(db.live, db.nextId) == ChangedAll(old(World(db.live, db.nextId)), rest[0].others)
        && GoesRound(db.live, CallOf(req), rest)
      ensures registered == waiter ==> activeWaiters == old(activeWaiters) && nextWaiterID == old(nextWaiterID)
      ensures registered != waiter ==>
        && waiter.None? && registered == Some(nextWaiterID) && nextWaiterID == old(nextWaiterID) + 1
        && activeWaiters - {nextWaiterID} == old(activeWaiters)
        && nextWaiterID in activeWaiters && Files(activeWaiters[nextWaiterID], req)
        && activeWaiters[nextWaiterID].startedAt == now
      ensures registered.Some? <==> waiter.Some? || ComesToWait(old(World(db.live, db.nextId)), CallOf(req), rest)
    {
      hide Pick, VerdictOf, ScanCameBack, Settles, GoesRound, ComesToWait;   // TurnSettles says what matters of them
      registered := waiter;
      var found := ScanTurn(req, rest[0], now);
      TurnSettles(old(World(db.live, db.nextId)), CallOf(req), rest, found, db.live);
      if found.Err? {
        return Some(Aborted), registered;
      }
      if found.value.Some? {
        return Some(Got(found.value.value)), registered;
      }
      if req.wait == 0 {
        return Some(NotFound), registered;
      }
      if registered.None? {
        var id := RegisterWaiter(req.space, req.template, Milliseconds(req.wait), req.destructive, now);
        assert activeWaiters - {id} == old(activeWaiters);
        registered := Some(id);
      }
      var wake := Await(sub.value, rest[0], channelName(req.space));
      if wake == Token && |rest| > 1 {
        return None, registered;
      }
      return Some(if wake == Ended(Cancelled) then Aborted else TimedOut), registered;
    }

    /** `read` without the checks: the retry loop, over a store that others change between the scans, and the
        deferred unregisterWaiter. */
    method ReadLoop(req: ReadRequest, sub: Option<N.Subscription>, turns: seq<Turn>, now: int)
      returns (outcome: ReadOutcome, scans: nat)
      requires db.Valid() && RegistryOk() && ValidTemplate(req.template) && candidateLimit > 0
      requires TurnsOk(turns) && req.wait >= 0 && (sub.None? <==> req.wait == 0) && AtTop(sub, channelName(req.space))
      modifies db, this`nextWaiterID, this`activeWaiters, notifier.known
      ensures db.Valid() && RegistryOk() && activeWaiters == old(activeWaiters) && Listens(sub, channelName(req.space))
      ensures Scanned(outcome) && Settles(old(World(db.live, db.nextId)), CallOf(req), turns, scans, outcome, db.live)
      ensures nextWaiterID == old(nextWaiterID)
              + if ComesToWait(old(World(db.live, db.nextId)), CallOf(req), turns) then 1 else 0
    {
      hide Pick, VerdictOf, Settles, GoesRound, ComesToWait;   // what a scan finds plays no part here
      ghost var w := World(db.live, db.nextId);
      var waiter: Option<nat> := None;
      scans := 0;
      while true
        invariant db.Valid() && RegistryOk() && scans < |turns| && AtTop(sub, channelName(req.space))
        invariant Rounds(w, CallOf(req), turns, scans, World(db.live, db.nextId))
        invariant waiter.Some? <==> scans > 0
        invariant waiter.None? ==> activeWaiters == old(activeWaiters) && nextWaiterID == old(nextWaiterID)
        invariant waiter.Some? ==>
          && activeWaiters - {waiter.value} == old(activeWaiters) && nextWaiterID == old(nextWaiterID) + 1
          && waiter.value in activeWaiters && Files(activeWaiters[waiter.value], req)
          && ComesToWait(w, CallOf(req), turns)
        decreases |turns| - scans
      {
        ghost var before := World(db.live, db.nextId);
        assert scans == 0 ==> turns[scans..] == turns;
        var answer;
        answer, waiter := TakeTurn(req, sub, turns[scans..], waiter, now);
        AfterRounds(w, CallOf(req), turns, scans, before, World(db.live, db.nextId),
                    if answer.Some? then answer.value else NotFound, db.live);
        scans := scans + 1;
        if answer.Some? {
          outcome := answer.value;
          break;
        }
      }
      if waiter.Some? {
        UnregisterWaiter(waiter.value);
      }
    }

    /** The deferred sub.Close: the notifier's registry is as it was before the subscription. */
    method CloseSubscription(sub: N.Subscription, channel: string, ghost before: M.State<N.Subscription>,
                             unlisten: M.CommandResult)
      requires Listens(Some(sub), channel) && !notifier.closed
      requires M.Inv(before) && sub !in before.subs
      requires notifier.refCounts == M.AddSubscriber(before, sub, channel).refCounts
      requires notifier.subscribers == M.AddSubscriber(before, sub, channel).subscribers
      modifies notifier, sub
      ensures notifier.Valid() && M.SameRegistry(before, notifier.Abs())
    {
      assert notifier.Abs().subs[sub] == sub.Abs();
      M.ComesAndGoes(before, sub, channel, notifier.Abs(), unlisten);
      var ok := notifier.Unsubscribe(sub, unlisten);
    }

    /** `read` after the checks, with a wait: subscribe, loop, close the subscription. */
    method SubscribedRead(req: ReadRequest, listen: M.CommandResult, unlisten: M.CommandResult, turns: seq<Turn>,
                          now: int)
      returns (outcome: ReadOutcome, scans: nat)
      requires db.Valid() && RegistryOk() && TurnsOk(turns) && candidateLimit > 0
      requires ValidTemplate(req.template) && req.wait > 0 && notifier.Valid() && !notifier.closed
      modifies db, this`nextWaiterID, this`activeWaiters, notifier, notifier.known
      ensures db.Valid() && RegistryOk() && activeWaiters == old(activeWaiters)
      ensures notifier.Valid() && M.SameRegistry(old(notifier.Abs()), notifier.Abs())
      ensures if M.ListenFails(old(notifier.Abs()), channelName(req.space), listen)
              then
                && outcome == SubscribeFailed && scans == 0
                && db.live == old(db.live) && nextWaiterID == old(nextWaiterID)
              else
                && Scanned(outcome)
                && Settles(old(World(db.live, db.nextId)), CallOf(req), turns, scans, outcome, db.live)
    {
      hide Pick;
      ghost var before := notifier.Abs();
      var sub := notifier.Subscribe(channelName(req.space), listen);
      if sub.None? {
        return SubscribeFailed, 0;
      }
      assert notifier.Abs().subs[sub.value] == sub.value.Abs();
      outcome, scans := ReadLoop(req, sub, turns, now);
      CloseSubscription(sub.value, channelName(req.space), before, unlisten);
    }

    /** `read`. Whatever happens, both registries end up as they were. */
    method Read(req: ReadRequest, listen: M.CommandResult, unlisten: M.CommandResult, turns: seq<Turn>, now: int)
      returns (outcome: ReadOutcome, scans: nat)
      requires db.Valid() && RegistryOk() && TurnsOk(turns) && candidateLimit > 0
      requires notifier.Valid() && !notifier.closed
      modifies db, this`nextWaiterID, this`activeWaiters, notifier, notifier.known
      ensures db.Valid() && RegistryOk() && activeWaiters == old(activeWaiters)
      ensures notifier.Valid() && M.SameRegistry(old(notifier.Abs()), notifier.Abs())
      ensures outcome.Rejected? <==> !(ValidSpace(req.space) && AcceptableTemplate(req.template))
      ensures outcome == NegativeWait <==> ValidSpace(req.space) && AcceptableTemplate(req.template) && req.wait < 0
      ensures outcome == SubscribeFailed <==>
        && ValidSpace(req.space) && AcceptableTemplate(req.template) && req.wait > 0
        && M.ListenFails(old(notifier.Abs()), channelName(req.space), listen)
      ensures outcome.Rejected? || outcome == NegativeWait || outcome == SubscribeFailed ==>
        scans == 0 && db.live == old(db.live) && nextWaiterID == old(nextWaiterID)
      ensures !(outcome.Rejected? || outcome == NegativeWait || outcome == SubscribeFailed) ==>
        exists normal :: && TemplateStandsFor(req.template, normal)
                         && Settles(old(World(db.live, db.nextId)), CallOf(req.(template := normal)),
                                    turns, scans, outcome, db.live)
    {
      if !ValidSpace(req.space) {
        return Rejected(InvalidSpace), 0;
      }
      var normalized := ValidateTemplate(req.template);
      if normalized.Err? {
        return Rejected(normalized.error), 0;
      }
      if req.wait < 0 {
        return NegativeWait, 0;
      }
      var normal := req.(template := normalized.value);
      if req.wait > 0 {
        outcome, scans := SubscribedRead(normal, listen, unlisten, turns, now);
      } else {
        outcome, scans := ReadLoop(normal, None, turns, now);
      }
    }
  }
}
