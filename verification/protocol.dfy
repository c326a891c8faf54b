/** internal/service/service.go and the admin deletes of internal/service/admin.go as a transition system:
    concurrent out, rd and in calls over one store with row locks, the notification queue of the listener
    connection, the notifier and the waiter registry. Every action is one atomic step of the Go program:
    a Postgres statement or commit, one control request or delivery of the notifier loop, or one critical
    section of the service. */
module Protocol {
  import opened Wrappers
  import opened Types
  import opened Validation
  import opened Store
  import opened Ids
  import opened CandidateQuery
  import opened Scan
  import N = NotifierModel

  /** What a read is asked for; `blocking` is wait > 0. */
  datatype Request = Request(space: string, template: Template, blocking: bool, destructive: bool)

  datatype Outcome = Got(id: nat, entry: Entry) | NotFound | TimedOut | Failed

  /** Where a call to `read` stands. */
  datatype Phase =
    | Subscribing
    | Scanning                                    // top of the for loop
    | Holding(held: set<nat>, pick: Option<nat>)  // consumeOnce between its SELECT and the end of its transaction
    | Missed                                      // scan found nothing, wait > 0
    | Parked                                      // in the select
    | Leaving(outcome: Outcome)                   // returning: deferred unregisterWaiter, then sub.Close
    | Returned(outcome: Outcome)

  /** History: what the last scan saw. */
  datatype ScanRecord = ScanRecord(live: map<nat, Entry>, locked: set<nat>)

  datatype Client = Client(req: Request, phase: Phase, subscribed: bool, waiter: Option<nat>,
                           scans: nat, last: ScanRecord)

  /** committed, consumed and purged are history. A client's subscription is named by the client. */
  datatype State = State(
    live: map<nat, Entry>, pending: map<nat, Entry>, nextId: nat,
    clients: map<nat, Client>,
    queue: seq<string>, notifier: N.State<nat>,
    waiters: map<nat, nat>, nextWaiter: nat,
    committed: map<nat, Entry>, consumed: map<nat, nat>, purged: set<nat>)

  datatype Config = Config(limit: nat, channelName: string -> string)

  ghost predicate ValidConfig(cfg: Config) {
    cfg.limit > 0
  }

  datatype Action =
    | OutInsert(entry: Entry)
    | OutCommit(id: nat)
    | OutAbort(id: nat)
    | Begin(c: nat, req: Request)
    | Subscribe(c: nat, result: N.CommandResult)
    | ScanRd(c: nat)
    | ScanIn(c: nat)
    | ScanFail(c: nat)
    | CommitIn(c: nat)
    | RollbackIn(c: nat)
    | AbortIn(c: nat)
    | Park(c: nat)
    | Wake(c: nat)
    | GiveUp(c: nat, timedOut: bool)
    | Unregister(c: nat)
    | CloseSub(c: nat, result: N.CommandResult)
    | Deliver
    | NotifyTest(space: string)
    | AdminDelete(ids: set<nat>)

  function Init(): State {
    State(map[], map[], 1, map[], [], N.Start(), map[], 0, map[], map[], {})
  }

  /** Rows locked by some transaction. */
  ghost function Locked(s: State): set<nat> {
    set c, id | c in s.clients && s.clients[c].phase.Holding? && id in s.clients[c].phase.held :: id
  }

  ghost function Channel(cfg: Config, s: State, c: nat): string
    requires c in s.clients
  {
    cfg.channelName(s.clients[c].req.space)
  }

  function Tokens(s: State, c: nat): nat {
    if c in s.notifier.subs then s.notifier.subs[c].tokens else 0
  }

  predicate At(s: State, c: nat, phase: Phase) {
    c in s.clients && s.clients[c].phase == phase
  }

  predicate Pending(s: State, c: nat) {
    c in s.clients && s.clients[c].phase.Holding?
  }

  ghost predicate Enabled(cfg: Config, s: State, a: Action) {
    match a
    case OutInsert(entry) => ValidSpace(entry.space) && ValidTuple(entry.tuple)
    case OutCommit(id) => id in s.pending
    case OutAbort(id) => id in s.pending
    case Begin(c, req) => c !in s.clients && ValidSpace(req.space) && ValidTemplate(req.template)
    case Subscribe(c, _) => At(s, c, Subscribing) && c !in s.notifier.subs
    case ScanRd(c) => At(s, c, Scanning) && !s.clients[c].req.destructive
    case ScanIn(c) => At(s, c, Scanning) && s.clients[c].req.destructive
    case ScanFail(c) => At(s, c, Scanning)
    case CommitIn(c) => Pending(s, c) && s.clients[c].phase.pick.Some? && s.clients[c].phase.pick.value in s.live
    case RollbackIn(c) => Pending(s, c) && s.clients[c].phase.pick.None?
    case AbortIn(c) => Pending(s, c)
    case Park(c) => At(s, c, Missed)
    case Wake(c) => At(s, c, Parked) && Tokens(s, c) > 0
    case GiveUp(c, _) => At(s, c, Parked)
    case Unregister(c) => c in s.clients && s.clients[c].phase.Leaving? && s.clients[c].waiter.Some?
    case CloseSub(c, _) => c in s.clients && s.clients[c].phase.Leaving? && s.clients[c].waiter.None? &&
      c in s.notifier.subs
    case Deliver => s.queue != [] && s.notifier.refCounts != map[]
    case NotifyTest(_) => true
    case AdminDelete(ids) => ids !! Locked(s)
  }

  /** pg_notify at commit: the listener connection is sent the notification if it listens. */
  function Notified(s: State, channel: string): seq<string> {
    if channel in s.notifier.listening then s.queue + [channel] else s.queue
  }

  /** `return` from read: the deferred calls run only when the call subscribed. */
  function Leave(cl: Client, outcome: Outcome): Client {
    cl.(phase := if cl.req.blocking then Leaving(outcome) else Returned(outcome))
  }

  function Miss(cl: Client): Client {
    if cl.req.blocking then cl.(phase := Missed) else cl.(phase := Returned(NotFound))
  }

  function SetClient(s: State, c: nat, cl: Client): State {
    s.(clients := s.clients[c := cl])
  }

  // ----- out, admin calls and the listener -----

  function DoOutInsert(s: State, entry: Entry): State {
    s.(pending := s.pending[s.nextId := entry], nextId := s.nextId + 1)
  }

  ghost function DoOutCommit(cfg: Config, s: State, id: nat): State
    requires id in s.pending
  {
    var entry := s.pending[id];
    s.(live := s.live[id := entry], pending := s.pending - {id}, committed := s.committed[id := entry],
       queue := Notified(s, cfg.channelName(entry.space)))
  }

  function DoDeliver(s: State): State
    requires s.queue != []
  {
    s.(notifier := N.Deliver(s.notifier, s.queue[0]), queue := s.queue[1..])
  }

  function DoAdminDelete(s: State, ids: set<nat>): State {
    s.(live := s.live - ids, purged := s.purged + (ids * s.live.Keys))
  }

  // ----- calls to read: what becomes of the call -----

  function Begun(req: Request): Client {
    Client(req, if req.blocking then Subscribing else Scanning, false, None, 0, ScanRecord(map[], {}))
  }

  ghost function Subscribed(cfg: Config, s: State, c: nat, result: N.CommandResult): Client
    requires c in s.clients
  {
    if N.ListenFails(s.notifier, Channel(cfg, s, c), result) then s.clients[c].(phase := Returned(Failed))
    else s.clients[c].(phase := Scanning, subscribed := true)
  }

  ghost function ScannedRd(cfg: Config, s: State, c: nat): Client
    requires c in s.clients
  {
    var cl := s.clients[c].(scans := s.clients[c].scans + 1, last := ScanRecord(s.live, {}));
    var pick := Pick(s.live, cl.req.space, cl.req.template, {}, cfg.limit);
    if pick.Some? && pick.value in s.live then Leave(cl, Got(pick.value, s.live[pick.value])) else Miss(cl)
  }

  /** The SELECT ... FOR UPDATE SKIP LOCKED of consumeOnce locks every row it returns. */
  ghost function ScannedIn(cfg: Config, s: State, c: nat): Client
    requires c in s.clients
  {
    var cl, req, locked := s.clients[c], s.clients[c].req, Locked(s);
    var held := Elements(Take(Candidates(s.live, req.space, req.template, locked), cfg.limit));
    var pick := Pick(s.live, req.space, req.template, locked, cfg.limit);
    cl.(scans := cl.scans + 1, last := ScanRecord(s.live, locked), phase := Holding(held, pick))
  }

  function Parking(s: State, c: nat): Client
    requires c in s.clients
  {
    var cl := s.clients[c];
    cl.(phase := Parked, waiter := if cl.waiter.Some? then cl.waiter else Some(s.nextWaiter + 1))
  }

  /** The call to `read` an action belongs to. */
  function Actor(a: Action): Option<nat> {
    match a
    case Begin(c, _) => Some(c)
    case Subscribe(c, _) => Some(c)
    case ScanRd(c) => Some(c)
    case ScanIn(c) => Some(c)
    case ScanFail(c) => Some(c)
    case CommitIn(c) => Some(c)
    case RollbackIn(c) => Some(c)
    case AbortIn(c) => Some(c)
    case Park(c) => Some(c)
    case Wake(c) => Some(c)
    case GiveUp(c, _) => Some(c)
    case Unregister(c) => Some(c)
    case CloseSub(c, _) => Some(c)
    case _ => None
  }

  /** The acting call after its step. */
  ghost function Moved(cfg: Config, s: State, a: Action): Client
    requires Enabled(cfg, s, a) && Actor(a).Some?
  {
    match a
    case Begin(_, req) => Begun(req)
    case Subscribe(c, result) => Subscribed(cfg, s, c, result)
    case ScanRd(c) => ScannedRd(cfg, s, c)
    case ScanIn(c) => ScannedIn(cfg, s, c)
    case ScanFail(c) => Leave(s.clients[c].(scans := s.clients[c].scans + 1), Failed)
    case CommitIn(c) => Leave(s.clients[c], Got(s.clients[c].phase.pick.value, s.live[s.clients[c].phase.pick.value]))
    case RollbackIn(c) => Miss(s.clients[c])
    case AbortIn(c) => Leave(s.clients[c], Failed)
    case Park(c) => Parking(s, c)
    case Wake(c) => s.clients[c].(phase := Scanning)
    case GiveUp(c, timedOut) => Leave(s.clients[c], if timedOut then TimedOut else Failed)
    case Unregister(c) => s.clients[c].(waiter := None)
    case CloseSub(c, _) => s.clients[c].(phase := Returned(s.clients[c].phase.outcome), subscribed := false)
  }

  /** Everything but the acting call after a step. */
  ghost function Around(cfg: Config, s: State, a: Action): State
    requires Enabled(cfg, s, a)
  {
    match a
    case OutInsert(entry) => DoOutInsert(s, entry)
    case OutCommit(id) => DoOutCommit(cfg, s, id)
    case OutAbort(id) => s.(pending := s.pending - {id})
    case Subscribe(c, result) => s.(notifier := N.Subscribe(s.notifier, c, Channel(cfg, s, c), result))
    case CommitIn(c) =>
      var id := s.clients[c].phase.pick.value;
      s.(live := s.live - {id}, consumed := s.consumed[id := c])
    case Park(c) =>
      if s.clients[c].waiter.Some? then s
      else s.(nextWaiter := s.nextWaiter + 1, waiters := s.waiters[s.nextWaiter + 1 := c])
    case Wake(c) => s.(notifier := N.Receive(s.notifier, c))
    case Unregister(c) => s.(waiters := s.waiters - {s.clients[c].waiter.value})
    case CloseSub(c, result) => s.(notifier := N.Unsubscribe(s.notifier, c, result))
    case Deliver => DoDeliver(s)
    case NotifyTest(space) => s.(queue := Notified(s, cfg.channelName(space)))
    case AdminDelete(ids) => DoAdminDelete(s, ids)
    case _ => s
  }

  ghost function Step(cfg: Config, s: State, a: Action): State
    requires Enabled(cfg, s, a)
  {
    if Actor(a).Some? then SetClient(Around(cfg, s, a), Actor(a).value, Moved(cfg, s, a)) else Around(cfg, s, a)
  }

  /** A run from the empty store: states[i+1] is states[i] after actions[i]. */
  ghost predicate IsRun(cfg: Config, states: seq<State>, actions: seq<Action>) {
    && |states| == |actions| + 1
    && states[0] == Init()
    && forall i :: 0 <= i < |actions| ==>
      Enabled(cfg, states[i], actions[i]) && states[i + 1] == Step(cfg, states[i], actions[i])
  }
}
