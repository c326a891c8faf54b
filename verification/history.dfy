/** Where things in a state come from: the scan behind a call's record and locks, the call behind a tuple,
    and the step by which a tuple left. */
module History {
  import opened Wrappers
  import opened Types
  import opened Store
  import opened CandidateQuery
  import opened Scan
  import opened Protocol
  import opened ProtocolInvariant
  import opened ProtocolWakeups
  import opened Guarantees

  // ----- the last scan of a call -----

  /** The call has scanned, and since then neither failed nor begun again. */
  predicate HasScanned(cl: Client) {
    cl.phase.Holding? || CameAwayEmpty(cl) || (OutcomeOf(cl).Some? && OutcomeOf(cl).value.Got?)
  }

  predicate IsScanOf(a: Action, c: nat) {
    a == ScanRd(c) || a == ScanIn(c)
  }

  /** What a scan of this call in state s sees, and which rows are locked for it. */
  ghost function Sight(s: State, req: Request): ScanRecord {
    ScanRecord(s.live, if req.destructive then Locked(s) else {})
  }

  lemma ScanLeavesSight(cfg: Config, s: State, a: Action)
    requires Enabled(cfg, s, a) && (a.ScanRd? || a.ScanIn?)
    ensures a.c in s.clients && Moved(cfg, s, a).last == Sight(s, s.clients[a.c].req)
  {
  }

  lemma OthersNeedAScan(cfg: Config, s: State, a: Action)
    requires Enabled(cfg, s, a) && Actor(a).Some? && !a.ScanRd? && !a.ScanIn? && HasScanned(Moved(cfg, s, a))
    ensures Actor(a).value in s.clients && HasScanned(s.clients[Actor(a).value])
    ensures Moved(cfg, s, a).last == s.clients[Actor(a).value].last
  {
  }

  /** Step i is the last scan of call c among the first n steps, and its record is the call's. */
  ghost predicate LastScanAt(cfg: Config, states: seq<State>, actions: seq<Action>, n: nat, c: nat, i: nat)
    requires IsRun(cfg, states, actions) && n < |states| && c in states[n].clients
  {
    && i < n && IsScanOf(actions[i], c)
    && states[n].clients[c].last == Sight(states[i], states[n].clients[c].req)
    && forall k :: i < k < n ==> !IsScanOf(actions[k], c)
  }

  /** The record of a call that has scanned is what the store and the locks were at its last scan. */
  lemma {:induction false} RecordIsLastScan(cfg: Config, states: seq<State>, actions: seq<Action>, n: nat, c: nat)
    returns (i: nat)
    requires IsRun(cfg, states, actions) && n < |states| && c in states[n].clients && HasScanned(states[n].clients[c])
    ensures LastScanAt(cfg, states, actions, n, c, i)
  {
    assert n > 0;
    var s, a := states[n - 1], actions[n - 1];
    OnlyActorMoves(cfg, s, a);
    if IsScanOf(a, c) {
      ScanLeavesSight(cfg, s, a);
      i := n - 1;
    } else {
      if Actor(a) == Some(c) {
        OthersNeedAScan(cfg, s, a);
      }
      i := RecordIsLastScan(cfg, states, actions, n - 1, c);
    }
  }

  // ----- the rows a transaction holds -----

  /** The rows that a scan with this request in state s has to lock: candidates nobody holds, with fewer than
      `limit` of their kind below them. */
  ghost predicate ToBeLocked(cfg: Config, s: State, req: Request, id: nat) {
    && id in s.live && IsCandidate(s.live[id], req.space, req.template) && id !in Locked(s)
    && |set k | k in s.live && IsCandidate(s.live[k], req.space, req.template) && k !in Locked(s) && k < id| < cfg.limit
  }

  lemma HeldIsToBeLocked(cfg: Config, s: State, cl: Client)
    requires cl.phase.Holding? && HeldOk(cfg, cl) && cl.last == ScanRecord(s.live, Locked(s))
    ensures forall id :: id in cl.phase.held <==> ToBeLocked(cfg, s, cl.req, id)
  {
    forall id: nat
      ensures CandidatesBelow(s.live, cl.req.space, cl.req.template, Locked(s), id) ==
              set k | k in s.live && IsCandidate(s.live[k], cl.req.space, cl.req.template) && k !in Locked(s) && k < id
    {
    }
  }

  lemma StepKeepsRequest(cfg: Config, s: State, a: Action, c: nat)
    requires Enabled(cfg, s, a) && c in s.clients
    ensures c in Step(cfg, s, a).clients && Step(cfg, s, a).clients[c].req == s.clients[c].req
  {
    OnlyActorMoves(cfg, s, a);
  }

  /** A call is asked the same thing throughout. */
  lemma {:induction false} RequestStays(cfg: Config, states: seq<State>, actions: seq<Action>, i: nat, n: nat, c: nat)
    requires IsRun(cfg, states, actions) && i <= n < |states| && c in states[i].clients
    ensures c in states[n].clients && states[n].clients[c].req == states[i].clients[c].req
    decreases n
  {
    hide Step, Enabled, Moved;
    if i < n {
      RequestStays(cfg, states, actions, i, n - 1, c);
      StepKeepsRequest(cfg, states[n - 1], actions[n - 1], c);
    }
  }

  /** `in` scans with locks, `rd` without. */
  lemma ScanKind(cfg: Config, states: seq<State>, actions: seq<Action>, n: nat, c: nat, i: nat)
    requires IsRun(cfg, states, actions) && n < |states| && c in states[n].clients &&
      LastScanAt(cfg, states, actions, n, c, i)
    ensures actions[i] == ScanIn(c) <==> states[n].clients[c].req.destructive
  {
    assert Enabled(cfg, states[i], actions[i]);
    RequestStays(cfg, states, actions, i, n, c);
  }

  /** Over every run, a transaction of `in` holds exactly the rows its scan had to lock, not only the one it is
      going to delete. */
  lemma HoldsWhatItScanned(cfg: Config, states: seq<State>, actions: seq<Action>, n: nat, c: nat) returns (i: nat)
    requires IsRun(cfg, states, actions) && n < |states| && Pending(states[n], c)
    ensures LastScanAt(cfg, states, actions, n, c, i) && actions[i] == ScanIn(c)
    ensures forall id :: id in states[n].clients[c].phase.held <==>
      ToBeLocked(cfg, states[i], states[n].clients[c].req, id)
  {
    RunHolds(cfg, states, actions, n);
    i := RecordIsLastScan(cfg, states, actions, n, c);
    var cl := states[n].clients[c];
    assert ScanOk(cfg, states[n], cl) && ShapeOk(cl);
    ScanKind(cfg, states, actions, n, c, i);
    HeldIsToBeLocked(cfg, states[i], cl);
  }

  // ----- where tuples come from and how they leave -----

  lemma NewlyPending(cfg: Config, s: State, a: Action, id: nat)
    requires StoreInv(s) && Enabled(cfg, s, a) && id in Step(cfg, s, a).pending
    ensures if id in s.pending then Step(cfg, s, a).pending[id] == s.pending[id]
            else a == OutInsert(Step(cfg, s, a).pending[id]) && id == s.nextId
  {
    hide Moved;
  }

  /** The insert of an `out` that gave this entry this id, among the first n steps. */
  ghost predicate InsertedBefore(states: seq<State>, actions: seq<Action>, n: nat, id: nat, entry: Entry) {
    exists i :: 0 <= i < n && i < |actions| && i < |states| && actions[i] == OutInsert(entry) && states[i].nextId == id
  }

  lemma {:induction false} PendingWasInserted(cfg: Config, states: seq<State>, actions: seq<Action>, n: nat, id: nat)
    requires IsRun(cfg, states, actions) && n < |states| && id in states[n].pending
    ensures InsertedBefore(states, actions, n, id, states[n].pending[id])
  {
    hide Step, Enabled;
    assert n > 0;
    RunStoreHolds(cfg, states, actions, n - 1);
    NewlyPending(cfg, states[n - 1], actions[n - 1], id);
    if id in states[n - 1].pending {
      PendingWasInserted(cfg, states, actions, n - 1, id);
    }
  }

  /** Every committed tuple is what some `out` inserted under that id. */
  lemma CommittedWasInserted(cfg: Config, states: seq<State>, actions: seq<Action>, n: nat, id: nat)
    requires IsRun(cfg, states, actions) && n < |states| && id in states[n].committed
    ensures InsertedBefore(states, actions, n, id, states[n].committed[id])
  {
    CommittedWasPutOut(cfg, states, actions, n, id);
    var i :| 0 <= i < n && i < |actions| && i < |states| && actions[i] == OutCommit(id)
             && id in states[i].pending && states[i].pending[id] == states[n].committed[id];
    PendingWasInserted(cfg, states, actions, i, id);
  }

  lemma AbortedStaysOut(cfg: Config, s: State, a: Action, id: nat)
    requires StoreInv(s) && Enabled(cfg, s, a) && id < s.nextId && id !in s.pending && id !in s.committed
    ensures a != OutCommit(id) && id < Step(cfg, s, a).nextId
    ensures id !in Step(cfg, s, a).pending && id !in Step(cfg, s, a).committed
  {
    hide Moved;
  }

  lemma AbortTakesOut(cfg: Config, s: State, id: nat)
    requires StoreInv(s) && Enabled(cfg, s, OutAbort(id))
    ensures var t := Step(cfg, s, OutAbort(id)); id < t.nextId && id !in t.pending && id !in t.committed
  {
  }

  /** A tuple whose `out` was aborted never enters the space. */
  lemma {:induction false} AbortedNeverCommits(cfg: Config, states: seq<State>, actions: seq<Action>, i: nat, n: nat,
                                               id: nat)
    requires IsRun(cfg, states, actions) && i < n < |states| && actions[i] == OutAbort(id)
    ensures id < states[n].nextId && id !in states[n].pending && id !in states[n].committed
    ensures forall k :: i < k < n ==> actions[k] != OutCommit(id)
    decreases n
  {
    hide Step, Enabled;
    RunStoreHolds(cfg, states, actions, n - 1);
    if i == n - 1 {
      AbortTakesOut(cfg, states[i], id);
    } else {
      AbortedNeverCommits(cfg, states, actions, i, n - 1, id);
      AbortedStaysOut(cfg, states[n - 1], actions[n - 1], id);
    }
  }

  /** The step by which a tuple left: the commit of the `in` that consumed it, or an admin delete that names it. */
  ghost predicate LeftBy(s: State, a: Action, id: nat) {
    && id in s.live
    && ((a.AdminDelete? && id in a.ids) || (a.CommitIn? && Pending(s, a.c) && s.clients[a.c].phase.pick == Some(id)))
  }

  lemma NewlyGone(cfg: Config, s: State, a: Action, id: nat)
    requires Enabled(cfg, s, a) && id in s.live && id !in Step(cfg, s, a).live
    ensures LeftBy(s, a, id)
  {
    hide Moved;
  }

  lemma NewlyCommittedIsLive(cfg: Config, s: State, a: Action, id: nat)
    requires StoreInv(s) && Enabled(cfg, s, a) && id in Step(cfg, s, a).committed && id !in Step(cfg, s, a).live
    ensures id in s.committed
  {
    hide Moved;
    if !a.OutCommit? {
      OnlyOutCommits(cfg, s, a);
    }
  }

  /** A committed tuple that is no longer live left by exactly such a step. */
  lemma {:induction false} GoneWasTaken(cfg: Config, states: seq<State>, actions: seq<Action>, n: nat, id: nat)
    returns (i: nat)
    requires IsRun(cfg, states, actions) && n < |states| && id in states[n].committed && id !in states[n].live
    ensures i < n && LeftBy(states[i], actions[i], id)
    ensures forall k :: i < k <= n ==> id !in states[k].live
  {
    assert n > 0;
    RunStoreHolds(cfg, states, actions, n - 1);
    if id in states[n - 1].live {
      NewlyGone(cfg, states[n - 1], actions[n - 1], id);
      i := n - 1;
    } else {
      NewlyCommittedIsLive(cfg, states[n - 1], actions[n - 1], id);
      i := GoneWasTaken(cfg, states, actions, n - 1, id);
    }
  }
}
