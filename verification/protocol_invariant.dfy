/** What every step of the protocol keeps, and so holds over every run. */
module ProtocolInvariant {
  import opened Wrappers
  import opened Types
  import opened Validation
  import opened Match
  import opened Store
  import opened Ids
  import opened CandidateQuery
  import opened Scan
  import opened Protocol
  import N = NotifierModel

  // ----- frames -----

  lemma AroundLeavesClients(cfg: Config, s: State, a: Action)
    requires Enabled(cfg, s, a)
    ensures Around(cfg, s, a).clients == s.clients
  {
  }

  /** A call keeps what it was asked. */
  lemma RequestKept(cfg: Config, s: State, a: Action)
    requires Enabled(cfg, s, a) && Actor(a).Some? && !a.Begin?
    ensures Actor(a).value in s.clients && Moved(cfg, s, a).req == s.clients[Actor(a).value].req
  {
  }

  /** A step of a call changes that call only; the other steps change none. */
  lemma OnlyActorMoves(cfg: Config, s: State, a: Action)
    requires Enabled(cfg, s, a)
    ensures Step(cfg, s, a).clients.Keys == s.clients.Keys + (if Actor(a).Some? then {Actor(a).value} else {})
    ensures forall d :: d in s.clients && Some(d) != Actor(a) ==> Step(cfg, s, a).clients[d] == s.clients[d]
    ensures Actor(a).Some? ==> Step(cfg, s, a).clients[Actor(a).value] == Moved(cfg, s, a)
    ensures Actor(a).Some? && !a.Begin? ==>
      Actor(a).value in s.clients && Moved(cfg, s, a).req == s.clients[Actor(a).value].req
  {
    AroundLeavesClients(cfg, s, a);
    if Actor(a).Some? && !a.Begin? {
      RequestKept(cfg, s, a);
    }
  }

  // ----- store -----

  /** Conservation: every committed id is live, consumed or purged, and only one of these. */
  ghost predicate StoreInv(s: State) {
    && s.committed.Keys == s.live.Keys + s.consumed.Keys + s.purged
    && s.live.Keys !! s.consumed.Keys && s.live.Keys !! s.purged && s.consumed.Keys !! s.purged
    && (forall id :: id in s.live ==> s.live[id] == s.committed[id])
    && (forall id :: id in s.committed ==> id < s.nextId && id !in s.pending && NormalTuple(s.committed[id].tuple))
    && (forall id :: id in s.pending ==> id < s.nextId && NormalTuple(s.pending[id].tuple))
  }

  lemma CommitKeepsStore(cfg: Config, s: State, id: nat)
    requires StoreInv(s) && id in s.pending
    ensures StoreInv(DoOutCommit(cfg, s, id))
  {
  }

  lemma ConsumeKeepsStore(cfg: Config, s: State, c: nat)
    requires StoreInv(s) && Enabled(cfg, s, CommitIn(c))
    ensures StoreInv(Around(cfg, s, CommitIn(c)))
  {
  }

  lemma AdminDeleteKeepsStore(s: State, ids: set<nat>)
    requires StoreInv(s)
    ensures StoreInv(DoAdminDelete(s, ids))
  {
    var s' := DoAdminDelete(s, ids);
    assert s'.live.Keys == s.live.Keys - ids;
    assert s.live.Keys == s'.live.Keys + ids * s.live.Keys;
  }

  predicate TouchesStore(a: Action) {
    a.OutInsert? || a.OutCommit? || a.OutAbort? || a.CommitIn? || a.AdminDelete?
  }

  predicate SameStore(s: State, s': State) {
    && s'.live == s.live && s'.pending == s.pending && s'.nextId == s.nextId
    && s'.committed == s.committed && s'.consumed == s.consumed && s'.purged == s.purged
  }

  lemma OthersLeaveStore(cfg: Config, s: State, a: Action)
    requires Enabled(cfg, s, a) && !TouchesStore(a)
    ensures SameStore(s, Around(cfg, s, a))
  {
  }

  lemma SameStoreKept(s: State, s': State)
    requires StoreInv(s) && SameStore(s, s')
    ensures StoreInv(s')
  {
  }

  lemma InsertKeepsStore(s: State, entry: Entry)
    requires StoreInv(s) && ValidTuple(entry.tuple)
    ensures StoreInv(DoOutInsert(s, entry))
  {
  }

  lemma AroundKeepsStore(cfg: Config, s: State, a: Action)
    requires StoreInv(s) && Enabled(cfg, s, a)
    ensures StoreInv(Around(cfg, s, a))
  {
    if !TouchesStore(a) {
      OthersLeaveStore(cfg, s, a);
      SameStoreKept(s, Around(cfg, s, a));
    } else {
      match a {
        case OutInsert(entry) => InsertKeepsStore(s, entry);
        case OutCommit(id) => CommitKeepsStore(cfg, s, id);
        case CommitIn(c) => ConsumeKeepsStore(cfg, s, c);
        case AdminDelete(ids) => AdminDeleteKeepsStore(s, ids);
        case OutAbort(_) =>
      }
    }
  }

  lemma StoreKept(cfg: Config, s: State, a: Action)
    requires StoreInv(s) && Enabled(cfg, s, a)
    ensures StoreInv(Step(cfg, s, a))
  {
    AroundKeepsStore(cfg, s, a);
    SameStoreKept(Around(cfg, s, a), Step(cfg, s, a));
  }

  lemma OnlyOutCommits(cfg: Config, s: State, a: Action)
    requires Enabled(cfg, s, a) && !a.OutCommit?
    ensures Around(cfg, s, a).committed == s.committed
  {
  }

  /** Committed tuples never change. */
  lemma CommittedGrows(cfg: Config, s: State, a: Action)
    requires StoreInv(s) && Enabled(cfg, s, a)
    ensures forall id :: id in s.committed ==>
      id in Step(cfg, s, a).committed && Step(cfg, s, a).committed[id] == s.committed[id]
  {
    if !a.OutCommit? {
      OnlyOutCommits(cfg, s, a);
    }
  }

  // ----- phases -----

  predicate InBlockingCall(phase: Phase) {
    phase.Scanning? || phase.Holding? || phase.Missed? || phase.Parked? || phase.Leaving?
  }

  function OutcomeOf(cl: Client): Option<Outcome> {
    match cl.phase
    case Leaving(o) => Some(o)
    case Returned(o) => Some(o)
    case _ => None
  }

  predicate ShapeOk(cl: Client) {
    && ValidTemplate(cl.req.template)
    && (cl.subscribed <==> cl.req.blocking && InBlockingCall(cl.phase))
    && (cl.phase.Subscribing? || cl.phase.Missed? || cl.phase.Parked? || cl.phase.Leaving? ==> cl.req.blocking)
    && (cl.phase.Holding? ==> cl.req.destructive)
    && (cl.phase.Parked? ==> cl.waiter.Some?)
    && (cl.phase.Subscribing? || cl.phase.Returned? ==> cl.waiter.None?)
    && (!cl.req.blocking ==> cl.waiter.None?)
    && (OutcomeOf(cl) == Some(NotFound) ==> !cl.req.blocking)
    && (OutcomeOf(cl) == Some(TimedOut) ==> cl.req.blocking)
  }

  ghost predicate ShapeInv(s: State) {
    forall c :: c in s.clients ==> ShapeOk(s.clients[c])
  }

  lemma ActorShape(cfg: Config, s: State, a: Action)
    requires Enabled(cfg, s, a) && Actor(a).Some? && (!a.Begin? ==> ShapeOk(s.clients[Actor(a).value]))
    ensures ShapeOk(Moved(cfg, s, a))
  {
  }

  lemma ShapeKept(cfg: Config, s: State, a: Action)
    requires ShapeInv(s) && Enabled(cfg, s, a)
    ensures ShapeInv(Step(cfg, s, a))
  {
    hide Moved, Around;
    OnlyActorMoves(cfg, s, a);
    if Actor(a).Some? {
      ActorShape(cfg, s, a);
    }
  }

  // ----- row locks -----

  ghost predicate HoldOk(s: State, cl: Client) {
    cl.phase.Holding? ==>
      && cl.phase.held <= s.live.Keys
      && (cl.phase.pick.Some? ==>
            cl.phase.pick.value in cl.phase.held && IsMatch(s.live, cl.req.space, cl.req.template, cl.phase.pick.value))
  }

  predicate HoldsApart(a: Client, b: Client) {
    a.phase.Holding? && b.phase.Holding? ==> a.phase.held !! b.phase.held
  }

  /** Locked rows are live, and no two transactions hold the same row. */
  ghost predicate LockInv(s: State) {
    && (forall c :: c in s.clients ==> HoldOk(s, s.clients[c]))
    && (forall c, d :: c in s.clients && d in s.clients && c != d ==> HoldsApart(s.clients[c], s.clients[d]))
  }

  /** What the locking scan returns is live, unlocked by everyone else, and contains its pick. */
  lemma ScanLocksFreshRows(live: map<nat, Entry>, space: string, template: Template, locked: set<nat>, limit: nat)
    ensures Elements(Take(Candidates(live, space, template, locked), limit)) <= live.Keys - locked
    ensures var pick := Pick(live, space, template, locked, limit); pick.Some? ==>
      && pick.value in Elements(Take(Candidates(live, space, template, locked), limit))
      && IsMatch(live, space, template, pick.value)
  {
    var all := Candidates(live, space, template, locked);
    forall id | id in Take(all, limit) ensures id in live && id !in locked {
      assert id in all;
    }
    if Pick(live, space, template, locked, limit).Some? {
      var p := PickPosition(live, space, template, locked, limit);
      assert Take(all, limit)[p] == all[p];
    }
  }

  lemma ScanInKeepsLocks(cfg: Config, s: State, c: nat)
    requires LockInv(s) && Enabled(cfg, s, ScanIn(c))
    ensures LockInv(Step(cfg, s, ScanIn(c)))
  {
    var s', cl := Step(cfg, s, ScanIn(c)), s.clients[c];
    ScanLocksFreshRows(s.live, cl.req.space, cl.req.template, Locked(s), cfg.limit);
    forall d | d in s.clients && d != c && s.clients[d].phase.Holding?
      ensures s.clients[d].phase.held !! s'.clients[c].phase.held
    {
      assert forall id :: id in s.clients[d].phase.held ==> id in Locked(s);
    }
  }

  lemma CommitInKeepsLocks(cfg: Config, s: State, c: nat)
    requires LockInv(s) && Enabled(cfg, s, CommitIn(c))
    ensures LockInv(Step(cfg, s, CommitIn(c)))
  {
    var s' := Step(cfg, s, CommitIn(c));
    forall d | d in s'.clients ensures HoldOk(s', s'.clients[d]) {
      if d != c {
        assert HoldOk(s, s.clients[d]) && HoldOk(s, s.clients[c]) && HoldsApart(s.clients[c], s.clients[d]);
      }
    }
  }

  lemma AdminDeleteKeepsLocks(s: State, ids: set<nat>)
    requires LockInv(s) && ids !! Locked(s)
    ensures LockInv(DoAdminDelete(s, ids))
  {
    var s' := DoAdminDelete(s, ids);
    forall d | d in s'.clients ensures HoldOk(s', s'.clients[d]) {
      assert HoldOk(s, s.clients[d]);
      if s.clients[d].phase.Holding? {
        assert forall id :: id in s.clients[d].phase.held ==> id in Locked(s);
      }
    }
  }

  lemma OutCommitKeepsLocks(cfg: Config, s: State, id: nat)
    requires LockInv(s) && StoreInv(s) && id in s.pending
    ensures LockInv(DoOutCommit(cfg, s, id))
  {
    var s' := DoOutCommit(cfg, s, id);
    assert id !in s.live;
    forall d | d in s'.clients ensures HoldOk(s', s'.clients[d]) {
      assert HoldOk(s, s.clients[d]);
    }
  }

  /** Steps other than these leave the live tuples alone. */
  lemma LiveUnchanged(cfg: Config, s: State, a: Action)
    requires Enabled(cfg, s, a) && !a.CommitIn? && !a.AdminDelete? && !a.OutCommit?
    ensures Around(cfg, s, a).live == s.live
  {
  }

  /** Only a scan of `in` acquires locks. */
  lemma OnlyScanInHolds(cfg: Config, s: State, a: Action)
    requires Enabled(cfg, s, a) && Actor(a).Some? && !a.ScanIn?
    ensures !Moved(cfg, s, a).phase.Holding?
  {
  }

  lemma SameLocksKept(s: State, s': State, actor: Option<nat>)
    requires LockInv(s) && s'.live == s.live
    requires forall d :: d in s'.clients && Some(d) != actor ==> d in s.clients && s'.clients[d] == s.clients[d]
    requires actor.Some? && actor.value in s'.clients ==> !s'.clients[actor.value].phase.Holding?
    ensures LockInv(s')
  {
    forall d | d in s'.clients ensures HoldOk(s', s'.clients[d]) {
      assert Some(d) != actor ==> HoldOk(s, s.clients[d]);
    }
  }

  lemma OthersKeepLocks(cfg: Config, s: State, a: Action)
    requires LockInv(s) && Enabled(cfg, s, a)
    requires !a.ScanIn? && !a.CommitIn? && !a.AdminDelete? && !a.OutCommit?
    ensures LockInv(Step(cfg, s, a))
  {
    OnlyActorMoves(cfg, s, a);
    LiveUnchanged(cfg, s, a);
    if Actor(a).Some? {
      OnlyScanInHolds(cfg, s, a);
    }
    SameLocksKept(s, Step(cfg, s, a), Actor(a));
  }

  lemma LocksKept(cfg: Config, s: State, a: Action)
    requires LockInv(s) && StoreInv(s) && Enabled(cfg, s, a)
    ensures LockInv(Step(cfg, s, a))
  {
    if a.ScanIn? {
      ScanInKeepsLocks(cfg, s, a.c);
    } else if a.CommitIn? {
      CommitInKeepsLocks(cfg, s, a.c);
    } else if a.AdminDelete? {
      AdminDeleteKeepsLocks(s, a.ids);
    } else if a.OutCommit? {
      OutCommitKeepsLocks(cfg, s, a.id);
    } else {
      OthersKeepLocks(cfg, s, a);
    }
  }

  // ----- outcomes -----

  /** A tuple a call got was committed to the call's space and matches its template; an `in` consumed it. */
  ghost predicate GotOk(s: State, c: nat, cl: Client) {
    OutcomeOf(cl).Some? && OutcomeOf(cl).value.Got? ==>
      var Got(id, entry) := OutcomeOf(cl).value;
      && id in s.committed && s.committed[id] == entry
      && entry.space == cl.req.space && Matches(cl.req.template, entry.tuple)
      && (cl.req.destructive ==> id in s.consumed && s.consumed[id] == c)
  }

  /** A consumed tuple is the outcome of the one `in` that consumed it. */
  predicate ConsumedOk(s: State, id: nat)
    requires id in s.consumed && id in s.committed
  {
    var c := s.consumed[id];
    c in s.clients && s.clients[c].req.destructive && OutcomeOf(s.clients[c]) == Some(Got(id, s.committed[id]))
  }

  ghost predicate OutcomeInv(s: State) {
    && s.consumed.Keys <= s.committed.Keys
    && (forall c :: c in s.clients ==> GotOk(s, c, s.clients[c]))
    && (forall id :: id in s.consumed ==> ConsumedOk(s, id))
  }

  /** A call with an outcome only runs its deferred functions. */
  lemma LeavingClientUnwinds(cfg: Config, s: State, a: Action)
    requires Enabled(cfg, s, a) && Actor(a).Some? && Actor(a).value in s.clients
    requires OutcomeOf(s.clients[Actor(a).value]).Some?
    ensures a.Unregister? || a.CloseSub?
    ensures OutcomeOf(Moved(cfg, s, a)) == OutcomeOf(s.clients[Actor(a).value])
  {
    assert a.Unregister? || a.CloseSub?;
  }

  /** An outcome, once there, stays. */
  lemma OutcomeStays(cfg: Config, s: State, a: Action, c: nat)
    requires Enabled(cfg, s, a) && ShapeInv(s) && c in s.clients && OutcomeOf(s.clients[c]).Some?
    ensures c in Step(cfg, s, a).clients && OutcomeOf(Step(cfg, s, a).clients[c]) == OutcomeOf(s.clients[c])
    ensures Step(cfg, s, a).clients[c].req == s.clients[c].req
  {
    OnlyActorMoves(cfg, s, a);
    if Actor(a) == Some(c) {
      LeavingClientUnwinds(cfg, s, a);
    }
  }

  lemma OnlyCommitConsumes(cfg: Config, s: State, a: Action)
    requires Enabled(cfg, s, a) && !a.CommitIn?
    ensures Around(cfg, s, a).consumed == s.consumed
  {
  }

  lemma CommitAddsConsumed(cfg: Config, s: State, c: nat)
    requires StoreInv(s) && Enabled(cfg, s, CommitIn(c))
    ensures var now := Step(cfg, s, CommitIn(c)).consumed;
      forall id :: id in s.consumed ==> id in now && now[id] == s.consumed[id]
  {
  }

  lemma ConsumedStays(cfg: Config, s: State, a: Action, id: nat)
    requires Enabled(cfg, s, a) && StoreInv(s) && id in s.consumed
    ensures id in Step(cfg, s, a).consumed && Step(cfg, s, a).consumed[id] == s.consumed[id]
  {
    if a.CommitIn? {
      CommitAddsConsumed(cfg, s, a.c);
    } else {
      OnlyCommitConsumes(cfg, s, a);
    }
  }

  lemma RdGot(cfg: Config, s: State, c: nat)
    requires StoreInv(s) && Enabled(cfg, s, ScanRd(c))
    ensures GotOk(Step(cfg, s, ScanRd(c)), c, Moved(cfg, s, ScanRd(c)))
  {
    var req := s.clients[c].req;
    ScanLocksFreshRows(s.live, req.space, req.template, {}, cfg.limit);
  }

  lemma InGot(cfg: Config, s: State, c: nat)
    requires StoreInv(s) && LockInv(s) && Enabled(cfg, s, CommitIn(c))
    ensures GotOk(Step(cfg, s, CommitIn(c)), c, Moved(cfg, s, CommitIn(c)))
  {
    assert HoldOk(s, s.clients[c]);
  }

  /** How a call comes by its outcome: a tuple by a scan of `rd` or a commit of `in`, "not found" only without a
      wait when its scan missed, a timeout by its deadline, and a failure by a failed LISTEN, scan or
      transaction or by the end of its context. */
  lemma HowCallsEnd(cfg: Config, s: State, a: Action)
    requires Enabled(cfg, s, a) && Actor(a).Some? && Actor(a).value in s.clients
    requires OutcomeOf(s.clients[Actor(a).value]).None?
    ensures var c := Actor(a).value; var req, out := s.clients[c].req, OutcomeOf(Moved(cfg, s, a));
      && (out == Some(TimedOut) <==> a == GiveUp(c, true))
      && (out == Some(Failed) <==>
            || a == ScanFail(c) || a == AbortIn(c) || a == GiveUp(c, false)
            || (a.Subscribe? && N.ListenFails(s.notifier, Channel(cfg, s, c), a.result)))
      && (out == Some(NotFound) ==> !req.blocking && (a == ScanRd(c) || a == RollbackIn(c)))
      && (a == RollbackIn(c) ==> if req.blocking then out.None? else out == Some(NotFound))
      && (out.Some? && out.value.Got? ==> a == ScanRd(c) || a == CommitIn(c))
  {
  }

  /** Only a scan of `rd` and a commit of `in` hand a call a tuple. */
  lemma NoOtherGot(cfg: Config, s: State, a: Action)
    requires Enabled(cfg, s, a) && Actor(a).Some? && !a.ScanRd? && !a.CommitIn? && !a.Unregister? && !a.CloseSub?
    ensures OutcomeOf(Moved(cfg, s, a)).Some? ==> !OutcomeOf(Moved(cfg, s, a)).value.Got?
  {
  }

  /** A call that had no outcome has none it should not have. */
  lemma NewGot(cfg: Config, s: State, a: Action)
    requires Enabled(cfg, s, a) && StoreInv(s) && LockInv(s) && Actor(a).Some?
    requires !a.Unregister? && !a.CloseSub?
    ensures GotOk(Step(cfg, s, a), Actor(a).value, Moved(cfg, s, a))
  {
    if a.ScanRd? {
      RdGot(cfg, s, a.c);
    } else if a.CommitIn? {
      InGot(cfg, s, a.c);
    } else {
      NoOtherGot(cfg, s, a);
    }
  }

  lemma GotStays(cfg: Config, s: State, a: Action, c: nat)
    requires Enabled(cfg, s, a) && StoreInv(s) && ShapeInv(s)
    requires c in s.clients && OutcomeOf(s.clients[c]).Some? && GotOk(s, c, s.clients[c])
    ensures c in Step(cfg, s, a).clients && GotOk(Step(cfg, s, a), c, Step(cfg, s, a).clients[c])
  {
    OutcomeStays(cfg, s, a, c);
    CommittedGrows(cfg, s, a);
    if OutcomeOf(s.clients[c]).value.Got? && s.clients[c].req.destructive {
      ConsumedStays(cfg, s, a, OutcomeOf(s.clients[c]).value.id);
    }
  }

  /** Only a call with an outcome unregisters or closes its subscription. */
  lemma CleanupIsLate(cfg: Config, s: State, a: Action)
    requires Enabled(cfg, s, a) && (a.Unregister? || a.CloseSub?)
    ensures a.c in s.clients && OutcomeOf(s.clients[a.c]).Some?
  {
  }

  lemma GotKept(cfg: Config, s: State, a: Action, c: nat)
    requires StoreInv(s) && ShapeInv(s) && LockInv(s) && Enabled(cfg, s, a)
    requires c in s.clients ==> GotOk(s, c, s.clients[c])
    ensures c in Step(cfg, s, a).clients ==> GotOk(Step(cfg, s, a), c, Step(cfg, s, a).clients[c])
  {
    hide Step, Moved, Enabled;
    OnlyActorMoves(cfg, s, a);
    if c in s.clients && OutcomeOf(s.clients[c]).Some? {
      GotStays(cfg, s, a, c);
    } else if Actor(a) == Some(c) {
      if a.Unregister? || a.CloseSub? {
        CleanupIsLate(cfg, s, a);
      }
      NewGot(cfg, s, a);
    }
  }

  lemma NewConsumedByCommit(cfg: Config, s: State, c: nat, id: nat)
    requires StoreInv(s) && ShapeInv(s) && Enabled(cfg, s, CommitIn(c))
    requires id in Step(cfg, s, CommitIn(c)).consumed && id !in s.consumed
    ensures id in Step(cfg, s, CommitIn(c)).committed && ConsumedOk(Step(cfg, s, CommitIn(c)), id)
  {
    assert ShapeOk(s.clients[c]);
  }

  lemma NewConsumed(cfg: Config, s: State, a: Action, id: nat)
    requires Enabled(cfg, s, a) && StoreInv(s) && ShapeInv(s) && id !in s.consumed
    ensures id in Step(cfg, s, a).consumed ==> id in Step(cfg, s, a).committed && ConsumedOk(Step(cfg, s, a), id)
  {
    if a.CommitIn? {
      if id in Step(cfg, s, a).consumed {
        NewConsumedByCommit(cfg, s, a.c, id);
      }
    } else {
      OnlyCommitConsumes(cfg, s, a);
    }
  }

  lemma ConsumedKept(cfg: Config, s: State, a: Action, id: nat)
    requires OutcomeInv(s) && StoreInv(s) && ShapeInv(s) && Enabled(cfg, s, a)
    ensures id in Step(cfg, s, a).consumed ==> id in Step(cfg, s, a).committed && ConsumedOk(Step(cfg, s, a), id)
  {
    if id in s.consumed {
      CommittedGrows(cfg, s, a);
      OutcomeStays(cfg, s, a, s.consumed[id]);
      ConsumedStays(cfg, s, a, id);
    } else {
      NewConsumed(cfg, s, a, id);
    }
  }

  lemma OutcomesKept(cfg: Config, s: State, a: Action)
    requires OutcomeInv(s) && StoreInv(s) && ShapeInv(s) && LockInv(s) && Enabled(cfg, s, a)
    ensures OutcomeInv(Step(cfg, s, a))
  {
    StoreKept(cfg, s, a);
    forall c | c in Step(cfg, s, a).clients ensures GotOk(Step(cfg, s, a), c, Step(cfg, s, a).clients[c]) {
      GotKept(cfg, s, a, c);
    }
    forall id | id in Step(cfg, s, a).consumed ensures ConsumedOk(Step(cfg, s, a), id) {
      ConsumedKept(cfg, s, a, id);
    }
  }
}
