/** Wakeups are of use, and calls end: what the protocol can still do from any reachable state. */
module Progress {
  import opened Wrappers
  import opened Types
  import opened Validation
  import opened Store
  import opened Scan
  import opened Protocol
  import opened ProtocolInvariant
  import opened ProtocolWakeups
  import opened Guarantees
  import N = NotifierModel

  // ----- no call is stuck -----

  /** The guards on rows and subscriptions hold by themselves: a transaction that found a match can commit and
      hits its row, a leaving call has a subscription to close, and a new call has none yet. */
  lemma GuardsHold(cfg: Config, s: State, c: nat, result: N.CommandResult)
    requires ShapeInv(s) && LockInv(s) && SubInv(cfg, s) && c in s.clients
    ensures Pending(s, c) && s.clients[c].phase.pick.Some? ==> Enabled(cfg, s, CommitIn(c))
    ensures s.clients[c].phase.Leaving? && s.clients[c].waiter.None? ==> Enabled(cfg, s, CloseSub(c, result))
    ensures s.clients[c].phase.Subscribing? ==> Enabled(cfg, s, Subscribe(c, result))
  {
    assert HoldOk(s, s.clients[c]) && ShapeOk(s.clients[c]);
    assert c in s.notifier.subs ==> SubOk(cfg, s, c);
  }

  /** A step that needs no failure; the select of a parked call may also end at its deadline. */
  predicate IsPlain(a: Action) {
    !a.ScanFail? && !a.AbortIn? && (a.GiveUp? ==> a.timedOut) &&
    (a.Subscribe? || a.CloseSub? ==> a.result == N.Done)
  }

  /** Every call that has not returned has a step to take. */
  lemma CallCanMove(cfg: Config, s: State, c: nat) returns (a: Action)
    requires Inv(cfg, s) && c in s.clients && !s.clients[c].phase.Returned?
    ensures Enabled(cfg, s, a) && Actor(a) == Some(c) && !a.Begin? && IsPlain(a)
    ensures s.clients[c].phase.Parked? && Tokens(s, c) > 0 ==> a == Wake(c)
  {
    GuardsHold(cfg, s, c, N.Done);
    match s.clients[c].phase {
      case Subscribing => a := Subscribe(c, N.Done);
      case Scanning => a := if s.clients[c].req.destructive then ScanIn(c) else ScanRd(c);
      case Holding(_, pick) => a := if pick.Some? then CommitIn(c) else RollbackIn(c);
      case Missed => a := Park(c);
      case Parked => a := if Tokens(s, c) > 0 then Wake(c) else GiveUp(c, true);
      case Leaving(_) => a := if s.clients[c].waiter.Some? then Unregister(c) else CloseSub(c, N.Done);
    }
  }

  /** What may happen at any time: new calls and tuples, test notifications, admin deletes of rows no transaction
      holds, and the failure of a scan, of an open transaction or of a wait. */
  lemma AnythingMayHappen(cfg: Config, s: State, c: nat, id: nat, ids: set<nat>, entry: Entry, req: Request,
                          space: string)
    ensures ValidSpace(entry.space) && ValidTuple(entry.tuple) ==> Enabled(cfg, s, OutInsert(entry))
    ensures id in s.pending ==> Enabled(cfg, s, OutCommit(id)) && Enabled(cfg, s, OutAbort(id))
    ensures c !in s.clients && ValidSpace(req.space) && ValidTemplate(req.template) ==> Enabled(cfg, s, Begin(c, req))
    ensures Enabled(cfg, s, NotifyTest(space))
    ensures Enabled(cfg, s, AdminDelete(ids)) <==> forall d :: Pending(s, d) ==> ids !! s.clients[d].phase.held
    ensures At(s, c, Scanning) ==> Enabled(cfg, s, ScanFail(c))
    ensures Pending(s, c) ==> Enabled(cfg, s, AbortIn(c))
    ensures At(s, c, Parked) ==> Enabled(cfg, s, GiveUp(c, true)) && Enabled(cfg, s, GiveUp(c, false))
  {
    assert forall i :: i in Locked(s) <==> exists d :: Pending(s, d) && i in s.clients[d].phase.held;
  }

  // ----- calls end -----

  /** Steps a call has left when nothing wakes it any more. */
  function Rank(cl: Client): nat {
    match cl.phase
    case Subscribing => 7
    case Scanning => 6
    case Holding(_, _) => 5
    case Missed => 4
    case Parked => 3
    case Leaving(_) => if cl.waiter.Some? then 2 else 1
    case Returned(_) => 0
  }

  /** A token buys one more turn of the loop. */
  function Remaining(s: State, c: nat): nat {
    if c in s.clients then Rank(s.clients[c]) + 4 * Tokens(s, c) else 8
  }

  /** Every step of a call but the wakeup lowers its rank; the wakeup spends a token. */
  lemma MovesLowerRank(cfg: Config, s: State, a: Action)
    requires Enabled(cfg, s, a) && Actor(a).Some? && !a.Begin?
    requires Actor(a).value in s.clients ==> ShapeOk(s.clients[Actor(a).value])
    ensures Actor(a).value in s.clients
    ensures Rank(Moved(cfg, s, a)) < Rank(s.clients[Actor(a).value]) + if a.Wake? then 4 else 0
  {
  }

  lemma ActorTokensSpent(cfg: Config, s: State, a: Action)
    requires Enabled(cfg, s, a) && Actor(a).Some?
    ensures Tokens(Around(cfg, s, a), Actor(a).value) == Tokens(s, Actor(a).value) - if a.Wake? then 1 else 0
  {
    var c := Actor(a).value;
    match a {
      case Subscribe(_, result) => SubscribeAdds(cfg, s, c, result, c);
      case CloseSub(_, result) => CloseSubEnds(cfg, s, c, result, c);
      case Wake(_) => WakeTakes(cfg, s, c, c);
      case _ => OthersLeaveNotifier(cfg, s, a);
    }
  }

  lemma DeliverTokens(s: State, c: nat)
    requires s.queue != []
    ensures Tokens(DoDeliver(s), c) <= Tokens(s, c) + if c in N.Recipients(s.notifier, s.queue[0]) then 1 else 0
  {
  }

  lemma ActorShrinks(cfg: Config, s: State, a: Action)
    requires ShapeInv(s) && Enabled(cfg, s, a) && Actor(a).Some?
    requires Actor(a).value in s.notifier.subs ==> Actor(a).value in s.clients
    ensures Remaining(Step(cfg, s, a), Actor(a).value) < Remaining(s, Actor(a).value)
  {
    OnlyActorMoves(cfg, s, a);
    ActorTokensSpent(cfg, s, a);
    if !a.Begin? {
      assert ShapeOk(s.clients[a.c]);
      MovesLowerRank(cfg, s, a);
    }
  }

  lemma SameRemaining(s: State, s': State, c: nat)
    requires (c in s'.clients <==> c in s.clients) && (c in s.clients ==> s'.clients[c] == s.clients[c])
    requires Tokens(s', c) == Tokens(s, c)
    ensures Remaining(s', c) == Remaining(s, c)
  {
  }

  lemma BystanderKeeps(cfg: Config, s: State, a: Action, c: nat)
    requires Enabled(cfg, s, a) && Actor(a) != Some(c) && !a.Deliver?
    ensures Remaining(Step(cfg, s, a), c) == Remaining(s, c)
  {
    OnlyActorMoves(cfg, s, a);
    BystanderSub(cfg, s, a, c);
    SameRemaining(s, Step(cfg, s, a), c);
  }

  /** What a call has left goes down with each of its own steps, and up only when it is handed a token. */
  lemma RemainingShrinks(cfg: Config, s: State, a: Action, c: nat)
    requires ShapeInv(s) && SubInv(cfg, s) && Enabled(cfg, s, a)
    ensures Remaining(Step(cfg, s, a), c) + (if Actor(a) == Some(c) then 1 else 0) <=
            Remaining(s, c) + if a.Deliver? && c in N.Recipients(s.notifier, s.queue[0]) then 4 else 0
  {
    if Actor(a) == Some(c) {
      assert c in s.notifier.subs ==> SubOk(cfg, s, c);
      ActorShrinks(cfg, s, a);
    } else if a.Deliver? {
      DeliverTokens(s, c);
    } else {
      BystanderKeeps(cfg, s, a, c);
    }
  }

  /** Steps of call c among the first n. */
  function StepsOf(actions: seq<Action>, c: nat, n: nat): nat
    requires n <= |actions|
  {
    if n == 0 then 0 else StepsOf(actions, c, n - 1) + if Actor(actions[n - 1]) == Some(c) then 1 else 0
  }

  /** The termination measure: over every run the steps of a call and what it has left are paid for by its start
      and by the notifications delivered to it. With finitely many notifications every call ends. */
  lemma {:induction false} CallsEnd(cfg: Config, states: seq<State>, actions: seq<Action>, c: nat, n: nat)
    requires IsRun(cfg, states, actions) && n <= |actions|
    ensures StepsOf(actions, c, n) + Remaining(states[n], c) <= 8 + 4 * DeliveredTo(states, actions, c, n)
  {
    hide Step, Enabled, Inv;
    if n > 0 {
      CallsEnd(cfg, states, actions, c, n - 1);
      RunHolds(cfg, states, actions, n - 1);
      RemainingShrinks(cfg, states[n - 1], actions[n - 1], c);
    }
  }

  // ----- a wakeup under way leads to the tuple -----

  /** The actions lead from s to t. */
  ghost predicate Path(cfg: Config, s: State, actions: seq<Action>, t: State)
    decreases |actions|
  {
    if actions == [] then t == s
    else Enabled(cfg, s, actions[0]) && Path(cfg, Step(cfg, s, actions[0]), actions[1..], t)
  }

  lemma {:induction false} PathThen(cfg: Config, s: State, actions: seq<Action>, t: State, a: Action)
    requires Path(cfg, s, actions, t) && Enabled(cfg, t, a)
    ensures Path(cfg, s, actions + [a], Step(cfg, t, a))
    decreases |actions|
  {
    if actions == [] {
      assert (actions + [a])[1..] == [];
    } else {
      PathThen(cfg, Step(cfg, s, actions[0]), actions[1..], t, a);
      assert (actions + [a])[1..] == actions[1..] + [a];
    }
  }

  /** k deliveries. */
  function Deliveries(k: nat): seq<Action> {
    seq(k, i => Deliver)
  }

  /** One delivery keeps a wakeup of a subscribed call under way. */
  lemma DeliveryHelps(cfg: Config, s: State, c: nat)
    requires SubInv(cfg, s) && s.queue != [] && c in s.clients && s.clients[c].subscribed && WakeupComing(cfg, s, c)
    ensures WakeupComing(cfg, DoDeliver(s), c)
  {
    var ch := Channel(cfg, s, c);
    SubscribedMeansListening(cfg, s, c);
    N.DeliverMeaning(s.notifier, s.queue[0], c);
    if ch in s.queue && s.queue[0] != ch {
      var k :| 0 <= k < |s.queue| && s.queue[k] == ch;
      assert s.queue[1..][k - 1] == ch;
    }
  }

  /** A queued wakeup of a subscribed call: the listener can deliver. */
  lemma OneDelivery(cfg: Config, s: State, c: nat) returns (next: State)
    requires ShapeInv(s) && SubInv(cfg, s) && c in s.clients && s.clients[c].subscribed
    requires WakeupComing(cfg, s, c) && Tokens(s, c) == 0
    ensures Enabled(cfg, s, Deliver) && Step(cfg, s, Deliver) == next && |next.queue| == |s.queue| - 1
    ensures next.clients == s.clients && next.live == s.live
    ensures SubInv(cfg, next) && WakeupComing(cfg, next, c)
  {
    SubscribedMeansListening(cfg, s, c);
    next := DoDeliver(s);
    SubsKept(cfg, s, Deliver);
    DeliveryHelps(cfg, s, c);
  }

  /** A wakeup under way becomes a token after at most as many deliveries as notifications are queued. */
  lemma {:induction false} DeliverUntilToken(cfg: Config, s: State, c: nat) returns (k: nat, t: State)
    requires ShapeInv(s) && SubInv(cfg, s) && c in s.clients && s.clients[c].subscribed && WakeupComing(cfg, s, c)
    ensures k <= |s.queue| && Path(cfg, s, Deliveries(k), t)
    ensures t.clients == s.clients && t.live == s.live && Tokens(t, c) > 0
    decreases |s.queue|
  {
    if Tokens(s, c) > 0 {
      k, t := 0, s;
    } else {
      var next := OneDelivery(cfg, s, c);
      k, t := DeliverUntilToken(cfg, next, c);
      k := k + 1;
      assert Deliveries(k)[1..] == Deliveries(k - 1);
    }
  }

  /** The rows a scan of this call now would have to leave to others. */
  ghost function LockedFor(s: State, req: Request): set<nat> {
    if req.destructive then Locked(s) else {}
  }

  lemma SameLocked(s: State, t: State)
    requires t.clients == s.clients
    ensures Locked(t) == Locked(s)
  {
  }

  /** A scan that finds something, and what follows it. */
  function TakeIt(c: nat, destructive: bool): seq<Action> {
    if destructive then [ScanIn(c), CommitIn(c)] else [ScanRd(c)]
  }

  lemma WakeScans(cfg: Config, s: State, c: nat)
    requires Enabled(cfg, s, Wake(c))
    ensures var t := Step(cfg, s, Wake(c));
      && t.live == s.live && t.clients.Keys == s.clients.Keys && t.clients[c] == s.clients[c].(phase := Scanning)
      && Locked(t) == Locked(s)
  {
    var t := Step(cfg, s, Wake(c));
    assert forall d :: d in s.clients && d != c ==> t.clients[d] == s.clients[d];
    assert forall id :: id in Locked(s) <==> id in Locked(t);
  }

  lemma WakesUp(cfg: Config, s: State, c: nat) returns (k: nat, t: State)
    requires ShapeInv(s) && SubInv(cfg, s) && At(s, c, Parked) && WakeupComing(cfg, s, c)
    ensures k <= |s.queue| && Path(cfg, s, Deliveries(k) + [Wake(c)], t)
    ensures c in t.clients && t.clients[c] == s.clients[c].(phase := Scanning) && t.live == s.live &&
      Locked(t) == Locked(s)
  {
    assert ShapeOk(s.clients[c]);
    var u;
    k, u := DeliverUntilToken(cfg, s, c);
    SameLocked(s, u);
    PathThen(cfg, s, Deliveries(k), u, Wake(c));
    t := Step(cfg, u, Wake(c));
    WakeScans(cfg, u, c);
  }

  /** What a scan of this call now would find. */
  ghost function InReach(cfg: Config, s: State, c: nat): Option<nat>
    requires c in s.clients
  {
    Pick(s.live, s.clients[c].req.space, s.clients[c].req.template, LockedFor(s, s.clients[c].req), cfg.limit)
  }

  /** Call c has been given the live tuple `id` of s. */
  predicate GotFrom(s: State, t: State, c: nat, id: nat) {
    id in s.live && c in t.clients && OutcomeOf(t.clients[c]) == Some(Got(id, s.live[id]))
  }

  lemma ReadsAfterWake(cfg: Config, s: State, c: nat)
    requires At(s, c, Scanning) && !s.clients[c].req.destructive && InReach(cfg, s, c).Some?
    ensures GotFrom(s, Step(cfg, s, ScanRd(c)), c, InReach(cfg, s, c).value)
  {
    ScanLocksFreshRows(s.live, s.clients[c].req.space, s.clients[c].req.template, {}, cfg.limit);
  }

  lemma TakesAfterWake(cfg: Config, s: State, c: nat)
    requires At(s, c, Scanning) && s.clients[c].req.destructive && InReach(cfg, s, c).Some?
    ensures Enabled(cfg, Step(cfg, s, ScanIn(c)), CommitIn(c))
    ensures GotFrom(s, Step(cfg, Step(cfg, s, ScanIn(c)), CommitIn(c)), c, InReach(cfg, s, c).value)
  {
    ScanLocksFreshRows(s.live, s.clients[c].req.space, s.clients[c].req.template, Locked(s), cfg.limit);
  }

  lemma ScansAndGets(cfg: Config, s: State, path: seq<Action>, u: State, c: nat) returns (t: State)
    requires Path(cfg, s, path, u) && At(u, c, Scanning) && InReach(cfg, u, c).Some?
    ensures Path(cfg, s, path + TakeIt(c, u.clients[c].req.destructive), t)
    ensures GotFrom(u, t, c, InReach(cfg, u, c).value)
  {
    if u.clients[c].req.destructive {
      TakesAfterWake(cfg, u, c);
      PathThen(cfg, s, path, u, ScanIn(c));
      PathThen(cfg, s, path + [ScanIn(c)], Step(cfg, u, ScanIn(c)), CommitIn(c));
      t := Step(cfg, Step(cfg, u, ScanIn(c)), CommitIn(c));
      assert path + [ScanIn(c)] + [CommitIn(c)] == path + TakeIt(c, true);
    } else {
      ReadsAfterWake(cfg, u, c);
      PathThen(cfg, s, path, u, ScanRd(c));
      t := Step(cfg, u, ScanRd(c));
    }
  }

  /** From a parked call with a wakeup under way and a match within reach: at most one delivery for each queued
      notification, then the wakeup and one scan, and the call has the lowest unlocked match. */
  lemma WokenCallGetsTuple(cfg: Config, s: State, c: nat) returns (k: nat, t: State)
    requires ShapeInv(s) && SubInv(cfg, s) && At(s, c, Parked) && WakeupComing(cfg, s, c)
    requires InReach(cfg, s, c).Some?
    ensures k <= |s.queue| && Path(cfg, s, Deliveries(k) + [Wake(c)] + TakeIt(c, s.clients[c].req.destructive), t)
    ensures GotFrom(s, t, c, InReach(cfg, s, c).value)
  {
    var u;
    k, u := WakesUp(cfg, s, c);
    t := ScansAndGets(cfg, s, Deliveries(k) + [Wake(c)], u, c);
  }

  lemma LiveIsNormal(s: State)
    requires StoreInv(s)
    ensures NormalLive(s.live)
  {
    forall id | id in s.live ensures NormalTuple(s.live[id].tuple) {
      assert s.live[id] == s.committed[id];
    }
  }

  /** In any run: a parked call with a live, unlocked match within the limit that its last scan did not pass over
      is on its way to a tuple, the match itself or a lower one. */
  lemma ParkedCallIsServed(cfg: Config, states: seq<State>, actions: seq<Action>, n: nat, c: nat, m: nat)
    returns (k: nat, t: State)
    requires IsRun(cfg, states, actions) && n < |states| && At(states[n], c, Parked)
    requires var s, req := states[n], states[n].clients[c].req;
      && IsMatch(s.live, req.space, req.template, m) && m !in LockedFor(s, req)
      && !BeyondLimit(s.live, req.space, req.template, LockedFor(s, req), cfg.limit, m)
      && !PassedOver(cfg, s.clients[c], m)
    ensures k <= |states[n].queue|
    ensures Path(cfg, states[n], Deliveries(k) + [Wake(c)] + TakeIt(c, states[n].clients[c].req.destructive), t)
    ensures exists id: nat :: id <= m && GotFrom(states[n], t, c, id)
  {
    var s, req := states[n], states[n].clients[c].req;
    RunHolds(cfg, states, actions, n);
    if !WakeupComing(cfg, s, c) {
      ParkedResidue(cfg, states, actions, n, c);
      assert false;
    }
    LiveIsNormal(s);
    assert ShapeOk(s.clients[c]);
    PickExact(s.live, req.space, req.template, LockedFor(s, req), cfg.limit);
    PickFound(s.live, req.space, req.template, LockedFor(s, req), cfg.limit);
    k, t := WokenCallGetsTuple(cfg, s, c);
  }
}
