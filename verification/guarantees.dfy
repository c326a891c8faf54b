/** What the protocol guarantees over every run. */
module Guarantees {
  import opened Wrappers
  import opened Types
  import opened Match
  import opened Store
  import opened CandidateQuery
  import opened Scan
  import opened Protocol
  import opened ProtocolInvariant
  import opened ProtocolWakeups
  import N = NotifierModel

  ghost predicate Inv(cfg: Config, s: State) {
    && StoreInv(s) && ShapeInv(s) && LockInv(s) && OutcomeInv(s)
    && ScanInv(cfg, s) && SubInv(cfg, s) && WakeInv(cfg, s) && RetryInv(s) && WaiterInv(s)
  }

  lemma InitHolds(cfg: Config)
    ensures Inv(cfg, Init())
  {
    N.StartInv<nat>();
  }

  lemma StepKeepsInv(cfg: Config, s: State, a: Action)
    requires Inv(cfg, s) && Enabled(cfg, s, a)
    ensures Inv(cfg, Step(cfg, s, a))
  {
    StoreKept(cfg, s, a);
    ShapeKept(cfg, s, a);
    LocksKept(cfg, s, a);
    OutcomesKept(cfg, s, a);
    ScansKept(cfg, s, a);
    SubsKept(cfg, s, a);
    WakesKept(cfg, s, a);
    RetriesKept(cfg, s, a);
    WaitersKept(cfg, s, a);
  }

  lemma {:induction false} RunHolds(cfg: Config, states: seq<State>, actions: seq<Action>, n: nat)
    requires IsRun(cfg, states, actions) && n < |states|
    ensures Inv(cfg, states[n])
  {
    if n == 0 {
      InitHolds(cfg);
    } else {
      RunHolds(cfg, states, actions, n - 1);
      StepKeepsInv(cfg, states[n - 1], actions[n - 1]);
    }
  }

  lemma RunStoreHolds(cfg: Config, states: seq<State>, actions: seq<Action>, n: nat)
    requires IsRun(cfg, states, actions) && n < |states|
    ensures StoreInv(states[n])
  {
    RunHolds(cfg, states, actions, n);
  }

  // ----- exactly once, conservation -----

  /** The `in` call c got the tuple `entry`, stored as id. */
  predicate GetsBy(s: State, c: nat, id: nat, entry: Entry) {
    c in s.clients && s.clients[c].req.destructive && OutcomeOf(s.clients[c]) == Some(Got(id, entry))
  }

  /** The committed ids are the disjoint union of the live, the consumed and the purged ones, and a tuple
      two `in` calls both got would be one call's. */
  lemma Conservation(cfg: Config, states: seq<State>, actions: seq<Action>, n: nat)
    requires IsRun(cfg, states, actions) && n < |states|
    ensures var s := states[n];
      && s.committed.Keys == s.live.Keys + s.consumed.Keys + s.purged
      && s.live.Keys !! s.consumed.Keys && s.live.Keys !! s.purged && s.consumed.Keys !! s.purged
      && forall id :: id in s.live ==> s.live[id] == s.committed[id]
    ensures forall c, d, id, e, e' :: GetsBy(states[n], c, id, e) && GetsBy(states[n], d, id, e') ==> c == d && e == e'
  {
    RunHolds(cfg, states, actions, n);
    var s := states[n];
    forall c, d, id, e, e' | GetsBy(s, c, id, e) && GetsBy(s, d, id, e') ensures c == d && e == e' {
      assert GotOk(s, c, s.clients[c]) && GotOk(s, d, s.clients[d]);
    }
  }

  /** The commit of id that put `entry` into the space, among the first n steps. */
  ghost predicate PutOutBefore(states: seq<State>, actions: seq<Action>, n: nat, id: nat, entry: Entry) {
    exists i :: 0 <= i < n && i < |actions| && i < |states| && actions[i] == OutCommit(id)
                && id in states[i].pending && states[i].pending[id] == entry
  }

  lemma NewlyCommitted(cfg: Config, s: State, a: Action, id: nat)
    requires StoreInv(s) && Enabled(cfg, s, a) && id in Step(cfg, s, a).committed
    ensures if id in s.committed then Step(cfg, s, a).committed[id] == s.committed[id]
            else a == OutCommit(id) && id in s.pending && s.pending[id] == Step(cfg, s, a).committed[id]
  {
    CommittedGrows(cfg, s, a);
    if !a.OutCommit? {
      OnlyOutCommits(cfg, s, a);
    }
  }

  lemma {:induction false} CommittedWasPutOut(cfg: Config, states: seq<State>, actions: seq<Action>, n: nat, id: nat)
    requires IsRun(cfg, states, actions) && n < |states| && id in states[n].committed
    ensures PutOutBefore(states, actions, n, id, states[n].committed[id])
  {
    if n > 0 {
      RunStoreHolds(cfg, states, actions, n - 1);
      NewlyCommitted(cfg, states[n - 1], actions[n - 1], id);
      if id in states[n - 1].committed {
        CommittedWasPutOut(cfg, states, actions, n - 1, id);
      }
    }
  }

  /** Each consumed tuple was put out earlier in the run, to the consumer's space, and matches its template. */
  lemma {:induction false} ConsumedWasPutOut(cfg: Config, states: seq<State>, actions: seq<Action>, n: nat, id: nat)
    requires IsRun(cfg, states, actions) && n < |states| && id in states[n].consumed
    ensures var s, c := states[n], states[n].consumed[id];
      && id in s.committed && c in s.clients
      && s.committed[id].space == s.clients[c].req.space
      && Matches(s.clients[c].req.template, s.committed[id].tuple)
      && PutOutBefore(states, actions, n, id, s.committed[id])
  {
    RunHolds(cfg, states, actions, n);
    var s := states[n];
    assert ConsumedOk(s, id) && GotOk(s, s.consumed[id], s.clients[s.consumed[id]]);
    CommittedWasPutOut(cfg, states, actions, n, id);
  }

  lemma StepCommitted(cfg: Config, s: State, a: Action, id: nat)
    requires StoreInv(s) && Enabled(cfg, s, a) && id in s.committed
    ensures id in Step(cfg, s, a).committed && Step(cfg, s, a).committed[id] == s.committed[id]
    ensures id !in s.live ==> id !in Step(cfg, s, a).live
  {
    CommittedGrows(cfg, s, a);
    if !a.OutCommit? {
      LiveShrinks(cfg, s, a);
    }
  }

  lemma {:induction false} CommittedPersists(cfg: Config, states: seq<State>, actions: seq<Action>, i: nat, j: nat,
                                             id: nat)
    requires IsRun(cfg, states, actions) && i <= j < |states| && id in states[i].committed
    ensures id in states[j].committed && states[j].committed[id] == states[i].committed[id]
    decreases j
  {
    if i < j {
      CommittedPersists(cfg, states, actions, i, j - 1, id);
      RunStoreHolds(cfg, states, actions, j - 1);
      StepCommitted(cfg, states[j - 1], actions[j - 1], id);
    }
  }

  /** A tuple that left the space never comes back, so nothing is removed twice. */
  lemma {:induction false} GoneForGood(cfg: Config, states: seq<State>, actions: seq<Action>, i: nat, j: nat, id: nat)
    requires IsRun(cfg, states, actions) && i <= j < |states|
    requires id in states[i].committed && id !in states[i].live
    ensures id !in states[j].live
    decreases j
  {
    hide Step, Enabled;
    if i < j {
      GoneForGood(cfg, states, actions, i, j - 1, id);
      CommittedPersists(cfg, states, actions, i, j - 1, id);
      RunStoreHolds(cfg, states, actions, j - 1);
      StepCommitted(cfg, states[j - 1], actions[j - 1], id);
    }
  }

  // ----- locks -----

  lemma HoldsLiveRows(cfg: Config, s: State, c: nat)
    requires LockInv(s) && Pending(s, c)
    ensures var phase := s.clients[c].phase;
      && phase.held <= s.live.Keys
      && (forall d :: d != c && Pending(s, d) ==> phase.held !! s.clients[d].phase.held)
      && (phase.pick.Some? ==>
            && Enabled(cfg, s, CommitIn(c))
            && |s.live| == |Step(cfg, s, CommitIn(c)).live| + 1
            && s.live.Keys - Step(cfg, s, CommitIn(c)).live.Keys == {phase.pick.value})
  {
    var cl := s.clients[c];
    assert HoldOk(s, cl);
    forall d | d != c && Pending(s, d) ensures cl.phase.held !! s.clients[d].phase.held {
      assert HoldsApart(cl, s.clients[d]);
    }
    if cl.phase.pick.Some? {
      var id := cl.phase.pick.value;
      assert (s.live - {id}).Keys == s.live.Keys - {id};
      assert |s.live.Keys| == |s.live| && |(s.live - {id}).Keys| == |s.live - {id}|;
    }
  }

  /** Transactions hold disjoint sets of live rows, so the DELETE of consumeOnce, whose row count nobody
      checks, always hits exactly one row. */
  lemma ConsumeDeletesOneRow(cfg: Config, states: seq<State>, actions: seq<Action>, n: nat, c: nat)
    requires IsRun(cfg, states, actions) && n < |states| && Pending(states[n], c)
    ensures var s, phase := states[n], states[n].clients[c].phase;
      && phase.held <= s.live.Keys
      && (forall d :: d != c && Pending(s, d) ==> phase.held !! s.clients[d].phase.held)
      && (phase.pick.Some? ==>
            && Enabled(cfg, s, CommitIn(c))
            && |s.live| == |Step(cfg, s, CommitIn(c)).live| + 1
            && s.live.Keys - Step(cfg, s, CommitIn(c)).live.Keys == {phase.pick.value})
  {
    RunHolds(cfg, states, actions, n);
    HoldsLiveRows(cfg, states[n], c);
  }

  // ----- wakeups -----

  /** A match the last scan of a call passed over: locked by someone else, or beyond the candidate limit. */
  ghost predicate PassedOver(cfg: Config, cl: Client, m: nat) {
    && IsMatch(cl.last.live, cl.req.space, cl.req.template, m)
    && (m in cl.last.locked ||
        BeyondLimit(cl.last.live, cl.req.space, cl.req.template, cl.last.locked, cfg.limit, m))
  }

  lemma ResidueOf(cfg: Config, s: State, c: nat)
    requires StoreInv(s) && ShapeInv(s) && ScanInv(cfg, s) && WakeInv(cfg, s)
    requires At(s, c, Parked) && !WakeupComing(cfg, s, c)
    ensures var cl := s.clients[c];
      forall m :: IsMatch(s.live, cl.req.space, cl.req.template, m) <==> m in s.live && PassedOver(cfg, cl, m)
  {
    var cl := s.clients[c];
    assert ShapeOk(cl) && ScanOk(cfg, s, cl) && WakeOk(cfg, s, c) && Waits(cl);
    forall id | id in cl.last.live ensures NormalTuple(cl.last.live[id].tuple) {
      assert cl.last.live[id] == s.committed[id];
    }
    PickMissed(cl.last.live, cl.req.space, cl.req.template, cl.last.locked, cfg.limit);
    forall m | m in s.live && m in cl.last.live ensures s.live[m] == cl.last.live[m] {
      assert s.live[m] == s.committed[m] && cl.last.live[m] == s.committed[m];
    }
  }

  lemma RecordIsNormal(cfg: Config, s: State, cl: Client)
    requires StoreInv(s) && ScanOk(cfg, s, cl)
    ensures NormalLive(cl.last.live)
  {
    forall id | id in cl.last.live ensures NormalTuple(cl.last.live[id].tuple) {
      assert cl.last.live[id] == s.committed[id];
    }
  }

  lemma EmptyHanded(cfg: Config, s: State, c: nat)
    requires StoreInv(s) && ShapeInv(s) && ScanInv(cfg, s) && c in s.clients && CameAwayEmpty(s.clients[c])
    ensures var cl := s.clients[c]; var req, last := cl.req, cl.last;
      && (forall m: nat :: IsMatch(last.live, req.space, req.template, m) ==> PassedOver(cfg, cl, m))
      && (ValidConfig(cfg) &&
          (|CandidateSet(last.live, req.space, req.template, last.locked)| <= cfg.limit || AllActual(req.template)) ==>
            forall m: nat :: IsMatch(last.live, req.space, req.template, m) ==> m in last.locked)
  {
    var req, last := s.clients[c].req, s.clients[c].last;
    assert ShapeOk(s.clients[c]) && ScanOk(cfg, s, s.clients[c]);
    RecordIsNormal(cfg, s, s.clients[c]);
    PickMissed(last.live, req.space, req.template, last.locked, cfg.limit);
    if ValidConfig(cfg) &&
       (|CandidateSet(last.live, req.space, req.template, last.locked)| <= cfg.limit || AllActual(req.template)) {
      NotFoundIsReliable(last.live, req.space, req.template, last.locked, cfg.limit);
    }
  }

  /** The exact residue of a parked call with no wakeup under way: the live matches are exactly the tuples
      its last scan passed over that are still live. */
  lemma ParkedResidue(cfg: Config, states: seq<State>, actions: seq<Action>, n: nat, c: nat)
    requires IsRun(cfg, states, actions) && n < |states|
    requires At(states[n], c, Parked) && !WakeupComing(cfg, states[n], c)
    ensures var s, cl := states[n], states[n].clients[c];
      forall m :: IsMatch(s.live, cl.req.space, cl.req.template, m) <==> m in s.live && PassedOver(cfg, cl, m)
  {
    RunHolds(cfg, states, actions, n);
    ResidueOf(cfg, states[n], c);
  }

  /** For any parked call whose last scan was not cut, every live match was locked by someone else at that scan. */
  lemma NothingLeftUncut(cfg: Config, states: seq<State>, actions: seq<Action>, n: nat, c: nat)
    requires ValidConfig(cfg) && IsRun(cfg, states, actions) && n < |states|
    requires At(states[n], c, Parked) && !WakeupComing(cfg, states[n], c)
    ensures var s, req, last := states[n], states[n].clients[c].req, states[n].clients[c].last;
      |CandidateSet(last.live, req.space, req.template, last.locked)| <= cfg.limit || AllActual(req.template) ==>
        forall m: nat :: IsMatch(s.live, req.space, req.template, m) ==> m in last.locked
  {
    RunHolds(cfg, states, actions, n);
    ParkedResidue(cfg, states, actions, n, c);
    var s, req, last := states[n], states[n].clients[c].req, states[n].clients[c].last;
    assert ShapeOk(s.clients[c]) && ScanOk(cfg, s, s.clients[c]);
    forall id | id in last.live ensures NormalTuple(last.live[id].tuple) {
      assert last.live[id] == s.committed[id];
    }
    if |CandidateSet(last.live, req.space, req.template, last.locked)| <= cfg.limit || AllActual(req.template) {
      NotFoundIsReliable(last.live, req.space, req.template, last.locked, cfg.limit);
    }
  }

  /** No lost wakeup for `rd`: parked with an empty channel and no notification on its way, every live tuple
      of the space was there at the last scan, and unless that scan was cut no live tuple matches. */
  lemma NoLostWakeupForRd(cfg: Config, states: seq<State>, actions: seq<Action>, n: nat, c: nat)
    requires ValidConfig(cfg) && IsRun(cfg, states, actions) && n < |states|
    requires At(states[n], c, Parked) && !WakeupComing(cfg, states[n], c) && !states[n].clients[c].req.destructive
    ensures var s, req, last := states[n], states[n].clients[c].req, states[n].clients[c].last;
      && (forall id :: id in s.live && s.live[id].space == req.space ==> id in last.live)
      && (|CandidateSet(last.live, req.space, req.template, {})| <= cfg.limit || AllActual(req.template) ==>
            forall m: nat :: !IsMatch(s.live, req.space, req.template, m))
  {
    RunHolds(cfg, states, actions, n);
    var s, cl := states[n], states[n].clients[c];
    assert ShapeOk(cl) && WakeOk(cfg, s, c) && Waits(cl) && ScanOk(cfg, s, cl);
    NothingLeftUncut(cfg, states, actions, n, c);
  }

  /** What "not found" and a timeout mean: every match at the call's last scan was locked by someone else or
      beyond the candidate limit; none of them within a scan that was not cut. */
  lemma NegativeAnswers(cfg: Config, states: seq<State>, actions: seq<Action>, n: nat, c: nat)
    requires ValidConfig(cfg) && IsRun(cfg, states, actions) && n < |states| && c in states[n].clients
    requires OutcomeOf(states[n].clients[c]) == Some(NotFound) || OutcomeOf(states[n].clients[c]) == Some(TimedOut)
    ensures var cl := states[n].clients[c]; var req, last := cl.req, cl.last;
      && (forall m: nat :: IsMatch(last.live, req.space, req.template, m) ==> PassedOver(cfg, cl, m))
      && (|CandidateSet(last.live, req.space, req.template, last.locked)| <= cfg.limit || AllActual(req.template) ==>
            forall m: nat :: IsMatch(last.live, req.space, req.template, m) ==> m in last.locked)
  {
    RunHolds(cfg, states, actions, n);
    EmptyHanded(cfg, states[n], c);
  }

  // ----- retries -----

  /** Notifications of c's channel delivered while c was registered, among the first n steps. */
  ghost function DeliveredTo(states: seq<State>, actions: seq<Action>, c: nat, n: nat): nat
    requires n <= |actions| < |states|
    requires forall i :: 0 <= i < n && actions[i].Deliver? ==> states[i].queue != []
  {
    if n == 0 then 0
    else
      DeliveredTo(states, actions, c, n - 1) +
      if actions[n - 1].Deliver? && c in N.Recipients(states[n - 1].notifier, states[n - 1].queue[0]) then 1 else 0
  }

  /** What c's subscription has received; nothing before there is one. */
  function Received(s: State, c: nat): nat {
    if c in s.notifier.subs then s.notifier.subs[c].received else 0
  }

  lemma OthersReceiveNothing(cfg: Config, s: State, a: Action, c: nat)
    requires Enabled(cfg, s, a) && !a.Deliver?
    ensures Received(Around(cfg, s, a), c) == Received(s, c)
  {
    match a {
      case Subscribe(d, result) => SubscribeAdds(cfg, s, d, result, c);
      case CloseSub(d, result) => CloseSubEnds(cfg, s, d, result, c);
      case Wake(d) => WakeTakes(cfg, s, d, c);
      case _ => OthersLeaveNotifier(cfg, s, a);
    }
  }

  lemma ReceivedChanges(cfg: Config, s: State, a: Action, c: nat)
    requires N.Inv(s.notifier) && Enabled(cfg, s, a)
    ensures Received(Step(cfg, s, a), c) ==
      Received(s, c) + if a.Deliver? && c in N.Recipients(s.notifier, s.queue[0]) then 1 else 0
  {
    if a.Deliver? {
      DeliverCounts(s, c);
    } else {
      OthersReceiveNothing(cfg, s, a, c);
    }
  }

  /** What a subscription counts is what the run delivered to it. */
  lemma {:induction false} ReceivedIsDelivered(cfg: Config, states: seq<State>, actions: seq<Action>, n: nat, c: nat)
    requires IsRun(cfg, states, actions) && n <= |actions|
    ensures Received(states[n], c) == DeliveredTo(states, actions, c, n)
  {
    if n > 0 {
      ReceivedIsDelivered(cfg, states, actions, n - 1, c);
      RunHolds(cfg, states, actions, n - 1);
      ReceivedChanges(cfg, states[n - 1], actions[n - 1], c);
    }
  }

  /** Bounded retries: at most one scan more than the notifications delivered while subscribed;
      exactly one for a finished call that does not wait. */
  lemma BoundedRetries(cfg: Config, states: seq<State>, actions: seq<Action>, n: nat, c: nat)
    requires IsRun(cfg, states, actions) && n <= |actions| && c in states[n].clients
    ensures states[n].clients[c].scans <= 1 + DeliveredTo(states, actions, c, n)
    ensures !states[n].clients[c].req.blocking && states[n].clients[c].phase.Returned? ==>
      states[n].clients[c].scans == 1
  {
    RunHolds(cfg, states, actions, n);
    ReceivedIsDelivered(cfg, states, actions, n, c);
    var s := states[n];
    assert RetryOk(s, c) && ShapeOk(s.clients[c]);
    if c in s.notifier.subs {
      assert SubOk(cfg, s, c);
    }
  }

  // ----- waiters and subscriptions -----

  ghost function WaitersOn(cfg: Config, s: State, channel: string): set<nat> {
    set w | w in s.waiters && s.waiters[w] in s.clients && Channel(cfg, s, s.waiters[w]) == channel
  }

  lemma {:induction false} InjectionSize(from: set<nat>, f: map<nat, nat>, to: set<nat>)
    requires from <= f.Keys
    requires forall w :: w in from ==> f[w] in to
    requires forall w, v :: w in from && v in from && f[w] == f[v] ==> w == v
    ensures |from| <= |to|
  {
    if from != {} {
      var w :| w in from;
      InjectionSize(from - {w}, f, to - {f[w]});
    }
  }

  lemma WaitersSubscribed(cfg: Config, s: State)
    requires ShapeInv(s) && SubInv(cfg, s) && WaiterInv(s)
    ensures forall w :: w in s.waiters ==>
      && s.waiters[w] in s.clients && s.clients[s.waiters[w]].waiter == Some(w)
      && s.waiters[w] in N.Recipients(s.notifier, Channel(cfg, s, s.waiters[w]))
  {
    forall w | w in s.waiters
      ensures s.waiters[w] in s.clients && s.waiters[w] in N.Recipients(s.notifier, Channel(cfg, s, s.waiters[w]))
    {
      var c := s.waiters[w];
      assert ShapeOk(s.clients[c]) && s.clients[c].waiter == Some(w);
      SubscribedMeansListening(cfg, s, c);
    }
  }

  /** Each active waiter id is positive, not above the counter, and belongs to one call, which remembers it and
      has a live subscription on its space's channel. */
  lemma WaitersAreSubscribed(cfg: Config, states: seq<State>, actions: seq<Action>, n: nat)
    requires IsRun(cfg, states, actions) && n < |states|
    ensures var s := states[n];
      && (forall w :: w in s.waiters ==>
            && 0 < w <= s.nextWaiter && s.waiters[w] in s.clients && s.clients[s.waiters[w]].waiter == Some(w)
            && s.waiters[w] in N.Recipients(s.notifier, Channel(cfg, s, s.waiters[w])))
      && (forall w, v :: w in s.waiters && v in s.waiters && s.waiters[w] == s.waiters[v] ==> w == v)
  {
    RunHolds(cfg, states, actions, n);
    WaitersSubscribed(cfg, states[n]);
  }

  /** Active waiters of a channel never outnumber its counted subscribers. */
  lemma WaitersWithinSubscribers(cfg: Config, states: seq<State>, actions: seq<Action>, n: nat, channel: string)
    requires IsRun(cfg, states, actions) && n < |states|
    ensures |WaitersOn(cfg, states[n], channel)| <= N.Count(states[n].notifier.refCounts, channel)
  {
    WaitersAreSubscribed(cfg, states, actions, n);
    RunHolds(cfg, states, actions, n);
    var s := states[n];
    InjectionSize(WaitersOn(cfg, s, channel), s.waiters, N.Recipients(s.notifier, channel));
    assert N.Count(s.notifier.refCounts, channel) == |N.Recipients(s.notifier, channel)|;
  }

  /** Once every read has returned, both registries are empty: no waiter, no counted channel, no subscriber. */
  lemma AllReturnedMeansEmpty(cfg: Config, states: seq<State>, actions: seq<Action>, n: nat)
    requires IsRun(cfg, states, actions) && n < |states|
    requires forall c :: c in states[n].clients ==> states[n].clients[c].phase.Returned?
    ensures states[n].waiters == map[] && states[n].notifier.refCounts == map[]
    ensures forall channel :: N.Recipients(states[n].notifier, channel) == {}
  {
    RunHolds(cfg, states, actions, n);
    var s := states[n];
    forall c | c in s.clients ensures s.clients[c].waiter.None? && !s.clients[c].subscribed {
      assert ShapeOk(s.clients[c]);
    }
    assert s.waiters == map[];
    forall c | c in s.notifier.subs ensures s.notifier.subs[c].closed {
      assert SubOk(cfg, s, c);
    }
    N.IdleIffNobody(s.notifier);
    forall channel ensures N.Recipients(s.notifier, channel) == {} {
      assert N.Count(s.notifier.refCounts, channel) == |N.Recipients(s.notifier, channel)|;
    }
  }
}
