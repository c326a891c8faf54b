/** Scans, subscriptions, wakeups, retries and waiters: what every step of the protocol keeps about them. */
module ProtocolWakeups {
  import opened Wrappers
  import opened CandidateQuery
  import opened Scan
  import opened Protocol
  import opened ProtocolInvariant
  import N = NotifierModel

  // ----- what the last scan saw -----

  /** The last scan found nothing, and the call waits or has said so. */
  predicate CameAwayEmpty(cl: Client) {
    cl.phase.Missed? || cl.phase.Parked? || OutcomeOf(cl) == Some(NotFound) || OutcomeOf(cl) == Some(TimedOut)
  }

  /** A transaction holds every row its scan returned: the candidates nobody had locked, up to the limit. */
  ghost predicate HeldOk(cfg: Config, cl: Client) {
    cl.phase.Holding? ==> forall id :: id in cl.phase.held <==>
      && id in cl.last.live && IsCandidate(cl.last.live[id], cl.req.space, cl.req.template) && id !in cl.last.locked
      && !BeyondLimit(cl.last.live, cl.req.space, cl.req.template, cl.last.locked, cfg.limit, id)
  }

  ghost predicate ScanOk(cfg: Config, s: State, cl: Client) {
    && (forall id :: id in cl.last.live ==> id in s.committed && cl.last.live[id] == s.committed[id])
    && (!cl.req.destructive ==> cl.last.locked == {})
    && (CameAwayEmpty(cl) ==> Pick(cl.last.live, cl.req.space, cl.req.template, cl.last.locked, cfg.limit) == None)
    && (cl.phase.Holding? ==>
          cl.phase.pick == Pick(cl.last.live, cl.req.space, cl.req.template, cl.last.locked, cfg.limit))
    && HeldOk(cfg, cl)
  }

  ghost predicate ScanInv(cfg: Config, s: State) {
    forall c :: c in s.clients ==> ScanOk(cfg, s, s.clients[c])
  }

  lemma ScanRdRecords(cfg: Config, s: State, c: nat)
    requires StoreInv(s) && Enabled(cfg, s, ScanRd(c))
    ensures ScanOk(cfg, s, Moved(cfg, s, ScanRd(c)))
  {
    var req := s.clients[c].req;
    ScanLocksFreshRows(s.live, req.space, req.template, {}, cfg.limit);
    assert Moved(cfg, s, ScanRd(c)) == ScannedRd(cfg, s, c);
    assert CameAwayEmpty(ScannedRd(cfg, s, c)) ==> Pick(s.live, req.space, req.template, {}, cfg.limit).None?;
  }

  lemma ScanInHolds(cfg: Config, s: State, c: nat)
    requires Enabled(cfg, s, ScanIn(c))
    ensures HeldOk(cfg, Moved(cfg, s, ScanIn(c)))
  {
    var cl := Moved(cfg, s, ScanIn(c));
    forall id ensures id in cl.phase.held <==>
      && id in cl.last.live && IsCandidate(cl.last.live[id], cl.req.space, cl.req.template) && id !in cl.last.locked
      && !BeyondLimit(cl.last.live, cl.req.space, cl.req.template, cl.last.locked, cfg.limit, id)
    {
      TakenMeaning(s.live, cl.req.space, cl.req.template, Locked(s), cfg.limit, id);
    }
  }

  lemma ScanInRecords(cfg: Config, s: State, c: nat)
    requires StoreInv(s) && Enabled(cfg, s, ScanIn(c))
    ensures ScanOk(cfg, s, Moved(cfg, s, ScanIn(c)))
  {
    ScanInHolds(cfg, s, c);
  }

  /** Between scans the record stays, and a call that came away empty did so at that scan. */
  lemma RecordStays(cfg: Config, s: State, a: Action)
    requires Enabled(cfg, s, a) && Actor(a).Some? && !a.Begin? && !a.ScanRd? && !a.ScanIn?
    ensures Actor(a).value in s.clients
    ensures var cl, cl' := s.clients[Actor(a).value], Moved(cfg, s, a);
      && cl'.last == cl.last && cl'.req == cl.req && !cl'.phase.Holding?
      && (CameAwayEmpty(cl') ==> CameAwayEmpty(cl) || (cl.phase.Holding? && cl.phase.pick.None?))
  {
  }

  lemma ActorScan(cfg: Config, s: State, a: Action)
    requires StoreInv(s) && ScanInv(cfg, s) && Enabled(cfg, s, a) && Actor(a).Some?
    ensures ScanOk(cfg, s, Moved(cfg, s, a))
  {
    if a.ScanRd? {
      ScanRdRecords(cfg, s, a.c);
    } else if a.ScanIn? {
      ScanInRecords(cfg, s, a.c);
    } else if !a.Begin? {
      RecordStays(cfg, s, a);
      assert ScanOk(cfg, s, s.clients[Actor(a).value]);
    }
  }

  lemma ScanOkStays(cfg: Config, s: State, s': State, cl: Client)
    requires ScanOk(cfg, s, cl)
    requires forall id :: id in s.committed ==> id in s'.committed && s'.committed[id] == s.committed[id]
    ensures ScanOk(cfg, s', cl)
  {
  }

  lemma ScansKept(cfg: Config, s: State, a: Action)
    requires StoreInv(s) && ScanInv(cfg, s) && Enabled(cfg, s, a)
    ensures ScanInv(cfg, Step(cfg, s, a))
  {
    var s' := Step(cfg, s, a);
    OnlyActorMoves(cfg, s, a);
    CommittedGrows(cfg, s, a);
    forall c | c in s'.clients ensures ScanOk(cfg, s', s'.clients[c]) {
      if Actor(a) == Some(c) {
        ActorScan(cfg, s, a);
      }
      ScanOkStays(cfg, s, s', s'.clients[c]);
    }
  }

  // ----- subscriptions -----

  /** Only blocking calls subscribe, and a call's subscription is registered on its space's channel exactly
      while the call is subscribed. */
  ghost predicate SubOk(cfg: Config, s: State, c: nat)
    requires c in s.notifier.subs
  {
    && c in s.clients && s.clients[c].req.blocking && !s.clients[c].phase.Subscribing?
    && s.notifier.subs[c].channel == Channel(cfg, s, c)
    && (s.notifier.subs[c].closed <==> !s.clients[c].subscribed)
  }

  ghost predicate SubInv(cfg: Config, s: State) {
    && N.Inv(s.notifier) && !s.notifier.closed
    && (forall c :: c in s.notifier.subs ==> SubOk(cfg, s, c))
    && (forall c :: c in s.clients && s.clients[c].subscribed ==> c in s.notifier.subs)
  }

  predicate TouchesNotifier(a: Action) {
    a.Subscribe? || a.CloseSub? || a.Wake? || a.Deliver?
  }

  lemma OthersLeaveNotifier(cfg: Config, s: State, a: Action)
    requires Enabled(cfg, s, a) && !TouchesNotifier(a)
    ensures Around(cfg, s, a).notifier == s.notifier
  {
  }

  lemma NotifierStaysSound(cfg: Config, s: State, a: Action)
    requires N.Inv(s.notifier) && !s.notifier.closed && Enabled(cfg, s, a)
    ensures N.Inv(Around(cfg, s, a).notifier) && !Around(cfg, s, a).notifier.closed
  {
    match a {
      case Subscribe(c, result) => N.SubscribeKeepsInv(s.notifier, c, Channel(cfg, s, c), result);
      case CloseSub(c, result) => N.UnsubscribeKeepsInv(s.notifier, c, result);
      case Wake(c) => N.ReceiveKeepsInv(s.notifier, c);
      case Deliver => N.DeliverKeepsInv(s.notifier, s.queue[0]);
      case _ => OthersLeaveNotifier(cfg, s, a);
    }
  }

  lemma SubscribeAdds(cfg: Config, s: State, c: nat, result: N.CommandResult, d: nat)
    requires Enabled(cfg, s, Subscribe(c, result))
    ensures var subs, subs' := s.notifier.subs, Around(cfg, s, Subscribe(c, result)).notifier.subs;
      && (d in subs ==> d in subs' && subs'[d] == subs[d])
      && (d in subs' && d !in subs ==>
            && c == d && !N.ListenFails(s.notifier, Channel(cfg, s, d), result)
            && subs'[d] == N.Sub(Channel(cfg, s, d), false, true, 0, 0))
  {
  }

  lemma CloseSubEnds(cfg: Config, s: State, c: nat, result: N.CommandResult, d: nat)
    requires Enabled(cfg, s, CloseSub(c, result))
    ensures var subs, subs' := s.notifier.subs, Around(cfg, s, CloseSub(c, result)).notifier.subs;
      && (d in subs <==> d in subs')
      && (d in subs ==> subs'[d].channel == subs[d].channel && subs'[d].received == subs[d].received
                        && (c != d ==> subs'[d] == subs[d]) && subs'[d].tokens == subs[d].tokens)
      && (!s.notifier.closed ==> subs'[c].closed)
  {
  }

  lemma WakeTakes(cfg: Config, s: State, c: nat, d: nat)
    requires Enabled(cfg, s, Wake(c))
    ensures var subs, subs' := s.notifier.subs, Around(cfg, s, Wake(c)).notifier.subs;
      && (d in subs <==> d in subs')
      && (d in subs ==> subs'[d] == subs[d].(tokens := if c == d then subs[d].tokens - 1 else subs[d].tokens))
  {
  }

  lemma DeliverCounts(s: State, d: nat)
    requires s.queue != []
    ensures var subs, subs' := s.notifier.subs, DoDeliver(s).notifier.subs;
      && (d in subs <==> d in subs')
      && (d in subs ==> subs'[d].channel == subs[d].channel && subs'[d].closed == subs[d].closed
                        && subs'[d].received == subs[d].received +
                             if d in N.Recipients(s.notifier, s.queue[0]) then 1 else 0)
  {
  }

  /** Subscriptions are only added by Subscribe and closed by CloseSub. */
  lemma SubscriptionsPersist(cfg: Config, s: State, a: Action, d: nat)
    requires Enabled(cfg, s, a)
    ensures var subs, subs' := s.notifier.subs, Around(cfg, s, a).notifier.subs;
      && (d in subs ==>
            && d in subs' && subs'[d].channel == subs[d].channel
            && (!a.CloseSub? || a.c != d ==> subs'[d].closed == subs[d].closed))
      && (d in subs' && d !in subs ==>
            && a.Subscribe? && a.c == d && !N.ListenFails(s.notifier, Channel(cfg, s, d), a.result)
            && subs'[d] == N.Sub(Channel(cfg, s, d), false, true, 0, 0))
  {
    match a {
      case Subscribe(c, result) => SubscribeAdds(cfg, s, c, result, d);
      case CloseSub(c, result) => CloseSubEnds(cfg, s, c, result, d);
      case Wake(c) => WakeTakes(cfg, s, c, d);
      case Deliver => DeliverCounts(s, d);
      case _ => OthersLeaveNotifier(cfg, s, a);
    }
  }

  lemma SameSubOk(cfg: Config, s: State, s': State, d: nat)
    requires d in s.notifier.subs && SubOk(cfg, s, d) && d in s'.notifier.subs && d in s'.clients
    requires s'.clients[d].req == s.clients[d].req && !s'.clients[d].phase.Subscribing?
    requires s'.notifier.subs[d].channel == s.notifier.subs[d].channel
    requires s'.notifier.subs[d].closed <==> !s'.clients[d].subscribed
    ensures SubOk(cfg, s', d)
  {
  }

  /** Whether a call is subscribed changes only in Subscribe and CloseSub. */
  lemma SubscribedChanges(cfg: Config, s: State, a: Action)
    requires Enabled(cfg, s, a) && Actor(a).Some? && !a.Begin? && !a.Subscribe?
    ensures Actor(a).value in s.clients && !Moved(cfg, s, a).phase.Subscribing?
    ensures Moved(cfg, s, a).subscribed == (s.clients[Actor(a).value].subscribed && !a.CloseSub?)
  {
    assert !s.clients[Actor(a).value].phase.Subscribing?;
  }

  /** The acting call of an open subscription stays subscribed unless it is CloseSub that acts. */
  lemma ActorSubscription(cfg: Config, s: State, a: Action)
    requires Enabled(cfg, s, a) && Actor(a).Some? && !s.notifier.closed
    requires Actor(a).value in s.notifier.subs && SubOk(cfg, s, Actor(a).value)
    ensures Actor(a).value in s.clients && !Moved(cfg, s, a).phase.Subscribing?
    ensures Moved(cfg, s, a).subscribed <==> s.clients[Actor(a).value].subscribed && !a.CloseSub?
    ensures a.CloseSub? ==> Actor(a).value in Around(cfg, s, a).notifier.subs
                            && Around(cfg, s, a).notifier.subs[Actor(a).value].closed
  {
    var d := Actor(a).value;
    assert !a.Begin? && !a.Subscribe?;
    SubscribedChanges(cfg, s, a);
    if a.CloseSub? {
      CloseSubEnds(cfg, s, d, a.result, d);
    }
  }

  lemma ActorSubOk(cfg: Config, s: State, a: Action)
    requires Enabled(cfg, s, a) && Actor(a).Some? && !s.notifier.closed
    requires Actor(a).value in s.notifier.subs && SubOk(cfg, s, Actor(a).value)
    ensures Actor(a).value in Step(cfg, s, a).notifier.subs && SubOk(cfg, Step(cfg, s, a), Actor(a).value)
  {
    var d := Actor(a).value;
    OnlyActorMoves(cfg, s, a);
    SubscriptionsPersist(cfg, s, a, d);
    ActorSubscription(cfg, s, a);
    SameSubOk(cfg, s, Step(cfg, s, a), d);
  }

  lemma BystanderSubOk(cfg: Config, s: State, a: Action, d: nat)
    requires Enabled(cfg, s, a) && Actor(a) != Some(d) && d in s.notifier.subs && SubOk(cfg, s, d)
    ensures d in Step(cfg, s, a).notifier.subs && SubOk(cfg, Step(cfg, s, a), d)
  {
    OnlyActorMoves(cfg, s, a);
    SubscriptionsPersist(cfg, s, a, d);
    SameSubOk(cfg, s, Step(cfg, s, a), d);
  }

  lemma NewSubOk(cfg: Config, s: State, c: nat, result: N.CommandResult)
    requires Enabled(cfg, s, Subscribe(c, result)) && !N.ListenFails(s.notifier, Channel(cfg, s, c), result)
    requires ShapeInv(s)
    ensures c in Step(cfg, s, Subscribe(c, result)).notifier.subs && SubOk(cfg, Step(cfg, s, Subscribe(c, result)), c)
  {
  }

  lemma SubOkStays(cfg: Config, s: State, a: Action, d: nat)
    requires Enabled(cfg, s, a) && ShapeInv(s) && SubInv(cfg, s) && d in Step(cfg, s, a).notifier.subs
    ensures SubOk(cfg, Step(cfg, s, a), d)
  {
    SubscriptionsPersist(cfg, s, a, d);
    if d !in s.notifier.subs {
      NewSubOk(cfg, s, d, a.result);
    } else if Actor(a) == Some(d) {
      ActorSubOk(cfg, s, a);
    } else {
      BystanderSubOk(cfg, s, a, d);
    }
  }

  lemma NewlySubscribed(cfg: Config, s: State, a: Action, c: nat)
    requires Enabled(cfg, s, a) && c in Step(cfg, s, a).clients && Step(cfg, s, a).clients[c].subscribed
    ensures c in s.clients && (s.clients[c].subscribed || c in Step(cfg, s, a).notifier.subs)
  {
    OnlyActorMoves(cfg, s, a);
    if a.Subscribe? {
      SubscribeAdds(cfg, s, a.c, a.result, c);
    } else if Actor(a) == Some(c) && !a.Begin? {
      SubscribedChanges(cfg, s, a);
    }
  }

  lemma SubsKept(cfg: Config, s: State, a: Action)
    requires ShapeInv(s) && SubInv(cfg, s) && Enabled(cfg, s, a)
    ensures SubInv(cfg, Step(cfg, s, a))
  {
    var s' := Step(cfg, s, a);
    NotifierStaysSound(cfg, s, a);
    forall c | c in s'.notifier.subs ensures SubOk(cfg, s', c) {
      SubOkStays(cfg, s, a, c);
    }
    forall c | c in s'.clients && s'.clients[c].subscribed ensures c in s'.notifier.subs {
      SubscriptionsPersist(cfg, s, a, c);
      NewlySubscribed(cfg, s, a, c);
    }
  }

  /** While a call is subscribed its channel is listened to and counted. */
  lemma SubscribedMeansListening(cfg: Config, s: State, c: nat)
    requires SubInv(cfg, s) && c in s.clients && s.clients[c].subscribed
    ensures Channel(cfg, s, c) in s.notifier.listening && s.notifier.refCounts != map[]
    ensures c in N.Recipients(s.notifier, Channel(cfg, s, c))
  {
    assert SubOk(cfg, s, c);
    var ch := Channel(cfg, s, c);
    assert c in N.Recipients(s.notifier, ch);
    assert N.Count(s.notifier.refCounts, ch) == |N.Recipients(s.notifier, ch)|;
    assert ch in s.notifier.refCounts;
  }

  // ----- wakeups -----

  /** Between a scan and the next wakeup. */
  predicate Waits(cl: Client) {
    cl.subscribed && (cl.phase.Holding? || cl.phase.Missed? || cl.phase.Parked?)
  }

  /** A wakeup for c is under way: a token in its channel or a notification not yet delivered. */
  ghost predicate WakeupComing(cfg: Config, s: State, c: nat)
    requires c in s.clients
  {
    Tokens(s, c) > 0 || Channel(cfg, s, c) in s.queue
  }

  /** Every live tuple of the space was there at the last scan, or a wakeup is coming. */
  ghost predicate WakeOk(cfg: Config, s: State, c: nat)
    requires c in s.clients
  {
    Waits(s.clients[c]) ==>
      WakeupComing(cfg, s, c) ||
      forall id :: id in s.live && s.live[id].space == s.clients[c].req.space ==> id in s.clients[c].last.live
  }

  ghost predicate WakeInv(cfg: Config, s: State) {
    forall c :: c in s.clients ==> WakeOk(cfg, s, c)
  }

  /** How a call comes to wait: it scans just now, or it waited before and nothing was taken from its channel. */
  lemma ActorWaits(cfg: Config, s: State, a: Action)
    requires Enabled(cfg, s, a) && Actor(a).Some? && !a.Begin? && Waits(Moved(cfg, s, a))
    ensures Actor(a).value in s.clients
    ensures var cl, cl' := s.clients[Actor(a).value], Moved(cfg, s, a);
      cl'.last.live == s.live || (Waits(cl) && cl'.last == cl.last && !TouchesNotifier(a) && !a.CommitIn?)
  {
  }

  lemma QueueStays(cfg: Config, s: State, a: Action)
    requires Enabled(cfg, s, a) && !a.Deliver?
    ensures forall ch :: ch in s.queue ==> ch in Around(cfg, s, a).queue
  {
  }

  lemma LiveShrinks(cfg: Config, s: State, a: Action)
    requires Enabled(cfg, s, a) && !a.OutCommit?
    ensures forall id :: id in Around(cfg, s, a).live ==> id in s.live && Around(cfg, s, a).live[id] == s.live[id]
  {
  }

  lemma ActorWake(cfg: Config, s: State, a: Action)
    requires Enabled(cfg, s, a) && Actor(a).Some? && WakeInv(cfg, s)
    ensures WakeOk(cfg, Step(cfg, s, a), Actor(a).value)
  {
    var c := Actor(a).value;
    OnlyActorMoves(cfg, s, a);
    if !a.Begin? && Waits(Moved(cfg, s, a)) {
      assert WakeOk(cfg, s, c);
      ActorWaits(cfg, s, a);
      LiveShrinks(cfg, s, a);
      if !TouchesNotifier(a) {
        OthersLeaveNotifier(cfg, s, a);
        QueueStays(cfg, s, a);
      }
    }
  }

  lemma CommitWakes(cfg: Config, s: State, id: nat, c: nat)
    requires id in s.pending && SubInv(cfg, s) && c in s.clients && WakeOk(cfg, s, c)
    ensures WakeOk(cfg, DoOutCommit(cfg, s, id), c)
  {
    var s' := DoOutCommit(cfg, s, id);
    if Waits(s.clients[c]) {
      SubscribedMeansListening(cfg, s, c);
      if s.pending[id].space == s.clients[c].req.space {
        assert s'.queue == s.queue + [Channel(cfg, s, c)];
      }
    }
  }

  /** A test notification of a subscribed call's channel puts a wakeup for it under way, and those that were
      stay so. */
  lemma NotifyTestWakes(cfg: Config, s: State, space: string, c: nat)
    requires SubInv(cfg, s) && c in s.clients && s.clients[c].subscribed
    requires cfg.channelName(space) == Channel(cfg, s, c) || WakeupComing(cfg, s, c)
    ensures WakeupComing(cfg, Step(cfg, s, NotifyTest(space)), c)
  {
    SubscribedMeansListening(cfg, s, c);
  }

  lemma DeliverWakes(cfg: Config, s: State, c: nat)
    requires s.queue != [] && SubInv(cfg, s) && c in s.clients && WakeOk(cfg, s, c)
    ensures WakeOk(cfg, DoDeliver(s), c)
  {
    if Waits(s.clients[c]) {
      var ch := Channel(cfg, s, c);
      SubscribedMeansListening(cfg, s, c);
      N.DeliverMeaning(s.notifier, s.queue[0], c);
      if ch in s.queue && s.queue[0] != ch {
        var k :| 0 <= k < |s.queue| && s.queue[k] == ch;
        assert s.queue[1..][k - 1] == ch;
      }
    }
  }

  /** Steps of others, deliveries apart, leave the subscription of c alone. */
  lemma BystanderSub(cfg: Config, s: State, a: Action, c: nat)
    requires Enabled(cfg, s, a) && Actor(a) != Some(c) && !a.Deliver?
    ensures var subs, subs' := s.notifier.subs, Around(cfg, s, a).notifier.subs;
      (c in subs' <==> c in subs) && (c in subs ==> subs'[c] == subs[c])
  {
    match a {
      case Subscribe(d, result) => SubscribeAdds(cfg, s, d, result, c);
      case CloseSub(d, result) => CloseSubEnds(cfg, s, d, result, c);
      case Wake(d) => WakeTakes(cfg, s, d, c);
      case _ => OthersLeaveNotifier(cfg, s, a);
    }
  }

  /** Other steps of other parties take neither a token nor a notification from c, nor add a live tuple. */
  lemma BystanderWakes(cfg: Config, s: State, a: Action, c: nat)
    requires Enabled(cfg, s, a) && c in s.clients && WakeOk(cfg, s, c) && Actor(a) != Some(c)
    requires !a.OutCommit? && !a.Deliver?
    ensures c in Step(cfg, s, a).clients && WakeOk(cfg, Step(cfg, s, a), c)
  {
    OnlyActorMoves(cfg, s, a);
    BystanderSub(cfg, s, a, c);
    QueueStays(cfg, s, a);
    LiveShrinks(cfg, s, a);
  }

  lemma WakesKept(cfg: Config, s: State, a: Action)
    requires SubInv(cfg, s) && WakeInv(cfg, s) && Enabled(cfg, s, a)
    ensures WakeInv(cfg, Step(cfg, s, a))
  {
    var s' := Step(cfg, s, a);
    OnlyActorMoves(cfg, s, a);
    forall c | c in s'.clients ensures WakeOk(cfg, s', c) {
      if Actor(a) == Some(c) {
        ActorWake(cfg, s, a);
      } else if a.OutCommit? {
        CommitWakes(cfg, s, a.id, c);
      } else if a.Deliver? {
        DeliverWakes(cfg, s, c);
      } else {
        BystanderWakes(cfg, s, a, c);
      }
    }
  }

  // ----- retries -----

  /** Each scan but the first was paid for by a notification. */
  predicate RetryOk(s: State, c: nat)
    requires c in s.clients
  {
    var cl := s.clients[c];
    if c in s.notifier.subs then
      cl.scans + s.notifier.subs[c].tokens + (if cl.phase.Scanning? then 1 else 0) <= 1 + s.notifier.subs[c].received
    else if cl.req.blocking then cl.scans == 0
    else cl.scans == if cl.phase.Scanning? then 0 else 1
  }

  ghost predicate RetryInv(s: State) {
    forall c :: c in s.clients ==> RetryOk(s, c)
  }

  /** Only a scan counts as one, and only Begin, Subscribe and Wake lead to one. */
  lemma ScanCounts(cfg: Config, s: State, a: Action)
    requires Enabled(cfg, s, a) && Actor(a).Some? && !a.Begin?
    ensures Actor(a).value in s.clients
    ensures var cl, cl' := s.clients[Actor(a).value], Moved(cfg, s, a);
      && cl'.req == cl.req
      && cl'.scans == cl.scans + (if cl.phase.Scanning? then 1 else 0)
      && (cl'.phase.Scanning? ==> a.Wake? || a.Subscribe?)
  {
  }

  /** What the acting call's own subscription goes through. */
  lemma ActorTokens(cfg: Config, s: State, a: Action)
    requires Enabled(cfg, s, a) && Actor(a).Some? && Actor(a).value in s.notifier.subs
    ensures Actor(a).value in Around(cfg, s, a).notifier.subs
    ensures var sub, sub' := s.notifier.subs[Actor(a).value], Around(cfg, s, a).notifier.subs[Actor(a).value];
      sub'.received == sub.received && sub'.tokens == sub.tokens - (if a.Wake? then 1 else 0)
  {
    match a {
      case CloseSub(c, result) => CloseSubEnds(cfg, s, c, result, c);
      case Wake(c) => WakeTakes(cfg, s, c, c);
      case _ => OthersLeaveNotifier(cfg, s, a);
    }
  }

  lemma SubscribeRetry(cfg: Config, s: State, c: nat, result: N.CommandResult)
    requires Enabled(cfg, s, Subscribe(c, result)) && ShapeOk(s.clients[c]) && RetryOk(s, c)
    ensures RetryOk(Step(cfg, s, Subscribe(c, result)), c)
  {
  }

  /** A call without a subscription that is past Subscribe does not block. */
  lemma UnsubscribedActor(cfg: Config, s: State, a: Action)
    requires Enabled(cfg, s, a) && Actor(a).Some? && !a.Begin? && !a.Subscribe?
    requires ShapeInv(s) && SubInv(cfg, s) && Actor(a).value !in s.notifier.subs
    ensures Actor(a).value in s.clients
    ensures var cl := s.clients[Actor(a).value]; !cl.req.blocking && (cl.phase.Scanning? || cl.phase.Holding?)
  {
    assert ShapeOk(s.clients[Actor(a).value]) && !s.clients[Actor(a).value].subscribed;
  }

  lemma ActorRetry(cfg: Config, s: State, a: Action)
    requires Enabled(cfg, s, a) && Actor(a).Some? && ShapeInv(s) && SubInv(cfg, s) && RetryInv(s)
    ensures RetryOk(Step(cfg, s, a), Actor(a).value)
  {
    var c := Actor(a).value;
    OnlyActorMoves(cfg, s, a);
    SubscriptionsPersist(cfg, s, a, c);
    if a.Begin? {
      assert c !in s.notifier.subs;
    } else if a.Subscribe? {
      assert RetryOk(s, c) && ShapeOk(s.clients[c]);
      SubscribeRetry(cfg, s, c, a.result);
    } else {
      assert RetryOk(s, c);
      ScanCounts(cfg, s, a);
      if c in s.notifier.subs {
        ActorTokens(cfg, s, a);
      } else {
        UnsubscribedActor(cfg, s, a);
      }
    }
  }

  lemma DeliverRetry(cfg: Config, s: State, c: nat)
    requires s.queue != [] && SubInv(cfg, s) && c in s.clients && RetryOk(s, c)
    ensures RetryOk(DoDeliver(s), c)
  {
  }

  lemma SameRetry(s: State, s': State, c: nat)
    requires c in s.clients && RetryOk(s, c) && c in s'.clients && s'.clients[c] == s.clients[c]
    requires (c in s'.notifier.subs <==> c in s.notifier.subs)
    requires c in s.notifier.subs ==> s'.notifier.subs[c] == s.notifier.subs[c]
    ensures RetryOk(s', c)
  {
  }

  lemma RetryStays(cfg: Config, s: State, a: Action, c: nat)
    requires RetryInv(s) && Enabled(cfg, s, a) && !a.Deliver? && c in s.clients && Actor(a) != Some(c)
    ensures c in Step(cfg, s, a).clients && RetryOk(Step(cfg, s, a), c)
  {
    assert RetryOk(s, c);
    OnlyActorMoves(cfg, s, a);
    BystanderSub(cfg, s, a, c);
    SameRetry(s, Step(cfg, s, a), c);
  }

  lemma RetriesKept(cfg: Config, s: State, a: Action)
    requires ShapeInv(s) && SubInv(cfg, s) && RetryInv(s) && Enabled(cfg, s, a)
    ensures RetryInv(Step(cfg, s, a))
  {
    OnlyActorMoves(cfg, s, a);
    forall c | c in Step(cfg, s, a).clients ensures RetryOk(Step(cfg, s, a), c) {
      if Actor(a) == Some(c) {
        ActorRetry(cfg, s, a);
      } else if a.Deliver? {
        DeliverRetry(cfg, s, c);
      } else {
        RetryStays(cfg, s, a, c);
      }
    }
  }

  // ----- waiters -----

  /** Active waiter ids are unique, not above the counter, and each belongs to the call that remembers it. */
  ghost predicate WaiterInv(s: State) {
    && (forall w :: w in s.waiters ==>
          0 < w <= s.nextWaiter && s.waiters[w] in s.clients && s.clients[s.waiters[w]].waiter == Some(w))
    && (forall c :: c in s.clients && s.clients[c].waiter.Some? ==>
          s.clients[c].waiter.value in s.waiters && s.waiters[s.clients[c].waiter.value] == c)
  }

  lemma NewWaiterKept(s: State, s': State, c: nat)
    requires WaiterInv(s) && c in s.clients && s.clients[c].waiter.None?
    requires s'.nextWaiter == s.nextWaiter + 1 && s'.waiters == s.waiters[s'.nextWaiter := c]
    requires s'.clients.Keys == s.clients.Keys && s'.clients[c].waiter == Some(s'.nextWaiter)
    requires forall d :: d in s.clients && d != c ==> s'.clients[d] == s.clients[d]
    ensures WaiterInv(s')
  {
    forall w | w in s.waiters ensures s.waiters[w] != c {
      assert s.clients[s.waiters[w]].waiter == Some(w);
    }
  }

  lemma SameWaitersKept(s: State, s': State)
    requires WaiterInv(s) && s'.waiters == s.waiters && s'.nextWaiter == s.nextWaiter
    requires s.clients.Keys <= s'.clients.Keys
    requires forall c :: c in s'.clients ==>
      if c in s.clients then s'.clients[c].waiter == s.clients[c].waiter else s'.clients[c].waiter.None?
    ensures WaiterInv(s')
  {
  }

  lemma ParkKeepsWaiters(cfg: Config, s: State, c: nat)
    requires WaiterInv(s) && Enabled(cfg, s, Park(c))
    ensures WaiterInv(Step(cfg, s, Park(c)))
  {
    if s.clients[c].waiter.Some? {
      SameWaitersKept(s, Step(cfg, s, Park(c)));
    } else {
      NewWaiterKept(s, Step(cfg, s, Park(c)), c);
    }
  }

  lemma UnregisterKeepsWaiters(cfg: Config, s: State, c: nat)
    requires WaiterInv(s) && Enabled(cfg, s, Unregister(c))
    ensures WaiterInv(Step(cfg, s, Unregister(c)))
  {
  }

  lemma OthersLeaveRegistry(cfg: Config, s: State, a: Action)
    requires Enabled(cfg, s, a) && !a.Park? && !a.Unregister?
    ensures Around(cfg, s, a).waiters == s.waiters && Around(cfg, s, a).nextWaiter == s.nextWaiter
  {
  }

  lemma OthersKeepWaiter(cfg: Config, s: State, a: Action)
    requires Enabled(cfg, s, a) && Actor(a).Some? && !a.Park? && !a.Unregister?
    ensures if a.Begin? then Moved(cfg, s, a).waiter.None?
            else Actor(a).value in s.clients && Moved(cfg, s, a).waiter == s.clients[Actor(a).value].waiter
  {
  }

  lemma WaitersKept(cfg: Config, s: State, a: Action)
    requires WaiterInv(s) && Enabled(cfg, s, a)
    ensures WaiterInv(Step(cfg, s, a))
  {
    if a.Park? {
      ParkKeepsWaiters(cfg, s, a.c);
    } else if a.Unregister? {
      UnregisterKeepsWaiters(cfg, s, a.c);
    } else {
      OthersLeaveRegistry(cfg, s, a);
      OnlyActorMoves(cfg, s, a);
      if Actor(a).Some? {
        OthersKeepWaiter(cfg, s, a);
      }
      SameWaitersKept(s, Step(cfg, s, a));
    }
  }
}
