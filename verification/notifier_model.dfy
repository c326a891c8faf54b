/** internal/notify/notifier.go as a state machine on values: reference counts, subscriber sets,
    LISTEN and UNLISTEN that may fail, one-slot wakeup channels. S names subscriptions. */
module NotifierModel {
  import opened Wrappers

  /** One *subscription. `received` is history: notifications delivered while it was registered. */
  datatype Sub = Sub(channel: string, closed: bool, open: bool, tokens: nat, received: nat)

  datatype State<S> = State(refCounts: map<string, nat>, subscribers: map<string, set<S>>,
                            subs: map<S, Sub>, closed: bool, listening: set<string>)

  /** How LISTEN or UNLISTEN went: fine, failed, or failed after the server had carried it out. */
  datatype CommandResult = Done | Refused | DoneButFailed

  function Count(refCounts: map<string, nat>, channel: string): nat {
    if channel in refCounts then refCounts[channel] else 0
  }

  function Recipients<S>(st: State<S>, channel: string): set<S> {
    if channel in st.subscribers then st.subscribers[channel] else {}
  }

  // ----- the control requests -----

  predicate ListenFails<S>(st: State<S>, channel: string, result: CommandResult) {
    Count(st.refCounts, channel) == 0 && result != Done
  }

  /** Subscribe when LISTEN fails: an empty subscriber set stays behind. */
  function FailedSubscribe<S>(st: State<S>, channel: string, result: CommandResult): State<S> {
    st.(subscribers := st.subscribers[channel := Recipients(st, channel)],
        listening := if result == Refused then st.listening else st.listening + {channel})
  }

  function AddSubscriber<S>(st: State<S>, sub: S, channel: string): State<S> {
    st.(refCounts := st.refCounts[channel := Count(st.refCounts, channel) + 1],
        subscribers := st.subscribers[channel := Recipients(st, channel) + {sub}],
        subs := st.subs[sub := Sub(channel, false, true, 0, 0)],
        listening := if Count(st.refCounts, channel) == 0 then st.listening + {channel} else st.listening)
  }

  function Subscribe<S>(st: State<S>, sub: S, channel: string, result: CommandResult): State<S> {
    if ListenFails(st, channel, result) then FailedSubscribe(st, channel, result)
    else AddSubscriber(st, sub, channel)
  }

  function DropSubscriber<S>(subscribers: map<string, set<S>>, channel: string, sub: S): map<string, set<S>> {
    if channel !in subscribers then subscribers
    else if subscribers[channel] - {sub} == {} then subscribers - {channel}
    else subscribers[channel := subscribers[channel] - {sub}]
  }

  function DropCount(refCounts: map<string, nat>, channel: string): map<string, nat> {
    if Count(refCounts, channel) <= 1 then refCounts - {channel}
    else refCounts[channel := refCounts[channel] - 1]
  }

  function Unsubscribe<S>(st: State<S>, sub: S, result: CommandResult): State<S>
    requires sub in st.subs
  {
    var s := st.subs[sub];
    if st.closed || s.closed then st
    else
      var last := Count(st.refCounts, s.channel) <= 1;
      st.(refCounts := DropCount(st.refCounts, s.channel),
          subscribers := DropSubscriber(st.subscribers, s.channel, sub),
          // a failed UNLISTEN returns before close(sub.ch)
          subs := st.subs[sub := s.(closed := true, open := last && result != Done)],
          listening := if last && result != Refused then st.listening - {s.channel} else st.listening)
  }

  // ----- delivery -----

  /** The non-blocking send into a channel of capacity one. */
  function Offer(s: Sub): Sub {
    s.(tokens := if s.tokens < 1 then s.tokens + 1 else s.tokens, received := s.received + 1)
  }

  function Deliver<S>(st: State<S>, channel: string): State<S> {
    st.(subs := map s | s in st.subs :: if s in Recipients(st, channel) then Offer(st.subs[s]) else st.subs[s])
  }

  /** Who has an empty channel and so takes a send. */
  function TakesSend<S>(st: State<S>, channel: string): set<S> {
    set s | s in Recipients(st, channel) && s in st.subs && st.subs[s].tokens == 0
  }

  /** `<-sub.C()`. */
  function Receive<S>(st: State<S>, sub: S): State<S>
    requires sub in st.subs && st.subs[sub].tokens > 0
  {
    st.(subs := st.subs[sub := st.subs[sub].(tokens := st.subs[sub].tokens - 1)])
  }

  // ----- the loop -----

  datatype Request<S> =
    | SubscribeReq(sub: S, channel: string, result: CommandResult)
    | UnsubscribeReq(sub: S, result: CommandResult)
    | CloseReq
    | ReadOnlyReq              // Snapshot and Notify leave the state alone

  /** One turn of `loop`, or a consumer taking its token. */
  datatype Event<S> =
    | Idle(req: Request<S>)                                // nobody counted: block on controlCh
    | Interrupted(late: Option<string>, req: Request<S>)   // control request first; a notification may still come
    | Waited(notification: Option<string>)                 // the wait returned a notification or an error
    | Consumed(sub: S)

  predicate RequestOk<S>(st: State<S>, req: Request<S>) {
    match req
    case SubscribeReq(sub, _, _) => sub !in st.subs
    case UnsubscribeReq(sub, _) => sub in st.subs
    case _ => true
  }

  function Apply<S>(st: State<S>, req: Request<S>): State<S>
    requires RequestOk(st, req)
  {
    match req
    case SubscribeReq(sub, channel, result) => Subscribe(st, sub, channel, result)
    case UnsubscribeReq(sub, result) => Unsubscribe(st, sub, result)
    case CloseReq => st.(closed := true)
    case ReadOnlyReq => st
  }

  predicate Enabled<S>(st: State<S>, e: Event<S>) {
    match e
    case Idle(req) => !st.closed && st.refCounts == map[] && RequestOk(st, req)
    case Interrupted(_, req) => !st.closed && st.refCounts != map[] && RequestOk(st, req)
    case Waited(_) => !st.closed && st.refCounts != map[]
    case Consumed(sub) => sub in st.subs && st.subs[sub].tokens > 0
  }

  function NotificationOf<S>(e: Event<S>): Option<string> {
    match e
    case Interrupted(late, _) => late
    case Waited(notification) => notification
    case _ => None
  }

  function Delivered<S>(st: State<S>, n: Option<string>): State<S> {
    match n
    case Some(channel) => Deliver(st, channel)
    case None => st
  }

  function Turn<S>(st: State<S>, e: Event<S>): State<S>
    requires Enabled(st, e)
  {
    match e
    case Idle(req) => Apply(st, req)
    case Interrupted(late, req) => Apply(Delivered(st, late), req)
    case Waited(notification) => Delivered(st, notification)
    case Consumed(sub) => Receive(st, sub)
  }

  function Start<S>(): State<S> {
    State(map[], map[], map[], false, {})
  }

  // ----- invariant -----

  /** Each count is the size of its subscriber set, none is zero, every counted channel is listened to. */
  ghost predicate CountsHold<S>(st: State<S>) {
    && (forall ch :: Count(st.refCounts, ch) == |Recipients(st, ch)|)
    && (forall ch :: ch in st.refCounts ==> st.refCounts[ch] > 0 && ch in st.listening)
  }

  /** The subscriber sets are exactly the subscriptions that are not closed, sorted by channel. */
  ghost predicate RegistryHolds<S>(st: State<S>) {
    && (forall ch, s :: s in Recipients(st, ch) ==> s in st.subs && st.subs[s].channel == ch && !st.subs[s].closed)
    && (forall s :: s in st.subs && !st.subs[s].closed ==> s in Recipients(st, st.subs[s].channel))
  }

  /** One token at most, and a registered subscription's Go channel is open. */
  ghost predicate SubsHold<S>(st: State<S>) {
    forall s :: s in st.subs ==> st.subs[s].tokens <= 1 && (!st.subs[s].closed ==> st.subs[s].open)
  }

  ghost predicate Inv<S>(st: State<S>) {
    CountsHold(st) && RegistryHolds(st) && SubsHold(st)
  }

  lemma StartInv<S>()
    ensures Inv(Start<S>())
  {
  }

  lemma FailedSubscribeKeepsInv<S>(st: State<S>, channel: string, result: CommandResult)
    requires Inv(st)
    ensures Inv(FailedSubscribe(st, channel, result))
  {
    var st' := FailedSubscribe(st, channel, result);
    forall ch ensures Recipients(st', ch) == Recipients(st, ch) {}
  }

  lemma AddRecipients<S>(st: State<S>, sub: S, channel: string, ch: string)
    ensures Recipients(AddSubscriber(st, sub, channel), ch) ==
            if ch == channel then Recipients(st, ch) + {sub} else Recipients(st, ch)
    ensures Count(AddSubscriber(st, sub, channel).refCounts, ch) ==
            Count(st.refCounts, ch) + if ch == channel then 1 else 0
  {
  }

  lemma AddSubscriberKeepsCounts<S>(st: State<S>, sub: S, channel: string)
    requires Inv(st) && sub !in st.subs
    ensures CountsHold(AddSubscriber(st, sub, channel))
  {
    var st' := AddSubscriber(st, sub, channel);
    assert sub !in Recipients(st, channel);
    forall ch ensures Count(st'.refCounts, ch) == |Recipients(st', ch)| {
      AddRecipients(st, sub, channel, ch);
      assert Count(st.refCounts, ch) == |Recipients(st, ch)|;
    }
    forall ch | ch in st'.refCounts ensures st'.refCounts[ch] > 0 && ch in st'.listening {
      if ch == channel && Count(st.refCounts, channel) > 0 {
        assert channel in st.refCounts;
      }
    }
  }

  lemma AddSubscriberKeepsInv<S>(st: State<S>, sub: S, channel: string)
    requires Inv(st) && sub !in st.subs
    ensures Inv(AddSubscriber(st, sub, channel))
  {
    AddSubscriberKeepsCounts(st, sub, channel);
    var st' := AddSubscriber(st, sub, channel);
    forall ch, s | s in Recipients(st', ch)
      ensures s in st'.subs && st'.subs[s].channel == ch && !st'.subs[s].closed
    {
      AddRecipients(st, sub, channel, ch);
    }
    forall s | s in st'.subs && !st'.subs[s].closed ensures s in Recipients(st', st'.subs[s].channel) {
      AddRecipients(st, sub, channel, st'.subs[s].channel);
    }
  }

  lemma SubscribeKeepsInv<S>(st: State<S>, sub: S, channel: string, result: CommandResult)
    requires Inv(st) && sub !in st.subs
    ensures Inv(Subscribe(st, sub, channel, result))
  {
    if ListenFails(st, channel, result) {
      FailedSubscribeKeepsInv(st, channel, result);
    } else {
      AddSubscriberKeepsInv(st, sub, channel);
    }
  }

  /** Closing a subscription takes exactly it out of the registry. */
  lemma UnsubscribeRecipients<S>(st: State<S>, sub: S, result: CommandResult, ch: string)
    requires Inv(st) && sub in st.subs && !st.closed && !st.subs[sub].closed
    ensures Recipients(Unsubscribe(st, sub, result), ch) == Recipients(st, ch) - {sub}
    ensures Count(Unsubscribe(st, sub, result).refCounts, ch) == |Recipients(st, ch) - {sub}|
  {
    var channel := st.subs[sub].channel;
    assert sub in Recipients(st, channel);
    if ch != channel {
      assert sub !in Recipients(st, ch);
      assert Recipients(st, ch) - {sub} == Recipients(st, ch);
    }
  }

  lemma UnsubscribeKeepsInv<S>(st: State<S>, sub: S, result: CommandResult)
    requires Inv(st) && sub in st.subs
    ensures Inv(Unsubscribe(st, sub, result))
  {
    if !st.closed && !st.subs[sub].closed {
      forall ch
        ensures Recipients(Unsubscribe(st, sub, result), ch) == Recipients(st, ch) - {sub}
        ensures Count(Unsubscribe(st, sub, result).refCounts, ch) == |Recipients(st, ch) - {sub}|
      {
        UnsubscribeRecipients(st, sub, result, ch);
      }
    }
  }

  /** The same reference counts and the same subscribers on every channel. */
  ghost predicate SameRegistry<S>(st: State<S>, st': State<S>) {
    st'.refCounts == st.refCounts && forall ch :: Recipients(st', ch) == Recipients(st, ch)
  }

  /** A subscription that comes and goes leaves counts and subscriber sets as they were, whatever UNLISTEN does. */
  lemma ComesAndGoes<S>(st: State<S>, sub: S, channel: string, later: State<S>, result: CommandResult)
    requires Inv(st) && sub !in st.subs && !later.closed && sub in later.subs
    requires later.subs[sub].channel == channel && !later.subs[sub].closed
    requires later.refCounts == AddSubscriber(st, sub, channel).refCounts
    requires later.subscribers == AddSubscriber(st, sub, channel).subscribers
    ensures SameRegistry(st, Unsubscribe(later, sub, result))
  {
    var old', new' := Recipients(st, channel), Recipients(later, channel);
    assert sub !in old' && new' - {sub} == old';
    assert Count(st.refCounts, channel) == |old'|;
  }

  lemma DeliverKeepsInv<S>(st: State<S>, channel: string)
    requires Inv(st)
    ensures Inv(Deliver(st, channel))
  {
    forall ch ensures Recipients(Deliver(st, channel), ch) == Recipients(st, ch) {}
  }

  lemma ReceiveKeepsInv<S>(st: State<S>, sub: S)
    requires Inv(st) && sub in st.subs && st.subs[sub].tokens > 0
    ensures Inv(Receive(st, sub))
  {
    forall ch ensures Recipients(Receive(st, sub), ch) == Recipients(st, ch) {}
  }

  lemma ApplyKeepsInv<S>(st: State<S>, req: Request<S>)
    requires Inv(st) && RequestOk(st, req)
    ensures Inv(Apply(st, req))
  {
    match req
    case SubscribeReq(sub, channel, result) => SubscribeKeepsInv(st, sub, channel, result);
    case UnsubscribeReq(sub, result) => UnsubscribeKeepsInv(st, sub, result);
    case CloseReq => forall ch ensures Recipients(st.(closed := true), ch) == Recipients(st, ch) {}
    case ReadOnlyReq =>
  }

  lemma TurnKeepsInv<S>(st: State<S>, e: Event<S>)
    requires Inv(st) && Enabled(st, e)
    ensures Inv(Turn(st, e))
  {
    var st' := Delivered(st, NotificationOf(e));
    if NotificationOf(e).Some? {
      DeliverKeepsInv(st, NotificationOf(e).value);
    }
    match e
    case Idle(req) => ApplyKeepsInv(st', req);
    case Interrupted(_, req) => ApplyKeepsInv(st', req);
    case Waited(_) =>
    case Consumed(sub) => ReceiveKeepsInv(st, sub);
  }

  /** The loop takes its idle branch exactly when nobody is subscribed. */
  lemma IdleIffNobody<S>(st: State<S>)
    requires Inv(st)
    ensures st.refCounts == map[] <==> forall s :: s in st.subs ==> st.subs[s].closed
  {
    if st.refCounts != map[] {
      var ch :| ch in st.refCounts;
      assert Count(st.refCounts, ch) == |Recipients(st, ch)|;
      var s :| s in Recipients(st, ch);
      assert s in st.subs && !st.subs[s].closed;
    } else {
      forall s | s in st.subs ensures st.subs[s].closed {
        assert Count(st.refCounts, st.subs[s].channel) == |Recipients(st, st.subs[s].channel)|;
      }
    }
  }

  /** What a failed LISTEN leaves behind: nobody registered or counted, but an entry for the channel, and the
      connection listening exactly if the server had carried the command out. */
  lemma FailedListen<S>(st: State<S>, sub: S, channel: string, result: CommandResult)
    requires ListenFails(st, channel, result)
    ensures var st' := Subscribe(st, sub, channel, result);
      && st'.subs == st.subs && SameRegistry(st, st') && channel in st'.subscribers
      && st'.listening == st.listening + (if result == DoneButFailed then {channel} else {})
  {
  }

  /** What a failed UNLISTEN leaves behind: the subscription is out of count and set and marked closed, but its
      Go channel stays open, and the connection goes on listening exactly if the server refused. */
  lemma FailedUnlisten<S>(st: State<S>, sub: S, result: CommandResult)
    requires Inv(st) && !st.closed && sub in st.subs && !st.subs[sub].closed && result != Done
    requires Recipients(st, st.subs[sub].channel) == {sub}
    ensures var st', channel := Unsubscribe(st, sub, result), st.subs[sub].channel;
      && st'.subs[sub] == st.subs[sub].(closed := true) && st'.subs[sub].open
      && channel !in st'.refCounts && Recipients(st', channel) == {}
      && (channel in st'.listening <==> result == Refused)
  {
    assert Count(st.refCounts, st.subs[sub].channel) == |Recipients(st, st.subs[sub].channel)| == 1;
  }

  // ----- runs -----

  ghost predicate IsRun<S>(states: seq<State<S>>, events: seq<Event<S>>) {
    && |states| == |events| + 1
    && states[0] == Start()
    && forall i :: 0 <= i < |events| ==> Enabled(states[i], events[i]) && states[i + 1] == Turn(states[i], events[i])
  }

  /** Every run keeps the invariant, whatever LISTEN and UNLISTEN do. */
  lemma {:induction false} RunKeepsInv<S>(states: seq<State<S>>, events: seq<Event<S>>, n: nat)
    requires IsRun(states, events) && n < |states|
    ensures Inv(states[n])
  {
    if n > 0 {
      RunKeepsInv(states, events, n - 1);
      TurnKeepsInv(states[n - 1], events[n - 1]);
    }
  }

  predicate CommandSucceeds<S>(req: Request<S>) {
    match req
    case SubscribeReq(_, _, result) => result == Done
    case UnsubscribeReq(_, result) => result == Done
    case _ => true
  }

  predicate NoCommandFails<S>(e: Event<S>) {
    match e
    case Idle(req) => CommandSucceeds(req)
    case Interrupted(_, req) => CommandSucceeds(req)
    case _ => true
  }

  /** With no failing command the connection listens to exactly the counted channels, and a Go channel
      is closed exactly when its subscription is. */
  predicate Tidy<S>(st: State<S>) {
    && st.listening == st.refCounts.Keys
    && (forall ch :: ch in st.subscribers ==> st.subscribers[ch] != {})
    && (forall s :: s in st.subs ==> (st.subs[s].open <==> !st.subs[s].closed))
  }

  lemma SubscribeKeepsTidy<S>(st: State<S>, sub: S, channel: string)
    requires Inv(st) && Tidy(st)
    ensures Tidy(Subscribe(st, sub, channel, Done))
  {
  }

  lemma UnsubscribeKeepsTidy<S>(st: State<S>, sub: S)
    requires Inv(st) && Tidy(st) && sub in st.subs
    ensures Tidy(Unsubscribe(st, sub, Done))
  {
    if !st.closed && !st.subs[sub].closed {
      var channel := st.subs[sub].channel;
      UnsubscribeRecipients(st, sub, Done, channel);
      assert Count(st.refCounts, channel) == |Recipients(st, channel)|;
    }
  }

  lemma ApplyKeepsTidy<S>(st: State<S>, req: Request<S>)
    requires Inv(st) && RequestOk(st, req) && Tidy(st) && CommandSucceeds(req)
    ensures Tidy(Apply(st, req))
  {
    match req
    case SubscribeReq(sub, channel, _) => SubscribeKeepsTidy(st, sub, channel);
    case UnsubscribeReq(sub, _) => UnsubscribeKeepsTidy(st, sub);
    case _ =>
  }

  lemma TurnKeepsTidy<S>(st: State<S>, e: Event<S>)
    requires Inv(st) && Enabled(st, e) && Tidy(st) && NoCommandFails(e)
    ensures Tidy(Turn(st, e))
  {
    var st' := Delivered(st, NotificationOf(e));
    if NotificationOf(e).Some? {
      DeliverKeepsInv(st, NotificationOf(e).value);
    }
    assert Tidy(st');
    if e.Idle? || e.Interrupted? {
      ApplyKeepsTidy(st', e.req);
    }
  }

  lemma {:induction false} CleanRunIsTidy<S>(states: seq<State<S>>, events: seq<Event<S>>, n: nat)
    requires IsRun(states, events) && n < |states|
    requires forall i :: 0 <= i < |events| ==> NoCommandFails(events[i])
    ensures Tidy(states[n])
  {
    if n > 0 {
      CleanRunIsTidy(states, events, n - 1);
      RunKeepsInv(states, events, n - 1);
      TurnKeepsTidy(states[n - 1], events[n - 1]);
    }
  }

  // ----- no notification is dropped -----

  /** Delivery leaves exactly one token with each registered subscriber and touches nobody else. */
  lemma DeliverMeaning<S>(st: State<S>, channel: string, s: S)
    requires Inv(st) && s in st.subs
    ensures s in Recipients(st, channel) <==> st.subs[s].channel == channel && !st.subs[s].closed
    ensures var s' := Deliver(st, channel).subs[s];
      if s in Recipients(st, channel) then s' == st.subs[s].(tokens := 1, received := st.subs[s].received + 1)
      else s' == st.subs[s]
  {
  }

  /** The notifications on these channels, one after the other. */
  function DeliverAll<S>(st: State<S>, channels: seq<string>): State<S> {
    if channels == [] then st else Deliver(DeliverAll(st, channels[..|channels| - 1]), channels[|channels| - 1])
  }

  /** After any number of notifications a registered subscriber holds one token exactly when one was for its
      channel or it held one before; nothing else of the state it is registered in changes. */
  lemma {:induction false} DeliverAllMeaning<S>(st: State<S>, channels: seq<string>, s: S)
    requires Inv(st) && s in st.subs && !st.subs[s].closed
    ensures var st' := DeliverAll(st, channels);
      && Inv(st') && s in st'.subs && st'.subs[s].channel == st.subs[s].channel && !st'.subs[s].closed
      && st'.subs[s].tokens == (if st.subs[s].channel in channels then 1 else st.subs[s].tokens)
    decreases |channels|
  {
    if channels != [] {
      var n := |channels| - 1;
      DeliverAllMeaning(st, channels[..n], s);
      var mid := DeliverAll(st, channels[..n]);
      DeliverKeepsInv(mid, channels[n]);
      DeliverMeaning(mid, channels[n], s);
      assert channels == channels[..n] + [channels[n]];
    }
  }

  /** In the control race the late notification reaches everyone registered before the request is applied,
      a subscriber that is just leaving included. */
  lemma RaceDeliversFirst<S>(st: State<S>, channel: string, req: Request<S>, s: S)
    requires Inv(st) && Enabled(st, Interrupted(Some(channel), req)) && s in Recipients(st, channel)
    ensures var s' := Turn(st, Interrupted(Some(channel), req)).subs[s];
      && s'.tokens == 1 && s'.received == st.subs[s].received + 1
  {
    DeliverMeaning(st, channel, s);
  }

  /** What s has received; nothing before it is registered. */
  function Received<S>(st: State<S>, s: S): nat {
    if s in st.subs then st.subs[s].received else 0
  }

  /** The turn delivers a notification to s. */
  predicate Reaches<S>(st: State<S>, e: Event<S>, s: S) {
    NotificationOf(e).Some? && s in Recipients(st, NotificationOf(e).value)
  }

  /** Notifications the wait goroutine returned for s's channel while s was registered, among the first n turns. */
  ghost function NotificationsFor<S>(states: seq<State<S>>, events: seq<Event<S>>, s: S, n: nat): nat
    requires n <= |events| < |states|
  {
    if n == 0 then 0
    else NotificationsFor(states, events, s, n - 1) + if Reaches(states[n - 1], events[n - 1], s) then 1 else 0
  }

  /** No request touches what a subscription has received. */
  lemma ApplyReceived<S>(st: State<S>, req: Request<S>, s: S)
    requires RequestOk(st, req)
    ensures Received(Apply(st, req), s) == Received(st, s)
  {
  }

  lemma DeliveredReceived<S>(st: State<S>, n: Option<string>, s: S)
    requires RegistryHolds(st)
    ensures Received(Delivered(st, n), s) == Received(st, s) + if n.Some? && s in Recipients(st, n.value) then 1 else 0
  {
  }

  lemma TurnReceived<S>(st: State<S>, e: Event<S>, s: S)
    requires Inv(st) && Enabled(st, e)
    ensures Received(Turn(st, e), s) == Received(st, s) + if Reaches(st, e, s) then 1 else 0
  {
    DeliveredReceived(st, NotificationOf(e), s);
    if e.Idle? || e.Interrupted? {
      ApplyReceived(Delivered(st, NotificationOf(e)), e.req, s);
    }
  }

  /** Conservation over a whole run: each subscription is handed every notification of its channel that
      arrived while it was registered, and no other. */
  lemma {:induction false} NothingDropped<S>(states: seq<State<S>>, events: seq<Event<S>>, s: S, n: nat)
    requires IsRun(states, events) && n <= |events|
    ensures Received(states[n], s) == NotificationsFor(states, events, s, n)
  {
    if n > 0 {
      NothingDropped(states, events, s, n - 1);
      RunKeepsInv(states, events, n - 1);
      TurnReceived(states[n - 1], events[n - 1], s);
    }
  }
}
