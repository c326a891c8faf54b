/** internal/notify/notifier.go in its own form: a notifier object whose control functions update its
    maps, and subscription objects with a channel of capacity one. Each method is proved against the
    state machine of NotifierModel. */
module Notifier {
  import opened Wrappers
  import M = NotifierModel

  class Subscription {
    const channel: string
    var closed: bool
    var open: bool            // the Go channel, until close(sub.ch)
    var tokens: nat           // what its buffer of capacity one holds
    ghost var received: nat   // notifications delivered while registered

    constructor (channel: string)
      ensures this.channel == channel && !closed && open && tokens == 0 && received == 0
    {
      this.channel := channel;
      closed, open, tokens, received := false, true, 0, 0;
    }

    ghost function Abs(): M.Sub
      reads this
    {
      M.Sub(channel, closed, open, tokens, received)
    }

    /** `select { case sub.ch <- struct{}{}: default: }`; a send on a closed channel would panic. */
    method Offer() returns (sent: bool)
      requires open
      modifies this
      ensures Abs() == M.Offer(old(Abs()))
      ensures sent <==> old(tokens) == 0
    {
      sent := tokens < 1;
      if sent {
        tokens := tokens + 1;
      }
      received := received + 1;
    }

    /** `<-sub.C()` when a token is there. */
    method Receive()
      requires tokens > 0
      modifies this
      ensures Abs() == old(Abs()).(tokens := old(tokens) - 1)
    {
      tokens := tokens - 1;
    }

    /** `close(sub.ch)`; closing twice would panic. */
    method CloseChannel()
      requires open
      modifies this
      ensures Abs() == old(Abs()).(open := false)
    {
      open := false;
    }
  }

  datatype Snapshot = Snapshot(channelCount: nat, subscriberCount: nat, channels: map<string, nat>)

  ghost function SubsOf(known: set<Subscription>): map<Subscription, M.Sub>
    reads known
  {
    map s | s in known :: s.Abs()
  }

  ghost function Active(known: set<Subscription>): set<Subscription>
    reads known
  {
    set s | s in known && !s.closed
  }

  ghost function ActiveOn(known: set<Subscription>, channels: set<string>): set<Subscription>
    reads known
  {
    set s | s in known && !s.closed && s.channel in channels
  }

  class Notifier {
    var refCounts: map<string, nat>
    var subscribers: map<string, set<Subscription>>
    var closed: bool
    var listening: set<string>            // what the connection listens to
    ghost var known: set<Subscription>    // every subscription handed out

    ghost function Abs(): M.State<Subscription>
      reads this, known
    {
      M.State(refCounts, subscribers, SubsOf(known), closed, listening)
    }

    ghost predicate Valid()
      reads this, known
    {
      M.Inv(Abs())
    }

    constructor ()
      ensures Valid() && Abs() == M.Start() && fresh(known)
    {
      refCounts, subscribers, closed, listening, known := map[], map[], false, {}, {};
      new;
      M.StartInv<Subscription>();
    }

    /** First half of the control function: the subscriber set, and LISTEN for a channel nobody counts. */
    method Listen(channel: string, result: M.CommandResult) returns (ok: bool)
      modifies this`subscribers, this`listening
      ensures ok <==> !M.ListenFails(old(Abs()), channel, result)
      ensures Abs() == old(Abs()).(
        subscribers := old(subscribers)[channel := M.Recipients(old(Abs()), channel)],
        listening := if M.Count(refCounts, channel) == 0 && result != M.Refused then old(listening) + {channel}
                     else old(listening))
    {
      if channel !in subscribers {
        subscribers := subscribers[channel := {}];
      }
      if M.Count(refCounts, channel) == 0 {
        if result != M.Refused {
          listening := listening + {channel};
        }
        if result != M.Done {
          return false;
        }
      }
      return true;
    }

    /** Second half: count and register a new subscription. */
    method Register(sub: Subscription)
      requires sub.channel in subscribers
      modifies this`refCounts, this`subscribers, this`known
      ensures known == old(known) + {sub}
      ensures Abs() == old(Abs()).(
        refCounts := old(refCounts)[sub.channel := M.Count(old(refCounts), sub.channel) + 1],
        subscribers := old(subscribers)[sub.channel := old(subscribers)[sub.channel] + {sub}],
        subs := old(Abs()).subs[sub := sub.Abs()])
    {
      refCounts := refCounts[sub.channel := M.Count(refCounts, sub.channel) + 1];
      subscribers := subscribers[sub.channel := subscribers[sub.channel] + {sub}];
      known := known + {sub};
    }

    /** The control function Subscribe hands to the loop; None is the error of a failed LISTEN. */
    method ApplySubscribe(channel: string, result: M.CommandResult) returns (r: Option<Subscription>)
      modifies this
      ensures r.None? <==> M.ListenFails(old(Abs()), channel, result)
      ensures r.None? ==> Abs() == M.FailedSubscribe(old(Abs()), channel, result) && known == old(known)
      ensures r.Some? ==>
        && fresh(r.value) && known == old(known) + {r.value}
        && Abs() == M.AddSubscriber(old(Abs()), r.value, channel)
    {
      var ok := Listen(channel, result);
      if !ok {
        return None;
      }
      ghost var listened := Abs();
      var sub := new Subscription(channel);
      assert Abs() == listened;
      Register(sub);
      return Some(sub);
    }

    method Subscribe(channel: string, result: M.CommandResult) returns (r: Option<Subscription>)
      requires Valid()
      modifies this
      ensures Valid()
      ensures r.None? <==> M.ListenFails(old(Abs()), channel, result)
      ensures r.None? ==> Abs() == M.FailedSubscribe(old(Abs()), channel, result) && known == old(known)
      ensures r.Some? ==>
        && fresh(r.value) && known == old(known) + {r.value}
        && Abs() == M.AddSubscriber(old(Abs()), r.value, channel)
    {
      ghost var before := Abs();
      r := ApplySubscribe(channel, result);
      if r.None? {
        M.FailedSubscribeKeepsInv(before, channel, result);
      } else {
        M.AddSubscriberKeepsInv(before, r.value, channel);
      }
    }

    /** Takes `sub` out of the maps; returns whether its channel has nobody left. */
    method DropRegistration(sub: Subscription) returns (last: bool)
      modifies this`subscribers, this`refCounts
      ensures subscribers == M.DropSubscriber(old(subscribers), sub.channel, sub)
      ensures refCounts == M.DropCount(old(refCounts), sub.channel)
      ensures last <==> M.Count(old(refCounts), sub.channel) <= 1
    {
      if sub.channel in subscribers {
        var subs := subscribers[sub.channel] - {sub};
        subscribers := if subs == {} then subscribers - {sub.channel} else subscribers[sub.channel := subs];
      }
      var count := M.Count(refCounts, sub.channel);
      if count > 0 {
        refCounts := refCounts[sub.channel := count - 1];
      }
      last := M.Count(refCounts, sub.channel) == 0;
      if last {
        refCounts := refCounts - {sub.channel};
      }
    }

    /** The control function unsubscribe hands to the loop; returns whether it reported no error. */
    method ApplyUnsubscribe(sub: Subscription, result: M.CommandResult) returns (ok: bool)
      requires sub in known && (!sub.closed ==> sub.open)
      modifies this, sub
      ensures known == old(known)
      ensures Abs() == M.Unsubscribe(old(Abs()), sub, result)
      ensures !ok ==> result != M.Done
    {
      if closed || sub.closed {
        return true;
      }
      ghost var before := SubsOf(known);
      sub.closed := true;
      var last := DropRegistration(sub);
      if last {
        if result != M.Refused {
          listening := listening - {sub.channel};
        }
        if result != M.Done {
          assert SubsOf(known) == before[sub := before[sub].(closed := true)];
          return false;
        }
      }
      sub.CloseChannel();
      assert SubsOf(known) == before[sub := before[sub].(closed := true, open := false)];
      return true;
    }

    method Unsubscribe(sub: Subscription, result: M.CommandResult) returns (ok: bool)
      requires Valid() && sub in known
      modifies this, sub
      ensures Valid() && known == old(known)
      ensures Abs() == M.Unsubscribe(old(Abs()), sub, result)
      ensures !ok ==> result != M.Done
    {
      assert Abs().subs[sub] == sub.Abs();
      M.UnsubscribeKeepsInv(Abs(), sub, result);
      ok := ApplyUnsubscribe(sub, result);
    }

    lemma RegisteredAreKnown(channel: string)
      requires Valid()
      ensures M.Recipients(Abs(), channel) <= known
      ensures forall s :: s in M.Recipients(Abs(), channel) ==> s.open && !s.closed && s.channel == channel
    {
      forall s | s in M.Recipients(Abs(), channel)
        ensures s in known && s.open && !s.closed && s.channel == channel
      {
        assert s in Abs().subs && Abs().subs[s] == s.Abs();
      }
    }

    /** deliverNotification: a non-blocking send to every subscriber of the channel, in map order.
        `delivered` counts the sends that found room. */
    method DeliverNotification(channel: string) returns (delivered: nat)
      requires Valid()
      modifies M.Recipients(Abs(), channel)
      ensures Valid() && known == old(known)
      ensures Abs() == M.Deliver(old(Abs()), channel)
      ensures delivered == |M.TakesSend(old(Abs()), channel)|
    {
      delivered := 0;
      ghost var before := Abs();
      var subs := if channel in subscribers then subscribers[channel] else {};
      RegisteredAreKnown(channel);
      ghost var sentTo: set<Subscription> := {};
      var todo := subs;
      while todo != {}
        invariant todo <= subs <= known
        invariant forall s :: s in subs && s !in todo ==> s.Abs() == M.Offer(old(s.Abs()))
        invariant forall s :: s in todo ==> s.Abs() == old(s.Abs())
        invariant delivered == |sentTo|
        invariant forall s :: s in sentTo <==> s in subs && s !in todo && old(s.tokens) == 0
        decreases |todo|
      {
        var sub :| sub in todo;
        assert sub.Abs() == old(sub.Abs());
        var sent := sub.Offer();
        if sent {
          delivered := delivered + 1;
          sentTo := sentTo + {sub};
        }
        todo := todo - {sub};
      }
      M.DeliverKeepsInv(before, channel);
      assert Abs() == M.Deliver(before, channel);
      assert sentTo == M.TakesSend(before, channel);
    }

    /** Turns of `loop` that only bring notifications. */
    method DeliverEach(channels: seq<string>)
      requires Valid()
      modifies known
      ensures Valid() && known == old(known)
      ensures Abs() == M.DeliverAll(old(Abs()), channels)
    {
      for i := 0 to |channels|
        invariant Valid() && known == old(known)
        invariant Abs() == M.DeliverAll(old(Abs()), channels[..i])
      {
        RegisteredAreKnown(channels[i]);
        assert channels[..i + 1][..i] == channels[..i];
        var delivered := DeliverNotification(channels[i]);
      }
      assert channels[..|channels|] == channels;
    }

    /** A reader takes its token. */
    method Receive(sub: Subscription)
      requires Valid() && sub in known && sub.tokens > 0
      modifies sub
      ensures Valid() && known == old(known) && Abs() == M.Receive(old(Abs()), sub)
    {
      assert Abs().subs[sub] == sub.Abs();
      M.ReceiveKeepsInv(Abs(), sub);
      ghost var before := Abs();
      sub.Receive();
      assert Abs() == M.Receive(before, sub);
    }

    /** The control function of Close. */
    method Close()
      requires Valid()
      modifies this`closed
      ensures Valid() && Abs() == old(Abs()).(closed := true)
    {
      M.ApplyKeepsInv(Abs(), M.CloseReq);
      closed := true;
    }

    lemma AllChannelsCounted()
      requires Valid()
      ensures ActiveOn(known, subscribers.Keys) == Active(known)
    {
      forall s | s in known && !s.closed ensures s.channel in subscribers {
        assert Abs().subs[s] == s.Abs();
        assert s in M.Recipients(Abs(), s.channel);
      }
    }

    lemma SubscribersAreActive(channel: string)
      requires Valid() && channel in subscribers
      ensures subscribers[channel] == ActiveOn(known, {channel})
    {
      RegisteredAreKnown(channel);
      forall s | s in known && !s.closed && s.channel == channel ensures s in subscribers[channel] {
        assert Abs().subs[s] == s.Abs();
      }
    }

    /** The counting loop of Snapshot. */
    method Tally() returns (channels: map<string, nat>, subscriberCount: nat)
      requires forall ch, s :: ch in subscribers ==>
        (s in subscribers[ch] <==> s in known && !s.closed && s.channel == ch)
      ensures channels.Keys == subscribers.Keys && forall ch :: ch in channels ==> channels[ch] == |subscribers[ch]|
      ensures subscriberCount == |ActiveOn(known, subscribers.Keys)|
    {
      channels, subscriberCount := map[], 0;
      ghost var counted: set<Subscription> := {};
      var todo := subscribers.Keys;
      while todo != {}
        invariant todo <= subscribers.Keys
        invariant forall ch :: ch in channels <==> ch in subscribers && ch !in todo
        invariant forall ch :: ch in channels ==> channels[ch] == |subscribers[ch]|
        invariant subscriberCount == |counted|
        invariant forall s :: s in counted <==>
          s in known && !s.closed && s.channel in subscribers && s.channel !in todo
        decreases |todo|
      {
        var channel :| channel in todo;
        assert counted !! subscribers[channel];
        channels := channels[channel := |subscribers[channel]|];
        subscriberCount := subscriberCount + |subscribers[channel]|;
        counted := counted + subscribers[channel];
        todo := todo - {channel};
      }
      assert counted == ActiveOn(known, subscribers.Keys);
    }

    /** The control function of Snapshot: the counts it reports are the notifier's own, and they add up to
        the subscriptions not yet closed. */
    method TakeSnapshot() returns (snap: Snapshot)
      requires Valid()
      ensures snap.channels.Keys == subscribers.Keys && snap.channelCount == |subscribers|
      ensures forall ch :: ch in subscribers ==> snap.channels[ch] == M.Count(refCounts, ch)
      ensures snap.subscriberCount == |Active(known)|
    {
      forall ch | ch in subscribers
        ensures subscribers[ch] == ActiveOn(known, {ch}) && |subscribers[ch]| == M.Count(refCounts, ch)
      {
        SubscribersAreActive(ch);
        assert M.Count(refCounts, ch) == |M.Recipients(Abs(), ch)|;
      }
      var channels, subscriberCount := Tally();
      AllChannelsCounted();
      assert channels.Keys == subscribers.Keys;
      snap := Snapshot(|channels|, subscriberCount, channels);
    }

    /** One turn of `loop` interrupted by a control request to subscribe: the late notification first. */
    method InterruptedSubscribe(late: Option<string>, channel: string, result: M.CommandResult)
      returns (r: Option<Subscription>)
      requires Valid() && !closed && refCounts != map[]
      modifies this, known
      ensures Valid()
      ensures r.None? <==> M.ListenFails(M.Delivered(old(Abs()), late), channel, result)
      ensures r.None? ==> Abs() == M.FailedSubscribe(M.Delivered(old(Abs()), late), channel, result)
      ensures r.Some? ==>
        && fresh(r.value) && known == old(known) + {r.value}
        && Abs() == M.AddSubscriber(M.Delivered(old(Abs()), late), r.value, channel)
    {
      if late.Some? {
        RegisteredAreKnown(late.value);
        var delivered := DeliverNotification(late.value);
      }
      r := Subscribe(channel, result);
    }

    /** The same with a request to close a subscription: it still gets the late notification. */
    method InterruptedUnsubscribe(late: Option<string>, sub: Subscription, result: M.CommandResult) returns (ok: bool)
      requires Valid() && sub in known && !closed && refCounts != map[]
      modifies this, known
      ensures Valid() && known == old(known)
      ensures Abs() == M.Turn(old(Abs()), M.Interrupted(late, M.UnsubscribeReq(sub, result)))
    {
      if late.Some? {
        RegisteredAreKnown(late.value);
        var delivered := DeliverNotification(late.value);
      }
      ok := Unsubscribe(sub, result);
    }
  }
}
