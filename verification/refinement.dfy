/** Every run of the protocol is, step for step, a run of the abstract tuple space. */
module Refinement {
  import opened Wrappers
  import opened Store
  import opened Ids
  import opened Scan
  import opened Protocol
  import opened ProtocolInvariant
  import opened Guarantees
  import opened Linda

  // ----- the abstraction: forget ids -----

  ghost function BagOver(m: map<nat, Entry>, ids: set<nat>): Bag
    requires ids <= m.Keys
  {
    if ids == {} then multiset{} else BagOver(m, ids - {Min(ids)}) + multiset{m[Min(ids)]}
  }

  ghost function BagOf(m: map<nat, Entry>): Bag {
    BagOver(m, m.Keys)
  }

  /** Whichever id is singled out, the bag is its entry and the rest. */
  lemma {:induction false} BagOverRemove(m: map<nat, Entry>, ids: set<nat>, id: nat)
    requires ids <= m.Keys && id in ids
    ensures BagOver(m, ids) == BagOver(m, ids - {id}) + multiset{m[id]}
    decreases |ids|
  {
    var first := Min(ids);
    if first != id {
      BagOverRemove(m, ids - {first}, id);
      assert first in ids - {id} && Min(ids - {id}) in ids;
      assert Min(ids - {id}) == first;
      assert ids - {first} - {id} == ids - {id} - {first};
    }
  }

  lemma {:induction false} BagOverAgree(m: map<nat, Entry>, m': map<nat, Entry>, ids: set<nat>)
    requires ids <= m.Keys && ids <= m'.Keys
    requires forall id :: id in ids ==> m[id] == m'[id]
    ensures BagOver(m, ids) == BagOver(m', ids)
    decreases |ids|
  {
    if ids != {} {
      BagOverAgree(m, m', ids - {Min(ids)});
    }
  }

  lemma Regroup(a: Bag, b: Bag, c: Bag)
    ensures a + b + c == a + (b + c)
  {
  }

  lemma {:induction false} BagOverSplit(m: map<nat, Entry>, ids: set<nat>, part: set<nat>)
    requires ids <= m.Keys && part <= ids
    ensures BagOver(m, ids) == BagOver(m, ids - part) + BagOver(m, part)
    decreases |part|
  {
    if part == {} {
      assert ids - part == ids;
    } else {
      var id := Min(part);
      assert (ids - {id}) - (part - {id}) == ids - part;
      BagOverSplit(m, ids - {id}, part - {id});
      BagOverRemove(m, ids, id);
      Regroup(BagOver(m, ids - part), BagOver(m, part - {id}), multiset{m[id]});
    }
  }

  lemma BagRemove(m: map<nat, Entry>, id: nat)
    requires id in m
    ensures BagOf(m) == BagOf(m - {id}) + multiset{m[id]}
  {
    BagOverRemove(m, m.Keys, id);
    assert (m - {id}).Keys == m.Keys - {id};
    BagOverAgree(m, m - {id}, m.Keys - {id});
  }

  lemma BagInsert(m: map<nat, Entry>, id: nat, entry: Entry)
    requires id !in m
    ensures BagOf(m[id := entry]) == BagOf(m) + multiset{entry}
  {
    BagRemove(m[id := entry], id);
    assert m[id := entry] - {id} == m;
  }

  lemma BagSplit(m: map<nat, Entry>, ids: set<nat>)
    ensures BagOf(m) == BagOf(m - ids) + BagOver(m, ids * m.Keys)
  {
    var part := ids * m.Keys;
    BagOverSplit(m, m.Keys, part);
    assert (m - ids).Keys == m.Keys - part;
    BagOverAgree(m, m - ids, m.Keys - part);
  }

  // ----- labels -----

  /** `out` takes effect at its commit, a successful `in` at its commit, a successful `rd` at its scan. */
  ghost function LabelOf(cfg: Config, s: State, a: Action): Label
    requires Enabled(cfg, s, a)
  {
    match a
    case OutCommit(id) => Put(s.pending[id])
    case ScanRd(c) =>
      var req := s.clients[c].req;
      var pick := Pick(s.live, req.space, req.template, {}, cfg.limit);
      if pick.Some? && pick.value in s.live then Read(c, req.space, req.template, s.live[pick.value]) else Silent
    case CommitIn(c) =>
      var req := s.clients[c].req;
      Taken(c, req.space, req.template, s.live[s.clients[c].phase.pick.value])
    case AdminDelete(ids) => Removed(BagOver(s.live, ids * s.live.Keys))
    case _ => Silent
  }

  lemma RdSimulates(cfg: Config, s: State, c: nat)
    requires Inv(cfg, s) && Enabled(cfg, s, ScanRd(c))
    ensures Next(BagOf(s.live), LabelOf(cfg, s, ScanRd(c)), BagOf(Step(cfg, s, ScanRd(c)).live))
  {
    var req := s.clients[c].req;
    ScanLocksFreshRows(s.live, req.space, req.template, {}, cfg.limit);
    var pick := Pick(s.live, req.space, req.template, {}, cfg.limit);
    if pick.Some? {
      BagRemove(s.live, pick.value);
    }
  }

  lemma InSimulates(cfg: Config, s: State, c: nat)
    requires LockInv(s) && Enabled(cfg, s, CommitIn(c))
    ensures Next(BagOf(s.live), LabelOf(cfg, s, CommitIn(c)), BagOf(Step(cfg, s, CommitIn(c)).live))
  {
    assert HoldOk(s, s.clients[c]);
    var id := s.clients[c].phase.pick.value;
    BagRemove(s.live, id);
    assert BagOf(s.live - {id}) == BagOf(s.live) - multiset{s.live[id]};
  }

  lemma AdminDeleteSimulates(cfg: Config, s: State, ids: set<nat>)
    requires Enabled(cfg, s, AdminDelete(ids))
    ensures Next(BagOf(s.live), LabelOf(cfg, s, AdminDelete(ids)), BagOf(DoAdminDelete(s, ids).live))
  {
    BagSplit(s.live, ids);
  }

  lemma SilentLeavesLive(cfg: Config, s: State, a: Action)
    requires Enabled(cfg, s, a) && !a.OutCommit? && !a.ScanRd? && !a.CommitIn? && !a.AdminDelete?
    ensures Step(cfg, s, a).live == s.live && LabelOf(cfg, s, a) == Silent
  {
    LiveUnchanged(cfg, s, a);
  }

  /** One step of the protocol is one step, possibly silent, of the abstract space. */
  lemma StepSimulates(cfg: Config, s: State, a: Action)
    requires Inv(cfg, s) && Enabled(cfg, s, a)
    ensures Next(BagOf(s.live), LabelOf(cfg, s, a), BagOf(Step(cfg, s, a).live))
  {
    if a.OutCommit? {
      BagInsert(s.live, a.id, s.pending[a.id]);
    } else if a.ScanRd? {
      RdSimulates(cfg, s, a.c);
    } else if a.CommitIn? {
      InSimulates(cfg, s, a.c);
    } else if a.AdminDelete? {
      AdminDeleteSimulates(cfg, s, a.ids);
    } else {
      SilentLeavesLive(cfg, s, a);
    }
  }

  ghost function Bags(states: seq<State>): seq<Bag> {
    seq(|states|, i requires 0 <= i < |states| => BagOf(states[i].live))
  }

  ghost function Labels(cfg: Config, states: seq<State>, actions: seq<Action>): seq<Label>
    requires |states| == |actions| + 1
    requires forall i :: 0 <= i < |actions| ==> Enabled(cfg, states[i], actions[i])
  {
    seq(|actions|, i requires 0 <= i < |actions| => LabelOf(cfg, states[i], actions[i]))
  }

  /** Every run of the protocol simulates a run of the abstract tuple space. */
  lemma RunSimulates(cfg: Config, states: seq<State>, actions: seq<Action>)
    requires IsRun(cfg, states, actions)
    ensures IsLindaRun(Bags(states), Labels(cfg, states, actions))
  {
    forall i | 0 <= i < |actions|
      ensures Next(Bags(states)[i], Labels(cfg, states, actions)[i], Bags(states)[i + 1])
    {
      RunHolds(cfg, states, actions, i);
      StepSimulates(cfg, states[i], actions[i]);
    }
  }

  // ----- what calls return is what the abstract space did -----

  /** The label by which call c gets `entry`. */
  predicate GivesTo(event: Label, c: nat, req: Request, entry: Entry) {
    if req.destructive then event == Taken(c, req.space, req.template, entry)
    else event == Read(c, req.space, req.template, entry)
  }

  predicate ConcernsCall(event: Label, c: nat) {
    (event.Read? || event.Taken?) && event.client == c
  }

  predicate HasGot(s: State, c: nat) {
    c in s.clients && OutcomeOf(s.clients[c]).Some? && OutcomeOf(s.clients[c]).value.Got?
  }

  lemma RdGives(cfg: Config, s: State, c: nat)
    requires Enabled(cfg, s, ScanRd(c))
    ensures var event, s' := LabelOf(cfg, s, ScanRd(c)), Step(cfg, s, ScanRd(c));
      && (ConcernsCall(event, c) <==> HasGot(s', c))
      && (HasGot(s', c) ==> GivesTo(event, c, s'.clients[c].req, OutcomeOf(s'.clients[c]).value.entry))
  {
  }

  lemma InGives(cfg: Config, s: State, c: nat)
    requires LockInv(s) && ShapeInv(s) && Enabled(cfg, s, CommitIn(c))
    ensures var event, s' := LabelOf(cfg, s, CommitIn(c)), Step(cfg, s, CommitIn(c));
      && ConcernsCall(event, c) && HasGot(s', c)
      && GivesTo(event, c, s'.clients[c].req, OutcomeOf(s'.clients[c]).value.entry)
  {
    assert ShapeOk(s.clients[c]);
  }

  /** Only these two actions concern a call, and only their own. */
  lemma WhoIsConcerned(cfg: Config, s: State, a: Action, c: nat)
    requires Enabled(cfg, s, a) && ConcernsCall(LabelOf(cfg, s, a), c)
    ensures a == ScanRd(c) || a == CommitIn(c)
    ensures c in s.clients && OutcomeOf(s.clients[c]).None?
  {
  }

  /** A step that does not concern call c leaves whether it has a tuple as it was. */
  lemma UnconcernedKeeps(cfg: Config, s: State, a: Action, c: nat)
    requires ShapeInv(s) && Enabled(cfg, s, a) && a != ScanRd(c) && a != CommitIn(c)
    ensures HasGot(Step(cfg, s, a), c) <==> HasGot(s, c)
  {
    OnlyActorMoves(cfg, s, a);
    if c in s.clients && OutcomeOf(s.clients[c]).Some? {
      OutcomeStays(cfg, s, a, c);
    } else if Actor(a) == Some(c) {
      NoOtherGot(cfg, s, a);
    }
  }

  /** A step concerns call c exactly when it hands c its tuple. */
  lemma LabelMatchesOutcome(cfg: Config, s: State, a: Action, c: nat)
    requires Inv(cfg, s) && Enabled(cfg, s, a)
    ensures ConcernsCall(LabelOf(cfg, s, a), c) ==>
      && !HasGot(s, c) && HasGot(Step(cfg, s, a), c)
      && GivesTo(LabelOf(cfg, s, a), c, Step(cfg, s, a).clients[c].req,
        OutcomeOf(Step(cfg, s, a).clients[c]).value.entry)
    ensures !ConcernsCall(LabelOf(cfg, s, a), c) ==> (HasGot(Step(cfg, s, a), c) <==> HasGot(s, c))
  {
    if a == ScanRd(c) {
      RdGives(cfg, s, c);
    } else if a == CommitIn(c) {
      InGives(cfg, s, c);
    } else {
      UnconcernedKeeps(cfg, s, a, c);
    }
    if ConcernsCall(LabelOf(cfg, s, a), c) {
      WhoIsConcerned(cfg, s, a, c);
    }
  }

  /** How many of the first n steps concern call c. */
  ghost function Effects(cfg: Config, states: seq<State>, actions: seq<Action>, c: nat, n: nat): nat
    requires |states| == |actions| + 1 && n <= |actions|
    requires forall i :: 0 <= i < |actions| ==> Enabled(cfg, states[i], actions[i])
  {
    if n == 0 then 0
    else
      Effects(cfg, states, actions, c, n - 1)
      + if ConcernsCall(LabelOf(cfg, states[n - 1], actions[n - 1]), c) then 1 else 0
  }

  /** A call has had exactly one effect on the abstract space if it got a tuple, and none otherwise. */
  lemma {:induction false} OneEffectPerSuccess(cfg: Config, states: seq<State>, actions: seq<Action>, c: nat, n: nat)
    requires IsRun(cfg, states, actions) && n <= |actions|
    ensures Effects(cfg, states, actions, c, n) == if HasGot(states[n], c) then 1 else 0
  {
    hide Step, Enabled, Inv;
    if n > 0 {
      OneEffectPerSuccess(cfg, states, actions, c, n - 1);
      RunHolds(cfg, states, actions, n - 1);
      LabelMatchesOutcome(cfg, states[n - 1], actions[n - 1], c);
    }
  }

  /** The tuple a call returns is the one the abstract space gave it, at a step inside the call. */
  lemma {:induction false} ReturnedWasGiven(cfg: Config, states: seq<State>, actions: seq<Action>, c: nat, n: nat)
    requires IsRun(cfg, states, actions) && n < |states| && HasGot(states[n], c)
    ensures exists i :: && 0 <= i < n && c in states[i].clients && OutcomeOf(states[i].clients[c]).None?
                        && GivesTo(LabelOf(cfg, states[i], actions[i]), c, states[n].clients[c].req,
                                   OutcomeOf(states[n].clients[c]).value.entry)
  {
    if n > 0 {
      var s, a := states[n - 1], actions[n - 1];
      RunHolds(cfg, states, actions, n - 1);
      LabelMatchesOutcome(cfg, s, a, c);
      if HasGot(s, c) {
        OutcomeStays(cfg, s, a, c);
        ReturnedWasGiven(cfg, states, actions, c, n - 1);
      } else {
        WhoIsConcerned(cfg, s, a, c);
      }
    }
  }
}
