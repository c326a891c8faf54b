/** Runs built step by step, and the stores they can build. */
module Runs {
  import opened Validation
  import opened Store
  import opened Scan
  import opened Protocol
  import N = NotifierModel

  /** A run that ends in s. */
  ghost predicate EndsIn(cfg: Config, states: seq<State>, actions: seq<Action>, s: State) {
    IsRun(cfg, states, actions) && states[|states| - 1] == s
  }

  /** No step of the run is an error, a timeout or a failed command. */
  predicate Smooth(actions: seq<Action>) {
    forall a :: a in actions ==>
      && !a.OutAbort? && !a.ScanFail? && !a.AbortIn? && !a.GiveUp?
      && (a.Subscribe? ==> a.result == N.Done)
  }

  lemma Extend(cfg: Config, states: seq<State>, actions: seq<Action>, s: State, a: Action)
    returns (states': seq<State>, actions': seq<Action>)
    requires EndsIn(cfg, states, actions, s) && Enabled(cfg, s, a)
    ensures EndsIn(cfg, states', actions', Step(cfg, s, a))
    ensures actions' == actions + [a]
    ensures Smooth(actions) && Smooth([a]) ==> Smooth(actions')
  {
    states', actions' := states + [Step(cfg, s, a)], actions + [a];
    forall i | 0 <= i < |actions'|
      ensures Enabled(cfg, states'[i], actions'[i]) && states'[i + 1] == Step(cfg, states'[i], actions'[i])
    {
      if i < |actions| {
        assert Enabled(cfg, states[i], actions[i]) && states[i + 1] == Step(cfg, states[i], actions[i]);
      }
    }
  }

  ghost predicate ValidEntry(entry: Entry) {
    ValidSpace(entry.space) && ValidTuple(entry.tuple)
  }

  /** Nobody but `out` has acted: the entries are the store, and nothing else has happened. */
  ghost predicate OnlyPutOut(s: State, entries: seq<Entry>) {
    && s.live == StoreOf(entries) && s.nextId == |entries| + 1 && s.pending == map[]
    && s.clients == map[] && s.queue == [] && s.notifier == N.Start() && s.waiters == map[]
  }

  lemma PutOne(cfg: Config, s: State, entries: seq<Entry>, entry: Entry)
    requires OnlyPutOut(s, entries) && ValidEntry(entry)
    ensures Enabled(cfg, s, OutInsert(entry))
    ensures var t := Step(cfg, s, OutInsert(entry)); var id := |entries| + 1;
      Enabled(cfg, t, OutCommit(id)) && OnlyPutOut(Step(cfg, t, OutCommit(id)), entries + [entry])
  {
    hide Moved;
    var t, id := Step(cfg, s, OutInsert(entry)), |entries| + 1;
    assert Step(cfg, t, OutCommit(id)).live == StoreOf(entries + [entry]);
  }

  /** Every list of valid tuples, put out one after the other, is a store that some run reaches. */
  lemma {:induction false} PutAll(cfg: Config, entries: seq<Entry>)
    returns (states: seq<State>, actions: seq<Action>, s: State)
    requires forall i :: 0 <= i < |entries| ==> ValidEntry(entries[i])
    ensures EndsIn(cfg, states, actions, s) && OnlyPutOut(s, entries) && Smooth(actions)
    decreases |entries|
  {
    if entries == [] {
      states, actions, s := [Init()], [], Init();
    } else {
      var n := |entries| - 1;
      states, actions, s := PutAll(cfg, entries[..n]);
      PutOne(cfg, s, entries[..n], entries[n]);
      assert entries[..n] + [entries[n]] == entries;
      states, actions := Extend(cfg, states, actions, s, OutInsert(entries[n]));
      s := Step(cfg, s, OutInsert(entries[n]));
      states, actions := Extend(cfg, states, actions, s, OutCommit(n + 1));
      s := Step(cfg, s, OutCommit(n + 1));
    }
  }
}
