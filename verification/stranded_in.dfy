/** The residue of a parked `in` is real: releasing row locks sends no notification, so a run without any
    error leaves an `in` parked beside a live, unlocked tuple that it matches. A candidate scan locks rows
    of the wrong type too, so this takes one tuple, and another `in` that does not even match it. */
module StrandedIn {
  import opened Wrappers
  import opened Types
  import opened Validation
  import opened Match
  import opened Store
  import opened Ids
  import opened CandidateQuery
  import opened Scan
  import opened Protocol
  import opened Runs
  import N = NotifierModel

  const ANY_INT := Template([TemplateField(Formal, TypeInt, "x", Nil)])
  const ANY_BOOL := Template([TemplateField(Formal, TypeBool, "x", Nil)])
  const ONE := Entry("s", Tuple([TupleField(TypeInt, Int(1))]))

  /** The tuple matches one template, and both templates make it a candidate. */
  lemma OneMatches()
    ensures ValidTemplate(ANY_INT) && ValidTemplate(ANY_BOOL) && ValidTuple(ONE.tuple) && ValidSpace("s")
    ensures Matches(ANY_INT, ONE.tuple) && !Matches(ANY_BOOL, ONE.tuple)
    ensures IsCandidate(ONE, "s", ANY_INT) && IsCandidate(ONE, "s", ANY_BOOL)
  {
    var sigma: Bindings := map["x" := Int(1)];
    assert ANY_INT.fields[0] == TemplateField(Formal, TypeInt, "x", Nil);
    assert ANY_BOOL.fields[0] == TemplateField(Formal, TypeBool, "x", Nil);
    assert FormalNames(ANY_INT) == {"x"} by { assert "x" in FormalNames(ANY_INT); }
    assert Instantiate(ANY_INT, sigma).fields == ONE.tuple.fields;
    assert forall other: Bindings :: other.Keys == FormalNames(ANY_BOOL) ==>
      Instantiate(ANY_BOOL, other).fields[0].ty == TypeBool;
  }

  /** One tuple put out while nobody listens. */
  lemma OneTuple(cfg: Config) returns (states: seq<State>, actions: seq<Action>, s: State)
    ensures EndsIn(cfg, states, actions, s) && Smooth(actions)
    ensures s.live == map[1 := ONE] && s.pending == map[] && s.clients == map[] && s.queue == []
    ensures s.notifier == N.Start() && s.waiters == map[]
  {
    OneMatches();
    states, actions, s := PutAll(cfg, [ONE]);
    assert s.live == map[1 := ONE];
  }

  const TRY := Request("s", ANY_BOOL, false, true)
  const WAIT := Request("s", ANY_INT, true, true)
  const FRESH := ScanRecord(map[], {})

  /** Client 0 asks without waiting, client 1 is about to subscribe. */
  lemma TwoCalls(cfg: Config) returns (states: seq<State>, actions: seq<Action>, s: State)
    ensures EndsIn(cfg, states, actions, s) && Smooth(actions)
    ensures s.live == map[1 := ONE] && s.pending == map[] && s.queue == [] && s.waiters == map[]
    ensures s.clients == map[0 := Client(TRY, Scanning, false, None, 0, FRESH),
                             1 := Client(WAIT, Subscribing, false, None, 0, FRESH)]
    ensures s.notifier == N.Start()
  {
    OneMatches();
    states, actions, s := OneTuple(cfg);
    states, actions := Extend(cfg, states, actions, s, Begin(0, TRY));
    s := Step(cfg, s, Begin(0, TRY));
    states, actions := Extend(cfg, states, actions, s, Begin(1, WAIT));
    s := Step(cfg, s, Begin(1, WAIT));
  }

  lemma TwoTakers(cfg: Config) returns (states: seq<State>, actions: seq<Action>, s: State)
    ensures EndsIn(cfg, states, actions, s) && Smooth(actions)
    ensures s.live == map[1 := ONE] && s.pending == map[] && s.queue == [] && s.waiters == map[]
    ensures s.clients == map[0 := Client(TRY, Scanning, false, None, 0, FRESH),
                             1 := Client(WAIT, Scanning, true, None, 0, FRESH)]
    ensures 1 in s.notifier.subs && s.notifier.subs[1].tokens == 0
  {
    states, actions, s := TwoCalls(cfg);
    states, actions := Extend(cfg, states, actions, s, Subscribe(1, N.Done));
    s := Step(cfg, s, Subscribe(1, N.Done));
  }

  /** The first scan locks the row and finds no match in it. */
  lemma FirstScanLocks(live: map<nat, Entry>, limit: nat)
    requires live == map[1 := ONE] && limit > 0
    ensures Elements(Take(Candidates(live, "s", ANY_BOOL, {}), limit)) == {1}
    ensures Pick(live, "s", ANY_BOOL, {}, limit) == None
  {
    OneMatches();
    assert CandidateSet(live, "s", ANY_BOOL, {}) == {1};
    AscendingUnique(Candidates(live, "s", ANY_BOOL, {}), [1]);
    if Pick(live, "s", ANY_BOOL, {}, limit).Some? {
      var p := PickPosition(live, "s", ANY_BOOL, {}, limit);
    }
  }

  lemma SecondScanFindsNothing(live: map<nat, Entry>, limit: nat)
    requires live == map[1 := ONE]
    ensures Elements(Take(Candidates(live, "s", ANY_INT, {1}), limit)) == {}
    ensures Pick(live, "s", ANY_INT, {1}, limit) == None
  {
    assert CandidateSet(live, "s", ANY_INT, {1}) == {};
  }

  /** Both have scanned: client 0 holds the row, client 1 came away empty. */
  lemma BothScanned(cfg: Config) returns (states: seq<State>, actions: seq<Action>, s: State)
    requires ValidConfig(cfg)
    ensures EndsIn(cfg, states, actions, s)
    ensures s.live == map[1 := ONE] && s.pending == map[] && s.queue == [] && s.waiters == map[]
    ensures s.clients.Keys == {0, 1}
    ensures s.clients[0].phase == Holding({1}, None) && s.clients[0].req == TRY
    ensures s.clients[1].phase == Holding({}, None) && s.clients[1].req == WAIT && s.clients[1].waiter == None
    ensures 1 in s.notifier.subs && s.notifier.subs[1].tokens == 0
    ensures Smooth(actions)
  {
    states, actions, s := TwoTakers(cfg);
    assert Locked(s) == {};
    FirstScanLocks(s.live, cfg.limit);
    states, actions := Extend(cfg, states, actions, s, ScanIn(0));
    s := Step(cfg, s, ScanIn(0));
    assert Locked(s) == {1} by {
      assert s.clients[0].phase.held == {1};
    }
    SecondScanFindsNothing(s.live, cfg.limit);
    states, actions := Extend(cfg, states, actions, s, ScanIn(1));
    s := Step(cfg, s, ScanIn(1));
  }

  /** Client 1 gives its empty transaction up and parks. */
  lemma SecondParks(cfg: Config) returns (states: seq<State>, actions: seq<Action>, s: State)
    requires ValidConfig(cfg)
    ensures EndsIn(cfg, states, actions, s)
    ensures s.live == map[1 := ONE] && s.pending == map[] && s.queue == [] && Smooth(actions)
    ensures s.clients.Keys == {0, 1}
    ensures s.clients[0].phase == Holding({1}, None) && s.clients[0].req == TRY
    ensures s.clients[1].phase == Parked && s.clients[1].req == WAIT
    ensures 1 in s.notifier.subs && s.notifier.subs[1].tokens == 0
  {
    states, actions, s := BothScanned(cfg);
    states, actions := Extend(cfg, states, actions, s, RollbackIn(1));
    s := Step(cfg, s, RollbackIn(1));
    states, actions := Extend(cfg, states, actions, s, Park(1));
    s := Step(cfg, s, Park(1));
  }

  /** For every candidate limit: no error anywhere in the run, and at its end client 1 is parked in a blocking
      `in`, everyone else is done, nothing is on its way to wake it, and tuple 1 is live, unlocked and matches. */
  lemma InCanBeStranded(cfg: Config) returns (states: seq<State>, actions: seq<Action>, s: State)
    requires ValidConfig(cfg)
    ensures IsRun(cfg, states, actions) && s == states[|states| - 1] && Smooth(actions)
    ensures At(s, 1, Parked) && s.clients[1].req.destructive && Tokens(s, 1) == 0 && s.queue == []
    ensures IsMatch(s.live, s.clients[1].req.space, s.clients[1].req.template, 1) && Locked(s) == {}
    ensures s.pending == map[] && forall c :: c in s.clients && c != 1 ==> s.clients[c].phase.Returned?
  {
    OneMatches();
    states, actions, s := SecondParks(cfg);
    states, actions := Extend(cfg, states, actions, s, RollbackIn(0));
    s := Step(cfg, s, RollbackIn(0));
  }
}
