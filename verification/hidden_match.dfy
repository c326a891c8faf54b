/** "Not found" over runs: the exact templates for which a caller can trust it, and a run that misleads. */
module HiddenMatch {
  import opened Wrappers
  import opened Types
  import opened Validation
  import opened Match
  import opened Store
  import opened Scan
  import opened Protocol
  import opened ProtocolInvariant
  import opened ProtocolWakeups
  import opened Guarantees
  import opened Runs

  const SPACE := "s"

  /** Begin and scan of a `rd` that does not wait and finds nothing. */
  lemma MissingRd(cfg: Config, s: State, entries: seq<Entry>, template: Template)
    requires OnlyPutOut(s, entries) && ValidTemplate(template)
    requires Pick(s.live, SPACE, template, {}, cfg.limit) == None
    ensures var begin := Begin(0, Request(SPACE, template, false, false));
      && Enabled(cfg, s, begin) && Enabled(cfg, Step(cfg, s, begin), ScanRd(0))
      && var t := Step(cfg, Step(cfg, s, begin), ScanRd(0));
         && t.live == s.live && At(t, 0, Returned(NotFound)) && t.clients[0].last == ScanRecord(s.live, {}) &&
           Locked(t) == {}
         && t.clients[0].req == Request(SPACE, template, false, false)
  {
    assert ValidSpace(SPACE);
  }

  lemma HiddenEntriesAreValid(good: Tuple, f: nat, limit: nat)
    requires f < |good.fields| && NormalTuple(good) && NormalTuple(Decoy(good, f))
    ensures forall i :: 0 <= i < |HiddenEntries(good, f, SPACE, limit)| ==>
      ValidEntry(HiddenEntries(good, f, SPACE, limit)[i])
  {
    assert ValidSpace(SPACE);
  }

  /** Valid tuples that, put out in this order, hide a match from a scan. */
  lemma MisleadingEntries(template: Template, limit: nat) returns (entries: seq<Entry>)
    requires ValidTemplate(template) && !AllActual(template) && !NameClash(template)
    ensures forall i :: 0 <= i < |entries| ==> ValidEntry(entries[i])
    ensures Pick(StoreOf(entries), SPACE, template, {}, limit) == None
    ensures IsMatch(StoreOf(entries), SPACE, template, limit + 1)
  {
    var f: nat :| f < |template.fields| && template.fields[f].kind != Actual;
    assert ValidTemplateField(template.fields[f]);
    var good := WitnessTuple(template);
    entries := HiddenEntries(good, f, SPACE, limit);
    HiddenStoreMisleads(template, good, f, SPACE, limit);
    DecoyIsCandidateOnly(template, good, f, SPACE);
    HiddenEntriesAreValid(good, f, limit);
  }

  lemma MissingRun(cfg: Config, entries: seq<Entry>, template: Template)
    returns (states: seq<State>, actions: seq<Action>, s: State)
    requires ValidTemplate(template) && forall i :: 0 <= i < |entries| ==> ValidEntry(entries[i])
    requires Pick(StoreOf(entries), SPACE, template, {}, cfg.limit) == None
    ensures EndsIn(cfg, states, actions, s) && Smooth(actions) && s.live == StoreOf(entries)
    ensures At(s, 0, Returned(NotFound)) && s.clients[0].req == Request(SPACE, template, false, false)
    ensures s.clients[0].last == ScanRecord(s.live, {}) && Locked(s) == {}
  {
    states, actions, s := PutAll(cfg, entries);
    MissingRd(cfg, s, entries, template);
    var begin := Begin(0, Request(SPACE, template, false, false));
    states, actions := Extend(cfg, states, actions, s, begin);
    s := Step(cfg, s, begin);
    states, actions := Extend(cfg, states, actions, s, ScanRd(0));
    s := Step(cfg, s, ScanRd(0));
  }

  /** For every candidate limit, and every template with a formal field that can match anything at all: a run
      without any error in which a `rd` returns "not found" beside a live match that nobody has locked. */
  lemma RdCanBeMisled(cfg: Config, template: Template)
    returns (states: seq<State>, actions: seq<Action>, s: State, m: nat)
    requires ValidConfig(cfg) && ValidTemplate(template) && !AllActual(template) && !NameClash(template)
    ensures EndsIn(cfg, states, actions, s) && Smooth(actions)
    ensures At(s, 0, Returned(NotFound)) && s.clients[0].req == Request(SPACE, template, false, false)
    ensures IsMatch(s.live, SPACE, template, m) && s.clients[0].last == ScanRecord(s.live, {}) && Locked(s) == {}
  {
    var entries := MisleadingEntries(template, cfg.limit);
    states, actions, s := MissingRun(cfg, entries, template);
    m := cfg.limit + 1;
  }

  predicate ToldNotFound(cl: Client, template: Template) {
    cl.req.template == template && OutcomeOf(cl) == Some(NotFound)
  }

  ghost predicate NothingMissed(cl: Client) {
    forall m: nat :: IsMatch(cl.last.live, cl.req.space, cl.req.template, m) ==> m in cl.last.locked
  }

  /** In every run, each call with this template that was told "not found" faced no match at its scan but
      rows locked by others. */
  ghost predicate ReliableInRuns(cfg: Config, template: Template) {
    forall states: seq<State>, actions: seq<Action>, n: nat, c: nat ::
      && IsRun(cfg, states, actions) && n < |states| && c in states[n].clients
      && ToldNotFound(states[n].clients[c], template) ==>
        NothingMissed(states[n].clients[c])
  }

  lemma TrustedNotFound(cfg: Config, states: seq<State>, actions: seq<Action>, n: nat, c: nat)
    requires ValidConfig(cfg) && IsRun(cfg, states, actions) && n < |states| && c in states[n].clients
    requires OutcomeOf(states[n].clients[c]) == Some(NotFound)
    requires AllActual(states[n].clients[c].req.template) || NameClash(states[n].clients[c].req.template)
    ensures NothingMissed(states[n].clients[c])
  {
    var cl := states[n].clients[c];
    NegativeAnswers(cfg, states, actions, n, c);
    if NameClash(cl.req.template) {
      RunHolds(cfg, states, actions, n);
      assert ShapeOk(cl) && ScanOk(cfg, states[n], cl);
      RecordIsNormal(cfg, states[n], cl);
      SatisfiableIffNoClash(cl.req.template);
    }
  }

  /** The exact condition over runs: "not found" can be trusted if and only if the template has no formal field,
      or can match nothing because it uses one name at two types. */
  lemma ReliableInRunsIff(cfg: Config, template: Template)
    requires ValidConfig(cfg) && ValidTemplate(template)
    ensures ReliableInRuns(cfg, template) <==> AllActual(template) || NameClash(template)
  {
    if AllActual(template) || NameClash(template) {
      forall states: seq<State>, actions: seq<Action>, n: nat, c: nat |
        && IsRun(cfg, states, actions) && n < |states| && c in states[n].clients
        && ToldNotFound(states[n].clients[c], template)
        ensures NothingMissed(states[n].clients[c])
      {
        TrustedNotFound(cfg, states, actions, n, c);
      }
    } else {
      var states, actions, s, m := RdCanBeMisled(cfg, template);
      assert ToldNotFound(states[|states| - 1].clients[0], template);
      assert !NothingMissed(s.clients[0]);
    }
  }
}
