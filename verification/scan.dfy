/** The candidate scan of `readOnce` and `consumeOnce` compared with a plain linear scan of the space. */
module Scan {
  import opened Wrappers
  import opened Types
  import opened Validation
  import opened Match
  import opened Store
  import opened Ids
  import opened CandidateQuery

  ghost predicate NormalLive(live: map<nat, Entry>) {
    forall id :: id in live ==> NormalTuple(live[id].tuple)
  }

  /** The Linda reading of a request: some live tuple of the space that the template matches. */
  ghost predicate IsMatch(live: map<nat, Entry>, space: string, template: Template, id: nat) {
    id in live && live[id].space == space && Matches(template, live[id].tuple)
  }

  /** The Go loop: the first candidate that matches. */
  ghost function FirstMatch(live: map<nat, Entry>, template: Template, ids: seq<nat>): Option<nat> {
    if ids == [] then None
    else if ids[0] in live && Matches(template, live[ids[0]].tuple) then Some(ids[0])
    else FirstMatch(live, template, ids[1..])
  }

  /** What one scan settles on: SQL candidates, cut at the limit, then the first match. */
  ghost function Pick(live: map<nat, Entry>, space: string, template: Template, locked: set<nat>,
                      limit: nat): Option<nat> {
    FirstMatch(live, template, Take(Candidates(live, space, template, locked), limit))
  }

  lemma {:induction false} FirstMatchPosition(live: map<nat, Entry>, template: Template, ids: seq<nat>)
    ensures FirstMatch(live, template, ids).Some? ==>
      exists k :: 0 <= k < |ids| && FirstMatch(live, template, ids) == Some(ids[k])
                  && ids[k] in live && Matches(template, live[ids[k]].tuple)
                  && forall j :: 0 <= j < k ==> !(ids[j] in live && Matches(template, live[ids[j]].tuple))
    ensures FirstMatch(live, template, ids).None? ==>
      forall j :: 0 <= j < |ids| ==> !(ids[j] in live && Matches(template, live[ids[j]].tuple))
  {
    if ids != [] && !(ids[0] in live && Matches(template, live[ids[0]].tuple)) {
      FirstMatchPosition(live, template, ids[1..]);
      if FirstMatch(live, template, ids[1..]).Some? {
        var k :| 0 <= k < |ids[1..]| && FirstMatch(live, template, ids[1..]) == Some(ids[1..][k])
                 && ids[1..][k] in live && Matches(template, live[ids[1..][k]].tuple)
                 && forall j :: 0 <= j < k ==> !(ids[1..][j] in live && Matches(template, live[ids[1..][j]].tuple));
        forall j | 0 <= j < k + 1 ensures !(ids[j] in live && Matches(template, live[ids[j]].tuple)) {
          if j > 0 { assert ids[j] == ids[1..][j - 1]; }
        }
        assert ids[k + 1] == ids[1..][k];
      } else {
        forall j | 0 <= j < |ids| ensures !(ids[j] in live && Matches(template, live[ids[j]].tuple)) {
          if j > 0 { assert ids[j] == ids[1..][j - 1]; }
        }
      }
    }
  }

  /** The index never filters a match out. */
  lemma MatchIsCandidate(live: map<nat, Entry>, space: string, template: Template, id: nat)
    requires NormalLive(live) && ValidTemplate(template) && IsMatch(live, space, template, id)
    ensures IsCandidate(live[id], space, template)
  {
    var sigma: Bindings :| sigma.Keys == FormalNames(template) && Instantiate(template, sigma) == live[id].tuple;
  }

  /** Candidates below `id`; a scan cut at `limit` reaches `id` only when fewer than `limit` of them exist. */
  ghost function CandidatesBelow(live: map<nat, Entry>, space: string, template: Template, locked: set<nat>,
                                 id: nat): set<nat> {
    set c | c in CandidateSet(live, space, template, locked) && c < id
  }

  /** A match the limited scan does not get to see. */
  ghost predicate BeyondLimit(live: map<nat, Entry>, space: string, template: Template, locked: set<nat>, limit: nat,
                              id: nat) {
    |CandidatesBelow(live, space, template, locked, id)| >= limit
  }

  /** The rank of a candidate is the number of candidates below it. */
  lemma CandidateRank(live: map<nat, Entry>, space: string, template: Template, locked: set<nat>, k: nat)
    requires k < |Candidates(live, space, template, locked)|
    ensures |CandidatesBelow(live, space, template, locked, Candidates(live, space, template, locked)[k])| == k
  {
    var all := Candidates(live, space, template, locked);
    RankOf(all, k);
    assert CandidatesBelow(live, space, template, locked, all[k]) == set id | id in all && id < all[k];
  }

  /** The rows a scan cut at `limit` returns: the candidates with fewer than `limit` others below them. */
  lemma TakenMeaning(live: map<nat, Entry>, space: string, template: Template, locked: set<nat>, limit: nat, id: nat)
    ensures id in Elements(Take(Candidates(live, space, template, locked), limit)) <==>
      && id in live && IsCandidate(live[id], space, template) && id !in locked
      && !BeyondLimit(live, space, template, locked, limit, id)
  {
    var all := Candidates(live, space, template, locked);
    if id in CandidateSet(live, space, template, locked) {
      assert id in all;
      var k :| 0 <= k < |all| && all[k] == id;
      CandidateRank(live, space, template, locked, k);
      if k < limit {
        assert Take(all, limit)[k] == id;
      }
    }
    if id in Take(all, limit) {
      var k :| 0 <= k < |Take(all, limit)| && Take(all, limit)[k] == id;
      assert all[k] == id;
      assert id in all;
      CandidateRank(live, space, template, locked, k);
    }
  }

  /** An unlocked match is in the candidate list at the rank its smaller candidates give it. */
  lemma MatchRank(live: map<nat, Entry>, space: string, template: Template, locked: set<nat>, m: nat) returns (k: nat)
    requires NormalLive(live) && ValidTemplate(template)
    requires IsMatch(live, space, template, m) && m !in locked
    ensures k < |Candidates(live, space, template, locked)| && Candidates(live, space, template, locked)[k] == m
    ensures k == |CandidatesBelow(live, space, template, locked, m)|
  {
    MatchIsCandidate(live, space, template, m);
    assert m in Candidates(live, space, template, locked);
    k :| 0 <= k < |Candidates(live, space, template, locked)| && Candidates(live, space, template, locked)[k] == m;
    CandidateRank(live, space, template, locked, k);
  }

  /** Where the picked candidate sits. */
  lemma PickPosition(live: map<nat, Entry>, space: string, template: Template, locked: set<nat>, limit: nat)
    returns (p: nat)
    requires Pick(live, space, template, locked, limit).Some?
    ensures var all, id := Candidates(live, space, template, locked), Pick(live, space, template, locked, limit).value;
      && p < |all| && p < limit && all[p] == id
      && IsMatch(live, space, template, id) && id !in locked
      && forall j :: 0 <= j < p ==> !(all[j] in live && Matches(template, live[all[j]].tuple))
  {
    var all := Candidates(live, space, template, locked);
    var ids := Take(all, limit);
    FirstMatchPosition(live, template, ids);
    p :| 0 <= p < |ids| && FirstMatch(live, template, ids) == Some(ids[p])
         && ids[p] in live && Matches(template, live[ids[p]].tuple)
         && forall j :: 0 <= j < p ==> !(ids[j] in live && Matches(template, live[ids[j]].tuple));
    assert all[p] in CandidateSet(live, space, template, locked);
    forall j | 0 <= j < p ensures ids[j] == all[j] {}
  }

  lemma PickIsLowest(live: map<nat, Entry>, space: string, template: Template, locked: set<nat>, p: nat, m: nat)
    requires NormalLive(live) && ValidTemplate(template)
    requires p < |Candidates(live, space, template, locked)|
    requires forall j :: 0 <= j < p ==> var c := Candidates(live, space, template, locked)[j];
                                         !(c in live && Matches(template, live[c].tuple))
    requires IsMatch(live, space, template, m) && m !in locked
    ensures Candidates(live, space, template, locked)[p] <= m
  {
    var k := MatchRank(live, space, template, locked, m);
  }

  /** What a scan finds is the lowest unlocked match of the whole space, and within the limit. */
  lemma PickFound(live: map<nat, Entry>, space: string, template: Template, locked: set<nat>, limit: nat)
    requires NormalLive(live) && ValidTemplate(template)
    requires Pick(live, space, template, locked, limit).Some?
    ensures var id := Pick(live, space, template, locked, limit).value;
      && IsMatch(live, space, template, id) && id !in locked
      && !BeyondLimit(live, space, template, locked, limit, id)
      && forall m: nat :: IsMatch(live, space, template, m) && m !in locked ==> id <= m
  {
    var all, id := Candidates(live, space, template, locked), Pick(live, space, template, locked, limit).value;
    var p := PickPosition(live, space, template, locked, limit);
    CandidateRank(live, space, template, locked, p);
    forall m: nat | IsMatch(live, space, template, m) && m !in locked ensures id <= m {
      PickIsLowest(live, space, template, locked, p, m);
    }
  }

  /** When a scan finds nothing, every unlocked match is beyond the limit. */
  lemma PickMissed(live: map<nat, Entry>, space: string, template: Template, locked: set<nat>, limit: nat)
    requires NormalLive(live) && ValidTemplate(template)
    requires Pick(live, space, template, locked, limit).None?
    ensures forall m: nat :: IsMatch(live, space, template, m) && m !in locked ==>
              BeyondLimit(live, space, template, locked, limit, m)
  {
    var all := Candidates(live, space, template, locked);
    var ids := Take(all, limit);
    FirstMatchPosition(live, template, ids);
    assert forall j {:trigger all[j]} :: 0 <= j < |ids| ==> ids[j] == all[j];
    forall m: nat | IsMatch(live, space, template, m) && m !in locked
      ensures BeyondLimit(live, space, template, locked, limit, m)
    {
      var k := MatchRank(live, space, template, locked, m);
    }
  }

  /** The two outcomes exclude each other: a scan finds a match exactly when one is unlocked and within the limit. */
  lemma PickExact(live: map<nat, Entry>, space: string, template: Template, locked: set<nat>, limit: nat)
    requires NormalLive(live) && ValidTemplate(template)
    ensures Pick(live, space, template, locked, limit).Some? <==>
      exists m: nat :: IsMatch(live, space, template, m) && m !in locked &&
        !BeyondLimit(live, space, template, locked, limit, m)
  {
    if Pick(live, space, template, locked, limit).Some? {
      PickFound(live, space, template, locked, limit);
    } else {
      PickMissed(live, space, template, locked, limit);
    }
  }

  predicate AllActual(template: Template) {
    forall i :: 0 <= i < |template.fields| ==> template.fields[i].kind == Actual
  }

  /** With only actual fields every candidate matches. */
  lemma AllActualCandidatesMatch(live: map<nat, Entry>, space: string, template: Template, id: nat)
    requires AllActual(template) && id in live && IsCandidate(live[id], space, template)
    ensures IsMatch(live, space, template, id)
  {
    var sigma: Bindings := map[];
    assert FormalNames(template) == {};
    assert sigma.Keys == FormalNames(template);
    assert Instantiate(template, sigma).fields == live[id].tuple.fields;
  }

  /** With only actual fields a scan of a non-empty candidate list finds something. */
  lemma AllActualFinds(live: map<nat, Entry>, space: string, template: Template, locked: set<nat>, limit: nat)
    requires NormalLive(live) && AllActual(template) && limit > 0
    requires CandidateSet(live, space, template, locked) != {}
    ensures Pick(live, space, template, locked, limit).Some?
  {
    var c :| c in CandidateSet(live, space, template, locked);
    var all := Candidates(live, space, template, locked);
    assert c in all;
    AllActualCandidatesMatch(live, space, template, all[0]);
    assert Take(all, limit)[0] == all[0];
  }

  lemma {:induction false} SubsetSize(a: set<nat>, b: set<nat>)
    requires a <= b
    ensures |a| <= |b|
  {
    if a != {} {
      var x :| x in a;
      SubsetSize(a - {x}, b - {x});
    }
  }

  /** "Not found" is the truth about the unlocked rows when the candidate list was not cut,
      or the template has only actual fields. */
  lemma NotFoundIsReliable(live: map<nat, Entry>, space: string, template: Template, locked: set<nat>, limit: nat)
    requires NormalLive(live) && ValidTemplate(template) && limit > 0
    requires Pick(live, space, template, locked, limit) == None
    requires |CandidateSet(live, space, template, locked)| <= limit || AllActual(template)
    ensures forall m: nat :: IsMatch(live, space, template, m) ==> m in locked
  {
    var all := CandidateSet(live, space, template, locked);
    if AllActual(template) && all != {} {
      AllActualFinds(live, space, template, locked, limit);
    }
    PickMissed(live, space, template, locked, limit);
    forall m: nat | IsMatch(live, space, template, m) ensures m in locked {
      MatchIsCandidate(live, space, template, m);
      if m !in locked && !AllActual(template) {
        SubsetSize(CandidatesBelow(live, space, template, locked, m), all - {m});
      }
    }
  }

  // ----- exactly which templates have a reliable "not found" -----

  /** Stores as the id sequence makes them: ids start at 1. */
  ghost predicate AlwaysReliable(template: Template, limit: nat) {
    forall live, space :: NormalLive(live) && 0 !in live && Pick(live, space, template, {}, limit) == None ==>
      forall m: nat :: !IsMatch(live, space, template, m)
  }

  /** A tuple that passes the index but has the wrong type at the formal position f. */
  function Decoy(good: Tuple, f: nat): Tuple
    requires f < |good.fields|
  {
    var other := if good.fields[f].ty ==
      TypeInt then TupleField(TypeBool, Bool(false)) else TupleField(TypeInt, Int(0));
    Tuple(good.fields[f := other])
  }

  /** The ids 1 to n. */
  function FirstIds(n: nat): (s: set<nat>)
    ensures |s| == n
    ensures forall id: nat :: id in s <==> 1 <= id <= n
  {
    if n == 0 then {} else FirstIds(n - 1) + {n}
  }

  /** The store after these entries have been put out, in this order, into an empty one. */
  function StoreOf(entries: seq<Entry>): map<nat, Entry> {
    map id | id in FirstIds(|entries|) :: entries[id - 1]
  }

  /** `limit` decoys put out before one matching tuple. */
  function HiddenEntries(good: Tuple, f: nat, space: string, limit: nat): seq<Entry>
    requires f < |good.fields|
  {
    seq(limit, i => Entry(space, Decoy(good, f))) + [Entry(space, good)]
  }

  lemma DecoyNeverMatches(template: Template, good: Tuple, f: nat)
    requires f < |template.fields| == |good.fields| && template.fields[f].ty == good.fields[f].ty
    ensures !Matches(template, Decoy(good, f))
  {
    forall sigma: Bindings | sigma.Keys == FormalNames(template)
      ensures Instantiate(template, sigma) != Decoy(good, f)
    {
      assert Instantiate(template, sigma).fields[f].ty == template.fields[f].ty;
    }
  }

  lemma DecoyIsCandidateOnly(template: Template, good: Tuple, f: nat, space: string)
    requires ValidTemplate(template) && NormalTuple(good) && Matches(template, good)
    requires f < |template.fields| == |good.fields| && template.fields[f].kind == Formal
    ensures IsCandidate(Entry(space, Decoy(good, f)), space, template)
    ensures NormalTuple(Decoy(good, f)) && !Matches(template, Decoy(good, f))
  {
    var sigma: Bindings :| sigma.Keys == FormalNames(template) && Instantiate(template, sigma) == good;
    var decoy := Decoy(good, f);
    forall i | 0 <= i < |template.fields|
      ensures good.fields[i].ty == template.fields[i].ty && (i != f ==> decoy.fields[i] == good.fields[i])
      ensures template.fields[i].kind == Actual ==> good.fields[i].value == template.fields[i].value
    {
      assert ValidTemplateField(template.fields[i]);
    }
    DecoyNeverMatches(template, good, f);
  }

  /** Candidates that do not match, `limit` of them before anything else, hide whatever comes after. */
  lemma DecoysHide(live: map<nat, Entry>, space: string, template: Template, limit: nat)
    requires NormalLive(live) && ValidTemplate(template) && live.Keys == FirstIds(limit + 1)
    requires forall id :: id in FirstIds(limit) ==>
      IsCandidate(live[id], space, template) && !IsMatch(live, space, template, id)
    ensures Pick(live, space, template, {}, limit) == None
  {
    var below := CandidatesBelow(live, space, template, {}, limit + 1);
    assert FirstIds(limit) <= below;
    SubsetSize(FirstIds(limit), below);
    PickExact(live, space, template, {}, limit);
    forall m: nat | IsMatch(live, space, template, m) ensures BeyondLimit(live, space, template, {}, limit, m) {
      assert m == limit + 1;
    }
  }

  lemma HiddenStoreRows(good: Tuple, f: nat, space: string, limit: nat)
    requires f < |good.fields|
    ensures var live := StoreOf(HiddenEntries(good, f, space, limit));
      && live.Keys == FirstIds(limit + 1) && live[limit + 1] == Entry(space, good)
      && forall id :: id in FirstIds(limit) ==> live[id] == Entry(space, Decoy(good, f))
  {
  }

  lemma HiddenStoreMisleads(template: Template, good: Tuple, f: nat, space: string, limit: nat)
    requires ValidTemplate(template) && NormalTuple(good) && Matches(template, good)
    requires f < |template.fields| == |good.fields| && template.fields[f].kind == Formal
    ensures var live := StoreOf(HiddenEntries(good, f, space, limit));
      && NormalLive(live) && Pick(live, space, template, {}, limit) == None
      && IsMatch(live, space, template, limit + 1)
  {
    var live := StoreOf(HiddenEntries(good, f, space, limit));
    HiddenStoreRows(good, f, space, limit);
    DecoyIsCandidateOnly(template, good, f, space);
    assert forall id :: id in live ==> id in FirstIds(limit) || id == limit + 1;
    assert NormalLive(live);
    DecoysHide(live, space, template, limit);
  }

  /** The exact condition: for a given template, "not found" can be trusted on every store exactly when the
      template has no formal field, or can match nothing because it uses one name at two types. */
  lemma ReliabilityCondition(template: Template, limit: nat)
    requires ValidTemplate(template) && limit > 0
    ensures AlwaysReliable(template, limit) <==> AllActual(template) || NameClash(template)
  {
    if AllActual(template) {
      forall live, space | NormalLive(live) && 0 !in live && Pick(live, space, template, {}, limit) == None
        ensures forall m: nat :: !IsMatch(live, space, template, m)
      {
        NotFoundIsReliable(live, space, template, {}, limit);
      }
    } else if NameClash(template) {
      SatisfiableIffNoClash(template);
      assert forall live, space, m: nat :: NormalLive(live) ==> !IsMatch(live, space, template, m);
    } else {
      var f :| 0 <= f < |template.fields| && template.fields[f].kind != Actual;
      assert ValidTemplateField(template.fields[f]);
      var good := WitnessTuple(template);
      HiddenStoreMisleads(template, good, f, "s", limit);
    }
  }
}
