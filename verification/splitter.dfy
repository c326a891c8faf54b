/** splitSpecFields of cmd/tuplespacectl/cmds/common.go: the quote-aware splitter. */
module Splitter {
  import opened Wrappers
  import opened Text

  /** inQuotes and escaped, which is only ever set inside quotes. */
  datatype Quote = Outside | Inside | Escaped

  function Advance(q: Quote, c: char): Quote {
    match q
    case Escaped => Inside
    case Inside => if c == '\\' then Escaped else if c == '"' then Outside else Inside
    case Outside => if c == '"' then Inside else Outside
  }

  /** The state after reading s from state q. */
  function Run(q: Quote, s: string): Quote {
    if s == "" then q else Advance(Run(q, s[..|s| - 1]), s[|s| - 1])
  }

  /** A comma outside quotes. */
  predicate SplitsAt(s: string, i: nat) {
    i < |s| && s[i] == ',' && Run(Outside, s[..i]) == Outside
  }

  /** Commas outside quotes among the first n characters. */
  function Commas(s: string, n: nat): nat
    requires n <= |s|
  {
    if n == 0 then 0 else Commas(s, n - 1) + if SplitsAt(s, n - 1) then 1 else 0
  }

  /** Quotes closed at the end and no comma outside them. */
  ghost predicate Solid(p: string) {
    Run(Outside, p) == Outside && forall i: nat :: !SplitsAt(p, i)
  }

  function AppendToLast(ps: seq<string>, c: char): (r: seq<string>)
    requires ps != []
    ensures |r| == |ps|
  {
    ps[..|ps| - 1] + [ps[|ps| - 1] + [c]]
  }

  /** The untrimmed pieces between the commas outside quotes. */
  function Pieces(s: string): (ps: seq<string>)
    ensures |ps| > 0
  {
    if s == "" then [""]
    else
      var n := |s| - 1;
      var ps := Pieces(s[..n]);
      if s[n] == ',' && Run(Outside, s[..n]) == Outside then ps + [""]
      else AppendToLast(ps, s[n])
  }

  /** One more character. */
  lemma PiecesSnoc(s: string, c: char)
    ensures Pieces(s + [c]) ==
      if c == ',' && Run(Outside, s) == Outside then Pieces(s) + [""] else AppendToLast(Pieces(s), c)
  {
    assert (s + [c])[..|s|] == s;
  }

  lemma RunSnoc(q: Quote, s: string, c: char)
    ensures Run(q, s + [c]) == Advance(Run(q, s), c)
  {
    assert (s + [c])[..|s|] == s;
  }

  datatype SpecError = EmptySpec | NoFields | EmptyField | UnterminatedQuote

  /** The text between optional outer parentheses. */
  function Body(spec: string): string {
    var trimmed := TrimSpace(spec);
    if |trimmed| >= 2 && trimmed[0] == '(' && trimmed[|trimmed| - 1] == ')'
    then TrimSpace(trimmed[1..|trimmed| - 1]) else trimmed
  }

  function TrimAll(ps: seq<string>): seq<string> {
    seq(|ps|, i requires 0 <= i < |ps| => TrimSpace(ps[i]))
  }

  predicate NoneBlank(ps: seq<string>) {
    forall i :: 0 <= i < |ps| ==> TrimSpace(ps[i]) != ""
  }

  lemma TrimAllSnoc(finished: seq<string>, current: string)
    ensures TrimAll(finished + [current]) == TrimAll(finished) + [TrimSpace(current)]
    ensures NoneBlank(finished + [current]) <==> NoneBlank(finished) && TrimSpace(current) != ""
  {
    assert (finished + [current])[|finished|] == current;
    assert forall i :: 0 <= i < |finished| ==> (finished + [current])[i] == finished[i];
  }

  /** One turn of the loop. */
  lemma PiecesStep(s: string, i: nat, finished: seq<string>, current: string)
    requires i < |s| && Pieces(s[..i]) == finished + [current]
    ensures Run(Outside, s[..i + 1]) == Advance(Run(Outside, s[..i]), s[i])
    ensures Pieces(s[..i + 1]) ==
      if s[i] == ',' && Run(Outside, s[..i]) == Outside then finished + [current] + [""]
      else finished + [current + [s[i]]]
  {
    assert s[..i + 1] == s[..i] + [s[i]];
    PiecesSnoc(s[..i], s[i]);
    RunSnoc(Outside, s[..i], s[i]);
    assert AppendToLast(finished + [current], s[i]) == finished + [current + [s[i]]];
  }

  /** A piece that is finished stays what it is however the text goes on. */
  lemma {:induction false} FinishedStays(s: string, n: nat, m: nat, k: nat)
    requires n <= m <= |s| && k + 1 < |Pieces(s[..n])|
    ensures k + 1 < |Pieces(s[..m])| && Pieces(s[..m])[k] == Pieces(s[..n])[k]
    decreases m
  {
    if n < m {
      FinishedStays(s, n, m - 1, k);
      assert s[..m][..m - 1] == s[..m - 1];
    }
  }

  lemma BlankStays(s: string, n: nat, k: nat)
    requires n <= |s| && k + 1 < |Pieces(s[..n])| && TrimSpace(Pieces(s[..n])[k]) == ""
    ensures k + 1 < |Pieces(s)| && TrimSpace(Pieces(s)[k]) == ""
    ensures !NoneBlank(Pieces(s)) && !NoneBlank(Pieces(s)[..|Pieces(s)| - 1])
  {
    FinishedStays(s, n, |s|, k);
    assert s[..|s|] == s;
    assert Pieces(s)[..|Pieces(s)| - 1][k] == Pieces(s)[k];
  }

  /** The scanning loop. */
  method SplitBody(trimmed: string) returns (r: Result<seq<string>, SpecError>)
    ensures r.Ok? <==> Run(Outside, trimmed) == Outside && NoneBlank(Pieces(trimmed))
    ensures r.Ok? ==> r.value == TrimAll(Pieces(trimmed))
    ensures r.Err? ==>
      r.error == if NoneBlank(Pieces(trimmed)[..|Pieces(trimmed)| - 1]) && Run(Outside, trimmed) != Outside
                 then UnterminatedQuote else EmptyField
  {
    var parts: seq<string> := [];
    var current := "";
    var inQuotes, escaped := false, false;
    ghost var finished: seq<string> := [];
    for i := 0 to |trimmed|
      invariant Run(Outside, trimmed[..i]) == if escaped then Escaped else if inQuotes then Inside else Outside
      invariant escaped ==> inQuotes
      invariant Pieces(trimmed[..i]) == finished + [current]
      invariant NoneBlank(finished) && parts == TrimAll(finished)
    {
      var c := trimmed[i];
      PiecesStep(trimmed, i, finished, current);
      if escaped {
        current := current + [c];
        escaped := false;
      } else if c == '\\' && inQuotes {
        current := current + [c];
        escaped := true;
      } else if c == '"' {
        current := current + [c];
        inQuotes := !inQuotes;
      } else if c == ',' && !inQuotes {
        var part := TrimSpace(current);
        if part == "" {
          BlankStays(trimmed, i + 1, |finished|);
          return Err(EmptyField);
        }
        TrimAllSnoc(finished, current);
        parts := parts + [part];
        finished := finished + [current];
        current := "";
      } else {
        current := current + [c];
      }
    }
    assert trimmed[..|trimmed|] == trimmed;
    TrimAllSnoc(finished, current);
    assert (finished + [current])[..|finished|] == finished;
    if inQuotes {
      return Err(UnterminatedQuote);
    }
    var part := TrimSpace(current);
    if part == "" {
      return Err(EmptyField);
    }
    parts := parts + [part];
    return Ok(parts);
  }

  method SplitSpecFields(spec: string) returns (r: Result<seq<string>, SpecError>)
    ensures r.Ok? <==>
      TrimSpace(spec) != "" && Body(spec) != "" && Run(Outside, Body(spec)) == Outside && NoneBlank(Pieces(Body(spec)))
    ensures r.Ok? ==> r.value == TrimAll(Pieces(Body(spec)))
    ensures r == Err(EmptySpec) <==> TrimSpace(spec) == ""
    ensures r == Err(NoFields) <==> TrimSpace(spec) != "" && Body(spec) == ""
    ensures r == Err(UnterminatedQuote) <==>
      && Body(spec) != "" && TrimSpace(spec) != "" && Run(Outside, Body(spec)) != Outside
      && NoneBlank(Pieces(Body(spec))[..|Pieces(Body(spec))| - 1])
  {
    var trimmed := TrimSpace(spec);
    if trimmed == "" {
      return Err(EmptySpec);
    }
    if |trimmed| >= 2 && trimmed[0] == '(' && trimmed[|trimmed| - 1] == ')' {
      trimmed := TrimSpace(trimmed[1..|trimmed| - 1]);
    }
    if trimmed == "" {
      return Err(NoFields);
    }
    assert trimmed == Body(spec);
    r := SplitBody(trimmed);
  }

  // ----- what splitting means -----

  lemma {:induction false} RunConcat(q: Quote, a: string, b: string)
    ensures Run(q, a + b) == Run(Run(q, a), b)
    decreases |b|
  {
    if b == "" {
      assert a + b == a;
    } else {
      var b', c := b[..|b| - 1], b[|b| - 1];
      RunConcat(q, a, b');
      RunSnoc(q, a + b', c);
      assert a + b == (a + b') + [c];
    }
  }

  lemma {:induction false} CommasPrefix(s: string, m: nat, n: nat)
    requires n <= m <= |s|
    ensures Commas(s[..m], n) == Commas(s, n)
  {
    if n > 0 {
      CommasPrefix(s, m, n - 1);
      assert s[..m][..n - 1] == s[..n - 1];
    }
  }

  lemma CommasSnoc(s: string, c: char)
    ensures Commas(s + [c], |s + [c]|) == Commas(s, |s|) + if c == ',' && Run(Outside, s) == Outside then 1 else 0
  {
    assert (s + [c])[..|s|] == s;
    CommasPrefix(s + [c], |s|, |s|);
  }

  lemma JoinSnoc(init: seq<string>, last: string)
    ensures JoinCommas(init + [last]) == if init == [] then last else JoinCommas(init) + "," + last
  {
    assert (init + [last])[..|init|] == init;
  }

  lemma JoinAppendToLast(ps: seq<string>, c: char)
    requires ps != []
    ensures JoinCommas(AppendToLast(ps, c)) == JoinCommas(ps) + [c]
  {
    var init, last := ps[..|ps| - 1], ps[|ps| - 1];
    assert ps == init + [last];
    JoinSnoc(init, last);
    JoinSnoc(init, last + [c]);
  }

  /** Joining the pieces restores the text, and there is one more piece than commas outside quotes. */
  lemma {:induction false} PiecesRestore(s: string)
    ensures JoinCommas(Pieces(s)) == s
    ensures |Pieces(s)| == 1 + Commas(s, |s|)
  {
    if s != "" {
      var s', c := s[..|s| - 1], s[|s| - 1];
      assert s == s' + [c];
      PiecesRestore(s');
      PiecesSnoc(s', c);
      CommasSnoc(s', c);
      if c == ',' && Run(Outside, s') == Outside {
        JoinSnoc(Pieces(s'), "");
      } else {
        JoinAppendToLast(Pieces(s'), c);
      }
    }
  }

  /** No comma outside quotes. */
  ghost predicate Unsplit(p: string) {
    forall i: nat :: !SplitsAt(p, i)
  }

  lemma UnsplitSnoc(p: string, c: char)
    ensures Unsplit(p + [c]) <==> Unsplit(p) && !(c == ',' && Run(Outside, p) == Outside)
  {
    var s := p + [c];
    assert s[..|p|] == p;
    forall i: nat | i < |p| ensures SplitsAt(s, i) <==> SplitsAt(p, i) {
      assert s[..i] == p[..i];
    }
    assert SplitsAt(s, |p|) <==> c == ',' && Run(Outside, p) == Outside;
  }

  /** All pieces but the last are solid; the last has no comma outside quotes and ends in state q. */
  ghost predicate SolidUpTo(ps: seq<string>, q: Quote)
    requires ps != []
  {
    && (forall k :: 0 <= k < |ps| - 1 ==> Solid(ps[k]))
    && Unsplit(ps[|ps| - 1]) && Run(Outside, ps[|ps| - 1]) == q
  }

  lemma MorePieces(ps: seq<string>, q: Quote, c: char)
    requires ps != [] && SolidUpTo(ps, q)
    ensures c == ',' && q == Outside ==> SolidUpTo(ps + [""], Outside)
    ensures !(c == ',' && q == Outside) ==> SolidUpTo(AppendToLast(ps, c), Advance(q, c))
  {
    var last := ps[|ps| - 1];
    UnsplitSnoc(last, c);
    RunSnoc(Outside, last, c);
    assert q == Outside ==> Solid(last);
  }

  /** No piece has a comma outside quotes; all pieces but the last have their quotes closed, and the last
      ends in the state the whole text ends in. */
  lemma {:induction false} PiecesSolid(s: string)
    ensures SolidUpTo(Pieces(s), Run(Outside, s))
  {
    if s != "" {
      var s', c := s[..|s| - 1], s[|s| - 1];
      assert s == s' + [c];
      PiecesSolid(s');
      PiecesSnoc(s', c);
      RunSnoc(Outside, s', c);
      MorePieces(Pieces(s'), Run(Outside, s'), c);
    }
  }

  lemma {:induction false} UnsplitIsOnePiece(p: string)
    requires Unsplit(p)
    ensures Pieces(p) == [p]
  {
    if p != "" {
      var p', c := p[..|p| - 1], p[|p| - 1];
      assert p == p' + [c];
      UnsplitSnoc(p', c);
      UnsplitIsOnePiece(p');
      PiecesSnoc(p', c);
    }
  }

  lemma {:induction false} SplitAfterComma(a: string, p: string)
    requires Unsplit(p) && Run(Outside, a) == Outside
    ensures Pieces(a + "," + p) == Pieces(a) + [p]
    ensures Run(Outside, a + "," + p) == Run(Outside, p)
  {
    if p == "" {
      assert a + "," + p == a + [','];
      PiecesSnoc(a, ',');
      RunSnoc(Outside, a, ',');
    } else {
      var p', c := p[..|p| - 1], p[|p| - 1];
      assert p == p' + [c];
      UnsplitSnoc(p', c);
      SplitAfterComma(a, p');
      var before := a + "," + p';
      assert a + "," + p == before + [c];
      PiecesSnoc(before, c);
      RunSnoc(Outside, before, c);
      RunSnoc(Outside, p', c);
      assert AppendToLast(Pieces(a) + [p'], c) == Pieces(a) + [p];
    }
  }

  /** Splitting undoes joining: solid pieces come back as they were. */
  lemma {:induction false} SplitJoin(ps: seq<string>)
    requires ps != [] && forall k :: 0 <= k < |ps| ==> Solid(ps[k])
    ensures Pieces(JoinCommas(ps)) == ps && Run(Outside, JoinCommas(ps)) == Outside
  {
    var init, last := ps[..|ps| - 1], ps[|ps| - 1];
    assert ps == init + [last] && Solid(last);
    JoinSnoc(init, last);
    if init == [] {
      UnsplitIsOnePiece(last);
    } else {
      SplitJoin(init);
      SplitAfterComma(JoinCommas(init), last);
    }
  }

  /** The splitter's promise in one place: on success as many fields as commas outside quotes plus one, the
      quotes of every piece closed, and the pieces joined are the stripped input. */
  lemma SplitterCorrect(body: string)
    requires Run(Outside, body) == Outside
    ensures JoinCommas(Pieces(body)) == body && |Pieces(body)| == 1 + Commas(body, |body|)
    ensures forall k :: 0 <= k < |Pieces(body)| ==> Solid(Pieces(body)[k])
  {
    PiecesRestore(body);
    PiecesSolid(body);
  }
}
