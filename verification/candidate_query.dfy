/** internal/store/candidate_query.go: a template compiled to a parameterised self-join over
    tuple_fields, the meaning of that query, and what it selects. */
module CandidateQuery {
  import opened Wrappers
  import opened Types
  import opened Store
  import opened Ids

  // ----- the emitted SQL -----

  datatype SqlValue = Null | Text(s: string) | Num(i: int) | Boolean(b: bool)

  datatype Column = ColPos | ColType | ColText | ColInt | ColBool

  /** f<alias>.<column> = $<param> */
  datatype OnTerm = OnTerm(alias: nat, column: Column, param: nat)

  /** JOIN tuple_fields f<alias> ON f<alias>.tuple_id = t.id AND <terms> */
  datatype Join = Join(alias: nat, terms: seq<OnTerm>)

  /** SELECT t.id, t.space, t.fields_json FROM tuples t <joins>
      WHERE t.space = $<spaceParam> AND t.arity = $<arityParam>
      ORDER BY t.id [FOR UPDATE SKIP LOCKED] LIMIT $<limitParam> */
  datatype Query = Query(joins: seq<Join>, spaceParam: nat, arityParam: nat, skipLocked: bool, limitParam: nat)

  // ----- its meaning -----

  /** The value bound to placeholder $k. */
  function Param(args: seq<SqlValue>, k: nat): SqlValue {
    if 1 <= k <= |args| then args[k - 1] else Null
  }

  function ColumnOf(r: FieldRow, column: Column): SqlValue {
    match column
    case ColPos => Num(r.pos)
    case ColType => Text(r.ty)
    case ColText => (match r.textVal case Some(s) => Text(s) case None => Null)
    case ColInt => (match r.intVal case Some(i) => Num(i) case None => Null)
    case ColBool => (match r.boolVal case Some(b) => Boolean(b) case None => Null)
  }

  /** `=` is true only between non-NULL equal values. */
  predicate SqlEqual(a: SqlValue, b: SqlValue) {
    a != Null && b != Null && a == b
  }

  /** env[k] is the row bound to alias fk. */
  predicate TermHolds(term: OnTerm, env: seq<FieldRow>, args: seq<SqlValue>) {
    term.alias < |env| && SqlEqual(ColumnOf(env[term.alias], term.column), Param(args, term.param))
  }

  predicate OnHolds(join: Join, id: nat, env: seq<FieldRow>, args: seq<SqlValue>) {
    && join.alias + 1 == |env|
    && env[join.alias].tupleId == id
    && forall k :: 0 <= k < |join.terms| ==> TermHolds(join.terms[k], env, args)
  }

  /** Every way to bind the joined aliases for the tuple `id`; each is one row of the join. */
  function Combos(fields: set<FieldRow>, joins: seq<Join>, id: nat, args: seq<SqlValue>): set<seq<FieldRow>> {
    if joins == [] then {[]}
    else
      set env, r | env in Combos(fields, joins[..|joins| - 1], id, args) && r in fields
                   && OnHolds(joins[|joins| - 1], id, env + [r], args) :: env + [r]
  }

  predicate WhereHolds(q: Query, row: TupleRow, args: seq<SqlValue>) {
    && SqlEqual(Text(row.space), Param(args, q.spaceParam))
    && SqlEqual(Num(row.arity), Param(args, q.arityParam))
  }

  /** How often the tuple `id` occurs in the result before LIMIT. */
  function Multiplicity(tables: Tables, q: Query, args: seq<SqlValue>, locked: set<nat>, id: nat): nat {
    if id in tables.tuples && WhereHolds(q, tables.tuples[id], args) && !(q.skipLocked && id in locked)
    then |Combos(tables.fields, q.joins, id, args)| else 0
  }

  function Repeat(id: nat, n: nat): seq<nat> {
    seq(n, _ => id)
  }

  function Emit(tables: Tables, q: Query, args: seq<SqlValue>, locked: set<nat>, ids: seq<nat>): seq<nat> {
    if ids == [] then []
    else Repeat(ids[0], Multiplicity(tables, q, args, locked, ids[0])) + Emit(tables, q, args, locked, ids[1..])
  }

  /** The ids of the result rows, in order. `locked` are the rows other transactions hold. */
  function Select(tables: Tables, q: Query, args: seq<SqlValue>, locked: set<nat>): seq<nat> {
    var rows := Emit(tables, q, args, locked, Sorted(tables.tuples.Keys));
    var limit := Param(args, q.limitParam);
    if limit.Num? && limit.i >= 0 then Take(rows, limit.i) else rows
  }

  // ----- what the query is meant to select -----

  predicate FieldIsCandidate(want: TemplateField, have: TupleField) {
    want.kind == Actual ==> want.ty == have.ty && want.value == have.value
  }

  /** Right space, right arity, right actual fields; formal fields are not looked at, not even their type. */
  predicate IsCandidate(entry: Entry, space: string, template: Template) {
    && entry.space == space
    && |entry.tuple.fields| == |template.fields|
    && forall i :: 0 <= i < |template.fields| ==> FieldIsCandidate(template.fields[i], entry.tuple.fields[i])
  }

  function CandidateSet(live: map<nat, Entry>, space: string, template: Template, locked: set<nat>): set<nat> {
    set id | id in live && id !in locked && IsCandidate(live[id], space, template)
  }

  /** The candidates in ascending id, without duplicates. */
  function Candidates(live: map<nat, Entry>, space: string, template: Template, locked: set<nat>): seq<nat> {
    Sorted(CandidateSet(live, space, template, locked))
  }

  function EffectiveLimit(limit: int): nat {
    if limit <= 0 then 64 else limit
  }

  // ----- the compiler -----

  function ValueColumn(ty: ValueType): Column {
    match ty
    case TypeString => ColText
    case TypeInt => ColInt
    case TypeBool => ColBool
    case OtherType(_) => ColText
  }

  function ArgOf(raw: Raw): SqlValue {
    match raw
    case Str(s) => Text(s)
    case Int(i) => Num(i)
    case Bool(b) => Boolean(b)
    case _ => Null
  }

  predicate Compilable(template: Template, n: nat)
    requires n <= |template.fields|
  {
    forall i :: 0 <= i < n && template.fields[i].kind == Actual ==> IsSupportedValueType(template.fields[i].ty)
  }

  /** The arguments emitted for the first n fields: three for each actual one. */
  function FieldArgs(template: Template, n: nat): seq<SqlValue>
    requires n <= |template.fields|
  {
    if n == 0 then []
    else
      var field, before := template.fields[n - 1], FieldArgs(template, n - 1);
      if field.kind != Actual then before
      else before + [Num(n - 1), Text(TypeName(field.ty)), ArgOf(field.value)]
  }

  function FieldJoins(template: Template, n: nat): seq<Join>
    requires n <= |template.fields|
  {
    if n == 0 then []
    else
      var field, before, used := template.fields[n - 1], FieldJoins(template, n - 1), |FieldArgs(template, n - 1)|;
      if field.kind != Actual then before
      else before + [Join(|before|, [OnTerm(|before|, ColPos, used + 1),
                                     OnTerm(|before|, ColType, used + 2),
                                     OnTerm(|before|, ValueColumn(field.ty), used + 3)])]
  }

  // ----- the compiled query means what it should -----

  /** Actual fields among the first n agree with the tuple. */
  predicate PrefixAgrees(template: Template, tuple: Tuple, n: nat)
    requires n <= |template.fields| == |tuple.fields|
  {
    forall i :: 0 <= i < n ==> FieldIsCandidate(template.fields[i], tuple.fields[i])
  }

  /** The index rows of the actual fields among the first n. */
  function ActualRows(template: Template, tuple: Tuple, id: nat, n: nat): seq<FieldRow>
    requires n <= |template.fields| == |tuple.fields|
  {
    if n == 0 then []
    else if template.fields[n - 1].kind != Actual then ActualRows(template, tuple, id, n - 1)
    else ActualRows(template, tuple, id, n - 1) + [FieldRowFor(id, n - 1, tuple.fields[n - 1])]
  }

  lemma {:induction false} ActualRowsLength(template: Template, tuple: Tuple, id: nat, n: nat)
    requires n <= |template.fields| == |tuple.fields|
    ensures |ActualRows(template, tuple, id, n)| == |FieldJoins(template, n)|
  {
    if n > 0 {
      ActualRowsLength(template, tuple, id, n - 1);
    }
  }

  /** The ON clause of one actual field picks out exactly the index row at its position, and only
      when type and value agree. */
  lemma OnClauseMeaning(field: TemplateField, pos: nat, have: TupleField, id: nat, row: FieldRow,
                        env: seq<FieldRow>, join: Join, used: nat, args: seq<SqlValue>)
    requires field.kind == Actual && Canonical(field.ty, field.value) && Canonical(have.ty, have.value)
    requires row.tupleId == id && row.pos == pos ==> row == FieldRowFor(id, pos, have)
    requires join == Join(|env|, [OnTerm(|env|, ColPos, used + 1), OnTerm(|env|, ColType, used + 2),
                                  OnTerm(|env|, ValueColumn(field.ty), used + 3)])
    requires used + 3 <= |args|
    requires args[used] == Num(pos) && args[used + 1] == Text(TypeName(field.ty)) &&
      args[used + 2] == ArgOf(field.value)
    ensures OnHolds(join, id, env + [row], args) <==>
            row == FieldRowFor(id, pos, have) && FieldIsCandidate(field, have)
  {
    var env' := env + [row];
    assert env'[join.alias] == row;
    assert TermHolds(join.terms[0], env', args) <==> row.pos == pos;
    assert TermHolds(join.terms[1], env', args) <==> row.ty == TypeName(field.ty);
    TypeNameInjective(field.ty, have.ty);
    if row == FieldRowFor(id, pos, have) && field.ty == have.ty {
      assert TermHolds(join.terms[2], env', args) <==> field.value == have.value;
    }
    assert OnHolds(join, id, env', args) <==>
      row.tupleId == id && TermHolds(join.terms[0], env', args) && TermHolds(join.terms[1], env', args)
      && TermHolds(join.terms[2], env', args);
  }

  lemma LastOnClauseAt(template: Template, tuple: Tuple, id: nat, n: nat, args: seq<SqlValue>, r: FieldRow)
    requires NormalTemplate(template) && NormalTuple(tuple)
    requires 0 < n <= |template.fields| == |tuple.fields|
    requires template.fields[n - 1].kind == Actual
    requires FieldArgs(template, n) <= args
    requires r.tupleId == id && r.pos == n - 1 ==> r == FieldRowFor(id, n - 1, tuple.fields[n - 1])
    ensures OnHolds(FieldJoins(template, n)[|FieldJoins(template, n)| - 1], id,
                    ActualRows(template, tuple, id, n - 1) + [r], args) <==>
            r == FieldRowFor(id, n - 1, tuple.fields[n - 1]) &&
            FieldIsCandidate(template.fields[n - 1], tuple.fields[n - 1])
  {
    var field := template.fields[n - 1];
    var joins, used := FieldJoins(template, n), |FieldArgs(template, n - 1)|;
    ActualRowsLength(template, tuple, id, n - 1);
    assert args[used..used + 3] == [Num(n - 1), Text(TypeName(field.ty)), ArgOf(field.value)];
    OnClauseMeaning(field, n - 1, tuple.fields[n - 1], id, r, ActualRows(template, tuple, id, n - 1),
                    joins[|joins| - 1], used, args);
  }

  /** The join added for an actual field n-1 is satisfied by that field's own index row alone. */
  lemma LastOnClause(fields: set<FieldRow>, live: map<nat, Entry>, id: nat,
                     template: Template, n: nat, args: seq<SqlValue>)
    requires IndexHolds(fields, live) && id in live
    requires NormalTemplate(template) && NormalTuple(live[id].tuple)
    requires 0 < n <= |template.fields| == |live[id].tuple.fields|
    requires template.fields[n - 1].kind == Actual
    requires FieldArgs(template, n) <= args
    ensures var joins, own := FieldJoins(template, n), FieldRowFor(id, n - 1, live[id].tuple.fields[n - 1]);
      && own in fields
      && forall r :: r in fields ==>
           (OnHolds(joins[|joins| - 1], id, ActualRows(template, live[id].tuple, id, n - 1) + [r], args) <==>
            r == own && FieldIsCandidate(template.fields[n - 1], live[id].tuple.fields[n - 1]))
  {
    var tuple := live[id].tuple;
    assert FieldRowFor(id, n - 1, tuple.fields[n - 1]) in fields;
    forall r | r in fields
      ensures OnHolds(FieldJoins(template, n)[|FieldJoins(template, n)| - 1], id,
                      ActualRows(template, tuple, id, n - 1) + [r], args) <==>
              r == FieldRowFor(id, n - 1, tuple.fields[n - 1]) &&
              FieldIsCandidate(template.fields[n - 1], tuple.fields[n - 1])
    {
      LastOnClauseAt(template, tuple, id, n, args, r);
    }
  }

  /** Extending a join that yields at most one row by an alias that at most one row satisfies. */
  lemma StepCombos(fields: set<FieldRow>, joins: seq<Join>, id: nat, args: seq<SqlValue>,
                   rows: seq<FieldRow>, own: FieldRow, before: bool, here: bool)
    requires joins != [] && own in fields
    requires Combos(fields, joins[..|joins| - 1], id, args) == if before then {rows} else {}
    requires forall r :: r in fields ==> (OnHolds(joins[|joins| - 1], id, rows + [r], args) <==> r == own && here)
    ensures Combos(fields, joins, id, args) == if before && here then {rows + [own]} else {}
  {
  }

  lemma {:induction false} JoinsMeaning(fields: set<FieldRow>, live: map<nat, Entry>, id: nat,
                                        template: Template, n: nat, args: seq<SqlValue>)
    requires IndexHolds(fields, live) && id in live
    requires NormalTemplate(template) && NormalTuple(live[id].tuple)
    requires n <= |template.fields| == |live[id].tuple.fields|
    requires FieldArgs(template, n) <= args
    ensures Combos(fields, FieldJoins(template, n), id, args) ==
            if PrefixAgrees(template, live[id].tuple, n) then {ActualRows(template, live[id].tuple, id, n)} else {}
  {
    if n > 0 {
      var tuple := live[id].tuple;
      JoinsMeaning(fields, live, id, template, n - 1, args);
      var field, have := template.fields[n - 1], tuple.fields[n - 1];
      if field.kind == Actual {
        var joins, rows := FieldJoins(template, n), ActualRows(template, tuple, id, n - 1);
        assert joins[..|joins| - 1] == FieldJoins(template, n - 1);
        LastOnClause(fields, live, id, template, n, args);
        StepCombos(fields, joins, id, args, rows, FieldRowFor(id, n - 1, have),
                   PrefixAgrees(template, tuple, n - 1), FieldIsCandidate(field, have));
      }
    }
  }

  lemma MultiplicityIsCandidate(tables: Tables, live: map<nat, Entry>, space: string, template: Template,
                                q: Query, args: seq<SqlValue>, locked: set<nat>, id: nat)
    requires Represents(tables, live) && NormalTemplate(template)
    requires q.joins == FieldJoins(template, |template.fields|)
    requires FieldArgs(template, |template.fields|) <= args
    requires Param(args, q.spaceParam) == Text(space) && Param(args, q.arityParam) == Num(|template.fields|)
    ensures Multiplicity(tables, q, args, locked, id) ==
      if id in CandidateSet(live, space, template, if q.skipLocked then locked else {}) then 1 else 0
  {
    if id in live && live[id].space == space && |live[id].tuple.fields| == |template.fields| {
      JoinsMeaning(tables.fields, live, id, template, |template.fields|, args);
    }
  }

  lemma {:induction false} EmitFilters(tables: Tables, q: Query, args: seq<SqlValue>, locked: set<nat>,
                                       ids: seq<nat>, chosen: set<nat>)
    requires Ascending(ids)
    requires forall id :: id in ids ==>
      Multiplicity(tables, q, args, locked, id) == if id in chosen then 1 else 0
    ensures Ascending(Emit(tables, q, args, locked, ids))
    ensures forall id :: id in Emit(tables, q, args, locked, ids) <==> id in ids && id in chosen
  {
    if ids != [] {
      EmitFilters(tables, q, args, locked, ids[1..], chosen);
      var rest := Emit(tables, q, args, locked, ids[1..]);
      var head := Repeat(ids[0], Multiplicity(tables, q, args, locked, ids[0]));
      assert head == if ids[0] in chosen then [ids[0]] else [];
      assert forall id :: id in ids <==> id == ids[0] || id in ids[1..];
      forall j | 0 <= j < |rest| ensures ids[0] < rest[j] {
        assert rest[j] in ids[1..];
      }
    }
  }

  lemma SelectIsCandidates(tables: Tables, live: map<nat, Entry>, space: string, template: Template,
                           q: Query, args: seq<SqlValue>, locked: set<nat>)
    requires Represents(tables, live) && NormalTemplate(template)
    requires q.joins == FieldJoins(template, |template.fields|)
    requires FieldArgs(template, |template.fields|) <= args
    requires Param(args, q.spaceParam) == Text(space) && Param(args, q.arityParam) == Num(|template.fields|)
    requires Param(args, q.limitParam).Num? && Param(args, q.limitParam).i >= 0
    ensures Select(tables, q, args, locked) ==
      Take(Candidates(live, space, template, if q.skipLocked then locked else {}), Param(args, q.limitParam).i)
  {
    var skipped := if q.skipLocked then locked else {};
    var ids, chosen := Sorted(tables.tuples.Keys), CandidateSet(live, space, template, skipped);
    forall id | id in ids
      ensures Multiplicity(tables, q, args, locked, id) == if id in chosen then 1 else 0
    {
      MultiplicityIsCandidate(tables, live, space, template, q, args, locked, id);
    }
    EmitFilters(tables, q, args, locked, ids, chosen);
    AscendingUnique(Emit(tables, q, args, locked, ids), Sorted(chosen));
  }

  // ----- the compiling loop -----

  method BuildCandidateQuery(space: string, template: Template, limit: int, destructive: bool)
    returns (r: Result<(Query, seq<SqlValue>), StoreError>)
    ensures r.Ok? <==> Compilable(template, |template.fields|)
    ensures r.Err? ==>
      && r.error.pos < |template.fields| && Compilable(template, r.error.pos)
      && template.fields[r.error.pos].kind == Actual && !IsSupportedValueType(template.fields[r.error.pos].ty)
    ensures r.Ok? && NormalTemplate(template) ==>
      forall tables, live, locked | Represents(tables, live) ::
        Select(tables, r.value.0, r.value.1, locked) ==
        Take(Candidates(live, space, template, if destructive then locked else {}), if limit <= 0 then 64 else limit)
  {
    var effective := if limit <= 0 then 64 else limit;
    var args: seq<SqlValue> := [];
    var joins: seq<Join> := [];
    var joinIndex := 0;
    for pos := 0 to |template.fields|
      invariant Compilable(template, pos)
      invariant args == FieldArgs(template, pos)
      invariant joins == FieldJoins(template, pos) && joinIndex == |joins|
    {
      var field := template.fields[pos];
      if field.kind == Actual {
        var alias := joinIndex;
        joinIndex := joinIndex + 1;
        args := args + [Num(pos)];
        var terms := [OnTerm(alias, ColPos, |args|)];
        args := args + [Text(TypeName(field.ty))];
        terms := terms + [OnTerm(alias, ColType, |args|)];
        match field.ty {
          case TypeString =>
            args := args + [ArgOf(field.value)];
            terms := terms + [OnTerm(alias, ColText, |args|)];
          case TypeInt =>
            args := args + [ArgOf(field.value)];
            terms := terms + [OnTerm(alias, ColInt, |args|)];
          case TypeBool =>
            args := args + [ArgOf(field.value)];
            terms := terms + [OnTerm(alias, ColBool, |args|)];
          case OtherType(_) =>
            return Err(UnsupportedField(pos));
        }
        assert terms == [OnTerm(alias, ColPos, |args| - 2), OnTerm(alias, ColType, |args| - 1),
                         OnTerm(alias, ValueColumn(field.ty), |args|)];
        joins := joins + [Join(alias, terms)];
      }
    }
    var fieldArgs := args;
    args := args + [Text(space)];
    var spaceParam := |args|;
    args := args + [Num(|template.fields|)];
    var arityParam := |args|;
    args := args + [Num(effective)];
    var q := Query(joins, spaceParam, arityParam, destructive, |args|);
    if NormalTemplate(template) {
      forall tables, live, locked | Represents(tables, live)
        ensures Select(tables, q, args, locked) ==
                Take(Candidates(live, space, template, if destructive then locked else {}), EffectiveLimit(limit))
      {
        assert fieldArgs <= args;
        SelectIsCandidates(tables, live, space, template, q, args, locked);
      }
    }
    return Ok((q, args));
  }
}
