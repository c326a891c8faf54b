/** internal/store/admin_store.go and the filter handling of internal/service/admin.go: listing, counting and
    purging by filter, which must agree on what a filter selects. */
module AdminStore {
  import opened Wrappers
  import opened Types
  import opened Validation
  import opened Store
  import opened Ids
  import opened CandidateQuery

  /** "" means any space; limit and offset 0 mean none. */
  datatype TupleFilter = TupleFilter(space: string, createdBefore: Option<int>, createdAfter: Option<int>,
                                     limit: int, offset: int)

  /** What a filter is meant to select; paging plays no part. */
  predicate Keeps(filter: TupleFilter, row: TupleRow) {
    && (filter.space == "" || row.space == filter.space)
    && (filter.createdBefore.None? || row.createdAt < filter.createdBefore.value)
    && (filter.createdAfter.None? || row.createdAt > filter.createdAfter.value)
  }

  /** What that comes to for a row: one of another space than the given one, or not strictly before or after a
      given time, is never selected; every other row is. */
  lemma KeepsMeaning(filter: TupleFilter, row: TupleRow)
    ensures filter.space != "" && row.space != filter.space ==> !Keeps(filter, row)
    ensures filter.createdBefore.Some? && filter.createdBefore.value <= row.createdAt ==> !Keeps(filter, row)
    ensures filter.createdAfter.Some? && row.createdAt <= filter.createdAfter.value ==> !Keeps(filter, row)
    ensures !Keeps(filter, row) ==>
      || (row.space != filter.space && |filter.space| > 0)
      || (filter.createdBefore.Some? && filter.createdBefore.value <= row.createdAt)
      || (filter.createdAfter.Some? && row.createdAt <= filter.createdAfter.value)
  {
  }

  function Selected(tuples: map<nat, TupleRow>, filter: TupleFilter): set<nat> {
    set id | id in tuples && Keeps(filter, tuples[id])
  }

  // ----- validateTupleFilter -----

  datatype FilterError = BadSpace | BadLimit | BadOffset | BadRange

  function ValidateTupleFilter(filter: TupleFilter): Option<FilterError> {
    if filter.space != "" && !ValidSpace(filter.space) then Some(BadSpace)
    else if filter.limit < 0 then Some(BadLimit)
    else if filter.offset < 0 then Some(BadOffset)
    else if filter.createdBefore.Some? && filter.createdAfter.Some? &&
            !(filter.createdAfter.value < filter.createdBefore.value) then Some(BadRange)
    else None
  }

  /** A rejected time range could not have selected anything. */
  lemma RejectedRangeSelectsNothing(tuples: map<nat, TupleRow>, filter: TupleFilter)
    requires ValidateTupleFilter(filter) == Some(BadRange)
    ensures Selected(tuples, filter) == {}
  {
    forall id | id in tuples ensures !Keeps(filter, tuples[id]) {}
  }

  // ----- the emitted SQL -----

  datatype Cond = SpaceIs(param: nat) | CreatedBeforeIs(param: nat) | CreatedAfterIs(param: nat)

  /** ... WHERE 1=1 <conds> [ORDER BY space, id [LIMIT $limit] [OFFSET $offset]] */
  datatype FilterQuery = FilterQuery(conds: seq<Cond>, ordered: bool, limitParam: Option<nat>, offsetParam: Option<nat>)

  predicate CondHolds(cond: Cond, row: TupleRow, args: seq<SqlValue>) {
    match cond
    case SpaceIs(k) => SqlEqual(Text(row.space), Param(args, k))
    case CreatedBeforeIs(k) => Param(args, k).Num? && row.createdAt < Param(args, k).i
    case CreatedAfterIs(k) => Param(args, k).Num? && row.createdAt > Param(args, k).i
  }

  predicate WhereKeeps(conds: seq<Cond>, row: TupleRow, args: seq<SqlValue>) {
    forall k :: 0 <= k < |conds| ==> CondHolds(conds[k], row, args)
  }

  function Hits(tuples: map<nat, TupleRow>, conds: seq<Cond>, args: seq<SqlValue>): set<nat> {
    set id | id in tuples && WhereKeeps(conds, tuples[id], args)
  }

  /** The database's collation: any strict total order on space names. */
  ghost predicate Collation(before: (string, string) -> bool) {
    && (forall a, b :: before(a, b) ==> a != b && !before(b, a))
    && (forall a, b :: a != b ==> before(a, b) || before(b, a))
    && (forall a, b, c :: before(a, b) && before(b, c) ==> before(a, c))
  }

  /** ORDER BY space, id. */
  predicate RowBefore(tuples: map<nat, TupleRow>, before: (string, string) -> bool, a: nat, b: nat)
    requires a in tuples && b in tuples
  {
    before(tuples[a].space, tuples[b].space) || (tuples[a].space == tuples[b].space && a < b)
  }

  /** The listing order is total and transitive on the rows. */
  lemma RowOrder(tuples: map<nat, TupleRow>, before: (string, string) -> bool, a: nat, b: nat, c: nat)
    requires Collation(before) && a in tuples && b in tuples && c in tuples
    ensures a != b && !RowBefore(tuples, before, a, b) ==> RowBefore(tuples, before, b, a)
    ensures RowBefore(tuples, before, b, a) && RowBefore(tuples, before, a, c) ==> RowBefore(tuples, before, b, c)
  {
    var x, y, z := tuples[a].space, tuples[b].space, tuples[c].space;
    assert before(x, y) || before(y, x) || x == y;
    assert before(y, x) && before(x, z) ==> before(y, z);
  }

  lemma {:induction false} FindFirst(tuples: map<nat, TupleRow>, before: (string, string) -> bool, ids: set<nat>)
    returns (m: nat)
    requires Collation(before) && ids <= tuples.Keys && ids != {}
    ensures m in ids && forall x :: x in ids && x != m ==> RowBefore(tuples, before, m, x)
    decreases |ids|
  {
    var id :| id in ids;
    var rest := ids - {id};
    m := id;
    assert ids == rest + {id};
    if rest != {} {
      var r := FindFirst(tuples, before, rest);
      m := if RowBefore(tuples, before, r, id) then r else id;
      forall x | x in ids && x != m ensures RowBefore(tuples, before, m, x) {
        if x != id && x != r {
          assert x in rest && RowBefore(tuples, before, r, x);
        }
        RowOrder(tuples, before, r, id, x);
      }
    }
  }

  lemma FirstExists(tuples: map<nat, TupleRow>, before: (string, string) -> bool, ids: set<nat>)
    requires Collation(before) && ids <= tuples.Keys && ids != {}
    ensures exists m :: m in ids && forall x :: x in ids && x != m ==> RowBefore(tuples, before, m, x)
  {
    var m := FindFirst(tuples, before, ids);
  }

  /** No two rows come first. */
  lemma FirstUnique(tuples: map<nat, TupleRow>, before: (string, string) -> bool, m: nat, n: nat)
    requires Collation(before) && m in tuples && n in tuples
    ensures RowBefore(tuples, before, m, n) ==> !RowBefore(tuples, before, n, m)
  {
    assert before(tuples[m].space, tuples[n].space) ==> !before(tuples[n].space, tuples[m].space);
  }

  function First(tuples: map<nat, TupleRow>, before: (string, string) -> bool, ids: set<nat>): (m: nat)
    requires Collation(before) && ids <= tuples.Keys && ids != {}
    ensures m in ids && forall x :: x in ids && x != m ==> RowBefore(tuples, before, m, x)
  {
    FirstExists(tuples, before, ids);
    assert forall m, n :: m in ids && n in ids && RowBefore(tuples, before, m, n) ==>
      !RowBefore(tuples, before, n, m) by {
      forall m, n | m in ids && n in ids && RowBefore(tuples, before, m, n) ensures !RowBefore(tuples, before, n, m) {
        FirstUnique(tuples, before, m, n);
      }
    }
    var m :| m in ids && forall x :: x in ids && x != m ==> RowBefore(tuples, before, m, x);
    m
  }

  /** The ids in listing order. */
  function InOrder(tuples: map<nat, TupleRow>, before: (string, string) -> bool, ids: set<nat>): (q: seq<nat>)
    requires Collation(before) && ids <= tuples.Keys
    ensures |q| == |ids| && forall id :: id in q <==> id in ids
    ensures forall i, j :: 0 <= i < j < |q| ==> RowBefore(tuples, before, q[i], q[j])
    decreases |ids|
  {
    if ids == {} then []
    else
      var m := First(tuples, before, ids);
      [m] + InOrder(tuples, before, ids - {m})
  }

  /** LIMIT and OFFSET; an absent clause is None. */
  function Window(all: seq<nat>, limit: Option<int>, offset: Option<int>): seq<nat> {
    var skip := if offset.Some? && offset.value > 0 then offset.value else 0;
    var rest := if skip < |all| then all[skip..] else [];
    if limit.Some? && limit.value >= 0 then Take(rest, limit.value) else rest
  }

  function BoundValue(args: seq<SqlValue>, param: Option<nat>): Option<int> {
    if param.Some? && Param(args, param.value).Num? then Some(Param(args, param.value).i) else None
  }

  /** The rows an ordered query returns, by id; without ORDER BY their order would be anybody's guess. */
  function Rows(tuples: map<nat, TupleRow>, before: (string, string) -> bool, q: FilterQuery,
                args: seq<SqlValue>): seq<nat>
    requires Collation(before) && q.ordered
  {
    Window(InOrder(tuples, before, Hits(tuples, q.conds, args)), BoundValue(args, q.limitParam),
      BoundValue(args, q.offsetParam))
  }

  // ----- the builders -----

  /** The filter's conditions, numbered from the first placeholder on. */
  method AppendTupleFilter(filter: TupleFilter) returns (conds: seq<Cond>, args: seq<SqlValue>)
    ensures |conds| == |args| <= 3
    ensures forall more: seq<SqlValue>, row :: WhereKeeps(conds, row, args + more) <==>
      && (filter.space != "" ==> row.space == filter.space)
      && (filter.createdBefore.Some? ==> row.createdAt < filter.createdBefore.value)
      && (filter.createdAfter.Some? ==> filter.createdAfter.value < row.createdAt)
    ensures forall more: seq<SqlValue>, row :: WhereKeeps(conds, row, args + more) <==> Keeps(filter, row)
  {
    conds, args := [], [];
    if filter.space != "" {
      args := args + [Text(filter.space)];
      conds := conds + [SpaceIs(|args|)];
    }
    if filter.createdBefore.Some? {
      args := args + [Num(filter.createdBefore.value)];
      conds := conds + [CreatedBeforeIs(|args|)];
    }
    if filter.createdAfter.Some? {
      args := args + [Num(filter.createdAfter.value)];
      conds := conds + [CreatedAfterIs(|args|)];
    }
    var s, b, a := filter.space != "", filter.createdBefore.Some?, filter.createdAfter.Some?;
    forall row { KeepsMeaning(filter, row); }
    forall more: seq<SqlValue>, row ensures WhereKeeps(conds, row, args + more) <==> Keeps(filter, row) {
      var all := args + more;
      assert s ==> |conds| > 0 && (CondHolds(conds[0], row, all) <==> row.space == filter.space);
      var i := if s then 1 else 0;
      assert b ==> |conds| > i && (CondHolds(conds[i], row, all) <==> row.createdAt < filter.createdBefore.value);
      var j := i + if b then 1 else 0;
      assert a ==> |conds| > j && (CondHolds(conds[j], row, all) <==> row.createdAt > filter.createdAfter.value);
    }
  }

  /** buildTupleFilterQuery: selects what the filter keeps; pages only when asked to. */
  method BuildTupleFilterQuery(filter: TupleFilter, includePage: bool) returns (q: FilterQuery, args: seq<SqlValue>)
    ensures q.ordered == includePage
    ensures forall tuples: map<nat, TupleRow> :: Hits(tuples, q.conds, args) == Selected(tuples, filter)
    ensures BoundValue(args, q.limitParam) == if includePage && filter.limit > 0 then Some(filter.limit) else None
    ensures BoundValue(args, q.offsetParam) == if includePage && filter.offset > 0 then Some(filter.offset) else None
  {
    var conds;
    conds, args := AppendTupleFilter(filter);
    ghost var own := args;
    var limitParam: Option<nat>, offsetParam: Option<nat> := None, None;
    if includePage {
      if filter.limit > 0 {
        args := args + [Num(filter.limit)];
        limitParam := Some(|args|);
      }
      if filter.offset > 0 {
        args := args + [Num(filter.offset)];
        offsetParam := Some(|args|);
      }
    }
    q := FilterQuery(conds, includePage, limitParam, offsetParam);
    assert args == own + args[|own|..];
    forall tuples: map<nat, TupleRow> ensures Hits(tuples, q.conds, args) == Selected(tuples, filter) {
      forall id | id in tuples ensures WhereKeeps(conds, tuples[id], args) <==> Keeps(filter, tuples[id]) {
        assert WhereKeeps(conds, tuples[id], own + args[|own|..]) <==> Keeps(filter, tuples[id]);
      }
    }
  }

  method BuildTupleDeleteQuery(filter: TupleFilter) returns (conds: seq<Cond>, args: seq<SqlValue>)
    ensures forall tuples: map<nat, TupleRow> :: Hits(tuples, conds, args) == Selected(tuples, filter)
  {
    conds, args := AppendTupleFilter(filter);
    assert args == args + [];
    forall tuples: map<nat, TupleRow> ensures Hits(tuples, conds, args) == Selected(tuples, filter) {
      forall id | id in tuples ensures WhereKeeps(conds, tuples[id], args) <==> Keeps(filter, tuples[id]) {
        assert WhereKeeps(conds, tuples[id], args + []) <==> Keeps(filter, tuples[id]);
      }
    }
  }

  // ----- the operations -----

  /** The listing a filter asks for. */
  ghost function Listing(tuples: map<nat, TupleRow>, before: (string, string) -> bool, filter: TupleFilter): seq<nat>
    requires Collation(before)
  {
    Window(InOrder(tuples, before, Selected(tuples, filter)),
           if filter.limit > 0 then Some(filter.limit) else None,
           if filter.offset > 0 then Some(filter.offset) else None)
  }

  datatype TupleRecord = TupleRecord(id: nat, space: string, arity: nat, createdAt: int, tuple: Tuple)

  /** The record shows the live tuple `id` with its row's space, arity and time. */
  ghost predicate RecordOk(db: Database, id: nat, record: TupleRecord)
    reads db
  {
    && id in db.live && id in db.tables.tuples
    && record == TupleRecord(id, db.live[id].space, |db.live[id].tuple.fields|, db.tables.tuples[id].createdAt,
      db.live[id].tuple)
  }

  /** A query that selects and pages as the filter asks returns the filter's listing. */
  lemma RowsAreListing(tuples: map<nat, TupleRow>, before: (string, string) -> bool, filter: TupleFilter,
                       q: FilterQuery, args: seq<SqlValue>)
    requires Collation(before) && q.ordered && Hits(tuples, q.conds, args) == Selected(tuples, filter)
    requires BoundValue(args, q.limitParam) == if filter.limit > 0 then Some(filter.limit) else None
    requires BoundValue(args, q.offsetParam) == if filter.offset > 0 then Some(filter.offset) else None
    ensures Rows(tuples, before, q, args) == Listing(tuples, before, filter)
  {
  }

  lemma ListedIsSelected(tuples: map<nat, TupleRow>, before: (string, string) -> bool, filter: TupleFilter, i: nat)
    requires Collation(before) && i < |Listing(tuples, before, filter)|
    ensures Listing(tuples, before, filter)[i] in Selected(tuples, filter)
  {
    var all := InOrder(tuples, before, Selected(tuples, filter));
    assert Listing(tuples, before, filter)[i] in all;
  }

  /** The unpaged listing is every selected row once, in order. */
  lemma UnpagedListing(tuples: map<nat, TupleRow>, before: (string, string) -> bool, filter: TupleFilter)
    requires Collation(before)
    ensures var unpaged := filter.(limit := 0, offset := 0);
      && Selected(tuples, unpaged) == Selected(tuples, filter)
      && Listing(tuples, before, unpaged) == InOrder(tuples, before, Selected(tuples, filter))
      && |Listing(tuples, before, unpaged)| == |Selected(tuples, filter)|
  {
    var unpaged := filter.(limit := 0, offset := 0);
    assert Selected(tuples, unpaged) == Selected(tuples, filter);
  }

  /** The loop of ListTuples: one record for each row of the answer; on consistent tables it cannot fail. */
  method ScanRecords(db: Database, answer: seq<nat>) returns (r: Result<seq<TupleRecord>, FieldError>)
    requires forall id :: id in answer ==> id in db.tables.tuples
    ensures db.Valid() ==> r.Ok? && |r.value| == |answer| && forall i :: 0 <= i < |answer| ==>
      RecordOk(db, answer[i], r.value[i])
    ensures r.Err? ==>
      exists i :: 0 <= i < |answer| && FirstBadField(Unmarshal(db.tables.tuples[answer[i]].payload), r.error)
  {
    var ret: seq<TupleRecord> := [];
    for i := 0 to |answer|
      invariant |ret| == i
      invariant db.Valid() ==> forall j :: 0 <= j < i ==> RecordOk(db, answer[j], ret[j])
    {
      var row := db.tables.tuples[answer[i]];
      if db.Valid() {
        assert RowHolds(row, db.live[answer[i]]);
      }
      var tuple := DecodeTuple(row.payload);
      if tuple.Err? {
        return Err(tuple.error);
      }
      ret := ret + [TupleRecord(answer[i], row.space, row.arity, row.createdAt, tuple.value)];
    }
    return Ok(ret);
  }

  lemma SelectedMeaning(tuples: map<nat, TupleRow>, filter: TupleFilter)
    ensures Selected(tuples, filter) == set id | id in tuples && var row := tuples[id];
      && (filter.space == "" || row.space == filter.space)
      && (filter.createdBefore.None? || row.createdAt < filter.createdBefore.value)
      && (filter.createdAfter.None? || filter.createdAfter.value < row.createdAt)
  {
  }

  /** Every record of a listing is that of a row the filter asks for. */
  lemma RecordsAreWanted(db: Database, before: (string, string) -> bool, filter: TupleFilter, ret: seq<TupleRecord>)
    requires db.Valid() && Collation(before) && |ret| == |Listing(db.tables.tuples, before, filter)|
    requires forall i :: 0 <= i < |ret| ==> RecordOk(db, Listing(db.tables.tuples, before, filter)[i], ret[i])
    ensures forall record <- ret ::
      && RecordOk(db, record.id, record)
      && (filter.space != "" ==> record.space == filter.space)
      && (filter.createdBefore.Some? ==> record.createdAt < filter.createdBefore.value)
      && (filter.createdAfter.Some? ==> filter.createdAfter.value < record.createdAt)
  {
    SelectedMeaning(db.tables.tuples, filter);
    forall i | 0 <= i < |ret|
      ensures ret[i].id in Selected(db.tables.tuples, filter) && RecordOk(db, ret[i].id, ret[i]) {
      ListedIsSelected(db.tables.tuples, before, filter, i);
      assert RowHolds(db.tables.tuples[ret[i].id], db.live[ret[i].id]);
    }
    forall id | id in db.live ensures db.live[id].space == db.tables.tuples[id].space {
      assert RowHolds(db.tables.tuples[id], db.live[id]);
    }
  }

  /** Where a page starts in a listing of `total` rows. */
  function PageStart(filter: TupleFilter, total: nat): nat {
    if filter.offset <= 0 then 0 else if filter.offset < total then filter.offset else total
  }

  /** A window is the stretch of the rows from its start, as long as the limit allows. */
  lemma WindowIsStretch(all: seq<nat>, filter: TupleFilter)
    ensures var start := PageStart(filter, |all|);
            var page := Window(all, if filter.limit > 0 then Some(filter.limit) else None,
                               if filter.offset > 0 then Some(filter.offset) else None);
      && |page| == (if 0 < filter.limit < |all| - start then filter.limit else |all| - start)
      && forall i :: 0 <= i < |page| ==> page[i] == all[start + i]
  {
  }

  lemma PageIsStretch(tuples: map<nat, TupleRow>, before: (string, string) -> bool, filter: TupleFilter)
    requires Collation(before)
    ensures var all, page := InOrder(tuples, before, Selected(tuples, filter)), Listing(tuples, before, filter);
      var start := PageStart(filter, |all|);
      && |page| == (if 0 < filter.limit < |all| - start then filter.limit else |all| - start)
      && forall i :: 0 <= i < |page| ==> page[i] == all[start + i]
  {
    hide InOrder, Window;
    WindowIsStretch(InOrder(tuples, before, Selected(tuples, filter)), filter);
  }

  /** Records come in order of space, then id. */
  lemma RecordsAreOrdered(db: Database, before: (string, string) -> bool, filter: TupleFilter, ret: seq<TupleRecord>)
    requires db.Valid() && Collation(before) && |ret| == |Listing(db.tables.tuples, before, filter)|
    requires forall i :: 0 <= i < |ret| ==> RecordOk(db, Listing(db.tables.tuples, before, filter)[i], ret[i])
    ensures forall i, j :: 0 <= i < j < |ret| ==>
      before(ret[i].space, ret[j].space) || (ret[i].space == ret[j].space && ret[i].id < ret[j].id)
  {
    hide InOrder, Window;
    var tuples := db.tables.tuples;
    var all, page := InOrder(tuples, before, Selected(tuples, filter)), Listing(tuples, before, filter);
    PageIsStretch(tuples, before, filter);
    forall id | id in db.live ensures db.live[id].space == tuples[id].space {
      assert RowHolds(tuples[id], db.live[id]);
    }
    forall i, j | 0 <= i < j < |ret|
      ensures before(ret[i].space, ret[j].space) || (ret[i].space == ret[j].space && ret[i].id < ret[j].id)
    {
      var start := PageStart(filter, |all|);
      assert page[i] == all[start + i] && page[j] == all[start + j];
      assert RowBefore(tuples, before, page[i], page[j]);
    }
  }

  lemma SelectedIsListed(db: Database, before: (string, string) -> bool, filter: TupleFilter, ret: seq<TupleRecord>,
                         id: nat)
    requires db.Valid() && Collation(before) && |ret| == |Listing(db.tables.tuples, before, filter)|
    requires forall i :: 0 <= i < |ret| ==> RecordOk(db, Listing(db.tables.tuples, before, filter)[i], ret[i])
    requires filter.limit <= 0 && filter.offset <= 0 && id in Selected(db.tables.tuples, filter)
    ensures exists record :: record in ret && record.id == id
  {
    hide Window;
    var all := InOrder(db.tables.tuples, before, Selected(db.tables.tuples, filter));
    PageIsStretch(db.tables.tuples, before, filter);
    assert id in all;
    var i :| 0 <= i < |all| && all[i] == id;
    assert ret[i] in ret && ret[i].id == id;
  }

  /** Without paging every row the filter asks for has its record. */
  lemma NoneIsMissing(db: Database, before: (string, string) -> bool, filter: TupleFilter, ret: seq<TupleRecord>)
    requires db.Valid() && Collation(before) && |ret| == |Listing(db.tables.tuples, before, filter)|
    requires forall i :: 0 <= i < |ret| ==> RecordOk(db, Listing(db.tables.tuples, before, filter)[i], ret[i])
    requires filter.limit <= 0 && filter.offset <= 0
    ensures forall id |
      && id in db.live
      && (filter.space == "" || db.live[id].space == filter.space)
      && (filter.createdBefore.None? || db.tables.tuples[id].createdAt < filter.createdBefore.value)
      && (filter.createdAfter.None? || filter.createdAfter.value < db.tables.tuples[id].createdAt) ::
        exists record :: record in ret && record.id == id
  {
    forall id |
      && id in db.live
      && (filter.space == "" || db.live[id].space == filter.space)
      && (filter.createdBefore.None? || db.tables.tuples[id].createdAt < filter.createdBefore.value)
      && (filter.createdAfter.None? || filter.createdAfter.value < db.tables.tuples[id].createdAt)
      ensures exists record :: record in ret && record.id == id
    {
      assert RowHolds(db.tables.tuples[id], db.live[id]);
      KeepsMeaning(filter, db.tables.tuples[id]);
      SelectedIsListed(db, before, filter, ret, id);
    }
  }

  /** ListTuples: runs the query it builds and decodes each row; it cannot fail on consistent tables.
      Every record is that of a row the filter asks for, in order of space and id; without paging every such
      row is there, and with it the stretch from the offset on, as long as the limit allows. */
  method ListTuples(db: Database, before: (string, string) -> bool, filter: TupleFilter)
    returns (r: Result<seq<TupleRecord>, FieldError>)
    requires db.Valid() && Collation(before)
    ensures r.Ok? && |r.value| == |Listing(db.tables.tuples, before, filter)|
    ensures forall i :: 0 <= i < |r.value| ==> RecordOk(db, Listing(db.tables.tuples, before, filter)[i], r.value[i])
    ensures forall record <- r.value ::
      && RecordOk(db, record.id, record)
      && (filter.space != "" ==> record.space == filter.space)
      && (filter.createdBefore.Some? ==> record.createdAt < filter.createdBefore.value)
      && (filter.createdAfter.Some? ==> filter.createdAfter.value < record.createdAt)
    ensures forall i, j :: 0 <= i < j < |r.value| ==>
      before(r.value[i].space, r.value[j].space) ||
      (r.value[i].space == r.value[j].space && r.value[i].id < r.value[j].id)
    ensures filter.limit <= 0 && filter.offset <= 0 ==> forall id |
      && id in db.live
      && (filter.space == "" || db.live[id].space == filter.space)
      && (filter.createdBefore.None? || db.tables.tuples[id].createdAt < filter.createdBefore.value)
      && (filter.createdAfter.None? || filter.createdAfter.value < db.tables.tuples[id].createdAt) ::
        exists record :: record in r.value && record.id == id
    ensures filter.limit <= 0 && filter.offset <= 0 ==> |r.value| == |Selected(db.tables.tuples, filter)|
    ensures var total := |Selected(db.tables.tuples, filter)|; var start := PageStart(filter, total);
      |r.value| == if 0 < filter.limit < total - start then filter.limit else total - start
  {
    hide InOrder, Window;
    var q, args := BuildTupleFilterQuery(filter, true);
    RowsAreListing(db.tables.tuples, before, filter, q, args);
    var answer := Rows(db.tables.tuples, before, q, args);
    PageIsStretch(db.tables.tuples, before, filter);
    forall id | id in answer ensures id in Selected(db.tables.tuples, filter) {
      var i :| 0 <= i < |answer| && answer[i] == id;
      ListedIsSelected(db.tables.tuples, before, filter, i);
    }
    UnpagedListing(db.tables.tuples, before, filter);
    r := ScanRecords(db, answer);
    RecordsAreWanted(db, before, filter, r.value);
    RecordsAreOrdered(db, before, filter, r.value);
    if filter.limit <= 0 && filter.offset <= 0 {
      NoneIsMissing(db, before, filter, r.value);
    }
  }

  /** SELECT COUNT(*): the length of the unpaged listing, whatever limit and offset say. */
  method CountTuples(db: Database, filter: TupleFilter) returns (count: nat)
    ensures count == |Selected(db.tables.tuples, filter)|
    ensures count == |set id | id in db.tables.tuples && var row := db.tables.tuples[id];
                        && (filter.space == "" || row.space == filter.space)
                        && (filter.createdBefore.None? || row.createdAt < filter.createdBefore.value)
                        && (filter.createdAfter.None? || filter.createdAfter.value < row.createdAt)|
    ensures forall before | Collation(before) ::
      count == |Listing(db.tables.tuples, before, filter.(limit := 0, offset := 0))|
  {
    var q, args := BuildTupleFilterQuery(filter, false);
    count := |Hits(db.tables.tuples, q.conds, args)|;
    SelectedMeaning(db.tables.tuples, filter);
    forall before | Collation(before)
      ensures count == |Listing(db.tables.tuples, before, filter.(limit := 0, offset := 0))| {
      UnpagedListing(db.tables.tuples, before, filter);
    }
  }

  lemma PurgeCounts(tuples: map<nat, TupleRow>, ids: set<nat>)
    requires ids <= tuples.Keys
    ensures |tuples| - |tuples - ids| == |ids|
  {
    var rest := tuples - ids;
    assert rest.Keys == tuples.Keys - ids;
    assert tuples.Keys == rest.Keys + ids && rest.Keys !! ids;
    assert |tuples.Keys| == |tuples| && |rest.Keys| == |rest|;
  }

  /** DeleteTuples: removes exactly what a count just before would have counted and the unpaged listing listed,
      reports how many rows that was, and leaves nothing the filter keeps and everything else as it was. */
  method DeleteTuples(db: Database, filter: TupleFilter) returns (deleted: nat)
    requires db.Valid()
    modifies db
    ensures db.Valid() && db.nextId == old(db.nextId) && db.sent == old(db.sent)
    ensures deleted == |Selected(old(db.tables).tuples, filter)| == |old(db.tables).tuples| - |db.tables.tuples|
    ensures db.tables.tuples == old(db.tables).tuples - Selected(old(db.tables).tuples, filter)
    ensures db.live == old(db.live) - Selected(old(db.tables).tuples, filter)
    ensures Selected(db.tables.tuples, filter) == {}
    ensures forall id :: id in old(db.tables).tuples ==> var row := old(db.tables).tuples[id];
      (id !in db.tables.tuples <==>
         && (filter.space == "" || row.space == filter.space)
         && (filter.createdBefore.None? || row.createdAt < filter.createdBefore.value)
         && (filter.createdAfter.None? || filter.createdAfter.value < row.createdAt))
    ensures forall id :: id in old(db.tables).tuples && !Keeps(filter, old(db.tables).tuples[id]) ==>
      id in db.tables.tuples && db.tables.tuples[id] == old(db.tables).tuples[id]
    ensures forall before | Collation(before) ::
      deleted == |Listing(old(db.tables).tuples, before, filter.(limit := 0, offset := 0))|
  {
    var conds, args := BuildTupleDeleteQuery(filter);
    var hits := Hits(db.tables.tuples, conds, args);
    PurgeCounts(db.tables.tuples, hits);
    SelectedMeaning(db.tables.tuples, filter);
    forall before | Collation(before)
      ensures |hits| == |Listing(db.tables.tuples, before, filter.(limit := 0, offset := 0))| {
      UnpagedListing(db.tables.tuples, before, filter);
    }
    db.DeleteRows(hits);
    deleted := |hits|;
  }

  // ----- paging -----

  /** Page number `page` of size `limit`. */
  function PageOf(filter: TupleFilter, limit: int, page: nat): TupleFilter {
    filter.(limit := limit, offset := page * limit)
  }

  ghost function FirstPages(tuples: map<nat, TupleRow>, before: (string, string) -> bool, filter: TupleFilter,
                            limit: int, pages: nat): seq<nat>
    requires Collation(before)
  {
    if pages == 0 then []
    else
      FirstPages(tuples, before, filter, limit, pages - 1) + Listing(tuples, before, PageOf(filter, limit, pages - 1))
  }

  /** A window of a positive size continues where `skip` rows left off. */
  lemma NextWindow(all: seq<nat>, limit: int, skip: nat)
    requires limit > 0
    ensures Take(all, skip) + Window(all, Some(limit), if skip > 0 then Some(skip) else None) == Take(all, skip + limit)
  {
  }

  lemma PageContinues(tuples: map<nat, TupleRow>, before: (string, string) -> bool, filter: TupleFilter, limit: int,
                      skip: nat)
    requires Collation(before) && limit > 0
    ensures var all := Listing(tuples, before, filter.(limit := 0, offset := 0));
      Take(all, skip) + Listing(tuples, before, filter.(limit := limit, offset := skip)) == Take(all, skip + limit)
  {
    UnpagedListing(tuples, before, filter);
    assert Selected(tuples, filter.(limit := limit, offset := skip)) == Selected(tuples, filter);
    NextWindow(InOrder(tuples, before, Selected(tuples, filter)), limit, skip);
  }

  /** What the first pages should be. */
  ghost predicate PagesJoin(tuples: map<nat, TupleRow>, before: (string, string) -> bool, filter: TupleFilter,
                            limit: int, pages: nat)
    requires Collation(before) && limit > 0
  {
    FirstPages(tuples, before, filter, limit, pages) ==
    Take(Listing(tuples, before, filter.(limit := 0, offset := 0)), pages * limit)
  }

  lemma PageStep(tuples: map<nat, TupleRow>, before: (string, string) -> bool, filter: TupleFilter, limit: int,
                 page: nat)
    requires Collation(before) && limit > 0 && PagesJoin(tuples, before, filter, limit, page)
    ensures PagesJoin(tuples, before, filter, limit, page + 1)
  {
    var skip: nat := page * limit;
    assert (page + 1) * limit == skip + limit;
    PageContinues(tuples, before, filter, limit, skip);
  }

  lemma {:induction false} AllPagesJoin(tuples: map<nat, TupleRow>, before: (string, string) -> bool,
                                        filter: TupleFilter,
                                        limit: int, pages: nat)
    requires Collation(before) && limit > 0
    ensures PagesJoin(tuples, before, filter, limit, pages)
  {
    if pages > 0 {
      AllPagesJoin(tuples, before, filter, limit, pages - 1);
      PageStep(tuples, before, filter, limit, pages - 1);
    }
  }

  /** The first pages together are the first pages * limit rows of the unpaged listing. */
  lemma PagesConcatenate(tuples: map<nat, TupleRow>, before: (string, string) -> bool, filter: TupleFilter,
                         limit: int, pages: nat)
    requires Collation(before) && limit > 0
    ensures FirstPages(tuples, before, filter, limit, pages) ==
            Take(Listing(tuples, before, filter.(limit := 0, offset := 0)), pages * limit)
  {
    AllPagesJoin(tuples, before, filter, limit, pages);
  }

  /** An offset without a limit gives what the first rows leave over. */
  lemma OffsetSkipsFirst(tuples: map<nat, TupleRow>, before: (string, string) -> bool, filter: TupleFilter, k: int)
    requires Collation(before) && k > 0
    ensures Listing(tuples, before, filter.(limit := k, offset := 0)) +
      Listing(tuples, before, filter.(limit := 0, offset := k)) ==
            Listing(tuples, before, filter.(limit := 0, offset := 0))
  {
    hide InOrder;
    assert Selected(tuples, filter.(limit := k, offset := 0)) == Selected(tuples, filter);
    assert Selected(tuples, filter.(limit := 0, offset := k)) == Selected(tuples, filter);
    assert Selected(tuples, filter.(limit := 0, offset := 0)) == Selected(tuples, filter);
  }

  /** Enough pages are the whole listing. */
  lemma AllPages(tuples: map<nat, TupleRow>, before: (string, string) -> bool, filter: TupleFilter, limit: int,
                 pages: nat)
    requires Collation(before) && limit > 0 && pages * limit >= |Selected(tuples, filter)|
    ensures FirstPages(tuples, before, filter, limit, pages) ==
      Listing(tuples, before, filter.(limit := 0, offset := 0))
  {
    PagesConcatenate(tuples, before, filter, limit, pages);
    UnpagedListing(tuples, before, filter);
  }
}
