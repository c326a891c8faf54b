/** internal/service/admin.go: the other ways tuples leave the space. */
module AdminService {
  import opened Wrappers
  import opened Validation
  import opened Store
  import opened AdminStore

  datatype AdminError = InvalidTupleID | InvalidFilter(e: FilterError) | CommitFailed

  /** DeleteTuple: one transaction; `deleted` reports whether the tuple was there. */
  method DeleteTuple(db: Database, tupleID: int, commitSucceeds: bool) returns (r: Result<bool, AdminError>)
    requires db.Valid()
    modifies db
    ensures db.Valid() && db.nextId == old(db.nextId) && db.sent == old(db.sent)
    ensures r == Err(InvalidTupleID) <==> tupleID <= 0
    ensures r.Ok? ==> tupleID > 0 && db.live == old(db.live) - {tupleID} && (r.value <==> tupleID in old(db.live))
    ensures r.Err? ==> db.live == old(db.live) && db.tables == old(db.tables)
    ensures r.Ok? <==> tupleID > 0 && commitSucceeds
  {
    if tupleID <= 0 {
      return Err(InvalidTupleID);
    }
    var saved, savedSent := db.tables, db.sent;
    ghost var savedLive := db.live;
    var affected := db.DeleteTuple(tupleID);
    if !commitSucceeds {
      db.Rollback(saved, savedSent, savedLive);
      return Err(CommitFailed);
    }
    return Ok(affected > 0);
  }

  /** Purge: one transaction that removes exactly what the filter keeps. */
  method Purge(db: Database, filter: TupleFilter, commitSucceeds: bool) returns (r: Result<nat, AdminError>)
    requires db.Valid()
    modifies db
    ensures db.Valid() && db.nextId == old(db.nextId) && db.sent == old(db.sent)
    ensures r.Ok? <==>
      && commitSucceeds && (filter.space == "" || ValidSpace(filter.space)) && filter.limit >= 0 && filter.offset >= 0
      && (filter.createdBefore.Some? && filter.createdAfter.Some? ==>
        filter.createdAfter.value < filter.createdBefore.value)
    ensures r.Ok? ==>
      && r.value == |Selected(old(db.tables).tuples, filter)| == |old(db.live)| - |db.live|
      && db.live == old(db.live) - Selected(old(db.tables).tuples, filter)
      && Selected(db.tables.tuples, filter) == {}
    ensures r.Ok? ==> forall id :: id in old(db.live) ==> var row := old(db.tables).tuples[id];
      (id !in db.live <==>
         && (filter.space == "" || old(db.live)[id].space == filter.space)
         && (filter.createdBefore.None? || row.createdAt < filter.createdBefore.value)
         && (filter.createdAfter.None? || filter.createdAfter.value < row.createdAt))
    ensures r.Err? ==> db.live == old(db.live) && db.tables == old(db.tables)
    ensures r.Err? && r.error.InvalidFilter? ==> match r.error.e
      case BadSpace => filter.space != "" && !ValidSpace(filter.space)
      case BadLimit => filter.limit < 0
      case BadOffset => filter.offset < 0
      case BadRange => filter.createdBefore.Some? && filter.createdAfter.Some? &&
                       filter.createdBefore.value <= filter.createdAfter.value
    ensures ValidateTupleFilter(filter).Some? ==> r == Err(InvalidFilter(ValidateTupleFilter(filter).value))
  {
    var invalid := ValidateTupleFilter(filter);
    if invalid.Some? {
      return Err(InvalidFilter(invalid.value));
    }
    var saved, savedSent := db.tables, db.sent;
    ghost var savedLive := db.live;
    var deletedCount := DeleteTuples(db, filter);
    if !commitSucceeds {
      db.Rollback(saved, savedSent, savedLive);
      return Err(CommitFailed);
    }
    return Ok(deletedCount);
  }
}
