/** internal/store/tuple_store.go and migrations/001_init_tuplespace.sql: payloads, the shredded
    field index and the two tables. */
module Store {
  import opened Wrappers
  import opened Numbers
  import opened Types

  // ----- payloads (fields_json) -----

  datatype JsonValue = JString(s: string) | JNumber(text: string) | JBool(b: bool) | JNull | JOther

  datatype JsonField = JsonField(ty: string, value: JsonValue)

  /** {"fields": [{"type": ..., "value": ...}, ...]} */
  type Payload = seq<JsonField>

  function TypeName(ty: ValueType): string {
    match ty
    case TypeString => "string"
    case TypeInt => "int"
    case TypeBool => "bool"
    case OtherType(name) => name
  }

  function TypeNamed(name: string): (ty: ValueType)
    ensures TypeName(ty) == name
  {
    if name == "string" then TypeString
    else if name == "int" then TypeInt
    else if name == "bool" then TypeBool
    else OtherType(name)
  }

  lemma TypeNameInjective(a: ValueType, b: ValueType)
    ensures TypeName(a) == TypeName(b) <==> a == b
    ensures TypeNamed(TypeName(a)) == a
  {
    assert |"string"| == 6 && |"int"| == 3 && |"bool"| == 4;
    assert TypeNamed(TypeName(a)) == a;
    assert TypeNamed(TypeName(b)) == b;
  }

  /** json.Marshal on the values a normalised tuple holds. */
  function MarshalValue(raw: Raw): JsonValue {
    match raw
    case Str(s) => JString(s)
    case Int(i) => JNumber(Decimal(i))
    case Bool(b) => JBool(b)
    case Nil => JNull
    case _ => JOther
  }

  /** json.Decoder with UseNumber, into an `any`. */
  function UnmarshalValue(j: JsonValue): Raw {
    match j
    case JString(s) => Str(s)
    case JNumber(text) => Number(text)
    case JBool(b) => Bool(b)
    case JNull => Nil
    case JOther => OtherValue
  }

  function Marshal(tuple: Tuple): Payload {
    seq(|tuple.fields|, i requires 0 <= i < |tuple.fields| =>
      JsonField(TypeName(tuple.fields[i].ty), MarshalValue(tuple.fields[i].value)))
  }

  function Unmarshal(payload: Payload): Tuple {
    Tuple(seq(|payload|, i requires 0 <= i < |payload| =>
      TupleField(TypeNamed(payload[i].ty), UnmarshalValue(payload[i].value))))
  }

  /** A stored payload decodes to the normalised tuple that was inserted. */
  lemma DecodeMarshal(tuple: Tuple)
    requires NormalTuple(tuple)
    ensures NormalizesTo(Unmarshal(Marshal(tuple)), tuple)
  {
    var decoded := Unmarshal(Marshal(tuple));
    forall i | 0 <= i < |tuple.fields|
      ensures decoded.fields[i].ty == tuple.fields[i].ty
      ensures NormalizeValue(tuple.fields[i].ty, decoded.fields[i].value) == Ok(tuple.fields[i].value)
    {
      TypeNameInjective(tuple.fields[i].ty, tuple.fields[i].ty);
      if tuple.fields[i].value.Int? {
        ParseInt64Decimal(tuple.fields[i].value.i);
      }
    }
  }

  method DecodeTuple(payload: Payload) returns (r: Result<Tuple, FieldError>)
    ensures r.Ok? ==> NormalizesTo(Unmarshal(payload), r.value) && NormalTuple(r.value)
    ensures r.Err? ==> FirstBadField(Unmarshal(payload), r.error)
    ensures forall tuple :: NormalTuple(tuple) && payload == Marshal(tuple) ==> r == Ok(tuple)
  {
    r := NormalizeTuple(Unmarshal(payload));
    forall tuple | NormalTuple(tuple) && payload == Marshal(tuple) ensures r == Ok(tuple) {
      DecodeMarshal(tuple);
      if r.Ok? {
        NormalFormUnique(Unmarshal(payload), r.value, tuple);
      }
    }
  }

  // ----- tables -----

  /** A committed tuple as the service sees it. */
  datatype Entry = Entry(space: string, tuple: Tuple)

  datatype TupleRow = TupleRow(space: string, arity: nat, payload: Payload, createdAt: int)

  datatype FieldRow = FieldRow(tupleId: nat, pos: nat, ty: string,
                               textVal: Option<string>, intVal: Option<Int64>, boolVal: Option<bool>)

  /** `tuples` is keyed by its primary key; `fields` is a bag of rows whose primary key is (tupleId, pos). */
  datatype Tables = Tables(tuples: map<nat, TupleRow>, fields: set<FieldRow>)

  function FieldRowFor(id: nat, pos: nat, field: TupleField): FieldRow {
    FieldRow(id, pos, TypeName(field.ty),
      if field.ty == TypeString && field.value.Str? then Some(field.value.s) else None,
      if field.ty == TypeInt && field.value.Int? then Some(field.value.i) else None,
      if field.ty == TypeBool && field.value.Bool? then Some(field.value.b) else None)
  }

  /** The first n rows InsertTuple adds to tuple_fields. */
  function Shred(id: nat, tuple: Tuple, n: nat): set<FieldRow>
    requires n <= |tuple.fields|
  {
    set pos | 0 <= pos < n :: FieldRowFor(id, pos, tuple.fields[pos])
  }

  predicate RowHolds(row: TupleRow, entry: Entry) {
    && row.space == entry.space
    && row.arity == |entry.tuple.fields|
    && NormalTuple(entry.tuple)
    && row.payload == Marshal(entry.tuple)
  }

  /** tuple_fields is exactly the shredding of the live tuples. */
  ghost predicate IndexHolds(fields: set<FieldRow>, live: map<nat, Entry>) {
    && (forall r :: r in fields ==>
          && r.tupleId in live && r.pos < |live[r.tupleId].tuple.fields|
          && r == FieldRowFor(r.tupleId, r.pos, live[r.tupleId].tuple.fields[r.pos]))
    && (forall id, pos: nat :: id in live && pos < |live[id].tuple.fields| ==>
          FieldRowFor(id, pos, live[id].tuple.fields[pos]) in fields)
  }

  /** The tables hold the tuples `live`: payload and index both say so. */
  ghost predicate Represents(tables: Tables, live: map<nat, Entry>) {
    && tables.tuples.Keys == live.Keys
    && (forall id :: id in live ==> RowHolds(tables.tuples[id], live[id]))
    && IndexHolds(tables.fields, live)
  }

  /** The value a row of tuple_fields stands for. */
  function Unshred(r: FieldRow): TupleField {
    TupleField(TypeNamed(r.ty),
      if r.textVal.Some? then Str(r.textVal.value)
      else if r.intVal.Some? then Int(r.intVal.value)
      else if r.boolVal.Some? then Bool(r.boolVal.value)
      else Nil)
  }

  /** Exactly the column of the field's type is set, and the row determines the field. */
  lemma FieldRowRoundTrip(id: nat, pos: nat, field: TupleField)
    requires Canonical(field.ty, field.value)
    ensures Unshred(FieldRowFor(id, pos, field)) == field
    ensures var r := FieldRowFor(id, pos, field);
      && (r.textVal.Some? <==> field.ty == TypeString)
      && (r.intVal.Some? <==> field.ty == TypeInt)
      && (r.boolVal.Some? <==> field.ty == TypeBool)
  {
    TypeNameInjective(field.ty, field.ty);
  }

  lemma ArityFromIndex(fields: set<FieldRow>, live: map<nat, Entry>, other: map<nat, Entry>, id: nat)
    requires IndexHolds(fields, live) && IndexHolds(fields, other) && id in live && id in other
    ensures |live[id].tuple.fields| <= |other[id].tuple.fields|
  {
    var a := live[id].tuple.fields;
    if |a| > 0 {
      var last := FieldRowFor(id, |a| - 1, a[|a| - 1]);
      assert last in fields && last.pos == |a| - 1;
    }
  }

  /** The index respects its primary key, and alone determines every live tuple of known arity. */
  lemma IndexDeterminesTuples(fields: set<FieldRow>, live: map<nat, Entry>, other: map<nat, Entry>)
    requires IndexHolds(fields, live) && IndexHolds(fields, other)
    requires forall id :: id in live ==> NormalTuple(live[id].tuple)
    requires forall id :: id in other ==> NormalTuple(other[id].tuple)
    ensures forall r, r' :: r in fields && r' in fields && r.tupleId == r'.tupleId && r.pos == r'.pos ==> r == r'
    ensures forall id :: id in live && id in other ==> live[id].tuple == other[id].tuple
  {
    forall id | id in live && id in other ensures live[id].tuple == other[id].tuple {
      var a, b := live[id].tuple.fields, other[id].tuple.fields;
      ArityFromIndex(fields, live, other, id);
      ArityFromIndex(fields, other, live, id);
      forall pos | 0 <= pos < |a| ensures a[pos] == b[pos] {
        assert FieldRowFor(id, pos, a[pos]) in fields;
        FieldRowRoundTrip(id, pos, a[pos]);
        FieldRowRoundTrip(id, pos, b[pos]);
      }
    }
  }

  datatype StoreError = UnsupportedField(pos: nat)

  /** What the type assertions `field.Value.(string)` etc. demand; anything else panics. */
  predicate Assertable(tuple: Tuple) {
    forall i :: 0 <= i < |tuple.fields| && IsSupportedValueType(tuple.fields[i].ty) ==>
      Canonical(tuple.fields[i].ty, tuple.fields[i].value)
  }

  lemma InsertKeepsIndex(fields: set<FieldRow>, live: map<nat, Entry>, id: nat, entry: Entry)
    requires IndexHolds(fields, live) && id !in live
    ensures IndexHolds(fields + Shred(id, entry.tuple, |entry.tuple.fields|), live[id := entry])
  {
    var rows := Shred(id, entry.tuple, |entry.tuple.fields|);
    forall pos: nat | pos < |entry.tuple.fields| ensures FieldRowFor(id, pos, entry.tuple.fields[pos]) in rows {
    }
  }

  /** One Postgres database as a transaction sees it. `live` is the abstract content. */
  class Database {
    var tables: Tables
    var nextId: nat               // the BIGSERIAL sequence; never rolled back
    var sent: seq<string>         // channels notified, in order; within a transaction the last ones await its commit
    ghost var live: map<nat, Entry>

    ghost predicate Valid()
      reads this
    {
      Represents(tables, live) && forall id :: id in live ==> id < nextId
    }

    constructor ()
      ensures Valid() && live == map[] && nextId == 1 && sent == []
    {
      tables := Tables(map[], {});
      nextId, sent := 1, [];
      live := map[];
    }

    /** On error the caller's deferred rollback restores the tables it saved. */
    method InsertTuple(space: string, tuple: Tuple, now: int) returns (r: Result<nat, StoreError>)
      requires Valid() && Assertable(tuple)
      modifies this
      ensures nextId == old(nextId) + 1 && sent == old(sent)
      ensures r.Ok? <==> forall i :: 0 <= i < |tuple.fields| ==> IsSupportedValueType(tuple.fields[i].ty)
      ensures r.Ok? ==>
        && Valid() && r.value == old(nextId)
        && live == old(live)[r.value := Entry(space, tuple)]
        && tables == Tables(old(tables).tuples[r.value := TupleRow(space, |tuple.fields|, Marshal(tuple), now)],
                            old(tables).fields + Shred(r.value, tuple, |tuple.fields|))
      ensures r.Err? ==>
        && r.error.pos < |tuple.fields| && !IsSupportedValueType(tuple.fields[r.error.pos].ty)
        && forall j :: 0 <= j < r.error.pos ==> IsSupportedValueType(tuple.fields[j].ty)
    {
      var payload := Marshal(tuple);
      var tupleId := nextId;
      nextId := nextId + 1;
      tables := tables.(tuples := tables.tuples[tupleId := TupleRow(space, |tuple.fields|, payload, now)]);
      for pos := 0 to |tuple.fields|
        invariant nextId == old(nextId) + 1 && live == old(live) && sent == old(sent)
        invariant tables.tuples == old(tables).tuples[tupleId := TupleRow(space, |tuple.fields|, payload, now)]
        invariant tables.fields == old(tables).fields + Shred(tupleId, tuple, pos)
        invariant forall j :: 0 <= j < pos ==> IsSupportedValueType(tuple.fields[j].ty)
      {
        var field := tuple.fields[pos];
        var textVal: Option<string>, intVal: Option<Int64>, boolVal: Option<bool> := None, None, None;
        match field.ty {
          case TypeString => textVal := Some(field.value.s);
          case TypeInt => intVal := Some(field.value.i);
          case TypeBool => boolVal := Some(field.value.b);
          case OtherType(_) => return Err(UnsupportedField(pos));
        }
        var row := FieldRow(tupleId, pos, TypeName(field.ty), textVal, intVal, boolVal);
        assert row == FieldRowFor(tupleId, pos, field);
        assert Shred(tupleId, tuple, pos + 1) == Shred(tupleId, tuple, pos) + {row};
        tables := tables.(fields := tables.fields + {row});
      }
      live := live[tupleId := Entry(space, tuple)];
      InsertKeepsIndex(old(tables).fields, old(live), tupleId, Entry(space, tuple));
      return Ok(tupleId);
    }

    /** DELETE FROM tuples WHERE id = $1, with ON DELETE CASCADE; returns the rows affected. */
    method DeleteTuple(id: nat) returns (affected: nat)
      requires Valid()
      modifies this
      ensures Valid() && live == old(live) - {id} && nextId == old(nextId) && sent == old(sent)
      ensures affected == if id in old(live) then 1 else 0
      ensures tables.tuples == old(tables).tuples - {id}
    {
      affected := if id in tables.tuples then 1 else 0;
      tables := Tables(tables.tuples - {id}, set r | r in tables.fields && r.tupleId != id);
      live := live - {id};
    }

    /** DELETE FROM tuples WHERE <condition picking ids>, with ON DELETE CASCADE. */
    method DeleteRows(ids: set<nat>)
      requires Valid() && ids <= tables.tuples.Keys
      modifies this
      ensures Valid() && live == old(live) - ids && nextId == old(nextId) && sent == old(sent)
      ensures tables.tuples == old(tables).tuples - ids
    {
      tables := Tables(tables.tuples - ids, set r | r in tables.fields && r.tupleId !in ids);
      live := live - ids;
    }

    /** SELECT pg_notify(channel, ''). */
    method Notify(channel: string)
      requires Valid()
      modifies this`sent
      ensures Valid() && sent == old(sent) + [channel]
    {
      sent := sent + [channel];
    }

    /** The deferred tx.Rollback: tables and notifications as they were when the transaction began. */
    method Rollback(saved: Tables, savedSent: seq<string>, ghost savedLive: map<nat, Entry>)
      requires Represents(saved, savedLive) && forall id :: id in savedLive ==> id < nextId
      modifies this
      ensures Valid() && tables == saved && live == savedLive && sent == savedSent && nextId == old(nextId)
    {
      tables, sent := saved, savedSent;
      live := savedLive;
    }
  }
}
