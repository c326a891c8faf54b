/** internal/types: tuples, templates and the canonical values that matching and the index rely on. */
module Types {
  import opened Wrappers
  import opened Numbers

  type UnsupportedName = s: string | s != "string" && s != "int" && s != "bool" witness ""

  /** A ValueType is a Go string; three of them are supported. */
  datatype ValueType = TypeString | TypeInt | TypeBool | OtherType(name: UnsupportedName)

  /** The dynamic types a field's `any` can hold; Str, Int and Bool are the canonical ones. */
  datatype Raw =
    | Str(s: string)
    | Int(i: Int64)
    | Bool(b: bool)
    | NarrowInt(v: Int64)     // int, int8 to int32, uint8 to uint32: always fits an int64
    | Unsigned(u: Uint64)     // uint, uint64
    | Number(text: string)    // json.Number
    | Nil
    | OtherValue              // anything else a JSON document can hold

  datatype TupleField = TupleField(ty: ValueType, value: Raw)

  datatype Tuple = Tuple(fields: seq<TupleField>)

  type UnknownKind = s: string | s != "actual" && s != "formal" witness ""

  datatype FieldKind = Actual | Formal | OtherKind(text: UnknownKind)

  datatype TemplateField = TemplateField(kind: FieldKind, ty: ValueType, name: string, value: Raw)

  datatype Template = Template(fields: seq<TemplateField>)

  type Bindings = map<string, Raw>

  datatype ValueError = WrongDynamicType | UnsupportedType | Overflow | BadNumber

  predicate IsSupportedValueType(ty: ValueType) {
    !ty.OtherType?
  }

  function NormalizeInt(raw: Raw): Result<Raw, ValueError> {
    match raw
    case Int(_) => Ok(raw)
    case NarrowInt(v) => Ok(Int(v))
    case Unsigned(u) => if u > INT64_MAX then Err(Overflow) else Ok(Int(u))
    case Number(text) => (match ParseInt64(text) case Some(i) => Ok(Int(i)) case None => Err(BadNumber))
    case _ => Err(WrongDynamicType)
  }

  function NormalizeValue(ty: ValueType, raw: Raw): Result<Raw, ValueError> {
    match ty
    case TypeString => if raw.Str? then Ok(raw) else Err(WrongDynamicType)
    case TypeInt => NormalizeInt(raw)
    case TypeBool => if raw.Bool? then Ok(raw) else Err(WrongDynamicType)
    case OtherType(_) => Err(UnsupportedType)
  }

  /** The one Go representation kept for a value of a supported type. */
  predicate Canonical(ty: ValueType, raw: Raw) {
    match ty
    case TypeString => raw.Str?
    case TypeInt => raw.Int?
    case TypeBool => raw.Bool?
    case OtherType(_) => false
  }

  predicate NormalTuple(tuple: Tuple) {
    forall i :: 0 <= i < |tuple.fields| ==> Canonical(tuple.fields[i].ty, tuple.fields[i].value)
  }

  predicate NormalTemplate(template: Template) {
    forall i :: 0 <= i < |template.fields| && template.fields[i].kind == Actual ==>
      Canonical(template.fields[i].ty, template.fields[i].value)
  }

  /** Normalisation lands on canonical values and fixes exactly those, so it is idempotent. */
  lemma NormalizeValueIsProjection(ty: ValueType, raw: Raw)
    ensures NormalizeValue(ty, raw).Ok? ==>
      && Canonical(ty, NormalizeValue(ty, raw).value)
      && NormalizeValue(ty, NormalizeValue(ty, raw).value) == NormalizeValue(ty, raw)
    ensures Canonical(ty, raw) <==> NormalizeValue(ty, raw) == Ok(raw)
  {
  }

  // ----- what normalisation means -----

  /** The integer in a Go integer of any width, or in JSON number text; strings, booleans and null hold none. */
  ghost predicate IntOf(raw: Raw, i: Int64) {
    || raw == Int(i)
    || raw == NarrowInt(i)
    || (raw.Unsigned? && raw.u == i)
    || (raw.Number? && Numeral(raw.text, i))
  }

  /** The value a raw one of this type stands for. */
  ghost predicate StandsFor(ty: ValueType, raw: Raw, out: Raw) {
    match ty
    case TypeString => raw.Str? && out == raw
    case TypeBool => raw.Bool? && out == raw
    case TypeInt => out.Int? && IntOf(raw, out.i)
    case OtherType(_) => false
  }

  /** The raw value stands for one of this type. */
  ghost predicate HasValue(ty: ValueType, raw: Raw) {
    exists out :: StandsFor(ty, raw, out)
  }

  /** NormalizeValue succeeds exactly on the values that stand for one of the type, with that one. */
  lemma NormalizeMeaning(ty: ValueType, raw: Raw, out: Raw)
    ensures NormalizeValue(ty, raw) == Ok(out) <==> StandsFor(ty, raw, out)
  {
    if ty == TypeInt && raw.Number? {
      if out.Int? {
        ParseInt64Meaning(raw.text, out.i);
      }
      if NormalizeValue(ty, raw).Ok? {
        ParseInt64Meaning(raw.text, NormalizeValue(ty, raw).value.i);
      }
    }
  }

  /** `out` has the types of `tuple` and the values its values stand for. */
  ghost predicate TupleStandsFor(tuple: Tuple, out: Tuple) {
    && |out.fields| == |tuple.fields|
    && forall i :: 0 <= i < |tuple.fields| ==>
         out.fields[i].ty == tuple.fields[i].ty &&
         StandsFor(tuple.fields[i].ty, tuple.fields[i].value, out.fields[i].value)
  }

  /** `out` has kinds, types and names of `template`; its actual values are what the given ones stand for, and
      its formal fields have none. */
  ghost predicate TemplateStandsFor(template: Template, out: Template) {
    && |out.fields| == |template.fields|
    && forall i :: 0 <= i < |template.fields| ==>
         var given, kept := template.fields[i], out.fields[i];
         && kept.kind == given.kind && kept.ty == given.ty && kept.name == given.name
         && if given.kind == Actual then StandsFor(given.ty, given.value, kept.value) else kept.value == Nil
  }

  /** Which field failed, and why. */
  datatype FieldError = FieldError(index: nat, cause: ValueError)

  /** `out` is `tuple` with every value normalised. */
  predicate NormalizesTo(tuple: Tuple, out: Tuple) {
    && |out.fields| == |tuple.fields|
    && forall i :: 0 <= i < |tuple.fields| ==>
         && out.fields[i].ty == tuple.fields[i].ty
         && NormalizeValue(tuple.fields[i].ty, tuple.fields[i].value) == Ok(out.fields[i].value)
  }

  /** `e` names the first field whose value cannot be normalised. */
  predicate FirstBadField(tuple: Tuple, e: FieldError) {
    && e.index < |tuple.fields|
    && NormalizeValue(tuple.fields[e.index].ty, tuple.fields[e.index].value) == Err(e.cause)
    && forall j :: 0 <= j < e.index ==> NormalizeValue(tuple.fields[j].ty, tuple.fields[j].value).Ok?
  }

  lemma TupleNormalizeMeaning(tuple: Tuple, out: Tuple)
    ensures NormalizesTo(tuple, out) <==> TupleStandsFor(tuple, out)
  {
    forall i | 0 <= i < |tuple.fields| && i < |out.fields| {
      NormalizeMeaning(tuple.fields[i].ty, tuple.fields[i].value, out.fields[i].value);
    }
  }

  /** Normalising succeeds with the one tuple that the given one stands for, and fails when there is none. */
  lemma OnlyOneMeaning(tuple: Tuple, r: Result<Tuple, FieldError>)
    requires match r case Ok(out) => NormalizesTo(tuple, out) case Err(e) => FirstBadField(tuple, e)
    ensures forall out :: r == Ok(out) <==> TupleStandsFor(tuple, out)
  {
    forall out ensures r == Ok(out) <==> TupleStandsFor(tuple, out) {
      TupleNormalizeMeaning(tuple, out);
      if NormalizesTo(tuple, out) && r.Ok? {
        assert out.fields == r.value.fields;
      }
    }
  }

  /** A tuple stands for one exactly when each of its values stands for one of its type. */
  lemma TupleHasMeaning(tuple: Tuple)
    ensures (exists out :: TupleStandsFor(tuple, out)) <==>
      forall i :: 0 <= i < |tuple.fields| ==> HasValue(tuple.fields[i].ty, tuple.fields[i].value)
  {
    if out :| TupleStandsFor(tuple, out) {
      forall i | 0 <= i < |tuple.fields| ensures HasValue(tuple.fields[i].ty, tuple.fields[i].value) {
        assert StandsFor(tuple.fields[i].ty, tuple.fields[i].value, out.fields[i].value);
      }
    }
    if forall i :: 0 <= i < |tuple.fields| ==> HasValue(tuple.fields[i].ty, tuple.fields[i].value) {
      forall i | 0 <= i < |tuple.fields| ensures NormalizeValue(tuple.fields[i].ty, tuple.fields[i].value).Ok? {
        var v :| StandsFor(tuple.fields[i].ty, tuple.fields[i].value, v);
        NormalizeMeaning(tuple.fields[i].ty, tuple.fields[i].value, v);
      }
      var out := Tuple(seq(|tuple.fields|, i requires 0 <= i < |tuple.fields| =>
        TupleField(tuple.fields[i].ty, NormalizeValue(tuple.fields[i].ty, tuple.fields[i].value).value)));
      TupleNormalizeMeaning(tuple, out);
    }
  }

  method NormalizeTuple(tuple: Tuple) returns (r: Result<Tuple, FieldError>)
    ensures r.Ok? ==> NormalizesTo(tuple, r.value) && NormalTuple(r.value)
    ensures r.Err? ==> FirstBadField(tuple, r.error)
    ensures forall out :: r == Ok(out) <==> TupleStandsFor(tuple, out)
  {
    var fields: seq<TupleField> := [];
    for i := 0 to |tuple.fields|
      invariant |fields| == i
      invariant NormalizesTo(Tuple(tuple.fields[..i]), Tuple(fields))
      invariant NormalTuple(Tuple(fields))
    {
      var field := tuple.fields[i];
      var value := NormalizeValue(field.ty, field.value);
      if value.Err? {
        assert forall j :: 0 <= j < i ==> tuple.fields[..i][j] == tuple.fields[j];
        OnlyOneMeaning(tuple, Err(FieldError(i, value.error)));
        return Err(FieldError(i, value.error));
      }
      fields := fields + [TupleField(field.ty, value.value)];
    }
    assert tuple.fields[..|tuple.fields|] == tuple.fields;
    OnlyOneMeaning(tuple, Ok(Tuple(fields)));
    return Ok(Tuple(fields));
  }

  /** At most one tuple is the normal form of another, and a normal tuple is its own. */
  lemma NormalFormUnique(tuple: Tuple, a: Tuple, b: Tuple)
    requires NormalizesTo(tuple, a)
    ensures NormalizesTo(tuple, b) ==> a == b
    ensures NormalTuple(a) && NormalizesTo(a, a)
    ensures NormalTuple(tuple) <==> a == tuple
  {
    forall i | 0 <= i < |tuple.fields| {
      NormalizeValueIsProjection(tuple.fields[i].ty, tuple.fields[i].value);
    }
    if NormalizesTo(tuple, b) {
      assert a.fields == b.fields;
    }
    if NormalTuple(tuple) {
      assert a.fields == tuple.fields;
    }
  }

  /** One template field normalised; formals keep kind, type and name and lose any value. */
  function NormalizeTemplateField(field: TemplateField): Result<TemplateField, ValueError> {
    if field.kind == Actual then
      match NormalizeValue(field.ty, field.value)
      case Ok(value) => Ok(TemplateField(field.kind, field.ty, field.name, value))
      case Err(e) => Err(e)
    else Ok(TemplateField(field.kind, field.ty, field.name, Nil))
  }

  predicate TemplateNormalizesTo(template: Template, out: Template) {
    && |out.fields| == |template.fields|
    && forall i :: 0 <= i < |template.fields| ==> NormalizeTemplateField(template.fields[i]) == Ok(out.fields[i])
  }

  lemma TemplateNormalizeMeaning(template: Template, out: Template)
    ensures TemplateNormalizesTo(template, out) <==> TemplateStandsFor(template, out)
  {
    forall i | 0 <= i < |template.fields| && i < |out.fields|
      ensures NormalizeTemplateField(template.fields[i]) == Ok(out.fields[i]) <==>
        var given, kept := template.fields[i], out.fields[i];
        && kept.kind == given.kind && kept.ty == given.ty && kept.name == given.name
        && if given.kind == Actual then StandsFor(given.ty, given.value, kept.value) else kept.value == Nil
    {
      NormalizeMeaning(template.fields[i].ty, template.fields[i].value, out.fields[i].value);
    }
  }

  predicate FirstBadTemplateField(template: Template, e: FieldError) {
    && e.index < |template.fields|
    && NormalizeTemplateField(template.fields[e.index]) == Err(e.cause)
    && forall j :: 0 <= j < e.index ==> NormalizeTemplateField(template.fields[j]).Ok?
  }

  method NormalizeTemplate(template: Template) returns (r: Result<Template, FieldError>)
    ensures r.Ok? ==> TemplateNormalizesTo(template, r.value) && NormalTemplate(r.value)
    ensures r.Err? ==> FirstBadTemplateField(template, r.error)
  {
    var fields: seq<TemplateField> := [];
    for i := 0 to |template.fields|
      invariant |fields| == i
      invariant forall j :: 0 <= j < i ==> NormalizeTemplateField(template.fields[j]) == Ok(fields[j])
    {
      var field := template.fields[i];
      var value := Nil;
      if field.kind == Actual {
        var normalized := NormalizeValue(field.ty, field.value);
        if normalized.Err? {
          return Err(FieldError(i, normalized.error));
        }
        value := normalized.value;
      }
      fields := fields + [TemplateField(field.kind, field.ty, field.name, value)];
    }
    forall i | 0 <= i < |fields| {
      NormalizeValueIsProjection(template.fields[i].ty, template.fields[i].value);
    }
    return Ok(Template(fields));
  }
}
