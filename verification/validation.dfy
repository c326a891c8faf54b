/** internal/validation: the checks every request passes before it reaches the store. */
module Validation {
  import opened Wrappers
  import opened Types

  datatype Code = InvalidSpace | InvalidTuple | InvalidTemplate | UnsupportedFieldType

  predicate IsAlphanumeric(c: char) {
    'A' <= c <= 'Z' || 'a' <= c <= 'z' || '0' <= c <= '9'
  }

  /** ^[A-Za-z0-9][A-Za-z0-9_.-]{0,63}$ */
  predicate ValidSpace(space: string) {
    && 1 <= |space| <= 64
    && IsAlphanumeric(space[0])
    && forall i :: 1 <= i < |space| ==> IsAlphanumeric(space[i]) || space[i] in "_.-"
  }

  /** A character that may stand in a space's name, by ASCII code: digits, letters, `_`, `.` and `-`. */
  predicate SpaceChar(c: char) {
    48 <= c as int <= 57 || 65 <= c as int <= 90 || 97 <= c as int <= 122 || c as int in {95, 46, 45}
  }

  /** The names a space may have: 1 to 64 of those characters, the first a letter or digit. */
  lemma SpaceNames(space: string)
    ensures ValidSpace(space) <==>
      && 0 < |space| < 65 && space[0] !in {'_', '.', '-'}
      && forall i :: 0 <= i < |space| ==> SpaceChar(space[i])
  {
    assert "_.-"[0] == '_' && "_.-"[1] == '.' && "_.-"[2] == '-';
    assert forall c: char :: SpaceChar(c) <==> IsAlphanumeric(c) || c in "_.-";
    assert forall c: char :: SpaceChar(c) && c !in {'_', '.', '-'} <==> IsAlphanumeric(c);
  }

  /** A tuple as the store receives it: at least one field, every value canonical. */
  predicate ValidTuple(tuple: Tuple) {
    |tuple.fields| > 0 && NormalTuple(tuple)
  }

  predicate ValidTemplateField(field: TemplateField) {
    match field.kind
    case Actual => field.name == "" && Canonical(field.ty, field.value)
    case Formal => IsSupportedValueType(field.ty) && field.name != "" && field.value == Nil
    case OtherKind(_) => false
  }

  /** A template as `read` uses it. */
  predicate ValidTemplate(template: Template) {
    |template.fields| > 0 && forall i :: 0 <= i < |template.fields| ==> ValidTemplateField(template.fields[i])
  }

  /** The fault ValidateTemplate reports for a field before it tries to normalise it. */
  function FieldFault(field: TemplateField): Option<Code> {
    if !IsSupportedValueType(field.ty) then Some(UnsupportedFieldType)
    else match field.kind
      case Actual => if field.name != "" then Some(InvalidTemplate) else None
      case Formal => if field.name == "" || field.value != Nil then Some(InvalidTemplate) else None
      case OtherKind(_) => Some(InvalidTemplate)
  }

  /** A field of the shape a request may have: an actual one without a name, or a formal one with a name and
      without a value, of a supported type. */
  predicate WellShaped(field: TemplateField) {
    && !field.ty.OtherType?
    && ((field.kind == Actual && field.name == "") || (field.kind == Formal && |field.name| > 0 && field.value == Nil))
  }

  /** The templates a request may carry: at least one field, all well shaped, and every actual value one of its type. */
  ghost predicate AcceptableTemplate(template: Template) {
    && template.fields != []
    && (forall i :: 0 <= i < |template.fields| ==> WellShaped(template.fields[i]))
    && (forall i :: 0 <= i < |template.fields| && template.fields[i].kind == Actual ==>
          HasValue(template.fields[i].ty, template.fields[i].value))
  }

  lemma FaultlessIsWellShaped(field: TemplateField)
    ensures FieldFault(field).None? <==> WellShaped(field)
    ensures FieldFault(field) == Some(UnsupportedFieldType) <==> field.ty.OtherType?
  {
  }

  method ValidateTuple(tuple: Tuple) returns (r: Result<Tuple, Code>)
    ensures r.Ok? ==> ValidTuple(r.value) && TupleStandsFor(tuple, r.value)
    ensures r.Ok? <==>
      tuple.fields != [] && forall i :: 0 <= i < |tuple.fields| ==> HasValue(tuple.fields[i].ty, tuple.fields[i].value)
    ensures r.Err? ==> r.error == UnsupportedFieldType || r.error == InvalidTuple
    ensures r == Err(UnsupportedFieldType) <==>
      exists i :: 0 <= i < |tuple.fields| && tuple.fields[i].ty.OtherType?
  {
    TupleHasMeaning(tuple);
    if |tuple.fields| == 0 {
      return Err(InvalidTuple);
    }
    for i := 0 to |tuple.fields|
      invariant forall j :: 0 <= j < i ==> IsSupportedValueType(tuple.fields[j].ty)
    {
      if !IsSupportedValueType(tuple.fields[i].ty) {
        assert !HasValue(tuple.fields[i].ty, tuple.fields[i].value);
        return Err(UnsupportedFieldType);
      }
    }
    var normalized := NormalizeTuple(tuple);
    match normalized {
      case Ok(out) => return Ok(out);
      case Err(e) => return Err(InvalidTuple);
    }
  }

  /** The first value that cannot be normalised stands for none of its type. */
  lemma BadFieldHasNoValue(template: Template, e: FieldError)
    requires FirstBadTemplateField(template, e)
    ensures template.fields[e.index].kind == Actual
    ensures !HasValue(template.fields[e.index].ty, template.fields[e.index].value)
  {
    var field := template.fields[e.index];
    forall v ensures !StandsFor(field.ty, field.value, v) {
      NormalizeMeaning(field.ty, field.value, v);
    }
  }

  lemma NormalizedIsAcceptable(template: Template, out: Template)
    requires template.fields != [] && TemplateNormalizesTo(template, out)
    requires forall i :: 0 <= i < |template.fields| ==> FieldFault(template.fields[i]).None?
    ensures AcceptableTemplate(template) && TemplateStandsFor(template, out)
  {
    TemplateNormalizeMeaning(template, out);
    forall i | 0 <= i < |template.fields| ensures WellShaped(template.fields[i]) {
      FaultlessIsWellShaped(template.fields[i]);
    }
    forall i | 0 <= i < |template.fields| && template.fields[i].kind == Actual
      ensures HasValue(template.fields[i].ty, template.fields[i].value)
    {
      assert StandsFor(template.fields[i].ty, template.fields[i].value, out.fields[i].value);
    }
  }

  method ValidateTemplate(template: Template) returns (r: Result<Template, Code>)
    ensures r.Ok? ==> ValidTemplate(r.value) && TemplateStandsFor(template, r.value)
    ensures r.Ok? <==> AcceptableTemplate(template)
    ensures r.Err? ==> r.error == UnsupportedFieldType || r.error == InvalidTemplate
    ensures r == Err(UnsupportedFieldType) <==>
      exists i :: && 0 <= i < |template.fields| && template.fields[i].ty.OtherType?
                  && forall j :: 0 <= j < i ==> WellShaped(template.fields[j])
  {
    if |template.fields| == 0 {
      return Err(InvalidTemplate);
    }
    for i := 0 to |template.fields|
      invariant forall j :: 0 <= j < i ==> FieldFault(template.fields[j]).None? && WellShaped(template.fields[j])
    {
      var fault := FieldFault(template.fields[i]);
      FaultlessIsWellShaped(template.fields[i]);
      if fault.Some? {
        return Err(fault.value);
      }
    }
    var normalized := NormalizeTemplate(template);
    match normalized {
      case Ok(out) =>
        NormalizedIsAcceptable(template, out);
        return Ok(out);
      case Err(e) =>
        BadFieldHasNoValue(template, e);
        return Err(InvalidTemplate);
    }
  }

  /** A request already in the form `read` works on passes validation unchanged. */
  lemma ValidTemplateIsFixed(template: Template)
    requires ValidTemplate(template)
    ensures TemplateNormalizesTo(template, template) && AcceptableTemplate(template)
    ensures NormalTemplate(template)
  {
    forall i | 0 <= i < |template.fields|
      ensures NormalizeTemplateField(template.fields[i]) == Ok(template.fields[i]) &&
        FieldFault(template.fields[i]).None?
    {
      assert ValidTemplateField(template.fields[i]);
      NormalizeValueIsProjection(template.fields[i].ty, template.fields[i].value);
    }
    NormalizedIsAcceptable(template, template);
  }
}
