/** internal/match: template matching with repeated formal names. */
module Match {
  import opened Wrappers
  import opened Types
  import opened Validation

  /** match.EqualValue: equality after normalisation at one type; a value that cannot be
      normalised equals nothing. */
  predicate EqualValue(ty: ValueType, left: Raw, right: Raw) {
    var l, r := NormalizeValue(ty, left), NormalizeValue(ty, right);
    l.Ok? && r.Ok? && l.value == r.value
  }

  /** On the values the store holds, EqualValue is plain equality. */
  lemma EqualValueOnCanonical(ty: ValueType, left: Raw, right: Raw)
    requires Canonical(ty, right)
    ensures Canonical(ty, left) ==> (EqualValue(ty, left, right) <==> left == right)
    ensures EqualValue(ty, left, right) <==> NormalizeValue(ty, left) == Ok(right)
  {
    NormalizeValueIsProjection(ty, left);
    NormalizeValueIsProjection(ty, right);
  }

  predicate FormalAt(template: Template, i: nat, name: string) {
    i < |template.fields| && template.fields[i].kind == Formal && template.fields[i].name == name
  }

  /** Position i is where Match binds `name`. */
  predicate BindsAt(template: Template, i: nat, name: string) {
    FormalAt(template, i, name) && forall j: nat :: j < i ==> !FormalAt(template, j, name)
  }

  predicate FieldAgrees(template: Template, tuple: Tuple, i: nat)
    requires i < |template.fields| == |tuple.fields|
  {
    && template.fields[i].ty == tuple.fields[i].ty
    && match template.fields[i].kind
       case Actual => EqualValue(template.fields[i].ty, template.fields[i].value, tuple.fields[i].value)
       case Formal => forall j: nat :: j < i && BindsAt(template, j, template.fields[i].name) ==>
                        EqualValue(template.fields[i].ty, tuple.fields[j].value, tuple.fields[i].value)
       case OtherKind(_) => false
  }

  /** What Match decides, stated position by position. */
  predicate Agrees(template: Template, tuple: Tuple) {
    && |template.fields| == |tuple.fields|
    && forall i :: 0 <= i < |template.fields| ==> FieldAgrees(template, tuple, i)
  }

  function FormalNames(template: Template): set<string> {
    set i | 0 <= i < |template.fields| && template.fields[i].kind == Formal :: template.fields[i].name
  }

  /** `b` binds the formal names among the first n fields, each to the tuple's value where it first occurs. */
  ghost predicate BindsPrefix(template: Template, tuple: Tuple, n: nat, b: Bindings)
    requires n <= |template.fields| == |tuple.fields|
  {
    && (forall i: nat, name :: i < n && BindsAt(template, i, name) ==> name in b && b[name] == tuple.fields[i].value)
    && (forall name :: name in b ==> exists i: nat :: i < n && BindsAt(template, i, name))
  }

  lemma {:induction false} FirstOccurrence(template: Template, i: nat, name: string) returns (first: nat)
    requires FormalAt(template, i, name)
    ensures first <= i && BindsAt(template, first, name)
    decreases i
  {
    if j: nat :| j < i && FormalAt(template, j, name) {
      first := FirstOccurrence(template, j, name);
    } else {
      first := i;
    }
  }

  /** Fill a template's formals in. */
  function Instantiate(template: Template, sigma: Bindings): Tuple
    requires FormalNames(template) <= sigma.Keys
  {
    Tuple(seq(|template.fields|, i requires 0 <= i < |template.fields| =>
      var field := template.fields[i];
      TupleField(field.ty,
        if field.kind == Formal && field.name in sigma then sigma[field.name] else field.value)))
  }

  /** The Linda matching relation: some assignment of the formal names turns the template into the tuple. */
  ghost predicate Matches(template: Template, tuple: Tuple) {
    exists sigma: Bindings :: sigma.Keys == FormalNames(template) && Instantiate(template, sigma) == tuple
  }

  /** Whenever Match succeeds on normalised input, instantiating the template with what it returns
      gives the tuple back. */
  lemma BindingsInstantiate(template: Template, tuple: Tuple, b: Bindings)
    requires ValidTemplate(template) && NormalTuple(tuple) && Agrees(template, tuple)
    requires BindsPrefix(template, tuple, |template.fields|, b)
    ensures b.Keys == FormalNames(template) && Instantiate(template, b) == tuple
  {
    var fs := template.fields;
    forall i | 0 <= i < |fs| && fs[i].kind == Formal
      ensures fs[i].name in b && b[fs[i].name] == tuple.fields[i].value
    {
      assert FormalAt(template, i, fs[i].name);
      var first := FirstOccurrence(template, i, fs[i].name);
      assert FieldAgrees(template, tuple, i) && FieldAgrees(template, tuple, first);
      EqualValueOnCanonical(fs[i].ty, tuple.fields[first].value, tuple.fields[i].value);
      NormalizeValueIsProjection(fs[first].ty, tuple.fields[first].value);
    }
    forall i | 0 <= i < |fs| && fs[i].kind == Actual ensures fs[i].value == tuple.fields[i].value {
      assert FieldAgrees(template, tuple, i);
      EqualValueOnCanonical(fs[i].ty, fs[i].value, tuple.fields[i].value);
    }
    forall name | name in b ensures name in FormalNames(template) {
      var i: nat :| i < |fs| && BindsAt(template, i, name);
    }
    var instance := Instantiate(template, b);
    forall i | 0 <= i < |fs| ensures instance.fields[i] == tuple.fields[i] {
      assert FieldAgrees(template, tuple, i);
      assert ValidTemplateField(fs[i]);
    }
    assert instance.fields == tuple.fields;
  }

  /** An instance agrees position by position, and only one assignment produces it. */
  lemma InstanceAgrees(template: Template, tuple: Tuple, sigma: Bindings)
    requires ValidTemplate(template) && NormalTuple(tuple)
    requires sigma.Keys == FormalNames(template) && Instantiate(template, sigma) == tuple
    ensures Agrees(template, tuple)
    ensures BindsPrefix(template, tuple, |template.fields|, sigma)
  {
    var fs := template.fields;
    assert |tuple.fields| == |fs|;
    assert forall i :: 0 <= i < |fs| ==>
      tuple.fields[i].ty == fs[i].ty &&
      tuple.fields[i].value == if fs[i].kind == Formal then sigma[fs[i].name] else fs[i].value;
    forall i | 0 <= i < |fs| ensures FieldAgrees(template, tuple, i) {
      NormalizeValueIsProjection(fs[i].ty, tuple.fields[i].value);
    }
    forall name | name in sigma ensures exists i: nat :: i < |fs| && BindsAt(template, i, name) {
      var i :| 0 <= i < |fs| && fs[i].kind == Formal && fs[i].name == name;
      var first := FirstOccurrence(template, i, name);
    }
  }

  /** What BindsPrefix fixes is one map. */
  lemma BindsPrefixUnique(template: Template, tuple: Tuple, n: nat, a: Bindings, b: Bindings)
    requires n <= |template.fields| == |tuple.fields|
    requires BindsPrefix(template, tuple, n, a) && BindsPrefix(template, tuple, n, b)
    ensures a == b
  {
    assert a.Keys == b.Keys;
  }

  /** The map BindsPrefix describes exists. */
  lemma {:induction false} BindingsExist(template: Template, tuple: Tuple, n: nat) returns (b: Bindings)
    requires n <= |template.fields| == |tuple.fields|
    ensures BindsPrefix(template, tuple, n, b)
  {
    if n == 0 {
      b := map[];
    } else {
      b := BindingsExist(template, tuple, n - 1);
      var name := template.fields[n - 1].name;
      if BindsAt(template, n - 1, name) {
        b := b[name := tuple.fields[n - 1].value];
      }
    }
  }

  /** Match decides the Linda relation, and the assignment is unique. */
  lemma MatchIsInstantiation(template: Template, tuple: Tuple)
    requires ValidTemplate(template) && NormalTuple(tuple)
    ensures Agrees(template, tuple) <==> Matches(template, tuple)
    ensures forall a: Bindings, b: Bindings ::
      (&& a.Keys == FormalNames(template) && Instantiate(template, a) == tuple
       && b.Keys == FormalNames(template) && Instantiate(template, b) == tuple)
      ==> a == b
  {
    if Agrees(template, tuple) {
      var b := BindingsExist(template, tuple, |template.fields|);
      BindingsInstantiate(template, tuple, b);
    }
    forall a: Bindings, b: Bindings |
      && a.Keys == FormalNames(template) && Instantiate(template, a) == tuple
      && b.Keys == FormalNames(template) && Instantiate(template, b) == tuple
      ensures a == b
    {
      InstanceAgrees(template, tuple, a);
      InstanceAgrees(template, tuple, b);
      BindsPrefixUnique(template, tuple, |template.fields|, a, b);
    }
    if Matches(template, tuple) {
      var sigma: Bindings :| sigma.Keys == FormalNames(template) && Instantiate(template, sigma) == tuple;
      InstanceAgrees(template, tuple, sigma);
    }
  }

  method Match(template: Template, tuple: Tuple) returns (r: Option<Bindings>)
    ensures r.Some? <==> Agrees(template, tuple)
    ensures r.Some? ==> BindsPrefix(template, tuple, |template.fields|, r.value)
    ensures ValidTemplate(template) && NormalTuple(tuple) ==>
      && (r.Some? <==> Matches(template, tuple))
      && (r.Some? ==> r.value.Keys == FormalNames(template) && Instantiate(template, r.value) == tuple)
  {
    if ValidTemplate(template) && NormalTuple(tuple) {
      MatchIsInstantiation(template, tuple);
    }
    if |template.fields| != |tuple.fields| {
      return None;
    }
    var bindings: Bindings := map[];
    for i := 0 to |template.fields|
      invariant forall k :: 0 <= k < i ==> FieldAgrees(template, tuple, k)
      invariant BindsPrefix(template, tuple, i, bindings)
    {
      var templateField, tupleField := template.fields[i], tuple.fields[i];
      if templateField.ty != tupleField.ty {
        assert !FieldAgrees(template, tuple, i);
        return None;
      }
      match templateField.kind {
        case Actual =>
          if !EqualValue(templateField.ty, templateField.value, tupleField.value) {
            assert !FieldAgrees(template, tuple, i);
            return None;
          }
        case Formal =>
          var name := templateField.name;
          assert FormalAt(template, i, name);
          if name in bindings {
            ghost var first: nat :| first < i && BindsAt(template, first, name);
            assert forall j: nat :: BindsAt(template, j, name) ==> j == first;
            if !EqualValue(templateField.ty, bindings[name], tupleField.value) {
              assert !FieldAgrees(template, tuple, i);
              return None;
            }
          } else {
            ghost var first := FirstOccurrence(template, i, name);
            assert first == i;
            bindings := bindings[name := tupleField.value];
          }
        case OtherKind(_) =>
          assert !FieldAgrees(template, tuple, i);
          return None;
      }
    }
    if ValidTemplate(template) && NormalTuple(tuple) {
      BindingsInstantiate(template, tuple, bindings);
    }
    return Some(bindings);
  }

  /** One formal name used at two types. */
  predicate NameClash(template: Template) {
    exists i, j :: && 0 <= i < |template.fields| && 0 <= j < |template.fields|
                   && template.fields[i].kind == Formal && template.fields[j].kind == Formal
                   && template.fields[i].name == template.fields[j].name
                   && template.fields[i].ty != template.fields[j].ty
  }

  function Sample(ty: ValueType): Raw {
    match ty
    case TypeString => Str("")
    case TypeInt => Int(0)
    case TypeBool => Bool(false)
    case OtherType(_) => Nil
  }

  /** A tuple that a clash-free template matches: every formal takes its type's sample value. */
  lemma WitnessTuple(template: Template) returns (tuple: Tuple)
    requires ValidTemplate(template) && !NameClash(template)
    ensures NormalTuple(tuple) && Matches(template, tuple) && |tuple.fields| == |template.fields|
  {
    var fs := template.fields;
    var names := FormalNames(template);
    var sigma: Bindings := map name | name in names ::
      (var i :| 0 <= i < |fs| && fs[i].kind == Formal && fs[i].name == name; Sample(fs[i].ty));
    forall i | 0 <= i < |fs| && fs[i].kind == Formal ensures sigma[fs[i].name] == Sample(fs[i].ty) {
      assert fs[i].name in names;
    }
    tuple := Instantiate(template, sigma);
  }

  /** A template can match some normalised tuple exactly when no formal name is used at two types. */
  lemma SatisfiableIffNoClash(template: Template)
    requires ValidTemplate(template)
    ensures (exists tuple :: NormalTuple(tuple) && Matches(template, tuple)) <==> !NameClash(template)
  {
    if tuple :| NormalTuple(tuple) && Matches(template, tuple) {
      var sigma: Bindings :| sigma.Keys == FormalNames(template) && Instantiate(template, sigma) == tuple;
      forall i | 0 <= i < |template.fields| && template.fields[i].kind == Formal
        ensures Canonical(template.fields[i].ty, sigma[template.fields[i].name])
      {
        assert tuple.fields[i].value == sigma[template.fields[i].name];
      }
    }
    if !NameClash(template) {
      var tuple := WitnessTuple(template);
    }
  }
}
