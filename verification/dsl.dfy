/** The tuple and template language of cmd/tuplespacectl/cmds/common.go: its parsers, and a printer they undo. */
module Dsl {
  import opened Wrappers
  import opened Numbers
  import opened Types
  import opened Validation
  import opened Store
  import opened Text
  import opened Splitter

  datatype TokenError = EmptyLiteral | NotQuoted | BadEscape | NoColon | NoName | NoType | UnknownType

  /** The one-letter escapes of strconv.Unquote inside double quotes. */
  function EscapedChar(e: char): Option<char> {
    match e
    case 'a' => Some('\U{07}')
    case 'b' => Some('\U{08}')
    case 'f' => Some('\U{0c}')
    case 'n' => Some('\n')
    case 'r' => Some('\r')
    case 't' => Some('\t')
    case 'v' => Some('\U{0b}')
    case '\\' => Some('\\')
    case '"' => Some('"')
    case _ => None
  }

  function HexValue(c: char): Option<nat> {
    if '0' <= c <= '9' then Some(c as nat - '0' as nat)
    else if 'a' <= c <= 'f' then Some(c as nat - 'a' as nat + 10)
    else if 'A' <= c <= 'F' then Some(c as nat - 'A' as nat + 10)
    else None
  }

  /** The value of a run of digits of this base. */
  function DigitsValue(s: string, base: nat): Option<nat> {
    if s == "" then Some(0)
    else
      match (DigitsValue(s[..|s| - 1], base), HexValue(s[|s| - 1]))
      case (Some(high), Some(d)) => if d < base then Some(high * base + d) else None
      case _ => None
  }

  /** The character numbered v; surrogates and numbers beyond the last one are refused. */
  function CharNumbered(v: nat): Option<char> {
    if v < 0xD800 || 0xE000 <= v < 0x11_0000 then Some(v as char) else None
  }

  /** An escape that numbers its character: `digits` digits after the first `skip` characters of s.
      \x and octal escapes number a byte, and only the ASCII ones are characters by themselves. */
  function NumberedChar(s: string, skip: nat, digits: nat, base: nat, limit: nat): Option<(char, nat)> {
    if |s| < skip + digits then None
    else
      match DigitsValue(s[skip..skip + digits], base)
      case None => None
      case Some(v) =>
        match CharNumbered(v)
        case Some(c) => if v < limit then Some((c, skip + digits)) else None
        case None => None
  }

  /** What follows a backslash inside double quotes: the character it stands for and how much of s that takes. */
  function EscapeSequence(s: string): Option<(char, nat)> {
    if s == "" then None
    else if EscapedChar(s[0]).Some? then Some((EscapedChar(s[0]).value, 1))
    else if s[0] == 'x' then NumberedChar(s, 1, 2, 16, 0x80)
    else if s[0] == 'u' then NumberedChar(s, 1, 4, 16, 0x11_0000)
    else if s[0] == 'U' then NumberedChar(s, 1, 8, 16, 0x11_0000)
    else NumberedChar(s, 0, 3, 8, 0x80)
  }

  /** strconv.Unquote between the quotes. */
  function Unescape(s: string): Option<string> {
    if s == "" then Some("")
    else if s[0] == '"' || s[0] == '\n' then None
    else if s[0] != '\\' then
      match Unescape(s[1..])
      case Some(rest) => Some([s[0]] + rest)
      case None => None
    else
      match EscapeSequence(s[1..])
      case None => None
      case Some(e) =>
        if |s| < 1 + e.1 then None
        else
          match Unescape(s[1 + e.1..])
          case Some(rest) => Some([e.0] + rest)
          case None => None
  }

  /** parseLiteralToken: quoted string, bare boolean, bare int64, and any other bare text is a string. */
  function ParseLiteral(token: string): Result<TupleField, TokenError> {
    var trimmed := TrimSpace(token);
    if trimmed == "" then Err(EmptyLiteral)
    else if trimmed[0] == '"' then
      if trimmed[|trimmed| - 1] != '"' || |trimmed| < 2 then Err(NotQuoted)
      else match Unescape(trimmed[1..|trimmed| - 1])
        case Some(value) => Ok(TupleField(TypeString, Str(value)))
        case None => Err(BadEscape)
    else if trimmed == "true" then Ok(TupleField(TypeBool, Bool(true)))
    else if trimmed == "false" then Ok(TupleField(TypeBool, Bool(false)))
    else
      match ParseInt64(trimmed)
      case Some(i) => Ok(TupleField(TypeInt, Int(i)))
      case None => Ok(TupleField(TypeString, Str(trimmed)))
  }

  /** strings.Cut at the first colon. */
  function CutColon(s: string): Option<(string, string)> {
    if s == "" then None
    else if s[0] == ':' then Some(("", s[1..]))
    else
      match CutColon(s[1..])
      case Some(parts) => Some(([s[0]] + parts.0, parts.1))
      case None => None
  }

  /** parseFormalToken: ?name:type. */
  function ParseFormal(token: string): Result<TemplateField, TokenError> {
    var rest := TrimSpace(if token != "" && token[0] == '?' then token[1..] else token);
    match CutColon(rest)
    case None => Err(NoColon)
    case Some(parts) =>
      var name, typeName := TrimSpace(parts.0), TrimSpace(parts.1);
      if name == "" then Err(NoName)
      else if typeName == "" then Err(NoType)
      else if !IsSupportedValueType(TypeNamed(typeName)) then Err(UnknownType)
      else Ok(TemplateField(Formal, TypeNamed(typeName), name, Nil))
  }

  function ParseTemplateField(token: string): Result<TemplateField, TokenError> {
    if token != "" && token[0] == '?' then ParseFormal(token)
    else
      match ParseLiteral(token)
      case Ok(field) => Ok(TemplateField(Actual, field.ty, "", field.value))
      case Err(e) => Err(e)
  }

  lemma ParsedIsCanonical(token: string)
    ensures ParseLiteral(token).Ok? ==> Canonical(ParseLiteral(token).value.ty, ParseLiteral(token).value.value)
    ensures ParseTemplateField(token).Ok? ==> ValidTemplateField(ParseTemplateField(token).value)
  {
  }

  // ----- whole specs -----

  datatype ParseError = BadSpec(e: SpecError) | BadToken(index: nat, t: TokenError)

  /** The fields a spec splits into. */
  predicate SplitsInto(spec: string, parts: seq<string>) {
    && TrimSpace(spec) != "" && Body(spec) != "" && Run(Outside, Body(spec)) == Outside
    && NoneBlank(Pieces(Body(spec))) && parts == TrimAll(Pieces(Body(spec)))
  }

  predicate ParsesToTuple(spec: string, tuple: Tuple) {
    var parts := TrimAll(Pieces(Body(spec)));
    && SplitsInto(spec, parts) && |tuple.fields| == |parts|
    && forall i :: 0 <= i < |parts| ==> ParseLiteral(parts[i]) == Ok(tuple.fields[i])
  }

  predicate ParsesToTemplate(spec: string, template: Template) {
    var parts := TrimAll(Pieces(Body(spec)));
    && SplitsInto(spec, parts) && |template.fields| == |parts|
    && forall i :: 0 <= i < |parts| ==> ParseTemplateField(parts[i]) == Ok(template.fields[i])
  }

  /** A spec means at most one tuple. */
  lemma OneTupleAtMost(spec: string, tuple: Tuple)
    requires ParsesToTuple(spec, tuple)
    ensures forall other :: ParsesToTuple(spec, other) <==> other == tuple
  {
    forall other | ParsesToTuple(spec, other) ensures other == tuple {
      assert other.fields == tuple.fields;
    }
  }

  /** A spec means at most one template: the one its pieces parse to, if all of them do. */
  lemma OneTemplateAtMost(spec: string, parts: seq<string>, template: Template)
    requires SplitsInto(spec, parts) && |template.fields| == |parts|
    requires forall i :: 0 <= i < |parts| ==> ParseTemplateField(parts[i]) == Ok(template.fields[i])
    ensures ValidTemplate(template) && forall other :: ParsesToTemplate(spec, other) <==> other == template
  {
    forall other | ParsesToTemplate(spec, other) ensures other == template {
      assert other.fields == template.fields;
    }
    forall i | 0 <= i < |parts| ensures ValidTemplateField(template.fields[i]) {
      ParsedIsCanonical(parts[i]);
    }
  }

  lemma BadTemplateToken(spec: string, parts: seq<string>, i: nat)
    requires SplitsInto(spec, parts) && i < |parts| && ParseTemplateField(parts[i]).Err?
    ensures forall template :: !ParsesToTemplate(spec, template)
  {
  }

  lemma ValidTemplateIsOwnForm(template: Template, r: Result<Template, FieldError>)
    requires ValidTemplate(template)
    requires match r
             case Ok(out) => TemplateNormalizesTo(template, out)
             case Err(e) => FirstBadTemplateField(template, e)
    ensures r == Ok(template)
  {
    ValidTemplateIsFixed(template);
    if r.Ok? {
      assert r.value.fields == template.fields;
    }
  }

  lemma NormalIsOwnForm(tuple: Tuple)
    requires NormalTuple(tuple)
    ensures NormalizesTo(tuple, tuple)
  {
    forall i | 0 <= i < |tuple.fields| {
      NormalizeValueIsProjection(tuple.fields[i].ty, tuple.fields[i].value);
    }
  }

  method ParseTupleSpec(spec: string) returns (r: Result<Tuple, ParseError>)
    ensures r.Ok? ==> ValidTuple(r.value) && forall tuple :: ParsesToTuple(spec, tuple) <==> tuple == r.value
    ensures r.Err? ==> forall tuple :: !ParsesToTuple(spec, tuple)
    ensures r.Err? && r.error.BadToken? ==> exists parts ::
      && SplitsInto(spec, parts) && r.error.index < |parts| && ParseLiteral(parts[r.error.index]) == Err(r.error.t)
      && forall j :: 0 <= j < r.error.index ==> ParseLiteral(parts[j]).Ok?
  {
    var parts := SplitSpecFields(spec);
    if parts.Err? {
      return Err(BadSpec(parts.error));
    }
    var fields: seq<TupleField> := [];
    for i := 0 to |parts.value|
      invariant |fields| == i && NormalTuple(Tuple(fields))
      invariant forall j :: 0 <= j < i ==> ParseLiteral(parts.value[j]) == Ok(fields[j])
    {
      var field := ParseLiteral(parts.value[i]);
      if field.Err? {
        return Err(BadToken(i, field.error));
      }
      ParsedIsCanonical(parts.value[i]);
      fields := fields + [field.value];
    }
    var tuple := Tuple(fields);
    var normalized := NormalizeTuple(tuple);
    NormalIsOwnForm(tuple);
    assert normalized.Ok?;
    NormalFormUnique(tuple, normalized.value, tuple);
    OneTupleAtMost(spec, tuple);
    return Ok(normalized.value);
  }

  method ParseTemplateSpec(spec: string) returns (r: Result<Template, ParseError>)
    ensures r.Ok? ==> ValidTemplate(r.value) && forall template :: ParsesToTemplate(spec, template) <==>
      template == r.value
    ensures r.Err? ==> forall template :: !ParsesToTemplate(spec, template)
    ensures r.Err? && r.error.BadToken? ==> exists parts ::
      && SplitsInto(spec, parts) && r.error.index < |parts| &&
        ParseTemplateField(parts[r.error.index]) == Err(r.error.t)
      && forall j :: 0 <= j < r.error.index ==> ParseTemplateField(parts[j]).Ok?
  {
    var parts := SplitSpecFields(spec);
    if parts.Err? {
      return Err(BadSpec(parts.error));
    }
    var fields: seq<TemplateField> := [];
    for i := 0 to |parts.value|
      invariant |fields| == i
      invariant forall j :: 0 <= j < i ==> ParseTemplateField(parts.value[j]) == Ok(fields[j])
    {
      var field := ParseTemplateField(parts.value[i]);
      if field.Err? {
        BadTemplateToken(spec, parts.value, i);
        return Err(BadToken(i, field.error));
      }
      fields := fields + [field.value];
    }
    var template := Template(fields);
    OneTemplateAtMost(spec, parts.value, template);
    var normalized := NormalizeTemplate(template);
    ValidTemplateIsOwnForm(template, normalized);
    return Ok(normalized.value);
  }

  // ----- printing -----

  function EscapeChar(c: char): string {
    match c
    case '"' => "\\\""
    case '\\' => "\\\\"
    case '\n' => "\\n"
    case _ => [c]
  }

  function Escape(s: string): string {
    if s == "" then "" else EscapeChar(s[0]) + Escape(s[1..])
  }

  function Quoted(s: string): string {
    "\"" + Escape(s) + "\""
  }

  function PrintValue(value: Raw): string {
    match value
    case Str(s) => Quoted(s)
    case Int(i) => Decimal(i)
    case Bool(b) => if b then "true" else "false"
    case _ => ""
  }

  function PrintTemplateField(field: TemplateField): string {
    if field.kind == Formal then "?" + field.name + ":" + TypeName(field.ty) else PrintValue(field.value)
  }

  /** Names that survive printing: no colon, no white space at the ends, and quotes that balance and cover
      every comma. In particular any tight name without colon, quote or comma. */
  ghost predicate PrintableName(name: string) {
    Tight(name) && Solid(name) && forall i :: 0 <= i < |name| ==> name[i] != ':'
  }

  ghost predicate PrintableTemplate(template: Template) {
    ValidTemplate(template)
    && forall i :: 0 <= i < |template.fields| && template.fields[i].kind == Formal ==>
      PrintableName(template.fields[i].name)
  }

  function TupleTokens(tuple: Tuple): seq<string> {
    seq(|tuple.fields|, i requires 0 <= i < |tuple.fields| => PrintValue(tuple.fields[i].value))
  }

  function TemplateTokens(template: Template): seq<string> {
    seq(|template.fields|, i requires 0 <= i < |template.fields| => PrintTemplateField(template.fields[i]))
  }

  /** White space around commas, around the whole spec and inside the optional parentheses. */
  datatype Style = Style(parens: bool, outerLeft: string, outerRight: string, innerLeft: string, innerRight: string,
                         before: seq<string>, after: seq<string>)

  predicate ValidStyle(style: Style, n: nat) {
    && AllSpace(style.outerLeft) && AllSpace(style.outerRight) && AllSpace(style.innerLeft) &&
      AllSpace(style.innerRight)
    && |style.before| == |style.after| == n
    && forall i :: 0 <= i < n ==> AllSpace(style.before[i]) && AllSpace(style.after[i])
  }

  /** before[i] and after[i] are the white space to the left and right of token i; none at the very ends. */
  function PaddedPieces(tokens: seq<string>, style: Style): seq<string>
    requires ValidStyle(style, |tokens|)
  {
    seq(|tokens|, i requires 0 <= i < |tokens| =>
      (if i == 0 then "" else style.before[i]) + tokens[i] + (if i == |tokens| - 1 then "" else style.after[i]))
  }

  function Layout(tokens: seq<string>, style: Style): string
    requires ValidStyle(style, |tokens|)
  {
    var body := JoinCommas(PaddedPieces(tokens, style));
    if style.parens then
      style.outerLeft + ("(" + style.innerLeft + body + style.innerRight + ")") + style.outerRight
    else style.outerLeft + body + style.outerRight
  }

  // ----- tokens survive the splitter -----

  /** What the splitter needs of a token. */
  ghost predicate Token(t: string) {
    Tight(t) && Solid(t) && t[0] != '('
  }

  predicate Plain(s: string) {
    forall i :: 0 <= i < |s| ==> s[i] != ',' && s[i] != '"'
  }

  lemma {:induction false} PlainRun(s: string)
    requires Plain(s)
    ensures Run(Outside, s) == Outside
  {
    if s != "" {
      PlainRun(s[..|s| - 1]);
    }
  }

  lemma PlainIsSolid(s: string)
    requires Plain(s)
    ensures Solid(s)
  {
    PlainRun(s);
  }

  /** Padding with white space keeps a piece solid. */
  lemma PaddingIsSolid(l: string, t: string, r: string)
    requires Solid(t) && Plain(l) && Plain(r)
    ensures Solid(l + t + r)
  {
    PlainRun(l);
    PlainRun(r);
    RunConcat(Outside, l, t);
    RunConcat(Outside, l + t, r);
    var s := l + t + r;
    forall i: nat | i < |s| ensures !SplitsAt(s, i) {
      if |l| <= i < |l| + |t| {
        assert s[i] == t[i - |l|];
        assert s[..i] == l + t[..i - |l|];
        RunConcat(Outside, l, t[..i - |l|]);
        assert !SplitsAt(t, i - |l|);
      }
    }
  }

  lemma SpaceIsPlain(s: string)
    requires AllSpace(s)
    ensures Plain(s)
  {
    assert !IsSpace(',') && !IsSpace('"');
  }

  /** What is printed for one character, read inside quotes: never outside on the way, inside at the end. */
  lemma EscapeOne(c: char)
    ensures var e := EscapeChar(c);
      Run(Inside, e) == Inside && forall i :: 0 <= i <= |e| ==> Run(Inside, e[..i]) != Outside
  {
    var e := EscapeChar(c);
    assert e[..0] == "" && e[..|e|] == e;
    if |e| == 2 {
      assert e[..1] == "\\" && e[..1][..0] == "";
      assert Run(Inside, e[..1]) == Advance(Run(Inside, ""), '\\');
    } else {
      assert Run(Inside, e) == Advance(Run(Inside, ""), c);
    }
  }

  lemma {:induction false} EscapeEndsInside(s: string)
    ensures Run(Inside, Escape(s)) == Inside
  {
    if s != "" {
      EscapeOne(s[0]);
      EscapeEndsInside(s[1..]);
      RunConcat(Inside, EscapeChar(s[0]), Escape(s[1..]));
    }
  }

  /** Inside the quotes of a printed string the splitter is never outside quotes. */
  lemma {:induction false} EscapeStaysInside(s: string, i: nat)
    requires i <= |Escape(s)|
    ensures Run(Inside, Escape(s)[..i]) != Outside
  {
    if s != "" {
      var head, tail := EscapeChar(s[0]), Escape(s[1..]);
      EscapeOne(s[0]);
      if i <= |head| {
        assert Escape(s)[..i] == head[..i];
      } else {
        EscapeStaysInside(s[1..], i - |head|);
        assert Escape(s)[..i] == head + tail[..i - |head|];
        RunConcat(Inside, head, tail[..i - |head|]);
      }
    }
  }

  lemma QuotedIsToken(s: string)
    ensures Token(Quoted(s))
  {
    var q, e := Quoted(s), Escape(s);
    assert Run(Outside, "\"") == Inside by { assert "\""[..0] == ""; }
    EscapeEndsInside(s);
    RunConcat(Outside, "\"", e);
    assert q[..|q| - 1] == "\"" + e;
    forall i: nat | i < |q| ensures !SplitsAt(q, i) {
      if 0 < i < |q| - 1 {
        EscapeStaysInside(s, i - 1);
        RunConcat(Outside, "\"", e[..i - 1]);
        assert q[..i] == "\"" + e[..i - 1];
      }
    }
  }

  lemma DecimalIsToken(i: Int64)
    ensures Token(Decimal(i))
  {
    var t := Decimal(i);
    assert forall k :: 0 <= k < |t| ==> t[k] in t;
    PlainIsSolid(t);
  }

  lemma ValueIsToken(ty: ValueType, value: Raw)
    requires Canonical(ty, value)
    ensures Token(PrintValue(value))
  {
    match value {
      case Str(s) => QuotedIsToken(s);
      case Int(i) => DecimalIsToken(i);
      case Bool(b) => PlainIsSolid(PrintValue(value));
    }
  }

  lemma FormalIsToken(field: TemplateField)
    requires field.kind == Formal && IsSupportedValueType(field.ty) && PrintableName(field.name)
    ensures Token(PrintTemplateField(field))
  {
    var tail := ":" + TypeName(field.ty);
    PaddingIsSolid("?", field.name, tail);
    assert PrintTemplateField(field) == "?" + field.name + tail;
  }

  /** A tight name without commas, quotes and colons is printable. */
  lemma SimpleNamesArePrintable(name: string)
    requires Tight(name) && Plain(name) && forall i :: 0 <= i < |name| ==> name[i] != ':'
    ensures PrintableName(name)
  {
    PlainIsSolid(name);
  }

  // ----- tokens parse back -----

  lemma UnescapeOne(c: char, rest: string)
    requires Unescape(rest).Some?
    ensures Unescape(EscapeChar(c) + rest) == Some([c] + Unescape(rest).value)
  {
    var e := EscapeChar(c) + rest;
    if c == '"' || c == '\\' || c == '\n' {
      var tail := e[1..];
      assert tail[0] == EscapeChar(c)[1];
      assert EscapedChar(tail[0]) == Some(c);
      assert EscapeSequence(tail) == Some((c, 1));
      assert e[1 + 1..] == rest;
    } else {
      assert e[0] == c && e[1..] == rest;
    }
  }

  lemma {:induction false} UnescapeEscape(s: string)
    ensures Unescape(Escape(s)) == Some(s)
  {
    if s != "" {
      UnescapeEscape(s[1..]);
      UnescapeOne(s[0], Escape(s[1..]));
      assert [s[0]] + s[1..] == s;
    }
  }

  lemma ValueRoundTrip(ty: ValueType, value: Raw)
    requires Canonical(ty, value)
    ensures ParseLiteral(PrintValue(value)) == Ok(TupleField(ty, value))
  {
    var t := PrintValue(value);
    ValueIsToken(ty, value);
    TrimTight(t);
    match value {
      case Str(s) =>
        UnescapeEscape(s);
        assert t[1..|t| - 1] == Escape(s);
      case Int(i) =>
        ParseInt64Decimal(i);
        assert t[0] != 't' && t[0] != 'f' && t[0] != '"';
      case Bool(b) =>
    }
  }

  lemma {:induction false} CutColonFirst(name: string, rest: string)
    requires forall i :: 0 <= i < |name| ==> name[i] != ':'
    ensures CutColon(name + ":" + rest) == Some((name, rest))
  {
    var s := name + ":" + rest;
    if name == "" {
      assert s[1..] == rest;
    } else {
      CutColonFirst(name[1..], rest);
      assert s[1..] == name[1..] + ":" + rest;
      assert [name[0]] + name[1..] == name;
    }
  }

  lemma FormalRoundTrip(field: TemplateField)
    requires field.kind == Formal && IsSupportedValueType(field.ty) && PrintableName(field.name) && field.value == Nil
    ensures ParseTemplateField(PrintTemplateField(field)) == Ok(field)
  {
    var t, ty := PrintTemplateField(field), TypeName(field.ty);
    var rest := field.name + ":" + ty;
    assert t[1..] == rest;
    TrimTight(rest);
    CutColonFirst(field.name, ty);
    TrimTight(field.name);
    TrimTight(ty);
    TypeNameInjective(field.ty, field.ty);
  }

  lemma ActualRoundTrip(field: TemplateField)
    requires field.kind == Actual && Canonical(field.ty, field.value) && field.name == ""
    ensures ParseTemplateField(PrintTemplateField(field)) == Ok(field)
  {
    ValueRoundTrip(field.ty, field.value);
    assert PrintValue(field.value)[0] != '?';
  }

  // ----- layout and splitter undo each other -----

  lemma {:induction false} JoinHead(ps: seq<string>)
    requires ps != [] && ps[0] != ""
    ensures JoinCommas(ps) != "" && JoinCommas(ps)[0] == ps[0][0]
  {
    if |ps| > 1 {
      JoinHead(ps[..|ps| - 1]);
    }
  }

  lemma {:induction false} JoinEnds(ps: seq<string>)
    requires ps != [] && ps[0] != "" && ps[|ps| - 1] != ""
    ensures JoinCommas(ps) != ""
    ensures JoinCommas(ps)[0] == ps[0][0]
    ensures var j, last := JoinCommas(ps), ps[|ps| - 1]; j[|j| - 1] == last[|last| - 1]
  {
    if |ps| > 1 {
      JoinHead(ps[..|ps| - 1]);
    }
  }

  lemma PaddedPiece(tokens: seq<string>, style: Style, i: nat)
    requires ValidStyle(style, |tokens|) && i < |tokens| && Token(tokens[i])
    ensures Solid(PaddedPieces(tokens, style)[i])
    ensures TrimSpace(PaddedPieces(tokens, style)[i]) == tokens[i]
  {
    var l := if i == 0 then "" else style.before[i];
    var r := if i == |tokens| - 1 then "" else style.after[i];
    SpaceIsPlain(l);
    SpaceIsPlain(r);
    PaddingIsSolid(l, tokens[i], r);
    TrimPadded(l, tokens[i], r);
  }

  /** The body between the ends of a layout is tight and does not open with a parenthesis. */
  lemma BodyIsTight(tokens: seq<string>, style: Style)
    requires tokens != [] && ValidStyle(style, |tokens|) && forall i :: 0 <= i < |tokens| ==> Token(tokens[i])
    ensures Tight(JoinCommas(PaddedPieces(tokens, style))) && JoinCommas(PaddedPieces(tokens, style))[0] != '('
  {
    var ps, n := PaddedPieces(tokens, style), |tokens|;
    assert Token(tokens[0]) && Token(tokens[n - 1]);
    assert ps[0][0] == tokens[0][0];
    assert ps[n - 1][|ps[n - 1]| - 1] == tokens[n - 1][|tokens[n - 1]| - 1];
    JoinEnds(ps);
  }

  lemma WrappedBody(outerLeft: string, innerLeft: string, body: string, innerRight: string, outerRight: string)
    requires AllSpace(outerLeft) && AllSpace(innerLeft) && AllSpace(innerRight) && AllSpace(outerRight) && Tight(body)
    ensures var text := outerLeft + ("(" + innerLeft + body + innerRight + ")") + outerRight;
      TrimSpace(text) != "" && Body(text) == body
  {
    var inner := innerLeft + body + innerRight;
    var wrapped := "(" + innerLeft + body + innerRight + ")";
    assert wrapped[1..|wrapped| - 1] == inner;
    TrimPadded(outerLeft, wrapped, outerRight);
    TrimPadded(innerLeft, body, innerRight);
  }

  lemma LayoutBody(tokens: seq<string>, style: Style)
    requires tokens != [] && ValidStyle(style, |tokens|) && forall i :: 0 <= i < |tokens| ==> Token(tokens[i])
    ensures TrimSpace(Layout(tokens, style)) != ""
    ensures Body(Layout(tokens, style)) == JoinCommas(PaddedPieces(tokens, style))
    ensures JoinCommas(PaddedPieces(tokens, style)) != ""
  {
    var body := JoinCommas(PaddedPieces(tokens, style));
    BodyIsTight(tokens, style);
    if style.parens {
      WrappedBody(style.outerLeft, style.innerLeft, body, style.innerRight, style.outerRight);
    } else {
      TrimPadded(style.outerLeft, body, style.outerRight);
    }
  }

  /** Splitting a layout gives the tokens back, whatever the style. */
  lemma SplitLayout(tokens: seq<string>, style: Style)
    requires tokens != [] && ValidStyle(style, |tokens|) && forall i :: 0 <= i < |tokens| ==> Token(tokens[i])
    ensures SplitsInto(Layout(tokens, style), tokens)
  {
    var ps := PaddedPieces(tokens, style);
    forall i | 0 <= i < |tokens| ensures Solid(ps[i]) && TrimSpace(ps[i]) == tokens[i] && tokens[i] != "" {
      PaddedPiece(tokens, style, i);
      assert Token(tokens[i]);
    }
    assert TrimAll(ps) == tokens && NoneBlank(ps);
    SplitJoin(ps);
    LayoutBody(tokens, style);
    assert Pieces(Body(Layout(tokens, style))) == ps;
  }

  /** Printing a tuple in any style and parsing it gives the tuple back. */
  lemma TupleRoundTrip(tuple: Tuple, style: Style)
    requires ValidTuple(tuple) && ValidStyle(style, |tuple.fields|)
    ensures ParsesToTuple(Layout(TupleTokens(tuple), style), tuple)
  {
    var tokens := TupleTokens(tuple);
    forall i | 0 <= i < |tokens| ensures Token(tokens[i]) && ParseLiteral(tokens[i]) == Ok(tuple.fields[i]) {
      ValueIsToken(tuple.fields[i].ty, tuple.fields[i].value);
      ValueRoundTrip(tuple.fields[i].ty, tuple.fields[i].value);
    }
    SplitLayout(tokens, style);
  }

  lemma TemplateRoundTrip(template: Template, style: Style)
    requires PrintableTemplate(template) && ValidStyle(style, |template.fields|)
    ensures ParsesToTemplate(Layout(TemplateTokens(template), style), template)
  {
    var tokens := TemplateTokens(template);
    forall i | 0 <= i < |tokens| ensures Token(tokens[i]) && ParseTemplateField(tokens[i]) == Ok(template.fields[i]) {
      var field := template.fields[i];
      assert ValidTemplateField(field);
      if field.kind == Formal {
        FormalIsToken(field);
        FormalRoundTrip(field);
      } else {
        ValueIsToken(field.ty, field.value);
        ActualRoundTrip(field);
      }
    }
    SplitLayout(tokens, style);
  }

  // ----- exactly what the language can express -----

  lemma {:induction false} CutColonPrefix(s: string)
    ensures CutColon(s).Some? ==>
      && s == CutColon(s).value.0 + ":" + CutColon(s).value.1
      && forall i :: 0 <= i < |CutColon(s).value.0| ==> CutColon(s).value.0[i] != ':'
  {
    if s != "" && s[0] != ':' {
      CutColonPrefix(s[1..]);
      assert s == [s[0]] + s[1..];
    }
  }

  /** TrimLeft takes off white space only, and all there is on the left. */
  lemma {:induction false} TrimLeftSplits(s: string) returns (l: string)
    ensures s == l + TrimLeft(s) && AllSpace(l)
    ensures TrimLeft(s) == "" || !IsSpace(TrimLeft(s)[0])
  {
    if s != "" && IsSpace(s[0]) {
      l := TrimLeftSplits(s[1..]);
      l := [s[0]] + l;
    } else {
      l := "";
    }
  }

  lemma {:induction false} TrimRightSplits(s: string) returns (r: string)
    ensures s == TrimRight(s) + r && AllSpace(r)
    ensures TrimRight(s) == "" || !IsSpace(TrimRight(s)[|TrimRight(s)| - 1])
  {
    if s != "" && IsSpace(s[|s| - 1]) {
      r := TrimRightSplits(s[..|s| - 1]);
      r := r + [s[|s| - 1]];
    } else {
      r := "";
    }
  }

  /** A trimmed text is tight or empty, and lies between white space. */
  lemma TrimSplits(s: string) returns (l: string, r: string)
    ensures s == l + TrimSpace(s) + r && AllSpace(l) && AllSpace(r)
    ensures TrimSpace(s) == "" || Tight(TrimSpace(s))
  {
    l := TrimLeftSplits(s);
    r := TrimRightSplits(TrimLeft(s));
    if TrimSpace(s) != "" {
      assert TrimSpace(s)[0] == TrimLeft(s)[0];
    }
  }

  lemma {:induction false} TailStaysInside(q: Quote, tail: string)
    requires q != Outside && Plain(tail)
    ensures Run(q, tail) != Outside
  {
    if tail != "" {
      TailStaysInside(q, tail[..|tail| - 1]);
    }
  }

  /** What is solid with plain text around it is solid without. */
  lemma SolidCore(l: string, x: string, r: string)
    requires Plain(l) && Plain(r) && Solid(l + x + r)
    ensures Solid(x)
  {
    var s := l + x + r;
    PlainRun(l);
    RunConcat(Outside, l, x);
    RunConcat(Outside, l + x, r);
    if Run(Outside, x) != Outside {
      TailStaysInside(Run(Outside, x), r);
    }
    forall i: nat | i < |x| ensures !SplitsAt(x, i) {
      assert s[..|l| + i] == l + x[..i];
      RunConcat(Outside, l, x[..i]);
      assert !SplitsAt(s, |l| + i);
    }
  }

  lemma NameInFormal(before: string, after: string)
    requires Solid(before + ":" + after) && TrimSpace(before) != ""
    requires IsSupportedValueType(TypeNamed(TrimSpace(after)))
    requires forall i :: 0 <= i < |before| ==> before[i] != ':'
    ensures PrintableName(TrimSpace(before))
  {
    var l, r := TrimSplits(before);
    var l', r' := TrimSplits(after);
    SpaceIsPlain(l);
    SpaceIsPlain(r);
    SpaceIsPlain(l');
    SpaceIsPlain(r');
    assert TypeName(TypeNamed(TrimSpace(after))) == TrimSpace(after);
    assert Plain(after);
    var tail := r + ":" + after;
    assert before + ":" + after == l + TrimSpace(before) + tail;
    SolidCore(l, TrimSpace(before), tail);
    forall i | 0 <= i < |TrimSpace(before)| ensures TrimSpace(before)[i] != ':' {
      assert TrimSpace(before)[i] == before[|l| + i];
    }
  }

  /** Trimming keeps a text solid. */
  lemma TrimKeepsSolid(before: string, s: string)
    requires Plain(before) && Solid(before + s)
    ensures Solid(TrimSpace(s))
  {
    var l, r := TrimSplits(s);
    SpaceIsPlain(l);
    SpaceIsPlain(r);
    assert before + s == (before + l) + TrimSpace(s) + r;
    SolidCore(before + l, TrimSpace(s), r);
  }

  /** The name in a formal field that the splitter cut out and the parser accepted is printable. */
  lemma ParsedNameIsPrintable(piece: string)
    requires Solid(piece) && TrimSpace(piece) != "" && TrimSpace(piece)[0] == '?' && ParseFormal(TrimSpace(piece)).Ok?
    ensures PrintableName(ParseFormal(TrimSpace(piece)).value.name)
  {
    var token := TrimSpace(piece);
    assert "" + piece == piece;
    TrimKeepsSolid("", piece);
    assert "?" + token[1..] == token;
    TrimKeepsSolid("?", token[1..]);
    var rest := TrimSpace(token[1..]);
    CutColonPrefix(rest);
    NameInFormal(CutColon(rest).value.0, CutColon(rest).value.1);
  }

  lemma ParsedTemplateIsPrintable(spec: string, template: Template)
    requires ParsesToTemplate(spec, template)
    ensures PrintableTemplate(template)
  {
    var pieces := Pieces(Body(spec));
    SplitterCorrect(Body(spec));
    forall i | 0 <= i < |template.fields|
      ensures ValidTemplateField(template.fields[i])
      ensures template.fields[i].kind == Formal ==> PrintableName(template.fields[i].name)
    {
      assert TrimAll(pieces)[i] == TrimSpace(pieces[i]);
      ParsedIsCanonical(TrimSpace(pieces[i]));
      if template.fields[i].kind == Formal {
        ParsedNameIsPrintable(pieces[i]);
      }
    }
  }

  /** No white space around anything, and no parentheses. */
  function PlainStyle(n: nat): Style {
    Style(false, "", "", "", "", seq(n, i => ""), seq(n, i => ""))
  }

  /** The exact reach of the language: some spec parses to a template if and only if it is valid and each of
      its formal names is printable; and to a tuple if and only if it is valid. */
  lemma ExpressibleIffPrintable(template: Template, tuple: Tuple)
    ensures (exists spec :: ParsesToTemplate(spec, template)) <==> PrintableTemplate(template)
    ensures (exists spec :: ParsesToTuple(spec, tuple)) <==> ValidTuple(tuple)
  {
    if spec :| ParsesToTemplate(spec, template) {
      ParsedTemplateIsPrintable(spec, template);
    }
    if PrintableTemplate(template) {
      TemplateRoundTrip(template, PlainStyle(|template.fields|));
    }
    if spec :| ParsesToTuple(spec, tuple) {
      forall i | 0 <= i < |tuple.fields| ensures Canonical(tuple.fields[i].ty, tuple.fields[i].value) {
        ParsedIsCanonical(TrimAll(Pieces(Body(spec)))[i]);
      }
    }
    if ValidTuple(tuple) {
      TupleRoundTrip(tuple, PlainStyle(|tuple.fields|));
    }
  }
}
