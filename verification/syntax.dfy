/** What the texts of the tuple and template language mean, stated without the parsers: how a character may be
    spelt between quotes, what a literal and a formal field are, and what a list of fields is. */
module Syntax {
  import opened Wrappers
  import opened Numbers
  import opened Types
  import opened Store
  import opened Text
  import opened Splitter
  import opened Dsl

  // ----- escapes -----

  function Power(base: nat, k: nat): nat {
    if k == 0 then 1 else base * Power(base, k - 1)
  }

  /** The value of a hexadecimal digit, by ASCII code: 0-9, A-F, a-f. */
  function HexDigit(c: char): Option<nat> {
    var n := c as int;
    if 48 <= n <= 57 then Some(n - 48)
    else if 65 <= n <= 70 then Some(n - 55)
    else if 97 <= n <= 102 then Some(n - 87)
    else None
  }

  predicate DigitsOf(s: string, base: nat) {
    forall c <- s :: HexDigit(c).Some? && HexDigit(c).value < base
  }

  /** Each digit times the power of the base of its position, added up. */
  function NumberIn(s: string, base: nat): nat
    requires DigitsOf(s, base)
  {
    if s == "" then 0 else HexDigit(s[0]).value * Power(base, |s| - 1) + NumberIn(s[1..], base)
  }

  /** An escape letter, the number of digits that follow it, their base, and a bound for the number. */
  predicate NumberedEscape(letter: string, digits: nat, base: nat, bound: nat) {
    || (letter == "x" && digits == 2 && base == 16 && bound == 128)
    || (letter == "u" && digits == 4 && base == 16 && bound == 0x11_0000)
    || (letter == "U" && digits == 8 && base == 16 && bound == 0x11_0000)
    || (letter == "" && digits == 3 && base == 8 && bound == 128)
  }

  /** The character spelt with this escape letter and these digits. */
  predicate NumberSpelling(text: string, c: char, letter: string, d: string, base: nat, bound: nat) {
    && NumberedEscape(letter, |d|, base, bound) && DigitsOf(d, base)
    && text == "\\" + letter + d && NumberIn(d, base) == c as nat < bound
  }

  /** One character spelt by its number. */
  ghost predicate SpeltByNumber(text: string, c: char) {
    exists letter, d, base, bound :: NumberSpelling(text, c, letter, d, base, bound)
  }

  /** The letter after a backslash that stands for the character with this code. */
  predicate SpeltByLetter(e: char, c: char) {
    match c as int
    case 7 => e == 'a'
    case 8 => e == 'b'
    case 9 => e == 't'
    case 10 => e == 'n'
    case 11 => e == 'v'
    case 12 => e == 'f'
    case 13 => e == 'r'
    case 34 => e == '"'
    case 92 => e == '\\'
    case _ => false
  }

  /** One character between double quotes: itself unless it is a quote, a backslash or a newline, or an escape. */
  ghost predicate SpellsOne(text: string, c: char) {
    || (text == [c] && c as int !in {34, 92, 10})
    || (|text| == 2 && text[0] == '\\' && SpeltByLetter(text[1], c))
    || SpeltByNumber(text, c)
  }

  ghost predicate Spells(text: string, value: string)
    decreases |value|
  {
    if value == "" then text == ""
    else exists k: nat :: k <= |text| && SpellsOne(text[..k], value[0]) && Spells(text[k..], value[1..])
  }

  lemma SameHexDigit(c: char)
    ensures HexDigit(c) == HexValue(c)
  {
  }

  lemma ShiftOne(d: nat, p: nat, rest: nat, base: nat, v: nat)
    ensures d * (base * p) + (rest * base + v) == (d * p + rest) * base + v
  {
    assert d * (base * p) == (d * p) * base;
    assert (d * p + rest) * base == (d * p) * base + rest * base;
  }

  lemma {:induction false} NumberSnoc(s: string, c: char, base: nat)
    requires DigitsOf(s, base) && DigitsOf([c], base)
    ensures DigitsOf(s + [c], base) && NumberIn(s + [c], base) == NumberIn(s, base) * base + HexDigit(c).value
  {
    var t := s + [c];
    if s == "" {
      assert t == [c] && t[1..] == "";
      assert Power(base, 0) == 1;
    } else {
      assert t[0] == s[0] && t[1..] == s[1..] + [c];
      NumberSnoc(s[1..], c, base);
      ShiftOne(HexDigit(s[0]).value, Power(base, |s| - 1), NumberIn(s[1..], base), base, HexDigit(c).value);
    }
  }

  lemma DigitsSplit(high: string, last: char, base: nat)
    ensures DigitsOf(high + [last], base) <==>
      DigitsOf(high, base) && HexDigit(last).Some? && HexDigit(last).value < base
  {
    var s := high + [last];
    assert s[|high|] == last && last in s;
    assert forall c :: c in s <==> c in high || c == last;
  }

  lemma NoDigits(base: nat)
    ensures DigitsOf("", base) && NumberIn("", base) == 0
  {
  }

  lemma {:induction false} DigitsValueMeaning(s: string, base: nat)
    ensures DigitsValue(s, base) == if DigitsOf(s, base) then Some(NumberIn(s, base)) else None
  {
    hide NumberIn, DigitsOf;
    if s == "" {
      NoDigits(base);
    } else {
      var high, last := s[..|s| - 1], s[|s| - 1];
      assert s == high + [last];
      DigitsValueMeaning(high, base);
      SameHexDigit(last);
      DigitsSplit(high, last, base);
      if DigitsOf(s, base) {
        NumberSnoc(high, last, base);
      }
    }
  }

  /** NumberedChar reads exactly the numbers of characters below its bound. */
  lemma NumberedCharMeaning(s: string, skip: nat, digits: nat, base: nat, bound: nat, c: char)
    requires skip + digits <= |s|
    ensures var d := s[skip..skip + digits];
      NumberedChar(s, skip, digits, base, bound) == Some((c, skip + digits)) <==>
      DigitsOf(d, base) && NumberIn(d, base) == c as nat < bound
  {
    DigitsValueMeaning(s[skip..skip + digits], base);
  }

  lemma NumberUnescaped(letter: string, d: string, base: nat, bound: nat, c: char, b: string)
    requires NumberedEscape(letter, |d|, base, bound) && DigitsOf(d, base) && NumberIn(d, base) == c as nat < bound
    ensures EscapeSequence(letter + d + b) == Some((c, |letter| + |d|))
  {
    var tail := letter + d + b;
    assert tail[|letter|..|letter| + |d|] == d;
    NumberedCharMeaning(tail, |letter|, |d|, base, bound, c);
    if letter == "" {
      assert tail[0] == d[0] && d[0] in d;
    } else {
      assert tail[0] == letter[0];
    }
  }

  lemma OneUnescaped(a: string, c: char, b: string)
    requires SpellsOne(a, c) && Unescape(b).Some?
    ensures Unescape(a + b) == Some([c] + Unescape(b).value)
  {
    var s := a + b;
    if a == [c] && c as int !in {34, 92, 10} {
      assert s[0] == c && s[1..] == b;
    } else if |a| == 2 && a[0] == '\\' && SpeltByLetter(a[1], c) {
      assert s[0] == '\\' && s[1..][0] == a[1] && s[1 + 1..] == b;
      assert EscapedChar(a[1]) == Some(c);
      assert EscapeSequence(s[1..]) == Some((c, 1));
    } else {
      var letter, d, base, bound :| NumberSpelling(a, c, letter, d, base, bound);
      var k := |letter| + |d|;
      assert s[0] == '\\' && s[1..] == letter + d + b && s[1 + k..] == b;
      NumberUnescaped(letter, d, base, bound, c, b);
    }
  }

  /** What EscapeSequence reads is a spelling of one character. */
  lemma SequenceSpells(s: string)
    requires EscapeSequence(s).Some?
    ensures var e := EscapeSequence(s).value; 0 < e.1 <= |s| && SpellsOne("\\" + s[..e.1], e.0)
  {
    var e := EscapeSequence(s).value;
    if EscapedChar(s[0]).Some? {
      assert ("\\" + s[..1])[1] == s[0];
      assert SpeltByLetter(s[0], e.0);
    } else {
      var letter := if s[0] == 'x' || s[0] == 'u' || s[0] == 'U' then [s[0]] else "";
      var base, bound := if letter == "" then 8 else 16, if letter == "" || letter == "x" then 128 else 0x11_0000;
      var digits := if letter == "x" then 2 else if letter == "u" then 4 else if letter == "U" then 8 else 3;
      NumberedCharMeaning(s, |letter|, digits, base, bound, e.0);
      var d := s[|letter|..|letter| + digits];
      assert "\\" + s[..e.1] == "\\" + letter + d;
      assert NumberSpelling("\\" + s[..e.1], e.0, letter, d, base, bound);
    }
  }

  lemma {:induction false} UnescapedIsSpelt(text: string)
    requires Unescape(text).Some?
    ensures Spells(text, Unescape(text).value)
    decreases |text|
  {
    if text != "" {
      var value := Unescape(text).value;
      if text[0] != '\\' {
        assert text[..1] == [text[0]];
        UnescapedIsSpelt(text[1..]);
        assert SpellsOne(text[..1], value[0]) && value[1..] == Unescape(text[1..]).value;
      } else {
        SequenceSpells(text[1..]);
        var e := EscapeSequence(text[1..]).value;
        var k := 1 + e.1;
        UnescapedIsSpelt(text[k..]);
        assert text[..k] == "\\" + text[1..][..e.1];
        assert value[0] == e.0 && value[1..] == Unescape(text[k..]).value;
      }
    }
  }

  lemma {:induction false} SpeltIsUnescaped(text: string, value: string)
    requires Spells(text, value)
    ensures Unescape(text) == Some(value)
    decreases |value|
  {
    if value != "" {
      var k: nat :| k <= |text| && SpellsOne(text[..k], value[0]) && Spells(text[k..], value[1..]);
      SpeltIsUnescaped(text[k..], value[1..]);
      OneUnescaped(text[..k], value[0], text[k..]);
      assert text == text[..k] + text[k..] && value == [value[0]] + value[1..];
    }
  }

  /** Unquoting succeeds exactly on the texts that spell something, and with what they spell. */
  lemma UnescapeMeaning(text: string, value: string)
    ensures Unescape(text) == Some(value) <==> Spells(text, value)
  {
    if Unescape(text).Some? {
      UnescapedIsSpelt(text);
    }
    if Spells(text, value) {
      SpeltIsUnescaped(text, value);
    }
  }

  // ----- literals -----

  ghost predicate IsInt64Text(token: string) {
    exists v: Int64 :: Numeral(token, v)
  }

  /** What a bare or quoted token without white space at its ends stands for. */
  ghost predicate Literal(token: string, field: TupleField)
    requires token != ""
  {
    if token[0] == '"' then
      && field.ty == TypeString
      && exists text, v :: token == "\"" + text + "\"" && Spells(text, v) && field.value == Str(v)
    else if token == "true" then field == TupleField(TypeBool, Bool(true))
    else if token == "false" then field == TupleField(TypeBool, Bool(false))
    else if IsInt64Text(token) then field.ty == TypeInt && field.value.Int? && Numeral(token, field.value.i)
    else field == TupleField(TypeString, Str(token))
  }

  lemma Int64TextMeaning(token: string)
    ensures ParseInt64(token).Some? <==> IsInt64Text(token)
  {
    if ParseInt64(token).Some? {
      ParseInt64Meaning(token, ParseInt64(token).value);
    }
    if v: Int64 :| Numeral(token, v) {
      ParseInt64Meaning(token, v);
    }
  }

  lemma QuotedMeaning(token: string, field: TupleField)
    requires Tight(token) && token[0] == '"'
    ensures ParseLiteral(token) == Ok(field) <==> Literal(token, field)
  {
    TrimTight(token);
    if |token| >= 2 && token[|token| - 1] == '"' {
      var inner := token[1..|token| - 1];
      assert token == "\"" + inner + "\"";
      if Unescape(inner).Some? {
        UnescapeMeaning(inner, Unescape(inner).value);
      }
      if Literal(token, field) {
        var text, v :| token == "\"" + text + "\"" && Spells(text, v) && field.value == Str(v);
        assert text == inner;
        UnescapeMeaning(inner, v);
      }
    }
  }

  /** The literal parser accepts exactly the literals, each as what it stands for. */
  lemma LiteralMeaning(token: string, field: TupleField)
    requires Tight(token)
    ensures ParseLiteral(token) == Ok(field) <==> Literal(token, field)
  {
    if token[0] == '"' {
      QuotedMeaning(token, field);
    } else {
      TrimTight(token);
      Int64TextMeaning(token);
      if field.value.Int? {
        ParseInt64Meaning(token, field.value.i);
      }
      if ParseInt64(token).Some? {
        ParseInt64Meaning(token, ParseInt64(token).value);
      }
    }
  }

  // ----- formal fields -----

  /** The three type names of the language. */
  predicate NamesType(typeName: string, ty: ValueType) {
    || (typeName == "string" && ty == TypeString)
    || (typeName == "int" && ty == TypeInt)
    || (typeName == "bool" && ty == TypeBool)
  }

  /** White space, name, white space, colon, white space, type name, white space. */
  predicate NameAndType(text: string, name: string, ty: ValueType, pad: seq<string>, typeName: string) {
    && |pad| == 4 && (forall i :: 0 <= i < 4 ==> AllSpace(pad[i]))
    && Tight(name) && (forall i :: 0 <= i < |name| ==> name[i] != ':') && NamesType(typeName, ty)
    && text == pad[0] + (name + pad[1] + ":" + (pad[2] + typeName)) + pad[3]
  }

  /** ?name:type, with white space around name and type. */
  ghost predicate FormalText(token: string, name: string, ty: ValueType) {
    token != "" && token[0] == '?' && exists pad, typeName :: NameAndType(token[1..], name, ty, pad, typeName)
  }

  lemma NamedType(typeName: string, ty: ValueType)
    ensures NamesType(typeName, ty) <==> IsSupportedValueType(TypeNamed(typeName)) && TypeNamed(typeName) == ty
    ensures NamesType(typeName, ty) ==> Tight(typeName)
  {
  }

  lemma FormalIsRead(token: string, name: string, ty: ValueType, pad: seq<string>, typeName: string)
    requires token != "" && token[0] == '?' && NameAndType(token[1..], name, ty, pad, typeName)
    ensures ParseFormal(token) == Ok(TemplateField(Formal, ty, name, Nil))
  {
    NamedType(typeName, ty);
    var left, right := name + pad[1], pad[2] + typeName;
    var core := left + ":" + right;
    assert core[0] == name[0] && core[|core| - 1] == typeName[|typeName| - 1];
    TrimPadded(pad[0], core, pad[3]);
    assert forall i :: 0 <= i < |pad[1]| ==> pad[1][i] in pad[1];
    CutColonFirst(left, right);
    assert left == "" + name + pad[1] && right == pad[2] + typeName + "";
    TrimPadded("", name, pad[1]);
    TrimPadded(pad[2], typeName, "");
  }

  lemma Regroup(l: string, ll: string, name: string, lr: string, rl: string, typeName: string, rr: string, r: string)
    ensures l + ((ll + name + lr) + ":" + (rl + typeName + rr)) + r ==
            (l + ll) + (name + lr + ":" + (rl + typeName)) + (rr + r)
  {
  }

  lemma Assembles(name: string, ty: ValueType, l: string, ll: string, lr: string, rl: string, typeName: string,
                  rr: string, r: string)
    requires AllSpace(l) && AllSpace(ll) && AllSpace(lr) && AllSpace(rl) && AllSpace(rr) && AllSpace(r)
    requires Tight(name) && (forall i :: 0 <= i < |name| ==> name[i] != ':') && NamesType(typeName, ty)
    ensures NameAndType(l + ((ll + name + lr) + ":" + (rl + typeName + rr)) + r, name, ty,
                        [l + ll, lr, rl, rr + r], typeName)
  {
    Regroup(l, ll, name, lr, rl, typeName, rr, r);
  }

  lemma NoColonIn(left: string, ll: string, name: string, lr: string)
    requires left == ll + name + lr && forall i :: 0 <= i < |left| ==> left[i] != ':'
    ensures forall i :: 0 <= i < |name| ==> name[i] != ':'
  {
    forall i | 0 <= i < |name| ensures name[i] != ':' {
      assert name[i] == left[|ll| + i];
    }
  }

  lemma FormalParts(token: string) returns (left: string, right: string)
    requires token != "" && token[0] == '?' && ParseFormal(token).Ok?
    ensures TrimSpace(token[1..]) == left + ":" + right && forall i :: 0 <= i < |left| ==> left[i] != ':'
    ensures TrimSpace(left) != "" && IsSupportedValueType(TypeNamed(TrimSpace(right)))
    ensures ParseFormal(token).value == TemplateField(Formal, TypeNamed(TrimSpace(right)), TrimSpace(left), Nil)
  {
    var rest := TrimSpace(token[1..]);
    CutColonPrefix(rest);
    left, right := CutColon(rest).value.0, CutColon(rest).value.1;
  }

  lemma ReadIsFormal(token: string)
    requires token != "" && token[0] == '?' && ParseFormal(token).Ok?
    ensures var field := ParseFormal(token).value;
      field == TemplateField(Formal, field.ty, field.name, Nil) && FormalText(token, field.name, field.ty)
  {
    hide ParseFormal, TrimSpace, CutColon;
    var field := ParseFormal(token).value;
    var left, right := FormalParts(token);
    var l, r := TrimSplits(token[1..]);
    var ll, lr := TrimSplits(left);
    var rl, rr := TrimSplits(right);
    NamedType(TrimSpace(right), field.ty);
    NoColonIn(left, ll, field.name, lr);
    Assembles(field.name, field.ty, l, ll, lr, rl, TrimSpace(right), rr, r);
  }

  /** ?name:type is read exactly as a formal field of that name and type. */
  lemma FormalMeaning(token: string, field: TemplateField)
    requires token != "" && token[0] == '?'
    ensures ParseFormal(token) == Ok(field) <==>
      field.kind == Formal && field.value == Nil && FormalText(token, field.name, field.ty)
  {
    if ParseFormal(token).Ok? {
      ReadIsFormal(token);
    }
    if FormalText(token, field.name, field.ty) {
      var pad, typeName :| NameAndType(token[1..], field.name, field.ty, pad, typeName);
      FormalIsRead(token, field.name, field.ty, pad, typeName);
    }
  }

  /** What one field of a template stands for. */
  ghost predicate FieldText(token: string, field: TemplateField)
    requires token != ""
  {
    if token[0] == '?' then field.kind == Formal && field.value == Nil && FormalText(token, field.name, field.ty)
    else field.kind == Actual && field.name == "" && Literal(token, TupleField(field.ty, field.value))
  }

  /** The field parser accepts exactly the formal fields and the literals, each as what it stands for. */
  lemma FieldMeaning(token: string, field: TemplateField)
    requires Tight(token)
    ensures ParseTemplateField(token) == Ok(field) <==> FieldText(token, field)
  {
    if token[0] == '?' {
      FormalMeaning(token, field);
    } else {
      LiteralMeaning(token, TupleField(field.ty, field.value));
    }
  }

  // ----- whole texts -----

  /** A field as it stands between commas: no white space at its ends, and quotes that balance and cover every comma. */
  ghost predicate FieldToken(token: string) {
    Tight(token) && Solid(token)
  }

  predicate InParens(text: string) {
    |text| >= 2 && text[0] == '(' && text[|text| - 1] == ')'
  }

  /** Fields separated by plain commas, not in parentheses. */
  ghost predicate ListsFields(tokens: seq<string>) {
    tokens != [] && (forall i :: 0 <= i < |tokens| ==> FieldToken(tokens[i])) && !InParens(JoinCommas(tokens))
  }

  lemma ListSplits(tokens: seq<string>)
    requires ListsFields(tokens)
    ensures SplitsInto(JoinCommas(tokens), tokens)
  {
    var n := |tokens|;
    assert FieldToken(tokens[0]) && FieldToken(tokens[n - 1]);
    JoinEnds(tokens);
    var text := JoinCommas(tokens);
    TrimTight(text);
    assert Body(text) == text;
    forall i | 0 <= i < n ensures Solid(tokens[i]) && TrimSpace(tokens[i]) == tokens[i] {
      assert FieldToken(tokens[i]);
      TrimTight(tokens[i]);
    }
    assert TrimAll(tokens) == tokens;
    SplitJoin(tokens);
  }

  /** A list of literals is the tuple of what they stand for. */
  lemma TupleOfLiterals(tokens: seq<string>, tuple: Tuple)
    requires ListsFields(tokens) && |tuple.fields| == |tokens|
    requires forall i :: 0 <= i < |tokens| ==> Literal(tokens[i], tuple.fields[i])
    ensures ParsesToTuple(JoinCommas(tokens), tuple)
  {
    ListSplits(tokens);
    forall i | 0 <= i < |tokens| ensures ParseLiteral(tokens[i]) == Ok(tuple.fields[i]) {
      assert FieldToken(tokens[i]);
      LiteralMeaning(tokens[i], tuple.fields[i]);
    }
  }

  /** A list of formal fields and literals is the template of what they stand for. */
  lemma TemplateOfFields(tokens: seq<string>, template: Template)
    requires ListsFields(tokens) && |template.fields| == |tokens|
    requires forall i :: 0 <= i < |tokens| ==> FieldText(tokens[i], template.fields[i])
    ensures ParsesToTemplate(JoinCommas(tokens), template)
  {
    ListSplits(tokens);
    forall i | 0 <= i < |tokens| ensures ParseTemplateField(tokens[i]) == Ok(template.fields[i]) {
      assert FieldToken(tokens[i]);
      FieldMeaning(tokens[i], template.fields[i]);
    }
  }

  /** A bare word: no quote, no comma, no white space at its ends, and neither a boolean nor an int64. */
  ghost predicate BareWord(word: string) {
    && Tight(word) && Plain(word)
    && word != "true" && word != "false" && !IsInt64Text(word)
  }

  /** A text of bare words is the tuple of exactly those strings, backslashes and all. */
  lemma BareWordsAreStrings(words: seq<string>)
    requires words != [] && (forall i :: 0 <= i < |words| ==> BareWord(words[i])) && !InParens(JoinCommas(words))
    ensures ParsesToTuple(JoinCommas(words),
      Tuple(seq(|words|, i requires 0 <= i < |words| => TupleField(TypeString, Str(words[i])))))
  {
    forall i | 0 <= i < |words|
      ensures FieldToken(words[i]) && Literal(words[i], TupleField(TypeString, Str(words[i]))) {
      assert BareWord(words[i]);
      PlainIsSolid(words[i]);
    }
    TupleOfLiterals(words, Tuple(seq(|words|, i requires 0 <= i < |words| => TupleField(TypeString, Str(words[i])))));
  }

  /** What a text that parses says, field by field. */
  lemma ParsedTupleMeaning(spec: string, tuple: Tuple)
    requires ParsesToTuple(spec, tuple)
    ensures var parts := TrimAll(Pieces(Body(spec)));
      |parts| == |tuple.fields| && forall i :: 0 <= i < |parts| ==> parts[i] != "" && Literal(parts[i], tuple.fields[i])
  {
    var pieces := Pieces(Body(spec));
    forall i | 0 <= i < |pieces| ensures TrimSpace(pieces[i]) != "" && Literal(TrimSpace(pieces[i]), tuple.fields[i]) {
      var l, r := TrimSplits(pieces[i]);
      assert TrimAll(pieces)[i] == TrimSpace(pieces[i]);
      LiteralMeaning(TrimSpace(pieces[i]), tuple.fields[i]);
    }
  }

  lemma ParsedTemplateMeaning(spec: string, template: Template)
    requires ParsesToTemplate(spec, template)
    ensures var parts := TrimAll(Pieces(Body(spec)));
      |parts| == |template.fields| && forall i :: 0 <= i < |parts| ==>
        parts[i] != "" && FieldText(parts[i], template.fields[i])
  {
    var pieces := Pieces(Body(spec));
    forall i | 0 <= i < |pieces| ensures TrimSpace(pieces[i]) != "" &&
      FieldText(TrimSpace(pieces[i]), template.fields[i]) {
      var l, r := TrimSplits(pieces[i]);
      assert TrimAll(pieces)[i] == TrimSpace(pieces[i]);
      FieldMeaning(TrimSpace(pieces[i]), template.fields[i]);
    }
  }

  lemma FortyTwo()
    ensures Literal("42", TupleField(TypeInt, Int(42)))
  {
    assert Pow10(1) == 10 && Pow10(0) == 1;
    assert "42"[1..] == "2" && "2"[1..] == "";
    assert NumeralOf("42", 42, "42");
    var answer: Int64 := 42;
    assert Numeral("42", answer);
  }

  /** Text that begins with neither digit nor sign is no number. */
  lemma NotANumber(token: string)
    requires token != "" && !IsDigit(token[0]) && token[0] != '+' && token[0] != '-'
    ensures !IsInt64Text(token)
  {
  }

  /** The first example of the repository's README: job,42,true. */
  lemma JobExample()
    ensures ParsesToTuple("job,42,true",
      Tuple([TupleField(TypeString, Str("job")), TupleField(TypeInt, Int(42)), TupleField(TypeBool, Bool(true))]))
  {
    var tokens := ["job", "42", "true"];
    var tuple := Tuple([TupleField(TypeString, Str("job")), TupleField(TypeInt, Int(42)),
      TupleField(TypeBool, Bool(true))]);
    assert JoinCommas(tokens[..2][..1]) == "job" && JoinCommas(tokens[..2]) == "job,42";
    assert JoinCommas(tokens) == "job,42,true";
    forall i | 0 <= i < 3 ensures FieldToken(tokens[i]) {
      PlainIsSolid(tokens[i]);
    }
    NotANumber("job");
    FortyTwo();
    TupleOfLiterals(tokens, tuple);
  }
}
