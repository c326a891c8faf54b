/** The pieces of package strings that the tuple DSL uses. */
module Text {
  /** unicode.IsSpace. */
  predicate IsSpace(c: char) {
    || c == '\t' || c == '\n' || c == '\U{0b}' || c == '\U{0c}' || c == '\r' || c == ' '
    || c == '\U{85}' || c == '\U{a0}' || c == '\U{1680}' || '\U{2000}' <= c <= '\U{200a}'
    || c == '\U{2028}' || c == '\U{2029}' || c == '\U{202f}' || c == '\U{205f}' || c == '\U{3000}'
  }

  /** The white space characters by code point: Unicode's White_Space property. */
  lemma SpaceCodes(c: char)
    ensures IsSpace(c) <==>
      || 9 <= c as int <= 13 || c as int in {32, 133, 160, 5760, 8232, 8233, 8239, 8287, 12288}
      || 8192 <= c as int <= 8202
  {
  }

  predicate AllSpace(s: string) {
    forall c <- s :: IsSpace(c)
  }

  function TrimLeft(s: string): string {
    if s != "" && IsSpace(s[0]) then TrimLeft(s[1..]) else s
  }

  function TrimRight(s: string): string {
    if s != "" && IsSpace(s[|s| - 1]) then TrimRight(s[..|s| - 1]) else s
  }

  /** strings.TrimSpace. */
  function TrimSpace(s: string): string {
    TrimRight(TrimLeft(s))
  }

  /** No white space at either end. */
  predicate Tight(s: string) {
    s != "" && !IsSpace(s[0]) && !IsSpace(s[|s| - 1])
  }

  lemma {:induction false} TrimLeftPad(l: string, x: string)
    requires AllSpace(l) && (x != "" ==> !IsSpace(x[0]))
    ensures TrimLeft(l + x) == x
    decreases |l|
  {
    if l == "" {
      assert l + x == x;
    } else {
      TrimLeftPad(l[1..], x);
      assert (l + x)[1..] == l[1..] + x;
    }
  }

  lemma {:induction false} TrimRightPad(x: string, r: string)
    requires AllSpace(r) && (x != "" ==> !IsSpace(x[|x| - 1]))
    ensures TrimRight(x + r) == x
    decreases |r|
  {
    if r == "" {
      assert x + r == x;
    } else {
      TrimRightPad(x, r[..|r| - 1]);
      assert (x + r)[..|x + r| - 1] == x + r[..|r| - 1];
    }
  }

  /** Trimming undoes padding. */
  lemma TrimPadded(l: string, x: string, r: string)
    requires AllSpace(l) && AllSpace(r) && Tight(x)
    ensures TrimSpace(l + x + r) == x
  {
    assert l + x + r == l + (x + r);
    TrimLeftPad(l, x + r);
    TrimRightPad(x, r);
  }

  lemma TrimTight(x: string)
    requires Tight(x)
    ensures TrimSpace(x) == x
  {
    TrimPadded("", x, "");
    assert "" + x + "" == x;
  }

  /** Joining with commas. */
  function JoinCommas(pieces: seq<string>): string {
    if pieces == [] then ""
    else if |pieces| == 1 then pieces[0]
    else JoinCommas(pieces[..|pieces| - 1]) + "," + pieces[|pieces| - 1]
  }
}
