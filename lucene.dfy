/**
 * The Lucene query-string tree the full-text compiler builds (a collection
 * query of an operator, an exclusion flag and elements; a term query of a
 * value and a fuzziness), and its string form.
 *
 * The string form is produced by a library outside this repository; `Render`
 * reconstructs it from the strings the unit tests expect: a term containing
 * whitespace is quoted, Lucene's special characters are escaped with a
 * backslash, a fuzzy term gets `~`, an excluded collection gets `-`, and a
 * collection of two or more rendered elements is parenthesised and joined by
 * its operator.
 */
module Lucene {
  import opened Wrappers

  datatype Query =
    | Collection(operator: string, prohibited: bool, elements: seq<Query>)
    | Term(value: string, fuzziness: Option<string>)

  /** A collection without elements; such a query gives no text clause. */
  predicate IsEmpty(q: Query) {
    q.Collection? && q.elements == []
  }

  /** Lucene's special characters: + - ! ( ) { } [ ] ^ " ~ * ? : \ / */
  predicate IsSpecial(c: char) {
    || c == '+' || c == '-' || c == '!' || c == '(' || c == ')' || c == '{' || c == '}'
    || c == '[' || c == ']' || c == '^' || c == '"' || c == '~' || c == '*' || c == '?'
    || c == ':' || c == '\\' || c == '/'
  }

  predicate IsSpace(c: char) {
    c == ' ' || c == '\t' || c == '\n' || c == '\r'
  }

  function HasSpace(s: string): (r: bool)
    ensures r <==> exists i :: 0 <= i < |s| && IsSpace(s[i])
  {
    if s == [] then false
    else if IsSpace(s[0]) then true
    else
      assert forall i :: 1 <= i < |s| ==> s[i] == s[1..][i - 1];
      HasSpace(s[1..])
  }

  /** Every special character preceded by a backslash; every other character kept. */
  function Escape(s: string): (r: string)
    ensures |s| <= |r| <= 2 * |s|
  {
    if s == [] then []
    else (if IsSpecial(s[0]) then ['\\', s[0]] else [s[0]]) + Escape(s[1..])
  }

  /** Dropping the escaping backslashes gives the term back. */
  function Unescape(s: string): string {
    if s == [] then []
    else if s[0] == '\\' && |s| >= 2 then [s[1]] + Unescape(s[2..])
    else [s[0]] + Unescape(s[1..])
  }

  lemma {:induction false} UnescapeEscape(s: string)
    ensures Unescape(Escape(s)) == s
  {
    if s != [] {
      UnescapeEscape(s[1..]);
      var e := Escape(s);
      if IsSpecial(s[0]) {
        assert e[2..] == Escape(s[1..]);
      } else {
        assert e[1..] == Escape(s[1..]);
      }
    }
  }

  lemma {:induction false} EscapeAppend(a: string, b: string)
    ensures Escape(a + b) == Escape(a) + Escape(b)
  {
    if a != [] {
      assert (a + b)[0] == a[0] && (a + b)[1..] == a[1..] + b;
      EscapeAppend(a[1..], b);
    } else {
      assert a + b == b;
    }
  }

  /** Text without special characters (and, when `words`, without whitespace). */
  predicate Plain(s: string, words: bool) {
    s == [] || (!IsSpecial(s[0]) && (words ==> !IsSpace(s[0])) && Plain(s[1..], words))
  }

  /** A string without special characters is its own escape. */
  lemma {:induction false} EscapePlain(s: string, words: bool)
    requires Plain(s, words)
    ensures Escape(s) == s
  {
    if s != [] {
      EscapePlain(s[1..], words);
    }
  }

  /** A term: bare when it is one word, quoted when it is a phrase. */
  function RenderTerm(value: string, fuzziness: Option<string>): string {
    (if HasSpace(value) then "\"" + Escape(value) + "\"" else Escape(value))
    + (if fuzziness.Some? then "~" else "")
  }

  function Join(parts: seq<string>, sep: string): string {
    if parts == [] then ""
    else if |parts| == 1 then parts[0]
    else parts[0] + sep + Join(parts[1..], sep)
  }

  /** Two or more rendered elements, parenthesised and joined by the operator. */
  function Group(parts: seq<string>, op: string): string {
    "(" + Join(parts, " " + op + " ") + ")"
  }

  function Render(q: Query): string
    decreases q, 1
  {
    match q
    case Term(v, f) => RenderTerm(v, f)
    case Collection(op, p, _) =>
      var parts := RenderFrom(q, 0);
      var raw := if parts == [] then "" else if |parts| == 1 then parts[0] else "(" + Join(parts, " " + op + " ") + ")";
      if p && raw != "" then "-" + raw else raw
  }

  /** The non-empty renderings of elements `i..` of a collection. */
  function RenderFrom(q: Query, i: nat): (parts: seq<string>)
    requires q.Collection? && i <= |q.elements|
    ensures |parts| <= |q.elements| - i
    ensures forall s :: s in parts ==> s != ""
    decreases q, 0, |q.elements| - i
  {
    if i == |q.elements| then []
    else
      var s := Render(q.elements[i]);
      if s == "" then RenderFrom(q, i + 1) else [s] + RenderFrom(q, i + 1)
  }

  /** When no element renders empty, the parts are the elements' renderings in order. */
  lemma {:induction false} RenderFromAll(c: Query, i: nat)
    requires c.Collection? && i <= |c.elements|
    requires forall j :: 0 <= j < |c.elements| ==> Render(c.elements[j]) != ""
    ensures |RenderFrom(c, i)| == |c.elements| - i
    ensures forall j :: 0 <= j < |c.elements| - i ==> RenderFrom(c, i)[j] == Render(c.elements[i + j])
    decreases |c.elements| - i
  {
    if i < |c.elements| {
      RenderFromAll(c, i + 1);
      var rest := RenderFrom(c, i + 1);
      assert RenderFrom(c, i) == [Render(c.elements[i])] + rest;
    }
  }

  /** The rendering of a collection none of whose elements renders empty. */
  lemma RenderCollection(c: Query)
    requires c.Collection? && forall j :: 0 <= j < |c.elements| ==> Render(c.elements[j]) != ""
    ensures
      var parts := seq(|c.elements|, j requires 0 <= j < |c.elements| => Render(c.elements[j]));
      var prefix := if c.prohibited then "-" else "";
      var body := if |parts| <= 1 then Join(parts, "") else Group(parts, c.operator);
      Render(c) == if parts == [] then "" else prefix + body
  {
    RenderFromAll(c, 0);
    var parts := seq(|c.elements|, j requires 0 <= j < |c.elements| => Render(c.elements[j]));
    assert RenderFrom(c, 0) == parts;
  }

  /** The rendering of a collection whose elements render to the non-empty `parts`. */
  lemma RenderParts(c: Query, parts: seq<string>)
    requires c.Collection? && |parts| == |c.elements|
    requires forall j :: 0 <= j < |parts| ==> Render(c.elements[j]) == parts[j] != ""
    ensures parts == [] ==> Render(c) == ""
    ensures |parts| == 1 ==> Render(c) == (if c.prohibited then "-" + parts[0] else parts[0])
    ensures |parts| > 1 ==> Render(c) == (if c.prohibited then "-" + Group(parts, c.operator) else Group(parts, c.operator))
  {
    RenderFromAll(c, 0);
    assert RenderFrom(c, 0) == parts;
  }

  /** A collection of two non-blank elements renders as `(x op y)`. */
  lemma RenderPair(c: Query, x: string, y: string)
    requires c.Collection? && !c.prohibited && |c.elements| == 2
    requires Render(c.elements[0]) == x != "" && Render(c.elements[1]) == y != ""
    ensures Render(c) == Group([x, y], c.operator)
  {
    RenderParts(c, [x, y]);
  }

  /** A word of ordinary characters renders as itself, with `~` when fuzzy. */
  lemma RenderWord(s: string, f: Option<string>)
    requires Plain(s, true)
    ensures Render(Term(s, f)) == s + (if f.Some? then "~" else "")
  {
    EscapePlain(s, true);
    NoSpace(s);
  }

  lemma {:induction false} NoSpace(s: string)
    requires Plain(s, true)
    ensures !HasSpace(s)
  {
    if s != [] {
      NoSpace(s[1..]);
    }
  }

  /** A phrase renders quoted, with its special characters escaped. */
  lemma RenderPhrase(s: string, f: Option<string>)
    requires HasSpace(s)
    ensures Render(Term(s, f)) == "\"" + Escape(s) + "\"" + (if f.Some? then "~" else "")
  {
  }

  /** A stand-alone dash between ordinary text is escaped. */
  lemma EscapeDash(a: string, b: string)
    requires Plain(a, false) && Plain(b, false)
    ensures Escape(a + "-" + b) == a + "\\-" + b
  {
    EscapeAppend(a + "-", b);
    EscapeAppend(a, "-");
    EscapePlain(a, false);
    EscapePlain(b, false);
    assert Escape("-") == "\\-" by {
      assert IsSpecial("-"[0]) && "-"[1..] == [];
    }
    calc {
      Escape(a + "-" + b);
      Escape(a + "-") + Escape(b);
      Escape(a) + Escape("-") + Escape(b);
      a + "\\-" + b;
    }
  }

  /** A term never renders as the empty string. */
  lemma TermNotBlank(v: string, f: Option<string>)
    requires v != ""
    ensures Render(Term(v, f)) != ""
  {
    assert |Escape(v)| >= 1;
  }

  /** One rendered element is not parenthesised: the collection is that element. */
  lemma SingleElementCollapses(op: string, x: Query)
    requires Render(x) != ""
    ensures Render(Collection(op, false, [x])) == Render(x)
    ensures Render(Collection(op, true, [x])) == "-" + Render(x)
  {
    var c := Collection(op, false, [x]);
    assert RenderFrom(c, 0) == [Render(x)];
    var d := Collection(op, true, [x]);
    assert RenderFrom(d, 0) == [Render(x)];
  }
}
