/**
 * The PHP values the compilers build and read: scalars, ordered arrays, and the
 * two objects that reach the wire or the index (`(object) NULL` and Search
 * API's TextValue).  Arrays keep insertion order, as the request bodies and
 * the tests depend on it.
 */
module Php {
  import opened Wrappers
  import opened Dict

  datatype Key = IntKey(i: int) | StrKey(s: string)

  datatype Value =
    | Null
    | Bool(b: bool)
    | Int(i: int)
      /** A float is carried through, never computed on; `repr` is PHP's own string form of it. */
    | Float(repr: string)
    | Str(s: string)
    | Arr(entries: seq<(Key, Value)>)
      /** `(object) NULL`, which encodes as `{}`. */
    | EmptyObject
      /** Search API's TextValue object; `toText()` gives `text`. */
    | TextValue(text: string)

  /** PHP's `empty()`, and the negation of a `(bool)` cast. */
  predicate Empty(v: Value) {
    match v
    case Null => true
    case Bool(b) => !b
    case Int(i) => i == 0
    case Float(r) => r == "0" || r == "-0"
    case Str(s) => s == "" || s == "0"
    case Arr(es) => es == []
    case EmptyObject => false
    case TextValue(_) => false
  }

  /** PHP's `(bool)` cast. */
  function ToBool(v: Value): (r: Value)
    ensures r.Bool? && (r.b <==> !Empty(v))
    ensures !Empty(v) ==> !Empty(r)
  {
    Bool(!Empty(v))
  }

  /** Reading `$v[$k]`: null when `$v` is no array or lacks the key (PHP warns and yields null). */
  function At(v: Value, k: Key): (r: Value)
    ensures v.Arr? && HasKey(v.entries, k) ==> Get(v.entries, k) == Some(r)
    ensures !v.Arr? || !HasKey(v.entries, k) ==> r == Null
  {
    if v.Arr? then
      match Get(v.entries, k)
      case Some(x) => x
      case None => Null
    else Null
  }

  /** Reading `$v['name']`. */
  function Prop(v: Value, name: string): Value {
    At(v, StrKey(name))
  }

  /** PHP's `isset($v[$k])`: the key is there and its value is not null. */
  predicate Isset(v: Value, k: Key) {
    At(v, k) != Null
  }

  /** Reading `$v[$i]` with an integer offset, on an array or on a string. */
  function Offset(v: Value, i: int): (r: Value)
    ensures v.Str? && 0 <= i < |v.s| ==> r == Str([v.s[i]])
    ensures v.Arr? ==> r == At(v, IntKey(i))
  {
    match v
    case Arr(_) => At(v, IntKey(i))
    case Str(s) => if 0 <= i < |s| then Str([s[i]]) else Null
    case _ => Null
  }

  /** Writing `$v[$k] = $x`; a null (or missing) `$v` becomes an array. */
  function SetAt(v: Value, k: Key, x: Value): (r: Value)
    ensures r.Arr?
  {
    Arr(Put(if v.Arr? then v.entries else [], k, x))
  }

  /** After `$v[$k] = $x`, `$v[$k]` is `$x` and every other key reads as before. */
  lemma SetAtRead(v: Value, k: Key, x: Value, k': Key)
    ensures At(SetAt(v, k, x), k') == if k' == k then x else At(v, k')
  {
    PutGet(if v.Arr? then v.entries else [], k, x, k');
  }

  /** Writing `$v[$k1][$k2]...[$kn] = $x`, creating the intermediate arrays. */
  function SetPath(v: Value, path: seq<Key>, x: Value): (r: Value)
    requires path != []
    ensures r.Arr?
    decreases |path|
  {
    if |path| == 1 then SetAt(v, path[0], x)
    else SetAt(v, path[0], SetPath(At(v, path[0]), path[1..], x))
  }

  /** An associative literal of one entry. */
  lemma AssocOne(a: string, x: Value)
    ensures Assoc([(a, x)]) == Arr([(StrKey(a), x)])
  {
  }

  /** An associative literal of two entries. */
  lemma AssocTwo(a: string, x: Value, b: string, y: Value)
    ensures Assoc([(a, x), (b, y)]) == Arr([(StrKey(a), x), (StrKey(b), y)])
  {
  }

  /** Writing a new key appends it. */
  lemma SetAtNew(es: seq<(Key, Value)>, k: Key, x: Value)
    requires !HasKey(es, k)
    ensures SetAt(Arr(es), k, x) == Arr(es + [(k, x)])
  {
  }

  /** Writing to null makes a one-entry array. */
  lemma SetAtNull(k: Key, x: Value)
    ensures SetAt(Null, k, x) == Arr([(k, x)])
  {
  }

  /** Writing the last key again replaces its value. */
  lemma SetAtLast(es: seq<(Key, Value)>, k: Key, v: Value, x: Value)
    requires !HasKey(es, k)
    ensures SetAt(Arr(es + [(k, v)]), k, x) == Arr(es + [(k, x)])
  {
    PutLast(es, k, v, x);
  }

  /** `$v[$a][$b] = $x` writes `$v[$a]` with `$v[$a][$b]` set. */
  lemma SetPath2(v: Value, a: Key, b: Key, x: Value)
    ensures SetPath(v, [a, b], x) == SetAt(v, a, SetAt(At(v, a), b, x))
  {
    assert [a, b][1..] == [b];
  }

  /** `$v[$a][$b][$c] = $x` writes `$v[$a]` with `$v[$a][$b][$c]` set. */
  lemma SetPath3(v: Value, a: Key, b: Key, c: Key, x: Value)
    ensures SetPath(v, [a, b, c], x) == SetAt(v, a, SetPath(At(v, a), [b, c], x))
  {
    assert [a, b, c][1..] == [b, c];
  }

  /** `unset($v[$k])`; a missing key leaves the array as it is. */
  function Unset(v: Value, k: Key): (r: Value)
    ensures v.Arr? && !HasKey(v.entries, k) ==> r == v
    ensures At(r, k) == Null
    ensures forall k' :: k' != k ==> At(r, k') == At(v, k')
  {
    if v.Arr? then Arr(Remove(v.entries, k)) else v
  }

  /** The key `$v[] = $x` uses: one past the largest non-negative integer key, or 0. */
  function NextIndex(es: seq<(Key, Value)>): (n: nat)
    ensures forall j :: 0 <= j < |es| && es[j].0.IntKey? ==> es[j].0.i < n
  {
    if es == [] then 0
    else
      var rest := NextIndex(es[1..]);
      assert forall j :: 1 <= j < |es| ==> es[j] == es[1..][j - 1];
      if es[0].0.IntKey? && es[0].0.i >= rest then es[0].0.i + 1 else rest
  }

  /** Writing `$v[] = $x`. */
  function Push(v: Value, x: Value): (r: Value)
    ensures r.Arr?
    ensures v.Arr? ==> |r.entries| == |v.entries| + 1 && r.entries[..|v.entries|] == v.entries
    ensures |r.entries| > 0 && r.entries[|r.entries| - 1].1 == x
  {
    var es := if v.Arr? then v.entries else [];
    Arr(es + [(IntKey(NextIndex(es)), x)])
  }

  /** `$v[] = $x` on a list appends `$x` to it. */
  lemma PushList(vs: seq<Value>, x: Value)
    ensures Push(List(vs), x) == List(vs + [x])
  {
    NextIndexFrom(List(vs).entries, 0);
  }

  /** Entries keyed `off`, `off + 1`, ... are followed by key `off + |es|`. */
  lemma {:induction false} NextIndexFrom(es: seq<(Key, Value)>, off: nat)
    requires forall j :: 0 <= j < |es| ==> es[j].0 == IntKey(off + j)
    ensures NextIndex(es) == if es == [] then 0 else off + |es|
  {
    if es != [] {
      NextIndexFrom(es[1..], off + 1);
    }
  }

  /** A list: the values keyed 0, 1, 2, ... (what `array_values` returns). */
  function List(vs: seq<Value>): (r: Value)
    ensures r.Arr? && |r.entries| == |vs|
    ensures forall i :: 0 <= i < |vs| ==> r.entries[i] == (IntKey(i), vs[i])
  {
    Arr(seq(|vs|, i requires 0 <= i < |vs| => (IntKey(i), vs[i])))
  }

  /** A list value is one whose keys are 0, 1, 2, ... in order. */
  predicate IsList(v: Value) {
    v.Arr? && forall i :: 0 <= i < |v.entries| ==> v.entries[i].0 == IntKey(i)
  }

  /** An array with string keys, written as a literal. */
  function Assoc(es: seq<(string, Value)>): (r: Value)
    ensures r.Arr? && |r.entries| == |es|
    ensures forall i :: 0 <= i < |es| ==> r.entries[i] == (StrKey(es[i].0), es[i].1)
  {
    Arr(seq(|es|, i requires 0 <= i < |es| => (StrKey(es[i].0), es[i].1)))
  }

  /** Reading an entry of an array literal whose name no earlier entry has. */
  lemma PropAssoc(es: seq<(string, Value)>, i: nat)
    requires i < |es| && forall j :: 0 <= j < i ==> es[j].0 != es[i].0
    ensures Prop(Assoc(es), es[i].0) == es[i].1
  {
    GetAt(Assoc(es).entries, i);
  }

  /** Reading a name an array literal lacks gives null. */
  lemma PropAssocMissing(es: seq<(string, Value)>, name: string)
    requires forall j :: 0 <= j < |es| ==> es[j].0 != name
    ensures Prop(Assoc(es), name) == Null
  {
    assert !HasKey(Assoc(es).entries, StrKey(name));
  }

  function DigitChar(d: nat): char
    requires d < 10
  {
    "0123456789"[d]
  }

  function NatToString(n: nat): (s: string)
    ensures |s| >= 1
    ensures forall i :: 0 <= i < |s| ==> '0' <= s[i] <= '9'
    ensures n > 0 ==> s[0] != '0'
  {
    if n < 10 then [DigitChar(n)] else NatToString(n / 10) + [DigitChar(n % 10)]
  }

  /** PHP's decimal form of an integer. */
  function IntToString(i: int): string {
    if i < 0 then "-" + NatToString(-i) else NatToString(i)
  }

  /**
   * PHP's `(string)` cast and string concatenation operand.  (PHP raises an
   * Error for `(object) NULL`; no caller here converts one.)
   */
  function ToStr(v: Value): string {
    match v
    case Null => ""
    case Bool(b) => if b then "1" else ""
    case Int(i) => IntToString(i)
    case Float(r) => r
    case Str(s) => s
    case Arr(_) => "Array"
    case EmptyObject => ""
    case TextValue(t) => t
  }
}
