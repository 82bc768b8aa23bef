/** PHP values and the few array operations the router relies on.

    A PHP array is an ordered sequence of entries, each either auto-indexed
    (positional) or string-keyed.  The command vectors built by the router are
    such arrays: the positional entries are what the analytics engine sees as its
    argument list, the keyed entries are associations read by the handlers. */
module Php {

  datatype Option<T> = None | Some(value: T)

  /** A value as it reaches the router from a decoded JSON body, a query string or
      a path.  JSON numbers and booleans are represented by the string PHP
      converts them to. */
  datatype Value = Null | Str(s: string) | Arr(items: seq<Item>)

  /** One entry of a PHP array. */
  datatype Item = Pos(v: Value) | Named(key: string, v: Value)

  /** PHP's `empty()`: null, "", "0" and the empty array. */
  predicate Empty(v: Value) {
    v == Null || v == Str("") || v == Str("0") || v == Arr([])
  }

  /** PHP truthiness, as `if ($x)` reads it. */
  predicate Truthy(v: Value) {
    !Empty(v)
  }

  /** String conversion as done by the `.` operator. */
  function ToStr(v: Value): string {
    match v
    case Null => ""
    case Str(s) => s
    case Arr(_) => "Array"
  }

  /** The values of an array, in order, whatever their keys. */
  function Values(items: seq<Item>): seq<Value> {
    if items == [] then [] else [items[0].v] + Values(items[1..])
  }

  lemma {:induction false} ValuesEach(items: seq<Item>)
    ensures |Values(items)| == |items|
    ensures forall i :: 0 <= i < |items| ==> Values(items)[i] == items[i].v
  {
    if items != [] {
      ValuesEach(items[1..]);
    }
  }

  /** The `(array)` cast: null gives [], a scalar gives a one-element array. */
  function AsList(v: Value): seq<Value> {
    match v
    case Null => []
    case Str(_) => [v]
    case Arr(items) => Values(items)
  }

  /** What `foreach ($v as $x)` visits: the values of an array, and nothing for a
      scalar (PHP only warns). */
  function Iterate(v: Value): seq<Value> {
    match v
    case Arr(items) => Values(items)
    case _ => []
  }

  /** The auto-indexed entries, in order: what `$command[0]`, `$command[1]`, ...
      read after `array_merge` has renumbered them. */
  function Positional(items: seq<Item>): seq<Value> {
    if items == [] then []
    else (if items[0].Pos? then [items[0].v] else []) + Positional(items[1..])
  }

  /** `array_key_exists($k, $a) ? $a[$k] : none`. */
  function Lookup(items: seq<Item>, k: string): Option<Value> {
    if items == [] then None
    else if items[0].Named? && items[0].key == k then Some(items[0].v)
    else Lookup(items[1..], k)
  }

  /** A key that no entry carries is absent. */
  lemma {:induction false} LookupAbsent(items: seq<Item>, k: string)
    requires forall i :: 0 <= i < |items| ==> !(items[i].Named? && items[i].key == k)
    ensures Lookup(items, k).None?
  {
    if items != [] {
      assert items[0] == items[0];
      LookupAbsent(items[1..], k);
    }
  }

  /** `$a[$k] ?? null`. */
  function Get(items: seq<Item>, k: string): Value {
    match Lookup(items, k)
    case Some(v) => v
    case None => Null
  }

  /** `$a[$k] = $v`: an existing key keeps its place, a new one is appended. */
  function Set(items: seq<Item>, k: string, v: Value): (r: seq<Item>)
    ensures Lookup(r, k) == Some(v)
    ensures forall k' :: k' != k ==> Lookup(r, k') == Lookup(items, k')
    ensures Positional(r) == Positional(items)
  {
    if items == [] then [Named(k, v)]
    else if items[0].Named? && items[0].key == k then [Named(k, v)] + items[1..]
    else [items[0]] + Set(items[1..], k, v)
  }

  /** `array_merge($a, $b)`: positional entries of `b` are appended and
      renumbered, keyed entries of `b` overwrite those of `a` in place or are
      appended. */
  function Merge(a: seq<Item>, b: seq<Item>): seq<Item>
    decreases |b|
  {
    if b == [] then a
    else match b[0]
      case Pos(v) => Merge(a + [Pos(v)], b[1..])
      case Named(k, v) => Merge(Set(a, k, v), b[1..])
  }

  /** `str_replace($a, $b, $s)` for single characters. */
  function ReplaceChar(s: string, a: char, b: char): string {
    if s == [] then [] else [if s[0] == a then b else s[0]] + ReplaceChar(s[1..], a, b)
  }

  lemma {:induction false} ReplaceCharEach(s: string, a: char, b: char)
    ensures |ReplaceChar(s, a, b)| == |s|
    ensures forall i :: 0 <= i < |s| ==> ReplaceChar(s, a, b)[i] == (if s[i] == a then b else s[i])
  {
    if s != [] {
      ReplaceCharEach(s[1..], a, b);
    }
  }

  lemma {:induction false} ReplaceCharAppend(s: string, t: string, a: char, b: char)
    ensures ReplaceChar(s + t, a, b) == ReplaceChar(s, a, b) + ReplaceChar(t, a, b)
  {
    if s == [] {
      assert s + t == t;
    } else {
      assert (s + t)[0] == s[0];
      assert (s + t)[1..] == s[1..] + t;
      ReplaceCharAppend(s[1..], t, a, b);
    }
  }

  /** A string without the replaced character is left as it is. */
  lemma {:induction false} ReplaceCharNone(s: string, a: char, b: char)
    requires a !in s
    ensures ReplaceChar(s, a, b) == s
  {
    if s != [] {
      assert s[0] != a;
      assert a !in s[1..];
      ReplaceCharNone(s[1..], a, b);
    }
  }

  /** Decimal rendering of an integer key, as PHP prints it. */
  function NatToString(n: nat): (r: string)
    ensures |r| > 0
    ensures forall i :: 0 <= i < |r| ==> '0' <= r[i] <= '9'
  {
    if n < 10 then [Digit(n)] else NatToString(n / 10) + [Digit(n % 10)]
  }

  function Digit(d: nat): (c: char)
    requires d < 10
    ensures '0' <= c <= '9'
  {
    ['0', '1', '2', '3', '4', '5', '6', '7', '8', '9'][d]
  }

  lemma {:induction false} PositionalAppend(a: seq<Item>, b: seq<Item>)
    ensures Positional(a + b) == Positional(a) + Positional(b)
  {
    if a != [] {
      var head := if a[0].Pos? then [a[0].v] else [];
      assert (a + b)[0] == a[0];
      assert (a + b)[1..] == a[1..] + b;
      PositionalAppend(a[1..], b);
      assert Positional(a + b) == head + Positional(a[1..] + b);
      assert Positional(a) == head + Positional(a[1..]);
    } else {
      assert a + b == b;
    }
  }

  /** array_merge keeps every positional entry of both arguments, in order. */
  lemma {:induction false} MergePositional(a: seq<Item>, b: seq<Item>)
    ensures Positional(Merge(a, b)) == Positional(a) + Positional(b)
    decreases |b|
  {
    if b != [] {
      match b[0]
      case Pos(v) =>
        MergePositional(a + [Pos(v)], b[1..]);
        PositionalAppend(a, [Pos(v)]);
        assert Positional(b) == [v] + Positional(b[1..]);
      case Named(k, v) =>
        MergePositional(Set(a, k, v), b[1..]);
        assert Positional(b) == Positional(b[1..]);
    }
  }

  /** A key of `a` that `b` does not mention keeps its value across array_merge. */
  lemma {:induction false} MergeLookupLeft(a: seq<Item>, b: seq<Item>, k: string)
    requires Lookup(b, k).None?
    ensures Lookup(Merge(a, b), k) == Lookup(a, k)
    decreases |b|
  {
    if b != [] {
      match b[0]
      case Pos(v) =>
        MergeLookupLeft(a + [Pos(v)], b[1..], k);
        LookupAppendPos(a, v, k);
      case Named(k', v) =>
        MergeLookupLeft(Set(a, k', v), b[1..], k);
    }
  }

  lemma {:induction false} LookupAppendPos(a: seq<Item>, v: Value, k: string)
    ensures Lookup(a + [Pos(v)], k) == Lookup(a, k)
  {
    if a != [] {
      assert (a + [Pos(v)])[1..] == a[1..] + [Pos(v)];
      LookupAppendPos(a[1..], v, k);
    }
  }

  /** Replacing `a` by `b` and back is the identity on strings without `b`:
      the renaming is reversible, hence injective. */
  lemma ReplaceCharRoundTrip(s: string, a: char, b: char)
    requires b !in s
    ensures ReplaceChar(ReplaceChar(s, a, b), b, a) == s
  {
    var t := ReplaceChar(ReplaceChar(s, a, b), b, a);
    ReplaceCharEach(s, a, b);
    ReplaceCharEach(ReplaceChar(s, a, b), b, a);
    assert |t| == |s|;
    forall i | 0 <= i < |s| ensures t[i] == s[i] {
      assert s[i] != b;
    }
  }

  lemma ReplaceCharInjective(s: string, t: string, a: char, b: char)
    requires b !in s && b !in t
    requires ReplaceChar(s, a, b) == ReplaceChar(t, a, b)
    ensures s == t
  {
    ReplaceCharRoundTrip(s, a, b);
    ReplaceCharRoundTrip(t, a, b);
  }
}
