/** What RouterFactory's three helpers append to a command vector:
    `applyIfNotEmpty` (allow-listed request fields), `applyListParams`
    (paging, sorting and filter query parameters) and `applyAttributes`
    (`name=value` attribute pairs).  The functions here state the result; the
    looping methods of `Factory.RouterFactory` are proved to compute it. */
module Builders {
  import opened Php
  import opened Command

  // ---------------------------------------------------------------------------
  // applyIfNotEmpty

  /** An allow-list: request field name and flag name, in declaration order. */
  type AllowList = seq<(string, string)>

  /** The `'fields' => $fields` entry. */
  function FieldItems(fields: AllowList): seq<Item> {
    if fields == [] then [] else [Named(fields[0].0, Str(fields[0].1))] + FieldItems(fields[1..])
  }

  /** The entry lists every allow-list pair as `from => to`, in order. */
  lemma {:induction false} FieldItemsEach(fields: AllowList)
    ensures |FieldItems(fields)| == |fields|
    ensures forall i :: 0 <= i < |fields| ==> FieldItems(fields)[i] == Named(fields[i].0, Str(fields[i].1))
  {
    if fields != [] {
      FieldItemsEach(fields[1..]);
    }
  }

  /** One pair per value, all under `flag`. */
  function ArgsFor(flag: string, vs: seq<Value>): seq<Arg> {
    if vs == [] then [] else [Arg(flag, vs[0])] + ArgsFor(flag, vs[1..])
  }

  lemma {:induction false} ArgsForEach(flag: string, vs: seq<Value>)
    ensures |ArgsFor(flag, vs)| == |vs|
    ensures forall i :: 0 <= i < |vs| ==> ArgsFor(flag, vs)[i] == Arg(flag, vs[i])
  {
    if vs != [] {
      ArgsForEach(flag, vs[1..]);
    }
  }

  lemma {:induction false} ArgsForSnoc(flag: string, vs: seq<Value>, v: Value)
    ensures ArgsFor(flag, vs + [v]) == ArgsFor(flag, vs) + [Arg(flag, v)]
  {
    if vs == [] {
      assert vs + [v] == [v];
      assert [v][1..] == [];
    } else {
      assert (vs + [v])[1..] == vs[1..] + [v];
      ArgsForSnoc(flag, vs[1..], v);
    }
  }

  /** All the values of a uniform run stand under its flag, in order. */
  lemma ArgsForUnder(flag: string, vs: seq<Value>)
    ensures ValuesUnder(ArgsFor(flag, vs), flag) == vs
  {
    ArgsForEach(flag, vs);
    ValuesUnderUniform(ArgsFor(flag, vs), flag);
  }

  /** The pairs one allow-list entry contributes: none when the key is absent,
      otherwise one per element of `(array)$request[$from]`. */
  function FieldArgs(request: seq<Item>, field: (string, string)): seq<Arg> {
    match Lookup(request, field.0)
    case None => []
    case Some(v) => ArgsFor(field.1, AsList(v))
  }

  /** `(array)$request[$from]`, or nothing when the key is absent. */
  function FieldValues(request: seq<Item>, from: string): seq<Value> {
    match Lookup(request, from)
    case None => []
    case Some(v) => AsList(v)
  }

  /** Under its own flag an entry's pairs hold exactly its values. */
  lemma FieldArgsUnder(request: seq<Item>, field: (string, string))
    ensures ValuesUnder(FieldArgs(request, field), field.1) == FieldValues(request, field.0)
  {
    match Lookup(request, field.0)
    case None =>
    case Some(v) => ArgsForUnder(field.1, AsList(v));
  }

  /** The pairs of the whole allow-list, walked in the allow-list's order. */
  function IfNotEmptyArgs(request: seq<Item>, fields: AllowList): seq<Arg>
    decreases |fields|
  {
    if fields == [] then []
    else IfNotEmptyArgs(request, fields[..|fields| - 1]) + FieldArgs(request, fields[|fields| - 1])
  }

  /** One more allow-list entry appends its pairs. */
  lemma IfNotEmptyArgsStep(request: seq<Item>, fields: AllowList, i: nat)
    requires i < |fields|
    ensures IfNotEmptyArgs(request, fields[..i + 1]) == IfNotEmptyArgs(request, fields[..i]) + FieldArgs(request, fields[i])
  {
    assert fields[..i + 1][..i] == fields[..i];
  }

  /** The array `applyIfNotEmpty($request, $fields)` returns. */
  function IfNotEmpty(request: seq<Item>, fields: AllowList): seq<Item> {
    [Named("request", Arr(request)), Named("fields", Arr(FieldItems(fields)))]
      + Flatten(IfNotEmptyArgs(request, fields))
  }

  /** The result keeps the request and the allow-list under their own keys:
      the pairs after them are all positional. */
  lemma IfNotEmptyNamed(request: seq<Item>, fields: AllowList)
    ensures Lookup(IfNotEmpty(request, fields), "request") == Some(Arr(request))
    ensures Lookup(IfNotEmpty(request, fields), "fields") == Some(Arr(FieldItems(fields)))
  {
    var head := [Named("request", Arr(request)), Named("fields", Arr(FieldItems(fields)))];
    FlattenAllPos(IfNotEmptyArgs(request, fields));
    LookupAppendPositional(head, Flatten(IfNotEmptyArgs(request, fields)), "request");
    LookupAppendPositional(head, Flatten(IfNotEmptyArgs(request, fields)), "fields");
  }

  predicate DistinctTargets(fields: AllowList) {
    forall i, j :: 0 <= i < j < |fields| ==> fields[i].1 != fields[j].1
  }

  /** Dropping the last entry keeps the targets distinct, and that entry's
      target is none of the others. */
  lemma DistinctInit(fields: AllowList, init: AllowList)
    requires DistinctTargets(fields) && fields != [] && init == fields[..|fields| - 1]
    ensures DistinctTargets(init)
    ensures forall k :: 0 <= k < |init| ==> init[k].1 != fields[|fields| - 1].1
  {
  }

  /** The allow-list is walked in its own order: splitting it splits the result. */
  lemma {:induction false} IfNotEmptyConcat(request: seq<Item>, f1: AllowList, f2: AllowList)
    ensures IfNotEmptyArgs(request, f1 + f2) == IfNotEmptyArgs(request, f1) + IfNotEmptyArgs(request, f2)
    decreases |f2|
  {
    if f2 == [] {
      assert f1 + f2 == f1;
    } else {
      var g := f2[..|f2| - 1];
      var last := f2[|f2| - 1];
      var all := f1 + f2;
      assert all[..|all| - 1] == f1 + g;
      assert all[|all| - 1] == last;
      IfNotEmptyConcat(request, f1, g);
      var a1, ag, fl := IfNotEmptyArgs(request, f1), IfNotEmptyArgs(request, g), FieldArgs(request, last);
      assert IfNotEmptyArgs(request, all) == IfNotEmptyArgs(request, f1 + g) + fl;
      assert IfNotEmptyArgs(request, f2) == ag + fl;
      assert (a1 + ag) + fl == a1 + (ag + fl);
    }
  }

  /** The request's own order, and its keys outside the allow-list, make no
      difference: only the lookups of allow-listed keys do. */
  lemma {:induction false} IfNotEmptyIgnoresRequestOrder(r1: seq<Item>, r2: seq<Item>, fields: AllowList)
    requires forall i :: 0 <= i < |fields| ==> Lookup(r1, fields[i].0) == Lookup(r2, fields[i].0)
    ensures IfNotEmptyArgs(r1, fields) == IfNotEmptyArgs(r2, fields)
    decreases |fields|
  {
    if fields != [] {
      var g := fields[..|fields| - 1];
      assert forall i :: 0 <= i < |g| ==> g[i] == fields[i];
      IfNotEmptyIgnoresRequestOrder(r1, r2, g);
      assert Lookup(r1, fields[|fields| - 1].0) == Lookup(r2, fields[|fields| - 1].0);
    }
  }

  /** A flag named by no allow-list entry is never emitted. */
  lemma {:induction false} IfNotEmptyUnlisted(request: seq<Item>, fields: AllowList, flag: string)
    requires forall i :: 0 <= i < |fields| ==> fields[i].1 != flag
    ensures ValuesUnder(IfNotEmptyArgs(request, fields), flag) == []
    decreases |fields|
  {
    if fields != [] {
      var g := fields[..|fields| - 1];
      var last := fields[|fields| - 1];
      assert forall i :: 0 <= i < |g| ==> g[i] == fields[i];
      IfNotEmptyUnlisted(request, g, flag);
      ValuesUnderAppend(IfNotEmptyArgs(request, g), FieldArgs(request, last), flag);
      FieldArgsFlag(request, last);
      ValuesUnderAbsent(FieldArgs(request, last), flag);
    }
  }

  lemma FieldArgsFlag(request: seq<Item>, field: (string, string))
    ensures forall k :: 0 <= k < |FieldArgs(request, field)| ==> FieldArgs(request, field)[k].flag == field.1
  {
    match Lookup(request, field.0)
    case None =>
    case Some(v) => ArgsForEach(field.1, AsList(v));
  }

  /** Under an allow-listed flag stand exactly the elements of `(array)` of the
      request value: nothing for an absent key or a null value, one pair for a
      scalar (an empty string included), one per element for an array. */
  lemma {:induction false} IfNotEmptyValues(request: seq<Item>, fields: AllowList, i: nat)
    requires DistinctTargets(fields) && i < |fields|
    ensures ValuesUnder(IfNotEmptyArgs(request, fields), fields[i].1) == FieldValues(request, fields[i].0)
    decreases |fields|
  {
    var g := fields[..|fields| - 1];
    var last := fields[|fields| - 1];
    var flag := fields[i].1;
    DistinctInit(fields, g);
    assert IfNotEmptyArgs(request, fields) == IfNotEmptyArgs(request, g) + FieldArgs(request, last);
    ValuesUnderAppend(IfNotEmptyArgs(request, g), FieldArgs(request, last), flag);
    if i == |fields| - 1 {
      IfNotEmptyUnlisted(request, g, flag);
      FieldArgsUnder(request, last);
    } else {
      assert g[i] == fields[i];
      IfNotEmptyValues(request, g, i);
      FieldArgsFlag(request, last);
      ValuesUnderAbsent(FieldArgs(request, last), flag);
    }
  }

  /** Every emitted flag comes from the allow-list. */
  lemma {:induction false} IfNotEmptyFlagsListed(request: seq<Item>, fields: AllowList, k: nat)
    requires k < |IfNotEmptyArgs(request, fields)|
    ensures exists i :: 0 <= i < |fields| && IfNotEmptyArgs(request, fields)[k].flag == fields[i].1
    decreases |fields|
  {
    var g := fields[..|fields| - 1];
    var last := fields[|fields| - 1];
    var pre := IfNotEmptyArgs(request, g);
    if k < |pre| {
      IfNotEmptyFlagsListed(request, g, k);
      var i :| 0 <= i < |g| && pre[k].flag == g[i].1;
      assert g[i] == fields[i];
    } else {
      assert IfNotEmptyArgs(request, fields)[k] == FieldArgs(request, last)[k - |pre|];
      FieldArgsFlag(request, last);
      assert IfNotEmptyArgs(request, fields)[k].flag == fields[|fields| - 1].1;
    }
  }

  // ---------------------------------------------------------------------------
  // applyListParams

  /** `str_replace('_', '-', $key)`. */
  function Dashed(key: string): string {
    ReplaceChar(key, '_', '-')
  }

  /** Distinct recognised keys are emitted under distinct flags: none of them
      contains a `-`, so the renaming can be undone. */
  lemma DashedDistinct(k1: string, k2: string)
    requires IsListKey(k1) && IsListKey(k2) && k1 != k2
    ensures Dashed(k1) != Dashed(k2)
  {
    assert '-' !in k1 && '-' !in k2;
    if Dashed(k1) == Dashed(k2) {
      ReplaceCharInjective(k1, k2, '_', '-');
    }
  }

  /** The query keys the switch of `applyListParams` recognises. */
  predicate IsListKey(key: string) {
    key in {"page", "page_size", "sort", "with", "sort_direction", "filter", "filter_not"}
  }

  /** The key PHP gives entry `i`: its own string key, or the next integer key. */
  function EntryKey(items: seq<Item>, i: nat): string
    requires i < |items|
  {
    match items[i]
    case Named(k, _) => k
    case Pos(_) => NatToString(|Positional(items[..i])|)
  }

  /** One filter entry: `key=value` for a scalar, `key[]=v` per element for an array. */
  function EntryArgs(flag: string, key: string, v: Value): seq<Arg> {
    match v
    case Arr(inner) => ArgsFor(flag, FilterElems(key, Values(inner)))
    case _ => [Arg(flag, Str(key + "=" + ToStr(v)))]
  }

  function FilterElems(key: string, vs: seq<Value>): seq<Value> {
    if vs == [] then [] else [Str(key + "[]=" + ToStr(vs[0]))] + FilterElems(key, vs[1..])
  }

  lemma {:induction false} FilterElemsSnoc(key: string, vs: seq<Value>, v: Value)
    ensures FilterElems(key, vs + [v]) == FilterElems(key, vs) + [Str(key + "[]=" + ToStr(v))]
  {
    if vs == [] {
      assert vs + [v] == [v];
      assert [v][1..] == [];
    } else {
      assert (vs + [v])[1..] == vs[1..] + [v];
      FilterElemsSnoc(key, vs[1..], v);
    }
  }

  lemma {:induction false} FilterElemsEach(key: string, vs: seq<Value>)
    ensures |FilterElems(key, vs)| == |vs|
    ensures forall i :: 0 <= i < |vs| ==> FilterElems(key, vs)[i] == Str(key + "[]=" + ToStr(vs[i]))
  {
    if vs != [] {
      FilterElemsEach(key, vs[1..]);
    }
  }

  /** Every pair of one filter entry is under the filter's flag. */
  lemma EntryArgsFlag(flag: string, key: string, v: Value)
    ensures AllFlagged(EntryArgs(flag, key, v), flag)
  {
    match v
    case Arr(inner) => ArgsForEach(flag, FilterElems(key, Values(inner)));
    case _ =>
  }

  /** The pairs of the first `n` entries of a filter mapping. */
  function FilterEntries(flag: string, items: seq<Item>, n: nat): seq<Arg>
    requires n <= |items|
  {
    if n == 0 then [] else FilterEntries(flag, items, n - 1) + EntryArgs(flag, EntryKey(items, n - 1), items[n - 1].v)
  }

  function FilterArgs(flag: string, v: Value): seq<Arg> {
    match v
    case Arr(items) => FilterEntries(flag, items, |items|)
    case _ => []
  }

  /** The pairs one query parameter contributes; a key outside the switch
      contributes none. */
  function KeyArgs(item: Item): seq<Arg> {
    match item
    case Pos(_) => []
    case Named(key, values) =>
      if key == "page" || key == "page_size" then [Arg(Dashed(key), values)]
      else if key == "sort" || key == "with" || key == "sort_direction" then ArgsFor(Dashed(key), Iterate(values))
      else if key == "filter" || key == "filter_not" then FilterArgs(Dashed(key), values)
      else []
  }

  /** The pairs of all query parameters, in the query's order. */
  function ListArgs(params: seq<Item>): seq<Arg>
    decreases |params|
  {
    if params == [] then [] else ListArgs(params[..|params| - 1]) + KeyArgs(params[|params| - 1])
  }

  /** One more query parameter appends its pairs. */
  lemma ListArgsStep(params: seq<Item>, i: nat)
    requires i < |params|
    ensures ListArgs(params[..i + 1]) == ListArgs(params[..i]) + KeyArgs(params[i])
  {
    assert params[..i + 1][..i] == params[..i];
  }

  /** `$command['filter'][$bound] = $value`; writing into a string-valued
      `filter` is an error in PHP, so that case has no result. */
  function WithBound(command: seq<Item>, bound: string, value: Value): Option<seq<Item>> {
    match Lookup(command, "filter")
    case None => Some(Set(command, "filter", Arr([Named(bound, value)])))
    case Some(Null) => Some(Set(command, "filter", Arr([Named(bound, value)])))
    case Some(Str(_)) => None
    case Some(Arr(items)) => Some(Set(command, "filter", Arr(Set(items, bound, value))))
  }

  /** The query parameters with the truthy date bounds stored under `filter`. */
  function WithBounds(params: seq<Item>, start: Value, end: Value): Option<seq<Item>> {
    var afterStart := if Truthy(start) then WithBound(params, "start", start) else Some(params);
    match afterStart
    case None => None
    case Some(c) => if Truthy(end) then WithBound(c, "end", end) else Some(c)
  }

  /** The array `applyListParams($start, $end)` returns, or None when PHP
      raises an error. */
  function ListParams(params: seq<Item>, start: Value, end: Value): Option<seq<Item>> {
    match WithBounds(params, start, end)
    case None => None
    case Some(c) => Some(c + Flatten(ListArgs(params)))
  }

  /** applyListParams fails exactly when a truthy bound is to be stored into a
      string-valued `filter` query parameter. */
  lemma ListParamsFails(params: seq<Item>, start: Value, end: Value)
    ensures ListParams(params, start, end).None? <==>
      (Truthy(start) || Truthy(end)) && Lookup(params, "filter").Some? && Lookup(params, "filter").value.Str?
  {
    if Truthy(start) && WithBound(params, "start", start).Some? {
      WithBoundStored(params, "start", start);
    }
  }

  /** The loop walks the original query parameters, so the bounds never produce
      flags: the positional part is the same with and without them. */
  lemma BoundsOnlyNamed(params: seq<Item>, start: Value, end: Value)
    requires ListParams(params, start, end).Some?
    ensures ListParams(params, Null, Null).Some?
    ensures Positional(ListParams(params, start, end).value) == Positional(ListParams(params, Null, Null).value)
  {
    var c := WithBounds(params, start, end).value;
    WithBoundsPositional(params, start, end);
    PositionalAppend(c, Flatten(ListArgs(params)));
    PositionalAppend(params, Flatten(ListArgs(params)));
  }

  lemma WithBoundsPositional(params: seq<Item>, start: Value, end: Value)
    requires WithBounds(params, start, end).Some?
    ensures Positional(WithBounds(params, start, end).value) == Positional(params)
  {
    if Truthy(start) {
      WithBoundStored(params, "start", start);
    }
    var afterStart := if Truthy(start) then WithBound(params, "start", start).value else params;
    if Truthy(end) {
      WithBoundStored(afterStart, "end", end);
    }
  }

  /** The value under `filter`, when it is an array. */
  function FilterMap(command: seq<Item>): Option<seq<Item>> {
    match Lookup(command, "filter")
    case Some(Arr(items)) => Some(items)
    case _ => None
  }

  /** One bound is stored under `filter`, other keys of `filter` are kept, and
      the positional entries are untouched. */
  lemma WithBoundStored(command: seq<Item>, bound: string, value: Value)
    requires WithBound(command, bound, value).Some?
    ensures FilterMap(WithBound(command, bound, value).value).Some?
    ensures Lookup(FilterMap(WithBound(command, bound, value).value).value, bound) == Some(value)
    ensures forall other :: other != bound && FilterMap(command).Some? ==>
      Lookup(FilterMap(WithBound(command, bound, value).value).value, other) == Lookup(FilterMap(command).value, other)
    ensures Positional(WithBound(command, bound, value).value) == Positional(command)
  {
  }

  /** Truthy bounds are stored in the named `filter` entry. */
  lemma BoundsStored(params: seq<Item>, start: Value, end: Value)
    requires ListParams(params, start, end).Some?
    ensures Truthy(start) || Truthy(end) ==> FilterMap(ListParams(params, start, end).value).Some?
    ensures Truthy(start) ==> Lookup(FilterMap(ListParams(params, start, end).value).value, "start") == Some(start)
    ensures Truthy(end) ==> Lookup(FilterMap(ListParams(params, start, end).value).value, "end") == Some(end)
  {
    var c := WithBounds(params, start, end).value;
    var tail := Flatten(ListArgs(params));
    FlattenAllPos(ListArgs(params));
    LookupAppendPositional(c, tail, "filter");
    assert FilterMap(c + tail) == FilterMap(c);
    var afterStart := if Truthy(start) then WithBound(params, "start", start).value else params;
    if Truthy(start) {
      WithBoundStored(params, "start", start);
    }
    if Truthy(end) {
      WithBoundStored(afterStart, "end", end);
    }
  }

  /** Every query parameter other than `filter` stays in the result as the
      named entry it was, whether or not the switch recognises it. */
  lemma ListParamsKeepsParams(params: seq<Item>, start: Value, end: Value)
    requires ListParams(params, start, end).Some?
    ensures forall k :: k != "filter" ==> Lookup(ListParams(params, start, end).value, k) == Lookup(params, k)
  {
    var c := WithBounds(params, start, end).value;
    var tail := Flatten(ListArgs(params));
    FlattenAllPos(ListArgs(params));
    var afterStart := if Truthy(start) then WithBound(params, "start", start).value else params;
    forall k | k != "filter" ensures Lookup(c + tail, k) == Lookup(params, k) {
      LookupAppendPositional(c, tail, k);
      assert Lookup(afterStart, k) == Lookup(params, k);
    }
  }

  lemma {:induction false} LookupAppendPositional(a: seq<Item>, args: seq<Item>, k: string)
    requires forall i :: 0 <= i < |args| ==> args[i].Pos?
    ensures Lookup(a + args, k) == Lookup(a, k)
    decreases |args|
  {
    if args != [] {
      var front := args[..|args| - 1];
      var last := args[|args| - 1];
      assert last.Pos?;
      assert args == front + [Pos(last.v)];
      assert a + args == (a + front) + [Pos(last.v)];
      LookupAppendPos(a + front, last.v, k);
      assert forall i :: 0 <= i < |front| ==> front[i] == args[i];
      LookupAppendPositional(a, front, k);
    } else {
      assert a + args == a;
    }
  }

  predicate UniqueKey(params: seq<Item>, key: string) {
    forall i, j :: 0 <= i < j < |params| && params[i].Named? && params[j].Named? ==>
      !(params[i].key == key && params[j].key == key)
  }

  /** The flag of a recognised key is owned by that key alone. */
  lemma KeyArgsFlag(item: Item, key: string)
    requires IsListKey(key)
    requires !(item.Named? && item.key == key)
    ensures ValuesUnder(KeyArgs(item), Dashed(key)) == []
  {
    var args := KeyArgs(item);
    KeyArgsListed(item);
    if item.Named? && IsListKey(item.key) {
      KeyArgsFlags(item);
      DashedDistinct(item.key, key);
    }
    ValuesUnderAbsent(args, Dashed(key));
  }

  /** Only the seven recognised keys contribute pairs. */
  lemma KeyArgsListed(item: Item)
    ensures KeyArgs(item) != [] ==> item.Named? && IsListKey(item.key)
  {
    if item.Named? && !IsListKey(item.key) {
      assert KeyArgs(item) == [];
    }
  }

  /** A recognised key contributes pairs under its own dashed flag only. */
  lemma KeyArgsFlags(item: Item)
    requires item.Named?
    ensures AllFlagged(KeyArgs(item), Dashed(item.key))
  {
    var Named(key, values) := item;
    var flag := Dashed(key);
    if key == "page" || key == "page_size" {
    } else if key == "sort" || key == "with" || key == "sort_direction" {
      ArgsForEach(flag, Iterate(values));
    } else if (key == "filter" || key == "filter_not") && values.Arr? {
      FilterEntriesFlags(flag, values.items, |values.items|);
    }
  }

  /** Every pair in `args` carries `flag`. */
  predicate AllFlagged(args: seq<Arg>, flag: string) {
    forall i :: 0 <= i < |args| ==> args[i].flag == flag
  }

  lemma AllFlaggedConcat(a: seq<Arg>, b: seq<Arg>, flag: string)
    requires AllFlagged(a, flag) && AllFlagged(b, flag)
    ensures AllFlagged(a + b, flag)
  {
  }

  lemma {:induction false} FilterEntriesFlags(flag: string, items: seq<Item>, n: nat)
    requires n <= |items|
    ensures AllFlagged(FilterEntries(flag, items, n), flag)
  {
    if n > 0 {
      var key := EntryKey(items, n - 1);
      FilterEntriesFlags(flag, items, n - 1);
      EntryArgsFlag(flag, key, items[n - 1].v);
      AllFlaggedConcat(FilterEntries(flag, items, n - 1), EntryArgs(flag, key, items[n - 1].v), flag);
    }
  }

  /** A recognised key given once contributes exactly its own pairs under its
      flag; a recognised key not given contributes none. */
  lemma {:induction false} ListArgsUnder(params: seq<Item>, key: string)
    requires IsListKey(key) && UniqueKey(params, key)
    ensures ValuesUnder(ListArgs(params), Dashed(key)) ==
      match Lookup(params, key)
      case None => []
      case Some(v) => ValuesUnder(KeyArgs(Named(key, v)), Dashed(key))
    decreases |params|
  {
    if params != [] {
      var front := params[..|params| - 1];
      var last := params[|params| - 1];
      assert forall i :: 0 <= i < |front| ==> front[i] == params[i];
      ListArgsUnder(front, key);
      ValuesUnderAppend(ListArgs(front), KeyArgs(last), Dashed(key));
      if last.Named? && last.key == key {
        forall i | 0 <= i < |front| ensures !(front[i].Named? && front[i].key == key) {
          assert params[i] == front[i];
        }
        LookupAbsent(front, key);
        LookupLast(params, key);
      } else {
        KeyArgsFlag(last, key);
        LookupNotLast(params, key);
      }
    }
  }

  lemma {:induction false} LookupLast(items: seq<Item>, key: string)
    requires items != [] && items[|items| - 1] == Named(key, items[|items| - 1].v)
    requires Lookup(items[..|items| - 1], key).None?
    ensures Lookup(items, key) == Some(items[|items| - 1].v)
  {
    if |items| > 1 {
      var rest := items[1..];
      assert rest[..|rest| - 1] == items[..|items| - 1][1..];
      assert !(items[0].Named? && items[0].key == key) by {
        assert items[0] == items[..|items| - 1][0];
      }
      LookupLast(rest, key);
    }
  }

  lemma {:induction false} LookupNotLast(items: seq<Item>, key: string)
    requires items != [] && !(items[|items| - 1].Named? && items[|items| - 1].key == key)
    ensures Lookup(items, key) == Lookup(items[..|items| - 1], key)
  {
    if |items| > 1 {
      var rest := items[1..];
      assert rest[..|rest| - 1] == items[..|items| - 1][1..];
      assert items[0] == items[..|items| - 1][0];
      LookupNotLast(rest, key);
    }
  }

  /** `page` and `page_size` emit exactly one pair each, carrying the raw value. */
  lemma PageOnce(params: seq<Item>, key: string)
    requires key == "page" || key == "page_size"
    requires UniqueKey(params, key)
    ensures ValuesUnder(ListArgs(params), Dashed(key)) ==
      match Lookup(params, key)
      case None => []
      case Some(v) => [v]
  {
    ListArgsUnder(params, key);
  }

  /** `sort`, `with` and `sort_direction` emit one pair per element, in order. */
  lemma SortEach(params: seq<Item>, key: string)
    requires key == "sort" || key == "with" || key == "sort_direction"
    requires UniqueKey(params, key)
    ensures ValuesUnder(ListArgs(params), Dashed(key)) ==
      match Lookup(params, key)
      case None => []
      case Some(v) => Iterate(v)
  {
    ListArgsUnder(params, key);
    match Lookup(params, key)
    case None =>
    case Some(v) => ArgsForUnder(Dashed(key), Iterate(v));
  }

  /** Keys outside the switch leave no flag behind: every flag is one of the
      seven recognised keys, dashed. */
  lemma {:induction false} ListArgsFlags(params: seq<Item>, k: nat)
    requires k < |ListArgs(params)|
    ensures exists key :: IsListKey(key) && ListArgs(params)[k].flag == Dashed(key)
    decreases |params|
  {
    var front := params[..|params| - 1];
    var last := params[|params| - 1];
    var pre := ListArgs(front);
    if k < |pre| {
      ListArgsFlags(front, k);
    } else {
      assert ListArgs(params)[k] == KeyArgs(last)[k - |pre|];
      KeyArgsListed(last);
      KeyArgsFlags(last);
      assert IsListKey(last.key) && ListArgs(params)[k].flag == Dashed(last.key);
    }
  }

  /** `filter={age: 5}` gives `--filter age=5`; `filter={tags: [1, 2]}` gives
      `--filter tags[]=1` then `--filter tags[]=2`. */
  lemma FilterEncoding()
    ensures FilterArgs("filter", Arr([Named("age", Str("5"))])) == [Arg("filter", Str("age=5"))]
    ensures FilterArgs("filter", Arr([Named("tags", Arr([Pos(Str("1")), Pos(Str("2"))]))])) ==
      [Arg("filter", Str("tags[]=1")), Arg("filter", Str("tags[]=2"))]
  {
    var age := [Named("age", Str("5"))];
    assert "age" + "=" + "5" == "age=5";
    assert FilterEntries("filter", age, 1) == [] + EntryArgs("filter", "age", Str("5"));
    var tags := [Pos(Str("1")), Pos(Str("2"))];
    var outer := [Named("tags", Arr(tags))];
    ValuesEach(tags);
    assert Values(tags) == [Str("1"), Str("2")];
    var elems := FilterElems("tags", Values(tags));
    FilterElemsEach("tags", Values(tags));
    assert "tags" + "[]=" + "1" == "tags[]=1" && "tags" + "[]=" + "2" == "tags[]=2";
    assert elems == [Str("tags[]=1"), Str("tags[]=2")];
    ArgsForEach("filter", elems);
    assert FilterEntries("filter", outer, 1) == [] + EntryArgs("filter", "tags", Arr(tags));
  }

  /** Each filter entry emits one pair for a scalar and one per element for an
      array, all under the filter's flag, entry by entry in mapping order. */
  lemma {:induction false} FilterEntriesAppend(flag: string, items: seq<Item>, n: nat)
    requires n < |items|
    ensures FilterEntries(flag, items, n + 1) ==
      FilterEntries(flag, items, n) + EntryArgs(flag, EntryKey(items, n), items[n].v)
    ensures |EntryArgs(flag, EntryKey(items, n), items[n].v)| ==
      (if items[n].v.Arr? then |items[n].v.items| else 1)
  {
    var key := EntryKey(items, n);
    match items[n].v
    case Arr(inner) =>
      ValuesEach(inner);
      FilterElemsEach(key, Values(inner));
      ArgsForEach(flag, FilterElems(key, Values(inner)));
    case _ =>
  }

  // ---------------------------------------------------------------------------
  // applyAttributes

  /** `$attribute[$k]` of one attribute: null when it is not an array or lacks the key. */
  function Field(a: Value, k: string): Value {
    match a
    case Arr(items) => Get(items, k)
    case _ => Null
  }

  function AttributePair(a: Value): string {
    ToStr(Field(a, "name")) + "=" + ToStr(Field(a, "value"))
  }

  function AttributeArgs(attributes: seq<Value>): (r: seq<Arg>)
    decreases |attributes|
  {
    if attributes == [] then []
    else AttributeArgs(attributes[..|attributes| - 1]) + [Arg("attributes", Str(AttributePair(attributes[|attributes| - 1])))]
  }

  /** One more attribute appends its pair. */
  lemma AttributeArgsStep(attributes: seq<Value>, i: nat)
    requires i < |attributes|
    ensures AttributeArgs(attributes[..i + 1]) ==
      AttributeArgs(attributes[..i]) + [Arg("attributes", Str(AttributePair(attributes[i])))]
  {
    assert attributes[..i + 1][..i] == attributes[..i];
  }

  /** The array `applyAttributes()` returns for a request body. */
  function Attributes(body: seq<Item>): seq<Item> {
    var a := Get(body, "attributes");
    if Empty(a) then [] else [Pos(a)] + Flatten(AttributeArgs(Iterate(a)))
  }

  /** One `--attributes` pair per attribute, in sequence order. */
  lemma {:induction false} AttributeArgsEach(attributes: seq<Value>)
    ensures |AttributeArgs(attributes)| == |attributes|
    ensures forall i :: 0 <= i < |attributes| ==>
      AttributeArgs(attributes)[i] == Arg("attributes", Str(AttributePair(attributes[i])))
    decreases |attributes|
  {
    if attributes != [] {
      var front := attributes[..|attributes| - 1];
      AttributeArgsEach(front);
      assert forall i :: 0 <= i < |front| ==> front[i] == attributes[i];
    }
  }

  /** A missing or empty `attributes` yields nothing; otherwise the raw value
      comes first, then one pair per attribute. */
  lemma AttributesShape(body: seq<Item>)
    ensures Attributes(body) == [] <==> Empty(Get(body, "attributes"))
    ensures !Empty(Get(body, "attributes")) ==>
      Attributes(body)[0] == Pos(Get(body, "attributes")) &&
      |Attributes(body)| == 1 + 2 * |Iterate(Get(body, "attributes"))|
  {
    AttributeArgsEach(Iterate(Get(body, "attributes")));
  }

  /** Attributes encoded as `{name, value}` objects come back as `name=value`
      flags, in the order given. */
  function EncodeAttribute(p: (string, string)): Value {
    Arr([Named("name", Str(p.0)), Named("value", Str(p.1))])
  }

  lemma AttributesRoundTrip(pairs: seq<(string, string)>)
    ensures |AttributeArgs(seq(|pairs|, i requires 0 <= i < |pairs| => EncodeAttribute(pairs[i])))| == |pairs|
    ensures forall i :: 0 <= i < |pairs| ==>
      AttributeArgs(seq(|pairs|, i requires 0 <= i < |pairs| => EncodeAttribute(pairs[i])))[i] ==
        Arg("attributes", Str(pairs[i].0 + "=" + pairs[i].1))
  {
    var enc := seq(|pairs|, i requires 0 <= i < |pairs| => EncodeAttribute(pairs[i]));
    AttributeArgsEach(enc);
    forall i | 0 <= i < |pairs| ensures AttributePair(enc[i]) == pairs[i].0 + "=" + pairs[i].1 {
      EncodedPair(pairs[i]);
    }
  }

  lemma EncodedPair(p: (string, string))
    ensures AttributePair(EncodeAttribute(p)) == p.0 + "=" + p.1
  {
    var items := [Named("name", Str(p.0)), Named("value", Str(p.1))];
    assert Lookup(items, "name") == Some(Str(p.0));
    assert items[1..][0].key != "name";
    assert Lookup(items[1..], "value") == Some(Str(p.1));
    assert Lookup(items, "value") == Some(Str(p.1));
  }
}
