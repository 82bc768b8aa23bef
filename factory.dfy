/** RouterFactory as an object: the request the closures read, the decoded
    request body they write the IP fallback into, and the statistics routes its
    constructor registers in a loop.  The three helpers are the source's
    appending loops, each proved to return the array its `Builders` function
    describes; `Invoke` runs one matched closure and is proved to hand the
    callback `Routes.RouteCommand`. */
module Factory {
  import opened Php
  import opened Command
  import opened Builders
  import opened Routes

  /** A route added by the statistics loop: its URL pattern and the statistic
      its closure captures. */
  datatype StatisticRoute = StatisticRoute(url: string, statistic: string)

  /** The routes the loop adds for a list of statistics, in list order. */
  function StatisticRoutes(stats: seq<string>): seq<StatisticRoute> {
    seq(|stats|, i requires 0 <= i < |stats| => StatisticRoute(StatisticUrl(stats[i]), stats[i]))
  }

  /** One route per statistic, each at the statistic's URL, and a URL names one
      statistic only, so the router can never confuse two of them. */
  lemma StatisticRoutesTable(k: nat, l: nat)
    requires k < |Statistics| && l < |Statistics|
    ensures |StatisticRoutes(Statistics)| == |Statistics|
    ensures StatisticRoutes(Statistics)[k].url == StatisticUrl(Statistics[k])
    ensures StatisticRoutes(Statistics)[k].url == StatisticRoutes(Statistics)[l].url ==>
      StatisticRoutes(Statistics)[k].statistic == StatisticRoutes(Statistics)[l].statistic
  {
    var s, t := Statistics[k], Statistics[l];
    if s != t {
      StatisticUrlsDistinct(s, t);
    }
  }

  class RouterFactory {
    /** The current HTTP request, as the router supplies it. */
    const request: HttpRequest
    /** `$this->requestBody`: the decoded JSON body. */
    var requestBody: seq<Item>
    /** The routes the statistics loop has added to the router. */
    var statisticRoutes: seq<StatisticRoute>

    /** Stores the decoded body and adds one route per statistic. */
    constructor (request: HttpRequest, body: seq<Item>)
      ensures this.request == request && requestBody == body
      ensures statisticRoutes == StatisticRoutes(Statistics)
    {
      var routes := AddStatisticRoutes(Statistics);
      this.request := request;
      requestBody := body;
      statisticRoutes := routes;
    }

    /** `foreach ([...] as $statistic) { $this->router->addRoute(...); }`. */
    static method AddStatisticRoutes(stats: seq<string>) returns (routes: seq<StatisticRoute>)
      ensures routes == StatisticRoutes(stats)
    {
      routes := [];
      var i := 0;
      while i < |stats|
        invariant 0 <= i <= |stats|
        invariant routes == StatisticRoutes(stats[..i])
      {
        var statistic := stats[i];
        routes := routes + [StatisticRoute(StatisticUrl(statistic), statistic)];
        i := i + 1;
      }
      assert stats[..i] == stats;
    }

    /** `applyIfNotEmpty($request, $fields)`. */
    method ApplyIfNotEmpty(req: seq<Item>, fields: AllowList) returns (command: seq<Item>)
      ensures command == IfNotEmpty(req, fields)
    {
      var head := [Named("request", Arr(req)), Named("fields", Arr(FieldItems(fields)))];
      command := head;
      var i := 0;
      while i < |fields|
        invariant 0 <= i <= |fields|
        invariant command == head + Flatten(IfNotEmptyArgs(req, fields[..i]))
      {
        var pairs := AppendField(req, fields[i]);
        IfNotEmptyArgsStep(req, fields, i);
        FlattenAppend(IfNotEmptyArgs(req, fields[..i]), FieldArgs(req, fields[i]));
        AppendAssoc(head, Flatten(IfNotEmptyArgs(req, fields[..i])), pairs);
        command := command + pairs;
        i := i + 1;
      }
      assert fields[..i] == fields;
    }

    /** One allow-list entry: `if (array_key_exists($from, $request)) foreach ((array)$request[$from] as $one) ...`. */
    method AppendField(req: seq<Item>, field: (string, string)) returns (pairs: seq<Item>)
      ensures pairs == Flatten(FieldArgs(req, field))
    {
      pairs := [];
      var (from, to) := field;
      match Lookup(req, from) {
        case None =>
        case Some(v) =>
          pairs := AppendEach(to, AsList(v));
      }
    }

    /** `applyAttributes()`: the raw attributes first, then one pair per attribute. */
    method ApplyAttributes() returns (command: seq<Item>)
      ensures command == Attributes(requestBody)
    {
      command := [];
      var a := Get(requestBody, "attributes");
      if !Empty(a) {
        command := command + [Pos(a)];
        var attributes := Iterate(a);
        var i := 0;
        while i < |attributes|
          invariant 0 <= i <= |attributes|
          invariant command == [Pos(a)] + Flatten(AttributeArgs(attributes[..i]))
        {
          var attribute := attributes[i];
          var pair := [Pos(Str("--attributes")), Pos(Str(AttributePair(attribute)))];
          AttributeArgsStep(attributes, i);
          assert FlagToken("attributes") == "--attributes";
          FlattenSnoc(AttributeArgs(attributes[..i]), Arg("attributes", Str(AttributePair(attribute))));
          AppendAssoc([Pos(a)], Flatten(AttributeArgs(attributes[..i])), pair);
          command := command + pair;
          i := i + 1;
        }
        assert attributes[..i] == attributes;
      }
    }

    /** `applyListParams($start, $end)`: the query parameters, the truthy bounds
        stored under `filter`, then the pairs of every recognised query key.  A
        bound written into a string `filter` is a PHP error: None. */
    method ApplyListParams(start: Value, end: Value) returns (command: Option<seq<Item>>)
      ensures command == ListParams(request.params, start, end)
    {
      var params := request.params;
      var stored := StoreBounds(start, end);
      if stored.None? {
        return None;
      }
      var c := stored.value;
      var base := c;
      var i := 0;
      while i < |params|
        invariant 0 <= i <= |params|
        invariant c == base + Flatten(ListArgs(params[..i]))
      {
        var pairs := AppendKeyArgs(params[i]);
        ListArgsStep(params, i);
        FlattenAppend(ListArgs(params[..i]), KeyArgs(params[i]));
        AppendAssoc(base, Flatten(ListArgs(params[..i])), pairs);
        c := c + pairs;
        i := i + 1;
      }
      assert params[..i] == params;
      command := Some(c);
    }

    /** `if ($start) { $command['filter']['start'] = $start; }` and the same for `$end`. */
    method StoreBounds(start: Value, end: Value) returns (command: Option<seq<Item>>)
      ensures command == WithBounds(request.params, start, end)
    {
      var c := request.params;
      if Truthy(start) {
        var stored := WithBound(c, "start", start);
        if stored.None? {
          return None;
        }
        c := stored.value;
      }
      if Truthy(end) {
        command := WithBound(c, "end", end);
      } else {
        command := Some(c);
      }
    }

    /** The body of the loop over the query parameters: the `switch` on one key. */
    method AppendKeyArgs(item: Item) returns (pairs: seq<Item>)
      ensures pairs == Flatten(KeyArgs(item))
    {
      pairs := [];
      if item.Pos? {
        return;
      }
      var Named(key, values) := item;
      var flag := Dashed(key);
      if key == "page" || key == "page_size" {
        pairs := [Pos(Str(FlagToken(flag))), Pos(values)];
        assert Flatten([Arg(flag, values)]) == pairs by {
          FlattenSnoc([], Arg(flag, values));
        }
      } else if key == "sort" || key == "with" || key == "sort_direction" {
        pairs := AppendEach(flag, Iterate(values));
      } else if key == "filter" || key == "filter_not" {
        pairs := AppendFilter(flag, values);
      }
    }

    /** `foreach ($values as $value)`: one pair per element. */
    method AppendEach(flag: string, vs: seq<Value>) returns (pairs: seq<Item>)
      ensures pairs == Flatten(ArgsFor(flag, vs))
    {
      pairs := [];
      var j := 0;
      while j < |vs|
        invariant 0 <= j <= |vs|
        invariant pairs == Flatten(ArgsFor(flag, vs[..j]))
      {
        pairs := pairs + [Pos(Str(FlagToken(flag))), Pos(vs[j])];
        ArgsForSnoc(flag, vs[..j], vs[j]);
        FlattenSnoc(ArgsFor(flag, vs[..j]), Arg(flag, vs[j]));
        assert vs[..j + 1] == vs[..j] + [vs[j]];
        j := j + 1;
      }
      assert vs[..j] == vs;
    }

    /** `foreach ($values as $keyValue => $value)` of a `filter` or `filter_not`
        parameter; a scalar parameter is not iterated. */
    method AppendFilter(flag: string, values: Value) returns (pairs: seq<Item>)
      ensures pairs == Flatten(FilterArgs(flag, values))
    {
      pairs := [];
      if !values.Arr? {
        return;
      }
      var items := values.items;
      var n := 0;
      while n < |items|
        invariant 0 <= n <= |items|
        invariant pairs == Flatten(FilterEntries(flag, items, n))
      {
        var key := EntryKey(items, n);
        var entry := AppendEntry(flag, key, items[n].v);
        assert FilterEntries(flag, items, n + 1) == FilterEntries(flag, items, n) + EntryArgs(flag, key, items[n].v);
        FlattenAppend(FilterEntries(flag, items, n), EntryArgs(flag, key, items[n].v));
        pairs := pairs + entry;
        n := n + 1;
      }
    }

    /** One filter entry: `key[]=v` per element of an iterable value, otherwise `key=value`. */
    method AppendEntry(flag: string, key: string, value: Value) returns (pairs: seq<Item>)
      ensures pairs == Flatten(EntryArgs(flag, key, value))
    {
      pairs := [];
      match value
      case Arr(inner) =>
        var vs := Values(inner);
        var m := 0;
        while m < |vs|
          invariant 0 <= m <= |vs|
          invariant pairs == Flatten(ArgsFor(flag, FilterElems(key, vs[..m])))
        {
          var one := Str(key + "[]=" + ToStr(vs[m]));
          pairs := pairs + [Pos(Str(FlagToken(flag))), Pos(one)];
          FilterElemsSnoc(key, vs[..m], vs[m]);
          ArgsForSnoc(flag, FilterElems(key, vs[..m]), one);
          FlattenSnoc(ArgsFor(flag, FilterElems(key, vs[..m])), Arg(flag, one));
          assert vs[..m + 1] == vs[..m] + [vs[m]];
          m := m + 1;
        }
        assert vs[..m] == vs;
      case _ =>
        pairs := [Pos(Str(FlagToken(flag))), Pos(Str(key + "=" + ToStr(value)))];
        FlattenSnoc([], Arg(flag, Str(key + "=" + ToStr(value))));
    }

    /** `$this->requestBody['ip'] = empty($this->requestBody['ip']) ? getIp() : $this->requestBody['ip']`,
        whose value is the assignment's. */
    method ResolveIp() returns (ip: Value)
      modifies this
      ensures ip == ResolvedIp(old(requestBody), request.ip)
      ensures requestBody == Set(old(requestBody), "ip", ip)
      ensures statisticRoutes == old(statisticRoutes)
    {
      ip := if Empty(Get(requestBody, "ip")) then Str(request.ip) else Get(requestBody, "ip");
      requestBody := Set(requestBody, "ip", ip);
    }

    /** One helper call of a closure, reading the body as it is now. */
    method Call(h: Helper) returns (out: Option<seq<Item>>)
      ensures out == HelperOutput(h, request, requestBody)
    {
      match h
      case FromBody(fields) =>
        var c := ApplyIfNotEmpty(requestBody, fields);
        out := Some(c);
      case FromQuery(fields) =>
        var c := ApplyIfNotEmpty(request.params, fields);
        out := Some(c);
      case BodyAttributes =>
        var c := ApplyAttributes();
        out := Some(c);
      case Listing(start, end) =>
        out := ApplyListParams(start, end);
      case PostBody =>
        out := Some(request.post);
    }

    /** The helper calls of a closure in argument order, then `array_merge`. */
    method Build(t: Template) returns (command: Option<seq<Item>>)
      ensures command == TemplateCommand(t, request, requestBody)
    {
      var parts: seq<seq<Item>> := [];
      var i := 0;
      while i < |t.helpers|
        invariant 0 <= i <= |t.helpers|
        invariant Outputs(t.helpers[..i], request, requestBody) == Some(parts)
      {
        var out := Call(t.helpers[i]);
        OutputsSnoc(t.helpers[..i], t.helpers[i], request, requestBody);
        assert t.helpers[..i + 1] == t.helpers[..i] + [t.helpers[i]];
        if out.None? {
          OutputsPrefixFails(t.helpers, i + 1, request, requestBody);
          return None;
        }
        parts := parts + [out.value];
        i := i + 1;
      }
      assert t.helpers[..i] == t.helpers;
      command := Some(MergeAll(Literal(t), parts));
    }

    /** Runs the closure of a matched route: the literal is evaluated first,
        writing the IP fallback back into the body where the route does so, and
        the helpers then read the updated body. */
    method Invoke(r: Route) returns (command: Option<seq<Item>>)
      modifies this
      ensures command == RouteCommand(r, request, old(requestBody))
      ensures requestBody == BodyAfter(r, request, old(requestBody))
      ensures statisticRoutes == old(statisticRoutes)
    {
      var t := RouteTemplate(r, request, requestBody);
      if UsesIp(r) {
        var _ := ResolveIp();
      }
      command := Build(t);
    }
  }

  /** Concatenation is associative; stated once so that the appending loops
      need not re-derive it element by element. */
  lemma AppendAssoc<T>(a: seq<T>, b: seq<T>, c: seq<T>)
    ensures (a + b) + c == a + (b + c)
  {
  }

  /** One more helper call extends the results, or aborts them. */
  lemma {:induction false} OutputsSnoc(hs: seq<Helper>, h: Helper, req: HttpRequest, b: seq<Item>)
    ensures Outputs(hs + [h], req, b) ==
      match Outputs(hs, req, b)
      case None => None
      case Some(os) =>
        match HelperOutput(h, req, b)
        case None => None
        case Some(o) => Some(os + [o])
  {
    if hs == [] {
      assert hs + [h] == [h];
      OutputsSingle(h, req, b);
      if HelperOutput(h, req, b).Some? {
        assert [] + [HelperOutput(h, req, b).value] == [HelperOutput(h, req, b).value];
      }
    } else {
      assert (hs + [h])[0] == hs[0];
      assert (hs + [h])[1..] == hs[1..] + [h];
      OutputsSnoc(hs[1..], h, req, b);
      match HelperOutput(hs[0], req, b)
      case None =>
      case Some(o) =>
        match Outputs(hs[1..], req, b)
        case None =>
        case Some(os) =>
          match HelperOutput(h, req, b)
          case None =>
          case Some(x) =>
            assert [o] + (os + [x]) == ([o] + os) + [x];
    }
  }

  /** A failing prefix makes the whole list of calls fail. */
  lemma OutputsPrefixFails(hs: seq<Helper>, n: nat, req: HttpRequest, b: seq<Item>)
    requires n <= |hs| && Outputs(hs[..n], req, b).None?
    ensures Outputs(hs, req, b).None?
  {
    OutputsEach(hs[..n], req, b);
    OutputsEach(hs, req, b);
    var i :| 0 <= i < n && HelperOutput(hs[..n][i], req, b).None?;
    assert hs[..n][i] == hs[i];
  }
}
