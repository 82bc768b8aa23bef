/** The route table of RouterFactory: for each route closure, the command
    vector it hands to the callback.

    A vector is written as in the source: an array literal (leading command
    tokens, then `--flag`, value and a named copy of each path parameter), merged
    with `array_merge` with the outputs of the helpers.  The router library that
    matches URLs and supplies the path parameters is outside the model; a
    `Route` value stands for one matched closure together with its parameters. */
module Routes {
  import opened Php
  import opened Command
  import opened Token
  import opened Patterns
  import opened Builders

  /** What the closures read from the current HTTP request. */
  datatype HttpRequest = HttpRequest(
    ip: string,                // getIp()
    host: string,              // getHost()
    params: seq<Item>,         // getUrl()->getParams()
    authorization: string,     // the `authorization` header, "" when absent
    post: seq<Item>)           // $_POST

  /** One matched route closure and its path parameters. */
  datatype Route =
    | WalletNonce(network: string, address: string)
    | ConsentLevel1(uuid: string, consent: string)
    | RevokeLevel1(visitorUuid: string)
    | ListConsentLevel2
    | RevokeLevel2(consentUuid: string)
    | ConsentLevel2(uuid: string)
    | ListConsentLevel3(network: string, wallet: string)
    | RevokeLevel3(consentUuid: string, network: string, wallet: string)
    | ConsentLevel3(uuid: string, network: string, wallet: string)
    | ListConsentLevel4(network: string, web3id: string, wallet: string)
    | RevokeLevel4(consentUuid: string, network: string, web3id: string, wallet: string)
    | ConsentLevel4(uuid: string, network: string, web3id: string, wallet: string)
    | ListConsentLevel4V2(network: string, wallet: string)
    | RevokeLevel4V2(consentUuid: string, network: string, wallet: string)
    | ConsentLevel4V2(uuid: string, network: string, wallet: string)
    | VisitorInit
    | VisitorStart
    | VisitorEnd
    | VisitorGet(uuid: string)
    | VisitorStartV2
    | ConsentsByDate(start: string, end: string)
    | ConsentsTier(start: string, end: string)
    | ConsentsAll(start: string, end: string)
    | FlowGet(flowUuid: string)
    | Flows(start: string, end: string)
    | FlowsDate(start: string, end: string)
    | VisitorEvents(start: string, end: string)
    | LiveVisitorsList
    | LiveVisitorsTotal
    | LiveVisitorsDevice
    | Statistic(statistic: string, start: string, end: string)
    | ConversionProducts(start: string, end: string)
    | ConversionProductsChart(start: string, end: string)
    | ConversionStatistics(start: string, end: string)
    | ConversionStatisticsChart(start: string, end: string)
    | DatastreamTemplateDemo
    | DatastreamTemplateStore

  /** The HTTP method each route is registered for. */
  function RouteMethod(r: Route): string {
    match r
    case WalletNonce(_, _) => "POST"
    case ConsentLevel1(_, _) => "POST"
    case RevokeLevel1(_) => "PUT"
    case ListConsentLevel2 => "GET"
    case RevokeLevel2(_) => "PUT"
    case ConsentLevel2(_) => "POST"
    case ListConsentLevel3(_, _) => "GET"
    case RevokeLevel3(_, _, _) => "PUT"
    case ConsentLevel3(_, _, _) => "POST"
    case ListConsentLevel4(_, _, _) => "GET"
    case RevokeLevel4(_, _, _, _) => "PUT"
    case ConsentLevel4(_, _, _, _) => "POST"
    case ListConsentLevel4V2(_, _) => "GET"
    case RevokeLevel4V2(_, _, _) => "PUT"
    case ConsentLevel4V2(_, _, _) => "POST"
    case VisitorInit => "POST"
    case VisitorStart => "POST"
    case VisitorEnd => "POST"
    case VisitorGet(_) => "GET"
    case VisitorStartV2 => "POST"
    case DatastreamTemplateStore => "POST"
    case _ => "GET"
  }

  /** The `setWhere` constraints: the path parameters a route can be matched
      with.  Parameters without a constraint are any segment the router accepts. */
  predicate Matchable(r: Route) {
    match r
    case RevokeLevel1(v) => IsUuid(v)
    case RevokeLevel2(c) => IsUuid(c)
    case ConsentLevel2(u) => IsUuid(u)
    case RevokeLevel3(c, _, _) => IsUuid(c)
    case ConsentLevel3(u, _, _) => IsUuid(u)
    case ListConsentLevel4(_, w, _) => IsWeb3Id(w)
    case RevokeLevel4(c, _, w, _) => IsUuid(c) && IsWeb3Id(w)
    case ConsentLevel4(u, _, w, _) => IsUuid(u) && IsWeb3Id(w)
    case RevokeLevel4V2(c, _, _) => IsUuid(c)
    case ConsentLevel4V2(u, _, _) => IsUuid(u)
    case VisitorGet(u) => IsUuid(u)
    case FlowGet(f) => IsUuid(f)
    case Statistic(s, _, _) => s in Statistics
    case _ => true
  }

  // ---------------------------------------------------------------------------
  // Pieces of the array literals

  /** Leading command tokens, all positional. */
  function Words(ws: seq<string>): seq<Item> {
    seq(|ws|, i requires 0 <= i < |ws| => Pos(Str(ws[i])))
  }

  function Strs(ws: seq<string>): seq<Value> {
    seq(|ws|, i requires 0 <= i < |ws| => Str(ws[i]))
  }

  /** `'--flag', $v`. */
  function FlagPair(flag: string, v: Value): seq<Item> {
    [Pos(Str(FlagToken(flag))), Pos(v)]
  }

  /** `'--flag', $v, 'key' => $v`. */
  function FlagKey(flag: string, v: Value, key: string): seq<Item> {
    FlagPair(flag, v) + [Named(key, v)]
  }

  /** `array_merge($a, $b1, $b2, ...)`. */
  function MergeAll(a: seq<Item>, parts: seq<seq<Item>>): seq<Item>
    decreases |parts|
  {
    if parts == [] then a else MergeAll(Merge(a, parts[0]), parts[1..])
  }

  // ---------------------------------------------------------------------------
  // The IP fallback

  /** `empty($this->requestBody['ip']) ? getIp() : $this->requestBody['ip']`. */
  function ResolvedIp(body: seq<Item>, ip: string): Value {
    if Empty(Get(body, "ip")) then Str(ip) else Get(body, "ip")
  }

  /** The routes whose literal assigns `$this->requestBody['ip']`. */
  predicate UsesIp(r: Route) {
    r.ConsentLevel1? || r.ConsentLevel2? || r.ConsentLevel3? || r.ConsentLevel4? ||
    r.ConsentLevel4V2? || r.VisitorInit? || r.VisitorStartV2?
  }

  /** The request body once the closure has run: the fallback is written back. */
  function BodyAfter(r: Route, req: HttpRequest, body: seq<Item>): seq<Item> {
    if UsesIp(r) then Set(body, "ip", ResolvedIp(body, req.ip)) else body
  }

  // ---------------------------------------------------------------------------
  // Allow-lists

  const VisitorFields: AllowList := [
    ("fingerprint", "fingerprint"), ("user_agent", "user-agent"), ("device", "device"),
    ("browser_name", "browser-name"), ("browser_version", "browser-version"), ("lang", "lang"),
    ("url", "url"), ("referer", "referer"), ("event_name", "event-name"), ("event_type", "event-type")]

  const InitFields: AllowList := [
    ("user_agent", "user-agent"), ("device", "device"),
    ("browser_name", "browser-name"), ("browser_version", "browser-version"), ("lang", "lang"),
    ("url", "url"), ("referer", "referer"), ("event_name", "event-name"), ("event_type", "event-type")]

  const Level2Fields: AllowList := [("consent", "consent")] + VisitorFields

  const WalletConsentFields: AllowList := [("consent", "consent"), ("signature", "signature")] + VisitorFields

  const StartFields: AllowList := [
    ("visitor_uuid", "visitor-uuid"), ("url", "url"), ("referer", "referer"),
    ("event_name", "event-name"), ("event_type", "event-type"), ("event_uuid", "event-uuid")]

  const EndFields: AllowList := [("visitor_uuid", "visitor-uuid"), ("event_uuid", "event-uuid")]

  const SignatureField: AllowList := [("signature", "signature")]

  // ---------------------------------------------------------------------------
  // The statistics loop

  /** The statistics registered by the loop, in registration order. */
  const Statistics: seq<string> := [
    "visits", "domains", "metrics", "pages", "visitors", "browsers", "browserversions",
    "languages", "devices", "countries", "cities", "isps", "attribute", "events",
    "events-name-type", "attribute-date", "user-types", "outlinks", "channels",
    "user-flows", "regions", "referrers"]

  /** The command token of a statistic: `attribute` is sent as `attributes`. */
  function StatisticToken(statistic: string): string {
    if statistic == "attribute" then "attributes" else statistic
  }

  /** The URL pattern of a statistic's route. */
  function StatisticUrl(statistic: string): string {
    "/" + ReplaceChar(statistic, '-', '_') + "/v1/{start_date}/{end_date}"
  }

  // ---------------------------------------------------------------------------
  // The templates

  /** A helper call whose result a closure merges after its literal. */
  datatype Helper =
    | FromBody(fields: AllowList)       // applyIfNotEmpty on the request body
    | FromQuery(fields: AllowList)      // applyIfNotEmpty on the query parameters
    | BodyAttributes                    // applyAttributes()
    | Listing(start: Value, end: Value) // applyListParams($start, $end)
    | PostBody                          // the form fields of a POST request

  /** A closure's vector before merging: leading tokens, the rest of the
      literal, and the helper calls whose results are merged after it. */
  datatype Template = Template(lead: seq<string>, rest: seq<Item>, helpers: seq<Helper>)

  /** The leading command tokens of each closure's literal. */
  function Lead(r: Route): seq<string> {
    match r
    case WalletNonce(_, _) => ["wallet", "v1", "nonce"]
    case ConsentLevel1(_, _) => ["consent", "level1", "v1"]
    case RevokeLevel1(_) => ["revoke", "level1", "v1"]
    case ListConsentLevel2 => ["list-consent", "level2", "v1"]
    case RevokeLevel2(_) => ["revoke", "level2", "v1"]
    case ConsentLevel2(_) => ["consent", "level2", "v1"]
    case ListConsentLevel3(_, _) => ["list-consent", "level3", "v1"]
    case RevokeLevel3(_, _, _) => ["revoke", "level3", "v1"]
    case ConsentLevel3(_, _, _) => ["consent", "level3", "v1"]
    case ListConsentLevel4(_, _, _) => ["list-consent", "level4", "v1"]
    case RevokeLevel4(_, _, _, _) => ["revoke", "level4", "v1"]
    case ConsentLevel4(_, _, _, _) => ["consent", "level4", "v1"]
    case ListConsentLevel4V2(_, _) => ["list-consent", "level4", "v2"]
    case RevokeLevel4V2(_, _, _) => ["revoke", "level4", "v2"]
    case ConsentLevel4V2(_, _, _) => ["consent", "level4", "v2"]
    case VisitorInit => ["visitor", "init", "v1"]
    case VisitorStart => ["visitor", "start", "v1"]
    case VisitorEnd => ["visitor", "end", "v1"]
    case VisitorGet(_) => ["get", "visitor", "v1"]
    case VisitorStartV2 => ["visitor", "start", "v2"]
    case ConsentsByDate(_, _) => ["list-consent-statistics", "total-consents-by-date", "v1"]
    case ConsentsTier(_, _) => ["list-consent-statistics", "total-tiers-by-date", "v1"]
    case ConsentsAll(_, _) => ["list-consent-statistics", "all", "v1"]
    case FlowGet(_) => ["get", "flow", "v1"]
    case Flows(_, _) => ["get", "flows", "v1"]
    case FlowsDate(_, _) => ["get", "flows-date", "v1"]
    case VisitorEvents(_, _) => ["get", "events", "v1"]
    case LiveVisitorsList => ["live-visitors", "list"]
    case LiveVisitorsTotal => ["live-visitors", "total"]
    case LiveVisitorsDevice => ["live-visitors", "device"]
    case Statistic(statistic, _, _) => ["statistics", StatisticToken(statistic), "v1"]
    case ConversionProducts(_, _) => ["conversion", "products", "v1"]
    case ConversionProductsChart(_, _) => ["conversion", "products-chart", "v1"]
    case ConversionStatistics(_, _) => ["conversion", "statistics", "v1"]
    case ConversionStatisticsChart(_, _) => ["conversion", "statistics-chart", "v1"]
    case DatastreamTemplateDemo => ["datastream", "template", "joomla4.demo.analytics.aesirx.io"]
    case DatastreamTemplateStore => ["datastream", "template"]
  }

  /** The rest of each closure's literal: its flags, their values and the keyed
      copies of the path parameters.  `body` is the request body when the
      closure starts. */
  function Rest(r: Route, req: HttpRequest, body: seq<Item>): seq<Item> {
    var ip := ResolvedIp(body, req.ip);
    var token := Str(GetToken(req.authorization));
    match r
    case WalletNonce(network, address) =>
      FlagKey("network", Str(network), "network") + FlagKey("address", Str(address), "address") +
        FlagKey("domain", Str(req.host), "domain")
    case ConsentLevel1(uuid, consent) =>
      FlagKey("uuid", Str(uuid), "uuid") + FlagKey("consent", Str(consent), "consent") + [Pos(ip)]
    case RevokeLevel1(visitorUuid) => FlagKey("visitor-uuid", Str(visitorUuid), "visitor_uuid")
    case ListConsentLevel2 => FlagKey("token", token, "token")
    case RevokeLevel2(consentUuid) =>
      FlagKey("consent-uuid", Str(consentUuid), "consent_uuid") + FlagKey("token", token, "token")
    case ConsentLevel2(uuid) =>
      FlagKey("uuid", Str(uuid), "visitor_uuid") + FlagKey("token", token, "token") + [Pos(ip)]
    case ListConsentLevel3(network, wallet) =>
      FlagKey("network", Str(network), "network") + FlagKey("wallet", Str(wallet), "wallet")
    case RevokeLevel3(consentUuid, network, wallet) =>
      FlagKey("consent-uuid", Str(consentUuid), "consent_uuid") +
        FlagKey("network", Str(network), "network") + FlagKey("wallet", Str(wallet), "wallet")
    case ConsentLevel3(uuid, network, wallet) =>
      FlagKey("visitor-uuid", Str(uuid), "visitor_uuid") + FlagKey("network", Str(network), "network") +
        FlagKey("wallet", Str(wallet), "wallet") + [Pos(ip)]
    case ListConsentLevel4(network, web3id, wallet) =>
      FlagKey("network", Str(network), "network") + FlagKey("wallet", Str(wallet), "wallet") +
        FlagKey("web3id", Str(web3id), "web3id")
    case RevokeLevel4(consentUuid, network, web3id, wallet) =>
      FlagKey("consent-uuid", Str(consentUuid), "consent_uuid") +
        FlagKey("network", Str(network), "network") + FlagKey("wallet", Str(wallet), "wallet") +
        FlagKey("web3id", Str(web3id), "web3id")
    case ConsentLevel4(uuid, network, web3id, wallet) =>
      FlagKey("visitor-uuid", Str(uuid), "visitor_uuid") + FlagKey("network", Str(network), "network") +
        FlagKey("wallet", Str(wallet), "wallet") + FlagKey("web3id", Str(web3id), "web3id") + [Pos(ip)]
    case ListConsentLevel4V2(network, wallet) =>
      FlagKey("network", Str(network), "network") + FlagKey("wallet", Str(wallet), "wallet") +
        FlagKey("web3id", token, "token")
    case RevokeLevel4V2(consentUuid, network, wallet) =>
      FlagKey("consent-uuid", Str(consentUuid), "consent_uuid") +
        FlagKey("network", Str(network), "network") + FlagKey("wallet", Str(wallet), "wallet") +
        FlagKey("web3id", token, "token")
    case ConsentLevel4V2(uuid, network, wallet) =>
      FlagKey("visitor-uuid", Str(uuid), "visitor_uuid") + FlagKey("network", Str(network), "network") +
        FlagKey("wallet", Str(wallet), "wallet") + FlagKey("web3id", token, "token") + [Pos(ip)]
    case VisitorInit => [Pos(Str(FlagToken("ip"))), Pos(ip)]
    case VisitorStart => []
    case VisitorEnd => []
    case VisitorGet(uuid) => FlagKey("uuid", Str(uuid), "uuid")
    case VisitorStartV2 => [Pos(Str(FlagToken("ip"))), Pos(ip)]
    case ConsentsByDate(start, end) => DateFlags(start, end)
    case ConsentsTier(start, end) => DateFlags(start, end)
    case ConsentsAll(start, end) => DateFlags(start, end)
    case FlowGet(flowUuid) => [Named("flow_uuid", Str(flowUuid))]
    case Flows(start, end) => DateFlags(start, end)
    case FlowsDate(start, end) => DateFlags(start, end)
    case VisitorEvents(start, end) => DateFlags(start, end)
    case LiveVisitorsList => []
    case LiveVisitorsTotal => []
    case LiveVisitorsDevice => []
    case Statistic(_, start, end) => DateFlags(start, end)
    // The named `start` and `end` entries sit between each flag and its value.
    case ConversionProducts(start, end) =>
      [Pos(Str("--start")), Named("start", Str(start)), Pos(Str(start)),
       Pos(Str("--end")), Named("end", Str(end)), Pos(Str(end))]
    case ConversionProductsChart(start, end) => DateFlags(start, end)
    case ConversionStatistics(start, end) => DateFlags(start, end)
    case ConversionStatisticsChart(start, end) => DateFlags(start, end)
    case DatastreamTemplateDemo => []
    case DatastreamTemplateStore => []
  }

  /** The helper calls each closure merges after its literal, in call order. */
  function Helpers(r: Route): seq<Helper> {
    match r
    case WalletNonce(_, _) => [FromBody([("text", "text")])]
    case ConsentLevel1(_, _) => [FromBody(VisitorFields), BodyAttributes]
    case RevokeLevel1(_) => []
    case ListConsentLevel2 => []
    case RevokeLevel2(_) => []
    // applyAttributes() is evaluated as a third argument of applyIfNotEmpty,
    // which ignores it: nothing of it is merged.
    case ConsentLevel2(_) => [FromBody(Level2Fields)]
    case ListConsentLevel3(_, _) => [FromQuery(SignatureField)]
    case RevokeLevel3(_, _, _) => [FromBody(SignatureField)]
    case ConsentLevel3(_, _, _) => [FromBody(WalletConsentFields), BodyAttributes]
    case ListConsentLevel4(_, _, _) => [FromQuery(SignatureField)]
    case RevokeLevel4(_, _, _, _) => [FromBody(SignatureField)]
    case ConsentLevel4(_, _, _, _) => [FromBody(WalletConsentFields), BodyAttributes]
    case ListConsentLevel4V2(_, _) => [FromQuery(SignatureField)]
    case RevokeLevel4V2(_, _, _) => [FromBody(SignatureField)]
    case ConsentLevel4V2(_, _, _) => [FromBody(WalletConsentFields)]
    case VisitorInit => [FromBody(InitFields), BodyAttributes]
    case VisitorStart => [FromBody(StartFields), BodyAttributes]
    case VisitorEnd => [FromBody(EndFields)]
    case VisitorGet(_) => []
    case VisitorStartV2 => [FromBody(VisitorFields), BodyAttributes]
    case ConsentsByDate(start, end) => [Listing(Str(start), Str(end))]
    case ConsentsTier(start, end) => [Listing(Str(start), Str(end))]
    case ConsentsAll(start, end) => [Listing(Str(start), Str(end))]
    case FlowGet(_) => [FromQuery([("with", "with")])]
    case Flows(start, end) => [Listing(Str(start), Str(end))]
    case FlowsDate(start, end) => [Listing(Str(start), Str(end))]
    case VisitorEvents(start, end) => [Listing(Str(start), Str(end))]
    case LiveVisitorsList => [Listing(Null, Null)]
    case LiveVisitorsTotal => [Listing(Null, Null)]
    case LiveVisitorsDevice => [Listing(Null, Null)]
    case Statistic(_, start, end) => [Listing(Str(start), Str(end))]
    case ConversionProducts(start, end) => [Listing(Str(start), Str(end))]
    case ConversionProductsChart(start, end) => [Listing(Str(start), Str(end))]
    case ConversionStatistics(start, end) => [Listing(Str(start), Str(end))]
    case ConversionStatisticsChart(start, end) => [Listing(Str(start), Str(end))]
    case DatastreamTemplateDemo => []
    case DatastreamTemplateStore => [PostBody]
  }

  /** `'--start', $start, '--end', $end`: the flags of the dated routes. */
  function DateFlags(start: string, end: string): seq<Item> {
    FlagPair("start", Str(start)) + FlagPair("end", Str(end))
  }

  function RouteTemplate(r: Route, req: HttpRequest, body: seq<Item>): Template {
    Template(Lead(r), Rest(r, req, body), Helpers(r))
  }

  /** The result of one helper call, or None when it raises a PHP error.  The
      body helpers read the body as the literal has left it. */
  function HelperOutput(h: Helper, req: HttpRequest, b: seq<Item>): Option<seq<Item>> {
    match h
    case FromBody(fields) => Some(IfNotEmpty(b, fields))
    case FromQuery(fields) => Some(IfNotEmpty(req.params, fields))
    case BodyAttributes => Some(Attributes(b))
    case Listing(start, end) => ListParams(req.params, start, end)
    case PostBody => Some(req.post)
  }

  /** The helper results in call order; the first error aborts the closure. */
  function Outputs(hs: seq<Helper>, req: HttpRequest, b: seq<Item>): Option<seq<seq<Item>>> {
    if hs == [] then Some([])
    else match HelperOutput(hs[0], req, b)
      case None => None
      case Some(o) =>
        match Outputs(hs[1..], req, b)
        case None => None
        case Some(os) => Some([o] + os)
  }

  /** The literal array of a closure. */
  function Literal(t: Template): seq<Item> {
    Words(t.lead) + t.rest
  }

  /** The helper results a closure merges. */
  function RouteParts(r: Route, req: HttpRequest, body: seq<Item>): Option<seq<seq<Item>>> {
    Outputs(RouteTemplate(r, req, body).helpers, req, BodyAfter(r, req, body))
  }

  /** The vector a closure with template `t` passes to the callback when its
      helpers read the body `b`, or None when building it raises a PHP error. */
  function TemplateCommand(t: Template, req: HttpRequest, b: seq<Item>): Option<seq<Item>> {
    match Outputs(t.helpers, req, b)
    case None => None
    case Some(ps) => Some(MergeAll(Literal(t), ps))
  }

  /** The vector the closure of route `r` passes to the callback. */
  function RouteCommand(r: Route, req: HttpRequest, body: seq<Item>): Option<seq<Item>> {
    TemplateCommand(RouteTemplate(r, req, body), req, BodyAfter(r, req, body))
  }

  // ---------------------------------------------------------------------------
  // Helper results

  /** A helper fails only when applyListParams stores a bound into a string
      `filter` query parameter. */
  lemma HelperFails(h: Helper, req: HttpRequest, b: seq<Item>)
    ensures HelperOutput(h, req, b).None? <==>
      h.Listing? && (Truthy(h.start) || Truthy(h.end)) &&
      Lookup(req.params, "filter").Some? && Lookup(req.params, "filter").value.Str?
  {
    if h.Listing? {
      ListParamsFails(req.params, h.start, h.end);
    }
  }

  /** The calls succeed exactly when each one does, and then give one array per call. */
  lemma {:induction false} OutputsEach(hs: seq<Helper>, req: HttpRequest, b: seq<Item>)
    ensures Outputs(hs, req, b).Some? <==> forall i :: 0 <= i < |hs| ==> HelperOutput(hs[i], req, b).Some?
    ensures Outputs(hs, req, b).Some? ==>
      |Outputs(hs, req, b).value| == |hs| &&
      forall i :: 0 <= i < |hs| ==> Outputs(hs, req, b).value[i] == HelperOutput(hs[i], req, b).value
  {
    if hs != [] {
      OutputsEach(hs[1..], req, b);
      if HelperOutput(hs[0], req, b).Some? && Outputs(hs[1..], req, b).Some? {
        var os := Outputs(hs, req, b).value;
        forall i | 0 <= i < |hs| ensures os[i] == HelperOutput(hs[i], req, b).value {
          if i > 0 {
            assert hs[1..][i - 1] == hs[i];
          }
        }
      } else if Outputs(hs[1..], req, b).None? {
        var i :| 0 <= i < |hs[1..]| && !HelperOutput(hs[1..][i], req, b).Some?;
        assert hs[1..][i] == hs[i + 1];
      }
    }
  }

  lemma OutputsPair(h0: Helper, h1: Helper, req: HttpRequest, b: seq<Item>)
    requires HelperOutput(h0, req, b).Some? && HelperOutput(h1, req, b).Some?
    ensures Outputs([h0, h1], req, b) == Some([HelperOutput(h0, req, b).value, HelperOutput(h1, req, b).value])
  {
    assert [h0, h1][1..] == [h1];
    OutputsSingle(h1, req, b);
    var o0, o1 := HelperOutput(h0, req, b).value, HelperOutput(h1, req, b).value;
    assert [o0] + [o1] == [o0, o1];
  }

  lemma OutputsSingle(h: Helper, req: HttpRequest, b: seq<Item>)
    ensures HelperOutput(h, req, b).None? ==> Outputs([h], req, b).None?
    ensures HelperOutput(h, req, b).Some? ==> Outputs([h], req, b) == Some([HelperOutput(h, req, b).value])
  {
    assert [h][1..] == [];
    assert Outputs([h][1..], req, b) == Some([]);
    if HelperOutput(h, req, b).Some? {
      var o := HelperOutput(h, req, b).value;
      assert [o] + [] == [o];
    }
  }

  // ---------------------------------------------------------------------------
  // The shape of every vector

  /** The positional entries of the merged arrays, in order. */
  function AllPositional(parts: seq<seq<Item>>): seq<Value> {
    if parts == [] then [] else Positional(parts[0]) + AllPositional(parts[1..])
  }

  lemma {:induction false} WordsPositional(ws: seq<string>)
    ensures Positional(Words(ws)) == Strs(ws)
  {
    if ws != [] {
      assert Words(ws) == [Pos(Str(ws[0]))] + Words(ws[1..]);
      assert Strs(ws) == [Str(ws[0])] + Strs(ws[1..]);
      WordsPositional(ws[1..]);
      PositionalAppend([Pos(Str(ws[0]))], Words(ws[1..]));
    }
  }

  /** array_merge over several arrays keeps all positional entries, in order. */
  lemma {:induction false} MergeAllPositional(a: seq<Item>, parts: seq<seq<Item>>)
    ensures Positional(MergeAll(a, parts)) == Positional(a) + AllPositional(parts)
    decreases |parts|
  {
    if parts != [] {
      MergeAllPositional(Merge(a, parts[0]), parts[1..]);
      MergePositional(a, parts[0]);
    }
  }

  lemma TemplatePositional(t: Template, ps: seq<seq<Item>>)
    ensures Positional(MergeAll(Literal(t), ps)) == Strs(t.lead) + Positional(t.rest) + AllPositional(ps)
  {
    MergeAllPositional(Literal(t), ps);
    PositionalAppend(Words(t.lead), t.rest);
    WordsPositional(t.lead);
  }

  /** What the engine reads from a vector: the leading tokens, the positional
      entries of the rest of the literal, then those of each helper result. */
  lemma RoutePositional(r: Route, req: HttpRequest, body: seq<Item>)
    requires RouteCommand(r, req, body).Some?
    ensures Positional(RouteCommand(r, req, body).value) ==
      Strs(RouteTemplate(r, req, body).lead) + Positional(RouteTemplate(r, req, body).rest) +
      AllPositional(RouteParts(r, req, body).value)
  {
    TemplatePositional(RouteTemplate(r, req, body), RouteParts(r, req, body).value);
  }

  /** Every vector starts with its closure's leading tokens. */
  lemma RouteLead(r: Route, req: HttpRequest, body: seq<Item>)
    requires RouteCommand(r, req, body).Some?
    ensures |RouteTemplate(r, req, body).lead| <= |Positional(RouteCommand(r, req, body).value)|
    ensures Positional(RouteCommand(r, req, body).value)[..|RouteTemplate(r, req, body).lead|] ==
      Strs(RouteTemplate(r, req, body).lead)
  {
    RoutePositional(r, req, body);
  }

  // ---------------------------------------------------------------------------
  // When a closure raises an error

  /** The routes that pass date bounds to applyListParams. */
  predicate HasBounds(r: Route) {
    r.ConsentsByDate? || r.ConsentsTier? || r.ConsentsAll? || r.Flows? || r.FlowsDate? ||
    r.VisitorEvents? || r.Statistic? || r.ConversionProducts? || r.ConversionProductsChart? ||
    r.ConversionStatistics? || r.ConversionStatisticsChart?
  }

  lemma BoundedHelpers(r: Route)
    requires HasBounds(r)
    ensures Helpers(r) == [Listing(Str(r.start), Str(r.end))]
  {
  }

  /** A helper that cannot fail: anything but a listing with a bound. */
  predicate Safe(h: Helper) {
    h.Listing? ==> h.start == Null && h.end == Null
  }

  lemma UnboundedSafe(r: Route)
    requires !HasBounds(r)
    ensures forall i :: 0 <= i < |Helpers(r)| ==> Safe(Helpers(r)[i])
  {
  }

  /** Only the routes that store date bounds can fail, exactly when applyListParams
      does, which happens only when the query's `filter` is a string. */
  lemma RouteCommandDefined(r: Route, req: HttpRequest, body: seq<Item>)
    ensures RouteCommand(r, req, body).None? <==>
      HasBounds(r) && ListParams(req.params, Str(r.start), Str(r.end)).None?
    ensures RouteCommand(r, req, body).None? ==>
      Lookup(req.params, "filter").Some? && Lookup(req.params, "filter").value.Str?
  {
    if HasBounds(r) {
      BoundedHelpers(r);
      ListingDefined(RouteTemplate(r, req, body), req, BodyAfter(r, req, body), Str(r.start), Str(r.end));
      ListParamsFails(req.params, Str(r.start), Str(r.end));
    } else {
      UnboundedSafe(r);
      SafeDefined(RouteTemplate(r, req, body), req, BodyAfter(r, req, body));
    }
  }

  /** A closure whose helpers cannot fail always builds its vector. */
  lemma SafeDefined(t: Template, req: HttpRequest, b: seq<Item>)
    requires forall i :: 0 <= i < |t.helpers| ==> Safe(t.helpers[i])
    ensures Outputs(t.helpers, req, b).Some?
    ensures TemplateCommand(t, req, b) == Some(MergeAll(Literal(t), Outputs(t.helpers, req, b).value))
  {
    OutputsEach(t.helpers, req, b);
    forall i | 0 <= i < |t.helpers| ensures HelperOutput(t.helpers[i], req, b).Some? {
      HelperFails(t.helpers[i], req, b);
    }
  }

  /** A closure whose only helper is applyListParams fails exactly when that call does. */
  lemma ListingDefined(t: Template, req: HttpRequest, b: seq<Item>, start: Value, end: Value)
    requires t.helpers == [Listing(start, end)]
    ensures TemplateCommand(t, req, b).None? <==> ListParams(req.params, start, end).None?
  {
    OutputsSingle(Listing(start, end), req, b);
  }

  // ---------------------------------------------------------------------------
  // The IP fallback

  lemma {:induction false} PositionalLast(x: seq<Item>)
    requires x != [] && x[|x| - 1].Pos?
    ensures Positional(x) == Positional(x[..|x| - 1]) + [x[|x| - 1].v]
  {
    var last := x[|x| - 1];
    assert x == x[..|x| - 1] + [last];
    PositionalAppend(x[..|x| - 1], [last]);
  }

  /** The fallback is written back into the request body: the body's own
      non-empty `ip` is kept, an empty or missing one is replaced by the
      client address, and nothing else in the body changes. */
  lemma IpWrittenBack(r: Route, req: HttpRequest, body: seq<Item>)
    requires UsesIp(r)
    ensures Lookup(BodyAfter(r, req, body), "ip") == Some(ResolvedIp(body, req.ip))
    ensures !Empty(Get(body, "ip")) ==> ResolvedIp(body, req.ip) == Get(body, "ip")
    ensures Empty(Get(body, "ip")) ==> ResolvedIp(body, req.ip) == Str(req.ip)
    ensures forall k :: k != "ip" ==> Lookup(BodyAfter(r, req, body), k) == Lookup(body, k)
    ensures Positional(BodyAfter(r, req, body)) == Positional(body)
  {
  }

  /** The resolved address is the last positional entry of the literal, so it
      stands in the vector right before the helper outputs. */
  lemma IpInCommand(r: Route, req: HttpRequest, body: seq<Item>)
    requires UsesIp(r)
    ensures RouteCommand(r, req, body).Some?
    ensures var n := |Positional(Literal(RouteTemplate(r, req, body)))|;
      0 < n <= |Positional(RouteCommand(r, req, body).value)| &&
      Positional(RouteCommand(r, req, body).value)[n - 1] == ResolvedIp(body, req.ip)
  {
    IpFacts(r, req, body);
    IpBeforeParts(RouteTemplate(r, req, body), req, BodyAfter(r, req, body), ResolvedIp(body, req.ip));
  }

  lemma IpFacts(r: Route, req: HttpRequest, body: seq<Item>)
    requires UsesIp(r)
    ensures forall i :: 0 <= i < |Helpers(r)| ==> Safe(Helpers(r)[i])
    ensures |Rest(r, req, body)| > 0
    ensures Rest(r, req, body)[|Rest(r, req, body)| - 1] == Pos(ResolvedIp(body, req.ip))
  {
    UnboundedSafe(r);
    IpLast(r, req, body);
  }

  /** A value ending the literal is the last positional entry before the helper outputs. */
  lemma IpBeforeParts(t: Template, req: HttpRequest, b: seq<Item>, ip: Value)
    requires forall i :: 0 <= i < |t.helpers| ==> Safe(t.helpers[i])
    requires t.rest != [] && t.rest[|t.rest| - 1] == Pos(ip)
    ensures TemplateCommand(t, req, b).Some?
    ensures var n := |Positional(Literal(t))|;
      0 < n <= |Positional(TemplateCommand(t, req, b).value)| &&
      Positional(TemplateCommand(t, req, b).value)[n - 1] == ip
  {
    SafeDefined(t, req, b);
    var lit := Literal(t);
    assert lit[|lit| - 1] == t.rest[|t.rest| - 1];
    PositionalLast(lit);
    MergeAllPositional(lit, Outputs(t.helpers, req, b).value);
  }

  lemma IpLast(r: Route, req: HttpRequest, body: seq<Item>)
    requires UsesIp(r)
    ensures |Rest(r, req, body)| > 0
    ensures Rest(r, req, body)[|Rest(r, req, body)| - 1] == Pos(ResolvedIp(body, req.ip))
  {
  }

  // ---------------------------------------------------------------------------
  // Attribute flags

  /** The routes that merge the output of applyAttributes. */
  predicate AppendsAttributes(r: Route) {
    r.ConsentLevel1? || r.ConsentLevel3? || r.ConsentLevel4? ||
    r.VisitorInit? || r.VisitorStart? || r.VisitorStartV2?
  }

  /** On those routes the vector ends with the attribute entries computed from
      the body as the closure leaves it. */
  lemma AttributesAtEnd(r: Route, req: HttpRequest, body: seq<Item>)
    requires AppendsAttributes(r)
    ensures RouteCommand(r, req, body).Some?
    ensures EndsWith(Positional(RouteCommand(r, req, body).value), Positional(Attributes(BodyAfter(r, req, body))))
  {
    AttributesPart(r);
    EndsWithAttributes(RouteTemplate(r, req, body), req, BodyAfter(r, req, body));
  }

  lemma EndsWithAttributes(t: Template, req: HttpRequest, b: seq<Item>)
    requires |t.helpers| == 2 && t.helpers[0].FromBody? && t.helpers[1] == BodyAttributes
    ensures TemplateCommand(t, req, b).Some?
    ensures EndsWith(Positional(TemplateCommand(t, req, b).value), Positional(Attributes(b)))
  {
    OutputsPair(t.helpers[0], BodyAttributes, req, b);
    assert t.helpers == [t.helpers[0], BodyAttributes];
    var ps := Outputs(t.helpers, req, b).value;
    assert ps == [IfNotEmpty(b, t.helpers[0].fields), Attributes(b)];
    assert TemplateCommand(t, req, b) == Some(MergeAll(Literal(t), ps));
    EndsWithLastPart(t, ps);
  }

  lemma AttributesPart(r: Route)
    requires AppendsAttributes(r)
    ensures |Helpers(r)| == 2
    ensures Helpers(r)[0].FromBody?
    ensures Helpers(r)[1] == BodyAttributes
  {
  }

  /** `q` is a suffix of `p`. */
  predicate EndsWith(p: seq<Value>, q: seq<Value>) {
    |q| <= |p| && p[|p| - |q|..] == q
  }

  /** A vector merged from two arrays ends with the second one's positional entries. */
  lemma EndsWithLastPart(t: Template, ps: seq<seq<Item>>)
    requires |ps| == 2
    ensures EndsWith(Positional(MergeAll(Literal(t), ps)), Positional(ps[1]))
  {
    assert ps[1..][0] == ps[1] && ps[1..][1..] == [];
    assert AllPositional(ps[1..]) == Positional(ps[1]) + AllPositional([]);
    assert AllPositional(ps) == Positional(ps[0]) + Positional(ps[1]);
    TemplatePositional(t, ps);
  }

  ghost predicate AgreeExcept(b1: seq<Item>, b2: seq<Item>, key: string) {
    forall k :: k != key ==> Lookup(b1, k) == Lookup(b2, k)
  }

  /** The level2 and v2 level4 consent routes merge no attribute entries: their
      argument lists are the same whatever the body's `attributes`. */
  lemma AttributesIgnored(r: Route, req: HttpRequest, b1: seq<Item>, b2: seq<Item>)
    requires r.ConsentLevel2? || r.ConsentLevel4V2?
    requires AgreeExcept(b1, b2, "attributes")
    ensures RouteCommand(r, req, b1).Some? && RouteCommand(r, req, b2).Some?
    ensures Positional(RouteCommand(r, req, b1).value) == Positional(RouteCommand(r, req, b2).value)
  {
    var fields := if r.ConsentLevel2? then Level2Fields else WalletConsentFields;
    var a1, a2 := BodyAfter(r, req, b1), BodyAfter(r, req, b2);
    var t1, t2 := RouteTemplate(r, req, b1), RouteTemplate(r, req, b2);
    SingleHelper(r, fields);
    OutputsSingle(FromBody(fields), req, a1);
    OutputsSingle(FromBody(fields), req, a2);
    assert Lookup(b1, "ip") == Lookup(b2, "ip");
    assert ResolvedIp(b1, req.ip) == ResolvedIp(b2, req.ip);
    SameLiteral(r, req, b1, b2);
    ConsentFieldKeys(fields);
    BodyAfterAgrees(r, req, b1, b2, fields);
    IfNotEmptyIgnoresRequestOrder(a1, a2, fields);
    IfNotEmptyPositional(a1, fields);
    IfNotEmptyPositional(a2, fields);
    SameShapeSamePositional(t1, t2, [IfNotEmpty(a1, fields)], [IfNotEmpty(a2, fields)]);
  }

  /** Neither allow-list reads `ip` or `attributes`. */
  lemma ConsentFieldKeys(fields: AllowList)
    requires fields == Level2Fields || fields == WalletConsentFields
    ensures forall i :: 0 <= i < |fields| ==> fields[i].0 != "attributes" && fields[i].0 != "ip"
  {
  }

  /** Bodies that agree except on `attributes` still agree, after the IP
      fallback, on every field an allow-list without `ip` and `attributes` reads. */
  lemma BodyAfterAgrees(r: Route, req: HttpRequest, b1: seq<Item>, b2: seq<Item>, fields: AllowList)
    requires UsesIp(r)
    requires AgreeExcept(b1, b2, "attributes")
    requires forall i :: 0 <= i < |fields| ==> fields[i].0 != "attributes" && fields[i].0 != "ip"
    ensures forall i :: 0 <= i < |fields| ==>
      Lookup(BodyAfter(r, req, b1), fields[i].0) == Lookup(BodyAfter(r, req, b2), fields[i].0)
  {
    IpWrittenBack(r, req, b1);
    IpWrittenBack(r, req, b2);
    forall i | 0 <= i < |fields|
      ensures Lookup(BodyAfter(r, req, b1), fields[i].0) == Lookup(BodyAfter(r, req, b2), fields[i].0)
    {
      assert Lookup(b1, fields[i].0) == Lookup(b2, fields[i].0);
    }
  }

  lemma SingleHelper(r: Route, fields: AllowList)
    requires r.ConsentLevel2? || r.ConsentLevel4V2?
    requires fields == if r.ConsentLevel2? then Level2Fields else WalletConsentFields
    ensures Helpers(r) == [FromBody(fields)]
  {
  }

  /** The literal of these routes depends on the body only through the IP. */
  lemma SameLiteral(r: Route, req: HttpRequest, b1: seq<Item>, b2: seq<Item>)
    requires r.ConsentLevel2? || r.ConsentLevel4V2?
    requires ResolvedIp(b1, req.ip) == ResolvedIp(b2, req.ip)
    ensures Rest(r, req, b1) == Rest(r, req, b2)
  {
  }

  /** Two single-array vectors with the same literal and the same positional
      entries in their array give the same argument list. */
  lemma SameShapeSamePositional(t1: Template, t2: Template, ps1: seq<seq<Item>>, ps2: seq<seq<Item>>)
    requires t1.lead == t2.lead && t1.rest == t2.rest
    requires |ps1| == 1 && |ps2| == 1 && Positional(ps1[0]) == Positional(ps2[0])
    ensures Positional(MergeAll(Literal(t1), ps1)) == Positional(MergeAll(Literal(t2), ps2))
  {
    TemplatePositional(t1, ps1);
    TemplatePositional(t2, ps2);
    assert ps1[1..] == [] && ps2[1..] == [];
  }

  /** Seen positionally, applyIfNotEmpty yields exactly its pairs. */
  lemma IfNotEmptyPositional(request: seq<Item>, fields: AllowList)
    ensures Positional(IfNotEmpty(request, fields)) == ArgValues(IfNotEmptyArgs(request, fields))
  {
    var head := [Named("request", Arr(request)), Named("fields", Arr(FieldItems(fields)))];
    PositionalAppend(head, Flatten(IfNotEmptyArgs(request, fields)));
    FlattenPositional(IfNotEmptyArgs(request, fields));
    assert head[1..][1..] == [];
  }

  // ---------------------------------------------------------------------------
  // The statistics routes

  /** Every statistic's vector starts with `statistics`, its token, `v1` and the
      two date flags. */
  lemma StatisticLead(statistic: string, start: string, end: string, req: HttpRequest, body: seq<Item>)
    requires RouteCommand(Statistic(statistic, start, end), req, body).Some?
    ensures var p := Positional(RouteCommand(Statistic(statistic, start, end), req, body).value);
      |p| >= 7 && p[..7] == [Str("statistics"), Str(StatisticToken(statistic)), Str("v1"),
        Str("--start"), Str(start), Str("--end"), Str(end)]
  {
    var r := Statistic(statistic, start, end);
    StatisticShape(statistic, start, end, req, body);
    DatedLead(RouteTemplate(r, req, body), req, BodyAfter(r, req, body), start, end);
  }

  lemma StatisticShape(statistic: string, start: string, end: string, req: HttpRequest, body: seq<Item>)
    ensures Lead(Statistic(statistic, start, end)) == ["statistics", StatisticToken(statistic), "v1"]
    ensures Strs(Lead(Statistic(statistic, start, end))) ==
      [Str("statistics"), Str(StatisticToken(statistic)), Str("v1")]
    ensures Rest(Statistic(statistic, start, end), req, body) == DateFlags(start, end)
  {
  }

  /** A dated vector has the date flags right after its leading tokens. */
  lemma DatedLead(t: Template, req: HttpRequest, b: seq<Item>, start: string, end: string)
    requires t.rest == DateFlags(start, end)
    requires TemplateCommand(t, req, b).Some?
    ensures var p := Positional(TemplateCommand(t, req, b).value);
      |p| >= |t.lead| + 4 &&
      p[..|t.lead| + 4] == Strs(t.lead) + [Str("--start"), Str(start), Str("--end"), Str(end)]
  {
    var ps := Outputs(t.helpers, req, b).value;
    assert TemplateCommand(t, req, b).value == MergeAll(Literal(t), ps);
    TemplatePositional(t, ps);
    var f1, f2 := FlagPair("start", Str(start)), FlagPair("end", Str(end));
    assert FlagToken("start") == "--start" && FlagToken("end") == "--end";
    assert f1[1..][1..] == [] && f2[1..][1..] == [];
    PositionalAppend(f1, f2);
    var a, c := Strs(t.lead), AllPositional(ps);
    assert Positional(t.rest) == [Str("--start"), Str(start), Str("--end"), Str(end)];
    assert (a + Positional(t.rest) + c)[..|t.lead| + 4] == a + Positional(t.rest);
  }

  /** No statistic contains `_`, so the URL segment gives back the statistic. */
  lemma StatisticUrlSegment(statistic: string)
    requires statistic in Statistics
    ensures ReplaceChar(ReplaceChar(statistic, '-', '_'), '_', '-') == statistic
  {
    NoUnderscore(statistic);
    ReplaceCharRoundTrip(statistic, '-', '_');
  }

  lemma NoUnderscore(statistic: string)
    requires statistic in Statistics
    ensures '_' !in statistic
  {
    var i :| 0 <= i < |Statistics| && Statistics[i] == statistic;
    NoUnderscoreAt(i);
  }

  lemma NoUnderscoreAt(i: nat)
    requires i < |Statistics|
    ensures '_' !in Statistics[i]
  {
  }

  /** Distinct statistics get distinct command tokens. */
  lemma StatisticTokensDistinct(s1: string, s2: string)
    requires s1 in Statistics && s2 in Statistics && s1 != s2
    ensures StatisticToken(s1) != StatisticToken(s2)
  {
    assert "attributes" !in Statistics;
  }

  /** Distinct statistics get distinct URLs. */
  lemma StatisticUrlsDistinct(s1: string, s2: string)
    requires s1 in Statistics && s2 in Statistics && s1 != s2
    ensures StatisticUrl(s1) != StatisticUrl(s2)
  {
    NoUnderscore(s1);
    NoUnderscore(s2);
    if StatisticUrl(s1) == StatisticUrl(s2) {
      var u1, u2 := ReplaceChar(s1, '-', '_'), ReplaceChar(s2, '-', '_');
      assert StatisticUrl(s1) == "/" + u1 + "/v1/{start_date}/{end_date}";
      ReplaceCharEach(s1, '-', '_');
      ReplaceCharEach(s2, '-', '_');
      assert |u1| == |u2|;
      assert u1 == StatisticUrl(s1)[1..1 + |u1|];
      assert u2 == StatisticUrl(s2)[1..1 + |u2|];
      ReplaceCharInjective(s1, s2, '-', '_');
    }
  }
}
