/** What the router's vectors reach in the dispatcher.  Each route closure
    hands its vector to the callback, which passes it to
    `AesirxAnalyticsCli::processAnalytics` under the method the route is
    registered for; `Expected` says, route by route, which handler that selects. */
module Reach {
  import opened Php
  import opened Routes
  import opened Dispatch

  /** The handler each statistic's route reaches.  `attribute` is sent as
      `attributes` and so reaches the attribute-value handler; `domains`,
      `user-types` and `user-flows` have no case in the switch. */
  function StatisticRouteHandler(statistic: string): Handler {
    if statistic == "visits" then GetAllEvents
    else if statistic == "domains" then NotFound
    else if statistic == "metrics" then GetMetricsAll
    else if statistic == "pages" then GetAllPages
    else if statistic == "visitors" then GetAllVisitors
    else if statistic == "browsers" then GetAllBrowsers
    else if statistic == "browserversions" then GetAllBrowserVersions
    else if statistic == "languages" then GetAllLanguages
    else if statistic == "devices" then GetAllDevices
    else if statistic == "countries" then GetAllCountries
    else if statistic == "cities" then GetAllCities
    else if statistic == "isps" then GetAllLanguages
    else if statistic == "attribute" then GetAttributeValue
    else if statistic == "events" then GetListEvents
    else if statistic == "events-name-type" then GetAllEventNameType
    else if statistic == "attribute-date" then GetAttributeValueDate
    else if statistic == "user-types" then NotFound
    else if statistic == "outlinks" then GetAllOutlinks
    else if statistic == "channels" then GetAllChannels
    else if statistic == "user-flows" then NotFound
    else if statistic == "regions" then GetAllRegions
    else GetAllReferrers
  }

  /** The handler each route reaches; None where no branch of the dispatcher
      assigns one. */
  function Expected(r: Route): Option<Handler> {
    match r
    case WalletNonce(_, _) => Some(GetNonce)
    case ConsentLevel1(_, _) => Some(AddConsentLevel1)
    case RevokeLevel1(_) => Some(RevokeConsentLevel1)
    case ListConsentLevel2 => None
    case RevokeLevel2(_) => Some(RevokeConsentLevel2)
    case ConsentLevel2(_) => Some(AddConsentLevel2)
    case ListConsentLevel3(_, _) => None
    case RevokeLevel3(_, _, _) => Some(RevokeConsentLevel3or4)
    case ConsentLevel3(_, _, _) => Some(AddConsentLevel3or4)
    case ListConsentLevel4(_, _, _) => None
    case RevokeLevel4(_, _, _, _) => Some(RevokeConsentLevel3or4)
    case ConsentLevel4(_, _, _, _) => Some(AddConsentLevel3or4)
    case ListConsentLevel4V2(_, _) => None
    case RevokeLevel4V2(_, _, _) => Some(RevokeConsentLevel3or4)
    case ConsentLevel4V2(_, _, _) => Some(AddConsentLevel3or4)
    case VisitorInit => None
    case VisitorStart => Some(NotFound)
    case VisitorEnd => Some(CloseVisitorEvent)
    case VisitorGet(_) => Some(GetVisitorConsentList)
    case VisitorStartV2 => Some(StartFingerprint)
    case ConsentsByDate(_, _) => Some(GetTotalConsentPerDay)
    case ConsentsTier(_, _) => Some(GetTotalConsentTier)
    case ConsentsAll(_, _) => Some(GetAllConsents)
    case FlowGet(_) => Some(GetAllFlows)
    case Flows(_, _) => Some(GetAllFlows)
    case FlowsDate(_, _) => Some(GetAllFlowsDate)
    case VisitorEvents(_, _) => Some(GetAllEventsName)
    case LiveVisitorsList => Some(GetLiveVisitorsList)
    case LiveVisitorsTotal => Some(GetLiveVisitorsTotal)
    case LiveVisitorsDevice => Some(GetLiveVisitorsDevice)
    case Statistic(statistic, _, _) => Some(StatisticRouteHandler(statistic))
    case ConversionProducts(_, _) => Some(GetConversionProduct)
    case ConversionProductsChart(_, _) => Some(GetConversionProductChart)
    case ConversionStatistics(_, _) => Some(GetConversionStatistic)
    case ConversionStatisticsChart(_, _) => Some(GetConversionStatisticChart)
    case DatastreamTemplateDemo => Some(GetDatastreamTemplate)
    case DatastreamTemplateStore => Some(StoreDatastreamTemplate)
  }

  /** The router only adds statistics routes for the listed statistics. */
  predicate Registered(r: Route) {
    r.Statistic? ==> r.statistic in Statistics
  }

  /** Words that start with a route's leading tokens (two or three of them). */
  predicate FitsLead(lead: seq<string>, w0: Value, w1: Value, w2: Value) {
    |lead| >= 2 && w0 == Str(lead[0]) && w1 == Str(lead[1]) && (|lead| > 2 ==> w2 == Str(lead[2]))
  }

  /** The vector of every route, dispatched under the route's method, reaches
      the handler `Expected` names. */
  lemma RouterReaches(r: Route, req: HttpRequest, body: seq<Item>)
    requires Registered(r) && RouteCommand(r, req, body).Some?
    ensures SelectHandler(RouteMethod(r), RouteCommand(r, req, body).value) == Expected(r)
  {
    var cmd := RouteCommand(r, req, body).value;
    RouteLead(r, req, body);
    TemplateLead(r, req, body);
    LeadWords(cmd, Lead(r));
    LeadReaches(r, Word(cmd, 0), Word(cmd, 1), Word(cmd, 2));
  }

  lemma TemplateLead(r: Route, req: HttpRequest, body: seq<Item>)
    ensures RouteTemplate(r, req, body).lead == Lead(r)
  {
  }

  /** A vector that starts with a route's tokens has them as its first words. */
  lemma LeadWords(cmd: seq<Item>, lead: seq<string>)
    requires |lead| >= 2 && |lead| <= |Positional(cmd)| && Positional(cmd)[..|lead|] == Strs(lead)
    ensures FitsLead(lead, Word(cmd, 0), Word(cmd, 1), Word(cmd, 2))
  {
    var p := Positional(cmd);
    assert p[0] == p[..|lead|][0] == Str(lead[0]);
    assert p[1] == p[..|lead|][1] == Str(lead[1]);
    if |lead| > 2 {
      assert p[2] == p[..|lead|][2] == Str(lead[2]);
    }
  }

  lemma LeadReaches(r: Route, w0: Value, w1: Value, w2: Value)
    requires Registered(r) && FitsLead(Lead(r), w0, w1, w2)
    ensures Choose(RouteMethod(r), w0, w1, w2) == Expected(r)
  {
    if r.Statistic? {
      StatisticReaches(r.statistic);
    } else if r.WalletNonce? || r.ConsentLevel1? || r.ConsentLevel2? || r.ConsentLevel3? ||
      r.ConsentLevel4? || r.ConsentLevel4V2? {
      ConsentReaches(r, w0, w1, w2);
    } else if r.RevokeLevel1? || r.RevokeLevel2? || r.RevokeLevel3? || r.RevokeLevel4? || r.RevokeLevel4V2? {
      RevokeReaches(r, w0, w1, w2);
    } else if r.ListConsentLevel2? || r.ListConsentLevel3? || r.ListConsentLevel4? || r.ListConsentLevel4V2? {
      ListConsentReaches(r, w0, w1, w2);
    } else if r.VisitorInit? || r.VisitorStart? || r.VisitorEnd? || r.VisitorGet? || r.VisitorStartV2? {
      VisitorReaches(r, w0, w1, w2);
    } else if r.ConsentsByDate? || r.ConsentsTier? || r.ConsentsAll? {
      ConsentStatisticsReaches(r, w0, w1, w2);
    } else if r.FlowGet? || r.Flows? || r.FlowsDate? || r.VisitorEvents? {
      FlowReaches(r, w0, w1, w2);
    } else if r.ConversionProducts? || r.ConversionProductsChart? || r.ConversionStatistics? ||
      r.ConversionStatisticsChart? {
      ConversionReaches(r, w0, w1, w2);
    } else if r.LiveVisitorsList? || r.LiveVisitorsTotal? || r.LiveVisitorsDevice? {
      LiveReaches(r, w0, w1, w2);
    } else {
      DatastreamReaches(r, w0, w1, w2);
    }
  }

  lemma ConsentReaches(r: Route, w0: Value, w1: Value, w2: Value)
    requires r.WalletNonce? || r.ConsentLevel1? || r.ConsentLevel2? || r.ConsentLevel3? ||
      r.ConsentLevel4? || r.ConsentLevel4V2?
    requires FitsLead(Lead(r), w0, w1, w2)
    ensures Choose(RouteMethod(r), w0, w1, w2) == Expected(r)
  {
  }

  lemma RevokeReaches(r: Route, w0: Value, w1: Value, w2: Value)
    requires r.RevokeLevel1? || r.RevokeLevel2? || r.RevokeLevel3? || r.RevokeLevel4? || r.RevokeLevel4V2?
    requires FitsLead(Lead(r), w0, w1, w2)
    ensures Choose(RouteMethod(r), w0, w1, w2) == Expected(r)
  {
  }

  lemma ListConsentReaches(r: Route, w0: Value, w1: Value, w2: Value)
    requires r.ListConsentLevel2? || r.ListConsentLevel3? || r.ListConsentLevel4? || r.ListConsentLevel4V2?
    requires FitsLead(Lead(r), w0, w1, w2)
    ensures Choose(RouteMethod(r), w0, w1, w2) == Expected(r)
  {
  }

  lemma VisitorReaches(r: Route, w0: Value, w1: Value, w2: Value)
    requires r.VisitorInit? || r.VisitorStart? || r.VisitorEnd? || r.VisitorGet? || r.VisitorStartV2?
    requires FitsLead(Lead(r), w0, w1, w2)
    ensures Choose(RouteMethod(r), w0, w1, w2) == Expected(r)
  {
  }

  lemma ConsentStatisticsReaches(r: Route, w0: Value, w1: Value, w2: Value)
    requires r.ConsentsByDate? || r.ConsentsTier? || r.ConsentsAll?
    requires FitsLead(Lead(r), w0, w1, w2)
    ensures Choose(RouteMethod(r), w0, w1, w2) == Expected(r)
  {
  }

  lemma FlowReaches(r: Route, w0: Value, w1: Value, w2: Value)
    requires r.FlowGet? || r.Flows? || r.FlowsDate? || r.VisitorEvents?
    requires FitsLead(Lead(r), w0, w1, w2)
    ensures Choose(RouteMethod(r), w0, w1, w2) == Expected(r)
  {
  }

  lemma ConversionReaches(r: Route, w0: Value, w1: Value, w2: Value)
    requires r.ConversionProducts? || r.ConversionProductsChart? || r.ConversionStatistics? ||
      r.ConversionStatisticsChart?
    requires FitsLead(Lead(r), w0, w1, w2)
    ensures Choose(RouteMethod(r), w0, w1, w2) == Expected(r)
  {
  }

  lemma LiveReaches(r: Route, w0: Value, w1: Value, w2: Value)
    requires r.LiveVisitorsList? || r.LiveVisitorsTotal? || r.LiveVisitorsDevice?
    requires FitsLead(Lead(r), w0, w1, w2)
    ensures Choose(RouteMethod(r), w0, w1, w2) == Expected(r)
  {
  }

  lemma DatastreamReaches(r: Route, w0: Value, w1: Value, w2: Value)
    requires r.DatastreamTemplateDemo? || r.DatastreamTemplateStore?
    requires FitsLead(Lead(r), w0, w1, w2)
    ensures Choose(RouteMethod(r), w0, w1, w2) == Expected(r)
  {
  }

  /** The statistics switch, fed with the token of a listed statistic. */
  lemma StatisticReaches(statistic: string)
    requires statistic in Statistics
    ensures StatisticsHandler(Str(StatisticToken(statistic))) == StatisticRouteHandler(statistic)
  {
    if statistic in {"visits", "domains", "metrics", "pages", "visitors", "browsers"} {
      StatisticReaches1(statistic);
    } else if statistic in {"browserversions", "languages", "devices", "countries", "cities", "isps"} {
      StatisticReaches2(statistic);
    } else if statistic in {"attribute", "events", "events-name-type", "attribute-date", "user-types"} {
      StatisticReaches3(statistic);
    } else if statistic in {"outlinks", "channels", "user-flows"} {
      StatisticReaches4(statistic);
    } else {
      StatisticReaches5(statistic);
    }
  }

  lemma StatisticReaches1(statistic: string)
    requires statistic in {"visits", "domains", "metrics", "pages", "visitors", "browsers"}
    ensures StatisticsHandler(Str(StatisticToken(statistic))) == StatisticRouteHandler(statistic)
  {
  }

  lemma StatisticReaches2(statistic: string)
    requires statistic in {"browserversions", "languages", "devices", "countries", "cities", "isps"}
    ensures StatisticsHandler(Str(StatisticToken(statistic))) == StatisticRouteHandler(statistic)
  {
  }

  lemma StatisticReaches3(statistic: string)
    requires statistic in {"attribute", "events", "events-name-type", "attribute-date", "user-types"}
    ensures StatisticsHandler(Str(StatisticToken(statistic))) == StatisticRouteHandler(statistic)
  {
  }

  lemma StatisticReaches4(statistic: string)
    requires statistic in {"outlinks", "channels", "user-flows"}
    ensures StatisticsHandler(Str(StatisticToken(statistic))) == StatisticRouteHandler(statistic)
  {
  }

  lemma StatisticReaches5(statistic: string)
    requires statistic in {"regions", "referrers"}
    ensures StatisticsHandler(Str(StatisticToken(statistic))) == StatisticRouteHandler(statistic)
  {
  }

  // ---------------------------------------------------------------------------
  // Gaps between the router and the dispatcher

  /** `domains`, `user-types` and `user-flows` are the statistics without a
      handler, and no statistic reaches the `attribute` case. */
  lemma StatisticTableGaps(statistic: string)
    requires statistic in Statistics
    ensures StatisticRouteHandler(statistic) == NotFound <==>
      statistic in {"domains", "user-types", "user-flows"}
    ensures StatisticRouteHandler(statistic) != GetAllAttribute
  {
  }

  /** The routes whose vector no branch of the dispatcher handles: the
      `list-consent` listings under GET and the visitor `init` under POST. */
  lemma UnhandledRoutes(r: Route, req: HttpRequest, body: seq<Item>)
    requires Registered(r) && RouteCommand(r, req, body).Some?
    ensures SelectHandler(RouteMethod(r), RouteCommand(r, req, body).value).None? <==>
      r.ListConsentLevel2? || r.ListConsentLevel3? || r.ListConsentLevel4? ||
      r.ListConsentLevel4V2? || r.VisitorInit?
  {
    RouterReaches(r, req, body);
  }

  /** The routes whose vector falls to a `default`: visitor `start` v1, and the
      three statistics the switch does not list. */
  lemma NotFoundRoutes(r: Route, req: HttpRequest, body: seq<Item>)
    requires Registered(r) && RouteCommand(r, req, body).Some?
    ensures SelectHandler(RouteMethod(r), RouteCommand(r, req, body).value) == Some(NotFound) <==>
      r.VisitorStart? || (r.Statistic? && r.statistic in {"domains", "user-types", "user-flows"})
  {
    RouterReaches(r, req, body);
    if r.Statistic? {
      StatisticTableGaps(r.statistic);
    }
  }

  /** The `attribute` case of the statistics switch is dead code for the router. */
  lemma AttributeCaseUnreached(r: Route, req: HttpRequest, body: seq<Item>)
    requires Registered(r) && RouteCommand(r, req, body).Some?
    ensures SelectHandler(RouteMethod(r), RouteCommand(r, req, body).value) != Some(GetAllAttribute)
  {
    RouterReaches(r, req, body);
    if r.Statistic? {
      StatisticTableGaps(r.statistic);
    }
  }
}
