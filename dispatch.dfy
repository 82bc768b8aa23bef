/** Handler selection of `AesirxAnalyticsCli::processAnalytics`: the chain of
    `if` and `switch` statements that turns the request method and the first
    words of a command vector into the handler class that runs it.

    A handler is named after its class without the `AesirX_Analytics_` prefix.
    When no branch assigns `$class`, the call that follows fails: that is
    `None`.  Every `switch` has a `default` that picks `NotFound`, so inside a
    recognised group an unknown word always gives `Some(NotFound)`. */
module Dispatch {
  import opened Php

  datatype Handler =
    // GET statistics
    | GetAttributeValue | GetAttributeValueDate | GetAllChannels | GetAllCities
    | GetAllCountries | GetAllRegions | GetAllBrowserVersions | GetAllBrowsers
    | GetMetricsAll | GetAllVisitors | GetAllDevices | GetAllPages | GetAllReferrers
    | GetAllEventNameType | GetAllAttribute | GetAllEvents | GetAllOutlinks
    | GetListEvents | GetAllLanguages
    // GET get
    | GetAllEventsName | GetAllFlows | GetAllFlowsDate | GetVisitorConsentList
    // GET list-consent-statistics
    | GetAllConsents | GetTotalConsentPerDay | GetTotalConsentTier
    // GET conversion
    | GetConversionProduct | GetConversionProductChart
    | GetConversionStatistic | GetConversionStatisticChart
    // GET live-visitors
    | GetLiveVisitorsList | GetLiveVisitorsTotal | GetLiveVisitorsDevice
    // GET datastream
    | GetDatastreamTemplate
    // POST
    | StartFingerprint | CloseVisitorEvent | GetNonce | JobGeo | ConversionReplace
    | AddConsentLevel1 | AddConsentLevel2 | AddConsentLevel3or4 | StoreDatastreamTemplate
    // PUT
    | RevokeConsentLevel1 | RevokeConsentLevel2 | RevokeConsentLevel3or4
    // every default
    | NotFound

  /** `$command[$i]`: the i-th auto-indexed entry of the vector (array_merge has
      renumbered them from 0); an index past the end reads as null. */
  function Word(cmd: seq<Item>, i: nat): Value {
    var p := Positional(cmd);
    if i < |p| then p[i] else Null
  }

  // Every label below is a non-empty, non-numeric string, so PHP's loose `==`
  // (and the loose comparison of `switch`) between a word and a label holds
  // exactly when the word is that very string: `w == Str(label)`.

  /** A word that is one of the given labels. */
  predicate OneOf(w: Value, labels: set<string>) {
    w.Str? && w.s in labels
  }

  /** The case labels of the `statistics` switch. */
  const StatisticsLabels: set<string> := {
    "attributes", "attribute-date", "channels", "cities", "countries", "regions",
    "browserversions", "browsers", "metrics", "visitors", "devices", "pages",
    "referrers", "events-name-type", "attribute", "visits", "outlinks", "events",
    "languages", "isps"}

  const GetLabels: set<string> := {"events", "flow", "flows", "flows-date", "visitor"}
  const ConsentStatisticsLabels: set<string> := {"all", "total-consents-by-date", "total-tiers-by-date"}
  const ConversionLabels: set<string> := {"products", "products-chart", "statistics", "statistics-chart"}
  const LiveVisitorsLabels: set<string> := {"list", "total", "device"}
  const LevelLabels: set<string> := {"level1", "level2", "level3", "level4"}

  /** GET `statistics`: the switch on `$command[1]`. */
  function StatisticsHandler(sub: Value): (h: Handler)
    ensures h == NotFound <==> !OneOf(sub, StatisticsLabels)
  {
    if sub == Str("attributes") then GetAttributeValue
    else if sub == Str("attribute-date") then GetAttributeValueDate
    else if sub == Str("channels") then GetAllChannels
    else if sub == Str("cities") then GetAllCities
    else if sub == Str("countries") then GetAllCountries
    else if sub == Str("regions") then GetAllRegions
    else if sub == Str("browserversions") then GetAllBrowserVersions
    else if sub == Str("browsers") then GetAllBrowsers
    else if sub == Str("metrics") then GetMetricsAll
    else if sub == Str("visitors") then GetAllVisitors
    else if sub == Str("devices") then GetAllDevices
    else if sub == Str("pages") then GetAllPages
    else if sub == Str("referrers") then GetAllReferrers
    else if sub == Str("events-name-type") then GetAllEventNameType
    else if sub == Str("attribute") then GetAllAttribute
    else if sub == Str("visits") then GetAllEvents
    else if sub == Str("outlinks") then GetAllOutlinks
    else if sub == Str("events") then GetListEvents
    else if sub == Str("languages") then GetAllLanguages
    else if sub == Str("isps") then GetAllLanguages
    else NotFound
  }

  /** GET `get`. */
  function GetGroupHandler(sub: Value): (h: Handler)
    ensures h == NotFound <==> !OneOf(sub, GetLabels)
  {
    if sub == Str("events") then GetAllEventsName
    else if sub == Str("flow") then GetAllFlows
    else if sub == Str("flows") then GetAllFlows
    else if sub == Str("flows-date") then GetAllFlowsDate
    else if sub == Str("visitor") then GetVisitorConsentList
    else NotFound
  }

  /** GET `list-consent-statistics`. */
  function ConsentStatisticsHandler(sub: Value): (h: Handler)
    ensures h == NotFound <==> !OneOf(sub, ConsentStatisticsLabels)
  {
    if sub == Str("all") then GetAllConsents
    else if sub == Str("total-consents-by-date") then GetTotalConsentPerDay
    else if sub == Str("total-tiers-by-date") then GetTotalConsentTier
    else NotFound
  }

  /** GET `conversion`. */
  function ConversionHandler(sub: Value): (h: Handler)
    ensures h == NotFound <==> !OneOf(sub, ConversionLabels)
  {
    if sub == Str("products") then GetConversionProduct
    else if sub == Str("products-chart") then GetConversionProductChart
    else if sub == Str("statistics") then GetConversionStatistic
    else if sub == Str("statistics-chart") then GetConversionStatisticChart
    else NotFound
  }

  /** GET `live-visitors`. */
  function LiveVisitorsHandler(sub: Value): (h: Handler)
    ensures h == NotFound <==> !OneOf(sub, LiveVisitorsLabels)
  {
    if sub == Str("list") then GetLiveVisitorsList
    else if sub == Str("total") then GetLiveVisitorsTotal
    else if sub == Str("device") then GetLiveVisitorsDevice
    else NotFound
  }

  /** The GET branch.  Its `if`s are not chained with `else`, but they test
      `$command[0]` against distinct strings, so at most one of them assigns. */
  function GetHandler(w0: Value, w1: Value): (h: Option<Handler>)
    ensures h.Some? <==> OneOf(w0, GetGroups)
  {
    if w0 == Str("statistics") then Some(StatisticsHandler(w1))
    else if w0 == Str("get") then Some(GetGroupHandler(w1))
    else if w0 == Str("list-consent-statistics") then Some(ConsentStatisticsHandler(w1))
    else if w0 == Str("conversion") then Some(ConversionHandler(w1))
    else if w0 == Str("live-visitors") then Some(LiveVisitorsHandler(w1))
    else if w0 == Str("datastream") then Some(GetDatastreamTemplate)
    else None
  }

  const GetGroups: set<string> := {
    "statistics", "get", "list-consent-statistics", "conversion", "live-visitors", "datastream"}

  /** POST `visitor`: only `start` and `end` open a switch on `$command[2]`. */
  function VisitorHandler(w1: Value, w2: Value): (h: Option<Handler>)
    ensures h.Some? <==> OneOf(w1, {"start", "end"})
    ensures h == Some(NotFound) <==>
      (w1 == Str("start") && w2 != Str("v2")) || (w1 == Str("end") && w2 != Str("v1"))
  {
    if w1 == Str("start") then Some(if w2 == Str("v2") then StartFingerprint else NotFound)
    else if w1 == Str("end") then Some(if w2 == Str("v1") then CloseVisitorEvent else NotFound)
    else None
  }

  /** POST `job`. */
  function JobHandler(w1: Value): (h: Handler)
    ensures h == NotFound <==> w1 != Str("geo")
  {
    if w1 == Str("geo") then JobGeo else NotFound
  }

  /** POST `conversion`. */
  function ConversionReplaceHandler(w1: Value): (h: Handler)
    ensures h == NotFound <==> w1 != Str("replace")
  {
    if w1 == Str("replace") then ConversionReplace else NotFound
  }

  /** POST `consent`: `level3` falls through to the `level4` case. */
  function ConsentHandler(w1: Value): (h: Handler)
    ensures h == NotFound <==> !OneOf(w1, LevelLabels)
  {
    if w1 == Str("level1") then AddConsentLevel1
    else if w1 == Str("level2") then AddConsentLevel2
    else if w1 == Str("level3") || w1 == Str("level4") then AddConsentLevel3or4
    else NotFound
  }

  /** The POST branch. */
  function PostHandler(w0: Value, w1: Value, w2: Value): (h: Option<Handler>)
    ensures h.Some? <==>
      (w0 == Str("visitor") && OneOf(w1, {"start", "end"})) || OneOf(w0, PostGroups)
  {
    if w0 == Str("visitor") then VisitorHandler(w1, w2)
    else if w0 == Str("wallet") then Some(GetNonce)
    else if w0 == Str("job") then Some(JobHandler(w1))
    else if w0 == Str("conversion") then Some(ConversionReplaceHandler(w1))
    else if w0 == Str("consent") then Some(ConsentHandler(w1))
    else if w0 == Str("datastream") then Some(StoreDatastreamTemplate)
    else None
  }

  const PostGroups: set<string> := {"wallet", "job", "conversion", "consent", "datastream"}

  /** PUT `revoke`: `level3` falls through to the `level4` case. */
  function RevokeHandler(w1: Value): (h: Handler)
    ensures h == NotFound <==> !OneOf(w1, LevelLabels)
  {
    if w1 == Str("level1") then RevokeConsentLevel1
    else if w1 == Str("level2") then RevokeConsentLevel2
    else if w1 == Str("level3") || w1 == Str("level4") then RevokeConsentLevel3or4
    else NotFound
  }

  /** The PUT branch. */
  function PutHandler(w0: Value, w1: Value): (h: Option<Handler>)
    ensures h.Some? <==> w0 == Str("revoke")
  {
    if w0 == Str("revoke") then Some(RevokeHandler(w1)) else None
  }

  /** Whether some branch assigns `$class` for this method and these words. */
  predicate Assigned(verb: string, w0: Value, w1: Value) {
    (verb == "GET" && OneOf(w0, GetGroups)) ||
    (verb == "POST" && ((w0 == Str("visitor") && OneOf(w1, {"start", "end"})) || OneOf(w0, PostGroups))) ||
    (verb == "PUT" && w0 == Str("revoke"))
  }

  /** The whole chain on the first three words. */
  function Choose(verb: string, w0: Value, w1: Value, w2: Value): (h: Option<Handler>)
    ensures h.Some? <==> Assigned(verb, w0, w1)
  {
    if verb == "GET" then GetHandler(w0, w1)
    else if verb == "POST" then PostHandler(w0, w1, w2)
    else if verb == "PUT" then PutHandler(w0, w1)
    else None
  }

  /** `processAnalytics($command)` up to the handler call, for the request
      method `verb` (`$_SERVER['REQUEST_METHOD']`). */
  function SelectHandler(verb: string, cmd: seq<Item>): (h: Option<Handler>)
    ensures h.Some? <==> Assigned(verb, Word(cmd, 0), Word(cmd, 1))
  {
    Choose(verb, Word(cmd, 0), Word(cmd, 1), Word(cmd, 2))
  }

  // ---------------------------------------------------------------------------
  // Which words lead to which handler

  /** The request method under which each handler is chosen. */
  function HandlerVerb(h: Handler): string {
    match h
    case StartFingerprint | CloseVisitorEvent | GetNonce | JobGeo | ConversionReplace
      | AddConsentLevel1 | AddConsentLevel2 | AddConsentLevel3or4 | StoreDatastreamTemplate => "POST"
    case RevokeConsentLevel1 | RevokeConsentLevel2 | RevokeConsentLevel3or4 => "PUT"
    case NotFound => ""
    case _ => "GET"
  }

  /** The handlers of the GET `statistics` switch. */
  predicate IsStatisticsHandler(h: Handler) {
    h.GetAttributeValue? || h.GetAttributeValueDate? || h.GetAllChannels? || h.GetAllCities? ||
    h.GetAllCountries? || h.GetAllRegions? || h.GetAllBrowserVersions? || h.GetAllBrowsers? ||
    h.GetMetricsAll? || h.GetAllVisitors? || h.GetAllDevices? || h.GetAllPages? ||
    h.GetAllReferrers? || h.GetAllEventNameType? || h.GetAllAttribute? || h.GetAllEvents? ||
    h.GetAllOutlinks? || h.GetListEvents? || h.GetAllLanguages?
  }

  /** The `case` label under which the `statistics` switch creates each of its
      handlers (`languages` for the handler that `isps` shares). */
  function StatisticsLabel(h: Handler): string {
    match h
    case GetAttributeValue => "attributes"
    case GetAttributeValueDate => "attribute-date"
    case GetAllChannels => "channels"
    case GetAllCities => "cities"
    case GetAllCountries => "countries"
    case GetAllRegions => "regions"
    case GetAllBrowserVersions => "browserversions"
    case GetAllBrowsers => "browsers"
    case GetMetricsAll => "metrics"
    case GetAllVisitors => "visitors"
    case GetAllDevices => "devices"
    case GetAllPages => "pages"
    case GetAllReferrers => "referrers"
    case GetAllEventNameType => "events-name-type"
    case GetAllAttribute => "attribute"
    case GetAllEvents => "visits"
    case GetAllOutlinks => "outlinks"
    case GetListEvents => "events"
    case GetAllLanguages => "languages"
    case _ => ""
  }

  /** The words that select each handler outside the `statistics` switch,
      with the aliases in one form (`flows`, `level3`).  `wallet` and
      `datastream` do not look at `$command[1]`, and only the visitor handlers
      look at `$command[2]`. */
  function OtherWords(h: Handler): seq<string> {
    match h
    case GetAllEventsName => ["get", "events"]
    case GetAllFlows => ["get", "flows"]
    case GetAllFlowsDate => ["get", "flows-date"]
    case GetVisitorConsentList => ["get", "visitor"]
    case GetAllConsents => ["list-consent-statistics", "all"]
    case GetTotalConsentPerDay => ["list-consent-statistics", "total-consents-by-date"]
    case GetTotalConsentTier => ["list-consent-statistics", "total-tiers-by-date"]
    case GetConversionProduct => ["conversion", "products"]
    case GetConversionProductChart => ["conversion", "products-chart"]
    case GetConversionStatistic => ["conversion", "statistics"]
    case GetConversionStatisticChart => ["conversion", "statistics-chart"]
    case GetLiveVisitorsList => ["live-visitors", "list"]
    case GetLiveVisitorsTotal => ["live-visitors", "total"]
    case GetLiveVisitorsDevice => ["live-visitors", "device"]
    case GetDatastreamTemplate => ["datastream"]
    case StartFingerprint => ["visitor", "start", "v2"]
    case CloseVisitorEvent => ["visitor", "end", "v1"]
    case GetNonce => ["wallet"]
    case JobGeo => ["job", "geo"]
    case ConversionReplace => ["conversion", "replace"]
    case AddConsentLevel1 => ["consent", "level1"]
    case AddConsentLevel2 => ["consent", "level2"]
    case AddConsentLevel3or4 => ["consent", "level3"]
    case StoreDatastreamTemplate => ["datastream"]
    case RevokeConsentLevel1 => ["revoke", "level1"]
    case RevokeConsentLevel2 => ["revoke", "level2"]
    case RevokeConsentLevel3or4 => ["revoke", "level3"]
    case _ => []
  }

  /** The leading words that select a handler. */
  function HandlerWords(h: Handler): seq<string> {
    if IsStatisticsHandler(h) then ["statistics", StatisticsLabel(h)] else OtherWords(h)
  }

  /** The i-th word of a key, or null past its end. */
  function KeyWord(key: seq<string>, i: nat): Value {
    if i < |key| then Str(key[i]) else Null
  }

  /** Every real handler is reached: its words, under its method, select it. */
  lemma KeySelectsHandler(h: Handler)
    requires h != NotFound
    ensures Choose(HandlerVerb(h), KeyWord(HandlerWords(h), 0), KeyWord(HandlerWords(h), 1),
      KeyWord(HandlerWords(h), 2)) == Some(h)
  {
    if IsStatisticsHandler(h) {
      if h.GetAttributeValue? || h.GetAttributeValueDate? || h.GetAllChannels? || h.GetAllCities? || h.GetAllCountries? {
        StatisticsLabelSelects1(h);
      } else if h.GetAllRegions? || h.GetAllBrowserVersions? || h.GetAllBrowsers? || h.GetMetricsAll? || h.GetAllVisitors? {
        StatisticsLabelSelects2(h);
      } else if h.GetAllDevices? || h.GetAllPages? || h.GetAllReferrers? || h.GetAllEventNameType? || h.GetAllAttribute? {
        StatisticsLabelSelects3(h);
      } else {
        StatisticsLabelSelects4(h);
      }
    } else if HandlerVerb(h) == "GET" {
      OtherGetWordsSelect(h);
    } else {
      PostPutWordsSelect(h);
    }
  }

  lemma StatisticsLabelSelects1(h: Handler)
    requires h.GetAttributeValue? || h.GetAttributeValueDate? || h.GetAllChannels? || h.GetAllCities? || h.GetAllCountries?
    ensures StatisticsHandler(Str(StatisticsLabel(h))) == h
  {
  }

  lemma StatisticsLabelSelects2(h: Handler)
    requires h.GetAllRegions? || h.GetAllBrowserVersions? || h.GetAllBrowsers? || h.GetMetricsAll? || h.GetAllVisitors?
    ensures StatisticsHandler(Str(StatisticsLabel(h))) == h
  {
  }

  lemma StatisticsLabelSelects3(h: Handler)
    requires h.GetAllDevices? || h.GetAllPages? || h.GetAllReferrers? || h.GetAllEventNameType? || h.GetAllAttribute?
    ensures StatisticsHandler(Str(StatisticsLabel(h))) == h
  {
  }

  lemma StatisticsLabelSelects4(h: Handler)
    requires h.GetAllEvents? || h.GetAllOutlinks? || h.GetListEvents? || h.GetAllLanguages?
    ensures StatisticsHandler(Str(StatisticsLabel(h))) == h
  {
  }

  lemma OtherGetWordsSelect(h: Handler)
    requires h != NotFound && !IsStatisticsHandler(h) && HandlerVerb(h) == "GET"
    ensures GetHandler(KeyWord(OtherWords(h), 0), KeyWord(OtherWords(h), 1)) == Some(h)
  {
  }

  lemma PostPutWordsSelect(h: Handler)
    requires h != NotFound && HandlerVerb(h) != "GET"
    ensures HandlerVerb(h) == "POST" ==>
      PostHandler(KeyWord(OtherWords(h), 0), KeyWord(OtherWords(h), 1), KeyWord(OtherWords(h), 2)) == Some(h)
    ensures HandlerVerb(h) == "PUT" ==> PutHandler(KeyWord(OtherWords(h), 0), KeyWord(OtherWords(h), 1)) == Some(h)
  {
  }

  // ---------------------------------------------------------------------------
  // Properties of the whole table

  /** `isps` selects the handler of `languages`. */
  lemma StatisticsAlias(w2: Value)
    ensures Choose("GET", Str("statistics"), Str("isps"), w2) ==
      Choose("GET", Str("statistics"), Str("languages"), w2) == Some(GetAllLanguages)
  {
  }

  /** `flow` selects the handler of `flows`. */
  lemma FlowAlias(w2: Value)
    ensures Choose("GET", Str("get"), Str("flow"), w2) ==
      Choose("GET", Str("get"), Str("flows"), w2) == Some(GetAllFlows)
  {
  }

  /** `level3` and `level4` share the consent handler. */
  lemma ConsentLevelAlias(w2: Value)
    ensures Choose("POST", Str("consent"), Str("level3"), w2) ==
      Choose("POST", Str("consent"), Str("level4"), w2) == Some(AddConsentLevel3or4)
  {
  }

  /** `level3` and `level4` share the revoke handler. */
  lemma RevokeLevelAlias(w2: Value)
    ensures Choose("PUT", Str("revoke"), Str("level3"), w2) ==
      Choose("PUT", Str("revoke"), Str("level4"), w2) == Some(RevokeConsentLevel3or4)
  {
  }

  /** `wallet` and both `datastream` branches choose their handler whatever
      follows, and `datastream` names a different handler under GET and POST. */
  lemma FirstWordSuffices(w1: Value, w2: Value)
    ensures Choose("POST", Str("wallet"), w1, w2) == Some(GetNonce)
    ensures Choose("GET", Str("datastream"), w1, w2) == Some(GetDatastreamTemplate)
    ensures Choose("POST", Str("datastream"), w1, w2) == Some(StoreDatastreamTemplate)
  {
  }

  /** The words for which a recognised branch falls to its `default`. */
  predicate UnknownInGroup(verb: string, w0: Value, w1: Value, w2: Value) {
    (verb == "GET" && (
      (w0 == Str("statistics") && !OneOf(w1, StatisticsLabels)) ||
      (w0 == Str("get") && !OneOf(w1, GetLabels)) ||
      (w0 == Str("list-consent-statistics") && !OneOf(w1, ConsentStatisticsLabels)) ||
      (w0 == Str("conversion") && !OneOf(w1, ConversionLabels)) ||
      (w0 == Str("live-visitors") && !OneOf(w1, LiveVisitorsLabels)))) ||
    (verb == "POST" && (
      (w0 == Str("visitor") && ((w1 == Str("start") && w2 != Str("v2")) || (w1 == Str("end") && w2 != Str("v1")))) ||
      (w0 == Str("job") && w1 != Str("geo")) ||
      (w0 == Str("conversion") && w1 != Str("replace")) ||
      (w0 == Str("consent") && !OneOf(w1, LevelLabels)))) ||
    (verb == "PUT" && w0 == Str("revoke") && !OneOf(w1, LevelLabels))
  }

  /** `NotFound` is chosen exactly for an unknown word inside a recognised
      group. */
  lemma NotFoundExactly(verb: string, w0: Value, w1: Value, w2: Value)
    ensures Choose(verb, w0, w1, w2) == Some(NotFound) <==> UnknownInGroup(verb, w0, w1, w2)
  {
    if verb == "GET" {
      GetNotFound(w0, w1);
    } else if verb == "POST" {
      PostNotFound(w0, w1, w2);
    }
  }

  lemma GetNotFound(w0: Value, w1: Value)
    ensures GetHandler(w0, w1) == Some(NotFound) <==> UnknownInGroup("GET", w0, w1, Null)
  {
  }

  lemma PostNotFound(w0: Value, w1: Value, w2: Value)
    ensures PostHandler(w0, w1, w2) == Some(NotFound) <==> UnknownInGroup("POST", w0, w1, w2)
  {
  }

  /** Selection reads no more than the first three positional entries: whatever
      follows them does not change the handler. */
  lemma LeadingWordsDecide(verb: string, cmd: seq<Item>, extra: seq<Item>)
    requires |Positional(cmd)| >= 3
    ensures SelectHandler(verb, cmd + extra) == SelectHandler(verb, cmd)
  {
    PositionalAppend(cmd, extra);
    var p := Positional(cmd);
    assert Word(cmd + extra, 0) == (p + Positional(extra))[0] == p[0];
    assert Word(cmd + extra, 1) == (p + Positional(extra))[1] == p[1];
    assert Word(cmd + extra, 2) == (p + Positional(extra))[2] == p[2];
  }
}
