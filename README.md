# AesirX analytics library: command vectors, handler dispatch and environment

This project models the core of the AesirX analytics PHP library in Dafny and
proves properties of the model. The library turns HTTP requests into command
vectors and picks a handler for each vector.

- `RouterFactory` gives every route a closure. The closure builds an ordered
  PHP array and passes it to a callback. The array holds:
  - fixed leading tokens (`consent`, `level1`, `v1`, …);
  - `--flag`, value pairs and named copies of the path parameters;
  - the outputs of three helpers, merged with `array_merge`:
    - `applyIfNotEmpty` copies allow-listed request fields;
    - `applyListParams` encodes paging, sorting and filter query parameters;
    - `applyAttributes` encodes `name=value` attribute pairs.
- Some closures also write an IP fallback into the request body.
- `getToken` extracts a bearer token.
- Route placeholders are constrained by a UUID pattern.
- `AesirxAnalyticsCli::processAnalytics` is a chain of `if`s and `switch`es.
  It goes from the request method and the first three words of a vector to a
  handler class.
- `Env` stores the licence and database credentials as a fixed-key map.

## Layout

- `php.dfy` (`Php`): PHP's mixed-key arrays.
  - An array is a `seq<Item>`, each entry positional (`Pos`) or keyed (`Named`).
  - A `Value` is null, a string or an array.
  - The module holds `empty`/truthiness, lookup, assignment, `array_merge` and `str_replace` on one character.
- `command.dfy` (`Command`): flag/value pairs and their flattening into positional entries.
- `token.dfy` (`Token`): `getToken` and the regular expression `/Bearer\s(\S+)/`.
- `patterns.dfy` (`Patterns`): the `uuidMatch` constraint and the `web3id` constraint.
- `builders.dfy` (`Builders`): the arrays the three helpers return, as functions.
- `routes.dfy` (`Routes`): the route table.
  - `Route` has one constructor per closure, carrying its path parameters.
  - `RouteCommand` is the vector each closure hands to the callback.
  - The module also holds the statistics loop's tokens and URLs.
- `factory.dfy` (`Factory`): class `RouterFactory`.
  - Its fields are the request body the closures update and the routes the statistics loop added.
  - The three helpers are methods with the source's appending loops.
  - Each method is proved equal to its `Builders` function.
  - `Invoke` runs one closure and is proved to produce `RouteCommand`.
- `dispatch.dfy` (`Dispatch`): `processAnalytics` as `SelectHandler`, a function returning `Option<Handler>`.
  - `None` means no branch assigns `$class`.
  - `NotFound` is `AesirX_Analytics_Not_Found`.
- `reach.dfy` (`Reach`): facts across files.
  - It proves which handler the vector of every route reaches.
  - That covers which routes reach `NotFound`, which reach none, and that one case label is dead.
- `env.dfy` (`Environment`): class `Env` with its map field.

### Where the model departs from a plain reading

- A PHP error is `None`: `applyListParams` storing a date bound into a string-valued `filter` query parameter.
  - PHP 8 throws there.
  - The closure then builds no vector.
- The decoded request body, the host request and the request method are parameters:
  - the request supplies the IP, the host, the query parameters, the `authorization` header and `$_POST`;
  - the URL matching of the router library is a `Route` value with its path parameters.
- Not every router vector reaches a branch of `processAnalytics`.
  - The `GET consent/…/list` vectors and the `POST visitor init` vector leave `$class` undefined at the call (`Reach.UnhandledRoutes`).
- The GET `statistics` switch has 20 case labels, not one per listed statistic.
  - `domains`, `user-types` and `user-flows` fall to `NotFound`.
  - The `attribute` case is never reached, because the router sends `attributes` for that statistic (`Reach.NotFoundRoutes`, `Reach.AttributeCaseUnreached`).

## Model

| member | source | states |
|---|---|---|
| Php.Set | src/RouterFactory.php:138-140 | `$a[$k] = $v`: afterwards `$k` holds `$v`, every other key keeps its value, and the positional entries are unchanged |
| Php.MergePositional | src/RouterFactory.php:1014-1026 | `array_merge` keeps the positional entries of both arrays, first array first |
| Php.MergeLookupLeft | src/RouterFactory.php:1014-1026 | a key absent from the second array keeps its value from the first under `array_merge` |
| Php.ReplaceCharRoundTrip | src/RouterFactory.php:1011 | replacing `-` with `_` is undone by replacing `_` with `-` when the string had no `_` |
| Php.ReplaceCharInjective | src/RouterFactory.php:1214 | `str_replace('_', '-', …)` maps distinct strings without `-` to distinct strings |
| Command.Flatten | src/RouterFactory.php:1196-1197 | each pair becomes `'--' . flag` then the value, both positional, in pair order; the length doubles |
| Command.FlattenPositional | src/RouterFactory.php:1196-1197 | read positionally, the appended entries are the flag tokens and values, interleaved in order |
| Command.FlattenAppend | src/RouterFactory.php:1193-1200 | appending more pairs appends their entries after the earlier ones |
| Token.NonSpaceRun | src/RouterFactory.php:1181 | `\S+` is greedy: a prefix free of whitespace that ends at whitespace or at the end |
| Token.FindBearer | src/RouterFactory.php:1181 | the leftmost offset where `Bearer`, one whitespace and a non-space follow; none earlier; None exactly when no offset matches |
| Token.GetTokenFirstMatch | src/RouterFactory.php:1176-1186 | the token is `""` exactly when nothing matches anywhere; otherwise it is the non-space run after the first match |
| Token.BearerRoundTrip | src/RouterFactory.php:1176-1186 | a header `<p>Bearer <t><rest>`, with no `B` in `p` and `rest` empty or starting with whitespace, gives back `t` |
| Token.NoCapitalNoToken | src/RouterFactory.php:1181 | the match is case-sensitive: a header without a capital `B` gives `""` |
| Token.DoubleSpaceNoToken | src/RouterFactory.php:1181 | `\s` takes exactly one character: a header in which every `Bearer` plus whitespace is followed by more whitespace, such as `Bearer  abc`, gives `""` |
| Patterns.UuidIsFormatted | src/RouterFactory.php:35 | every accepted segment is five lower-case hex groups of 8, 4, 4, 4 and 12 joined by hyphens |
| Patterns.FormattedIsUuid | src/RouterFactory.php:35 | conversely, every such hyphenated form is accepted |
| Patterns.UuidHasNoCapitals | src/RouterFactory.php:35 | no accepted segment holds an upper-case letter |
| Patterns.LiteralSegmentsAreNotUuids | src/RouterFactory.php:175 | the literal segments `init`, `start`, `end`, `list` and `revoke` can never match a UUID placeholder |
| Builders.FieldItemsEach | src/RouterFactory.php:1190-1191 | the `'fields'` entry lists every allow-list pair `from => to`, in order |
| Builders.IfNotEmptyNamed | src/RouterFactory.php:1190-1191 | the result keeps `'request' => $request` and `'fields' => $fields` as named entries, whatever pairs follow |
| Builders.IfNotEmptyConcat | src/RouterFactory.php:1193 | the allow-list is walked in its own order: splitting the list splits the appended pairs at the same place |
| Builders.IfNotEmptyIgnoresRequestOrder | src/RouterFactory.php:1193-1194 | two requests that agree on the lookups of the allow-listed keys give the same pairs, whatever their order or other keys |
| Builders.IfNotEmptyUnlisted | src/RouterFactory.php:1193-1200 | a flag that no allow-list entry names is never emitted |
| Builders.IfNotEmptyValues | src/RouterFactory.php:1193-1200 | with distinct targets, exactly `(array)$request[$from]` stands under `--to`: nothing for an absent key or null, one `""` for an empty string, one value per array element |
| Builders.IfNotEmptyFlagsListed | src/RouterFactory.php:1196 | every emitted flag is the target of some allow-list entry |
| Builders.FieldArgsUnder | src/RouterFactory.php:1194-1198 | under its own flag, one allow-list entry's pairs hold exactly the listed values of its field |
| Builders.DashedDistinct | src/RouterFactory.php:1214 | distinct recognised query keys get distinct dashed flags |
| Builders.ListParamsFails | src/RouterFactory.php:1209-1215 | `applyListParams` fails exactly when a truthy bound is to be stored into a string-valued `filter` query parameter |
| Builders.BoundsOnlyNamed | src/RouterFactory.php:1207-1221 | the bounds never yield flags: the positional part is the same as with no bounds |
| Builders.WithBoundStored | src/RouterFactory.php:1211-1217 | a stored bound lands under `filter`; other `filter` keys keep their values; positional entries are untouched |
| Builders.BoundsStored | src/RouterFactory.php:1209-1215 | after the call, each truthy bound is found under its name in the `filter` entry |
| Builders.ListParamsKeepsParams | src/RouterFactory.php:1207-1256 | every query parameter other than `filter` remains as its named entry, recognised by the switch or not |
| Builders.KeyArgsListed | src/RouterFactory.php:1216-1253 | only the seven keys of the `switch` contribute pairs |
| Builders.KeyArgsFlags | src/RouterFactory.php:1214-1253 | a recognised key contributes pairs only under its own dashed flag |
| Builders.KeyArgsFlag | src/RouterFactory.php:1214-1253 | no query parameter contributes to the flag of a different recognised key |
| Builders.ListArgsUnder | src/RouterFactory.php:1219-1256 | a recognised key given once contributes exactly its own pairs under its flag, whatever else the query holds |
| Builders.PageOnce | src/RouterFactory.php:1217-1221 | `page` and `page_size` emit exactly one pair carrying the raw value (`--page-size` for `page_size`) |
| Builders.SortEach | src/RouterFactory.php:1222-1229 | `sort`, `with` and `sort_direction` emit one pair per element, in the original order |
| Builders.ListArgsFlags | src/RouterFactory.php:1214-1253 | every flag emitted by the loop is one of the seven recognised keys, dashed |
| Builders.FilterEntriesFlags | src/RouterFactory.php:1238-1250 | every pair of a `filter`/`filter_not` mapping stands under that parameter's flag |
| Builders.FilterEntriesAppend | src/RouterFactory.php:1238-1250 | entry by entry, a scalar emits one pair and an iterable one pair per inner element |
| Builders.FilterElemsEach | src/RouterFactory.php:1242-1245 | an iterable entry gives `key[]=v` for each inner element, in order |
| Builders.FilterEncoding | src/RouterFactory.php:1238-1250 | `filter={age: 5}` gives `--filter age=5`; `filter={tags: [1, 2]}` gives `--filter tags[]=1`, then `--filter tags[]=2` |
| Builders.AttributeArgsEach | src/RouterFactory.php:1265-1268 | one `--attributes` pair per attribute, `name=value`, in sequence order |
| Builders.AttributesShape | src/RouterFactory.php:1259-1272 | the result is empty exactly when `attributes` is missing or empty; otherwise the raw value comes first, then two entries per attribute |
| Builders.AttributesRoundTrip | src/RouterFactory.php:1265-1268 | attributes encoded as `{name, value}` objects come back as `name=value` pairs, one per attribute, in the order given |
| Builders.EncodedPair | src/RouterFactory.php:1267 | one `{name, value}` attribute joins to `name=value` |
| Routes.HelperFails | src/RouterFactory.php:1209-1215 | a helper call fails only as `applyListParams` with a truthy bound and a string-valued `filter` |
| Routes.OutputsEach | src/RouterFactory.php:1014-1026 | the helper calls succeed exactly when each one does, giving one array per call in order |
| Routes.MergeAllPositional | src/RouterFactory.php:1014-1026 | merging several arrays keeps all of their positional entries, in argument order |
| Routes.RoutePositional | src/RouterFactory.php:84-1171 | every vector reads positionally as the closure's leading tokens, then its literal flags and values, then the helper outputs |
| Routes.RouteLead | src/RouterFactory.php:84-1171 | every vector starts with its closure's leading tokens |
| Routes.RouteCommandDefined | src/RouterFactory.php:84-1171 | a closure fails to build its vector exactly when it passes date bounds and `applyListParams` fails |
| Routes.SafeDefined | src/RouterFactory.php:84-1171 | a closure none of whose helpers can fail always builds its vector |
| Routes.ListingDefined | src/RouterFactory.php:1013-1026 | a closure whose only helper is `applyListParams` fails exactly when that call fails |
| Routes.IpWrittenBack | src/RouterFactory.php:138-140 | after such a closure the body's `ip` is the resolved address. That is the body's own non-empty value, else the request IP. Other keys and positional entries are unchanged |
| Routes.IpInCommand | src/RouterFactory.php:138-140 | the resolved address is the last positional entry of the literal, so the handler receives it |
| Routes.AttributesAtEnd | src/RouterFactory.php:154 | on the routes that merge `applyAttributes()`, the vector ends with that helper's entries, computed from the body after the IP write-back. The routes are consent level1, level3 and level4 v1, visitor init and start, and visitor start v2 (lines 154, 374, 517, 708, 728, 797) |
| Routes.AttributesIgnored | src/RouterFactory.php:239-254 | the consent level2 route, and likewise the consent v2 level4 route (lines 646-659), yields the same positional vector for bodies that differ only in `attributes`. So no `--attributes` flag comes from the body |
| Routes.IfNotEmptyPositional | src/RouterFactory.php:1188-1203 | read positionally, `applyIfNotEmpty`'s result is exactly its flag/value pairs |
| Routes.StatisticLead | src/RouterFactory.php:1013-1026 | every statistic's vector starts `statistics`, its token, `v1`, `--start`, start, `--end`, end |
| Routes.StatisticShape | src/RouterFactory.php:1013-1026 | a statistics closure's leading tokens and literal are exactly those seven entries |
| Routes.StatisticUrlSegment | src/RouterFactory.php:1011 | no listed statistic contains `_`, so mapping the URL segment back with `_` to `-` gives the statistic |
| Routes.StatisticTokensDistinct | src/RouterFactory.php:1017 | distinct statistics send distinct command tokens (`attribute` as `attributes`) |
| Routes.StatisticUrlsDistinct | src/RouterFactory.php:1011 | distinct statistics get distinct URL patterns |
| Factory.StatisticRoutesTable | src/RouterFactory.php:983-1032 | the loop adds one route per statistic at that statistic's URL; two routes sharing a URL capture the same statistic |
| Factory.RouterFactory.constructor | src/RouterFactory.php:45-54 | the decoded body is stored and the statistics routes are exactly one per listed statistic, in order |
| Factory.RouterFactory.AddStatisticRoutes | src/RouterFactory.php:983-1032 | the loop adds, in list order, one route per statistic with its URL and its captured statistic |
| Factory.RouterFactory.ApplyIfNotEmpty | src/RouterFactory.php:1188-1203 | the appending loop returns `IfNotEmpty`. That is the `request` and `fields` entries, then the pairs of each present allow-listed field, in allow-list order |
| Factory.RouterFactory.AppendField | src/RouterFactory.php:1193-1200 | one allow-list entry appends nothing for an absent key, otherwise one pair per element of `(array)` of the value |
| Factory.RouterFactory.ApplyAttributes | src/RouterFactory.php:1259-1272 | the loop returns `Attributes` of the stored body |
| Factory.RouterFactory.ApplyListParams | src/RouterFactory.php:1205-1257 | the bound-storing code and the loop over the query parameters return `ListParams`, or None on the PHP error |
| Factory.RouterFactory.StoreBounds | src/RouterFactory.php:1209-1215 | the two `if`s store the truthy bounds under `filter`, or fail on a string-valued `filter` |
| Factory.RouterFactory.AppendKeyArgs | src/RouterFactory.php:1214-1253 | the `switch` body appends exactly the pairs `KeyArgs` assigns to that parameter |
| Factory.RouterFactory.AppendEach | src/RouterFactory.php:1225-1228 | the inner `foreach` appends one pair per element, in order |
| Factory.RouterFactory.AppendFilter | src/RouterFactory.php:1238-1250 | the filter loop appends the pairs of every mapping entry, in entry order; a scalar parameter appends none |
| Factory.RouterFactory.AppendEntry | src/RouterFactory.php:1239-1248 | one filter entry appends `key[]=v` per inner element, or a single `key=value` |
| Factory.RouterFactory.ResolveIp | src/RouterFactory.php:138-140 | the body's `ip` becomes its own non-empty value or else the request IP, and that value is returned. Nothing else changes |
| Factory.RouterFactory.Call | src/RouterFactory.php:1188-1272 | one helper call returns that helper's output on the current body |
| Factory.RouterFactory.Build | src/RouterFactory.php:1014-1026 | calling the helpers in argument order and merging gives `TemplateCommand`, or None when a call fails |
| Factory.RouterFactory.Invoke | src/RouterFactory.php:84-1171 | running a matched closure gives `RouteCommand`, and leaves the body as `BodyAfter` says: the IP fallback is written back where the route does so |
| Dispatch.StatisticsHandler | src/Cli/AesirxAnalyticsCli.php:62-146 | the GET `statistics` switch gives `NotFound` exactly when `$command[1]` is none of its 20 labels |
| Dispatch.GetGroupHandler | src/Cli/AesirxAnalyticsCli.php:149-176 | GET `get` gives `NotFound` exactly for a sub-token other than its five labels |
| Dispatch.ConsentStatisticsHandler | src/Cli/AesirxAnalyticsCli.php:178-197 | GET `list-consent-statistics` gives `NotFound` exactly for an unknown sub-token |
| Dispatch.ConversionHandler | src/Cli/AesirxAnalyticsCli.php:199-222 | GET `conversion` gives `NotFound` exactly for a sub-token other than its four labels |
| Dispatch.LiveVisitorsHandler | src/Cli/AesirxAnalyticsCli.php:224-243 | GET `live-visitors` gives `NotFound` exactly for an unknown sub-token |
| Dispatch.GetHandler | src/Cli/AesirxAnalyticsCli.php:59-248 | under GET a handler is chosen exactly when `$command[0]` opens one of the six GET groups |
| Dispatch.VisitorHandler | src/Cli/AesirxAnalyticsCli.php:250-276 | POST `visitor` chooses a handler only for `start` and `end`. The choice is `NotFound` exactly for `start` without `v2` and `end` without `v1` |
| Dispatch.JobHandler | src/Cli/AesirxAnalyticsCli.php:282-292 | POST `job` accepts only `geo` |
| Dispatch.ConversionReplaceHandler | src/Cli/AesirxAnalyticsCli.php:294-304 | POST `conversion` accepts only `replace` |
| Dispatch.ConsentHandler | src/Cli/AesirxAnalyticsCli.php:306-325 | POST `consent` gives `NotFound` exactly for a sub-token other than `level1`–`level4` |
| Dispatch.PostHandler | src/Cli/AesirxAnalyticsCli.php:249-330 | under POST a handler is chosen exactly for `wallet`, `job`, `conversion`, `consent`, `datastream`, and `visitor` with `start`/`end` |
| Dispatch.RevokeHandler | src/Cli/AesirxAnalyticsCli.php:332-350 | PUT `revoke` gives `NotFound` exactly for a level other than `level1`–`level4` |
| Dispatch.PutHandler | src/Cli/AesirxAnalyticsCli.php:331-351 | under PUT a handler is chosen exactly when `$command[0]` is `revoke` |
| Dispatch.Choose | src/Cli/AesirxAnalyticsCli.php:57-352 | some handler is chosen exactly when a branch for that method and those words assigns `$class`; every other method chooses none |
| Dispatch.SelectHandler | src/Cli/AesirxAnalyticsCli.php:57-354 | `$class` is defined at the call exactly when a branch assigns it for the vector's first words |
| Dispatch.KeySelectsHandler | src/Cli/AesirxAnalyticsCli.php:57-352 | every real handler is reachable: its method and its words select it |
| Dispatch.StatisticsLabelSelects1 | src/Cli/AesirxAnalyticsCli.php:62-82 | each of these statistics handlers is selected by its own case label |
| Dispatch.StatisticsLabelSelects2 | src/Cli/AesirxAnalyticsCli.php:83-102 | each of these statistics handlers is selected by its own case label |
| Dispatch.StatisticsLabelSelects3 | src/Cli/AesirxAnalyticsCli.php:103-122 | each of these statistics handlers is selected by its own case label |
| Dispatch.StatisticsLabelSelects4 | src/Cli/AesirxAnalyticsCli.php:123-138 | each of these statistics handlers is selected by its own case label |
| Dispatch.OtherGetWordsSelect | src/Cli/AesirxAnalyticsCli.php:149-247 | every other GET handler is selected by its group word and label |
| Dispatch.PostPutWordsSelect | src/Cli/AesirxAnalyticsCli.php:249-351 | every POST and PUT handler is selected by its words under its method |
| Dispatch.StatisticsAlias | src/Cli/AesirxAnalyticsCli.php:135-141 | `isps` selects the handler of `languages` |
| Dispatch.FlowAlias | src/Cli/AesirxAnalyticsCli.php:156-162 | `flow` and `flows` select the same handler |
| Dispatch.ConsentLevelAlias | src/Cli/AesirxAnalyticsCli.php:316-318 | consent `level3` and `level4` share one handler |
| Dispatch.RevokeLevelAlias | src/Cli/AesirxAnalyticsCli.php:342-344 | revoke `level3` and `level4` share one handler |
| Dispatch.FirstWordSuffices | src/Cli/AesirxAnalyticsCli.php:245-329 | `wallet` and both `datastream` branches ignore `$command[1]`; `datastream` chooses different handlers under GET and POST |
| Dispatch.NotFoundExactly | src/Cli/AesirxAnalyticsCli.php:57-352 | `NotFound` is chosen exactly for an unknown word inside a recognised group |
| Dispatch.GetNotFound | src/Cli/AesirxAnalyticsCli.php:59-248 | the GET branch gives `NotFound` exactly for an unknown sub-token of a GET group |
| Dispatch.PostNotFound | src/Cli/AesirxAnalyticsCli.php:249-330 | the POST branch gives `NotFound` exactly for an unknown sub-token of a POST group |
| Dispatch.LeadingWordsDecide | src/Cli/AesirxAnalyticsCli.php:57-354 | selection reads only the method and the first three positional entries |
| Reach.StatisticReaches | src/Cli/AesirxAnalyticsCli.php:62-146 | the token the router sends for each listed statistic selects that statistic's handler in the switch |
| Reach.StatisticTableGaps | src/Cli/AesirxAnalyticsCli.php:62-146 | among the router's statistics exactly `domains`, `user-types` and `user-flows` reach `NotFound`, and none reaches the `attribute` case |
| Reach.LeadReaches | src/Cli/AesirxAnalyticsCli.php:57-352 | words that begin with a route's leading tokens select that route's handler under the route's method |
| Reach.RouterReaches | src/Cli/AesirxAnalyticsCli.php:57-354 | the vector of every route, dispatched under the route's method, reaches the handler listed for that route in `Expected` |
| Reach.UnhandledRoutes | src/Cli/AesirxAnalyticsCli.php:57-354 | no handler is chosen exactly for the four consent `list` routes and visitor `init` |
| Reach.NotFoundRoutes | src/Cli/AesirxAnalyticsCli.php:250-262 | `NotFound` is chosen exactly for visitor `start` v1 and for the statistics `domains`, `user-types` and `user-flows` |
| Reach.AttributeCaseUnreached | src/Cli/AesirxAnalyticsCli.php:119-121 | no router-generated vector reaches the `attribute` case of the statistics switch |
| Environment.EnvData | src/Cli/Env.php:28-40 | the map has exactly the seven keys, plus `DBPORT` when the port is truthy, and each argument is under its key. `DBTYPE` is `mysql`. `DBPORT`, when present, equals the port |
| Environment.EnvDataWellFormed | src/Cli/Env.php:28-40 | every map the constructor can build has the fixed key set and `DBTYPE = mysql`. A `DBPORT` it holds is never `""` or `"0"` |
| Environment.Env.constructor | src/Cli/Env.php:19-41 | the stored map is `EnvData` of the arguments, and it is well formed |
| Environment.Env.GetData | src/Cli/Env.php:43-46 | returns the stored map, changing nothing, so every call gives the same well-formed map |

## Left out

- The router library is out of scope: URL matching, group prefixes, the base-path event handler, request-method restriction and the permission middleware (src/RouterFactory.php:52-82, 812, 1041).
  - A `Route` value stands for a matched closure with its path parameters.
  - `Matchable` states the `setWhere` constraints.
- Host inputs are parameters, because they are I/O:
  - reading and decoding `php://input`;
  - `getIp`, `getHost`, `getParams`, the `authorization` header and `$_POST`;
  - `$_SERVER['REQUEST_METHOD']`.
- `call_user_func($this->callback, …)` is out of scope: the callback is an abstract consumer of the vector that `RouteCommand` describes.
- Running a handler is out of scope: `aesirx_analytics_mysql_execute`, `json_encode` and the `include_once` of the handler classes call code that is not part of this model.
- `analyticsCliExists` is out of scope: it is a filesystem call.
- The two exception classes are left out: they only store constructor arguments.
- PHP's integer keys for numeric strings are not modelled.
  - Keys are kept as given.
  - A filter entry's integer key is written out in decimal (`EntryKey`).
- Booleans and numbers from the JSON body are represented by their PHP string form.
  - `empty` and truthiness agree with PHP on these.
  - Loose `==` against a boolean `true` word is not modelled.
- Builders.AttributePair: the model takes `$attribute['name']` and `['value']` as null when the attribute is not an array. String offsets on string attributes are PHP-version dependent and are not modelled.
- Patterns.IsWeb3Id: `\w` is read with ASCII word characters only.
- A PHP array's hash order is modelled by sequence order, but `Env`'s `$data` is a Dafny `map`: the order of its keys is not captured.
- Dispatch.KeySelectsHandler proves, handler by handler, that each handler's words select it. No symbolic lemma states that a handler determines its words.
