# BlipMonitor dashboard: a Dafny model of its data and auth rules

BlipMonitor's dashboard is a Next.js front end for a Soroban contract-monitoring API. This
project models the rules the dashboard applies once the network, the clock, the Clerk session
and the locale are inputs:

- the auth-token lifecycle: the zustand token store and its `refreshToken`, the axios request and
  response interceptors that attach the Bearer token and retry after a 401, and the layout's
  `updateToken`;
- the saved-contracts hooks: validating and projecting the list response, the in-place sort of
  `select` (newest first), the by-id enable rule, and cache invalidation after each mutation;
- the string and route helpers: `truncateHash`, `camelToSnakeCase`, `formatNumber`,
  `formatPercentageWithSign`, `convertStroopsToLumens`, the contract-id shortening, the
  pathname → contract id / base URL / sidebar link derivation, the greeting and the enums;
- the display rules inside components: `getStat`'s key-path lookup, the statistic card's label
  and badge, the table bodies, the transaction function label, the symbol-topic filter, the
  56/64-character event-name rule, the reversed chart series, the success-rate axis floor, and
  the top-N chart labels and tooltip.

One Dafny module stands for each source file. Each file's model follows the source's own form:

- Pure helpers become functions with named results.
- The stores, the axios instance, the contract header and the query cache become classes whose
  methods change their fields.
- The `select` sort works in place on an `array`.

JavaScript numbers are `real`. `toFixed(2)`, the two `Intl.NumberFormat` compact formatters
and the date renderings are opaque, and they are passed in as the fields of `Formatters.Locale`.
The server's replies and the Clerk session's behaviour are scripted inputs of the model.

`api.ts` is modelled in two places:

- `ApiClient.Exchange` is the specification. It recurses once per reply.
- `ApiClient.HttpClient.Request` is the imperative client. It changes the request config and
  the token store and calls itself for the retry, and its contract ties it to `Exchange`.

The written specification of the system says a 401 is retried exactly once. The code has no retry
counter: the re-issued request goes back through both interceptors, so every later 401 that is
followed by a successful refresh is retried too. The model follows the code, and
`ApiClient.RetriesWithoutLimit` and `ApiClient.EndlessUnauthorizedNeverSettles` state it.

The overview grid's fee stat reads the keys `overallAvgFee` and `comparedOverallAvgFee`
(src/components/features/overview-statistics-grid.tsx:107). The declared fee response type
(src/lib/types/metrics.ts:88-96) names its fields `avgFee` and `comparedAvgFee`. The model follows
the code, and `OverviewStatistics.FeeStatIgnoresFeeResponse` states the consequence: a response
of the declared shape shows zero lumens and "-". Whether the server sends the declared shape
cannot be decided from the client, so this is recorded here and not as a corrected definition.

## Model

| member | source | states |
|---|---|---|
| Enums.TimeRangeValue | src/lib/types/enum.ts:5-17 | each member's string value is its identifier; its properties are those of `TimeRangeValueUnit` and `TimeRangeRoundTrip` |
| Enums.TimeRangeValueUnit | src/lib/types/enum.ts:5-17 | a member's string value starts with "HOUR_", "DAY_", "WEEK_", "MONTH_" or "YEAR_" exactly for the members of that unit, and is "ALL_TIME" exactly for ALL_TIME |
| Enums.ParseTimeRange | src/lib/types/enum.ts:4-18 | a string read back as a member is a member whose value is that string |
| Enums.AllTimeRangesComplete | src/lib/types/enum.ts:4-18 | TimeRange has thirteen members, each listed once in declaration order |
| Enums.TimeRangeRoundTrip | src/lib/types/enum.ts:5-17 | each member's string value reads back as that member, so the values are pairwise distinct |
| Enums.LimitValue | src/lib/types/enum.ts:23-30 | a Limit's value is one of 1, 5, 10, 25, 50, 100 |
| Enums.LimitValuesIncreasing | src/lib/types/enum.ts:24-29 | the six Limit values are positive and strictly increase in declaration order |
| Formatters.FormatNumber | src/lib/utils/formatters.ts:7-23 | a percentage ends in "%"; otherwise a stroop amount ends in " XLM" |
| Formatters.FormatNumberDispatch | src/lib/utils/formatters.ts:8-20 | the percentage flag is tested before the stroop flag; the stroop path formats the amount divided by ten million, then appends " XLM" |
| Formatters.FormatPercentageWithSign | src/lib/utils/formatters.ts:30-35 | "-" exactly for undefined; the mis-encoded infinity literal exactly for null; a number ends in "%" and starts with "+" when it is non-negative |
| Formatters.PercentageSignIffNonNegative | src/lib/utils/formatters.ts:33-34 | when `toFixed` never writes a "+", the text starts with "+" if and only if the number is >= 0 |
| Formatters.TruncateHash | src/lib/utils/formatters.ts:42-45 | a hash of at most 12 characters is unchanged; a longer one becomes its first 6 characters, "...", its last 6 characters (15 in all) |
| Formatters.TruncateHashIdempotent | src/lib/utils/formatters.ts:42-45 | truncating a truncated hash changes nothing |
| Formatters.ConvertStroopsToLumens | src/lib/utils/formatters.ts:52-55 | the text is `toFixed(2)` of stroops / 10,000,000 followed by " XLM" |
| Formatters.LowerCase | src/lib/utils/formatters.ts:63 | `toLowerCase` keeps the length and lowers each character |
| Formatters.CamelToSnakeCase | src/lib/utils/formatters.ts:62-64 | `camelToSnakeCase` adds exactly one character per lower-then-upper pair; each input character, lower-cased, sits at its place shifted right by the boundaries at or before it; each boundary has its "_" right after its lower-case letter; the result has no upper-case ASCII letter |
| Formatters.SeparateWords | src/lib/utils/formatters.ts:63 | the regex replace adds exactly one "_" per lower-then-upper boundary and nothing else: deleting every "_" from result and input gives the same text; input character `i` sits at `i` plus the number of boundaries at or before it (`Shifted`), and the "_" of a boundary sits directly between its two letters |
| Formatters.SeparateWordsNoUpper | src/lib/utils/formatters.ts:63 | text with no upper-case letter is left alone by the regex |
| Formatters.SnakeCaseKeepsLowerText | src/lib/utils/formatters.ts:62-64 | text without any upper-case letter is returned unchanged |
| Formatters.SnakeCaseIdempotent | src/lib/utils/formatters.ts:62-64 | converting twice is converting once |
| Formatters.SnakeCaseOnlyAddsUnderscores | src/lib/utils/formatters.ts:63 | with every "_" deleted, the result equals the lower-cased input with every "_" deleted: the conversion only adds underscores and lowers letters |
| ProfileStore.Refresh | src/store/profile.store.ts:30-46 | only a `useClerk()` failure rejects, and then the store is untouched; every resolving path writes the store with what it returns; a token comes back exactly when the session gave a non-empty one, and it is that token |
| ProfileStore.RefreshNeverStoresEmpty | src/store/profile.store.ts:33-44 | after a refresh that resolves, the store holds a non-empty token or null, never "" |
| ProfileStore.UserTokenStore.constructor | src/store/profile.store.ts:27-28 | the token store starts with no token |
| ProfileStore.UserTokenStore.SetUserToken | src/store/profile.store.ts:29 | replaces the token with the argument, with one `set` |
| ProfileStore.UserTokenStore.RefreshToken | src/store/profile.store.ts:30-46 | returns and stores what `Refresh` gives for the session's behaviour and the old token |
| ProfileStore.UserProfileStore.constructor | src/store/profile.store.ts:19-20 | the profile store starts with no profile |
| ProfileStore.UserProfileStore.SetUserProfile | src/store/profile.store.ts:21 | replaces the profile with the argument, with one `set` |
| ApiClient.InterceptRequest | src/lib/utils/api.ts:18-34 | refreshes exactly when the stored token is falsy; abandons the request only when that refresh rejects; sets `Authorization: Bearer <t>` exactly when the token in hand is truthy and otherwise leaves the headers alone |
| ApiClient.Exchange | src/lib/utils/api.ts:18-56 | one call of the instance including every re-issue; its properties are those of `ExchangeShape` and the 401 lemmas |
| ApiClient.ExchangeShape | src/lib/utils/api.ts:18-56 | never more requests than replies, and all of them only when the call never settles; a success is a 2xx that was the last reply used; at most one request per refresh plus one; the store is written at most once per refresh; a rejected request-side refresh sends nothing |
| ApiClient.SuccessPassesThrough | src/lib/utils/api.ts:37-38 | a 2xx reply to a request with a usable token is the result, with that token and no refresh |
| ApiClient.OtherErrorsRejectedAsIs | src/lib/utils/api.ts:39-55 | an error other than 401 is rejected as it is, one request is sent, and the response interceptor never refreshes |
| ApiClient.RequestRefreshFailureSurfaces | src/lib/utils/api.ts:19-34 | when the request interceptor's refresh rejects, nothing is sent and that error, which has no config, surfaces |
| ApiClient.FailedRefreshKeepsOriginal401 | src/lib/utils/api.ts:18-55 | a first reply of 401 whose refresh yields no token rejects with the original 401 after one request; the refresh count is one, or two when the request interceptor had already refreshed a falsy stored token |
| ApiClient.RetryCarriesNewToken | src/lib/utils/api.ts:18-49 | a first reply of 401 whose refresh yields a token re-issues the request with `Bearer <new token>`, whether or not the request interceptor refreshed first; the re-issued request's outcome is the call's outcome |
| ApiClient.RetriesWithoutLimit | src/lib/utils/api.ts:47-48 | n 401s, each followed by a successful refresh, are each retried: n+1 requests, n refreshes, then success |
| ApiClient.EndlessUnauthorizedNeverSettles | src/lib/utils/api.ts:47-48 | a server that always answers 401, with a session that always gives tokens, is never given up on |
| ApiClient.HttpClient.InterceptRequestOn | src/lib/utils/api.ts:18-34 | changes the config's headers and the token store exactly as `InterceptRequest` prescribes |
| ApiClient.HttpClient.Request | src/lib/utils/api.ts:18-56 | the outcome, the headers sent, the refresh count and the final stored token are those of `Exchange` |
| SavedContracts.Project | src/hooks/useSavedContracts.ts:20-26 | the spread-and-copy projection of one record returns the record unchanged |
| SavedContracts.ProjectAll | src/hooks/useSavedContracts.ts:20-27 | one projected record per element, in the same order, so the list comes back unchanged |
| SavedContracts.ListQuery | src/hooks/useSavedContracts.ts:14-28 | rejects with "Unexpected response format" exactly when the body is missing or `results` is not an array; otherwise resolves with the records as received |
| SavedContracts.ByIdEnabled | src/hooks/useSavedContracts.ts:45 | the by-id query runs exactly when the id is non-empty |
| SavedContracts.WithTimestampAppend | src/hooks/useSavedContracts.ts:30 | the run of records with one timestamp splits over a concatenation |
| SavedContracts.SwapKeepsRuns | src/hooks/useSavedContracts.ts:30 | exchanging neighbours with different timestamps keeps every run of equal timestamps in order |
| SavedContracts.SwapDown | src/hooks/useSavedContracts.ts:30 | one exchange step of the sort keeps the same records and the same runs |
| SavedContracts.InsertDown | src/hooks/useSavedContracts.ts:30 | one insertion step extends the newest-first prefix and keeps the same records and runs |
| SavedContracts.Select | src/hooks/useSavedContracts.ts:30 | sorts the array it is given in place and returns that same array: newest first, a permutation, and records with equal timestamps keep their order (a stable sort) |
| SavedContracts.Invalidate | src/hooks/useSavedContracts.ts:61 | every cached key starting with the prefix is marked stale, every other entry is unchanged, no key is added |
| SavedContracts.AfterMutation | src/hooks/useSavedContracts.ts:56-124 | a successful mutation of any kind is exactly the invalidation of the list key: it marks the list key (and only keys under it) stale and never a `['savedContract', id]` key; a failed one changes nothing |
| SavedContracts.QueryCache.Store | src/hooks/useSavedContracts.ts:12-31 | a query that has fetched holds fresh data |
| SavedContracts.QueryCache.OnMutationSettled | src/hooks/useSavedContracts.ts:58-65 | the cache becomes `AfterMutation` of itself |
| ApplicationLayout.SegmentFrom | src/app/dashboard/application-layout.tsx:88 | the maximal run of characters other than "/" from a position |
| ApplicationLayout.FindContractId | src/app/dashboard/application-layout.tsx:88-89 | the capture of the leftmost match of the contract regex; none exactly when nothing matches |
| ApplicationLayout.ContractIdOf | src/app/dashboard/application-layout.tsx:88-89 | the contract id is non-empty and has no "/"; it is absent exactly when the regex does not match |
| ApplicationLayout.ContractIdOfPrefixed | src/app/dashboard/application-layout.tsx:88-89 | the prefix, an id without "/", then "/" or the end gives that id |
| ApplicationLayout.SegmentOf | src/app/dashboard/application-layout.tsx:88 | a "/"-free run ended by "/" or the end is the segment read there |
| ApplicationLayout.IsContractPage | src/app/dashboard/application-layout.tsx:91 | a contract page lies strictly under "/dashboard" |
| ApplicationLayout.BaseUrl | src/app/dashboard/application-layout.tsx:91-92 | "/dashboard/contract/" + id exactly on a contract page with an id, otherwise "/dashboard" |
| ApplicationLayout.SectionUrl | src/app/dashboard/application-layout.tsx:94-96 | a section link is the base URL plus the section's suffix, whichever ternary arm is taken |
| ApplicationLayout.HomeIsCurrent | src/app/dashboard/application-layout.tsx:168 | Home is marked current only on "/dashboard", which is no contract page and whose base URL is "/dashboard" |
| ApplicationLayout.SectionIsCurrent | src/app/dashboard/application-layout.tsx:175-183 | a path that marks a section current never marks Home current |
| ApplicationLayout.SectionLinkIsCurrent | src/app/dashboard/application-layout.tsx:168-183 | a followed section link marks exactly that section current, and not Home |
| ApplicationLayout.SuffixDecidesSection | src/app/dashboard/application-layout.tsx:168-183 | a URL ending in one section's suffix ends in no other section's, and is not "/dashboard" |
| ApplicationLayout.SectionLinkKeepsContract | src/app/dashboard/application-layout.tsx:88-96 | on a contract page every section link is a page of the same contract, with the same base URL |
| ApplicationLayout.PrefixedUrl | src/app/dashboard/application-layout.tsx:88-92 | a link built on a contract's base URL is a contract page of that contract |
| ApplicationLayout.NonContractPageUsesDashboard | src/app/dashboard/application-layout.tsx:92-96 | away from a contract page, every link is "/dashboard" plus its suffix |
| ApplicationLayout.UpdateToken | src/app/dashboard/application-layout.tsx:105-125 | with no loaded user, or when `getToken` throws, stores and returns null; otherwise returns the new token and writes the store only when it differs; the store always ends holding the result |
| Stat.TimeRangeToString | src/components/ui/stat.tsx:11-26 | "previous period" exactly for the ranges without a label of their own; the five others begin with "last " |
| Stat.TimeRangeLabelsDistinct | src/components/ui/stat.tsx:13-22 | a range with its own label is the only range with that label |
| Stat.PreviousPeriodRanges | src/components/ui/stat.tsx:23-24 | the hour, day, one-year and all-time ranges read "previous period" |
| Stat.EffectiveTimeRange | src/components/ui/stat.tsx:35 | an unset stored range reads as "last week" |
| Stat.ChangeBadge | src/components/ui/stat.tsx:43 | lime exactly when the change text starts with "+", otherwise pink |
| Stat.RenderStat | src/components/ui/stat.tsx:34-47 | the card shows its title, value and change, the badge of the change, and "from " with the label of the effective range |
| Stat.BadgeOfFormattedChange | src/components/ui/stat.tsx:43 | fed a formatted change, the badge is lime exactly for null or a non-negative number |
| OverviewStatistics.Lookup | src/components/features/overview-statistics-grid.tsx:67 | indexing a non-object gives `undefined`; any other result is the object's own field under that key |
| OverviewStatistics.GetValue | src/components/features/overview-statistics-grid.tsx:67 | a falsy value passes unchanged through the rest of the path, and a falsy or missing field ends the walk with that value |
| OverviewStatistics.GetValueAppend | src/components/features/overview-statistics-grid.tsx:68 | walking a path in two legs is walking it in one |
| OverviewStatistics.FirstFalsyOrLast | src/components/features/overview-statistics-grid.tsx:68 | the first falsy value among all but the last, or else the last |
| OverviewStatistics.GetValueIsFirstFalsy | src/components/features/overview-statistics-grid.tsx:68 | `getValue` returns the first falsy intermediate itself, and the leaf when there is none |
| OverviewStatistics.GridFormatNumber | src/components/features/overview-statistics-grid.tsx:42-51 | percentage first, then the stroop path (equal to `convertStroopsToLumens`), else compact notation with one fraction digit |
| OverviewStatistics.GridFormatPercentageWithSign | src/components/features/overview-statistics-grid.tsx:54-59 | the grid's copy equals the shared `formatPercentageWithSign` |
| OverviewStatistics.GetStat | src/components/features/overview-statistics-grid.tsx:62-73 | a falsy value shows as the format of 0, a number as its format; the change is the signed percentage of the looked-up change |
| OverviewStatistics.NoDataShowsZero | src/components/features/overview-statistics-grid.tsx:62-73 | without data a stat shows the format of 0 and "-" |
| OverviewStatistics.NullComparisonShowsInfinity | src/components/features/overview-statistics-grid.tsx:68-71 | a null comparison object, not only a null percentage, shows the infinity literal |
| OverviewStatistics.FeeStatIgnoresFeeResponse | src/components/features/overview-statistics-grid.tsx:107 | a fee response without `overallAvgFee`/`comparedOverallAvgFee` shows zero lumens and "-" |
| OverviewStatistics.BoundStatShowsFigure | src/components/features/overview-statistics-grid.tsx:91-108 | each of the four stats shows its figure and signed change from a response that carries them |
| OverviewStatistics.Bound | src/components/features/overview-statistics-grid.tsx:91-108 | a stat bound with the percentage option shows a value ending in "%", one bound with the stroop option a value ending in " XLM" |
| OverviewStatistics.Scope | src/components/features/overview-statistics-grid.tsx:29-39 | the contract-scoped hooks are used exactly when `contractId` is truthy, with the stored range |
| OverviewStatistics.SelectPeriod | src/components/features/overview-statistics-grid.tsx:80 | choosing an option selects that option's range |
| OverviewStatistics.PeriodOptionsShape | src/components/features/overview-statistics-grid.tsx:80-87 | six distinct periods are offered; "All time" selects YEAR_1, and ALL_TIME cannot be selected |
| Greeting.GreetingName | src/components/features/greeting.tsx:14 | the loaded user's non-empty first name, otherwise "Developer" |
| Greeting.GetGreeting | src/components/features/greeting.tsx:12-18 | the greeting ends with the name and "!" |
| Greeting.DayPartOf | src/components/features/greeting.tsx:15-17 | morning before 12, afternoon from 12 to 17, evening from 18 |
| Greeting.GreetingPartition | src/components/features/greeting.tsx:15-17 | each hour 0..23 gets exactly one salutation, the one of its part of the day |
| Greeting.GreetingNameRoundTrip | src/components/features/greeting.tsx:14-17 | the name read back from the greeting is the name chosen |
| Greeting.GreetingText | src/components/features/greeting.tsx:30-46 | "Hello!" exactly before load, "Welcome, guest!" exactly when loaded and signed out, the time greeting for a signed-in user |
| ContractHeader.TruncatedId | src/components/features/contract/contract-header.tsx:36 | the first 6 characters, "...", the last 4, with no length guard; 13 characters for ids of 10 or more |
| ContractHeader.ShortIdRepeatsCharacters | src/components/features/contract/contract-header.tsx:36 | non-empty ids of at most 9 characters show more characters than they have: the two ends overlap |
| ContractHeader.Heading | src/components/features/contract/contract-header.tsx:89 | the non-empty nickname, otherwise "Contract" |
| ContractHeader.ContractHeaderState.constructor | src/components/features/contract/contract-header.tsx:14-16 | starts not editing, dialog closed, with the fetched nickname or "" |
| ContractHeader.ContractHeaderState.View | src/components/features/contract/contract-header.tsx:27-33 | loading wins over the error, which wins over the input or the title |
| ContractHeader.ContractHeaderState.OnContractFetched | src/components/features/contract/contract-header.tsx:21-25 | a fetched contract resets the edited nickname; nothing else changes |
| ContractHeader.ContractHeaderState.HandleEdit | src/components/features/contract/contract-header.tsx:39-41 | enters edit mode, nothing else |
| ContractHeader.ContractHeaderState.EditNickname | src/components/features/contract/contract-header.tsx:75-86 | the input's text becomes the edited nickname |
| ContractHeader.ContractHeaderState.HandleSave | src/components/features/contract/contract-header.tsx:44-54 | sends the update with the edited nickname; success leaves edit mode and refetches; failure stays in edit mode |
| ContractHeader.ContractHeaderState.HandleDelete | src/components/features/contract/contract-header.tsx:57-59 | opens the dialog, nothing else |
| ContractHeader.ContractHeaderState.ConfirmDelete | src/components/features/contract/contract-header.tsx:62-69 | sends the delete; success closes the dialog and goes to "/"; failure stays |
| ContractHeader.ContractHeaderState.CancelDelete | src/components/features/contract/contract-header.tsx:105-112 | closes the dialog, nothing else |
| ContractHeader.EditAndSave | src/components/features/contract/contract-header.tsx:39-54 | edit, type and a successful save send exactly that nickname and return to the title view |
| Tables.TableBody | src/components/features/recent-tx-table.tsx:79-99 | exactly one of loading, error, empty or one row per item in order, in that priority |
| Tables.Kept | src/components/features/recent-tx-table.tsx:46-52 | the kept list is replaced when data arrives and otherwise left as it was |
| Tables.AnsweredBodyIgnoresHistory | src/components/features/recent-tx-table.tsx:46-52 | once the query has answered, the body does not depend on what was kept before |
| Tables.ScopeOf | src/components/features/recent-tx-table.tsx:45 | the contract-scoped hook is used exactly when `contractId` is truthy |
| Tables.Status | src/components/features/recent-tx-table.tsx:125 | "Success" in lime exactly for a successful call, "Failed" in pink otherwise |
| RecentTxTable.LocalTruncateHash | src/components/features/recent-tx-table.tsx:15-18 | the table's copy equals the shared `truncateHash` |
| RecentTxTable.LocalConvertStroopsToLumens | src/components/features/recent-tx-table.tsx:23-26 | the table's copy equals the shared `convertStroopsToLumens` |
| RecentTxTable.LocalCamelToSnakeCase | src/components/features/recent-tx-table.tsx:31-33 | the table's copy equals the shared `camelToSnakeCase` |
| RecentTxTable.IndexOf | src/components/features/recent-tx-table.tsx:111 | the leftmost occurrence at or after a position, none exactly when there is none |
| RecentTxTable.RemoveFirst | src/components/features/recent-tx-table.tsx:111 | a string pattern's `replace` removes only its leftmost occurrence |
| RecentTxTable.FirstSymValue | src/components/features/recent-tx-table.tsx:110 | the value of the first "Sym" parameter, none exactly when there is no "Sym" parameter |
| RecentTxTable.FunctionLabel | src/components/features/recent-tx-table.tsx:110-111 | the first "Sym" value when it is non-empty, else the function name with its first host-function prefix removed, in snake case |
| RecentTxTable.FunctionLabelFromName | src/components/features/recent-tx-table.tsx:111 | a prefixed name gives the snake case of its rest: no upper-case letter, one "_" per word boundary |
| RecentTxTable.RemoveLeading | src/components/features/recent-tx-table.tsx:111 | a pattern at the very start is the one removed |
| RecentTxTable.Row | src/components/features/recent-tx-table.tsx:98-127 | keyed by hash; shortened hash and source; explorer link; fee in lumens; status from `successful`; the function label |
| RecentTxTable.Query | src/components/features/recent-tx-table.tsx:44-45 | the contract-scoped query exactly when `contractId` is truthy, with the chosen limit |
| RecentTxTable.Body | src/components/features/recent-tx-table.tsx:79-99 | one row per kept transaction, in order |
| RecentTxTable.RowKeysFollowHashes | src/components/features/recent-tx-table.tsx:98 | distinct hashes give distinct row keys |
| RecentEventsTable.LocalTruncateHash | src/components/features/recent-events-table.tsx:16-19 | the table's copy equals the shared `truncateHash` |
| RecentEventsTable.SymTopics | src/components/features/recent-events-table.tsx:25-31 | keeps exactly the "Sym" topics |
| RecentEventsTable.SymTopicsAppend | src/components/features/recent-events-table.tsx:25-31 | the filter works piecewise, so the kept topics stay in their original order |
| RecentEventsTable.RenderTopics | src/components/features/recent-events-table.tsx:24-34 | one line per "Sym" topic, in order, monospace exactly when its value has 64 characters or more |
| RecentEventsTable.Values | src/components/features/recent-events-table.tsx:99 | one value per topic, in order |
| RecentEventsTable.JoinSnoc | src/components/features/recent-events-table.tsx:99 | joining one more part adds the separator and that part |
| RecentEventsTable.RowKey | src/components/features/recent-events-table.tsx:99 | the key starts with the hash, the event type and a "." each; with no topic it ends there, with one topic it ends in that topic's value |
| RecentEventsTable.HiddenTopicStillKeys | src/components/features/recent-events-table.tsx:24-99 | a topic that is not "Sym" is not shown, but it still goes into the row key |
| RecentEventsTable.Row | src/components/features/recent-events-table.tsx:99-121 | the row key, the shortened hash, the rendered topics, and "Success" exactly when the enclosing call succeeded |
| RecentEventsTable.RowIgnoresOwnSuccess | src/components/features/recent-events-table.tsx:119-120 | the event's own `successful` flag does not affect its row |
| RecentEventsTable.Query | src/components/features/recent-events-table.tsx:45-46 | the contract-scoped query exactly when `contractId` is truthy, with the chosen limit |
| RecentEventsTable.Body | src/components/features/recent-events-table.tsx:78-97 | one row per kept event, in order |
| TopEventsTable.EventNameCell | src/components/features/top-events-table.tsx:99-104 | names of exactly 56 or 64 characters are truncated and set in monospace; others are shown as they are |
| TopEventsTable.IdLikeNamesShowFifteen | src/components/features/top-events-table.tsx:103 | such names show as 15 characters: the first 6, "...", the last 6 |
| TopEventsTable.EventNameCellShape | src/components/features/top-events-table.tsx:99-104 | a shown name is the name or 15 characters long, and showing it again changes nothing |
| TopEventsTable.Row | src/components/features/top-events-table.tsx:98-104 | the key is contractId + "." + eventName; the count is the event count |
| TopEventsTable.Query | src/components/features/top-events-table.tsx:21-25 | the contract-scoped query exactly when `contractId` is truthy, with the stored range and the limit |
| TopEventsTable.FirstQuery | src/components/features/top-events-table.tsx:21-25 | the first query asks for `LimitValue(LIMIT_5)` = 5 events over the stored range, contract-scoped exactly when `contractId` is truthy |
| TopEventsTable.Body | src/components/features/top-events-table.tsx:78-96 | one row per kept event, in order |
| Charts.ReverseMap | src/components/features/charts/success-rate-chart.tsx:33-39 | point i is the projection of the interval i places from the end |
| Charts.ReverseMapAppend | src/components/features/charts/success-rate-chart.tsx:34-35 | reversing a concatenation swaps its two parts |
| Charts.ReverseMapEnds | src/components/features/charts/success-rate-chart.tsx:34-35 | the newest interval is drawn last and the oldest first |
| Charts.Series | src/components/features/charts/success-rate-chart.tsx:32-40 | no series exactly when there is no data, else the reversed projection |
| Charts.EntryName | src/components/features/charts/top-events-chart.tsx:36 | the bare name when `contractId` is truthy, else nickname + ": " + name |
| Charts.Entries | src/components/features/charts/top-events-chart.tsx:35-38 | one entry per item in order; none without data |
| Charts.ChartLimit | src/components/features/charts/top-events-chart.tsx:17 | the limit defaults to 10 |
| SuccessRateChart.ChartData | src/components/features/charts/success-rate-chart.tsx:32-40 | undefined without data; otherwise one point per interval, in reverse order, with its success rate |
| SuccessRateChart.MinOf | src/components/features/charts/success-rate-chart.tsx:44 | the least rate |
| SuccessRateChart.Rates | src/components/features/charts/success-rate-chart.tsx:44 | the rates of the points, in order |
| SuccessRateChart.DomainMin | src/components/features/charts/success-rate-chart.tsx:42-47 | 0 without points; always in 0..99; a multiple of 10 or 99; with points and least rate `lo`: 0 when `lo` < 0, the multiple of 10 with `m <= lo < m + 10` when 0 <= `lo` < 100, and 99 when `lo` >= 100 |
| SuccessRateChart.DomainMinBelowEveryPoint | src/components/features/charts/success-rate-chart.tsx:42-47 | with non-negative rates, the axis starts at or below every point |
| TxVolumeChart.ChartData | src/components/features/charts/tx-volume-chart.tsx:32-40 | undefined without data; otherwise one point per interval, in reverse order, with volume = transaction count |
| TxVolumeChart.TotalVolumeAppend | src/components/features/charts/tx-volume-chart.tsx:32-40 | volume totals add over a concatenation |
| TxVolumeChart.ChartKeepsTotal | src/components/features/charts/tx-volume-chart.tsx:32-40 | the chart draws the total count the response reports |
| UniqueUsersChart.ChartData | src/components/features/charts/unique-users-chart.tsx:32-40 | undefined without data; otherwise one point per interval, in reverse order, with users = unique users |
| UniqueUsersChart.ChartingReversedInput | src/components/features/charts/unique-users-chart.tsx:33-36 | charting the intervals listed in drawing order gives the API order back |
| AverageFeesChart.ChartData | src/components/features/charts/average-fees-chart.tsx:28-37 | undefined without data; otherwise one point per interval, in reverse order, copying both fee amounts |
| AverageFeesChart.TooltipEntry | src/components/features/charts/average-fees-chart.tsx:81-86 | the amount in lumens; "totalFees" reads "Total Fees", "avgFee" reads "Avg Fee", any other name is unchanged |
| AverageFeesChart.TooltipNameIdempotent | src/components/features/charts/average-fees-chart.tsx:81-86 | renaming a displayed name changes nothing |
| TopEventsChart.ChartData | src/components/features/charts/top-events-chart.tsx:33-40 | one bar per event in order, named by the entry rule and valued by the event count; none without data |
| TopEventsChart.BarNames | src/components/features/charts/top-events-chart.tsx:36 | bare event names on a contract's page; "nickname: name" on the overview |
| TopEventsChart.Query | src/components/features/charts/top-events-chart.tsx:17-23 | the contract-scoped query, for that contract, exactly when `contractId` is truthy, with the stored time range and the limit defaulting to 10 |
| TopUsersChart.ChartData | src/components/features/charts/top-users-chart.tsx:33-41 | one tile per user in order, named by the entry rule, sized by the transaction count; none without data |
| TopUsersChart.CustomTooltip | src/components/features/charts/top-users-chart.tsx:110-121 | shown exactly when active with a non-empty payload; the first entry's name and its formatted size |
| TopUsersChart.Query | src/components/features/charts/top-users-chart.tsx:17-23 | the contract-scoped query, for that contract, exactly when `contractId` is truthy, with the stored time range and the limit defaulting to 10 |

## Left out

- The HTTP services and react-query itself are left out (fetching, caching, stale times, the retry policy, background refetch). Queries are inputs, and only the saved-contracts invalidation has a cache model.
- Clerk and the clock are inputs: `useClerk()`, `getToken()`, `useUser()` and `new Date().getHours()`. The 60-second `setInterval` refresh in the layout and `console.error` logging are left out.
- Concurrency is not modelled. Concurrent 401s each refresh on their own, and one call of the instance is modelled at a time.
- `ApiClient.Exchange` and `ApiClient.HttpClient.Request` settle as `Unsettled` when the scripted replies run out. The real client would keep waiting or retrying, so endless retries show up as that outcome rather than as divergence.
- The 5000 ms timeout and network errors are a single "no answer" reply.
- `Number.prototype.toFixed`, `Intl.NumberFormat` and the date formatting are opaque parameters. Numbers are reals, so NaN, infinities, rounding and binary floating point are not modelled.
- `Formatters.LowerCase` lowers ASCII letters only, and the regex classes `[a-z]`/`[A-Z]` are ASCII. Unicode case mapping of other letters is not modelled.
- The saved-contracts comparator parses `updatedAt` with `new Date(...)`. The model uses the resulting millisecond timestamp and leaves out invalid dates, which compare as NaN.
- `SavedContracts.Select` is an insertion sort by adjacent swaps. The order it produces is the one any stable sort gives, which is the order `Array.prototype.sort` guarantees, but the engine's own algorithm is not modelled.
- `OverviewStatistics.GetStat` returns None for a looked-up value that is neither falsy nor a number, and for a change that is not a number, null or undefined. The declared response types rule those cases out.
- `OverviewStatistics.Lookup`: indexing a truthy primitive (a number, string or boolean) gives undefined. JavaScript would read a property of the primitive, such as a string's `length`.
- The `useState` copies that the tables keep of their query data are modelled as `Tables.Kept`, a value of the current and previous data, not as component state.
- The chart series are values. The copy made by `slice()` before `reverse()` is expressed by the input sequence being unchanged.
- `colorScale` in the top-users chart is left out: it is floating-point colour interpolation, and it divides by zero when all sizes are equal. Tiles keep their default colour.
- The one-field stores `timeRange.store.ts`, `limit.store.ts` and `savedContract.store.ts` are left out. Their values are passed in, and their initial values (WEEK_1, LIMIT_10, the empty list) appear where the model reads them.
- `GreetingContent` first renders an empty heading, the `useState('')` initial value, until its effect has run; nothing in it suspends, so the `Suspense` fallback "Hello!" is never shown. `Greeting.GreetingText` gives the text after the effect.
- String lengths and slices count Unicode scalar values, while JavaScript's `length` and `slice` count UTF-16 code units. `Formatters.TruncateHash`, the tables' `LocalTruncateHash` copies, `ContractHeader.TruncatedId`, the 56- and 64-character tests of `TopEventsTable.EventNameCell` and the 64-character test of `RecentEventsTable.RenderTopics` therefore differ from the source on text holding characters outside the Basic Multilingual Plane; hashes, ids and event names in ASCII are unaffected.
- Rendering, styling, recharts, dialogs, navigation and the remaining pages are left out. The tables whose cells are only `truncateHash` or `toFixed` of a field (top users, recent alerts) are left out too.
- Recent transactions and events may lack `functionName` or `parameters`. `RecentTxTable.RecentTransaction` makes both fields present, so the `?.` on them is not modelled.
- The average-fees tooltip is modelled on the series names passed to its formatter. Which name recharts actually passes (the `dataKey` or the `name` prop of the bar) is recharts' behaviour and is not modelled.
