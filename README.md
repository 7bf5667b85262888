# Paged tables and gateway statistics of the OS2IoT admin console, in Dafny

This project models the parts of the OS2IoT front end (an Angular console
for a LoRaWAN platform) that make decisions of their own:

- `UserTable` (`user_table.dfy`): the user table's paging, sorting and
  fetching. The component merges the sort widget's and the paginator's
  change streams and seeds them with one start event. It `switchMap`s every
  trigger to a `getMultiple(limit, offset, column, direction, permissionId)`
  call. Here this is an explicit state machine: `TableState` holds the
  component's fields and the log of issued queries. `Init`, `Start`,
  `SortChange`, `PageChange` and `Respond` are its transitions, and `Run`
  applies a sequence of events. The class `UserTableComponent` keeps the same
  fields, updates them in place, and each of its methods is proved to make
  exactly the corresponding transition. `switchMap` becomes a check at
  answer time: query k (0-based, in issue order) may change the table only
  while it is the last query issued and still outstanding. `catchError`
  sits on the outer pipe, so an error completes the whole pipeline. The
  flag `completed` records this. Afterwards no event issues a query, but the
  separate page-reset subscription still sends the paginator to page 0 on a
  sort change.
- `GatewayDetail` (`gateway_detail.dfy`): the gateway detail view. It
  receives the gateway and sorts its statistics newest-first. It builds the
  edit drop-down and the map marker. It folds a reversed copy of the
  statistics into the two charts' series, which therefore run oldest-first
  and share one label sequence. Timestamps are integers. `formatDate` and
  the access check are function parameters about which nothing is assumed.
- `PayloadDecoderTable` (`payload_decoder_table.dfy`): the payload decoder
  table. Its page offset is a counter that `prevPage` and `nextPage` step by
  one, bounded by 0 and by `pageTotal`. Every navigation, start-up, input
  change and successful delete refetches the list. The fetch takes no
  arguments, so the offset does not reach the request. `pageTotal` is never
  assigned in the component. While it is undefined, `offset < pageTotal` is
  false, so the offset stays at 0.
- `Common` (`common.dfy`): `Option`, the paged list body `ListResponse`
  (`data`, `count`), and `FetchResult` (a body, or an error).

HTTP calls are split in two. The request is a log entry in the component's
state. The answer is a separate method call or event that carries the
result. The clock, the network, the translation service, the access
service and the date formatter are parameters or are left out.

Three consequences of the user table's code that the model keeps:

- The error handler sits on the outer pipe. After one failed fetch the
  table issues no further fetches, even when the sort or the page changes.
- A failure keeps `resultsLength`, the previous total.
- A `count` of 0 does not empty `data`. The table takes both from the body
  as they come.

## Model

| member | source | states |
|---|---|---|
| `UserTable.Init` | src/app/admin/users/user-list/user-table/user-table.component.ts:31-40 | the freshly constructed state satisfies the invariant and has issued nothing: page 0, total 0, spinner on, rows undefined |
| `UserTable.Issue` | src/app/admin/users/user-list/user-table/user-table.component.ts:68-71 | the `switchMap` body appends exactly one page-aligned query for the current fields and keeps the earlier log; unless the pipe has completed, the new query is the awaited one and the spinner is on |
| `UserTable.Start` | src/app/admin/users/user-list/user-table/user-table.component.ts:65-70 | the start seed issues exactly one query, the query for the current fields, and awaits it; see also StartIssuesOneQuery |
| `UserTable.SortChange` | src/app/admin/users/user-list/user-table/user-table.component.ts:61-70 | the sort widget takes the new column and direction; once started, the page index is 0; exactly one query, at offset 0, is appended iff the stream is live; rows and completion are untouched; see also SortChangeRestartsAtFirstPage |
| `UserTable.PageChange` | src/app/admin/users/user-list/user-table/user-table.component.ts:65-70 | the paginator takes the new index and size; exactly one query, with limit = size and offset = index × size, is appended iff the stream is live; see also PageChangeIssuesQuery |
| `UserTable.Respond` | src/app/admin/users/user-list/user-table/user-table.component.ts:68-84 | an answer to any query but the awaited one changes nothing; the awaited one hides the spinner and sets the rows (the body's `data`, or empty on error); the total changes only on success, to `count`; an error completes the pipe; see also SuccessTakesCountAndRows, FailureClearsRows |
| `UserTable.Step` | src/app/admin/users/user-list/user-table/user-table.component.ts:61-85 | no single event forgets an issued query, changes `permissionId` or undoes completion |
| `UserTable.Run` | src/app/admin/users/user-list/user-table/user-table.component.ts:61-85 | the query log only grows: after any events the earlier log is a prefix of the new one; `permissionId` and completion are kept; see also RunKeepsInvariant, StaleAnswersIgnored, FailureIsFinal |
| `UserTable.Query` | src/app/admin/users/user-list/user-table/user-table.component.ts:48-59 | the query's limit is the page size; its offset is a whole number of pages, and the page it asks for is the paginator's page index; the sort column and direction and `permissionId` are passed unchanged |
| `UserTable.PageArithmetic` | src/app/admin/users/user-list/user-table/user-table.component.ts:53-54 | an offset of index × size is a multiple of the size, and dividing it by the size gives the index back |
| `UserTable.StartKeepsInvariant` | src/app/admin/users/user-list/user-table/user-table.component.ts:65-70 | the start-up event, applied to a consistent state before anything is issued, gives a consistent state |
| `UserTable.StepKeepsInvariant` | src/app/admin/users/user-list/user-table/user-table.component.ts:61-85 | every event keeps the invariant: every query is page-aligned and carries the component's `permissionId`; after start-up the spinner shows exactly while the latest query is outstanding; after completion the rows are empty |
| `UserTable.RunKeepsInvariant` | src/app/admin/users/user-list/user-table/user-table.component.ts:61-85 | the invariant holds after any sequence of sort, page and answer events |
| `UserTable.StartIssuesOneQuery` | src/app/admin/users/user-list/user-table/user-table.component.ts:65-70 | start-up issues exactly one query, for offset 0 with the default page size and unset sort, with the spinner on and no rows yet |
| `UserTable.SortChangeRestartsAtFirstPage` | src/app/admin/users/user-list/user-table/user-table.component.ts:61-70 | while the stream is live, a sort change zeroes the page index and appends exactly one query, with offset 0 and the new sort; the spinner is on |
| `UserTable.PageChangeIssuesQuery` | src/app/admin/users/user-list/user-table/user-table.component.ts:52-70 | while the stream is live, a page change appends exactly one query with limit = new size and offset = new index × size; the spinner is on |
| `UserTable.SuccessTakesCountAndRows` | src/app/admin/users/user-list/user-table/user-table.component.ts:72-84 | the latest query's success sets the total to `count`, whatever the number of rows, sets the rows to `data`, and turns the spinner off |
| `UserTable.FailureClearsRows` | src/app/admin/users/user-list/user-table/user-table.component.ts:79-84 | the latest query's failure empties the rows, turns the spinner off, keeps the previous total and completes the pipeline |
| `UserTable.StaleAnswersIgnored` | src/app/admin/users/user-list/user-table/user-table.component.ts:68 | any sequence of answers to queries other than the last one leaves the state unchanged, in whatever order they arrive |
| `UserTable.SettledIgnoresAnswers` | src/app/admin/users/user-list/user-table/user-table.component.ts:68-84 | once no query is outstanding, any sequence of answers leaves the whole state unchanged |
| `UserTable.OnlyLatestAnswerApplies` | src/app/admin/users/user-list/user-table/user-table.component.ts:68-84 | after any sequence of answers the query log is unchanged, and the state is either unchanged or exactly the transition of one answer to the query that was awaited: rows, total, spinner and completion all come from that one answer |
| `UserTable.LateAnswerDoesNotOverwrite` | src/app/admin/users/user-list/user-table/user-table.component.ts:65-84 | a page change supersedes an outstanding query; if the new query answers first and the old one answers last, the table shows the new query's rows and total |
| `UserTable.FailureIsFinal` | src/app/admin/users/user-list/user-table/user-table.component.ts:79-84 | once the pipeline has completed on an error, no sequence of events issues a query; the rows stay empty, the total stays, and the spinner stays off |
| `UserTable.SortResetSurvivesFailure` | src/app/admin/users/user-list/user-table/user-table.component.ts:63 | after completion a sort change still zeroes the page index, issuing nothing and leaving the rows |
| `UserTable.UserTableComponent.constructor` | src/app/admin/users/user-list/user-table/user-table.component.ts:31-40 | a new component: page 0, total 0, spinner on, rows undefined, nothing issued |
| `UserTable.UserTableComponent.GetUsers` | src/app/admin/users/user-list/user-table/user-table.component.ts:48-59 | returns the query for the current fields: page-aligned, asking for the current page with the current page size |
| `UserTable.UserTableComponent.SwitchToQuery` | src/app/admin/users/user-list/user-table/user-table.component.ts:68-71 | turns the spinner on and appends the current query as the only outstanding one |
| `UserTable.UserTableComponent.NgAfterViewInit` | src/app/admin/users/user-list/user-table/user-table.component.ts:61-85 | makes the start transition and keeps the invariant; the one query issued is for the current page |
| `UserTable.UserTableComponent.OnSortChange` | src/app/admin/users/user-list/user-table/user-table.component.ts:61-70 | makes the sort transition and keeps the invariant; it returns a query exactly when the stream is live, and that query has offset 0 |
| `UserTable.UserTableComponent.OnPage` | src/app/admin/users/user-list/user-table/user-table.component.ts:65-70 | makes the page transition and keeps the invariant; it returns a query exactly when the stream is live, and that query has offset index × size |
| `UserTable.UserTableComponent.OnResponse` | src/app/admin/users/user-list/user-table/user-table.component.ts:68-84 | makes the answer transition (applied only to the outstanding latest query) and keeps the invariant |
| `GatewayDetail.GetCoordinates` | src/app/gateway/gateway-detail/gateway-detail.component.ts:75-84 | the marker has the gateway's longitude, latitude, name, id and organization name, and the given activity; it is never draggable, never editable, and never follows the browser's position |
| `GatewayDetail.DropdownFor` | src/app/gateway/gateway-detail/gateway-detail.component.ts:105-110 | a button exists exactly when the user may edit; it shows the options key, is erasable, and its edit link parses back to exactly the given id |
| `GatewayDetail.Insert` | src/app/gateway/gateway-detail/gateway-detail.component.ts:93 | one insertion step of the sort adds one entry; see InsertPermutes, InsertKeepsNewestFirst |
| `GatewayDetail.SortNewestFirst` | src/app/gateway/gateway-detail/gateway-detail.component.ts:93 | the `sort` by `b.timestamp - a.timestamp` keeps the number of statistics; see SortNewestFirstCorrect for order and permutation |
| `GatewayDetail.Reversed` | src/app/gateway/gateway-detail/gateway-detail.component.ts:127 | the `slice().reverse()` copy has the input's length and starts with its last statistic; see ReversedAt, ReversedKeepsElements |
| `GatewayDetail.Push` | src/app/gateway/gateway-detail/gateway-detail.component.ts:135-142 | the reduce callback adds exactly one entry to each of the two series and to the labels; see FoldAppends |
| `GatewayDetail.Fold` | src/app/gateway/gateway-detail/gateway-detail.component.ts:127-161 | the reduce adds one entry per statistic to each series and to the labels; see FoldAppends for the contents |
| `GatewayDetail.BuildSeries` | src/app/gateway/gateway-detail/gateway-detail.component.ts:122-161 | both series and the labels have exactly one entry per statistic; see SeriesRunReversed for the contents |
| `GatewayDetail.InsertPermutes` | src/app/gateway/gateway-detail/gateway-detail.component.ts:93 | one insertion step of the sort adds exactly the inserted statistic to the entries |
| `GatewayDetail.InsertKeepsNewestFirst` | src/app/gateway/gateway-detail/gateway-detail.component.ts:93 | one insertion step keeps newest-first statistics newest-first |
| `GatewayDetail.SortNewestFirstCorrect` | src/app/gateway/gateway-detail/gateway-detail.component.ts:92-93 | the sorted statistics are a permutation of the input, with timestamps non-increasing |
| `GatewayDetail.ReversedAt` | src/app/gateway/gateway-detail/gateway-detail.component.ts:127 | position k of the reversed copy holds input position n-1-k |
| `GatewayDetail.ReversedKeepsElements` | src/app/gateway/gateway-detail/gateway-detail.component.ts:127 | the reversed copy holds exactly the statistics it was made from |
| `GatewayDetail.ReversedNewestFirstIsOldestFirst` | src/app/gateway/gateway-detail/gateway-detail.component.ts:127 | reversing newest-first statistics gives a permutation with timestamps non-decreasing |
| `GatewayDetail.FoldAppends` | src/app/gateway/gateway-detail/gateway-detail.component.ts:127-161 | the reduce appends exactly one received count, one sent count and one formatted label per statistic, in order, after the accumulator's entries |
| `GatewayDetail.SeriesRunReversed` | src/app/gateway/gateway-detail/gateway-detail.component.ts:122-161 | the three series have one entry per statistic; position i holds `rxPacketsReceived`, `txPacketsEmitted` and the formatted timestamp of statistic n-1-i |
| `GatewayDetail.GatewayDetailComponent.constructor` | src/app/gateway/gateway-detail/gateway-detail.component.ts:28-59 | a new component holds the route's id, no gateway, no statistics, empty charts, the spinner on, and no request |
| `GatewayDetail.GatewayDetailComponent.NgAfterViewInit` | src/app/gateway/gateway-detail/gateway-detail.component.ts:69-73 | requests the gateway exactly when the route's id is present and non-empty |
| `GatewayDetail.GatewayDetailComponent.BindGateway` | src/app/gateway/gateway-detail/gateway-detail.component.ts:86-87 | records one request for the given gateway id |
| `GatewayDetail.GatewayDetailComponent.OnGateway` | src/app/gateway/gateway-detail/gateway-detail.component.ts:87-102 | stores the gateway with its edit permission; the statistics and the table rows become the input sorted newest-first (a permutation, non-increasing); the result length is the number of statistics; the spinner is off; the drop-down is rebuilt, and for an editing user its link leads to the route's gateway; both charts are rebuilt; the status panel is signalled once |
| `GatewayDetail.GatewayDetailComponent.StoreGateway` | src/app/gateway/gateway-detail/gateway-detail.component.ts:88-95 | sets the permission, the gateway, the sorted statistics, the table rows and the result length |
| `GatewayDetail.GatewayDetailComponent.SetDropdownButton` | src/app/gateway/gateway-detail/gateway-detail.component.ts:105-110 | the drop-down becomes the button for the current permission and route id: a button exactly when the user may edit, and then, for a present route id, its edit link leads to exactly that gateway; a missing id is concatenated as the text "null", as JavaScript does |
| `GatewayDetail.GatewayDetailComponent.BuildGraphs` | src/app/gateway/gateway-detail/gateway-detail.component.ts:122-165 | both charts come from one fold over a reversed copy; the statistics are not changed; both charts share the same labels, one per statistic |
| `PayloadDecoderTable.PrevOffset` | src/app/payload-decoder/payload-decoder/payload-decoder-table/payload-decoder-table.component.ts:63 | a truthy (non-zero) offset steps back by exactly one, a positive one to a smaller non-negative one; 0 stays 0 |
| `PayloadDecoderTable.NextOffset` | src/app/payload-decoder/payload-decoder/payload-decoder-table/payload-decoder-table.component.ts:68 | the offset moves by at most one, and moves forward exactly when a total is set and the offset is below it; it never passes the total |
| `PayloadDecoderTable.Navigate` | src/app/payload-decoder/payload-decoder/payload-decoder-table/payload-decoder-table.component.ts:62-70 | after any sequence of clicks the offset is within one per click of where it started; see NavigateStaysInRange, NavigateWithoutTotalStaysAtZero |
| `PayloadDecoderTable.PrevOffsetStep` | src/app/payload-decoder/payload-decoder/payload-decoder-table/payload-decoder-table.component.ts:62-63 | `prevPage` never goes below 0: at 0 it stays, otherwise it steps back exactly one, and it stays in range |
| `PayloadDecoderTable.NextOffsetStep` | src/app/payload-decoder/payload-decoder/payload-decoder-table/payload-decoder-table.component.ts:67-68 | `nextPage` steps forward exactly one while below the total and never passes it; with no total it stays put |
| `PayloadDecoderTable.PrevNextInverse` | src/app/payload-decoder/payload-decoder/payload-decoder-table/payload-decoder-table.component.ts:62-70 | within the range, `prevPage` undoes `nextPage` and `nextPage` undoes `prevPage` |
| `PayloadDecoderTable.NavigateStaysInRange` | src/app/payload-decoder/payload-decoder/payload-decoder-table/payload-decoder-table.component.ts:62-70 | no sequence of clicks makes the offset negative or pushes it past the total |
| `PayloadDecoderTable.NavigateWithoutTotalStaysAtZero` | src/app/payload-decoder/payload-decoder/payload-decoder-table/payload-decoder-table.component.ts:20-21 | while the total is unset, no sequence of clicks moves the offset off 0 |
| `PayloadDecoderTable.PayloadDecoderTableComponent.constructor` | src/app/payload-decoder/payload-decoder/payload-decoder-table/payload-decoder-table.component.ts:17-21 | a new component has offset 0, no total, no decoders and no requests |
| `PayloadDecoderTable.PayloadDecoderTableComponent.NgOnInit` | src/app/payload-decoder/payload-decoder/payload-decoder-table/payload-decoder-table.component.ts:31-32 | start-up fetches once |
| `PayloadDecoderTable.PayloadDecoderTableComponent.GetPayloadDecoders` | src/app/payload-decoder/payload-decoder/payload-decoder-table/payload-decoder-table.component.ts:41-47 | one fetch that reads neither the offset nor the limit, and changes nothing else |
| `PayloadDecoderTable.PayloadDecoderTableComponent.OnPayloadDecoders` | src/app/payload-decoder/payload-decoder/payload-decoder-table/payload-decoder-table.component.ts:43-46 | a body replaces the decoder list with its `data`; an error changes nothing |
| `PayloadDecoderTable.PayloadDecoderTableComponent.NgOnChanges` | src/app/payload-decoder/payload-decoder/payload-decoder-table/payload-decoder-table.component.ts:49-51 | every input change refetches |
| `PayloadDecoderTable.PayloadDecoderTableComponent.DeletePayloadDecoder` | src/app/payload-decoder/payload-decoder/payload-decoder-table/payload-decoder-table.component.ts:53-55 | records one delete request for the id |
| `PayloadDecoderTable.PayloadDecoderTableComponent.OnDeleteResponse` | src/app/payload-decoder/payload-decoder/payload-decoder-table/payload-decoder-table.component.ts:55-59 | refetches exactly when the delete answer is ok |
| `PayloadDecoderTable.PayloadDecoderTableComponent.PrevPage` | src/app/payload-decoder/payload-decoder/payload-decoder-table/payload-decoder-table.component.ts:62-65 | steps the offset back per `PrevOffset`, never below 0, keeps it in range, and always refetches |
| `PayloadDecoderTable.PayloadDecoderTableComponent.NextPage` | src/app/payload-decoder/payload-decoder/payload-decoder-table/payload-decoder-table.component.ts:67-70 | steps the offset forward per `NextOffset`, leaves it unchanged while the total is unset, keeps it in range, and always refetches |

## Left out

- The sort widget's unset column (`active` is `undefined` until the user picks one) is `None`, and the query passes it on as `None`. The unset direction is the empty string, as in the widget.
- HTTP transport (`UserService`, `ChirpstackGatewayService`, `PayloadDecoderService`): a request is a log entry, and its answer is a separate call carrying a `FetchResult` or a body.
- RxJS internals and the Material paginator and sort widgets: `switchMap` is the latest-query check, `startWith` is `Start`, and the widgets are plain fields. The paginator's own recomputation of the page index when the page size changes happens inside the widget; the model takes the index and size the widget reports.
- Changes to the user table's `permissionId` input after start-up are not modelled. The field is fixed from construction, whereas the component would put a new value in later queries.
- The `canSort` input, `displayedColumns`, `pageSizeOptions` and everything in the templates.
- Translation calls: the back button's label, `translate.use`, and the drop-down's label, which keeps its translation key in the model.
- `JSON.stringify` of the gateway's tags (the `tagsString` field), `dataSource.paginator` wiring, chart colours, and the Date parsing of timestamps. Timestamps are integers, so invalid dates are not modelled.
- The `ngOnInit` check of the gateway's edit permission: the gateway is never set at that point, so the branch does not run.
- `onDeleteGateway`, the delete dialogs, `console.log`, and the `ngOnDestroy` unsubscriptions.
- GatewayDetail.SortNewestFirstCorrect: states the order and the permutation but not stability. `SortNewestFirst` is a stable insertion sort, like `Array.prototype.sort`, but no lemma says so.
- GatewayDetail.GatewayDetailComponent.OnGateway: the source sorts the response's own array in place, so `gatewayStats`, the table rows and `result.stats` are one array. The model assigns a sorted sequence to the fields and does not model that aliasing.
- The payload decoder table's `selectedSortObject` input, which nothing in the component reads, and its commented-out store subscription.
- A list request that errors in the payload decoder table has no handler, so the error goes unhandled. The model keeps the previous list.
- src/app/device-model/device.model.ts, src/app/applications/datatarget/datatarget-response.model.ts, src/app/app-routing.module.ts, src/app/navbar/navbar.module.ts and src/app/profiles/device-profiles/device-profiles-list/device-profiles-list.component.ts are not part of this model. They hold plain records, routing, module wiring and request-then-refresh glue.
