/**
 * The paged, sortable user table (`UserTableComponent`).
 *
 * The component merges the sort widget's and the paginator's change
 * streams, seeds the merge with one start event, and `switchMap`s every
 * trigger to a `UserService.getMultiple` call built from the current
 * paginator and sort state. Only the latest call may reach the table;
 * an error is caught on the outer pipe, which then completes.
 *
 * The reactive pipeline is modelled as an explicit state machine:
 * `TableState` holds the component's fields together with the log of
 * issued queries, `pending` (the latest query has not answered yet) and
 * `completed` (the outer pipe has completed after an error). Query number
 * k (0-based, in issue order) may change the table only while it is the
 * last one issued; that is what `switchMap` guarantees by unsubscribing
 * from every earlier call.
 */
module UserTable {
  import opened Common

  /** A page size the paginator offers: always positive. */
  type PageSize = n: nat | n > 0 witness 1

  /** The arguments of one `UserService.getMultiple` call. */
  datatype UserQuery = UserQuery(
    limit: nat,
    offset: nat,
    orderByColumn: Option<string>,
    orderByDirection: string,
    permissionId: Option<int>)

  /**
   * The component's state: the paginator's page index and size, the sort
   * widget's column (`None` while no column has been chosen, when the
   * widget's `active` is `undefined`) and direction (the empty string when
   * unset), the
   * `permissionId` input, the three bound fields, and the bookkeeping of
   * the `switchMap` pipeline.
   */
  datatype TableState<T> = TableState(
    pageIndex: nat,
    pageSize: PageSize,
    sortActive: Option<string>,
    sortDirection: string,
    permissionId: Option<int>,
    resultsLength: nat,
    isLoadingResults: bool,
    data: Option<seq<T>>,
    issued: seq<UserQuery>,
    pending: bool,
    completed: bool)

  /** What the merged stream delivers after start-up, and what the HTTP calls answer. */
  datatype Event<T> =
    | SortChanged(active: string, direction: string)
    | PageChanged(index: nat, size: PageSize)
    | Responded(k: nat, result: FetchResult<T>)

  /** A freshly constructed component: no query issued yet, spinner on, no rows. */
  function Init<T>(pageSize: PageSize, permissionId: Option<int>): (r: TableState<T>)
    ensures Invariant(r) && !Started(r) && !r.completed
    ensures r.pageIndex == 0 && r.resultsLength == 0 && r.isLoadingResults && r.data.None?
  {
    TableState(0, pageSize, None, "", permissionId, 0, true, None, [], false, false)
  }

  /** `ngAfterViewInit` has run: the pipeline has issued its first query. */
  predicate Started<T>(s: TableState<T>)
  {
    |s.issued| > 0
  }

  /** The merged trigger stream is still subscribed. */
  predicate Live<T>(s: TableState<T>)
  {
    Started(s) && !s.completed
  }

  /** Query k is the one `switchMap` is still subscribed to. */
  predicate Awaits<T>(s: TableState<T>, k: nat)
  {
    !s.completed && s.pending && k + 1 == |s.issued|
  }

  /** A query whose offset is a whole number of pages. */
  predicate PageAligned(q: UserQuery)
  {
    q.limit > 0 && q.offset % q.limit == 0
  }

  /** The page a query asks for. */
  function PageOf(q: UserQuery): nat
    requires q.limit > 0
  {
    q.offset / q.limit
  }

  lemma PageArithmetic(i: nat, n: nat)
    requires n > 0
    ensures (i * n) % n == 0 && (i * n) / n == i
  {
    var p := i * n;
    var q, r := p / n, p % n;
    assert p == q * n + r && 0 <= r < n;
    assert (i - q) * n == r;
    MultipleBelowDivisorIsZero(i - q, n);
  }

  lemma MultipleBelowDivisorIsZero(d: int, n: int)
    requires n > 0 && 0 <= d * n < n
    ensures d == 0
  {
  }

  /**
   * `getUsers`: the query built from the paginator, the sort widget and the
   * `permissionId` input. Its offset is a whole number of pages, and the
   * page it asks for is the paginator's page index.
   */
  function Query<T>(s: TableState<T>): (q: UserQuery)
    ensures q.limit == s.pageSize && PageAligned(q) && PageOf(q) == s.pageIndex
    ensures q.orderByColumn == s.sortActive && q.orderByDirection == s.sortDirection
    ensures q.permissionId == s.permissionId
  {
    PageArithmetic(s.pageIndex, s.pageSize);
    UserQuery(s.pageSize, s.pageIndex * s.pageSize, s.sortActive, s.sortDirection, s.permissionId)
  }

  /** A trigger reaching `switchMap`: spinner on, and the latest query replaces every earlier one. */
  function Issue<T>(s: TableState<T>): (r: TableState<T>)
    ensures |r.issued| == |s.issued| + 1 && r.issued[..|s.issued|] == s.issued
    ensures r.issued[|s.issued|] == Query(s) && PageAligned(r.issued[|s.issued|])
    ensures !s.completed ==> Awaits(r, |s.issued|) && r.isLoadingResults
    ensures r.data == s.data && r.resultsLength == s.resultsLength
  {
    s.(isLoadingResults := true, issued := s.issued + [Query(s)], pending := true)
  }

  /** `ngAfterViewInit`: the `startWith` seed issues the first query. */
  function Start<T>(s: TableState<T>): (r: TableState<T>)
    requires !Started(s)
    ensures Started(r) && |r.issued| == 1 && r.issued[0] == Query(s)
    ensures !s.completed ==> Awaits(r, 0)
  {
    Issue(s)
  }

  /**
   * A sort change. The page-reset subscription was made first, so it zeroes
   * the page index before the merged stream issues the next query; it stays
   * subscribed after the merged stream has completed. Before start-up
   * nothing is subscribed and only the widget changes.
   */
  function SortChange<T>(s: TableState<T>, active: string, direction: string): (r: TableState<T>)
    ensures r.sortActive == Some(active) && r.sortDirection == direction
    ensures Started(s) ==> r.pageIndex == 0
    ensures |r.issued| == |s.issued| + (if Live(s) then 1 else 0) && r.issued[..|s.issued|] == s.issued
    ensures Live(s) ==> r.issued[|s.issued|].offset == 0 && Awaits(r, |s.issued|)
    ensures r.data == s.data && r.completed == s.completed
  {
    var widget := s.(sortActive := Some(active), sortDirection := direction);
    if !Started(widget) then widget
    else
      var reset := widget.(pageIndex := 0);
      if reset.completed then reset else Issue(reset)
  }

  /** A paginator change: a fetch follows only while the merged stream is subscribed. */
  function PageChange<T>(s: TableState<T>, index: nat, size: PageSize): (r: TableState<T>)
    ensures r.pageIndex == index && r.pageSize == size
    ensures |r.issued| == |s.issued| + (if Live(s) then 1 else 0) && r.issued[..|s.issued|] == s.issued
    ensures Live(s) ==> var q := r.issued[|s.issued|]; q.limit == size && q.offset == index * size && Awaits(r, |s.issued|)
    ensures r.data == s.data && r.completed == s.completed
  {
    var widget := s.(pageIndex := index, pageSize := size);
    if Live(widget) then Issue(widget) else widget
  }

  /** The rows the subscriber receives for an answer that is applied. */
  function RowsOf<T>(result: FetchResult<T>): seq<T>
  {
    match result
    case Success(body) => body.data
    case Failure => []
  }

  /**
   * Query k answers. A superseded query has been unsubscribed and changes
   * nothing. On success `map` takes the total from `count` and the rows
   * from `data`; on error `catchError` clears the rows and the outer pipe
   * completes, keeping the previous total.
   */
  function Respond<T>(s: TableState<T>, k: nat, result: FetchResult<T>): (r: TableState<T>)
    ensures !Awaits(s, k) ==> r == s
    ensures Awaits(s, k) ==> !r.pending && !r.isLoadingResults && r.data == Some(RowsOf(result))
    ensures r.resultsLength == if Awaits(s, k) && result.Success? then result.body.count else s.resultsLength
    ensures r.completed <==> s.completed || (Awaits(s, k) && result.Failure?)
    ensures r.issued == s.issued && r.pageIndex == s.pageIndex
  {
    if !Awaits(s, k) then s
    else
      match result
      case Success(body) =>
        s.(isLoadingResults := false, resultsLength := body.count, data := Some(body.data), pending := false)
      case Failure =>
        s.(isLoadingResults := false, data := Some([]), pending := false, completed := true)
  }

  /** One event. No event forgets an issued query, changes `permissionId` or undoes completion. */
  function Step<T>(s: TableState<T>, e: Event<T>): (r: TableState<T>)
    ensures |s.issued| <= |r.issued| && r.issued[..|s.issued|] == s.issued
    ensures r.permissionId == s.permissionId && (s.completed ==> r.completed)
  {
    match e
    case SortChanged(active, direction) => SortChange(s, active, direction)
    case PageChanged(index, size) => PageChange(s, index, size)
    case Responded(k, result) => Respond(s, k, result)
  }

  /** The state after delivering the events in order. */
  function Run<T>(s: TableState<T>, es: seq<Event<T>>): (r: TableState<T>)
    ensures |s.issued| <= |r.issued| && r.issued[..|s.issued|] == s.issued
    ensures r.permissionId == s.permissionId && (s.completed ==> r.completed)
    decreases |es|
  {
    if es == [] then s
    else
      var next := Step(s, es[0]);
      var r := Run(next, es[1..]);
      assert r.issued[..|next.issued|][..|s.issued|] == r.issued[..|s.issued|];
      r
  }

  /**
   * The invariant: every query is page-aligned and carries the component's
   * `permissionId`; after start-up the spinner shows exactly while the
   * latest query is outstanding; once the pipe has completed the rows are
   * empty and nothing is outstanding.
   */
  ghost predicate Invariant<T>(s: TableState<T>)
  {
    && (forall q :: q in s.issued ==> PageAligned(q) && q.permissionId == s.permissionId)
    && (s.pending ==> Started(s) && !s.completed)
    && (Started(s) ==> s.isLoadingResults == s.pending)
    && (s.completed ==> Started(s) && s.data == Some([]))
  }

  lemma StartKeepsInvariant<T>(s: TableState<T>)
    requires Invariant(s) && !Started(s)
    ensures Invariant(Start(s))
  {
  }

  lemma StepKeepsInvariant<T>(s: TableState<T>, e: Event<T>)
    requires Invariant(s)
    ensures Invariant(Step(s, e))
  {
  }

  /** Every state reachable from a consistent one by any events is consistent. */
  lemma {:induction false} RunKeepsInvariant<T>(s: TableState<T>, es: seq<Event<T>>)
    requires Invariant(s)
    ensures Invariant(Run(s, es))
    decreases |es|
  {
    if es != [] {
      StepKeepsInvariant(s, es[0]);
      RunKeepsInvariant(Step(s, es[0]), es[1..]);
    }
  }

  /**
   * Start-up issues exactly one query, for the first page with the default
   * page size and the unset sort, and shows the spinner.
   */
  lemma StartIssuesOneQuery<T>(pageSize: PageSize, permissionId: Option<int>)
    ensures var s := Start(Init<T>(pageSize, permissionId));
      && s.issued == [UserQuery(pageSize, 0, None, "", permissionId)]
      && s.isLoadingResults && s.pending && s.data == None
  {
  }

  /**
   * While the merged stream is subscribed, a sort change issues one query,
   * for offset 0, and the paginator is back on the first page.
   */
  lemma SortChangeRestartsAtFirstPage<T>(s: TableState<T>, active: string, direction: string)
    requires Live(s)
    ensures var r := SortChange(s, active, direction);
      && r.pageIndex == 0
      && |r.issued| == |s.issued| + 1 && r.issued[..|s.issued|] == s.issued
      && r.issued[|s.issued|] == UserQuery(s.pageSize, 0, Some(active), direction, s.permissionId)
      && r.isLoadingResults && r.pending
  {
  }

  /**
   * While the merged stream is subscribed, a page change issues one query
   * whose limit is the new page size and whose offset is the new index
   * times that size.
   */
  lemma PageChangeIssuesQuery<T>(s: TableState<T>, index: nat, size: PageSize)
    requires Live(s)
    ensures var r := PageChange(s, index, size);
      && |r.issued| == |s.issued| + 1 && r.issued[..|s.issued|] == s.issued
      && r.issued[|s.issued|] == UserQuery(size, index * size, s.sortActive, s.sortDirection, s.permissionId)
      && r.isLoadingResults && r.pending
  {
  }

  /**
   * The latest query's success sets the total from `count`, whatever the
   * number of rows, takes the rows, and hides the spinner.
   */
  lemma SuccessTakesCountAndRows<T>(s: TableState<T>, k: nat, body: ListResponse<T>)
    requires Awaits(s, k)
    ensures var r := Respond(s, k, Success(body));
      && r.resultsLength == body.count && r.data == Some(body.data)
      && !r.isLoadingResults && !r.completed && r.issued == s.issued
  {
  }

  /** The latest query's error empties the rows, hides the spinner and keeps the total. */
  lemma FailureClearsRows<T>(s: TableState<T>, k: nat)
    requires Awaits(s, k)
    ensures var r := Respond(s, k, Failure);
      && r.data == Some([]) && !r.isLoadingResults
      && r.resultsLength == s.resultsLength && r.completed && r.issued == s.issued
  {
  }

  /** Answers to superseded queries change nothing, in whatever order they arrive. */
  lemma {:induction false} StaleAnswersIgnored<T>(s: TableState<T>, es: seq<Event<T>>)
    requires forall i :: 0 <= i < |es| ==> es[i].Responded? && es[i].k + 1 != |s.issued|
    ensures Run(s, es) == s
    decreases |es|
  {
    if es != [] {
      assert Step(s, es[0]) == s;
      StaleAnswersIgnored(s, es[1..]);
    }
  }

  /** Once nothing is outstanding, no answer changes anything: `switchMap` has unsubscribed from all of them. */
  lemma {:induction false} SettledIgnoresAnswers<T>(s: TableState<T>, es: seq<Event<T>>)
    requires !s.pending
    requires forall i :: 0 <= i < |es| ==> es[i].Responded?
    ensures Run(s, es) == s
    decreases |es|
  {
    if es != [] {
      assert Step(s, es[0]) == s;
      SettledIgnoresAnswers(s, es[1..]);
    }
  }

  /**
   * Latest wins: whatever answers arrive, in whatever order, at most one of
   * them applies, and it is an answer to the query still awaited. The state
   * is then exactly that answer's transition, rows and total included.
   */
  lemma {:induction false} OnlyLatestAnswerApplies<T>(s: TableState<T>, es: seq<Event<T>>)
    requires forall i :: 0 <= i < |es| ==> es[i].Responded?
    ensures var r := Run(s, es);
      && r.issued == s.issued
      && (r == s
          || exists i :: 0 <= i < |es| && Awaits(s, es[i].k) && r == Respond(s, es[i].k, es[i].result))
    decreases |es|
  {
    if es != [] {
      var t := Step(s, es[0]);
      assert Run(s, es) == Run(t, es[1..]);
      if t == s {
        OnlyLatestAnswerApplies(s, es[1..]);
        if Run(s, es) != s {
          var j :| 0 <= j < |es[1..]| && Awaits(s, es[1..][j].k)
            && Run(s, es[1..]) == Respond(s, es[1..][j].k, es[1..][j].result);
          assert es[j + 1] == es[1..][j];
        }
      } else {
        assert Awaits(s, es[0].k) && !t.pending;
        SettledIgnoresAnswers(t, es[1..]);
      }
    }
  }

  /**
   * Out-of-order answers: a trigger supersedes the outstanding query; the
   * new query answers first and the old one last. The table shows the new
   * query's rows.
   */
  lemma LateAnswerDoesNotOverwrite<T>(s: TableState<T>, index: nat, size: PageSize, older: FetchResult<T>, newer: ListResponse<T>)
    requires Invariant(s) && Live(s) && s.pending
    ensures var r := Run(s, [PageChanged(index, size), Responded(|s.issued|, Success(newer)), Responded(|s.issued| - 1, older)]);
      && r.data == Some(newer.data) && r.resultsLength == newer.count && !r.isLoadingResults
  {
    var a, b, c := PageChanged(index, size), Responded(|s.issued|, Success(newer)), Responded(|s.issued| - 1, older);
    var s1 := Step(s, a);
    var s2 := Step(s1, b);
    assert Step(s2, c) == s2;
    assert Run(s2, [c]) == s2 by { assert [c][1..] == []; }
    assert Run(s1, [b, c]) == s2 by { assert [b, c][1..] == [c]; }
    assert Run(s, [a, b, c]) == s2 by { assert [a, b, c][1..] == [b, c]; }
  }

  /**
   * After the pipe has completed on an error, no event issues another
   * query and the rows stay empty; the total is kept and the spinner stays off.
   */
  lemma {:induction false} FailureIsFinal<T>(s: TableState<T>, es: seq<Event<T>>)
    requires Invariant(s) && s.completed
    ensures var r := Run(s, es);
      && r.issued == s.issued && r.data == Some([]) && r.completed
      && r.resultsLength == s.resultsLength && !r.isLoadingResults
    decreases |es|
  {
    if es != [] {
      StepKeepsInvariant(s, es[0]);
      FailureIsFinal(Step(s, es[0]), es[1..]);
    }
  }

  /** After the pipe has completed, a sort change still sends the paginator to the first page. */
  lemma SortResetSurvivesFailure<T>(s: TableState<T>, active: string, direction: string)
    requires Invariant(s) && s.completed
    ensures var r := SortChange(s, active, direction);
      r.pageIndex == 0 && r.issued == s.issued && r.data == s.data
  {
  }

  /**
   * The component itself: its fields are updated in place by the lifecycle
   * hook, the widget callbacks and the HTTP answers.
   */
  class UserTableComponent<T> {
    var pageIndex: nat
    var pageSize: PageSize
    var sortActive: Option<string>
    var sortDirection: string
    var permissionId: Option<int>
    var resultsLength: nat
    var isLoadingResults: bool
    var data: Option<seq<T>>
    /** The `getMultiple` calls made so far, oldest first. */
    var issued: seq<UserQuery>
    var pending: bool
    var completed: bool

    function State(): TableState<T>
      reads this
    {
      TableState(pageIndex, pageSize, sortActive, sortDirection, permissionId,
                 resultsLength, isLoadingResults, data, issued, pending, completed)
    }

    ghost predicate Valid()
      reads this
    {
      Invariant(State())
    }

    constructor (pageSize: PageSize, permissionId: Option<int>)
      ensures State() == Init(pageSize, permissionId) && Valid()
    {
      this.pageIndex := 0;
      this.pageSize := pageSize;
      this.sortActive := None;
      this.sortDirection := "";
      this.permissionId := permissionId;
      this.resultsLength := 0;
      this.isLoadingResults := true;
      this.data := None;
      this.issued := [];
      this.pending := false;
      this.completed := false;
    }

    /** `getUsers`: the query for the current paginator and sort state. */
    method GetUsers() returns (q: UserQuery)
      ensures q == Query(State())
      ensures PageAligned(q) && PageOf(q) == pageIndex && q.limit == pageSize
    {
      PageArithmetic(pageIndex, pageSize);
      q := UserQuery(pageSize, pageIndex * pageSize, sortActive, sortDirection, permissionId);
    }

    /** The `switchMap` body: spinner on, then issue the query. */
    method SwitchToQuery() returns (q: UserQuery)
      modifies this
      ensures State() == Issue(old(State())) && q == Query(old(State()))
    {
      isLoadingResults := true;
      q := GetUsers();
      issued := issued + [q];
      pending := true;
    }

    /** `ngAfterViewInit`: subscribe, and let the start seed issue the first query. */
    method NgAfterViewInit() returns (q: UserQuery)
      requires Valid() && !Started(State())
      modifies this
      ensures State() == Start(old(State())) && Valid()
      ensures issued == old(issued) + [q] && q.offset == old(pageIndex) * old(pageSize)
    {
      StartKeepsInvariant(State());
      q := SwitchToQuery();
    }

    /** The sort widget's change event; returns the query it issued, if any. */
    method OnSortChange(active: string, direction: string) returns (q: Option<UserQuery>)
      requires Valid()
      modifies this
      ensures State() == SortChange(old(State()), active, direction) && Valid()
      ensures q.Some? <==> Live(old(State()))
      ensures q.Some? ==> issued == old(issued) + [q.value] && q.value.offset == 0
    {
      StepKeepsInvariant(State(), SortChanged(active, direction));
      sortActive, sortDirection := Some(active), direction;
      q := None;
      if |issued| > 0 {
        pageIndex := 0;
        if !completed {
          var issuedQuery := SwitchToQuery();
          q := Some(issuedQuery);
        }
      }
    }

    /** The paginator's page event; returns the query it issued, if any. */
    method OnPage(index: nat, size: PageSize) returns (q: Option<UserQuery>)
      requires Valid()
      modifies this
      ensures State() == PageChange(old(State()), index, size) && Valid()
      ensures q.Some? <==> Live(old(State()))
      ensures q.Some? ==> issued == old(issued) + [q.value] && q.value.offset == index * size
    {
      StepKeepsInvariant(State(), PageChanged(index, size));
      pageIndex, pageSize := index, size;
      q := None;
      if |issued| > 0 && !completed {
        var issuedQuery := SwitchToQuery();
        q := Some(issuedQuery);
      }
    }

    /** Query k answers; only the query `switchMap` still follows reaches the fields. */
    method OnResponse(k: nat, result: FetchResult<T>)
      requires Valid()
      modifies this
      ensures State() == Respond(old(State()), k, result) && Valid()
    {
      StepKeepsInvariant(State(), Responded(k, result));
      if !completed && pending && k + 1 == |issued| {
        match result {
          case Success(body) =>
            isLoadingResults := false;
            resultsLength := body.count;
            data := Some(body.data);
            pending := false;
          case Failure =>
            isLoadingResults := false;
            data := Some([]);
            pending := false;
            completed := true;
        }
      }
    }
  }
}
