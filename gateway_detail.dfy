/**
 * The gateway detail view (`GatewayDetailComponent`).
 *
 * When the gateway arrives, the component stores it, decides whether the
 * user may edit it, sorts its statistics newest-first for the table,
 * builds the edit drop-down, and folds the statistics, oldest-first, into
 * the series of two charts (packets received, packets sent) that share
 * one label sequence.
 *
 * Timestamps are integers; `formatDate` is a function parameter about
 * which nothing is assumed.
 */
module GatewayDetail {
  import opened Common

  datatype Location = Location(longitude: real, latitude: real)

  datatype Gateway = Gateway(
    id: string,
    name: string,
    location: Location,
    internalOrganizationId: int,
    internalOrganizationName: string,
    canEdit: bool)

  datatype GatewayStats = GatewayStats(
    timestamp: int,
    rxPacketsReceived: int,
    txPacketsEmitted: int,
    txPacketsReceived: int)

  datatype GatewayResponse = GatewayResponse(gateway: Gateway, stats: seq<GatewayStats>)

  datatype MarkerInfo = MarkerInfo(name: string, active: bool, id: string, internalOrganizationName: string)

  /** What the map widget receives. */
  datatype Coordinates = Coordinates(
    longitude: real,
    latitude: real,
    draggable: bool,
    editEnabled: bool,
    useGeolocation: bool,
    markerInfo: MarkerInfo)

  datatype DropdownButton = DropdownButton(labelText: string, editRouterLink: string, isErasable: bool)

  /** A chart's data: its datasets' values and the labels of the x axis. */
  datatype ChartData = ChartData(datasets: seq<seq<int>>, labels: seq<string>)

  /** The accumulator of the statistics fold: two value series and their labels. */
  datatype Series = Series(received: seq<int>, sent: seq<int>, labels: seq<string>)

  /** The translation key the drop-down shows until its translation arrives. */
  const ShowOptionsKey := "LORA-GATEWAY-TABLE-ROW.SHOW-OPTIONS"

  /** The relative route of the edit page, before the gateway id. */
  const EditRoutePrefix := "../../gateway-edit/"

  /**
   * `getCoordinates`: the map marker for a gateway; `active` is the gateway
   * service's verdict on it. The marker is fixed: it cannot be dragged or
   * edited and does not follow the browser's position.
   */
  function GetCoordinates(g: Gateway, active: bool): (c: Coordinates)
    ensures c.longitude == g.location.longitude && c.latitude == g.location.latitude
    ensures !c.draggable && !c.editEnabled && !c.useGeolocation
    ensures c.markerInfo.name == g.name && c.markerInfo.id == g.id && c.markerInfo.active == active
    ensures c.markerInfo.internalOrganizationName == g.internalOrganizationName
  {
    Coordinates(g.location.longitude, g.location.latitude, false, false, false,
                MarkerInfo(g.name, active, g.id, g.internalOrganizationName))
  }

  /** The gateway id an edit link leads to, if it is an edit link at all. */
  function EditTarget(link: string): Option<string>
  {
    if EditRoutePrefix <= link then Some(link[|EditRoutePrefix|..]) else None
  }

  /**
   * `setDropdownButton`: a button only for a user who may edit, showing the
   * untranslated label, offering deletion, and linking to the edit page of
   * exactly this gateway.
   */
  function DropdownFor(canEdit: bool, id: string): (b: Option<DropdownButton>)
    ensures b.Some? <==> canEdit
    ensures b.Some? ==> b.value.labelText == ShowOptionsKey && b.value.isErasable
    ensures b.Some? ==> EditTarget(b.value.editRouterLink) == Some(id)
  {
    if canEdit then
      var link := EditRoutePrefix + id;
      assert link[..|EditRoutePrefix|] == EditRoutePrefix && link[|EditRoutePrefix|..] == id;
      Some(DropdownButton(ShowOptionsKey, link, true))
    else None
  }

  /** How a JavaScript string concatenation renders the route's `id` parameter. */
  function RouteIdText(id: Option<string>): string
  {
    match id
    case Some(text) => text
    case None => "null"
  }

  /** Newest first: timestamps never increase along the sequence. */
  ghost predicate NewestFirst(s: seq<GatewayStats>)
  {
    forall i, j :: 0 <= i < j < |s| ==> s[i].timestamp >= s[j].timestamp
  }

  /** Oldest first: timestamps never decrease along the sequence. */
  ghost predicate OldestFirst(s: seq<GatewayStats>)
  {
    forall i, j :: 0 <= i < j < |s| ==> s[i].timestamp <= s[j].timestamp
  }

  /**
   * Inserts x into a newest-first sequence, before every entry that is not
   * newer than it: x came earlier in the input, so ties keep input order.
   */
  function Insert(x: GatewayStats, t: seq<GatewayStats>): (r: seq<GatewayStats>)
    ensures |r| == |t| + 1
  {
    if t == [] || x.timestamp >= t[0].timestamp then [x] + t else [t[0]] + Insert(x, t[1..])
  }

  /** Insertion adds exactly x to the entries. */
  lemma {:induction false} InsertPermutes(x: GatewayStats, t: seq<GatewayStats>)
    ensures multiset(Insert(x, t)) == multiset(t) + multiset{x}
  {
    if t != [] && x.timestamp < t[0].timestamp {
      InsertPermutes(x, t[1..]);
      assert t == [t[0]] + t[1..];
    }
  }

  /** Inserting an entry no newer than a bound into entries no newer than it stays below it. */
  lemma {:induction false} InsertBounded(x: GatewayStats, t: seq<GatewayStats>, bound: int)
    requires x.timestamp <= bound
    requires forall k :: 0 <= k < |t| ==> t[k].timestamp <= bound
    ensures forall k :: 0 <= k < |Insert(x, t)| ==> Insert(x, t)[k].timestamp <= bound
  {
    if t != [] && x.timestamp < t[0].timestamp {
      InsertBounded(x, t[1..], bound);
    }
  }

  /** Inserting into a newest-first sequence keeps it newest-first. */
  lemma {:induction false} InsertKeepsNewestFirst(x: GatewayStats, t: seq<GatewayStats>)
    requires NewestFirst(t)
    ensures NewestFirst(Insert(x, t))
  {
    if t != [] && x.timestamp < t[0].timestamp {
      var rest := Insert(x, t[1..]);
      InsertKeepsNewestFirst(x, t[1..]);
      InsertBounded(x, t[1..], t[0].timestamp);
      var r := [t[0]] + rest;
      assert r == Insert(x, t);
      forall i, j | 0 <= i < j < |r|
        ensures r[i].timestamp >= r[j].timestamp
      {
        assert r[j] == rest[j - 1];
        if i > 0 {
          assert r[i] == rest[i - 1];
        }
      }
    }
  }

  /**
   * The `sort` of the statistics by `b.timestamp - a.timestamp`: an
   * insertion sort that puts the newest first and keeps the input order of
   * equal timestamps, as the stable `Array.prototype.sort` does.
   */
  function SortNewestFirst(s: seq<GatewayStats>): (r: seq<GatewayStats>)
    ensures |r| == |s|
  {
    if s == [] then [] else Insert(s[0], SortNewestFirst(s[1..]))
  }

  /** The sorted statistics are a permutation of the input, newest first. */
  lemma {:induction false} SortNewestFirstCorrect(s: seq<GatewayStats>)
    ensures multiset(SortNewestFirst(s)) == multiset(s)
    ensures NewestFirst(SortNewestFirst(s))
  {
    if s != [] {
      SortNewestFirstCorrect(s[1..]);
      InsertPermutes(s[0], SortNewestFirst(s[1..]));
      InsertKeepsNewestFirst(s[0], SortNewestFirst(s[1..]));
      assert s == [s[0]] + s[1..];
    }
  }

  /** `slice().reverse()`: a reversed copy, the last statistic first. */
  function Reversed(s: seq<GatewayStats>): (r: seq<GatewayStats>)
    ensures |r| == |s|
    ensures s != [] ==> r[0] == s[|s| - 1]
  {
    if s == [] then [] else [s[|s| - 1]] + Reversed(s[..|s| - 1])
  }

  /** Position k of the reversed copy holds the statistic k places before the end. */
  lemma {:induction false} ReversedAt(s: seq<GatewayStats>, k: nat)
    requires k < |s|
    ensures Reversed(s)[k] == s[|s| - 1 - k]
    decreases |s|
  {
    if k > 0 {
      var front := s[..|s| - 1];
      ReversedAt(front, k - 1);
      assert Reversed(s)[k] == Reversed(front)[k - 1];
    }
  }

  /** The reduce callback: append one entry to each series. */
  function Push(acc: Series, d: GatewayStats, format: int -> string): (r: Series)
    ensures |r.received| == |acc.received| + 1 && |r.sent| == |acc.sent| + 1 && |r.labels| == |acc.labels| + 1
  {
    Series(acc.received + [d.rxPacketsReceived], acc.sent + [d.txPacketsEmitted], acc.labels + [format(d.timestamp)])
  }

  /** The reduce itself, left to right. */
  function Fold(acc: Series, s: seq<GatewayStats>, format: int -> string): (r: Series)
    ensures |r.received| == |acc.received| + |s| && |r.sent| == |acc.sent| + |s| && |r.labels| == |acc.labels| + |s|
    decreases |s|
  {
    if s == [] then acc else Fold(Push(acc, s[0], format), s[1..], format)
  }

  /** `buildGraphs`' reduce over a reversed copy of the statistics. */
  function BuildSeries(stats: seq<GatewayStats>, format: int -> string): (r: Series)
    ensures |r.received| == |stats| && |r.sent| == |stats| && |r.labels| == |stats|
  {
    Fold(Series([], [], []), Reversed(stats), format)
  }

  /** The fold appends one entry per element, in order, to each series. */
  lemma {:induction false} FoldAppends(acc: Series, s: seq<GatewayStats>, format: int -> string)
    ensures var r := Fold(acc, s, format);
      && |r.received| == |acc.received| + |s|
      && |r.sent| == |acc.sent| + |s|
      && |r.labels| == |acc.labels| + |s|
      && r.received[..|acc.received|] == acc.received
      && r.sent[..|acc.sent|] == acc.sent
      && r.labels[..|acc.labels|] == acc.labels
      && (forall j :: 0 <= j < |s| ==> r.received[|acc.received| + j] == s[j].rxPacketsReceived)
      && (forall j :: 0 <= j < |s| ==> r.sent[|acc.sent| + j] == s[j].txPacketsEmitted)
      && (forall j :: 0 <= j < |s| ==> r.labels[|acc.labels| + j] == format(s[j].timestamp))
    decreases |s|
  {
    if s != [] {
      var next := Push(acc, s[0], format);
      FoldAppends(next, s[1..], format);
      var r := Fold(acc, s, format);
      assert r == Fold(next, s[1..], format);
      assert r.received[..|next.received|][..|acc.received|] == r.received[..|acc.received|];
      assert r.sent[..|next.sent|][..|acc.sent|] == r.sent[..|acc.sent|];
      assert r.labels[..|next.labels|][..|acc.labels|] == r.labels[..|acc.labels|];
      forall j | 0 <= j < |s|
        ensures r.received[|acc.received| + j] == s[j].rxPacketsReceived
        ensures r.sent[|acc.sent| + j] == s[j].txPacketsEmitted
        ensures r.labels[|acc.labels| + j] == format(s[j].timestamp)
      {
        if j == 0 {
          assert r.received[..|next.received|][|acc.received|] == s[0].rxPacketsReceived;
          assert r.sent[..|next.sent|][|acc.sent|] == s[0].txPacketsEmitted;
          assert r.labels[..|next.labels|][|acc.labels|] == format(s[0].timestamp);
        } else {
          assert s[1..][j - 1] == s[j];
        }
      }
    }
  }

  /**
   * The three series have one entry per statistic, and position i comes
   * from the statistic n-1-i: the charts run in the reverse of the table's
   * order, received packets, sent packets and formatted timestamps alike.
   */
  lemma SeriesRunReversed(stats: seq<GatewayStats>, format: int -> string)
    ensures var g := BuildSeries(stats, format);
      && |g.received| == |stats| && |g.sent| == |stats| && |g.labels| == |stats|
      && forall i :: 0 <= i < |stats| ==>
        && g.received[i] == stats[|stats| - 1 - i].rxPacketsReceived
        && g.sent[i] == stats[|stats| - 1 - i].txPacketsEmitted
        && g.labels[i] == format(stats[|stats| - 1 - i].timestamp)
  {
    var rev := Reversed(stats);
    var g := BuildSeries(stats, format);
    FoldAppends(Series([], [], []), rev, format);
    forall i | 0 <= i < |stats|
      ensures g.received[i] == stats[|stats| - 1 - i].rxPacketsReceived
      ensures g.sent[i] == stats[|stats| - 1 - i].txPacketsEmitted
      ensures g.labels[i] == format(stats[|stats| - 1 - i].timestamp)
    {
      ReversedAt(stats, i);
      assert g.received[0 + i] == rev[i].rxPacketsReceived;
      assert g.sent[0 + i] == rev[i].txPacketsEmitted;
      assert g.labels[0 + i] == format(rev[i].timestamp);
    }
  }

  /** Reversing a newest-first sequence gives an oldest-first one. */
  lemma ReversedNewestFirstIsOldestFirst(s: seq<GatewayStats>)
    requires NewestFirst(s)
    ensures OldestFirst(Reversed(s)) && multiset(Reversed(s)) == multiset(s)
  {
    var r := Reversed(s);
    forall i, j | 0 <= i < j < |r|
      ensures r[i].timestamp <= r[j].timestamp
    {
      ReversedAt(s, i);
      ReversedAt(s, j);
    }
    ReversedKeepsElements(s);
  }

  /** The reversed copy holds exactly the statistics it was made from. */
  lemma {:induction false} ReversedKeepsElements(s: seq<GatewayStats>)
    ensures multiset(Reversed(s)) == multiset(s)
  {
    if s != [] {
      var front := s[..|s| - 1];
      ReversedKeepsElements(front);
      assert s == front + [s[|s| - 1]];
    }
  }

  /**
   * The component. Its fields are assigned in place by the lifecycle hooks
   * and by the callback that receives the gateway.
   */
  class GatewayDetailComponent {
    /** The route's `id` parameter. */
    var id: Option<string>
    var gateway: Option<Gateway>
    var canEdit: bool
    var gatewayStats: seq<GatewayStats>
    /** The rows of the statistics table's data source. */
    var tableData: seq<GatewayStats>
    var resultLength: nat
    var isLoadingResults: bool
    var dropdownButton: Option<DropdownButton>
    var receivedGraphData: ChartData
    var sentGraphData: ChartData
    /** The gateway ids requested from the gateway service, oldest first. */
    var requested: seq<string>
    /** How many times the status panel has been told to show. */
    var statusSignals: nat

    /** Construction followed by `ngOnInit`, which reads the route's `id`. */
    constructor (routeId: Option<string>)
      ensures id == routeId && gateway.None? && !canEdit && gatewayStats == [] && tableData == []
      ensures resultLength == 0 && isLoadingResults && dropdownButton.None?
      ensures receivedGraphData == ChartData([], []) && sentGraphData == ChartData([], [])
      ensures requested == [] && statusSignals == 0
    {
      id := routeId;
      gateway := None;
      canEdit := false;
      // `undefined` until the gateway arrives; every reader runs after the
      // subscriber has assigned it, so the empty sequence stands for it.
      gatewayStats := [];
      tableData := [];
      resultLength := 0;
      isLoadingResults := true;
      dropdownButton := None;
      receivedGraphData := ChartData([], []);
      sentGraphData := ChartData([], []);
      requested := [];
      statusSignals := 0;
    }

    /** `ngAfterViewInit`: request the gateway when the route names one. */
    method NgAfterViewInit()
      modifies this`requested
      ensures requested == if id.Some? && id.value != "" then old(requested) + [id.value] else old(requested)
    {
      if id.Some? && id.value != "" {
        BindGateway(id.value);
      }
    }

    /** `bindGateway`: ask the gateway service for the gateway; `OnGateway` receives it. */
    method BindGateway(gatewayId: string)
      modifies this`requested
      ensures requested == old(requested) + [gatewayId]
    {
      requested := requested + [gatewayId];
    }

    /**
     * The subscriber of `bindGateway`'s request. `writeAccess` is the access
     * service's gateway-write verdict per organization id; `format` renders
     * a timestamp as a chart label.
     */
    method OnGateway(result: GatewayResponse, writeAccess: int -> bool, format: int -> string)
      modifies this
      ensures canEdit == writeAccess(result.gateway.internalOrganizationId)
      ensures gateway == Some(result.gateway.(canEdit := canEdit))
      ensures gatewayStats == SortNewestFirst(result.stats) && tableData == gatewayStats
      ensures NewestFirst(gatewayStats) && multiset(gatewayStats) == multiset(result.stats)
      ensures resultLength == |result.stats| && !isLoadingResults
      ensures dropdownButton == DropdownFor(canEdit, RouteIdText(id))
      ensures canEdit && id.Some? ==> dropdownButton.Some? && EditTarget(dropdownButton.value.editRouterLink) == Some(id.value)
      ensures var g := BuildSeries(gatewayStats, format);
        receivedGraphData == ChartData([g.received], g.labels) && sentGraphData == ChartData([g.sent], g.labels)
      ensures id == old(id) && requested == old(requested) && statusSignals == old(statusSignals) + 1
    {
      var mayEdit := writeAccess(result.gateway.internalOrganizationId);
      SortNewestFirstCorrect(result.stats);
      StoreGateway(result, mayEdit);
      SetDropdownButton();
      isLoadingResults := false;
      BuildGraphs(format);
      statusSignals := statusSignals + 1;
    }

    /** The assignments of the subscriber up to the drop-down: gateway, permission, sorted statistics. */
    method StoreGateway(result: GatewayResponse, mayEdit: bool)
      modifies this`canEdit, this`gateway, this`gatewayStats, this`tableData, this`resultLength
      ensures canEdit == mayEdit && gateway == Some(result.gateway.(canEdit := mayEdit))
      ensures gatewayStats == SortNewestFirst(result.stats) && tableData == gatewayStats
      ensures resultLength == |result.stats|
    {
      canEdit := mayEdit;
      gateway := Some(result.gateway.(canEdit := canEdit));
      gatewayStats := SortNewestFirst(result.stats);
      tableData := gatewayStats;
      resultLength := |gatewayStats|;
    }

    /** `setDropdownButton`: the edit drop-down for the current permission and route id. */
    method SetDropdownButton()
      modifies this`dropdownButton
      ensures dropdownButton == DropdownFor(canEdit, RouteIdText(id))
      ensures dropdownButton.Some? <==> canEdit
      ensures canEdit && id.Some? ==> EditTarget(dropdownButton.value.editRouterLink) == Some(id.value)
    {
      if canEdit {
        dropdownButton := Some(DropdownButton(ShowOptionsKey, EditRoutePrefix + RouteIdText(id), true));
      } else {
        dropdownButton := None;
      }
    }

    /**
     * `buildGraphs`: both charts from one fold over a reversed copy; the
     * statistics themselves are left in place, and the two charts share
     * their labels.
     */
    method BuildGraphs(format: int -> string)
      modifies this`receivedGraphData, this`sentGraphData
      ensures var g := BuildSeries(gatewayStats, format);
        receivedGraphData == ChartData([g.received], g.labels) && sentGraphData == ChartData([g.sent], g.labels)
      ensures receivedGraphData.labels == sentGraphData.labels
      ensures |receivedGraphData.labels| == |gatewayStats|
    {
      var g := BuildSeries(gatewayStats, format);
      SeriesRunReversed(gatewayStats, format);
      receivedGraphData := ChartData([g.received], g.labels);
      sentGraphData := ChartData([g.sent], g.labels);
    }
  }
}
