/**
 * The alert table of the alarm centre page (alerts-center.js): alerts move
 * between the states active, acked and resolved, can be deleted after a
 * confirmation, and are listed through a search/severity filter.
 */
module AlertsCenter {

  import opened Common
  import opened Strings

  datatype Status = Active | Acked | Resolved

  /** An alert; the source's `type` field is `kind` here, and `time` is the rendered timestamp. */
  datatype Alert = Alert(id: int, time: string, device: string, kind: string, severity: string, message: string, status: Status)

  /** The seed table; `t0`, `t1`, `t2` are the rendered clock readings (now, one hour ago, two hours ago). */
  function SeedAlerts(t0: string, t1: string, t2: string): seq<Alert>
  {
    [ Alert(1, t0, "TMŞ-3", "Trip", "High", "Overcurrent", Active),
      Alert(2, t1, "TMŞ-1", "Undervoltage", "Medium", "L2 195V", Acked),
      Alert(3, t2, "INV-1", "Overtemp", "Low", "Cabinet 65°C", Resolved) ]
  }

  lemma SeedIdsDistinct(t0: string, t1: string, t2: string)
    ensures forall i, j :: 0 <= i < j < |SeedAlerts(t0, t1, t2)| ==> SeedAlerts(t0, t1, t2)[i].id != SeedAlerts(t0, t1, t2)[j].id
    ensures forall i :: 0 <= i < |SeedAlerts(t0, t1, t2)| ==> SeedAlerts(t0, t1, t2)[i].id == i + 1
  {
  }

  /** The row buttons: Ack for an active alert, Resolve for an acked one, Delete always. */
  datatype Actions = Actions(ack: bool, resolve: bool, delete: bool)

  function RowActions(a: Alert): (r: Actions)
    ensures r.delete
    ensures r.ack <==> a.status == Active
    ensures r.resolve <==> a.status == Acked
    ensures !(r.ack && r.resolve)
  {
    Actions(a.status == Active, a.status == Acked, true)
  }

  /** The status of the first alert with the id becomes `s`, whatever it was; an unknown id changes nothing. */
  function WithStatus(alerts: seq<Alert>, id: int, s: Status): (r: seq<Alert>)
    ensures |r| == |alerts|
    ensures forall i :: 0 <= i < |alerts| ==> r[i] == alerts[i] || (r[i] == alerts[i].(status := s) && alerts[i].id == id)
    ensures forall i :: 0 <= i < |alerts| && alerts[i].id == id && (forall j :: 0 <= j < i ==> alerts[j].id != id) ==>
      r[i].status == s
    ensures forall i :: 0 <= i < |alerts| && !(alerts[i].id == id && forall j :: 0 <= j < i ==> alerts[j].id != id) ==>
      r[i] == alerts[i]
    ensures (forall i :: 0 <= i < |alerts| ==> alerts[i].id != id) ==> r == alerts
  {
    match IndexWhere(alerts, (a: Alert) => a.id == id)
    case None => alerts
    case Some(i) => alerts[i := alerts[i].(status := s)]
  }

  /** `alerts.filter(a => a.id !== id)`. */
  function WithoutAlert(alerts: seq<Alert>, id: int): (r: seq<Alert>)
    ensures forall i :: 0 <= i < |r| ==> r[i].id != id && r[i] in alerts
    ensures forall i :: 0 <= i < |alerts| && alerts[i].id != id ==> alerts[i] in r
  {
    Filter(alerts, (a: Alert) => a.id != id)
  }

  /** Deletion splits over the table: the survivors keep their relative order. */
  lemma WithoutAlertKeepsOrder(a: seq<Alert>, b: seq<Alert>, id: int)
    ensures WithoutAlert(a + b, id) == WithoutAlert(a, id) + WithoutAlert(b, id)
  {
    FilterAppend(a, b, (x: Alert) => x.id != id);
  }

  /** The search test of `filterAlerts`, for an already lowercased search text. */
  predicate MatchesSearch(a: Alert, search: string)
  {
    search == "" || Contains(Lower(a.device), search) || Contains(Lower(a.message), search)
  }

  /** The severity selection as `filterAlerts` reads it: an empty or absent value means 'All'. */
  function SeverityChoice(box: string): string
  {
    if box == "" then "All" else box
  }

  /** The severity test of `filterAlerts`. */
  predicate MatchesSeverity(a: Alert, severity: string)
  {
    severity == "All" || a.severity == severity
  }

  /**
   * `filterAlerts`: the search box (lowercased; absent means empty) then the
   * severity selection (absent means 'All') narrow the table.
   */
  function FilterAlerts(alerts: seq<Alert>, searchBox: string, severityBox: string): (r: seq<Alert>)
    ensures |r| <= |alerts|
    ensures forall k :: 0 <= k < |r| ==>
      r[k] in alerts && MatchesSearch(r[k], Lower(searchBox)) && MatchesSeverity(r[k], SeverityChoice(severityBox))
  {
    var severity := SeverityChoice(severityBox);
    var search := Lower(searchBox);
    var bySearch := if search != "" then Filter(alerts, (a: Alert) => MatchesSearch(a, search)) else alerts;
    if severity != "All" then Filter(bySearch, (a: Alert) => MatchesSeverity(a, severity)) else bySearch
  }

  /** An alert is listed exactly when it is in the table and passes both tests. */
  lemma FilterAlertsMembership(alerts: seq<Alert>, searchBox: string, severity: string, a: Alert)
    ensures a in FilterAlerts(alerts, searchBox, severity) <==>
      a in alerts && MatchesSearch(a, Lower(searchBox)) && MatchesSeverity(a, SeverityChoice(severity))
  {
    var search := Lower(searchBox);
    var bySearch := if search != "" then Filter(alerts, (x: Alert) => MatchesSearch(x, search)) else alerts;
    if a in alerts && MatchesSearch(a, search) {
      var k :| 0 <= k < |alerts| && alerts[k] == a;
      assert a in bySearch;
    }
    if SeverityChoice(severity) != "All" && a in bySearch && MatchesSeverity(a, SeverityChoice(severity)) {
      var k :| 0 <= k < |bySearch| && bySearch[k] == a;
    }
  }

  /** The listed alerts appear in the table's order: filtering concatenated tables concatenates the results. */
  lemma FilterAlertsKeepsOrder(a: seq<Alert>, b: seq<Alert>, searchBox: string, severity: string)
    ensures FilterAlerts(a + b, searchBox, severity) == FilterAlerts(a, searchBox, severity) + FilterAlerts(b, searchBox, severity)
  {
    var search := Lower(searchBox);
    var p := (x: Alert) => MatchesSearch(x, search);
    var q := (x: Alert) => MatchesSeverity(x, SeverityChoice(severity));
    FilterAppend(a, b, p);
    if search != "" {
      FilterAppend(Filter(a, p), Filter(b, p), q);
    } else {
      FilterAppend(a, b, q);
    }
  }

  class AlertTable {
    var alerts: seq<Alert>

    constructor (t0: string, t1: string, t2: string)
      ensures alerts == SeedAlerts(t0, t1, t2)
    {
      alerts := SeedAlerts(t0, t1, t2);
    }

    /** `ackAlert`: acknowledges the alert whatever its status. */
    method AckAlert(id: int)
      modifies this
      ensures alerts == WithStatus(old(alerts), id, Acked)
    {
      var found := IndexWhere(alerts, (a: Alert) => a.id == id);
      if found.Some? {
        var i := found.value;
        alerts := alerts[i := alerts[i].(status := Acked)];
      }
    }

    /** `resolveAlert`: resolves the alert whatever its status. */
    method ResolveAlert(id: int)
      modifies this
      ensures alerts == WithStatus(old(alerts), id, Resolved)
    {
      var found := IndexWhere(alerts, (a: Alert) => a.id == id);
      if found.Some? {
        var i := found.value;
        alerts := alerts[i := alerts[i].(status := Resolved)];
      }
    }

    /** `deleteAlert`: without confirmation nothing changes. */
    method DeleteAlert(id: int, confirmed: bool)
      modifies this
      ensures alerts == if confirmed then WithoutAlert(old(alerts), id) else old(alerts)
    {
      if !confirmed {
        return;
      }
      alerts := WithoutAlert(alerts, id);
    }

    /** `filterAlerts` lists the filtered table, in table order, and leaves the table alone. */
    method Filtered(searchBox: string, severity: string) returns (shown: seq<Alert>)
      ensures shown == FilterAlerts(alerts, searchBox, severity)
      ensures forall a :: a in shown <==> a in alerts && MatchesSearch(a, Lower(searchBox)) && MatchesSeverity(a, SeverityChoice(severity))
    {
      shown := FilterAlerts(alerts, searchBox, severity);
      forall a ensures a in shown <==> a in alerts && MatchesSearch(a, Lower(searchBox)) && MatchesSeverity(a, SeverityChoice(severity)) {
        FilterAlertsMembership(alerts, searchBox, severity, a);
      }
    }
  }
}
