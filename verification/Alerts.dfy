/** The scheduler's alerts: the reconciliation pass (cmd/platform-scheduler/main.go) firing and
    resolving alerts against the alerts table
    (internal/infrastructure/postgres/audit_repo.go). */
module Alerts {
  import L = ClusterLifecycle

  datatype Option<+T> = None | Some(value: T)

  datatype Title = ClusterState | Drift | AppHealth

  datatype Severity = Warning | Error

  datatype Status = Firing | Resolved

  datatype Alert = Alert(severity: Severity, status: Status, detail: string, firedAt: nat, resolvedAt: Option<nat>)

  /** The unique key of the table: one target and one title. */
  type Key = (nat, Title)

  // ------------------------------------------------------------------ one upsert

  function OnConflict(stored: Alert, excluded: Alert): Alert {
    Alert(excluded.severity, excluded.status, excluded.detail,
          if excluded.status.Firing? && !stored.status.Firing? then excluded.firedAt else stored.firedAt,
          if excluded.status.Resolved? then excluded.resolvedAt else None)
  }

  function Upserted(row: Option<Alert>, alert: Alert): Alert {
    if row.None? then alert else OnConflict(row.value, alert)
  }

  // ------------------------------------------------------------------ one visit to one cluster

  datatype Sync = SyncUnknown | Synced | OutOfSync
  datatype Health = HealthUnknown | Progressing | Healthy | Suspended | Degraded | Missing

  /** What the pass learns from Argo CD: nothing when the cluster has it disabled, when there is
      no such Application yet, or when the call fails. */
  datatype Argo = Disabled | NotFound | Unreachable | Application(sync: Sync, health: Health, revision: string)

  /** When an upsert would happen, and whether it would succeed. */
  datatype Slot = Slot(time: nat, ok: bool)

  datatype Visit = Visit(cluster: nat, state: L.State, argo: Argo, readOk: bool, slots: map<Title, Slot>)

  ghost predicate Complete(v: Visit) {
    forall t: Title :: t in v.slots
  }

  /** Whether the condition behind a title was seen to hold; None when the pass cannot tell. */
  function Condition(v: Visit, t: Title): Option<bool> {
    match t
    case ClusterState => Some(v.state.Degraded? || v.state.Failed?)
    case Drift => if v.argo.Application? then Some(v.argo.sync.OutOfSync?) else None
    case AppHealth => if v.argo.Application? then Some(v.argo.health.Degraded? || v.argo.health.Missing?) else None
  }

  function SeverityOf(t: Title): Severity {
    if t.AppHealth? then Error else Warning
  }

  function Describe(v: Visit, t: Title): string
    requires Condition(v, t) == Some(true)
  {
    match t
    case ClusterState => if v.state.Degraded? then "DEGRADED" else "FAILED"
    case Drift => v.argo.revision
    case AppHealth => if v.argo.health.Degraded? then "Degraded" else "Missing"
  }

  /** What one visit means for one title. */
  datatype Look = Look(condition: Option<bool>, detail: string, readOk: bool, slot: Slot)

  function LookAt(v: Visit, t: Title): Look
    requires Complete(v)
  {
    Look(Condition(v, t), if Condition(v, t) == Some(true) then Describe(v, t) else "", v.readOk, v.slots[t])
  }

  predicate IsFiring(row: Option<Alert>) {
    row.Some? && row.value.status.Firing?
  }

  /** The row of a title after a look at its condition. */
  function NextRow(t: Title, row: Option<Alert>, look: Look): Option<Alert> {
    if look.condition.None? || !look.slot.ok then row
    else if look.condition.value then
      Some(Upserted(row, Alert(SeverityOf(t), Firing, look.detail, look.slot.time, None)))
    else if look.readOk && IsFiring(row) then
      Some(Upserted(row, Alert(SeverityOf(t), Resolved, "", look.slot.time, Some(look.slot.time))))
    else row
  }

  function RowAt(alerts: map<Key, Alert>, key: Key): Option<Alert> {
    if key in alerts then Some(alerts[key]) else None
  }

  ghost predicate Visited(before: map<Key, Alert>, after: map<Key, Alert>, v: Visit)
    requires Complete(v)
  {
    forall key: Key ::
      RowAt(after, key) ==
      if key.0 == v.cluster then NextRow(key.1, RowAt(before, key), LookAt(v, key.1)) else RowAt(before, key)
  }

  /** What one look does to a row, field by field: the condition holds, so the row is FIRING,
      since when it was already; or it does not, and a FIRING row that was read is RESOLVED. */
  ghost predicate Reacts(was: Option<Alert>, now: Option<Alert>, holds: bool, severity: Severity, detail: string,
                         readOk: bool, slot: Slot)
  {
    var firing := was.Some? && was.value.status.Firing?;
    if slot.ok && holds then
      now == Some(Alert(severity, Firing, detail, if firing then was.value.firedAt else slot.time, None))
    else if slot.ok && readOk && firing then
      now == Some(Alert(severity, Resolved, "", was.value.firedAt, Some(slot.time)))
    else now == was
  }

  /** DEGRADED and FAILED clusters, applications out of sync, and degraded or missing applications
      raise an alert each; without an Application the last two are left alone. */
  ghost predicate Follows(v: Visit, t: Title, was: Option<Alert>, now: Option<Alert>)
    requires Complete(v)
  {
    match t
    case ClusterState =>
      Reacts(was, now, v.state in {L.State.Degraded, L.State.Failed}, Warning,
             if v.state == L.State.Degraded then "DEGRADED" else "FAILED", v.readOk, v.slots[t])
    case Drift =>
      if v.argo.Application? then
        Reacts(was, now, v.argo.sync == OutOfSync, Warning, v.argo.revision, v.readOk, v.slots[t])
      else now == was
    case AppHealth =>
      if v.argo.Application? then
        Reacts(was, now, v.argo.health in {Health.Degraded, Health.Missing}, Error,
               if v.argo.health == Health.Degraded then "Degraded" else "Missing", v.readOk, v.slots[t])
      else now == was
  }

  ghost predicate Reconciled(before: map<Key, Alert>, after: map<Key, Alert>, v: Visit)
    requires Complete(v)
  {
    && (forall t: Title :: Follows(v, t, RowAt(before, (v.cluster, t)), RowAt(after, (v.cluster, t))))
    && (forall key: Key :: key.0 != v.cluster ==> RowAt(after, key) == RowAt(before, key))
  }

  lemma {:induction false} VisitReconciles(before: map<Key, Alert>, after: map<Key, Alert>, v: Visit)
    requires Complete(v)
    ensures Visited(before, after, v) <==> Reconciled(before, after, v)
  {
    forall t: Title
      ensures Follows(v, t, RowAt(before, (v.cluster, t)), RowAt(after, (v.cluster, t))) <==>
              RowAt(after, (v.cluster, t)) == NextRow(t, RowAt(before, (v.cluster, t)), LookAt(v, t))
    {
    }
    if Reconciled(before, after, v) {
      forall key: Key | key.0 == v.cluster
        ensures RowAt(after, key) == NextRow(key.1, RowAt(before, key), LookAt(v, key.1))
      {
        assert Follows(v, key.1, RowAt(before, (v.cluster, key.1)), RowAt(after, (v.cluster, key.1)));
        assert key == (key.0, key.1);
      }
    }
  }

  class Reconciler {
    var alerts: map<Key, Alert>

    constructor ()
      ensures alerts == map[]
    {
      alerts := map[];
    }

    method UpsertAlert(key: Key, alert: Alert, ok: bool)
      modifies this
      ensures alerts == if ok then old(alerts)[key := Upserted(RowAt(old(alerts), key), alert)] else old(alerts)
    {
      if ok {
        if key in alerts {
          alerts := alerts[key := OnConflict(alerts[key], alert)];
        } else {
          alerts := alerts[key := alert];
        }
      }
    }

    /** A failed read counts as "nothing firing". */
    method FiringAlertTitles(cluster: nat, ok: bool) returns (firing: set<Title>)
      ensures forall t :: t in firing <==> ok && IsFiring(RowAt(alerts, (cluster, t)))
    {
      if !ok {
        return {};
      }
      firing := set key | key in alerts && key.0 == cluster && alerts[key].status.Firing? :: key.1;
    }

    method RaiseAlert(cluster: nat, t: Title, severity: Severity, status: Status, detail: string, slot: Slot)
      modifies this
      ensures var resolvedAt := if status.Resolved? then Some(slot.time) else None;
              var alert := Alert(severity, status, detail, slot.time, resolvedAt);
              RowAt(alerts, (cluster, t)) ==
              if slot.ok then Some(Upserted(RowAt(old(alerts), (cluster, t)), alert)) else RowAt(old(alerts), (cluster, t))
      ensures forall key :: key != (cluster, t) ==> RowAt(alerts, key) == RowAt(old(alerts), key)
    {
      var alert := Alert(severity, status, detail, slot.time, None);
      if status.Resolved? {
        alert := alert.(resolvedAt := Some(slot.time));
      }
      UpsertAlert((cluster, t), alert, slot.ok);
    }

    method ReconcileCluster(v: Visit)
      requires Complete(v)
      modifies this
      ensures Visited(old(alerts), alerts, v) && Reconciled(old(alerts), alerts, v)
    {
      var firing := FiringAlertTitles(v.cluster, v.readOk);
      if v.state.Degraded? || v.state.Failed? {
        RaiseAlert(v.cluster, ClusterState, Warning, Firing,
                   if v.state.Degraded? then "DEGRADED" else "FAILED", v.slots[ClusterState]);
      } else if ClusterState in firing {
        RaiseAlert(v.cluster, ClusterState, Warning, Resolved, "", v.slots[ClusterState]);
      }
      if v.argo.Disabled? {
        VisitReconciles(old(alerts), alerts, v);
        return;
      }
      ReconcileArgoCD(v, firing);
      VisitReconciles(old(alerts), alerts, v);
    }

    /** The drift and health rows; a visit that learns nothing from Argo CD leaves them. */
    method ReconcileArgoCD(v: Visit, firing: set<Title>)
      requires Complete(v)
      requires forall t :: t in {Drift, AppHealth} ==> (t in firing <==> v.readOk && IsFiring(RowAt(alerts, (v.cluster, t))))
      modifies this
      ensures forall key: Key ::
                RowAt(alerts, key) ==
                if key.0 == v.cluster && !key.1.ClusterState? then NextRow(key.1, RowAt(old(alerts), key), LookAt(v, key.1))
                else RowAt(old(alerts), key)
    {
      if !v.argo.Application? {
        return;
      }
      if v.argo.sync.OutOfSync? {
        RaiseAlert(v.cluster, Drift, Warning, Firing, v.argo.revision, v.slots[Drift]);
      } else if Drift in firing {
        RaiseAlert(v.cluster, Drift, Warning, Resolved, "", v.slots[Drift]);
      }
      if v.argo.health.Degraded? || v.argo.health.Missing? {
        RaiseAlert(v.cluster, AppHealth, Error, Firing,
                   if v.argo.health.Degraded? then "Degraded" else "Missing", v.slots[AppHealth]);
      } else if AppHealth in firing {
        RaiseAlert(v.cluster, AppHealth, Error, Resolved, "", v.slots[AppHealth]);
      }
    }

    /** One pass over the listed clusters. */
    method Run(list: seq<Visit>)
      requires forall v :: v in list ==> Complete(v)
      modifies this
      ensures forall key: Key :: RowAt(alerts, key) == RowAfter(RowAt(old(alerts), key), list, key)
    {
      for i := 0 to |list|
        invariant forall key: Key :: RowAt(alerts, key) == RowAfter(RowAt(old(alerts), key), list[..i], key)
      {
        assert list[..i + 1][..i] == list[..i];
        ReconcileCluster(list[i]);
      }
      assert list[..|list|] == list;
    }
  }

  // ------------------------------------------------------------------ whole histories

  /** The row of a key after a sequence of visits (those of one pass, or of many). */
  function RowAfter(row: Option<Alert>, visits: seq<Visit>, key: Key): Option<Alert>
    requires forall v :: v in visits ==> Complete(v)
  {
    if |visits| == 0 then row
    else
      var v := visits[|visits| - 1];
      var before := RowAfter(row, visits[..|visits| - 1], key);
      if v.cluster == key.0 then NextRow(key.1, before, LookAt(v, key.1)) else before
  }

  /** The looks the visits took at one title of one cluster. */
  function Looks(visits: seq<Visit>, key: Key): seq<Look>
    requires forall v :: v in visits ==> Complete(v)
  {
    if |visits| == 0 then []
    else
      var v := visits[|visits| - 1];
      Looks(visits[..|visits| - 1], key) + if v.cluster == key.0 then [LookAt(v, key.1)] else []
  }

  /** Definite observations: one the pass could make and record. */
  predicate Seen(look: Look) {
    look.condition == Some(true) && look.slot.ok
  }

  predicate Cleared(look: Look) {
    look.condition == Some(false) && look.readOk && look.slot.ok
  }

  /** Look i starts a streak of the condition: no earlier sighting connects to it. */
  ghost predicate Streak(h: seq<Look>, i: nat) {
    && i < |h| && Seen(h[i])
    && forall k :: 0 <= k < i && Seen(h[k]) ==> exists m :: k < m < i && Cleared(h[m])
  }

  /** ... and no later streak exists. */
  ghost predicate LatestStreak(h: seq<Look>, i: nat) {
    && Streak(h, i)
    && forall k, m {:trigger h[k], h[m]} :: i < m < k < |h| && Cleared(h[m]) ==> !Seen(h[k])
  }

  /** Look j is the first clear after look i. */
  ghost predicate FirstClear(h: seq<Look>, i: nat, j: nat) {
    && i < j < |h| && Cleared(h[j])
    && forall k :: i < k < j ==> !Cleared(h[k])
  }

  function RowOf(t: Title, h: seq<Look>): Option<Alert> {
    if |h| == 0 then None else NextRow(t, RowOf(t, h[..|h| - 1]), h[|h| - 1])
  }

  /** What the table should show for a history of looks: nothing if the condition was never
      seen; otherwise FIRING iff nothing cleared it since its latest streak began, dated by
      the start of that streak and, once cleared, by the first clear after it. */
  ghost predicate Shows(t: Title, row: Option<Alert>, h: seq<Look>) {
    && (row.None? <==> forall k :: 0 <= k < |h| ==> !Seen(h[k]))
    && (row.Some? ==> exists i: nat :: LatestStreak(h, i) && Dated(t, row.value, h, i))
  }

  ghost predicate Dated(t: Title, alert: Alert, h: seq<Look>, i: nat)
    requires i < |h|
  {
    && alert.firedAt == h[i].slot.time
    && alert.severity == SeverityOf(t)
    && (alert.status.Firing? <==> forall j :: i < j < |h| ==> !Cleared(h[j]))
    && (alert.status.Firing? ==>
          && alert.resolvedAt == None
          && exists k: nat :: LastSighting(h, k) && alert.detail == h[k].detail)
    && (alert.status.Resolved? ==>
          && alert.detail == ""
          && exists j: nat :: FirstClear(h, i, j) && alert.resolvedAt == Some(h[j].slot.time))
  }

  ghost predicate LastSighting(h: seq<Look>, k: nat) {
    k < |h| && Seen(h[k]) && forall l :: k < l < |h| ==> !Seen(h[l])
  }

  lemma {:induction false} StreakGoesOn(t: Title, g: seq<Look>, look: Look, row: Alert, i: nat)
    requires LatestStreak(g, i) && Dated(t, row, g, i)
    requires !(Seen(look) && row.status.Resolved?)
    ensures var next := NextRow(t, Some(row), look);
            next.Some? && LatestStreak(g + [look], i) && Dated(t, next.value, g + [look], i)
  {
    var h := g + [look];
    assert forall k :: 0 <= k < |g| ==> h[k] == g[k];
    if row.status.Resolved? {
      var j: nat :| FirstClear(g, i, j) && row.resolvedAt == Some(g[j].slot.time);
      assert FirstClear(h, i, j);
    } else if Cleared(look) {
      assert FirstClear(h, i, |g|);
    } else if Seen(look) {
      assert LastSighting(h, |g|);
    } else {
      var k: nat :| LastSighting(g, k) && row.detail == g[k].detail;
      assert LastSighting(h, k);
    }
  }

  lemma {:induction false} ClearedSinceLastSighting(t: Title, g: seq<Look>, row: Alert, k: nat)
    requires Shows(t, Some(row), g) && row.status.Resolved? && k < |g| && Seen(g[k])
    ensures exists m :: k < m < |g| && Cleared(g[m])
  {
    var i: nat :| LatestStreak(g, i) && Dated(t, row, g, i);
    var j: nat :| FirstClear(g, i, j);
    assert k < j;
  }

  lemma {:induction false} StreakBegins(t: Title, g: seq<Look>, look: Look, row: Option<Alert>)
    requires Shows(t, row, g) && Seen(look) && !IsFiring(row)
    ensures var next := NextRow(t, row, look);
            next.Some? && LatestStreak(g + [look], |g|) && Dated(t, next.value, g + [look], |g|)
  {
    var h := g + [look];
    forall k | 0 <= k < |g| && Seen(h[k]) ensures exists m :: k < m < |g| && Cleared(h[m]) {
      ClearedSinceLastSighting(t, g, row.value, k);
      var m :| k < m < |g| && Cleared(g[m]);
      assert Cleared(h[m]);
    }
    assert LastSighting(h, |g|);
  }

  /** For every history of looks, failed reads, failed writes and passes that could not tell
      included, the row is exactly what the history calls for. */
  lemma {:induction false} RowShowsHistory(t: Title, h: seq<Look>)
    ensures Shows(t, RowOf(t, h), h)
  {
    if |h| > 0 {
      var g, look := h[..|h| - 1], h[|h| - 1];
      RowShowsHistory(t, g);
      assert h == g + [look];
      var row := RowOf(t, g);
      if Seen(look) && !IsFiring(row) {
        StreakBegins(t, g, look, row);
        assert Seen(h[|g|]);
      } else if row.Some? {
        var i: nat :| LatestStreak(g, i) && Dated(t, row.value, g, i);
        StreakGoesOn(t, g, look, row.value, i);
        assert Seen(h[i]);
      }
    }
  }

  lemma {:induction false} LaterStreakSupersedes(h: seq<Look>, i: nat, j: nat)
    requires Streak(h, i) && Streak(h, j) && i < j
    ensures !LatestStreak(h, i)
  {
    var m :| i < m < j && Cleared(h[m]);
    assert Seen(h[j]);
  }

  /** The latest streak is unique, so a history allows one set of dates only. */
  lemma {:induction false} LatestStreakUnique(h: seq<Look>, i: nat, j: nat)
    requires LatestStreak(h, i) && LatestStreak(h, j)
    ensures i == j
  {
    if i < j {
      LaterStreakSupersedes(h, i, j);
    } else if j < i {
      LaterStreakSupersedes(h, j, i);
    }
  }

  lemma {:induction false} RowAfterIsRowOf(visits: seq<Visit>, key: Key)
    requires forall v :: v in visits ==> Complete(v)
    ensures RowAfter(None, visits, key) == RowOf(key.1, Looks(visits, key))
  {
    if |visits| > 0 {
      var before := visits[..|visits| - 1];
      RowAfterIsRowOf(before, key);
      var v := visits[|visits| - 1];
      if v.cluster == key.0 {
        assert Looks(visits, key) == Looks(before, key) + [LookAt(v, key.1)];
        assert Looks(visits, key)[..|Looks(visits, key)| - 1] == Looks(before, key);
      } else {
        assert Looks(visits, key) == Looks(before, key);
      }
    }
  }

  lemma {:induction false} RowAfterJoins(row: Option<Alert>, passes: seq<Visit>, last: seq<Visit>, key: Key)
    requires forall v :: v in passes + last ==> Complete(v)
    ensures (forall v :: v in passes ==> Complete(v)) && forall v :: v in last ==> Complete(v)
    ensures RowAfter(row, passes + last, key) == RowAfter(RowAfter(row, passes, key), last, key)
  {
    assert forall v :: v in passes || v in last ==> v in passes + last;
    if |last| == 0 {
      assert passes + last == passes;
    } else {
      var all, rest := passes + last, last[..|last| - 1];
      assert all[..|all| - 1] == passes + rest;
      assert forall v :: v in passes + rest ==> v in all;
      RowAfterJoins(row, passes, rest, key);
    }
  }

  /** The alerts table equals the observation history: after any passes over any clusters,
      starting from an empty table, the row of every title of every cluster is the one its own
      looks call for, whatever was observed about other titles and other clusters. */
  lemma {:induction false} TableShowsHistory(visits: seq<Visit>, key: Key)
    requires forall v :: v in visits ==> Complete(v)
    ensures Shows(key.1, RowAfter(None, visits, key), Looks(visits, key))
  {
    RowAfterIsRowOf(visits, key);
    RowShowsHistory(key.1, Looks(visits, key));
  }
}
