/**
 * The alert handlers: an alert raised by hand, the alerts of a user's devices, and
 * resolving an alert.
 */
module AlertHandlers {
  import opened Wrappers
  import opened Entities
  import opened Sequences
  import opened Store
  import opened ApiResponses
  import opened SensorDataHandlers

  datatype CreateRequest = CreateRequest(deviceId: string, alertType: AlertType, severity: AlertSeverity,
                                         title: string, message: string)

  /** The alert CreateDeviceAlertHandler stores: the request's fields on the device's key, unresolved. */
  function CreatedAlert(id: int, now: Time, deviceKey: int, req: CreateRequest): (a: DeviceAlert)
    ensures a.id == id && a.createdAt == now && a.deviceId == deviceKey && !a.isResolved
    ensures a.alertType == req.alertType && a.severity == req.severity
    ensures a.title == req.title && a.message == req.message
    ensures a.resolvedAt.None? && a.resolvedBy.None?
  {
    NewDeviceAlert(id, now).(deviceId := deviceKey, alertType := req.alertType, severity := req.severity,
      title := req.title, message := req.message, isResolved := false)
  }

  /** CreateDeviceAlertHandler. */
  method Create(db: Database, req: CreateRequest, now: Time) returns (r: ApiResponse<DeviceAlert>)
    requires db.Valid()
    modifies db`alerts, db`nextId
    ensures db.Valid()
    ensures match DeviceIndex(db.devices, req.deviceId)
            case None => r == ErrorResult("Device not found") && db.alerts == old(db.alerts)
            case Some(i) =>
              var a := CreatedAlert(old(db.nextId), now, db.devices[i].id, req);
              db.alerts == old(db.alerts) + [a] && r == SuccessResult(a, None)
  {
    var found := DeviceIndex(db.devices, req.deviceId);
    if found.None? {
      return ErrorResult("Device not found");
    }
    var id := db.NewId();
    var a := CreatedAlert(id, now, db.devices[found.value].id, req);
    db.alerts := db.alerts + [a];
    r := SuccessResult(a, None);
  }

  /** A hand-made alert counts as an open alert of its type, so the sensor rule for that type stays quiet. */
  lemma CreatedAlertSilencesRule(alerts: seq<DeviceAlert>, a: DeviceAlert)
    requires !a.isResolved
    ensures HasOpenAlert(alerts + [a], a.deviceId, a.alertType)
  {
    assert IsOpen((alerts + [a])[|alerts|], a.deviceId, a.alertType);
  }

  /** `a.Device.UserId == userId`, with the device loaded by the alert's key. */
  predicate BelongsTo(devices: seq<Device>, a: DeviceAlert, userKey: int) {
    exists i :: 0 <= i < |devices| && devices[i].id == a.deviceId && devices[i].userId == userKey
  }

  function UserFilter(devices: seq<Device>, userKey: int, includeResolved: bool): DeviceAlert -> bool {
    (a: DeviceAlert) => BelongsTo(devices, a, userKey) && (includeResolved || !a.isResolved)
  }

  /** OrderByDescending(CreatedAt). */
  predicate NewestFirst(a: DeviceAlert, b: DeviceAlert) {
    a.createdAt >= b.createdAt
  }

  /** GetUserAlertsHandler: the alerts of the user's devices, unresolved ones only unless asked otherwise, newest first. */
  function UserAlerts(devices: seq<Device>, alerts: seq<DeviceAlert>, userKey: int, includeResolved: bool): (r: seq<DeviceAlert>)
    ensures multiset(r) == multiset(Filter(alerts, UserFilter(devices, userKey, includeResolved)))
    ensures forall a :: a in r <==> a in alerts && BelongsTo(devices, a, userKey) && (includeResolved || !a.isResolved)
    ensures SortedBy(r, NewestFirst)
  {
    assert TotalPreorder(NewestFirst);
    var p := UserFilter(devices, userKey, includeResolved);
    var r := Query(alerts, p, NewestFirst, |alerts|);
    forall a | a in alerts && p(a) ensures a in r {
      assert a in multiset(Filter(alerts, p));
    }
    r
  }

  /** Asking for resolved alerts too only adds alerts: the unresolved list is contained in the full one. */
  lemma ResolvedOnlyAdds(devices: seq<Device>, alerts: seq<DeviceAlert>, userKey: int)
    ensures forall a :: a in UserAlerts(devices, alerts, userKey, false) ==> a in UserAlerts(devices, alerts, userKey, true)
    ensures forall a :: a in UserAlerts(devices, alerts, userKey, true) && !a.isResolved ==> a in UserAlerts(devices, alerts, userKey, false)
  {
  }

  datatype ResolveRequest = ResolveRequest(alertId: int, userKey: int)

  function AlertIndex(alerts: seq<DeviceAlert>, id: int): (r: Option<nat>)
    ensures r.Some? ==> r.value < |alerts| && alerts[r.value].id == id
    ensures r.None? <==> forall i :: 0 <= i < |alerts| ==> alerts[i].id != id
  {
    FirstIndex(alerts, (a: DeviceAlert) => a.id == id)
  }

  /** The alert after ResolveAlertHandler: resolved now by the user, whatever its state before. */
  function Resolved(a: DeviceAlert, userKey: int, now: Time): (r: DeviceAlert)
    ensures r.isResolved && r.resolvedAt == Some(now) && r.resolvedBy == Some(userKey)
    ensures r.(isResolved := a.isResolved, resolvedAt := a.resolvedAt, resolvedBy := a.resolvedBy) == a
  {
    a.(isResolved := true, resolvedAt := Some(now), resolvedBy := Some(userKey))
  }

  /** ResolvedBy references a user with a restricting foreign key. */
  predicate UserExists(users: seq<User>, userKey: int) {
    exists i :: 0 <= i < |users| && users[i].id == userKey
  }

  const ResolvedMessage := "Alert resolved successfully"

  /**
   * ResolveAlertHandler. There is no guard against resolving twice; a resolver that
   * is not a user makes the save fail and nothing changes.
   */
  method Resolve(db: Database, req: ResolveRequest, now: Time) returns (r: ApiResponse<()>)
    requires db.Valid()
    modifies db`alerts
    ensures db.Valid()
    ensures match AlertIndex(old(db.alerts), req.alertId)
            case None => r == ErrorResult("Alert not found") && db.alerts == old(db.alerts)
            case Some(i) =>
              if UserExists(db.users, req.userKey) then
                db.alerts == old(db.alerts)[i := Resolved(old(db.alerts)[i], req.userKey, now)]
                && r == Done(Some(ResolvedMessage))
              else
                db.alerts == old(db.alerts) && r == ErrorResult(InternalServerError)
  {
    var found := AlertIndex(db.alerts, req.alertId);
    if found.None? {
      return ErrorResult("Alert not found");
    }
    if !UserExists(db.users, req.userKey) {
      return ErrorResult(InternalServerError);
    }
    var i := found.value;
    db.alerts := db.alerts[i := Resolved(db.alerts[i], req.userKey, now)];
    r := Done(Some(ResolvedMessage));
  }

  /**
   * Resolving the one open alert of a type lets the sensor rule for that type fire
   * again on the next reading that calls for it.
   */
  lemma ResolvingReopensRule(alerts: seq<DeviceAlert>, i: nat, userKey: int, now: Time)
    requires i < |alerts| && OneOpen(alerts, alerts[i].deviceId, alerts[i].alertType)
    requires IsOpen(alerts[i], alerts[i].deviceId, alerts[i].alertType)
    ensures !HasOpenAlert(alerts[i := Resolved(alerts[i], userKey, now)], alerts[i].deviceId, alerts[i].alertType)
  {
    var key, t := alerts[i].deviceId, alerts[i].alertType;
    var after := alerts[i := Resolved(alerts[i], userKey, now)];
    forall j | 0 <= j < |after| ensures !IsOpen(after[j], key, t) {
      if j < i {
        assert !IsOpen(alerts[i], key, t) || !IsOpen(alerts[j], key, t);
      } else if j > i {
        assert after[j] == alerts[j];
      }
    }
  }

  /** Resolving twice only moves the resolution time and resolver to the second call's. */
  lemma ResolveTwice(a: DeviceAlert, u1: int, u2: int, t1: Time, t2: Time)
    ensures Resolved(Resolved(a, u1, t1), u2, t2) == Resolved(a, u2, t2)
  {
  }
}
