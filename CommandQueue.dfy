/**
 * DeviceCommandsService: the queue of commands waiting for a device. Commands are
 * created Pending, handed out by a poll that marks them Sent, acknowledged as
 * Completed or Failed, and expired by a periodic sweep.
 */
module CommandQueue {
  import opened Wrappers
  import opened Entities
  import opened Sequences
  import opened Store

  /** GetExpirationTime: how long a command of each type may wait to be delivered. */
  function ExpirationTime(commandType: CommandType, now: Time): (e: Time)
    ensures commandType == EmergencyStop <==> e == now + 2 * Minute
    ensures commandType == ManualWatering <==> e == now + 5 * Minute
    ensures commandType == UpdateConfiguration <==> e == now + 30 * Minute
    ensures commandType !in {EmergencyStop, ManualWatering, UpdateConfiguration} <==> e == now + 10 * Minute
    ensures now < e <= now + 30 * Minute
  {
    match commandType
    case EmergencyStop => now + 2 * Minute
    case ManualWatering => now + 5 * Minute
    case UpdateConfiguration => now + 30 * Minute
    case _ => now + 10 * Minute
  }

  /** CreateCommandAsync: one Pending command is appended; nothing else changes. */
  method CreateCommand(db: Database, deviceId: int, commandType: CommandType, parameters: string,
                       priority: int, now: Time)
    returns (c: DeviceCommand)
    requires db.Valid()
    modifies db`commands, db`nextId
    ensures db.Valid()
    ensures db.commands == old(db.commands) + [c]
    ensures c.id == old(db.nextId) && db.nextId == old(db.nextId) + 1
    ensures c.deviceId == deviceId && c.commandType == commandType && c.parameters == parameters
    ensures c.status == Pending && c.priority == priority && c.createdAt == now
    ensures c.expiresAt == ExpirationTime(commandType, now)
    ensures c.executedAt.None? && c.acknowledgedAt.None? && c.executionResult.None? && c.errorMessage.None?
  {
    var id := db.NewId();
    c := NewDeviceCommand(id, now).(deviceId := deviceId, commandType := commandType,
      parameters := parameters, status := Pending, priority := priority,
      expiresAt := ExpirationTime(commandType, now));
    db.commands := db.commands + [c];
  }

  /** A command row the poll of device `deviceId` may hand out at `now`. */
  predicate Pollable(devices: seq<Device>, deviceId: string, now: Time, row: (nat, DeviceCommand)) {
    row.1.deviceId in KeysOf(devices, deviceId) && row.1.status == Pending && row.1.expiresAt > now
  }

  function PollablePredicate(devices: seq<Device>, deviceId: string, now: Time): ((nat, DeviceCommand)) -> bool {
    (row: (nat, DeviceCommand)) => Pollable(devices, deviceId, now, row)
  }

  /** OrderBy(Priority).ThenBy(CreatedAt), as written: the smallest priority number first. */
  predicate PollOrder(a: (nat, DeviceCommand), b: (nat, DeviceCommand)) {
    a.1.priority < b.1.priority || (a.1.priority == b.1.priority && a.1.createdAt <= b.1.createdAt)
  }

  lemma PollOrderIsTotal()
    ensures TotalPreorder(PollOrder)
  {
  }

  /** The rows a poll selects: pollable, in poll order, at most 10 of them. */
  function PollSelection(commands: seq<DeviceCommand>, devices: seq<Device>, deviceId: string, now: Time)
    : (sel: seq<(nat, DeviceCommand)>)
    ensures var m := |Filter(Indexed(commands), PollablePredicate(devices, deviceId, now))|;
            |sel| == if m <= 10 then m else 10
    ensures multiset(sel) <= multiset(Filter(Indexed(commands), PollablePredicate(devices, deviceId, now)))
    ensures forall k :: 0 <= k < |sel| ==>
      sel[k].0 < |commands| && commands[sel[k].0] == sel[k].1 && Pollable(devices, deviceId, now, sel[k])
    ensures SortedBy(sel, PollOrder)
    ensures |Filter(Indexed(commands), PollablePredicate(devices, deviceId, now))| <= 10 ==>
      forall i :: 0 <= i < |commands| && Pollable(devices, deviceId, now, (i, commands[i])) ==> (i, commands[i]) in sel
    ensures forall i :: 0 <= i < |commands| && Pollable(devices, deviceId, now, (i, commands[i])) && (i, commands[i]) !in sel ==>
      forall k :: 0 <= k < |sel| ==> PollOrder(sel[k], (i, commands[i]))
  {
    PollOrderIsTotal();
    var sel := Query(Indexed(commands), PollablePredicate(devices, deviceId, now), PollOrder, 10);
    PollSelectionRows(commands, devices, deviceId, now, sel);
    SelectionComplete(commands, devices, deviceId, now, PollOrder, sel);
    sel
  }

  lemma PollSelectionRows(commands: seq<DeviceCommand>, devices: seq<Device>, deviceId: string, now: Time,
                          sel: seq<(nat, DeviceCommand)>)
    requires forall k :: 0 <= k < |sel| ==> sel[k] in Indexed(commands)
    ensures forall k :: 0 <= k < |sel| ==> sel[k].0 < |commands| && commands[sel[k].0] == sel[k].1
  {
    var rows := Indexed(commands);
    forall k | 0 <= k < |sel| ensures sel[k].0 < |commands| && commands[sel[k].0] == sel[k].1 {
      var j :| 0 <= j < |rows| && rows[j] == sel[k];
    }
  }

  /** A selection of pollable rows under any order is complete up to its limit. */
  lemma SelectionComplete(commands: seq<DeviceCommand>, devices: seq<Device>, deviceId: string, now: Time,
                          le: ((nat, DeviceCommand), (nat, DeviceCommand)) -> bool, sel: seq<(nat, DeviceCommand)>)
    requires TotalPreorder(le)
    requires sel == Query(Indexed(commands), PollablePredicate(devices, deviceId, now), le, 10)
    ensures |Filter(Indexed(commands), PollablePredicate(devices, deviceId, now))| <= 10 ==>
      forall i :: 0 <= i < |commands| && Pollable(devices, deviceId, now, (i, commands[i])) ==> (i, commands[i]) in sel
    ensures forall i :: 0 <= i < |commands| && Pollable(devices, deviceId, now, (i, commands[i])) && (i, commands[i]) !in sel ==>
      forall k :: 0 <= k < |sel| ==> le(sel[k], (i, commands[i]))
  {
    var rows := Indexed(commands);
    var p := PollablePredicate(devices, deviceId, now);
    forall i | 0 <= i < |commands| && Pollable(devices, deviceId, now, (i, commands[i]))
      ensures (i, commands[i]) in rows && p((i, commands[i]))
    {
      assert rows[i] == (i, commands[i]);
    }
    if |Filter(rows, p)| <= 10 {
      QueryKeepsAll(rows, p, le, 10);
    }
  }

  /**
   * As written, the poll hands out priority 1 (documented Low) before priority 3
   * (documented High, and what manual watering uses): of two pending commands
   * that both fit in one poll, the Low one comes first.
   */
  lemma PollServesLowPriorityFirst(commands: seq<DeviceCommand>, devices: seq<Device>, deviceId: string,
                                   now: Time, high: nat, low: nat)
    requires high < |commands| && low < |commands|
    requires Pollable(devices, deviceId, now, (high, commands[high])) && commands[high].priority == 3
    requires Pollable(devices, deviceId, now, (low, commands[low])) && commands[low].priority == 1
    requires |Filter(Indexed(commands), PollablePredicate(devices, deviceId, now))| <= 10
    ensures var sel := PollSelection(commands, devices, deviceId, now);
            exists a, b :: 0 <= a < b < |sel| && sel[a].0 == low && sel[b].0 == high
  {
    var sel := PollSelection(commands, devices, deviceId, now);
    var a :| 0 <= a < |sel| && sel[a] == (low, commands[low]);
    var b :| 0 <= b < |sel| && sel[b] == (high, commands[high]);
    SortedAfter(sel, PollOrder, a, b);
  }

  /** The evidently intended order: the highest priority number (4 = Critical) first, then oldest first. */
  predicate UrgentOrder(a: (nat, DeviceCommand), b: (nat, DeviceCommand)) {
    a.1.priority > b.1.priority || (a.1.priority == b.1.priority && a.1.createdAt <= b.1.createdAt)
  }

  lemma UrgentOrderIsTotal()
    ensures TotalPreorder(UrgentOrder)
  {
  }

  /** The poll selection under the intended order. */
  function UrgentSelection(commands: seq<DeviceCommand>, devices: seq<Device>, deviceId: string, now: Time)
    : (sel: seq<(nat, DeviceCommand)>)
    ensures var m := |Filter(Indexed(commands), PollablePredicate(devices, deviceId, now))|;
            |sel| == if m <= 10 then m else 10
    ensures multiset(sel) <= multiset(Filter(Indexed(commands), PollablePredicate(devices, deviceId, now)))
    ensures forall k :: 0 <= k < |sel| ==>
      sel[k].0 < |commands| && commands[sel[k].0] == sel[k].1 && Pollable(devices, deviceId, now, sel[k])
    ensures SortedBy(sel, UrgentOrder)
    ensures |Filter(Indexed(commands), PollablePredicate(devices, deviceId, now))| <= 10 ==>
      forall i :: 0 <= i < |commands| && Pollable(devices, deviceId, now, (i, commands[i])) ==> (i, commands[i]) in sel
    ensures forall i :: 0 <= i < |commands| && Pollable(devices, deviceId, now, (i, commands[i])) && (i, commands[i]) !in sel ==>
      forall k :: 0 <= k < |sel| ==> UrgentOrder(sel[k], (i, commands[i]))
  {
    UrgentOrderIsTotal();
    var sel := Query(Indexed(commands), PollablePredicate(devices, deviceId, now), UrgentOrder, 10);
    PollSelectionRows(commands, devices, deviceId, now, sel);
    SelectionComplete(commands, devices, deviceId, now, UrgentOrder, sel);
    sel
  }

  /** Under the intended order a High command is handed out before a Low one, never left behind for it. */
  lemma UrgentSelectionServesHighFirst(commands: seq<DeviceCommand>, devices: seq<Device>, deviceId: string,
                                       now: Time, high: nat, low: nat)
    requires high < |commands| && low < |commands|
    requires Pollable(devices, deviceId, now, (high, commands[high])) && commands[high].priority == 3
    requires Pollable(devices, deviceId, now, (low, commands[low])) && commands[low].priority == 1
    ensures var sel := UrgentSelection(commands, devices, deviceId, now);
            (low, commands[low]) in sel ==> exists a, b :: 0 <= a < b < |sel| && sel[a].0 == high && sel[b].0 == low
  {
    var sel := UrgentSelection(commands, devices, deviceId, now);
    if (low, commands[low]) in sel {
      var b :| 0 <= b < |sel| && sel[b] == (low, commands[low]);
      assert (high, commands[high]) in sel;
      var a :| 0 <= a < |sel| && sel[a] == (high, commands[high]);
      SortedAfter(sel, UrgentOrder, a, b);
    }
  }

  /** The row numbers a selection names. */
  function RowSet(rows: seq<(nat, DeviceCommand)>): set<nat> {
    set k | 0 <= k < |rows| :: rows[k].0
  }

  /** The table with the status of the named rows set to `status`. */
  function SetStatus(commands: seq<DeviceCommand>, rows: seq<(nat, DeviceCommand)>, status: CommandStatus)
    : (r: seq<DeviceCommand>)
    ensures |r| == |commands|
    ensures forall i :: 0 <= i < |commands| ==>
      r[i] == if i in RowSet(rows) then commands[i].(status := status) else commands[i]
  {
    seq(|commands|, i requires 0 <= i < |commands| =>
      if i in RowSet(rows) then commands[i].(status := status) else commands[i])
  }

  /** The foreach loop of the poll and of the sweep: set `status` on each named row in turn. */
  method MarkRows(db: Database, rows: seq<(nat, DeviceCommand)>, status: CommandStatus)
    requires forall k :: 0 <= k < |rows| ==> rows[k].0 < |db.commands|
    modifies db`commands
    ensures db.commands == SetStatus(old(db.commands), rows, status)
  {
    var k := 0;
    while k < |rows|
      invariant 0 <= k <= |rows|
      invariant db.commands == SetStatus(old(db.commands), rows[..k], status)
    {
      var i := rows[k].0;
      assert RowSet(rows[..k + 1]) == RowSet(rows[..k]) + {i} by {
        assert rows[..k + 1] == rows[..k] + [rows[k]];
      }
      db.commands := db.commands[i := db.commands[i].(status := status)];
      k := k + 1;
    }
    assert rows[..k] == rows;
  }

  /** The commands a poll returns: the selected ones, now Sent. */
  function Delivered(sel: seq<(nat, DeviceCommand)>): (r: seq<DeviceCommand>)
    ensures |r| == |sel|
    ensures forall k :: 0 <= k < |sel| ==> r[k] == sel[k].1.(status := Sent)
  {
    seq(|sel|, k requires 0 <= k < |sel| => sel[k].1.(status := Sent))
  }

  /**
   * GetPendingCommandsAsync: the selected commands are marked Sent and returned;
   * every other command is left as it was.
   */
  method Poll(db: Database, deviceId: string, now: Time) returns (sent: seq<DeviceCommand>)
    requires db.Valid()
    modifies db`commands
    ensures db.Valid()
    ensures db.commands == SetStatus(old(db.commands), PollSelection(old(db.commands), db.devices, deviceId, now), Sent)
    ensures sent == Delivered(PollSelection(old(db.commands), db.devices, deviceId, now))
  {
    var sel := PollSelection(db.commands, db.devices, deviceId, now);
    MarkRows(db, sel, Sent);
    sent := Delivered(sel);
  }

  /** Every command a poll returns was pending, unexpired and addressed to that device, and is now Sent. */
  lemma PollDeliversOnlyPending(commands: seq<DeviceCommand>, devices: seq<Device>, deviceId: string, now: Time)
    ensures var sel := PollSelection(commands, devices, deviceId, now);
            var after := SetStatus(commands, sel, Sent);
            forall k :: 0 <= k < |sel| ==>
              var i := sel[k].0;
              && commands[i].status == Pending && commands[i].expiresAt > now
              && commands[i].deviceId in KeysOf(devices, deviceId)
              && after[i] == Delivered(sel)[k] && after[i].status == Sent
  {
  }

  /** A poll repeated at once returns none of the commands the first one returned. */
  lemma RepeatedPollReturnsNothingTwice(commands: seq<DeviceCommand>, devices: seq<Device>, deviceId: string, now: Time)
    ensures var first := PollSelection(commands, devices, deviceId, now);
            var second := PollSelection(SetStatus(commands, first, Sent), devices, deviceId, now);
            forall a, b :: 0 <= a < |first| && 0 <= b < |second| ==> first[a].0 != second[b].0
  {
    var first := PollSelection(commands, devices, deviceId, now);
    var after := SetStatus(commands, first, Sent);
    var second := PollSelection(after, devices, deviceId, now);
    forall a, b | 0 <= a < |first| && 0 <= b < |second| ensures first[a].0 != second[b].0 {
      assert first[a].0 in RowSet(first);
      assert after[first[a].0].status == Sent;
      assert after[second[b].0].status == Pending;
    }
  }

  /** The completion a device reports for one command. */
  function Acknowledged(c: DeviceCommand, success: bool, result: Option<string>, errorMessage: Option<string>,
                        now: Time): (a: DeviceCommand)
    ensures a.status == (if success then Completed else Failed)
    ensures a.acknowledgedAt == Some(now) && a.executionResult == result && a.errorMessage == errorMessage
    ensures a.(status := c.status, acknowledgedAt := c.acknowledgedAt, executionResult := c.executionResult,
               errorMessage := c.errorMessage) == c
  {
    c.(status := if success then Completed else Failed, acknowledgedAt := Some(now),
       executionResult := result, errorMessage := errorMessage)
  }

  /** FindAsync(commandId). */
  function CommandIndex(commands: seq<DeviceCommand>, id: int): (r: Option<nat>)
    ensures r.Some? ==> r.value < |commands| && commands[r.value].id == id
    ensures r.None? <==> forall i :: 0 <= i < |commands| ==> commands[i].id != id
  {
    FirstIndex(commands, (c: DeviceCommand) => c.id == id)
  }

  /**
   * AcknowledgeCommandAsync: false and no change for an unknown id; otherwise the
   * command's outcome is recorded whatever its status was, and the answer is true.
   */
  method Acknowledge(db: Database, commandId: int, success: bool, result: Option<string>,
                     errorMessage: Option<string>, now: Time) returns (found: bool)
    requires db.Valid()
    modifies db`commands
    ensures db.Valid()
    ensures found <==> exists i :: 0 <= i < |old(db.commands)| && old(db.commands)[i].id == commandId
    ensures !found ==> db.commands == old(db.commands)
    ensures found ==> var i := CommandIndex(old(db.commands), commandId).value;
      db.commands == old(db.commands)[i := Acknowledged(old(db.commands)[i], success, result, errorMessage, now)]
  {
    var index := CommandIndex(db.commands, commandId);
    if index.None? {
      return false;
    }
    var i := index.value;
    db.commands := db.commands[i := Acknowledged(db.commands[i], success, result, errorMessage, now)];
    found := true;
  }

  /** OrderByDescending(CreatedAt). */
  predicate NewestFirst(a: DeviceCommand, b: DeviceCommand) {
    a.createdAt >= b.createdAt
  }

  function OfDevice(deviceKey: int): DeviceCommand -> bool {
    (c: DeviceCommand) => c.deviceId == deviceKey
  }

  /** GetDeviceCommandHistoryAsync: that device's commands, newest first, at most `take` (none when negative). */
  function History(commands: seq<DeviceCommand>, deviceKey: int, take: int): (r: seq<DeviceCommand>)
    ensures var m := |Filter(commands, OfDevice(deviceKey))|;
            |r| == if m <= take then m else if take < 0 then 0 else take
    ensures multiset(r) <= multiset(Filter(commands, OfDevice(deviceKey)))
    ensures forall k :: 0 <= k < |r| ==> r[k] in commands && r[k].deviceId == deviceKey
    ensures SortedBy(r, NewestFirst)
    ensures |Filter(commands, OfDevice(deviceKey))| <= take ==> multiset(r) == multiset(Filter(commands, OfDevice(deviceKey)))
    ensures forall c :: c in commands && c.deviceId == deviceKey && c !in r ==>
      forall k :: 0 <= k < |r| ==> r[k].createdAt >= c.createdAt
  {
    assert TotalPreorder(NewestFirst);
    Query(commands, OfDevice(deviceKey), NewestFirst, if take < 0 then 0 else take)
  }

  /** A command the sweep expires at `now`: past its expiry and not yet finished. */
  predicate Sweepable(now: Time, row: (nat, DeviceCommand)) {
    row.1.expiresAt < now && (row.1.status == Pending || row.1.status == Sent)
  }

  function SweepablePredicate(now: Time): ((nat, DeviceCommand)) -> bool {
    (row: (nat, DeviceCommand)) => Sweepable(now, row)
  }

  /** The rows `Where(c => c.ExpiresAt < now && (Pending || Sent))` reads. */
  function SweepSelection(commands: seq<DeviceCommand>, now: Time): (rows: seq<(nat, DeviceCommand)>)
    ensures forall k :: 0 <= k < |rows| ==> rows[k].0 < |commands|
    ensures forall i :: 0 <= i < |commands| ==> (i in RowSet(rows) <==> Sweepable(now, (i, commands[i])))
  {
    var rows := Filter(Indexed(commands), SweepablePredicate(now));
    IndexedFilter(commands, SweepablePredicate(now));
    assert forall i :: 0 <= i < |commands| ==> (i in RowSet(rows) <==> Sweepable(now, (i, commands[i]))) by {
      forall i | 0 <= i < |commands| ensures (i in RowSet(rows) <==> Sweepable(now, (i, commands[i]))) {
        if i in RowSet(rows) {
          var k :| 0 <= k < |rows| && rows[k].0 == i;
          assert rows[k] == (i, commands[i]);
        }
        if Sweepable(now, (i, commands[i])) {
          var k :| 0 <= k < |rows| && rows[k] == (i, commands[i]);
          assert rows[k].0 in RowSet(rows);
        }
      }
    }
    rows
  }

  /** The table after a sweep at `now`. */
  function Swept(commands: seq<DeviceCommand>, now: Time): (r: seq<DeviceCommand>)
    ensures |r| == |commands|
    ensures forall i :: 0 <= i < |commands| ==>
      r[i] == if commands[i].expiresAt < now && commands[i].status in {Pending, Sent}
              then commands[i].(status := Expired) else commands[i]
  {
    SetStatus(commands, SweepSelection(commands, now), Expired)
  }

  /** CleanupExpiredCommandsAsync: exactly the overdue Pending or Sent commands become Expired. */
  method Sweep(db: Database, now: Time)
    requires db.Valid()
    modifies db`commands
    ensures db.Valid()
    ensures db.commands == Swept(old(db.commands), now)
  {
    var rows := SweepSelection(db.commands, now);
    MarkRows(db, rows, Expired);
  }

  /** Sweeping twice at the same time changes nothing the first sweep did not. */
  lemma SweepIdempotent(commands: seq<DeviceCommand>, now: Time)
    ensures Swept(Swept(commands, now), now) == Swept(commands, now)
  {
    var once := Swept(commands, now);
    var twice := Swept(once, now);
    forall i | 0 <= i < |commands| ensures twice[i] == once[i] {
    }
  }

  /** A command expiring exactly at `now` is neither handed out nor expired. */
  lemma ExpiringNowIsInLimbo(commands: seq<DeviceCommand>, devices: seq<Device>, deviceId: string, now: Time, i: nat)
    requires i < |commands| && commands[i].expiresAt == now
    ensures forall k :: 0 <= k < |PollSelection(commands, devices, deviceId, now)| ==>
      PollSelection(commands, devices, deviceId, now)[k].0 != i
    ensures Swept(commands, now)[i] == commands[i]
  {
  }
}
