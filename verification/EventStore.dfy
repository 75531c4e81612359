/** The event table and the catch-up cursors: their SQL statements as functions from table to table. */
module EventStore {
  import opened Common

  const DAY := 86_400_000

  datatype DeliveryStatus = AwaitingDelivery | Delivered | FailedDelivery

  /** The columns of `processed_events` that later statements read or write. */
  datatype EventRow = EventRow(
    walletId: string, recovered: bool, receivedAt: int, status: DeliveryStatus, attempts: nat,
    lastError: Option<string>, deliveredAt: Option<int>, nextAttemptAt: Option<int>)

  type Events = map<string, EventRow>

  type Cursors = map<string, int>

  /** INSERT ... ON CONFLICT (event_key) DO NOTHING. */
  function InsertIfNew(t: Events, key: string, walletId: string, recovered: bool, now: int): (bool, Events) {
    if key in t then (false, t)
    else (true, t[key := EventRow(walletId, recovered, now, AwaitingDelivery, 0, None, None, None)])
  }

  /** `markDelivery`: no guard on the status found. */
  function Mark(t: Events, key: string, status: DeliveryStatus, attempts: nat, error: Option<string>,
                nextAttemptAt: Option<int>, now: int): Events
  {
    if key !in t then t
    else t[key := t[key].(status := status, attempts := attempts, lastError := error,
                          deliveredAt := if status.Delivered? then Some(now) else t[key].deliveredAt,
                          nextAttemptAt := nextAttemptAt)]
  }

  /** The WHERE clause of `undeliveredEvents`. */
  predicate Selectable(row: EventRow, olderThanMs: int, now: int) {
    && !row.status.Delivered?
    && row.receivedAt < now - olderThanMs
    && (row.nextAttemptAt.None? || row.nextAttemptAt.value <= now)
  }

  /** DELETE ... WHERE received_at < now() - days: delivered or not. */
  function PruneOld(t: Events, days: nat, now: int): Events {
    map key | key in t && !(t[key].receivedAt < now - days * DAY) :: t[key]
  }

  // ---- Cursors ----

  function SeedCursor(c: Cursors, walletId: string, at: int): Cursors {
    if walletId in c then c else c[walletId := at]
  }

  function AdvanceCursor(c: Cursors, walletId: string, at: int): Cursors {
    c[walletId := if walletId in c then Max(c[walletId], at) else at]
  }

  /** No cursor is lost or moves back. */
  predicate CursorsAdvance(c: Cursors, c': Cursors) {
    forall id :: id in c ==> id in c' && c[id] <= c'[id]
  }

  // ---- In place ----

  class EventTables {
    var events: Events
    var cursors: Cursors

    constructor ()
      ensures events == map[] && cursors == map[]
    {
      events, cursors := map[], map[];
    }

    method InsertEventIfNew(key: string, walletId: string, recovered: bool, now: int) returns (isNew: bool)
      modifies this`events
      ensures (isNew, events) == InsertIfNew(old(events), key, walletId, recovered, now)
      ensures isNew <==> key !in old(events)
      ensures events == if isNew then old(events)[key := events[key]] else old(events)
      ensures isNew ==>
                && key in events && events[key].walletId == walletId && events[key].recovered == recovered
                && events[key].receivedAt == now && events[key].status == AwaitingDelivery
                && events[key].attempts == 0 && events[key].nextAttemptAt.None?
    {
      if key in events {
        return false;
      }
      events := events[key := EventRow(walletId, recovered, now, AwaitingDelivery, 0, None, None, None)];
      return true;
    }

    method MarkDelivery(key: string, status: DeliveryStatus, attempts: nat, error: Option<string>,
            nextAttemptAt: Option<int>, now: int)
      modifies this`events
      ensures events == Mark(old(events), key, status, attempts, error, nextAttemptAt, now)
      ensures events.Keys == old(events).Keys
      ensures forall k :: k in events && k != key ==> events[k] == old(events)[k]
      ensures key in events ==>
                && events[key].receivedAt == old(events)[key].receivedAt
                && events[key].walletId == old(events)[key].walletId
                && events[key].status == status && events[key].attempts == attempts
                && events[key].lastError == error && events[key].nextAttemptAt == nextAttemptAt
                && events[key].deliveredAt == if status == Delivered then Some(now) else old(events)[key].deliveredAt
    {
      if key in events {
        var row := events[key];
        if status.Delivered? {
          row := row.(deliveredAt := Some(now));
        }
        events := events[key := row.(status := status, attempts := attempts, lastError := error,
                                     nextAttemptAt := nextAttemptAt)];
      }
    }

    method PruneEvents(days: nat, now: int) returns (count: nat)
      modifies this`events
      ensures events == PruneOld(old(events), days, now) && count == |old(events)| - |events|
      ensures forall k :: k in events
                          <==> k in old(events) && now - old(events)[k].receivedAt <= days * DAY
      ensures forall k :: k in events ==> events[k] == old(events)[k]
    {
      var kept := PruneOld(events, days, now);
      KeptFewer(events, days, now);
      count := |events| - |kept|;
      events := kept;
    }

    method Seed(walletId: string, at: int)
      modifies this`cursors
      ensures cursors == SeedCursor(old(cursors), walletId, at) && CursorsAdvance(old(cursors), cursors)
      ensures cursors == if walletId in old(cursors) then old(cursors) else old(cursors)[walletId := at]
    {
      if walletId !in cursors {
        cursors := cursors[walletId := at];
      }
    }

    method Advance(walletId: string, at: int)
      modifies this`cursors
      ensures cursors == AdvanceCursor(old(cursors), walletId, at) && CursorsAdvance(old(cursors), cursors)
      ensures cursors
              == old(cursors)[walletId := if walletId in old(cursors) then Max(old(cursors)[walletId], at) else at]
    {
      if walletId !in cursors || cursors[walletId] < at {
        cursors := cursors[walletId := at];
      }
    }
  }

  lemma KeptFewer(t: Events, days: nat, now: int)
    ensures |PruneOld(t, days, now)| <= |t|
  {
    var kept := PruneOld(t, days, now);
    SubsetSize(kept.Keys, t.Keys);
    assert |kept| == |kept.Keys| && |t| == |t.Keys|;
  }

  lemma {:induction false} SubsetSize(a: set<string>, b: set<string>)
    requires a <= b
    ensures |a| <= |b|
    decreases |a|
  {
    if a != {} {
      var x :| x in a;
      SubsetSize(a - {x}, b - {x});
    }
  }
}
